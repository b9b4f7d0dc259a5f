/** The route table over a history of registrations, departures, claims and
    renames: what a label depends on, and how long a tab handle is good for. */
module RouteEpochs {
  import opened Prelude
  import opened Handles
  import opened RouteLabels
  import opened RouteClaims

  /** A live route: `custom` when the operator named it. */
  datatype Live = Live(want: Want, custom: bool, name: Option<string>, gen: nat)

  /** The profile store's generations, and the live routes by installId. */
  datatype Bridge = Bridge(store: map<string, nat>, live: map<string, Live>)

  datatype Act =
    | Register(id: string, want: Want, custom: bool)
    | Leave(id: string)
    | Claim(id: string, slug: string, desired: string)
    | Rename(id: string, desired: string)
    | Drop(id: string, desired: string)

  function Wants(live: map<string, Live>): Table { map id | id in live :: live[id].want }

  function Gen(store: map<string, nat>, id: string): nat { if id in store then store[id] else 0 }

  /** nextGeneration, written to the route. */
  function Bump(s: Bridge, id: string): Bridge
    requires id in s.live
  {
    var g := Gen(s.store, id) + 1;
    Bridge(s.store[id := g], s.live[id := s.live[id].(gen := g)])
  }

  /** A route that had a name and is given another: onLabelChanged is called. */
  predicate Moves(live: map<string, Live>, labels: map<string, string>, id: string) {
    id in live && id in labels && live[id].name.Some? && live[id].name != Some(labels[id])
  }

  function Relabel(s: Bridge, labels: map<string, string>): Bridge {
    Bridge(s.store + map id | id in s.live && Moves(s.live, labels, id) :: Gen(s.store, id) + 1,
           map id | id in s.live && id in labels ::
             s.live[id].(name := Some(labels[id]),
                         gen := if Moves(s.live, labels, id) then Gen(s.store, id) + 1 else s.live[id].gen))
  }

  /** #resolveTable: every label again, and a new generation for each that moved. */
  function Resolve(h: Hash, s: Bridge): Bridge { Relabel(s, Labels(h, Wants(s.live))) }

  /** setDesiredLabel. */
  function Desire(h: Hash, s: Bridge, id: string, desired: string, custom: bool): Bridge
    requires id in s.live
  {
    Resolve(h, s.(live := s.live[id := s.live[id].(want := s.live[id].want.(desired := desired), custom := custom)]))
  }

  /** The route table with a route just registered, not named yet. */
  function Added(s: Bridge, id: string, want: Want, custom: bool): Bridge {
    var g := Gen(s.store, id) + 1;
    Bridge(s.store[id := g], s.live[id := Live(want, custom, None, g)])
  }

  function Attach(h: Hash, s: Bridge, id: string, want: Want, custom: bool): Bridge {
    Resolve(h, Added(s, id, want, custom))
  }

  function Reslug(s: Bridge, id: string, slug: string): Bridge
    requires id in s.live
  {
    s.(live := s.live[id := s.live[id].(want := s.live[id].want.(slug := slug))])
  }

  /** claimProfile: a claimed directory, a new generation, and the derived name
      unless the operator chose one. */
  function ClaimAs(h: Hash, s: Bridge, id: string, slug: string, desired: string): Bridge
    requires id in s.live
  {
    var c := Bump(Reslug(s, id, slug), id);
    if s.live[id].custom then c else Desire(h, c, id, desired, false)
  }

  function Unclaimed(s: Bridge, id: string): Bridge
    requires id in s.live
  {
    s.(live := s.live[id := s.live[id].(want := s.live[id].want.(slug := "", key := "install|" + id))])
  }

  /** dropClaim: no directory, the key of an unclaimed route, the unclaimed name. */
  function DropAs(h: Hash, s: Bridge, id: string, desired: string): Bridge
    requires id in s.live
  {
    Desire(h, Bump(Unclaimed(s, id), id), id, desired, false)
  }

  function Step(h: Hash, s: Bridge, a: Act): Bridge {
    match a
    case Register(id, want, custom) => Attach(h, s, id, want, custom)
    case Leave(id) => if id in s.live then Resolve(h, s.(live := s.live - {id})) else s
    case Claim(id, slug, desired) => if id in s.live then ClaimAs(h, s, id, slug, desired) else s
    case Rename(id, desired) => if id in s.live then Desire(h, Bump(s, id), id, desired, true) else s
    case Drop(id, desired) => if id in s.live then DropAs(h, s, id, desired) else s
  }

  function Run(h: Hash, s: Bridge, acts: seq<Act>): Bridge
    decreases acts
  {
    if acts == [] then s else Run(h, Step(h, s, acts[0]), acts[1..])
  }

  /* ---- labels follow the set of routes ---- */

  ghost predicate InSync(h: Hash, s: Bridge) {
    forall id :: id in s.live ==> s.live[id].name == Some(Label(h, Wants(s.live), id))
  }

  /** A claim under a name the operator chose: the table is not resolved again. */
  predicate Quiet(s: Bridge, a: Act) { a.Claim? && a.id in s.live && s.live[a.id].custom }

  lemma ResolveSyncs(h: Hash, s: Bridge)
    ensures InSync(h, Resolve(h, s)) && Wants(Resolve(h, s).live) == Wants(s.live)
  {
    assert Wants(Resolve(h, s).live) == Wants(s.live);
  }

  lemma DesireSyncs(h: Hash, s: Bridge, id: string, desired: string, custom: bool)
    requires id in s.live
    ensures InSync(h, Desire(h, s, id, desired, custom))
  {
    ResolveSyncs(h, s.(live := s.live[id := s.live[id].(want := s.live[id].want.(desired := desired), custom := custom)]));
  }

  /** The act decides every label again, or changes nothing. */
  predicate Resolves(s: Bridge, a: Act) { a.Register? || (a.id in s.live && !Quiet(s, a)) }

  /** The labels are still decided after the run: `decided` says whether they are
      before it; a claim under a name the operator chose keeps them so if it is
      steady, and any act that decides them again makes up for one that is not. */
  ghost predicate Settles(h: Hash, s: Bridge, acts: seq<Act>, decided: bool)
    decreases acts
  {
    if acts == [] then decided
    else
      var a := acts[0];
      Settles(h, Step(h, s, a), acts[1..],
              Resolves(s, a) || (decided && (Quiet(s, a) ==> Steady(h, Wants(s.live), a.id, a.slug))))
  }

  lemma ResolvesSyncs(h: Hash, s: Bridge, a: Act)
    requires Resolves(s, a)
    ensures InSync(h, Step(h, s, a))
  {
    match a
    case Register(id, want, custom) => ResolveSyncs(h, Added(s, id, want, custom));
    case Leave(id) => ResolveSyncs(h, s.(live := s.live - {id}));
    case Claim(id, slug, desired) => DesireSyncs(h, Bump(Reslug(s, id, slug), id), id, desired, false);
    case Rename(id, desired) => DesireSyncs(h, Bump(s, id), id, desired, true);
    case Drop(id, desired) => DesireSyncs(h, Bump(Unclaimed(s, id), id), id, desired, false);
  }

  lemma {:induction false} RunSyncs(h: Hash, s: Bridge, acts: seq<Act>, decided: bool)
    requires (decided ==> InSync(h, s)) && Settles(h, s, acts, decided)
    ensures InSync(h, Run(h, s, acts))
    decreases acts
  {
    if acts != [] {
      var a := acts[0];
      if Resolves(s, a) {
        ResolvesSyncs(h, s, a);
      } else if decided && Quiet(s, a) && Steady(h, Wants(s.live), a.id, a.slug) {
        SteadyClaimSyncs(h, s, a);
      }
      RunSyncs(h, Step(h, s, a), acts[1..],
               Resolves(s, a) || (decided && (Quiet(s, a) ==> Steady(h, Wants(s.live), a.id, a.slug))));
    }
  }

  /** Any two histories that end with the same routes wanting the same names
      end with the same labels, whatever happened on the way. */
  lemma LabelsForgetTheHistory(h: Hash, s: Bridge, t: Bridge, es: seq<Act>, fs: seq<Act>)
    requires s.live == map[] && t.live == map[]
    requires Settles(h, s, es, true) && Settles(h, t, fs, true)
    requires Wants(Run(h, s, es).live) == Wants(Run(h, t, fs).live)
    ensures var u, v := Run(h, s, es).live, Run(h, t, fs).live;
            u.Keys == v.Keys && forall id :: id in u ==> u[id].name == v[id].name
  {
    RunSyncs(h, s, es, true);
    RunSyncs(h, t, fs, true);
    var u, v := Run(h, s, es).live, Run(h, t, fs).live;
    assert u.Keys == Wants(u).Keys == Wants(v).Keys == v.Keys;
  }

  lemma QuietClaimLags(h: Hash, s: Bridge, a: Act)
    requires InSync(h, s) && Quiet(s, a)
    ensures var t := Step(h, s, a);
            && Wants(t.live) == Moved(Wants(s.live), a.id, a.slug)
            && (InSync(h, t) <==> SameLabels(h, Wants(s.live), Wants(t.live)))
  {
    QuietNames(h, s, a);
  }

  lemma SteadyClaimSyncs(h: Hash, s: Bridge, a: Act)
    requires InSync(h, s) && Quiet(s, a) && Steady(h, Wants(s.live), a.id, a.slug)
    ensures InSync(h, Step(h, s, a))
  {
    QuietClaimLags(h, s, a);
    SteadyKeeps(h, Wants(s.live), a.id, a.slug);
  }

  /** A claim under a name the operator chose leaves every label as it was. They
      are still those of the set of routes if and only if nobody else wants the
      name, the suffix does not move, or both suffixes are shared by two others. */
  lemma QuietClaimIff(h: Hash, s: Bridge, a: Act)
    requires InSync(h, s) && Quiet(s, a)
    requires NoOwnHash(h, Wants(s.live)) && NoOwnHash(h, Moved(Wants(s.live), a.id, a.slug))
    ensures InSync(h, Step(h, s, a)) <==> Steady(h, Wants(s.live), a.id, a.slug)
  {
    QuietClaimLags(h, s, a);
    SteadyIff(h, Wants(s.live), a.id, a.slug);
  }

  lemma QuietNames(h: Hash, s: Bridge, a: Act)
    requires Quiet(s, a)
    ensures var t := Step(h, s, a);
            && t.live.Keys == s.live.Keys && (forall id :: id in t.live ==> t.live[id].name == s.live[id].name)
            && Wants(t.live) == Moved(Wants(s.live), a.id, a.slug)
  {
  }

  /** Two routes that want the name "work", the first under a directory of that slug. */
  predicate Two(ms: Table, slug: string) {
    ms.Keys == {"a", "b"} && ms["a"] == Want("work", slug, "k") && ms["b"] == Want("work", "", "k")
  }

  /** And it can change one: the first of these is called after its directory. */
  lemma DirectoryNamesTheRoute(h: Hash, ms: Table, slug: string)
    requires SixLong(h) && slug != "" && |slug| != 6 && Two(ms, slug)
    ensures Label(h, ms, "a") == "work-" + slug && Label(h, ms, "b") == "work-" + h("k")
  {
    assert Base(ms, "a") == Base(ms, "b") == "work";
    assert Suffixed(h, ms, "a") == "work" + "-" + slug == "work-" + slug;
    assert Suffixed(h, ms, "b") == "work" + "-" + h("k") == "work-" + h("k");
    assert |Suffixed(h, ms, "a")| != |Suffixed(h, ms, "b")|;
  }

  lemma Registers(h: Hash, s: Bridge, a: Act) returns (t: Bridge)
    requires a.Register?
    ensures t == Step(h, s, a)
    ensures InSync(h, t) && t.live.Keys == s.live.Keys + {a.id}
    ensures t.live[a.id].want == a.want && t.live[a.id].custom == a.custom
    ensures forall o :: o in s.live && o != a.id ==> t.live[o].want == s.live[o].want && t.live[o].custom == s.live[o].custom
  {
    t := Step(h, s, a);
    ResolveSyncs(h, Added(s, a.id, a.want, a.custom));
  }

  /** From nobody: two profiles register under one custom name, and the first is
      then claimed for another directory. Its label is still that of the old one. */
  lemma LabelsCanLag(h: Hash, s0: Bridge, a: Act, b: Act) returns (one: Bridge, two: Bridge, t: Bridge)
    requires SixLong(h) && s0.live.Keys == {}
    requires a == Register("a", Want("work", "x", "k"), true) && b == Register("b", Want("work", "", "k"), true)
    ensures one == Step(h, s0, a) && two == Step(h, one, b) && t == Step(h, two, Claim("a", "yy", "work"))
    ensures InSync(h, two) && "a" in t.live && t.live["a"].name == Some("work-" + "x") && !InSync(h, t)
  {
    one := Registers(h, s0, a);
    two := Registers(h, one, b);
    t := Lags(h, two);
  }

  lemma Lags(h: Hash, s: Bridge) returns (t: Bridge)
    requires SixLong(h) && InSync(h, s) && s.live.Keys == {"a", "b"} && s.live["a"].custom
    requires s.live["a"].want == Want("work", "x", "k") && s.live["b"].want == Want("work", "", "k")
    ensures t == Step(h, s, Claim("a", "yy", "work"))
    ensures "a" in t.live && t.live["a"].name == Some("work-" + "x") && !InSync(h, t)
  {
    var act := Claim("a", "yy", "work");
    QuietNames(h, s, act);
    DirectoryNamesTheRoute(h, Wants(s.live), "x");
    t := Step(h, s, act);
    assert t.live["a"].name == s.live["a"].name == Some(Label(h, Wants(s.live), "a"));
    assert t.live["a"].want == Wants(t.live)["a"] && t.live["b"].want == Wants(t.live)["b"];
    OutOfSync(h, t);
  }

  lemma OutOfSync(h: Hash, t: Bridge)
    requires SixLong(h) && t.live.Keys == {"a", "b"} && t.live["a"].name == Some("work-" + "x")
    requires t.live["a"].want == Want("work", "yy", "k") && t.live["b"].want == Want("work", "", "k")
    ensures !InSync(h, t)
  {
    DirectoryNamesTheRoute(h, Wants(t.live), "yy");
    assert |"work-" + "yy"| != |"work-" + "x"|;
    assert t.live["a"].name != Some(Label(h, Wants(t.live), "a"));
  }

  /* ---- generations ---- */

  /** Every live route holds the generation the store gave it last. */
  ghost predicate Counted(s: Bridge) {
    forall id :: id in s.live ==> id in s.store && s.live[id].gen == s.store[id]
  }

  ghost predicate Good(s: Bridge) {
    Counted(s) && forall id :: id in s.live ==> s.live[id].name.Some?
  }

  /** For `id`: no generation goes back, and a name that changes takes a new one. */
  ghost predicate Onward(s: Bridge, t: Bridge, id: string) {
    && Gen(s.store, id) <= Gen(t.store, id)
    && (id in s.live && id in t.live && s.live[id].name.Some? && t.live[id].name != s.live[id].name
        ==> Gen(s.store, id) < Gen(t.store, id))
  }

  lemma ResolveOnward(h: Hash, s: Bridge, id: string)
    requires Counted(s)
    ensures Good(Resolve(h, s)) && Onward(s, Resolve(h, s), id) && Resolve(h, s).live.Keys == s.live.Keys
  {
  }

  lemma DesireOnward(h: Hash, s: Bridge, id: string, desired: string, custom: bool, o: string)
    requires Counted(s) && id in s.live
    ensures var t := Desire(h, s, id, desired, custom);
            Good(t) && Onward(s, t, o) && t.live.Keys == s.live.Keys
  {
    ResolveOnward(h, s.(live := s.live[id := s.live[id].(want := s.live[id].want.(desired := desired), custom := custom)]), o);
  }

  lemma AttachOnward(h: Hash, s: Bridge, id: string, want: Want, custom: bool, o: string)
    requires Good(s)
    ensures var t := Attach(h, s, id, want, custom);
            && Good(t) && Onward(s, t, o) && Gen(s.store, id) < Gen(t.store, id)
            && t.live.Keys == s.live.Keys + {id}
  {
    var c := Added(s, id, want, custom);
    AddedCounted(s, id, want, custom, o);
    ResolveOnward(h, c, o);
    ResolveOnward(h, c, id);
    AddedOnward(s, c, Resolve(h, c), id, o);
  }

  lemma AddedCounted(s: Bridge, id: string, want: Want, custom: bool, o: string)
    requires Counted(s)
    ensures var c := Added(s, id, want, custom);
            && Counted(c) && Gen(s.store, id) < Gen(c.store, id) && id in c.store && c.live.Keys == s.live.Keys + {id}
            && (o != id ==> Gen(c.store, o) == Gen(s.store, o) && (o in s.live ==> c.live[o] == s.live[o]))
  {
  }

  lemma AddedOnward(s: Bridge, c: Bridge, t: Bridge, id: string, o: string)
    requires id in c.store && Gen(s.store, id) < c.store[id] && c.live.Keys == s.live.Keys + {id}
    requires o != id ==> Gen(c.store, o) == Gen(s.store, o) && (o in s.live ==> c.live[o] == s.live[o])
    requires Onward(c, t, o) && Onward(c, t, id)
    ensures Onward(s, t, o) && Gen(s.store, id) < Gen(t.store, id)
  {
  }

  /** The generation strictly increases whenever a route registers again or its
      name changes, and nothing but a registration brings a route to life. */
  lemma StepOnward(h: Hash, s: Bridge, a: Act, id: string)
    requires Good(s)
    ensures var t := Step(h, s, a);
            && Good(t) && Onward(s, t, id)
            && (a.Register? && a.id == id ==> Gen(s.store, id) < Gen(t.store, id))
            && (id in t.live && id !in s.live ==> a.Register? && a.id == id)
  {
    match a
    case Register(r, want, custom) => AttachOnward(h, s, r, want, custom, id);
    case Leave(r) => if r in s.live { ResolveOnward(h, s.(live := s.live - {r}), id); }
    case Claim(r, slug, desired) => if r in s.live { ClaimOnward(h, s, r, slug, desired, id); }
    case Rename(r, desired) => if r in s.live { DesireOnward(h, Bump(s, r), r, desired, true, id); }
    case Drop(r, desired) => if r in s.live { DropOnward(h, s, r, desired, id); }
  }

  lemma ClaimOnward(h: Hash, s: Bridge, id: string, slug: string, desired: string, o: string)
    requires Good(s) && id in s.live
    ensures var t := ClaimAs(h, s, id, slug, desired);
            Good(t) && Onward(s, t, o) && t.live.Keys == s.live.Keys
  {
    if !s.live[id].custom { DesireOnward(h, Bump(Reslug(s, id, slug), id), id, desired, false, o); }
  }

  lemma DropOnward(h: Hash, s: Bridge, id: string, desired: string, o: string)
    requires Good(s) && id in s.live
    ensures var t := DropAs(h, s, id, desired);
            Good(t) && Onward(s, t, o) && t.live.Keys == s.live.Keys
  {
    DesireOnward(h, Bump(Unclaimed(s, id), id), id, desired, false, o);
  }

  lemma {:induction false} RunOnward(h: Hash, s: Bridge, acts: seq<Act>, id: string)
    requires Good(s)
    ensures Good(Run(h, s, acts)) && Gen(s.store, id) <= Gen(Run(h, s, acts).store, id)
    ensures id in Run(h, s, acts).live && id !in s.live ==> Gen(s.store, id) < Gen(Run(h, s, acts).store, id)
    decreases acts
  {
    if acts != [] {
      StepOnward(h, s, acts[0], id);
      RunOnward(h, Step(h, s, acts[0]), acts[1..], id);
    }
  }

  /* ---- tab handles ---- */

  /** The handle the broker mints for tab `n` of the live route `id`. */
  function MintFor(s: Bridge, id: string, n: nat): string
    requires id in s.live && s.live[id].name.Some?
  {
    Mint(Handle(s.live[id].name.value, s.live[id].gen, n))
  }

  /** validateHandle: the raw tab id, or None for a refusal. */
  function Validate(l: Live, text: string): Option<nat> {
    var p := Parse(text);
    if p.None? || Some(p.value.name) != l.name || p.value.generation != l.gen then None
    else Some(p.value.tabId)
  }

  ghost predicate Plain(s: string) { s != "" && forall c :: c in s ==> !LineEnd(c) }

  ghost predicate Named(s: Bridge) {
    forall id :: id in s.live ==> s.live[id].name.Some? && Plain(s.live[id].name.value)
  }

  /** A handle is accepted by exactly the routes that have, now, the name and
      the generation it was minted under. */
  lemma AcceptedIff(s: Bridge, a: string, l: Live, n: nat)
    requires Named(s) && a in s.live
    ensures Validate(l, MintFor(s, a, n)) ==
              if l.name == s.live[a].name && l.gen == s.live[a].gen then Some(n) else None
  {
    MintRoundTrip(Handle(s.live[a].name.value, s.live[a].gen, n));
  }

  /** So among routes live at once under different names, only its own takes it. */
  lemma OthersRefuse(s: Bridge, a: string, b: string, n: nat)
    requires Named(s) && a in s.live && b in s.live && s.live[a].name != s.live[b].name
    ensures Validate(s.live[a], MintFor(s, a, n)) == Some(n)
    ensures Validate(s.live[b], MintFor(s, a, n)) == None
  {
    AcceptedIff(s, a, s.live[a], n);
    AcceptedIff(s, a, s.live[b], n);
  }

  /** `id` stays live under one name, and registers never, all through the run. */
  ghost predicate OneEra(h: Hash, s: Bridge, acts: seq<Act>, id: string)
    decreases acts
  {
    id in s.live &&
    (acts != [] ==>
       var t := Step(h, s, acts[0]);
       && !(acts[0].Register? && acts[0].id == id)
       && OneEra(h, t, acts[1..], id)
       && t.live[id].name == s.live[id].name && t.live[id].gen == s.live[id].gen)
  }

  lemma {:induction false} SameGenerationOneEra(h: Hash, s: Bridge, acts: seq<Act>, id: string)
    requires Good(s) && id in s.live && id in Run(h, s, acts).live
    requires Gen(Run(h, s, acts).store, id) == Gen(s.store, id)
    ensures OneEra(h, s, acts, id) && Run(h, s, acts).live[id].name == s.live[id].name
    decreases acts
  {
    if acts != [] {
      StepOnward(h, s, acts[0], id);
      RunOnward(h, Step(h, s, acts[0]), acts[1..], id);
      SameGenerationOneEra(h, Step(h, s, acts[0]), acts[1..], id);
    }
  }

  lemma {:induction false} OneEraKeeps(h: Hash, s: Bridge, acts: seq<Act>, id: string)
    requires OneEra(h, s, acts, id)
    ensures var t := Run(h, s, acts);
            id in t.live && t.live[id].name == s.live[id].name && t.live[id].gen == s.live[id].gen
    decreases acts
  {
    if acts != [] {
      OneEraKeeps(h, Step(h, s, acts[0]), acts[1..], id);
    }
  }

  /** A handle minted for a profile is accepted by it later exactly when the era
      is the same one: since then the profile never left, never registered again
      and was given no other name or generation. */
  lemma AcceptedInItsEra(h: Hash, s: Bridge, acts: seq<Act>, id: string, n: nat)
    requires Good(s) && Named(s) && id in s.live
    ensures var t := Run(h, s, acts);
            (id in t.live && Validate(t.live[id], MintFor(s, id, n)) == Some(n)) <==> OneEra(h, s, acts, id)
    ensures var t := Run(h, s, acts);
            id in t.live && !OneEra(h, s, acts, id) ==> Validate(t.live[id], MintFor(s, id, n)) == None
  {
    var t := Run(h, s, acts);
    RunOnward(h, s, acts, id);
    if id in t.live {
      AcceptedIff(s, id, t.live[id], n);
      if t.live[id].gen == s.live[id].gen { SameGenerationOneEra(h, s, acts, id); }
    }
    if OneEra(h, s, acts, id) { OneEraKeeps(h, s, acts, id); }
  }

  /** `id` is the only live route, under the name "work", in its first generation. */
  ghost predicate OnlyRoute(s: Bridge, id: string) {
    s.live.Keys == {id} && s.live[id].name == Some("work") && s.live[id].gen == 1
  }

  lemma FirstRoute(h: Hash, s: Bridge, id: string)
    requires s.live.Keys == {} && id !in s.store
    ensures var t := Step(h, s, Register(id, Want("work", "", ""), false));
            OnlyRoute(t, id) && t.store.Keys == s.store.Keys + {id}
  {
    var c := Added(s, id, Want("work", "", ""), false);
    var ms := Wants(c.live);
    assert ms.Keys == {id} && ms[id].desired == "work";
    assert Alone(ms, id) && !Contested(h, ms, id);
  }

  lemma LastLeaves(h: Hash, s: Bridge, id: string)
    requires s.live.Keys == {id}
    ensures var t := Step(h, s, Leave(id)); t.live.Keys == {} && t.store.Keys == s.store.Keys
  {
    assert (s.live - {id}).Keys == {};
  }

  /** One profile, or live at once: across profiles and over time neither holds.
      A profile that takes the name of one that left, in its own first
      generation, accepts what was minted for the other. */
  lemma HandleOutlivesItsProfile(h: Hash, a: string, b: string, s0: Bridge, n: nat)
    requires a != b && s0.live.Keys == {} && a !in s0.store && b !in s0.store
    ensures var s := Step(h, s0, Register(a, Want("work", "", ""), false));
            var t := Step(h, Step(h, s, Leave(a)), Register(b, Want("work", "", ""), false));
            OnlyRoute(s, a) && OnlyRoute(t, b) && Validate(t.live[b], MintFor(s, a, n)) == Some(n)
  {
    FirstRoute(h, s0, a);
    var s := Step(h, s0, Register(a, Want("work", "", ""), false));
    LastLeaves(h, s, a);
    FirstRoute(h, Step(h, s, Leave(a)), b);
    SameNameSameHandle(s, a, Step(h, Step(h, s, Leave(a)), Register(b, Want("work", "", ""), false)), b, n);
  }

  lemma SameNameSameHandle(s: Bridge, a: string, t: Bridge, b: string, n: nat)
    requires OnlyRoute(s, a) && OnlyRoute(t, b)
    ensures Validate(t.live[b], MintFor(s, a, n)) == Some(n)
  {
    MintRoundTrip(Handle("work", 1, n));
  }
}
