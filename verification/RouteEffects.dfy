/** What a route is called, spelled out, and what each thing that happens to one
    does to it, to its handles, and to those of everybody else. */
module RouteEffects {
  import opened Prelude
  import opened Handles
  import opened RouteLabels
  import opened RouteClaims
  import opened RouteEpochs

  /* ---- names, spelled out ---- */

  /** What it wants to be called: its own id when it wants nothing. */
  ghost function Wish(ms: Table, id: string): string
    requires id in ms
  {
    if ms[id].desired == "" then id else ms[id].desired
  }

  /** What tells it from others of one wish: its directory, or the hash of its key. */
  ghost function Tail(h: Hash, ms: Table, id: string): string
    requires id in ms
  {
    if ms[id].slug == "" then h(ms[id].key) else ms[id].slug
  }

  ghost predicate Shares(ms: Table, id: string, o: string)
    requires id in ms
  {
    o in ms && o != id && Wish(ms, o) == Wish(ms, id)
  }

  lemma TailTells(base: string, a: string, b: string)
    ensures base + "-" + a == base + "-" + b <==> a == b
  {
    if base + "-" + a == base + "-" + b {
      assert (base + "-" + a)[|base| + 1..] == a && (base + "-" + b)[|base| + 1..] == b;
    }
  }

  lemma TailApart(h: Hash, ms: Table, id: string, o: string)
    requires id in ms && Shares(ms, id, o)
    ensures Suffixed(h, ms, o) == Suffixed(h, ms, id) <==> Tail(h, ms, o) == Tail(h, ms, id)
  {
    TailTells(Wish(ms, id), Tail(h, ms, o), Tail(h, ms, id));
  }

  /** A route that alone wishes a name is proposed it; one of several is proposed it
      with its own tail; and one whose tail another of them has, with its own hash. */
  lemma ProposalIs(h: Hash, ms: Table, id: string)
    requires id in ms
    ensures Proposal(h, ms, id) ==
              if forall o :: !Shares(ms, id, o) then Wish(ms, id)
              else if exists o :: Shares(ms, id, o) && Tail(h, ms, o) == Tail(h, ms, id) then Wish(ms, id) + "-" + h(id)
              else Wish(ms, id) + "-" + Tail(h, ms, id)
  {
    forall o ensures Shares(ms, id, o) <==> o in ms && o != id && Base(ms, o) == Base(ms, id) { }
    forall o | Shares(ms, id, o) ensures Suffixed(h, ms, o) == Suffixed(h, ms, id) <==> Tail(h, ms, o) == Tail(h, ms, id) {
      TailApart(h, ms, id, o);
    }
    if SameSuffix(h, ms, id) {
      var o :| o in ms && o != id && Base(ms, o) == Base(ms, id) && Suffixed(h, ms, o) == Suffixed(h, ms, id);
      assert Shares(ms, id, o) && Tail(h, ms, o) == Tail(h, ms, id);
    }
  }

  /** It is called what it is proposed, unless another is proposed that too; then its
      own hash is added. */
  lemma LabelIsProposal(h: Hash, ms: Table, id: string)
    requires id in ms
    ensures Label(h, ms, id) ==
              if exists o :: o in ms && o != id && Proposal(h, ms, o) == Proposal(h, ms, id) then Proposal(h, ms, id) + "-" + h(id)
              else Proposal(h, ms, id)
  {
  }

  /* ---- what each act does ---- */

  /** Nobody but `id` wants anything else than before. */
  ghost predicate OthersWant(s: Bridge, t: Bridge, id: string) {
    forall o :: o != id ==> (o in t.live <==> o in s.live) && (o in s.live ==> t.live[o].want == s.live[o].want && t.live[o].custom == s.live[o].custom)
  }

  ghost predicate Wants1(t: Bridge, id: string, want: Want, custom: bool) {
    id in t.live && t.live[id].want == want && t.live[id].custom == custom
  }

  lemma ResolveWants(h: Hash, s: Bridge)
    ensures var t := Resolve(h, s);
            t.live.Keys == s.live.Keys && forall o :: o in s.live ==> t.live[o].want == s.live[o].want && t.live[o].custom == s.live[o].custom
  {
  }

  lemma DesireWants(h: Hash, s: Bridge, id: string, desired: string, custom: bool)
    requires id in s.live
    ensures var t := Desire(h, s, id, desired, custom);
            Wants1(t, id, s.live[id].want.(desired := desired), custom) && OthersWant(s, t, id)
  {
    ResolveWants(h, s.(live := s.live[id := s.live[id].(want := s.live[id].want.(desired := desired), custom := custom)]));
  }

  /** A registration wants what it brings. */
  lemma RegisterWants(h: Hash, s: Bridge, id: string, want: Want, custom: bool)
    ensures var t := Step(h, s, Register(id, want, custom)); Wants1(t, id, want, custom) && OthersWant(s, t, id)
  {
    ResolveWants(h, Added(s, id, want, custom));
  }

  lemma LeaveWants(h: Hash, s: Bridge, id: string)
    ensures var t := Step(h, s, Leave(id)); id !in t.live && OthersWant(s, t, id)
  {
    if id in s.live { ResolveWants(h, s.(live := s.live - {id})); }
  }

  /** A claim takes the directory, and the derived name unless the operator chose
      one. */
  lemma ClaimWants(h: Hash, s: Bridge, id: string, slug: string, desired: string)
    requires id in s.live
    ensures var t, was := Step(h, s, Claim(id, slug, desired)), s.live[id];
            Wants1(t, id, if was.custom then was.want.(slug := slug) else was.want.(slug := slug, desired := desired), was.custom)
            && OthersWant(s, t, id)
  {
    DesireWants(h, Bump(Reslug(s, id, slug), id), id, desired, false);
  }

  /** A rename is the operator's choice, and changes nothing else it brings. */
  lemma RenameWants(h: Hash, s: Bridge, id: string, desired: string)
    requires id in s.live
    ensures var t := Step(h, s, Rename(id, desired)); Wants1(t, id, s.live[id].want.(desired := desired), true) && OthersWant(s, t, id)
  {
    DesireWants(h, Bump(s, id), id, desired, true);
  }

  /** A dropped claim leaves no directory and no chosen name. */
  lemma DropWants(h: Hash, s: Bridge, id: string, desired: string)
    requires id in s.live
    ensures var t := Step(h, s, Drop(id, desired)); Wants1(t, id, Want(desired, "", "install|" + id), false) && OthersWant(s, t, id)
  {
    DesireWants(h, Bump(Unclaimed(s, id), id), id, desired, false);
  }

  /** An act about a route takes one generation for it, and one more if it is given
      another name; a registration takes one, whatever name it had. */
  lemma ActRenews(h: Hash, s: Bridge, a: Act)
    requires Good(s) && (a.id in s.live || a.Register?)
    ensures var t := Step(h, s, a);
            a.id in t.live ==> t.live[a.id].gen == Gen(s.store, a.id) + 1
                               + if !a.Register? && t.live[a.id].name != s.live[a.id].name then 1 else 0
    ensures a.id in s.live ==> s.live[a.id].gen == Gen(s.store, a.id)
  {
    match a
    case Register(id, want, custom) =>
    case Leave(_) =>
    case Claim(id, slug, desired) => DesireRenews(h, Bump(Reslug(s, id, slug), id), id, desired, false);
    case Rename(id, desired) => DesireRenews(h, Bump(s, id), id, desired, true);
    case Drop(id, desired) => DesireRenews(h, Bump(Unclaimed(s, id), id), id, desired, false);
  }

  lemma DesireRenews(h: Hash, c: Bridge, id: string, desired: string, custom: bool)
    requires Good(c) && id in c.live
    ensures var t := Desire(h, c, id, desired, custom);
            id in t.live && t.live[id].gen == c.live[id].gen + if t.live[id].name != c.live[id].name then 1 else 0
  {
  }

  /** So it is the end of every handle minted for that route. */
  lemma ActEndsItsHandles(h: Hash, s: Bridge, a: Act, n: nat)
    requires Good(s) && Named(s) && a.id in s.live
    ensures var t := Step(h, s, a); a.id in t.live ==> Validate(t.live[a.id], MintFor(s, a.id, n)) == None
  {
    ActRenews(h, s, a);
    if a.id in Step(h, s, a).live { AcceptedIff(s, a.id, Step(h, s, a).live[a.id], n); }
  }

  /** Everybody else keeps its handles, unless the act gave it another name: then its
      generation is the next one. */
  lemma BystandersKeep(h: Hash, s: Bridge, a: Act, o: string)
    requires Good(s) && o in s.live && o != a.id
    ensures var t := Step(h, s, a);
            o in t.live && t.live[o].gen == s.live[o].gen + if t.live[o].name == s.live[o].name then 0 else 1
  {
  }

  lemma BystandersHandles(h: Hash, s: Bridge, a: Act, o: string, n: nat)
    requires Good(s) && Named(s) && o in s.live && o != a.id
    ensures var t := Step(h, s, a);
            o in t.live && Validate(t.live[o], MintFor(s, o, n)) == if t.live[o].name == s.live[o].name then Some(n) else None
  {
    BystandersKeep(h, s, a, o);
    AcceptedIff(s, o, Step(h, s, a).live[o], n);
  }
}
