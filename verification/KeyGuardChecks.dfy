/** What the marks of a key sequence stand for: questions really asked, verdicts
    really given, and the keys that were asked for. */
module KeyGuardChecks {
  import opened Prelude
  import opened KeyGuard
  import opened KeyGuardTheorems
  import opened KeyGuardTiming

  /* ---- one check ---- */

  /** A field check passes if and only if the page answered, the verdict allowed the
      field, and it is on the site the sequence is bound to, if it is bound. */
  lemma PassIff(w: World, k: Keys)
    ensures var (c, v) := GuardField(w, k);
            && (v == Pass <==> w.probe(k.tick).Seen? && w.probe(k.tick).allowed && (k.site == "" || w.probe(k.tick).host == k.site))
            && (v == Again <==> w.probe(k.tick) == Silent(false))
            && (v == Rethrow <==> w.probe(k.tick) == Broken)
            && c.sent == k.sent && c.enter == k.enter && c.tick == k.tick + 1
  {
  }

  ghost predicate Lets(w: World, site: string, n: nat) {
    w.probe(n).Seen? && w.probe(n).allowed && (site == "" || w.probe(n).host == site)
  }

  /** The first of `tries` answers from question `n` on that is not a page away for a
      moment lets the next key go. */
  ghost predicate LetsWithin(w: World, site: string, n: nat, tries: nat)
    decreases tries
  {
    tries > 0 && (Lets(w, site, n) || (w.probe(n) == Silent(false) && LetsWithin(w, site, n + 1, tries - 1)))
  }

  lemma {:induction false} FocusClearsIff(w: World, k: Keys, tries: nat)
    ensures CheckFocus(w, k, tries).1.Clear? <==> LetsWithin(w, k.site, k.tick, tries)
    decreases tries
  {
    if tries > 0 {
      PassIff(w, k);
      var (c, v) := GuardField(w, k);
      if v == Again { FocusClearsIff(w, c, tries - 1); }
    }
  }

  /** The tab stops loading within `tries` looks from question `n` on. */
  ghost predicate LoadsWithin(w: World, n: nat, tries: nat)
    decreases tries
  {
    tries > 0 && (w.loading(n) == Some(false) || (w.loading(n) == Some(true) && LoadsWithin(w, n + 1, tries - 1)))
  }

  lemma {:induction false} SettlesIff(w: World, k: Keys, tries: nat)
    ensures Settle(w, k, tries).1.Clear? <==> LoadsWithin(w, k.tick, tries)
    decreases tries
  {
    if tries > 0 && w.loading(k.tick) == Some(true) { SettlesIff(w, k.(tick := k.tick + 1), tries - 1); }
  }

  /** The next key may go if and only if there is time, the tab has loaded after an
      Enter, and one of eight checks passes before any is refused. */
  lemma GuardClearsIff(w: World, deadline: Option<int>, k: Keys)
    ensures var settled := if k.enter then Settle(w, k.(tick := k.tick + 1), 8).0.tick else k.tick + 1;
            GuardFocus(w, deadline, k).1.Clear? <==>
              && (deadline.None? || w.now(k.tick) < deadline.value - 500)
              && (k.enter ==> LoadsWithin(w, k.tick + 1, 8))
              && LetsWithin(w, k.site, settled, 8)
  {
    var t := k.(tick := k.tick + 1, trail := k.trail + [Tested(w.now(k.tick), k.tick)], enter := false);
    if k.enter {
      SettleTicks(w, t, k.(tick := k.tick + 1), 8);
      SettlesIff(w, t, 8);
      SettleSame(w, t, 8);
      FocusClearsIff(w, Settle(w, t, 8).0, 8);
    } else {
      FocusClearsIff(w, t, 8);
    }
  }

  lemma {:induction false} SettleTicks(w: World, a: Keys, b: Keys, tries: nat)
    requires a.tick == b.tick
    ensures Settle(w, a, tries).0.tick == Settle(w, b, tries).0.tick
    decreases tries
  {
    if tries > 0 && w.loading(a.tick) == Some(true) { SettleTicks(w, a.(tick := a.tick + 1), b.(tick := b.tick + 1), tries - 1); }
  }

  /* ---- every mark ---- */

  /** The mark is what the page answered to its question, when it did; a check of a
      field the verdict allowed; a key whose keyDown worked. */
  ghost predicate Real(w: World, m: Mark) {
    m.at == w.now(m.tick) &&
    match m
    case Tested(_, _) => true
    case Checked(host, secret, _, n) => w.probe(n) == Seen(host, secret, true)
    case Key(_, _, n) => w.works(n)
  }

  ghost predicate Genuine(w: World, k: Keys) {
    && (forall i :: 0 <= i < |k.trail| ==> Real(w, k.trail[i]) && k.trail[i].tick < k.tick)
    && (forall i, j :: 0 <= i < j < |k.trail| ==> k.trail[i].tick < k.trail[j].tick)
  }

  lemma Waited(w: World, k: Keys, c: Keys)
    requires Genuine(w, k) && c.trail == k.trail && k.tick <= c.tick
    ensures Genuine(w, c)
  {
  }

  lemma Marks(w: World, k: Keys, c: Keys, m: Mark)
    requires Genuine(w, k) && Real(w, m) && m.tick == k.tick && c.trail == k.trail + [m] && c.tick == k.tick + 1
    ensures Genuine(w, c)
  {
  }

  lemma FieldGenuine(w: World, k: Keys)
    requires Genuine(w, k)
    ensures Genuine(w, GuardField(w, k).0)
  {
    var (c, v) := GuardField(w, k);
    if v == Pass { Marks(w, k, c, c.trail[|k.trail|]); } else { Waited(w, k, c); }
  }

  lemma {:induction false} FocusGenuine(w: World, k: Keys, tries: nat)
    requires Genuine(w, k)
    ensures Genuine(w, CheckFocus(w, k, tries).0)
    decreases tries
  {
    if tries > 0 {
      FieldGenuine(w, k);
      var (c, v) := GuardField(w, k);
      if v == Again { FocusGenuine(w, c, tries - 1); }
    }
  }

  lemma CheckingGenuine(w: World, t: Keys, enter: bool, tries: nat)
    requires Genuine(w, t)
    ensures Genuine(w, Checking(w, t, enter, tries).0)
  {
    SettleSame(w, t, tries);
    var c := if enter then Settle(w, t, tries).0 else t;
    Waited(w, t, c);
    FocusGenuine(w, c, tries);
  }

  lemma GuardGenuine(w: World, deadline: Option<int>, k: Keys)
    requires Genuine(w, k)
    ensures Genuine(w, GuardFocus(w, deadline, k).0)
  {
    GuardIs(w, deadline, k);
    Waited(w, k, k.(tick := k.tick + 1));
    Marks(w, k, Timely(w, k), Tested(w.now(k.tick), k.tick));
    CheckingGenuine(w, Timely(w, k), k.enter, FOCUS_CHECK_TRIES);
  }

  lemma DispatchGenuine(w: World, k: Keys, what: string)
    requires Genuine(w, k)
    ensures Genuine(w, Dispatch(w, k, what).0)
  {
    var (d, o) := Down(w, k, what);
    if o.Clear? {
      Marks(w, k, d, Key(what, w.now(k.tick), k.tick));
      Waited(w, d, Up(w, d).0);
    } else {
      Waited(w, k, d);
    }
  }

  lemma BetweenGenuine(w: World, deadline: Option<int>, k: Keys)
    requires Genuine(w, k)
    ensures Genuine(w, Between(w, deadline, k).0)
  {
    if k.sent > 0 { GuardGenuine(w, deadline, k); }
  }

  lemma {:induction false} TypeGenuine(w: World, deadline: Option<int>, text: string, i: nat, k: Keys)
    requires i <= |text| && Genuine(w, k)
    ensures Genuine(w, TypeFrom(w, deadline, text, i, k).0)
    decreases |text| - i
  {
    if i < |text| {
      BetweenGenuine(w, deadline, k);
      var (g, o) := Between(w, deadline, k);
      var c := g.(sent := g.sent + 1, enter := text[i] == '\n');
      Waited(w, g, c);
      DispatchGenuine(w, c, [text[i]]);
      var (d, p) := TypeOne(w, deadline, text[i], k);
      if p.Clear? { TypeGenuine(w, deadline, text, i + 1, d); }
    }
  }

  lemma {:induction false} PressGenuine(w: World, deadline: Option<int>, keys: seq<string>, i: nat, k: Keys)
    requires i <= |keys| && Genuine(w, k)
    ensures Genuine(w, PressFrom(w, deadline, keys, i, k).0)
    decreases |keys| - i
  {
    if i < |keys| {
      BetweenGenuine(w, deadline, k);
      var (g, o) := Between(w, deadline, k);
      DispatchGenuine(w, g, keys[i]);
      var (d, p) := PressOne(w, deadline, keys[i], k);
      if p.Clear? { PressGenuine(w, deadline, keys, i + 1, d); }
    }
  }

  lemma FocusedGenuine(w: World, deadline: Option<int>, a: Keys)
    requires Genuine(w, a)
    ensures Genuine(w, Focused(w, deadline, a).0)
  {
    var (f, o) := Command(w, a);
    Waited(w, a, f);
    GuardGenuine(w, deadline, f);
  }

  /** On every page, each mark of `fill` is a question really asked and answered so,
      each after the one before: above all, each check that clears a key was of a
      field the verdict allowed. */
  lemma FillIsGenuine(w: World, deadline: Option<int>, text: string)
    ensures Genuine(w, Fill(w, deadline, text).0)
  {
    FieldGenuine(w, Start());
    var (a, v) := GuardField(w, Start());
    FocusedGenuine(w, deadline, a);
    var (g, o) := Focused(w, deadline, a);
    Waited(w, g, Command(w, g).0);
    TypeGenuine(w, deadline, text, 0, Command(w, g).0);
  }

  lemma PressIsGenuine(w: World, deadline: Option<int>, keys: seq<string>, selector: bool)
    ensures Genuine(w, Press(w, deadline, keys, selector).0)
  {
    FieldGenuine(w, Start());
    var (a, v) := GuardField(w, Start());
    FocusedGenuine(w, deadline, a);
    var (g, o) := if selector then Focused(w, deadline, a) else (a, Clear);
    Waited(w, g, Command(w, g).0);
    PressGenuine(w, deadline, keys, 0, Command(w, g).0);
  }

  /* ---- no key where none is allowed ---- */

  ghost predicate NothingAllowed(w: World) { forall n :: w.probe(n).Seen? ==> !w.probe(n).allowed }

  lemma {:induction false} NoneKeyed(trail: seq<Mark>)
    requires forall i :: 0 <= i < |trail| ==> !trail[i].Key?
    ensures Sent(trail) == 0
  {
    if trail != [] { NoneKeyed(trail[..|trail| - 1]); }
  }

  lemma UncheckedKeys(w: World, deadline: Option<int>, k: Keys, lenient: bool)
    requires NothingAllowed(w) && Genuine(w, k) && Guarded(deadline, k.trail, lenient)
    ensures Sent(k.trail) == 0
  {
    CheckedBeforeEachKey(deadline, k.trail, lenient);
    forall i | 0 <= i < |k.trail| ensures !k.trail[i].Key? {
      if i > 0 { assert Real(w, k.trail[i - 1]); }
    }
    NoneKeyed(k.trail);
  }

  /** Where every field is refused nothing is typed, and the sequence stops. */
  lemma RefusedFieldsGetNoKey(w: World, deadline: Option<int>, text: string, keys: seq<string>, selector: bool)
    requires NothingAllowed(w)
    ensures var (k, o) := Fill(w, deadline, text); Sent(k.trail) == 0 && !o.Clear?
    ensures var (k, o) := Press(w, deadline, keys, selector); Sent(k.trail) == 0 && !o.Clear?
  {
    FillIsGenuine(w, deadline, text);
    FillIsGuarded(w, deadline, text);
    UncheckedKeys(w, deadline, Fill(w, deadline, text).0, false);
    PressIsGenuine(w, deadline, keys, selector);
    PressIsGuarded(w, deadline, keys, selector);
    UncheckedKeys(w, deadline, Press(w, deadline, keys, selector).0, !selector);
    PassIff(w, Start());
  }

  /* ---- the right keys ---- */

  /** The keys that went out, in order. */
  ghost function Typed(trail: seq<Mark>): seq<string> {
    if trail == [] then []
    else Typed(trail[..|trail| - 1]) + if trail[|trail| - 1].Key? then [trail[|trail| - 1].what] else []
  }

  ghost function Chars(text: string): seq<string> { seq(|text|, i requires 0 <= i < |text| => [text[i]]) }

  lemma {:induction false} TypedOn(trail: seq<Mark>, more: seq<Mark>)
    requires |trail| <= |more| && more[..|trail|] == trail && forall i :: |trail| <= i < |more| ==> !more[i].Key?
    ensures Typed(more) == Typed(trail)
    decreases |more|
  {
    if |trail| < |more| {
      var n := |more| - 1;
      assert more[..n][..|trail|] == trail;
      TypedOn(trail, more[..n]);
    } else {
      assert more == trail;
    }
  }

  lemma DispatchTypes(w: World, k: Keys, what: string)
    ensures var (d, o) := Dispatch(w, k, what); Typed(d.trail) == Typed(k.trail) + if o.NoDown? then [] else [what]
  {
    var m := Key(what, w.now(k.tick), k.tick);
    assert (k.trail + [m])[..|k.trail|] == k.trail;
  }

  lemma BetweenTypes(w: World, deadline: Option<int>, k: Keys)
    ensures Typed(Between(w, deadline, k).0.trail) == Typed(k.trail) && Between(w, deadline, k).0.sent == k.sent
    ensures !Between(w, deadline, k).1.NoDown? && !Between(w, deadline, k).1.NoUp?
  {
    if k.sent > 0 {
      GuardMarks(w, deadline, k);
      GuardOutcome(w, deadline, k);
      TypedOn(k.trail, GuardFocus(w, deadline, k).0.trail);
    }
  }

  lemma GuardOutcome(w: World, deadline: Option<int>, k: Keys)
    ensures !GuardFocus(w, deadline, k).1.NoDown? && !GuardFocus(w, deadline, k).1.NoUp?
  {
    GuardIs(w, deadline, k);
    CheckingOutcome(w, Timely(w, k), k.enter, FOCUS_CHECK_TRIES);
  }

  lemma CheckingOutcome(w: World, t: Keys, enter: bool, tries: nat)
    ensures !Checking(w, t, enter, tries).1.NoDown? && !Checking(w, t, enter, tries).1.NoUp?
  {
    SettleSame(w, t, tries);
    FocusOutcome(w, if enter then Settle(w, t, tries).0 else t, tries);
  }

  lemma {:induction false} FocusOutcome(w: World, k: Keys, tries: nat)
    ensures !CheckFocus(w, k, tries).1.NoDown? && !CheckFocus(w, k, tries).1.NoUp?
    decreases tries
  {
    if tries > 0 { FocusOutcome(w, GuardField(w, k).0, tries - 1); }
  }

  lemma TypeOneTypes(w: World, deadline: Option<int>, ch: char, k: Keys)
    ensures var (d, o) := TypeOne(w, deadline, ch, k); Typed(d.trail) == Typed(k.trail) + if o.Clear? || o.NoUp? then [[ch]] else []
  {
    BetweenTypes(w, deadline, k);
    var (g, o) := Between(w, deadline, k);
    DispatchTypes(w, g.(sent := g.sent + 1, enter := ch == '\n'), [ch]);
  }

  lemma PressOneTypes(w: World, deadline: Option<int>, key: string, k: Keys)
    ensures var (d, o) := PressOne(w, deadline, key, k); Typed(d.trail) == Typed(k.trail) + if o.Clear? || o.NoUp? then [key] else []
  {
    BetweenTypes(w, deadline, k);
    DispatchTypes(w, Between(w, deadline, k).0, key);
  }

  /** Of `all` the first ones have gone out, and all of them unless stopped. */
  ghost predicate Out(all: seq<string>, k: Keys, o: Outcome) {
    |Typed(k.trail)| <= |all| && Typed(k.trail) == all[..|Typed(k.trail)|] && (o.Clear? ==> Typed(k.trail) == all)
  }

  lemma NextOut(all: seq<string>, i: nat, k: Keys, d: Keys, o: Outcome)
    requires i < |all| && Typed(k.trail) == all[..i]
    requires Typed(d.trail) == Typed(k.trail) + if o.Clear? || o.NoUp? then [all[i]] else []
    ensures if o.Clear? then Typed(d.trail) == all[..i + 1] else Out(all, d, o)
  {
    assert all[..i + 1] == all[..i] + [all[i]];
  }

  lemma {:induction false} TypesOn(w: World, deadline: Option<int>, text: string, i: nat, k: Keys)
    requires i <= |text| && Typed(k.trail) == Chars(text)[..i]
    ensures var (c, o) := TypeFrom(w, deadline, text, i, k); Out(Chars(text), c, o)
    decreases |text| - i
  {
    if i < |text| {
      TypeOneTypes(w, deadline, text[i], k);
      var (d, p) := TypeOne(w, deadline, text[i], k);
      NextOut(Chars(text), i, k, d, p);
      if p.Clear? { TypesOn(w, deadline, text, i + 1, d); }
    }
  }

  lemma {:induction false} PressesOn(w: World, deadline: Option<int>, keys: seq<string>, i: nat, k: Keys)
    requires i <= |keys| && Typed(k.trail) == keys[..i]
    ensures var (c, o) := PressFrom(w, deadline, keys, i, k); Out(keys, c, o)
    decreases |keys| - i
  {
    if i < |keys| {
      PressOneTypes(w, deadline, keys[i], k);
      var (d, p) := PressOne(w, deadline, keys[i], k);
      NextOut(keys, i, k, d, p);
      if p.Clear? { PressesOn(w, deadline, keys, i + 1, d); }
    }
  }

  lemma FocusedTypes(w: World, deadline: Option<int>, a: Keys)
    ensures Typed(Focused(w, deadline, a).0.trail) == Typed(a.trail)
  {
    var f := Command(w, a).0;
    GuardMarks(w, deadline, f);
    TypedOn(f.trail, GuardFocus(w, deadline, f).0.trail);
  }

  lemma FieldTypes(w: World, k: Keys)
    ensures Typed(GuardField(w, k).0.trail) == Typed(k.trail)
  {
    TypedOn(k.trail, GuardField(w, k).0.trail);
  }

  /** On every page the keys `fill` sends are the characters of the text, in order,
      from the first on, and all of them unless it was stopped. */
  lemma FillTypesTheText(w: World, deadline: Option<int>, text: string)
    ensures var (k, o) := Fill(w, deadline, text); Out(Chars(text), k, o)
  {
    FieldTypes(w, Start());
    var (a, v) := GuardField(w, Start());
    FocusedTypes(w, deadline, a);
    TypesOn(w, deadline, text, 0, Command(w, Focused(w, deadline, a).0).0);
  }

  /** And those of `pressKeys` are the keys named. */
  lemma PressSendsTheKeys(w: World, deadline: Option<int>, keys: seq<string>, selector: bool)
    ensures var (k, o) := Press(w, deadline, keys, selector); Out(keys, k, o)
  {
    FieldTypes(w, Start());
    var (a, v) := GuardField(w, Start());
    FocusedTypes(w, deadline, a);
    var g := if selector then Focused(w, deadline, a).0 else a;
    PressesOn(w, deadline, keys, 0, Command(w, g).0);
  }

  /* ---- a page that lets it ---- */

  /** Every question is answered at once and in favour, on one site. */
  ghost predicate Willing(w: World, deadline: Option<int>, site: string) {
    && (forall n {:trigger w.probe(n)} :: w.probe(n).Seen? && w.probe(n).allowed && w.probe(n).host == site)
    && (forall n {:trigger w.loading(n)} :: w.loading(n) == Some(false))
    && (forall n {:trigger w.works(n)} :: w.works(n))
    && (forall n {:trigger w.now(n)} :: deadline.None? || w.now(n) < deadline.value - 500)
  }

  ghost predicate OnSite(k: Keys, site: string) { k.site == "" || k.site == site }

  lemma WillingGuard(w: World, deadline: Option<int>, site: string, k: Keys)
    requires Willing(w, deadline, site) && OnSite(k, site)
    ensures var (c, o) := GuardFocus(w, deadline, k); o.Clear? && OnSite(c, site)
  {
    var t := k.(tick := k.tick + 1, trail := k.trail + [Tested(w.now(k.tick), k.tick)], enter := false);
    assert Settle(w, t, 8) == (t.(tick := t.tick + 1), Clear);
    var s := if k.enter then t.(tick := t.tick + 1) else t;
    var (c, v) := GuardField(w, s);
    assert v == Pass && CheckFocus(w, s, 8) == (c, Clear);
    assert GuardFocus(w, deadline, k) == (c, Clear);
  }

  lemma {:induction false} WillingTypes(w: World, deadline: Option<int>, site: string, text: string, i: nat, k: Keys)
    requires Willing(w, deadline, site) && OnSite(k, site) && i <= |text|
    ensures TypeFrom(w, deadline, text, i, k).1.Clear?
    decreases |text| - i
  {
    if i < |text| {
      WillingGuard(w, deadline, site, k);
      var (d, o) := TypeOne(w, deadline, text[i], k);
      assert o.Clear? && OnSite(d, site);
      WillingTypes(w, deadline, site, text, i + 1, d);
    }
  }

  lemma {:induction false} WillingPresses(w: World, deadline: Option<int>, site: string, keys: seq<string>, i: nat, k: Keys)
    requires Willing(w, deadline, site) && OnSite(k, site) && i <= |keys|
    ensures PressFrom(w, deadline, keys, i, k).1.Clear?
    decreases |keys| - i
  {
    if i < |keys| {
      WillingGuard(w, deadline, site, k);
      var (d, o) := PressOne(w, deadline, keys[i], k);
      assert o.Clear? && OnSite(d, site);
      WillingPresses(w, deadline, site, keys, i + 1, d);
    }
  }

  /** Nothing stops a sequence that nothing speaks against: such a page gets every
      key, and the count of them. */
  lemma WillingPageGetsAll(w: World, deadline: Option<int>, site: string, text: string, keys: seq<string>, selector: bool)
    requires Willing(w, deadline, site)
    ensures var (k, o) := Fill(w, deadline, text); o.Clear? && Typed(k.trail) == Chars(text) && k.sent == |text|
    ensures var (k, o) := Press(w, deadline, keys, selector); o.Clear? && Typed(k.trail) == keys && k.sent == |keys|
  {
    var (a, v) := GuardField(w, Start());
    PassIff(w, Start());
    WillingGuard(w, deadline, site, Command(w, a).0);
    var g := Focused(w, deadline, a).0;
    WillingTypes(w, deadline, site, text, 0, Command(w, g).0);
    FillTypesTheText(w, deadline, text);
    FillIsGuarded(w, deadline, text);
    WillingPresses(w, deadline, site, keys, 0, Command(w, if selector then g else a).0);
    PressSendsTheKeys(w, deadline, keys, selector);
    PressIsGuarded(w, deadline, keys, selector);
  }

  /* ---- how a sequence stops ---- */

  /** What the focus check comes to: it goes on past a page that is away for a
      moment, and tells the count when it gives up; a refusal tells it once a key was
      sent, and another exception never. */
  ghost function Says(w: World, site: string, sent: nat, n: nat, tries: nat): Outcome
    decreases tries
  {
    if tries == 0 then Told(sent)
    else if w.probe(n) == Silent(false) then Says(w, site, sent, n + 1, tries - 1)
    else if Lets(w, site, n) then Clear
    else if w.probe(n) != Broken && sent > 0 then Told(sent)
    else Untold
  }

  lemma {:induction false} FocusSays(w: World, k: Keys, tries: nat)
    ensures CheckFocus(w, k, tries).1 == Says(w, k.site, k.sent, k.tick, tries)
    decreases tries
  {
    if tries > 0 && w.probe(k.tick) == Silent(false) { FocusSays(w, GuardField(w, k).0, tries - 1); }
  }

  /** Without time left the sequence stops with its count. */
  lemma LateIsTold(w: World, deadline: int, k: Keys)
    requires w.now(k.tick) >= deadline - 500
    ensures GuardFocus(w, Some(deadline), k) == (k.(tick := k.tick + 1), Told(k.sent))
  {
  }

  /** The field is focused before anything is typed, and the debugger attached: when
      either fails nothing is typed, and no count is told. */
  lemma CommandsAreNeeded(w: World, deadline: Option<int>, text: string, keys: seq<string>)
    ensures !w.works(1) ==> Typed(Fill(w, deadline, text).0.trail) == [] && Fill(w, deadline, text).1 == Untold
    ensures !w.works(1) ==> Typed(Press(w, deadline, keys, false).0.trail) == [] && Press(w, deadline, keys, false).1 == Untold
  {
    FieldTypes(w, Start());
    PassIff(w, Start());
  }

  lemma AttachIsNeeded(w: World, deadline: Option<int>, text: string, keys: seq<string>)
    requires !w.works(Focused(w, deadline, GuardField(w, Start()).0).0.tick)
    ensures Typed(Fill(w, deadline, text).0.trail) == [] && !Fill(w, deadline, text).1.Clear?
    ensures Typed(Press(w, deadline, keys, true).0.trail) == [] && !Press(w, deadline, keys, true).1.Clear?
  {
    FieldTypes(w, Start());
    FocusedTypes(w, deadline, GuardField(w, Start()).0);
  }

  /* ---- after an Enter ---- */

  ghost function LastKey(trail: seq<Mark>): (r: Option<Mark>)
    ensures r.Some? ==> r.value.Key?
  {
    if trail == [] then None
    else if trail[|trail| - 1].Key? then Some(trail[|trail| - 1])
    else LastKey(trail[..|trail| - 1])
  }

  /** The tab was seen not loading between the two questions. */
  ghost predicate Loaded(w: World, from: int, to: int) { exists n: nat :: from < n < to && w.loading(n) == Some(false) }

  /** Between every `enter` and the key after it the tab was seen not loading. */
  ghost predicate EnterWaits(w: World, trail: seq<Mark>, enter: string) {
    trail != [] ==>
      var front, m := trail[..|trail| - 1], trail[|trail| - 1];
      && EnterWaits(w, front, enter)
      && (m.Key? && LastKey(front).Some? && LastKey(front).value.what == enter ==> Loaded(w, LastKey(front).value.tick, m.tick))
  }

  lemma {:induction false} KeyIn(trail: seq<Mark>)
    ensures LastKey(trail).Some? ==> LastKey(trail).value in trail
  {
    if trail != [] {
      KeyIn(trail[..|trail| - 1]);
    }
  }

  lemma {:induction false} NoKeyMore(w: World, trail: seq<Mark>, more: seq<Mark>, enter: string)
    requires |trail| <= |more| && more[..|trail|] == trail && forall i :: |trail| <= i < |more| ==> !more[i].Key?
    ensures LastKey(more) == LastKey(trail) && (EnterWaits(w, trail, enter) ==> EnterWaits(w, more, enter))
    decreases |more|
  {
    if |trail| < |more| {
      var n := |more| - 1;
      assert more[..n][..|trail|] == trail;
      NoKeyMore(w, trail, more[..n], enter);
    } else {
      assert more == trail;
    }
  }

  /** The sequence knows whether its last key was an Enter. */
  ghost predicate Knows(w: World, k: Keys, enter: string) {
    && Genuine(w, k) && EnterWaits(w, k.trail, enter)
    && (k.sent > 0 <==> LastKey(k.trail).Some?)
    && (k.enter <==> LastKey(k.trail).Some? && LastKey(k.trail).value.what == enter)
  }

  lemma {:induction false} SettleLoads(w: World, k: Keys, tries: nat)
    requires Settle(w, k, tries).1.Clear?
    ensures Loaded(w, k.tick - 1, Settle(w, k, tries).0.tick)
    decreases tries
  {
    if w.loading(k.tick) == Some(true) {
      SettleLoads(w, k.(tick := k.tick + 1), tries - 1);
      var n: nat :| k.tick < n < Settle(w, k, tries).0.tick && w.loading(n) == Some(false);
      assert k.tick - 1 < n;
    } else {
      assert w.loading(k.tick) == Some(false);
    }
  }

  lemma {:induction false} FocusGoesOn(w: World, k: Keys, tries: nat)
    ensures k.tick <= CheckFocus(w, k, tries).0.tick
    decreases tries
  {
    if tries > 0 { FocusGoesOn(w, GuardField(w, k).0, tries - 1); }
  }

  lemma GuardLoads(w: World, deadline: Option<int>, k: Keys)
    requires k.enter && GuardFocus(w, deadline, k).1.Clear?
    ensures Loaded(w, k.tick, GuardFocus(w, deadline, k).0.tick)
  {
    var t := k.(tick := k.tick + 1, trail := k.trail + [Tested(w.now(k.tick), k.tick)], enter := false);
    SettleLoads(w, t, FOCUS_CHECK_TRIES);
    var s := Settle(w, t, FOCUS_CHECK_TRIES).0;
    FocusGoesOn(w, s, FOCUS_CHECK_TRIES);
    var n: nat :| k.tick < n < s.tick && w.loading(n) == Some(false);
    assert n < CheckFocus(w, s, FOCUS_CHECK_TRIES).0.tick;
  }

  /** The next key, its guard passed, comes after the tab was seen not loading. */
  lemma KeyWaits(w: World, deadline: Option<int>, k: Keys, what: string, enter: string)
    requires Knows(w, k, enter) && Between(w, deadline, k).1.Clear?
    ensures var g := Between(w, deadline, k).0;
            && Genuine(w, g) && EnterWaits(w, g.trail, enter)
            && EnterWaits(w, g.trail + [Key(what, w.now(g.tick), g.tick)], enter)
            && LastKey(g.trail + [Key(what, w.now(g.tick), g.tick)]) == Some(Key(what, w.now(g.tick), g.tick))
  {
    var g := Between(w, deadline, k).0;
    var m := Key(what, w.now(g.tick), g.tick);
    assert (g.trail + [m])[..|g.trail|] == g.trail;
    BetweenGenuine(w, deadline, k);
    KeyIn(k.trail);
    if k.sent > 0 {
      GuardMarks(w, deadline, k);
      NoKeyMore(w, k.trail, g.trail, enter);
      if k.enter {
        GuardLoads(w, deadline, k);
        var n: nat :| k.tick < n < g.tick && w.loading(n) == Some(false);
        assert LastKey(k.trail).value.tick < n;
      }
    }
  }

  lemma TypeOneWaits(w: World, deadline: Option<int>, ch: char, k: Keys)
    requires Knows(w, k, "\n")
    ensures var (d, o) := TypeOne(w, deadline, ch, k); EnterWaits(w, d.trail, "\n") && (o.Clear? ==> Knows(w, d, "\n"))
  {
    var (g, o) := Between(w, deadline, k);
    if o.Clear? {
      KeyWaits(w, deadline, k, [ch], "\n");
      CharWaits(w, ch, g);
    } else {
      BetweenMarks(w, deadline, k, "\n");
    }
  }

  lemma CharWaits(w: World, ch: char, g: Keys)
    requires Genuine(w, g) && EnterWaits(w, g.trail, "\n")
    requires var m := Key([ch], w.now(g.tick), g.tick);
             EnterWaits(w, g.trail + [m], "\n") && LastKey(g.trail + [m]) == Some(m)
    ensures var (d, o) := SendChar(w, ch, g); EnterWaits(w, d.trail, "\n") && (o.Clear? ==> Knows(w, d, "\n"))
  {
    var c := g.(sent := g.sent + 1, enter := ch == '\n');
    Waited(w, g, c);
    DispatchGenuine(w, c, [ch]);
  }

  lemma BetweenMarks(w: World, deadline: Option<int>, k: Keys, enter: string)
    requires EnterWaits(w, k.trail, enter)
    ensures EnterWaits(w, Between(w, deadline, k).0.trail, enter)
  {
    if k.sent > 0 {
      GuardMarks(w, deadline, k);
      NoKeyMore(w, k.trail, GuardFocus(w, deadline, k).0.trail, enter);
    }
  }

  lemma PressOneWaits(w: World, deadline: Option<int>, key: string, k: Keys)
    requires Knows(w, k, "Enter")
    ensures var (d, o) := PressOne(w, deadline, key, k); EnterWaits(w, d.trail, "Enter") && (o.Clear? ==> Knows(w, d, "Enter"))
  {
    var (g, o) := Between(w, deadline, k);
    if o.Clear? {
      KeyWaits(w, deadline, k, key, "Enter");
      NamedKeyWaits(w, key, g);
    } else {
      BetweenMarks(w, deadline, k, "Enter");
    }
  }

  lemma NamedKeyWaits(w: World, key: string, g: Keys)
    requires Genuine(w, g) && EnterWaits(w, g.trail, "Enter")
    requires var m := Key(key, w.now(g.tick), g.tick);
             EnterWaits(w, g.trail + [m], "Enter") && LastKey(g.trail + [m]) == Some(m)
    ensures var (d, o) := SendKey(w, key, g); EnterWaits(w, d.trail, "Enter") && (o.Clear? ==> Knows(w, d, "Enter"))
  {
    DispatchGenuine(w, g, key);
    var (d, o) := SendKey(w, key, g);
    if o.Clear? { Waited(w, Dispatch(w, g, key).0, d); }
  }

  lemma {:induction false} TypesWait(w: World, deadline: Option<int>, text: string, i: nat, k: Keys)
    requires i <= |text| && Knows(w, k, "\n")
    ensures EnterWaits(w, TypeFrom(w, deadline, text, i, k).0.trail, "\n")
    decreases |text| - i
  {
    if i < |text| {
      TypeOneWaits(w, deadline, text[i], k);
      var (d, o) := TypeOne(w, deadline, text[i], k);
      if o.Clear? { TypesWait(w, deadline, text, i + 1, d); }
    }
  }

  lemma {:induction false} PressesWait(w: World, deadline: Option<int>, keys: seq<string>, i: nat, k: Keys)
    requires i <= |keys| && Knows(w, k, "Enter")
    ensures EnterWaits(w, PressFrom(w, deadline, keys, i, k).0.trail, "Enter")
    decreases |keys| - i
  {
    if i < |keys| {
      PressOneWaits(w, deadline, keys[i], k);
      var (d, o) := PressOne(w, deadline, keys[i], k);
      if o.Clear? { PressesWait(w, deadline, keys, i + 1, d); }
    }
  }

  lemma {:induction false} NoKeyYet(w: World, trail: seq<Mark>, enter: string)
    requires forall i :: 0 <= i < |trail| ==> !trail[i].Key?
    ensures LastKey(trail) == None && EnterWaits(w, trail, enter)
  {
    if trail != [] { NoKeyYet(w, trail[..|trail| - 1], enter); }
  }

  /** What stands before the first key of a sequence is no key. */
  lemma Leads(w: World, enter: string)
    ensures var (a, v) := GuardField(w, Start());
            EnterWaits(w, a.trail, enter) && LastKey(a.trail) == None && Genuine(w, a) && a.sent == 0 && !a.enter
    ensures Knows(w, Command(w, GuardField(w, Start()).0).0, enter)
  {
    var a := GuardField(w, Start()).0;
    FieldGenuine(w, Start());
    NoKeyYet(w, a.trail, enter);
    Waited(w, a, Command(w, a).0);
  }

  lemma FocusedLeads(w: World, deadline: Option<int>, a: Keys, enter: string)
    requires EnterWaits(w, a.trail, enter) && LastKey(a.trail) == None && Genuine(w, a) && a.sent == 0 && !a.enter
    ensures EnterWaits(w, Focused(w, deadline, a).0.trail, enter) && Knows(w, Command(w, Focused(w, deadline, a).0).0, enter)
  {
    var f := Command(w, a).0;
    var g := Focused(w, deadline, a).0;
    FocusedGenuine(w, deadline, a);
    GuardMarks(w, deadline, f);
    NoKeyMore(w, f.trail, GuardFocus(w, deadline, f).0.trail, enter);
    GuardForgets(w, deadline, f);
    Waited(w, g, Command(w, g).0);
  }

  lemma GuardForgets(w: World, deadline: Option<int>, k: Keys)
    requires !k.enter
    ensures !GuardFocus(w, deadline, k).0.enter
  {
    GuardIs(w, deadline, k);
    FocusForgets(w, Timely(w, k), FOCUS_CHECK_TRIES);
  }

  lemma {:induction false} FocusForgets(w: World, k: Keys, tries: nat)
    requires !k.enter
    ensures !CheckFocus(w, k, tries).0.enter
    decreases tries
  {
    if tries > 0 { FocusForgets(w, GuardField(w, k).0, tries - 1); }
  }

  /** On every page: after an Enter no key goes out before the tab was seen not
      loading, in `fill`, where a line end is one, and in `pressKeys`. */
  lemma EnterIsWaitedFor(w: World, deadline: Option<int>, text: string, keys: seq<string>, selector: bool)
    ensures EnterWaits(w, Fill(w, deadline, text).0.trail, "\n")
    ensures EnterWaits(w, Press(w, deadline, keys, selector).0.trail, "Enter")
  {
    Leads(w, "\n");
    Leads(w, "Enter");
    var a := GuardField(w, Start()).0;
    FocusedLeads(w, deadline, a, "\n");
    FocusedLeads(w, deadline, a, "Enter");
    var f := Focused(w, deadline, a);
    TypesWait(w, deadline, text, 0, Command(w, f.0).0);
    PressesWait(w, deadline, keys, 0, Command(w, if selector then f.0 else a).0);
  }
}
