/** What stands between two keys, on every page and at every pace. */
module KeyGuardTheorems {
  import opened Prelude
  import opened KeyGuard

  /** What passed since the last key: a deadline test, and a check after it. */
  datatype Since = Since(tested: Option<int>, checked: Option<string>)

  ghost function After(trail: seq<Mark>): Since {
    if trail == [] then Since(None, None)
    else
      match trail[|trail| - 1]
      case Key(_, _, _) => Since(None, None)
      case Tested(at, _) => Since(Some(at), None)
      case Checked(host, _, _, _) => After(trail[..|trail| - 1]).(checked := Some(host))
  }

  /** The site the keys are bound to: that of the first granted secret field. */
  ghost function Bound(trail: seq<Mark>): string {
    if trail == [] then ""
    else
      var b, m := Bound(trail[..|trail| - 1]), trail[|trail| - 1];
      if b == "" && m.Checked? && m.secret then m.host else b
  }

  ghost function Sent(trail: seq<Mark>): nat {
    if trail == [] then 0 else Sent(trail[..|trail| - 1]) + if trail[|trail| - 1].Key? then 1 else 0
  }

  /** A key may go: a check passed since the last one, on the bound site, and,
      unless this is `first`, a deadline test before that check. */
  ghost predicate Free(deadline: Option<int>, before: seq<Mark>, first: bool) {
    var s := After(before);
    && s.checked.Some? && (Bound(before) != "" ==> s.checked.value == Bound(before))
    && (!first ==> s.tested.Some? && InTime(deadline, s.tested.value))
  }

  /** Every key of the trail was free to go; the very first may have gone without
      a deadline test when `lenient`. */
  ghost predicate Guarded(deadline: Option<int>, trail: seq<Mark>, lenient: bool) {
    && (forall i :: 0 <= i < |trail| && trail[i].Key? ==> Free(deadline, trail[..i], lenient && Sent(trail[..i]) == 0))
    && (forall i :: 0 <= i < |trail| && trail[i].Checked? && Bound(trail[..i]) != "" ==> trail[i].host == Bound(trail[..i]))
  }

  lemma Append(deadline: Option<int>, trail: seq<Mark>, m: Mark, lenient: bool)
    requires Guarded(deadline, trail, lenient)
    requires m.Key? ==> Free(deadline, trail, lenient && Sent(trail) == 0)
    requires m.Checked? && Bound(trail) != "" ==> m.host == Bound(trail)
    ensures Guarded(deadline, trail + [m], lenient)
    ensures Sent(trail + [m]) == Sent(trail) + if m.Key? then 1 else 0
    ensures Bound(trail + [m]) == if Bound(trail) == "" && m.Checked? && m.secret then m.host else Bound(trail)
    ensures After(trail + [m]) == match m
                                  case Key(_, _, _) => Since(None, None)
                                  case Tested(at, _) => Since(Some(at), None)
                                  case Checked(host, _, _, _) => After(trail).(checked := Some(host))
  {
    var t := trail + [m];
    assert t[..|trail|] == trail;
    forall i | 0 <= i < |t| ensures t[..i] == if i < |trail| then trail[..i] else trail {
    }
  }

  /** The sequence and its trail agree on the site, and the trail is guarded. */
  ghost predicate Ok(deadline: Option<int>, k: Keys, lenient: bool) {
    Guarded(deadline, k.trail, lenient) && k.site == Bound(k.trail)
  }

  lemma FieldGuarded(w: World, deadline: Option<int>, k: Keys, lenient: bool)
    requires Ok(deadline, k, lenient)
    ensures var (c, v) := GuardField(w, k);
            && Ok(deadline, c, lenient) && c.sent == k.sent && Sent(c.trail) == Sent(k.trail)
            && (v != Pass ==> c.trail == k.trail)
            && (v == Pass ==> After(c.trail).tested == After(k.trail).tested && After(c.trail).checked.Some?
                              && (Bound(c.trail) != "" ==> After(c.trail).checked.value == Bound(c.trail)))
  {
    var (c, v) := GuardField(w, k);
    if v == Pass { Append(deadline, k.trail, c.trail[|k.trail|], lenient); }
  }

  /** A deadline test passed since the last key. */
  ghost predicate Timed(deadline: Option<int>, k: Keys, lenient: bool) {
    Ok(deadline, k, lenient) && After(k.trail).tested.Some? && InTime(deadline, After(k.trail).tested.value)
  }

  /** The next key may go. */
  ghost predicate Ready(deadline: Option<int>, k: Keys, lenient: bool) {
    Ok(deadline, k, lenient) && Free(deadline, k.trail, lenient && Sent(k.trail) == 0)
  }

  /** `c` comes after `k`, and no key in between. */
  ghost predicate NoKey(k: Keys, c: Keys) { c.sent == k.sent && Sent(c.trail) == Sent(k.trail) }

  /** A guard clears the next key or stops the sequence, and the count it then
      tells is the sequence's. */
  ghost predicate Guards(k: Keys, o: Outcome) { !o.NoDown? && !o.NoUp? && (o.Told? ==> o.count == k.sent) }

  lemma {:induction false} FocusGuarded(w: World, deadline: Option<int>, k: Keys, tries: nat, lenient: bool)
    requires Timed(deadline, k, lenient)
    ensures var (c, o) := CheckFocus(w, k, tries);
            Ok(deadline, c, lenient) && NoKey(k, c) && Guards(k, o) && (o.Clear? ==> Ready(deadline, c, lenient))
    decreases tries
  {
    if tries > 0 {
      FieldGuarded(w, deadline, k, lenient);
      var (c, v) := GuardField(w, k);
      if v == Again { FocusGuarded(w, deadline, c, tries - 1, lenient); }
    }
  }

  lemma {:induction false} SettleSame(w: World, k: Keys, tries: nat)
    ensures var (c, o) := Settle(w, k, tries);
            c == k.(tick := c.tick) && k.tick <= c.tick <= k.tick + tries && Guards(k, o)
    decreases tries
  {
    if tries > 0 && w.loading(k.tick) == Some(true) { SettleSame(w, k.(tick := k.tick + 1), tries - 1); }
  }

  lemma TestTimed(w: World, deadline: Option<int>, k: Keys, lenient: bool)
    requires Ok(deadline, k, lenient) && InTime(deadline, w.now(k.tick))
    ensures var t := k.(tick := k.tick + 1, trail := k.trail + [Tested(w.now(k.tick), k.tick)], enter := false);
            Timed(deadline, t, lenient) && NoKey(k, t)
  {
    Append(deadline, k.trail, Tested(w.now(k.tick), k.tick), lenient);
  }

  /** The focus check that follows a passed deadline test, behind the wait after an
      Enter. */
  ghost function Checking(w: World, t: Keys, enter: bool, tries: nat): (Keys, Outcome) {
    if !enter then CheckFocus(w, t, tries)
    else
      var (s, o) := Settle(w, t, tries);
      if o.Clear? then CheckFocus(w, s, tries) else (s, o)
  }

  ghost function Timely(w: World, k: Keys): Keys {
    k.(tick := k.tick + 1, trail := k.trail + [Tested(w.now(k.tick), k.tick)], enter := false)
  }

  lemma GuardIs(w: World, deadline: Option<int>, k: Keys)
    ensures GuardFocus(w, deadline, k) ==
              if InTime(deadline, w.now(k.tick)) then Checking(w, Timely(w, k), k.enter, FOCUS_CHECK_TRIES)
              else (k.(tick := k.tick + 1), Told(k.sent))
  {
  }

  lemma CheckingGuarded(w: World, deadline: Option<int>, t: Keys, enter: bool, tries: nat, lenient: bool)
    requires Timed(deadline, t, lenient)
    ensures var (c, o) := Checking(w, t, enter, tries);
            Ok(deadline, c, lenient) && NoKey(t, c) && Guards(t, o) && (o.Clear? ==> Ready(deadline, c, lenient))
  {
    SettleSame(w, t, tries);
    FocusGuarded(w, deadline, if enter then Settle(w, t, tries).0 else t, tries, lenient);
  }

  lemma GuardGuarded(w: World, deadline: Option<int>, k: Keys, lenient: bool)
    requires Ok(deadline, k, lenient)
    ensures var (c, o) := GuardFocus(w, deadline, k);
            Ok(deadline, c, lenient) && NoKey(k, c) && Guards(k, o) && (o.Clear? ==> Ready(deadline, c, lenient))
  {
    GuardIs(w, deadline, k);
    if InTime(deadline, w.now(k.tick)) {
      TestTimed(w, deadline, k, lenient);
      CheckingGuarded(w, deadline, Timely(w, k), k.enter, FOCUS_CHECK_TRIES, lenient);
    }
  }

  /** Before a key that is not the first. */
  lemma BetweenKeys(w: World, deadline: Option<int>, k: Keys, lenient: bool)
    requires Ok(deadline, k, lenient) && (k.sent == 0 ==> Ready(deadline, k, lenient))
    ensures var (g, o) := Between(w, deadline, k);
            Ok(deadline, g, lenient) && NoKey(k, g) && Guards(k, o) && (o.Clear? ==> Ready(deadline, g, lenient))
  {
    if k.sent > 0 { GuardGuarded(w, deadline, k, lenient); }
  }

  /** A key is on the trail exactly when its keyDown went out. */
  lemma DispatchGuarded(w: World, deadline: Option<int>, k: Keys, what: string, lenient: bool)
    requires Ready(deadline, k, lenient)
    ensures var (d, o) := Dispatch(w, k, what);
            && Ok(deadline, d, lenient) && d.sent == k.sent
            && Sent(d.trail) == Sent(k.trail) + (if o.NoDown? then 0 else 1)
            && (o.Clear? || o.NoDown? || o.NoUp?)
  {
    Append(deadline, k.trail, Key(what, w.now(k.tick), k.tick), lenient);
  }

  /** Between two keys of a loop: guarded, counted, and ready for a first key. */
  ghost predicate Typing(deadline: Option<int>, k: Keys, lenient: bool) {
    Ok(deadline, k, lenient) && k.sent == Sent(k.trail) && (k.sent == 0 ==> Ready(deadline, k, lenient))
  }

  /** How fill's count stands: one ahead when a keyDown was refused, and exact
      otherwise, above all when an error tells it. */
  ghost predicate TypeCounted(k: Keys, o: Outcome) {
    k.sent == Sent(k.trail) + (if o.NoDown? then 1 else 0) && (o.Told? ==> o.count == Sent(k.trail))
  }

  /** How pressKeys' count stands: one behind when a key's keyDown went out and
      its keyUp was refused, and exact otherwise, above all when an error tells it. */
  ghost predicate PressCounted(k: Keys, o: Outcome) {
    k.sent + (if o.NoUp? then 1 else 0) == Sent(k.trail) && (o.Told? ==> o.count == Sent(k.trail))
  }

  lemma TypeOneGuarded(w: World, deadline: Option<int>, ch: char, k: Keys)
    requires Typing(deadline, k, false)
    ensures var (d, o) := TypeOne(w, deadline, ch, k);
            && Ok(deadline, d, false) && TypeCounted(d, o)
            && (o.Clear? ==> Typing(deadline, d, false) && d.sent == k.sent + 1)
  {
    BetweenKeys(w, deadline, k, false);
    var (g, o) := Between(w, deadline, k);
    if o.Clear? { DispatchGuarded(w, deadline, g.(sent := g.sent + 1, enter := ch == '\n'), [ch], false); }
  }

  lemma {:induction false} TypeGuarded(w: World, deadline: Option<int>, text: string, i: nat, k: Keys)
    requires i <= |text| && Typing(deadline, k, false)
    ensures var (c, o) := TypeFrom(w, deadline, text, i, k);
            Ok(deadline, c, false) && TypeCounted(c, o) && (o.Clear? ==> c.sent == k.sent + |text| - i)
    decreases |text| - i
  {
    if i < |text| {
      TypeOneGuarded(w, deadline, text[i], k);
      var (d, o) := TypeOne(w, deadline, text[i], k);
      if o.Clear? { TypeGuarded(w, deadline, text, i + 1, d); }
    }
  }

  lemma PressOneGuarded(w: World, deadline: Option<int>, key: string, k: Keys, lenient: bool)
    requires Typing(deadline, k, lenient)
    ensures var (d, o) := PressOne(w, deadline, key, k);
            && Ok(deadline, d, lenient) && PressCounted(d, o)
            && (o.Clear? ==> Typing(deadline, d, lenient) && d.sent == k.sent + 1)
  {
    BetweenKeys(w, deadline, k, lenient);
    var (g, o) := Between(w, deadline, k);
    if o.Clear? { DispatchGuarded(w, deadline, g, key, lenient); }
  }

  lemma {:induction false} PressGuarded(w: World, deadline: Option<int>, keys: seq<string>, i: nat, k: Keys, lenient: bool)
    requires i <= |keys| && Typing(deadline, k, lenient)
    ensures var (c, o) := PressFrom(w, deadline, keys, i, k);
            Ok(deadline, c, lenient) && PressCounted(c, o) && (o.Clear? ==> c.sent == k.sent + |keys| - i)
    decreases |keys| - i
  {
    if i < |keys| {
      PressOneGuarded(w, deadline, keys[i], k, lenient);
      var (d, o) := PressOne(w, deadline, keys[i], k);
      if o.Clear? { PressGuarded(w, deadline, keys, i + 1, d, lenient); }
    }
  }

  lemma FocusedGuarded(w: World, deadline: Option<int>, a: Keys, lenient: bool)
    requires Ok(deadline, a, lenient)
    ensures var (g, o) := Focused(w, deadline, a);
            Ok(deadline, g, lenient) && NoKey(a, g) && Guards(a, o) && (o.Clear? ==> Ready(deadline, g, lenient))
  {
    var (f, o) := Command(w, a);
    if o.Clear? { GuardGuarded(w, deadline, f, lenient); }
  }

  /** In fill, before every key, with no other key in between, a deadline test
      passed and then a check of the focus; once a check passed on a granted
      secret field of a host, every later check, and so every later key, is on
      that host. Whatever count an error tells is that of the keys that went out. */
  lemma FillIsGuarded(w: World, deadline: Option<int>, text: string)
    ensures var (k, o) := Fill(w, deadline, text);
            Guarded(deadline, k.trail, false) && TypeCounted(k, o) && (o.Clear? ==> k.sent == |text|)
  {
    FieldGuarded(w, deadline, Start(), false);
    var (a, v) := GuardField(w, Start());
    if v == Pass {
      FocusedGuarded(w, deadline, a, false);
      var (g, o) := Focused(w, deadline, a);
      var (t, attached) := Command(w, g);
      if o.Clear? && attached.Clear? { TypeGuarded(w, deadline, text, 0, t); }
    }
  }

  /** In pressKeys the same, but that without a named field the first key goes
      after a check alone. */
  lemma PressIsGuarded(w: World, deadline: Option<int>, keys: seq<string>, selector: bool)
    ensures var (k, o) := Press(w, deadline, keys, selector);
            Guarded(deadline, k.trail, !selector) && PressCounted(k, o) && (o.Clear? ==> k.sent == |keys|)
  {
    FieldGuarded(w, deadline, Start(), !selector);
    var (a, v) := GuardField(w, Start());
    if v == Pass {
      if selector { FocusedGuarded(w, deadline, a, false); }
      var (g, o) := if selector then Focused(w, deadline, a) else (a, Clear);
      var (t, attached) := Command(w, g);
      if o.Clear? && attached.Clear? { PressGuarded(w, deadline, keys, 0, t, !selector); }
    }
  }
}
