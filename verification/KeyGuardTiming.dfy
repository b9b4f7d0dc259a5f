/** When the guard's promises about time and count fail: exactly when, and by how
    much. */
module KeyGuardTiming {
  import opened Prelude
  import opened KeyGuard
  import opened KeyGuardTheorems

  /* ---- pages to fail on ---- */

  /** A page that answers every question at once; the command of tick `refused`
      does not work, and the clock is `at`. */
  function Page(at: nat -> int, refused: nat): World {
    World(_ => Seen("", false, true), at, _ => None, n => n != refused)
  }

  /** Just in time for a deadline. */
  function Early(deadline: Option<int>): int { if deadline.Some? then deadline.value - DEADLINE_MARGIN_MS - 1 else 0 }

  /** What a named field, or none, leaves on the trail before the first key, and
      the tick of that key. */
  function Lead(w: World, selector: bool): seq<Mark> {
    [Checked("", false, w.now(0), 0)] + if selector then [Tested(w.now(2), 2), Checked("", false, w.now(3), 3)] else []
  }

  function FirstTick(selector: bool): nat { if selector then 5 else 2 }

  lemma LeadsToKey(deadline: Option<int>, at: nat -> int, refused: nat, selector: bool)
    requires refused >= FirstTick(selector) && (selector ==> InTime(deadline, at(2)))
    ensures var w := Page(at, refused);
            var (a, v) := GuardField(w, Start());
            var (g, o) := if selector then Focused(w, deadline, a) else (a, Clear);
            && v == Pass && o.Clear?
            && Command(w, g) == (Keys(0, false, "", FirstTick(selector), Lead(w, selector)), Clear)
  {
    var w := Page(at, refused);
    var (a, v) := GuardField(w, Start());
    assert a == Keys(0, false, "", 1, Lead(w, false));
    if selector {
      var (f, _) := Command(w, a);
      var t := f.(tick := 3, trail := a.trail + [Tested(w.now(2), 2)]);
      var (c, p) := GuardField(w, t);
      assert CheckFocus(w, t, FOCUS_CHECK_TRIES) == (c, Clear);
      assert GuardFocus(w, deadline, f) == (c, Clear);
      assert c.trail == Lead(w, true);
    }
  }

  /* ---- the count ---- */

  /** The count is that of the keys that went out. */
  ghost predicate Exact(k: Keys) { k.sent == Sent(k.trail) }

  /** A character of fill leaves the count exact if and only if the guard stopped
      it or its keyDown went out. */
  lemma CountIsExactIff(w: World, deadline: Option<int>, ch: char, k: Keys)
    requires Typing(deadline, k, false)
    ensures var (g, o) := Between(w, deadline, k);
            Exact(TypeOne(w, deadline, ch, k).0) <==> !o.Clear? || w.works(g.tick)
  {
    BetweenKeys(w, deadline, k, false);
    TypeOneGuarded(w, deadline, ch, k);
  }

  /** A key of pressKeys, if and only if the guard stopped it, its keyDown was
      refused, or its keyUp worked too. */
  lemma PressIsExactIff(w: World, deadline: Option<int>, key: string, k: Keys, lenient: bool)
    requires Typing(deadline, k, lenient)
    ensures var (g, o) := Between(w, deadline, k);
            Exact(PressOne(w, deadline, key, k).0) <==> !o.Clear? || !w.works(g.tick) || w.works(g.tick + 1)
  {
    BetweenKeys(w, deadline, k, lenient);
    PressOneGuarded(w, deadline, key, k, lenient);
  }

  lemma TypeRefused(deadline: Option<int>, text: string)
    requires text != ""
    ensures !Exact(Fill(Page(_ => Early(deadline), 5), deadline, text).0)
  {
    var at := _ => Early(deadline);
    var w := Page(at, 5);
    LeadsToKey(deadline, at, 5, true);
    FillIsGuarded(w, deadline, text);
    var t := Keys(0, false, "", 5, Lead(w, true));
    assert TypeOne(w, deadline, text[0], t).1 == NoDown;
  }

  lemma PressRefused(deadline: Option<int>, keys: seq<string>, selector: bool)
    requires keys != []
    ensures !Exact(Press(Page(_ => Early(deadline), FirstTick(selector) + 1), deadline, keys, selector).0)
  {
    var at := _ => Early(deadline);
    var w := Page(at, FirstTick(selector) + 1);
    LeadsToKey(deadline, at, FirstTick(selector) + 1, selector);
    PressIsGuarded(w, deadline, keys, selector);
    var t := Keys(0, false, "", FirstTick(selector), Lead(w, selector));
    assert PressOne(w, deadline, keys[0], t).1 == NoUp;
  }

  /** On every page `fill` ends with the count of the keys that went out, if and
      only if there is nothing to type: a refused keyDown is counted already. */
  lemma FillCountsIff(deadline: Option<int>, text: string)
    ensures (forall w :: Exact(Fill(w, deadline, text).0)) <==> text == ""
  {
    if text == "" {
      forall w ensures Exact(Fill(w, deadline, text).0) {
        FillIsGuarded(w, deadline, text);
      }
    } else {
      TypeRefused(deadline, text);
    }
  }

  /** And `pressKeys`, if and only if there is no key: one whose keyUp is refused
      is not counted, though its keyDown went out. */
  lemma PressCountsIff(deadline: Option<int>, keys: seq<string>, selector: bool)
    ensures (forall w :: Exact(Press(w, deadline, keys, selector).0)) <==> keys == []
  {
    if keys == [] {
      forall w ensures Exact(Press(w, deadline, keys, selector).0) {
        PressIsGuarded(w, deadline, keys, selector);
      }
    } else {
      PressRefused(deadline, keys, selector);
    }
  }

  /* ---- the check and the deadline ---- */

  /** The mark before every key is a passed check, made before the margin. */
  ghost predicate InTimeKeys(deadline: Option<int>, trail: seq<Mark>) {
    forall i :: 0 <= i < |trail| && trail[i].Key? ==> i > 0 && trail[i - 1].Checked? && InTime(deadline, trail[i - 1].at)
  }

  /** Whatever the time, the mark before every key is a passed check. */
  lemma CheckedBeforeEachKey(deadline: Option<int>, trail: seq<Mark>, lenient: bool)
    requires Guarded(deadline, trail, lenient)
    ensures forall i :: 0 <= i < |trail| && trail[i].Key? ==> i > 0 && trail[i - 1].Checked?
  {
    forall i | 0 <= i < |trail| && trail[i].Key? ensures i > 0 && trail[i - 1].Checked? {
      assert Free(deadline, trail[..i], lenient && Sent(trail[..i]) == 0);
    }
  }

  lemma {:induction false} NoneSent(trail: seq<Mark>)
    requires Sent(trail) == 0
    ensures forall i :: 0 <= i < |trail| ==> !trail[i].Key?
  {
    if trail != [] {
      var n := |trail| - 1;
      NoneSent(trail[..n]);
      forall i | 0 <= i < |trail| ensures !trail[i].Key? {
        if i < n { assert trail[i] == trail[..n][i]; }
      }
    }
  }

  lemma NothingTyped(w: World, deadline: Option<int>)
    ensures var trail := Fill(w, deadline, "").0.trail; forall i :: 0 <= i < |trail| ==> !trail[i].Key?
  {
    FieldGuarded(w, deadline, Start(), false);
    FocusedGuarded(w, deadline, GuardField(w, Start()).0, false);
    NoneSent(Fill(w, deadline, "").0.trail);
  }

  lemma NothingPressed(w: World, deadline: Option<int>, selector: bool)
    ensures var trail := Press(w, deadline, [], selector).0.trail; forall i :: 0 <= i < |trail| ==> !trail[i].Key?
  {
    FieldGuarded(w, deadline, Start(), false);
    FocusedGuarded(w, deadline, GuardField(w, Start()).0, false);
    NoneSent(Press(w, deadline, [], selector).0.trail);
  }

  /** The check comes back just after the deadline it was tested against. */
  function Slow(d: int): nat -> int { n => if n <= 2 then d - DEADLINE_MARGIN_MS - 1 else d }

  lemma SlowFill(d: int, text: string)
    requires text != ""
    ensures !InTimeKeys(Some(d), Fill(Page(Slow(d), 1000), Some(d), text).0.trail)
  {
    var w := Page(Slow(d), 1000);
    LeadsToKey(Some(d), Slow(d), 1000, true);
    var t := Keys(0, false, "", 5, Lead(w, true));
    var (k, o) := TypeOne(w, Some(d), text[0], t);
    assert o.Clear? && k.trail == Lead(w, true) + [Key([text[0]], d, 5)];
    if |text| > 1 { assert TypeOne(w, Some(d), text[1], k) == (k.(tick := k.tick + 1), Told(1)); }
    assert TypeFrom(w, Some(d), text, 0, t) == TypeFrom(w, Some(d), text, 1, k);
    assert TypeFrom(w, Some(d), text, 1, k).0.trail == k.trail;
    var trail := Fill(w, Some(d), text).0.trail;
    assert trail == k.trail;
    assert trail[3].Key? && !InTime(Some(d), trail[2].at);
  }

  lemma SlowPress(d: int, keys: seq<string>, selector: bool)
    requires keys != []
    ensures !InTimeKeys(Some(d), Press(Page(if selector then Slow(d) else _ => d, 1000), Some(d), keys, selector).0.trail)
  {
    var at := if selector then Slow(d) else _ => d;
    var w := Page(at, 1000);
    LeadsToKey(Some(d), at, 1000, selector);
    var t := Keys(0, false, "", FirstTick(selector), Lead(w, selector));
    var (k, o) := PressOne(w, Some(d), keys[0], t);
    assert o.Clear? && k.trail == Lead(w, selector) + [Key(keys[0], d, FirstTick(selector))];
    if |keys| > 1 { assert PressOne(w, Some(d), keys[1], k) == (k.(tick := k.tick + 1), Told(1)); }
    assert PressFrom(w, Some(d), keys, 0, t) == PressFrom(w, Some(d), keys, 1, k);
    assert PressFrom(w, Some(d), keys, 1, k).0.trail == k.trail;
    var trail := Press(w, Some(d), keys, selector).0.trail;
    assert trail == k.trail;
    var n := |trail| - 1;
    assert trail[n].Key? && !InTime(Some(d), trail[n - 1].at);
  }

  /** On every page each key of `fill` follows a check made before the margin, if
      and only if there is no deadline, or nothing to type. */
  lemma FillInTimeIff(deadline: Option<int>, text: string)
    ensures (forall w :: InTimeKeys(deadline, Fill(w, deadline, text).0.trail)) <==> deadline.None? || text == ""
  {
    if deadline.None? || text == "" {
      forall w ensures InTimeKeys(deadline, Fill(w, deadline, text).0.trail) {
        FillIsGuarded(w, deadline, text);
        CheckedBeforeEachKey(deadline, Fill(w, deadline, text).0.trail, false);
        if text == "" { NothingTyped(w, deadline); }
      }
    } else {
      SlowFill(deadline.value, text);
    }
  }

  lemma PressInTimeIff(deadline: Option<int>, keys: seq<string>, selector: bool)
    ensures (forall w :: InTimeKeys(deadline, Press(w, deadline, keys, selector).0.trail)) <==> deadline.None? || keys == []
  {
    if deadline.None? || keys == [] {
      forall w ensures InTimeKeys(deadline, Press(w, deadline, keys, selector).0.trail) {
        PressIsGuarded(w, deadline, keys, selector);
        CheckedBeforeEachKey(deadline, Press(w, deadline, keys, selector).0.trail, !selector);
        if keys == [] { NothingPressed(w, deadline, selector); }
      }
    } else {
      SlowPress(deadline.value, keys, selector);
    }
  }

  /** One way it comes about, wherever the sequence stands: the page does not
      answer the first try, and answers the second after the deadline. */
  lemma CheckCanOutlastTheDeadline(w: World, k: Keys, late: int)
    requires !k.enter && k.site == "" && w.now(k.tick) < late - DEADLINE_MARGIN_MS && late <= w.now(k.tick + 2)
    requires w.probe(k.tick + 1) == Silent(false) && w.probe(k.tick + 2).Seen? && w.probe(k.tick + 2).allowed
    ensures var (c, o) := GuardFocus(w, Some(late), k);
            && o.Clear?
            && c.trail == k.trail + [Tested(w.now(k.tick), k.tick),
                                     Checked(w.probe(k.tick + 2).host, w.probe(k.tick + 2).secret, w.now(k.tick + 2), k.tick + 2)]
  {
    var t := k.(tick := k.tick + 1, trail := k.trail + [Tested(w.now(k.tick), k.tick)], enter := false);
    var (a, v) := GuardField(w, t);
    assert v == Again && a == t.(tick := k.tick + 2);
    var (b, v2) := GuardField(w, a);
    assert v2 == Pass && CheckFocus(w, a, 7) == (b, Clear);
    assert CheckFocus(w, t, 8) == (b, Clear);
  }

  /* ---- timed at all ---- */

  /** Without a named field the first key is not timed at all, so every key of
      pressKeys is timed, on every page, exactly when a field is named or there is
      no key. */
  lemma EveryKeyTimedIff(deadline: Option<int>, keys: seq<string>, selector: bool)
    ensures (forall w :: Guarded(deadline, Press(w, deadline, keys, selector).0.trail, false)) <==> selector || keys == []
  {
    if selector || keys == [] {
      forall w ensures Guarded(deadline, Press(w, deadline, keys, selector).0.trail, false) {
        PressIsGuarded(w, deadline, keys, selector);
        if keys == [] && !selector {
          NothingPressed(w, deadline, false);
        }
      }
    } else {
      Untimed(deadline, keys);
    }
  }

  lemma Untimed(deadline: Option<int>, keys: seq<string>)
    requires keys != []
    ensures !Guarded(deadline, Press(Page(_ => Early(deadline), 3), deadline, keys, false).0.trail, false)
  {
    var at := _ => Early(deadline);
    var w := Page(at, 3);
    LeadsToKey(deadline, at, 3, false);
    var t := Keys(0, false, "", 2, Lead(w, false));
    var (k, o) := PressOne(w, deadline, keys[0], t);
    assert o == NoUp && k.trail == Lead(w, false) + [Key(keys[0], Early(deadline), 2)];
    assert PressFrom(w, deadline, keys, 0, t) == (k, o);
    var trail := Press(w, deadline, keys, false).0.trail;
    assert trail == k.trail && trail[..1] == Lead(w, false);
    assert After(trail[..1]).tested == None;
    assert !Free(deadline, trail[..1], false) && trail[1].Key?;
  }

  /** Without a named field the first key is sent however late it is. */
  lemma FirstKeyIgnoresTheDeadline(w: World, deadline: Option<int>, key: string)
    requires w.probe(0).Seen? && w.probe(0).allowed && w.works(1) && w.works(2) && w.works(3)
    ensures var (k, o) := Press(w, deadline, [key], false);
            o.Clear? && k.trail == [Checked(w.probe(0).host, w.probe(0).secret, w.now(0), 0), Key(key, w.now(2), 2)]
  {
    var (a, v) := GuardField(w, Start());
    assert a.trail == [Checked(w.probe(0).host, w.probe(0).secret, w.now(0), 0)];
    var (t, attached) := Command(w, a);
    var (d, o) := PressOne(w, deadline, key, t);
    assert o.Clear? && d.trail == a.trail + [Key(key, w.now(2), 2)];
    assert PressFrom(w, deadline, [key], 1, d) == (d, Clear);
    assert PressFrom(w, deadline, [key], 0, t) == (d, Clear);
  }

  /* ---- how late a key can be ---- */

  /** Every question is answered within `pace` of the one before. */
  ghost predicate Paced(w: World, pace: nat) { forall n: nat :: Within(w, pace, n) }

  ghost predicate Within(w: World, pace: nat, n: nat) { w.now(n + 1) <= w.now(n) + pace }

  lemma {:induction false} Elapses(w: World, pace: nat, from: nat, steps: nat, most: nat)
    requires Paced(w, pace) && steps <= most
    ensures w.now(from + steps) <= w.now(from) + most * pace
  {
    if steps == 0 {
      assert most * pace >= 0;
    } else {
      Elapses(w, pace, from, steps - 1, most - 1);
      assert Within(w, pace, from + steps - 1);
      assert most * pace == (most - 1) * pace + pace;
    }
  }

  /** The latest the check before a key can come back, and the key go out. */
  function CheckBy(deadline: int, pace: nat): int { deadline - DEADLINE_MARGIN_MS + 2 * FOCUS_CHECK_TRIES * pace }

  function KeyBy(deadline: int, pace: nat): int { CheckBy(deadline, pace) + 2 * pace }

  /** From mark `from` on, every key follows a check that came back in time, and
      goes out in time. */
  ghost predicate Soon(deadline: int, pace: nat, trail: seq<Mark>, from: nat) {
    forall i :: from <= i < |trail| && trail[i].Key? ==>
      && i > 0 && trail[i - 1].Checked?
      && trail[i - 1].at < CheckBy(deadline, pace) && trail[i].at < KeyBy(deadline, pace)
  }

  /** The trail ends in a check that came back in time, and the clock is not far
      past it. */
  ghost predicate ToGo(w: World, deadline: int, pace: nat, k: Keys, late: nat) {
    && k.trail != [] && k.trail[|k.trail| - 1].Checked? && k.trail[|k.trail| - 1].at < CheckBy(deadline, pace)
    && k.tick > 0 && w.now(k.tick - 1) < CheckBy(deadline, pace) + late * pace
  }

  /** From `k` to `c` no key was sent and at most `steps` questions were asked; a
      sequence cleared to go on just passed a check. */
  ghost predicate Marked(w: World, k: Keys, c: Keys, o: Outcome, steps: nat) {
    var n := |c.trail| - 1;
    && c.sent == k.sent && |k.trail| <= |c.trail| && c.trail[..|k.trail|] == k.trail
    && (forall i :: |k.trail| <= i < |c.trail| ==> !c.trail[i].Key?)
    && (o.Clear? ==> n >= 0 && c.trail[n].Checked? && k.tick < c.tick <= k.tick + steps && c.trail[n].at == w.now(c.tick - 1))
  }

  lemma {:induction false} FocusMarks(w: World, k: Keys, tries: nat)
    ensures var (c, o) := CheckFocus(w, k, tries); Marked(w, k, c, o, tries)
    decreases tries
  {
    if tries > 0 {
      var (c, v) := GuardField(w, k);
      if v == Again { FocusMarks(w, c, tries - 1); }
    }
  }

  lemma MarkedSince(w: World, k: Keys, t: Keys, c: Keys, o: Outcome, steps: nat, more: nat)
    requires Marked(w, t, c, o, more) && t.sent == k.sent && k.tick <= t.tick <= k.tick + steps
    requires |k.trail| <= |t.trail| && t.trail[..|k.trail|] == k.trail
    requires forall i :: |k.trail| <= i < |t.trail| ==> !t.trail[i].Key?
    ensures Marked(w, k, c, o, steps + more)
  {
    assert c.trail[..|k.trail|] == c.trail[..|t.trail|][..|k.trail|];
    forall i | |k.trail| <= i < |t.trail| ensures c.trail[i] == c.trail[..|t.trail|][i] {
    }
  }

  lemma CheckingMarks(w: World, t: Keys, enter: bool, tries: nat)
    ensures var (c, o) := Checking(w, t, enter, tries); Marked(w, t, c, o, 2 * tries)
  {
    SettleSame(w, t, tries);
    var s := if enter then Settle(w, t, tries).0 else t;
    FocusMarks(w, s, tries);
    var (d, p) := CheckFocus(w, s, tries);
    MarkedSince(w, t, s, d, p, tries, tries);
  }

  /** What marks guardFocus leaves, and how many questions it asks. */
  lemma GuardMarks(w: World, deadline: Option<int>, k: Keys)
    ensures var (c, o) := GuardFocus(w, deadline, k);
            Marked(w, k, c, o, 2 * FOCUS_CHECK_TRIES + 1) && (o.Clear? ==> InTime(deadline, w.now(k.tick)))
  {
    GuardIs(w, deadline, k);
    if InTime(deadline, w.now(k.tick)) {
      var t := Timely(w, k);
      var (c, o) := Checking(w, t, k.enter, FOCUS_CHECK_TRIES);
      CheckingMarks(w, t, k.enter, FOCUS_CHECK_TRIES);
      MarkedSince(w, k, t, c, o, 1, 2 * FOCUS_CHECK_TRIES);
    }
  }

  lemma SoonMore(deadline: int, pace: nat, trail: seq<Mark>, more: seq<Mark>, from: nat)
    requires Soon(deadline, pace, trail, from) && |trail| <= |more| && more[..|trail|] == trail
    requires forall i :: |trail| <= i < |more| ==> !more[i].Key?
    ensures Soon(deadline, pace, more, from)
  {
    forall i | from <= i < |more| && more[i].Key?
      ensures i > 0 && more[i - 1].Checked? && more[i - 1].at < CheckBy(deadline, pace) && more[i].at < KeyBy(deadline, pace)
    {
      assert more[i] == trail[i] && (i > 0 ==> more[i - 1] == trail[i - 1]);
    }
  }

  lemma MarkedSoon(w: World, deadline: int, pace: nat, k: Keys, c: Keys, o: Outcome, from: nat)
    requires Paced(w, pace) && Soon(deadline, pace, k.trail, from) && Marked(w, k, c, o, 2 * FOCUS_CHECK_TRIES + 1)
    requires o.Clear? ==> InTime(Some(deadline), w.now(k.tick))
    ensures c.sent == k.sent && Soon(deadline, pace, c.trail, from) && (o.Clear? ==> ToGo(w, deadline, pace, c, 0))
  {
    SoonMore(deadline, pace, k.trail, c.trail, from);
    if o.Clear? { Elapses(w, pace, k.tick, c.tick - 1 - k.tick, 2 * FOCUS_CHECK_TRIES); }
  }

  lemma GuardSoon(w: World, deadline: int, pace: nat, k: Keys, from: nat)
    requires Paced(w, pace) && Soon(deadline, pace, k.trail, from)
    ensures var (c, o) := GuardFocus(w, Some(deadline), k);
            c.sent == k.sent && Soon(deadline, pace, c.trail, from) && (o.Clear? ==> ToGo(w, deadline, pace, c, 0))
  {
    GuardMarks(w, Some(deadline), k);
    var (c, o) := GuardFocus(w, Some(deadline), k);
    MarkedSoon(w, deadline, pace, k, c, o, from);
  }

  lemma DispatchSoon(w: World, deadline: int, pace: nat, k: Keys, what: string, from: nat)
    requires Paced(w, pace) && Soon(deadline, pace, k.trail, from)
    requires |k.trail| < from || ToGo(w, deadline, pace, k, 1)
    ensures Soon(deadline, pace, Dispatch(w, k, what).0.trail, from)
  {
    var (d, o) := Down(w, k, what);
    if o.Clear? && ToGo(w, deadline, pace, k, 1) { assert Within(w, pace, k.tick - 1); }
  }

  /** Between two keys of a loop. */
  ghost predicate Prompt(w: World, deadline: int, pace: nat, k: Keys, from: nat) {
    && Soon(deadline, pace, k.trail, from)
    && (k.sent == 0 ==> |k.trail| < from || ToGo(w, deadline, pace, k, 1))
  }

  lemma BetweenSoon(w: World, deadline: int, pace: nat, k: Keys, from: nat)
    requires Paced(w, pace) && Prompt(w, deadline, pace, k, from)
    ensures var (g, o) := Between(w, Some(deadline), k);
            && g.sent == k.sent && Soon(deadline, pace, g.trail, from)
            && (o.Clear? ==> |g.trail| < from || ToGo(w, deadline, pace, g, 1))
  {
    if k.sent > 0 { GuardSoon(w, deadline, pace, k, from); }
  }

  lemma TypeOneSoon(w: World, deadline: int, pace: nat, ch: char, k: Keys, from: nat)
    requires Paced(w, pace) && Prompt(w, deadline, pace, k, from)
    ensures var (d, o) := TypeOne(w, Some(deadline), ch, k);
            Soon(deadline, pace, d.trail, from) && (o.Clear? ==> d.sent > 0)
  {
    BetweenSoon(w, deadline, pace, k, from);
    var (g, o) := Between(w, Some(deadline), k);
    if o.Clear? { DispatchSoon(w, deadline, pace, g.(sent := g.sent + 1, enter := ch == '\n'), [ch], from); }
  }

  lemma {:induction false} TypeSoon(w: World, deadline: int, pace: nat, text: string, i: nat, k: Keys, from: nat)
    requires i <= |text| && Paced(w, pace) && Prompt(w, deadline, pace, k, from)
    ensures Soon(deadline, pace, TypeFrom(w, Some(deadline), text, i, k).0.trail, from)
    decreases |text| - i
  {
    if i < |text| {
      TypeOneSoon(w, deadline, pace, text[i], k, from);
      var (d, o) := TypeOne(w, Some(deadline), text[i], k);
      if o.Clear? { TypeSoon(w, deadline, pace, text, i + 1, d, from); }
    }
  }

  lemma PressOneSoon(w: World, deadline: int, pace: nat, key: string, k: Keys, from: nat)
    requires Paced(w, pace) && Prompt(w, deadline, pace, k, from)
    ensures var (d, o) := PressOne(w, Some(deadline), key, k);
            Soon(deadline, pace, d.trail, from) && (o.Clear? ==> d.sent > 0)
  {
    BetweenSoon(w, deadline, pace, k, from);
    var (g, o) := Between(w, Some(deadline), k);
    if o.Clear? { DispatchSoon(w, deadline, pace, g, key, from); }
  }

  lemma {:induction false} PressSoon(w: World, deadline: int, pace: nat, keys: seq<string>, i: nat, k: Keys, from: nat)
    requires i <= |keys| && Paced(w, pace) && Prompt(w, deadline, pace, k, from)
    ensures Soon(deadline, pace, PressFrom(w, Some(deadline), keys, i, k).0.trail, from)
    decreases |keys| - i
  {
    if i < |keys| {
      PressOneSoon(w, deadline, pace, keys[i], k, from);
      var (d, o) := PressOne(w, Some(deadline), keys[i], k);
      if o.Clear? { PressSoon(w, deadline, pace, keys, i + 1, d, from); }
    }
  }

  lemma FocusedSoon(w: World, deadline: int, pace: nat, a: Keys)
    requires Paced(w, pace) && Soon(deadline, pace, a.trail, 0)
    ensures var (g, o) := Focused(w, Some(deadline), a);
            && g.sent == a.sent && Soon(deadline, pace, g.trail, 0)
            && (o.Clear? ==> ToGo(w, deadline, pace, Command(w, g).0, 1))
  {
    var (f, o) := Command(w, a);
    if o.Clear? {
      GuardSoon(w, deadline, pace, f, 0);
      var (g, _) := GuardFocus(w, Some(deadline), f);
      if g.tick > 0 { assert Within(w, pace, g.tick - 1); }
    }
  }

  /** However slow the page, a key of `fill` is late by no more than the questions
      between its deadline test and it can take: the check before it comes back
      within twice the tries of one, and the key goes out two questions later. */
  lemma FillKeysSoon(w: World, deadline: int, pace: nat, text: string)
    requires Paced(w, pace)
    ensures Soon(deadline, pace, Fill(w, Some(deadline), text).0.trail, 0)
  {
    var (a, v) := GuardField(w, Start());
    if v == Pass {
      FocusedSoon(w, deadline, pace, a);
      var (g, o) := Focused(w, Some(deadline), a);
      var (t, attached) := Command(w, g);
      if o.Clear? && attached.Clear? { TypeSoon(w, deadline, pace, text, 0, t, 0); }
    }
  }

  /** The same of `pressKeys`, but for the first key when no field was named. */
  lemma PressKeysSoon(w: World, deadline: int, pace: nat, keys: seq<string>, selector: bool)
    requires Paced(w, pace)
    ensures Soon(deadline, pace, Press(w, Some(deadline), keys, selector).0.trail, if selector then 0 else 2)
  {
    var (a, v) := GuardField(w, Start());
    if v == Pass {
      FocusedSoon(w, deadline, pace, a);
      var (g, o) := if selector then Focused(w, Some(deadline), a) else (a, Clear);
      var (t, attached) := Command(w, g);
      if o.Clear? && attached.Clear? { PressSoon(w, deadline, pace, keys, 0, t, if selector then 0 else 2); }
    }
  }
}
