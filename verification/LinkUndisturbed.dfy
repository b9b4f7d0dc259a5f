/** What an event at a worker at rest comes to, once everything it suspends was
    answered with nothing else in between. */
module LinkUndisturbed {
  import opened Prelude
  import opened Link
  import opened LinkInvariant
  import opened LinkTheorems

  /** The one suspended continuation resumes, and succeeds. */
  ghost function Answer(w: Link, now: nat): Link {
    if w.nextTask > 0 && Enabled(w, Resume(w.nextTask - 1, true, now)) then Step(w, Resume(w.nextTask - 1, true, now)) else w
  }

  ghost function Quietly(w: Link, n: nat, now: nat): Link
    decreases n
  {
    if n == 0 then w else Quietly(Answer(w, now), n - 1, now)
  }

  /** It is a run. */
  lemma {:induction false} QuietlyRuns(w: Link, n: nat, now: nat) returns (es: seq<Event>)
    ensures Run(w, es, Quietly(w, n, now)) && |es| <= n
    decreases n
  {
    if n == 0 {
      es := [];
    } else if w.nextTask > 0 && Enabled(w, Resume(w.nextTask - 1, true, now)) {
      var rest := QuietlyRuns(Answer(w, now), n - 1, now);
      es := [Resume(w.nextTask - 1, true, now)] + rest;
      assert es[1..] == rest;
    } else {
      es := QuietlyRuns(Answer(w, now), n - 1, now);
    }
  }

  /** `k`, the only thing suspended, resumes. */
  lemma Next(w: Link, k: Task, now: nat)
    requires w.tasks == map[]
    ensures Answer(Push(w, k), now) == Continue(w.(nextTask := w.nextTask + 1), k, true, now)
  {
    var a := Push(w, k);
    assert a.tasks - {w.nextTask} == map[];
    assert a.(tasks := map[]) == w.(nextTask := w.nextTask + 1);
  }

  /** Each of `vs` is what the one before it comes to. */
  ghost predicate Leads(vs: seq<Link>, now: nat) {
    |vs| > 0 && forall i, j :: 0 <= i < j < |vs| && j == i + 1 ==> Answer(vs[i], now) == vs[j]
  }

  lemma {:induction false} Arrives(vs: seq<Link>, now: nat)
    requires Leads(vs, now)
    ensures Quietly(vs[0], |vs| - 1, now) == vs[|vs| - 1]
    decreases |vs|
  {
    if |vs| > 1 { Arrives(vs[1..], now); }
  }

  /** One run of answers, then another. */
  lemma {:induction false} Then(w: Link, m: nat, n: nat, now: nat)
    ensures Quietly(w, m + n, now) == Quietly(Quietly(w, m, now), n, now)
    decreases m
  {
    if m > 0 { Then(Answer(w, now), m - 1, n, now); }
  }

  ghost predicate AtPeace(w: Link) { Inv(w) && w.tasks == map[] }

  lemma Peaceful(w: Link)
    requires AtPeace(w)
    ensures !w.connectInFlight && !w.retryArming
  {
  }

  /* ---- a connect ---- */

  /** The new port, introduced, with its deadline running. */
  ghost function Introduced(w: Link, n: nat): Link {
    w.(port := Some(w.nextPort), nextPort := w.nextPort + 1, open := {w.nextPort}, epoch := w.epoch + 1,
       session := Session(Connecting, false, w.session.beat), ackTimer := Some(w.timers.next), connectInFlight := false,
       timers := w.timers.(ack := map[w.timers.next := w.nextPort], next := w.timers.next + 1), nextTask := w.nextTask + n)
  }

  ghost predicate NoPort(w: Link) {
    w.port.None? && w.open == {} && w.ackTimer.None? && w.timers.ack == map[] && w.tasks == map[]
  }

  /** The link of `w`, `n` answers on, with `s` stored. */
  ghost function On(w: Link, n: nat, s: Session): Link { w.(nextTask := w.nextTask + n, session := s) }

  lemma Opens(w: Link, now: nat)
    requires NoPort(w)
    ensures Answer(Push(PortOpened(w), Identity(w.nextPort)), now)
            == Introduced(w, 1).(session := w.session)
  {
    var o := PortOpened(w);
    Next(o, Identity(w.nextPort), now);
    assert AckCleared(o) == map[];
  }

  lemma LetsGo(w: Link, now: nat)
    requires NoPort(w)
    ensures Answer(Push(w, SaidConnecting), now) == Push(On(w, 1, w.session.(held := false)), HoldCleared)
  {
    Next(w, SaidConnecting, now);
  }

  lemma DialsPort(w: Link, now: nat)
    requires NoPort(w)
    ensures Answer(Push(w, HoldCleared), now) == Push(PortOpened(On(w, 1, w.session)), Identity(w.nextPort))
  {
    Next(w, HoldCleared, now);
  }

  lemma Dials(w: Link, now: nat)
    requires NoPort(w)
    ensures Quietly(StartConnect(w), 3, now) == Introduced(w, 3)
  {
    var a := On(w, 0, w.session.(phase := Connecting));
    var b := On(a, 1, a.session.(held := false));
    var c := On(b, 1, b.session);
    LetsGo(a, now);
    DialsPort(b, now);
    Opens(c, now);
    Arrives([Push(a, SaidConnecting), Push(b, HoldCleared), Push(PortOpened(c), Identity(w.nextPort)), Introduced(c, 1).(session := c.session)], now);
  }

  /** A wake at a worker without a port dials: it ends with one new port, its
      REGISTER sent and its deadline running. */
  lemma WakeDials(w: Link, now: nat)
    requires AtPeace(w) && w.port.None?
    ensures Quietly(Step(w, Wake), 4, now) == Introduced(w, 4)
  {
    Peaceful(w);
    var c := w.(connectInFlight := true, nextTask := w.nextTask + 1);
    assert Answer(Step(w, Wake), now) == StartConnect(c) by { Next(w, ReadState(w.epoch, w.session.phase), now); }
    Dials(c, now);
  }

  lemma StartedAtPeace(s: Session, nextPort: nat, nextTimer: nat, nextTask: nat)
    ensures AtPeace(Started(s, nextPort, nextTimer, nextTask).(tasks := map[]))
  {
    Boots(s, nextPort, nextTimer, nextTask);
  }

  /** So does a worker that starts. */
  lemma StartDials(s: Session, nextPort: nat, nextTimer: nat, nextTask: nat, now: nat)
    ensures var w := Started(s, nextPort, nextTimer, nextTask);
            Quietly(w, 5, now) == Introduced(w.(tasks := map[]), 4)
  {
    var w := Started(s, nextPort, nextTimer, nextTask);
    var e := w.(tasks := map[]);
    StartedAtPeace(s, nextPort, nextTimer, nextTask);
    assert Answer(w, now) == Step(e, Wake) by { Next(e.(nextTask := nextTask), Boot, now); }
    WakeDials(e, now);
    Then(w, 1, 4, now);
  }

  /* ---- the broker's answer ---- */

  /** The port's answer is awaited, or is being recorded. */
  ghost predicate Awaiting(w: Link, p: nat) { AtPeace(w) && w.port == Some(p) }

  lemma Sound(w: Link)
    requires AtPeace(w)
    ensures AckCleared(w) == map[] && RetryCleared(w) == {}
  {
  }

  lemma NotesBeat(a: Link, p: nat, now: nat)
    requires a.tasks == map[] && a.port == Some(p)
    ensures Answer(Push(a, Acking(p, LabelStored)), now) == Push(On(a, 1, a.session.(beat := now)), Acking(p, BeatStored))
  {
    Next(a, Acking(p, LabelStored), now);
  }

  lemma SaysReady(a: Link, p: nat, now: nat)
    requires a.tasks == map[] && a.port == Some(p)
    ensures Answer(Push(a, Acking(p, BeatStored)), now) == Push(On(a, 1, a.session.(phase := Ready)), Acking(p, ReadySaid))
  {
    Next(a, Acking(p, BeatStored), now);
  }

  lemma Records(a: Link, p: nat, now: nat)
    requires a.tasks == map[] && a.port == Some(p)
    ensures Answer(Push(a, Acking(p, ReadySaid)), now) == Settle(On(a, 1, a.session), p)
  {
    Next(a, Acking(p, ReadySaid), now);
  }

  lemma RecordsOn(a: Link, p: nat, now: nat)
    requires a.tasks == map[] && a.port == Some(p)
    ensures Quietly(Push(a, Acking(p, LabelStored)), 3, now) == Settle(On(a, 3, a.session.(beat := now, phase := Ready)), p)
  {
    var b := On(a, 1, a.session.(beat := now));
    var c := On(b, 1, b.session.(phase := Ready));
    NotesBeat(a, p, now);
    SaysReady(b, p, now);
    Records(c, p, now);
    Arrives([Push(a, Acking(p, LabelStored)), Push(b, Acking(p, BeatStored)), Push(c, Acking(p, ReadySaid)),
             Settle(On(c, 1, c.session), p)], now);
  }

  lemma LetGoOfHold(a: Link, p: nat, now: nat)
    requires a.tasks == map[] && a.port == Some(p)
    ensures Answer(Push(a, Acking(p, AttemptZero)), now) == Push(On(a, 1, a.session.(held := false)), Acking(p, HoldClear))
  {
    Next(a, Acking(p, AttemptZero), now);
  }

  /** A write that changes nothing the link keeps. */
  lemma Passes(a: Link, p: nat, done: AckStep, next: AckStep, now: nat)
    requires a.tasks == map[] && a.port == Some(p)
    requires (done == HoldClear && next == AckStored) || (done == AckStored && next == LabelStored)
    ensures Answer(Push(a, Acking(p, done)), now) == Push(a.(nextTask := a.nextTask + 1), Acking(p, next))
  {
    Next(a, Acking(p, done), now);
  }

  lemma RecordsUpTo(a: Link, p: nat, now: nat)
    requires a.tasks == map[] && a.port == Some(p)
    ensures Quietly(Push(a, Acking(p, AttemptZero)), 3, now) == Push(On(a, 3, a.session.(held := false)), Acking(p, LabelStored))
  {
    var b := On(a, 1, a.session.(held := false));
    var c := b.(nextTask := b.nextTask + 1);
    LetGoOfHold(a, p, now);
    Passes(b, p, HoldClear, AckStored, now);
    Passes(c, p, AckStored, LabelStored, now);
    Arrives([Push(a, Acking(p, AttemptZero)), Push(b, Acking(p, HoldClear)), Push(c, Acking(p, AckStored)),
             Push(c.(nextTask := c.nextTask + 1), Acking(p, LabelStored))], now);
  }

  /** The port was answered ok: READY, its heartbeat begun, nothing held, and no
      deadline and no retry left. */
  lemma AcceptedIsReady(w: Link, p: nat, now: nat)
    requires Awaiting(w, p)
    ensures Quietly(Step(w, Frame(p, Ack)), 6, now) ==
            w.(session := Session(Ready, false, now), answers := w.answers.(accepted := w.answers.accepted + {p}),
               ackTimer := None, retryTimer := None, timers := w.timers.(ack := map[], retry := {}), epoch := w.epoch + 1,
               nextTask := w.nextTask + 6)
  {
    Peaceful(w);
    Sound(w);
    var a := w.(answers := w.answers.(accepted := w.answers.accepted + {p}));
    RecordsUpTo(a, p, now);
    RecordsOn(On(a, 3, a.session.(held := false)), p, now);
    Then(Push(a, Acking(p, AttemptZero)), 3, 3, now);
  }

  lemma Held(w: Link, p: nat, done: HoldStep, v: Link, now: nat)
    requires w.tasks == map[] && w.port == Some(p) && v == Hold(w.(nextTask := w.nextTask + 1), p, done)
    ensures Answer(Push(w, Holding(p, done)), now) == v
  {
    Next(w, Holding(p, done), now);
  }

  lemma HoldsOn(a: Link, p: nat, now: nat)
    requires a.tasks == map[] && a.port == Some(p) && a.session.held
    ensures Quietly(Push(a, Holding(p, HoldSet)), 2, now) == Settle(On(a, 2, SayDown(a.session)), p)
  {
    var vs := [Push(a, Holding(p, HoldSet)), Push(On(a, 1, SayDown(a.session)), Holding(p, DownSaid)), Settle(On(a, 2, SayDown(a.session)), p)];
    assert Answer(vs[0], now) == vs[1] by { Held(a, p, HoldSet, vs[1], now); }
    assert Answer(vs[1], now) == vs[2] by { Held(On(a, 1, SayDown(a.session)), p, DownSaid, vs[2], now); }
    Arrives(vs, now);
  }

  lemma Holds(a: Link, p: nat, now: nat)
    requires a.tasks == map[] && a.port == Some(p)
    ensures Quietly(Push(a, Holding(p, AttemptZeroed)), 4, now) == Settle(On(a, 4, Session(Down, true, 0)), p)
  {
    var vs := [Push(a, Holding(p, AttemptZeroed)), Push(a.(nextTask := a.nextTask + 1), Holding(p, RelaysCleared)),
               Push(On(a, 2, a.session.(held := true)), Holding(p, HoldSet))];
    assert Answer(vs[0], now) == vs[1] by { Held(a, p, AttemptZeroed, vs[1], now); }
    assert Answer(vs[1], now) == vs[2] by { Held(a.(nextTask := a.nextTask + 1), p, RelaysCleared, vs[2], now); }
    Arrives(vs, now);
    HoldsOn(On(a, 2, a.session.(held := true)), p, now);
    Then(Push(a, Holding(p, AttemptZeroed)), 2, 2, now);
  }

  /** The port was answered with a panic hold: it is kept, DOWN and held. */
  lemma RefusedIsHeld(w: Link, p: nat, now: nat)
    requires Awaiting(w, p)
    ensures Quietly(Step(w, Frame(p, PanicRefusal)), 4, now) ==
            w.(session := Session(Down, true, 0), answers := w.answers.(panicked := w.answers.panicked + {p}),
               ackTimer := None, retryTimer := None, timers := w.timers.(ack := map[], retry := {}), epoch := w.epoch + 1,
               nextTask := w.nextTask + 4)
  {
    Peaceful(w);
    Sound(w);
    Holds(w.(answers := w.answers.(panicked := w.answers.panicked + {p})), p, now);
  }

  /* ---- a wake at a live port ---- */

  /** A heartbeat on record that is not too old keeps a READY port as it is. */
  lemma HeardStays(w: Link, p: nat, now: nat)
    requires Awaiting(w, p) && w.ackTimer.None? && w.session.phase == Ready && !w.session.held
    requires w.session.beat != 0 && now - w.session.beat <= 45_000
    ensures Quietly(Step(w, Wake), 3, now) == w.(nextTask := w.nextTask + 3)
  {
    Peaceful(w);
    var s := w.session;
    var vs := [Push(w, ReadState(w.epoch, Ready)), Push(On(w, 1, s), ReadHeld(w.epoch, Ready, false)),
               Push(On(w, 2, s), ReadBeat(w.epoch, s.beat)), On(w, 3, s)];
    Next(w, ReadState(w.epoch, Ready), now);
    Next(On(w, 1, s), ReadHeld(w.epoch, Ready, false), now);
    Next(On(w, 2, s), ReadBeat(w.epoch, s.beat), now);
    Arrives(vs, now);
  }

  /** A wake or a redial while a connect is under way, or an answer is awaited or being
      recorded, does nothing. */
  lemma PendingIsLeftAlone(w: Link, unless: bool)
    requires w.connectInFlight || (w.port.Some? && w.ackTimer.Some?)
    ensures Step(w, Wake) == w && Step(w, ForceRedial(unless)) == w
  {
  }

  /** A held port is kept whatever the clock says. */
  lemma HeldStays(w: Link, p: nat, now: nat)
    requires Awaiting(w, p) && w.ackTimer.None? && w.session.held
    ensures Quietly(Step(w, Wake), 2, now) == w.(nextTask := w.nextTask + 2)
  {
    Peaceful(w);
    var s := w.session;
    var vs := [Push(w, ReadState(w.epoch, s.phase)), Push(On(w, 1, s), ReadHeld(w.epoch, s.phase, true)), On(w, 2, s)];
    Next(w, ReadState(w.epoch, s.phase), now);
    Next(On(w, 1, s), ReadHeld(w.epoch, s.phase, true), now);
    Arrives(vs, now);
  }

  /** `w` once it let its port go: closed, what was asked of it rejected, DOWN. */
  ghost function Gone(w: Link): Link {
    w.(port := None, open := {}, ackTimer := None, epoch := w.epoch + 1, session := Session(Down, false, 0),
       timers := w.timers.(ack := map[]),
       asks := w.asks.(pending := {}, timers := {}, settled := w.asks.settled + multiset(w.asks.pending)))
  }

  lemma DropsTo(w: Link, p: nat)
    requires Awaiting(w, p)
    ensures Dropped(w).(session := SayDown(Dropped(w).session)) == Gone(w)
    ensures Dropped(w.(connectInFlight := true)) == Dropped(w).(connectInFlight := true)
    ensures NoPort(Gone(w))
  {
    Sound(w);
    assert w.asks.timers - w.asks.pending == {};
  }

  /** From a teardown to what follows it. */
  lemma TornDown(w: Link, p: nat, after: After, now: nat)
    requires Awaiting(w, p)
    ensures Quietly(Teardown(w, after), 2, now) == AfterTeardown(Gone(w).(nextTask := w.nextTask + 2), after)
  {
    DropsTo(w, p);
    var d, g := Dropped(w), Gone(w);
    var vs := [Push(d, Cleared(after)), Push(On(g, 1, g.session), Downed(after)), AfterTeardown(On(g, 2, g.session), after)];
    Next(d, Cleared(after), now);
    Next(On(g, 1, g.session), Downed(after), now);
    Arrives(vs, now);
  }

  lemma ForceEnters(g: Link, now: nat)
    requires NoPort(g) && !g.connectInFlight
    ensures Answer(Push(g, ForceZeroed), now) == Push(On(g, 1, g.session), ReadState(g.epoch, g.session.phase))
  {
    Next(g, ForceZeroed, now);
  }

  lemma ReadsNoPort(g: Link, phase: Phase, now: nat)
    requires NoPort(g) && !g.connectInFlight
    ensures Answer(Push(g, ReadState(g.epoch, phase)), now) == StartConnect(On(g, 1, g.session).(connectInFlight := true))
  {
    Next(g, ReadState(g.epoch, phase), now);
  }

  lemma ForceReads(g: Link, now: nat)
    requires NoPort(g) && !g.connectInFlight
    ensures Quietly(Push(g, ForceZeroed), 5, now) == Introduced(g, 5)
  {
    var r := On(g, 1, g.session);
    ForceEnters(g, now);
    ReadsNoPort(r, g.session.phase, now);
    Arrives([Push(g, ForceZeroed), Push(r, ReadState(g.epoch, g.session.phase)), StartConnect(On(r, 1, r.session).(connectInFlight := true))], now);
    Dials(On(r, 1, r.session).(connectInFlight := true), now);
    Then(Push(g, ForceZeroed), 2, 3, now);
  }

  /** A forced redial lets the port go, with everything asked of it, and ends with
      a new one introduced; it does nothing while an answer is pending, or, if so
      asked, while a retry is. */
  lemma ForceRedials(w: Link, p: nat, unless: bool, now: nat)
    requires Awaiting(w, p)
    ensures if w.ackTimer.Some? || (unless && w.retryTimer.Some?) then Step(w, ForceRedial(unless)) == w
            else Quietly(Step(w, ForceRedial(unless)), 7, now) == Introduced(Gone(w), 7)
  {
    Peaceful(w);
    if w.ackTimer.None? && !(unless && w.retryTimer.Some?) {
      TornDown(w, p, Force, now);
      DropsTo(w, p);
      ForceReads(Gone(w).(nextTask := w.nextTask + 2), now);
      Then(Step(w, ForceRedial(unless)), 2, 5, now);
    }
  }

  lemma ForceTornDown(w: Link, now: nat)
    requires NoPort(w) && w.asks.pending == {}
    ensures Quietly(Teardown(w, Force), 2, now) == Push(On(w, 2, Session(Down, false, 0)), ForceZeroed)
  {
    assert Rejected(w.asks) == w.asks;
    var let, down := w.session.(held := false), Session(Down, false, 0);
    assert Dropped(w) == On(w, 0, let);
    var vs := [Push(On(w, 0, let), Cleared(Force)), Push(On(w, 1, down), Downed(Force)), Push(On(w, 2, down), ForceZeroed)];
    assert Answer(vs[0], now) == vs[1] by { Next(On(w, 0, let), Cleared(Force), now); }
    assert Answer(vs[1], now) == vs[2] by { Next(On(w, 1, down), Downed(Force), now); }
    Arrives(vs, now);
  }

  /** A forced redial at a worker without a port dials just the same. */
  lemma ForceDialsAnew(w: Link, unless: bool, now: nat)
    requires AtPeace(w) && w.port.None?
    ensures if unless && w.retryTimer.Some? then Step(w, ForceRedial(unless)) == w
            else Quietly(Step(w, ForceRedial(unless)), 7, now) == Introduced(On(w, 0, Session(Down, false, 0)), 7)
  {
    Peaceful(w);
    if !(unless && w.retryTimer.Some?) {
      ForceTornDown(w, now);
      ForceReads(On(w, 2, Session(Down, false, 0)), now);
      Then(Step(w, ForceRedial(unless)), 2, 5, now);
    }
  }

  /** A worker that is put away loses all but what session storage kept; the browser
      closes its port, and it starts over. */
  lemma RestartKeepsOnlyTheSession(w: Link)
    ensures var v := Step(w, Evict);
            && v.session == w.session && v.port.None? && v.open == {} && v.timers.ack == map[] && v.timers.retry == {} && v.asks.asked == {}
            && !v.connectInFlight && !v.retryArming && v.nextPort == w.nextPort && v.tasks == map[w.nextTask := Boot]
  {
  }

  lemma SilenceReads(w: Link, p: nat, now: nat)
    requires Awaiting(w, p) && w.ackTimer.None? && w.session.phase == Ready && !w.session.held
    requires w.session.beat == 0 || now - w.session.beat > 45_000
    ensures Quietly(Step(w, Wake), 3, now) == Teardown(w.(connectInFlight := true, nextTask := w.nextTask + 3), Dial)
  {
    Peaceful(w);
    var s := w.session;
    var vs := [Push(w, ReadState(w.epoch, Ready)), Push(On(w, 1, s), ReadHeld(w.epoch, Ready, false)),
               Push(On(w, 2, s), ReadBeat(w.epoch, s.beat)), Teardown(On(w, 3, s).(connectInFlight := true), Dial)];
    assert Answer(vs[0], now) == vs[1] by { Next(w, ReadState(w.epoch, Ready), now); }
    assert Answer(vs[1], now) == vs[2] by { Next(On(w, 1, s), ReadHeld(w.epoch, Ready, false), now); }
    assert Answer(vs[2], now) == vs[3] by { Next(On(w, 2, s), ReadBeat(w.epoch, s.beat), now); }
    Arrives(vs, now);
  }

  lemma DialCleared(w: Link, p: nat, now: nat)
    requires Awaiting(w, p)
    ensures var d := Dropped(w).(connectInFlight := true, nextTask := w.nextTask + 3);
            var g := Gone(w).(connectInFlight := true, nextTask := w.nextTask + 3);
            Answer(Push(d, Cleared(Dial)), now) == Push(On(g, 1, g.session), Downed(Dial))
  {
    Next(Dropped(w).(connectInFlight := true, nextTask := w.nextTask + 3), Cleared(Dial), now);
  }

  lemma DialDowned(w: Link, p: nat, now: nat)
    requires Awaiting(w, p)
    ensures var g := Gone(w).(connectInFlight := true, nextTask := w.nextTask + 3);
            Answer(Push(On(g, 1, g.session), Downed(Dial)), now) == StartConnect(On(g, 2, g.session))
  {
    var g := Gone(w).(connectInFlight := true, nextTask := w.nextTask + 3);
    Next(On(g, 1, g.session), Downed(Dial), now);
  }

  lemma DialTornDown(w: Link, p: nat, now: nat)
    requires Awaiting(w, p)
    ensures Quietly(Teardown(w.(connectInFlight := true, nextTask := w.nextTask + 3), Dial), 2, now)
            == StartConnect(Gone(w).(connectInFlight := true, nextTask := w.nextTask + 5))
  {
    DropsTo(w, p);
    var d := Dropped(w).(connectInFlight := true, nextTask := w.nextTask + 3);
    var g := Gone(w).(connectInFlight := true, nextTask := w.nextTask + 3);
    var vs := [Push(d, Cleared(Dial)), Push(On(g, 1, g.session), Downed(Dial)), StartConnect(On(g, 2, g.session))];
    DialCleared(w, p, now);
    DialDowned(w, p, now);
    Arrives(vs, now);
  }

  /** A wake at a READY port that has been silent too long drops it and dials. */
  lemma SilentRedials(w: Link, p: nat, now: nat)
    requires Awaiting(w, p) && w.ackTimer.None? && w.session.phase == Ready && !w.session.held
    requires w.session.beat == 0 || now - w.session.beat > 45_000
    ensures Quietly(Step(w, Wake), 8, now) == Introduced(Gone(w), 8)
  {
    Peaceful(w);
    SilenceReads(w, p, now);
    DialTornDown(w, p, now);
    DropsTo(w, p);
    Dials(Gone(w).(connectInFlight := true, nextTask := w.nextTask + 5), now);
    Then(Step(w, Wake), 3, 5, now);
    Then(Teardown(w.(connectInFlight := true, nextTask := w.nextTask + 3), Dial), 2, 3, now);
  }

  /* ---- a lost link ---- */

  /** Nothing is suspended: nothing changes. */
  lemma {:induction false} Rests(w: Link, n: nat, now: nat)
    requires w.tasks == map[]
    ensures Quietly(w, n, now) == w
    decreases n
  {
    if n > 0 { Rests(w, n - 1, now); }
  }

  /** The backoff armed on the next timer. */
  ghost function Armed(w: Link, n: nat): Link {
    w.(retryTimer := Some(w.timers.next), retryArming := false, connectInFlight := false, nextTask := w.nextTask + n,
       timers := w.timers.(retry := {w.timers.next}, next := w.timers.next + 1))
  }

  lemma Schedules(w: Link, own: bool, now: nat)
    requires w.tasks == map[] && !w.retryArming && w.connectInFlight == own && w.timers.retry == (if w.retryTimer.Some? then {w.retryTimer.value} else {})
    ensures Quietly(Schedule(w, own), 2, now) == if w.retryTimer.Some? then w.(connectInFlight := false) else Armed(w, 2)
  {
    if w.retryTimer.Some? {
      Rests(w.(connectInFlight := false), 2, now);
    } else {
      var a := w.(retryArming := true);
      var vs := [Push(a, Counting(own, false)), Push(a.(nextTask := w.nextTask + 1), Counting(own, true)), Armed(w, 2)];
      Next(a, Counting(own, false), now);
      Next(a.(nextTask := w.nextTask + 1), Counting(own, true), now);
      Arrives(vs, now);
    }
  }

  /** A port that is lost leaves nothing behind but a retry, the one there was or a
      new one: whether its host exits, the broker refuses it, its deadline passes,
      or a post on it fails. */
  ghost predicate Retries(w: Link, v: Link, n: nat) {
    v == if w.retryTimer.Some? then Gone(w).(nextTask := w.nextTask + n) else Armed(Gone(w), n + 2)
  }

  lemma TeardownRetries(w: Link, p: nat, now: nat)
    requires Awaiting(w, p)
    ensures Retries(w, Quietly(Teardown(w, Retry), 4, now), 2)
  {
    Peaceful(w);
    Sound(w);
    TornDown(w, p, Retry, now);
    Schedules(Gone(w).(nextTask := w.nextTask + 2), false, now);
    Then(Teardown(w, Retry), 2, 2, now);
  }

  lemma LostHostRetries(w: Link, p: nat, now: nat)
    requires Awaiting(w, p)
    ensures Retries(w, Quietly(Step(w, HostExit(p)), 3, now), 1)
  {
    Peaceful(w);
    Sound(w);
    DropsTo(w, p);
    var g := Gone(w);
    Next(g, Downed(Retry), now);
    Schedules(g.(nextTask := w.nextTask + 1), false, now);
    Then(Step(w, HostExit(p)), 1, 2, now);
  }

  lemma RefusedPortRetries(w: Link, p: nat, now: nat)
    requires Awaiting(w, p)
    ensures Retries(w, Quietly(Step(w, Frame(p, Refusal)), 4, now), 2)
  {
    TeardownRetries(w, p, now);
  }

  lemma DeadlineRetries(w: Link, p: nat, now: nat)
    requires Awaiting(w, p) && w.ackTimer.Some?
    ensures Retries(w, Quietly(Step(w, AckTimeout(w.ackTimer.value)), 4, now), 2)
  {
    var t := w.ackTimer.value;
    var w1 := w.(ackTimer := None, timers := w.timers.(ack := w.timers.ack - {t}));
    assert Dropped(w1) == Dropped(w);
    TeardownRetries(w, p, now);
  }

  lemma FailedPost(w: Link, p: nat, now: nat)
    requires w.tasks == map[] && w.port == Some(p)
    ensures Enabled(Push(w, Posting(p)), Resume(w.nextTask, false, now))
    ensures Step(Push(w, Posting(p)), Resume(w.nextTask, false, now)) == Teardown(w.(nextTask := w.nextTask + 1), Retry)
  {
    var v, a := Push(w, Posting(p)), w.(nextTask := w.nextTask + 1);
    assert v.tasks - {w.nextTask} == map[];
    assert v.(tasks := map[]) == a;
  }

  lemma FailedPostRetries(w: Link, p: nat, now: nat)
    requires Awaiting(w, p)
    ensures var v := Push(w, Posting(p));
            Enabled(v, Resume(w.nextTask, false, now)) && Retries(w.(nextTask := w.nextTask + 1), Quietly(Step(v, Resume(w.nextTask, false, now)), 4, now), 2)
  {
    FailedPost(w, p, now);
    Later(w);
    TeardownRetries(w.(nextTask := w.nextTask + 1), p, now);
  }

  lemma Later(w: Link)
    requires AtPeace(w)
    ensures AtPeace(w.(nextTask := w.nextTask + 1))
  {
  }

  /** The backoff fires: the worker dials. */
  lemma BackoffDials(w: Link, now: nat)
    requires AtPeace(w) && w.port.None? && w.retryTimer.Some?
    ensures var v := w.(retryTimer := None, timers := w.timers.(retry := {}));
            Quietly(Step(w, RetryFires(w.retryTimer.value)), 4, now) == Introduced(v, 4)
  {
    var v := w.(retryTimer := None, timers := w.timers.(retry := {}));
    assert w.timers.retry - {w.retryTimer.value} == {};
    Peaceful(w);
    WakeDials(v, now);
  }

  lemma RefusedDial(w: Link, now: nat)
    requires w.tasks == map[]
    ensures Enabled(Push(w, HoldCleared), Resume(w.nextTask, false, now))
    ensures Step(Push(w, HoldCleared), Resume(w.nextTask, false, now)) == Teardown(w.(nextTask := w.nextTask + 1), GiveUp)
  {
    var v, a := Push(w, HoldCleared), w.(nextTask := w.nextTask + 1);
    assert v.tasks - {w.nextTask} == map[];
    assert v.(tasks := map[]) == a;
  }

  lemma GivesUp(a: Link, now: nat)
    requires NoPort(a) && a.asks.pending == {} && a.session == Session(Connecting, false, a.session.beat)
    ensures Quietly(Teardown(a, GiveUp), 2, now) == Schedule(On(a, 2, Session(Down, false, 0)), true)
  {
    assert Rejected(a.asks) == a.asks;
    assert Dropped(a) == a;
    var g := a.(session := Session(Down, false, 0));
    var vs := [Push(a, Cleared(GiveUp)), Push(On(g, 1, g.session), Downed(GiveUp)), Schedule(On(g, 2, g.session), true)];
    assert Answer(vs[0], now) == vs[1] by { Next(a, Cleared(GiveUp), now); }
    assert Answer(vs[1], now) == vs[2] by { Next(On(g, 1, g.session), Downed(GiveUp), now); }
    Arrives(vs, now);
  }

  /** A dial the browser refuses counts itself and leaves a retry. */
  lemma FailedDialRetries(w: Link, now: nat)
    requires NoPort(w) && w.connectInFlight && !w.retryArming && w.session == Session(Connecting, false, w.session.beat)
    requires w.timers.retry == {} && w.retryTimer.None? && w.asks.pending == {}
    ensures var v := Push(w, HoldCleared);
            && Enabled(v, Resume(w.nextTask, false, now))
            && Quietly(Step(v, Resume(w.nextTask, false, now)), 4, now) == Armed(w.(session := Session(Down, false, 0)), 5)
  {
    var a := w.(nextTask := w.nextTask + 1);
    var g := a.(session := Session(Down, false, 0));
    RefusedDial(w, now);
    GivesUp(a, now);
    Schedules(On(g, 2, g.session), true, now);
    Then(Teardown(a, GiveUp), 2, 2, now);
  }

  /* ---- what passes over the link ---- */

  /** A ping is noted, and answered; a request is answered. */
  lemma PingIsNoted(w: Link, p: nat, at: nat, now: nat)
    requires Awaiting(w, p)
    ensures Step(w, Frame(p, Ping(at))) == Push(w.(session := w.session.(beat := at)), Posting(p))
    ensures Step(w, Frame(p, Request)) == Push(w, Posting(p))
    ensures Quietly(Step(w, Frame(p, Ping(at))), 1, now) == w.(session := w.session.(beat := at), nextTask := w.nextTask + 1)
  {
    Next(w.(session := w.session.(beat := at)), Posting(p), now);
  }

  /** A request goes out if there is a port and it takes it, and is turned down at
      once otherwise; while it waits its answer settles it, once. */
  lemma AskIsAnswered(w: Link, id: nat, ok: bool)
    requires Inv(w) && id !in w.asks.asked
    ensures var v := Step(w, Ask(id, ok));
            && (id in v.asks.pending <==> w.port.Some? && ok)
            && (id in v.asks.timers <==> id in v.asks.pending)
            && v.asks.settled[id] == (if id in v.asks.pending then 0 else 1)
            && (id in v.asks.pending ==>
                  var u := Step(v, Frame(w.port.value, Response(id)));
                  u == v.(asks := v.asks.(pending := w.asks.pending, timers := w.asks.timers, settled := v.asks.settled + multiset{id})))
  {
    assert w.asks.pending + {id} - {id} == w.asks.pending && w.asks.timers + {id} - {id} == w.asks.timers;
  }
}
