/** What every interleaving of the link keeps. */
module LinkInvariant {
  import opened Prelude
  import opened Link

  /** A continuation of the connect that connectInFlight stands for. */
  predicate DialTask(k: Task) {
    match k
    case Cleared(a) => a == Dial || a == GiveUp
    case Downed(a) => a == Dial || a == GiveUp
    case SaidConnecting => true
    case HoldCleared => true
    case Identity(_) => true
    case Counting(own, _) => own
    case _ => false
  }

  /** A continuation that goes on to dial or to schedule a retry. A connect that
      collects an identity is not one: if its port goes, it just returns. */
  predicate WillReconnect(k: Task) {
    match k
    case Boot => true
    case ReadState(_, _) => true
    case ReadHeld(_, _, _) => true
    case ReadBeat(_, _) => true
    case Cleared(_) => true
    case Downed(_) => true
    case SaidConnecting => true
    case HoldCleared => true
    case ForceZeroed => true
    case _ => false
  }

  /** The retry chain of a lost link, up to the write of the attempt count. */
  predicate Losing(k: Task) { k == Cleared(Retry) || k == Downed(Retry) || k == Counting(false, false) }

  ghost predicate NoneLosing(w: Link) { forall t :: t in w.tasks ==> !Losing(w.tasks[t]) }

  /** The worker's references and the browser's resources name the same things:
      one open native port at most, one ack timer and one retry timer at most. */
  ghost predicate Resources(w: Link) {
    && w.open == (if w.port.Some? then {w.port.value} else {})
    && (w.port.Some? ==> w.port.value < w.nextPort)
    && (w.ackTimer.Some? ==> w.ackTimer.value in w.timers.ack && w.port == Some(w.timers.ack[w.ackTimer.value]))
    && w.timers.ack.Keys == (if w.ackTimer.Some? then {w.ackTimer.value} else {})
    && w.timers.retry == (if w.retryTimer.Some? then {w.retryTimer.value} else {})
    && !(w.retryTimer.Some? && w.retryArming)
  }

  /** Every request asked is pending under its own live timer, or settled once. */
  ghost predicate Requests(w: Link) {
    && (w.port.None? ==> w.asks.pending == {})
    && w.asks.timers == w.asks.pending
    && w.asks.pending <= w.asks.asked
    && (forall id :: w.asks.settled[id] == if id in w.asks.asked && id !in w.asks.pending then 1 else 0)
  }

  /** Answers belong to ports, and a port got one kind. */
  ghost predicate Answers(w: Link) {
    && w.answers.accepted !! w.answers.panicked
    && (forall p :: p in w.answers.accepted || p in w.answers.panicked ==> p < w.nextPort)
    && (w.port.Some? && w.session.held ==> w.port.value in w.answers.panicked)
  }

  /** No half-open port, and READY speaks for the live port. */
  ghost predicate NeverHalfOpen(w: Link) {
    && (w.port.Some? ==> w.connectInFlight || w.ackTimer.Some? || w.session.phase == Ready || w.session.held)
    && (w.port.Some? && w.session.phase == Ready ==> w.port.value in w.answers.accepted)
    && (w.connectInFlight ==> w.ackTimer.None?)
  }

  /** A live port at rest: nothing about to change it but an answer. */
  predicate AtRest(w: Link) { w.port.Some? && !w.connectInFlight && w.ackTimer.None? }

  /** What a suspended continuation may rely on when it resumes. */
  ghost predicate TaskOk(w: Link, k: Task) {
    && (DialTask(k) ==> w.connectInFlight && (w.port.Some? ==> k == Identity(w.port.value)))
    && match k
       case ReadState(e, phase) =>
         e <= w.epoch && (e == w.epoch && w.port.Some? ==> AtRest(w) && (phase == Ready || w.session.held))
       case ReadHeld(e, phase, held) =>
         e <= w.epoch && (e == w.epoch ==> AtRest(w) && (phase == Ready || held))
       case ReadBeat(e, _) => e <= w.epoch && (e == w.epoch ==> AtRest(w))
       case SaidConnecting => w.session.phase != Ready
       case HoldCleared => w.session.phase != Ready && !w.session.held
       case Identity(p) => p < w.nextPort
       case Counting(own, _) => own ==> w.retryArming
       case Acking(p, done) => p in w.answers.accepted && (done == ReadySaid && Current(w, p) ==> w.session.phase == Ready)
       case Holding(p, done) => p in w.answers.panicked && (Current(w, p) && (done == HoldSet || done == DownSaid) ==> w.session.held)
       case _ => true
  }

  /** How two suspended continuations stand: one connect at a time, and a lost
      link's retry chain that storage, answering in order, ends before the dial
      counts its own failure. That is why the dial can trust its claim. */
  predicate PairOk(epoch: nat, t: nat, k: Task, u: nat, l: Task) {
    && (DialTask(k) && DialTask(l) ==> t == u)
    && match k
       case ReadState(e, _) => e == epoch && l == Cleared(Retry) ==> u < t
       case SaidConnecting => l != Cleared(Retry) && (l == Downed(Retry) ==> u < t)
       case HoldCleared => l != Cleared(Retry) && l != Downed(Retry) && (l == Counting(false, false) ==> u < t)
       case Cleared(a) => (a == Dial || a == GiveUp ==> !Losing(l)) && (a == GiveUp && l == Counting(false, true) ==> u < t)
       case Downed(a) => (a == Dial || a == GiveUp ==> !Losing(l)) && (a == GiveUp ==> !l.Counting?)
       case Counting(own, _) => own ==> !Losing(l) && (l.Counting? ==> u == t)
       case _ => true
  }

  ghost predicate Tasks(w: Link) {
    && (forall t :: t in w.tasks ==> t < w.nextTask && TaskOk(w, w.tasks[t]))
    && (forall t, u :: t in w.tasks && u in w.tasks ==> PairOk(w.epoch, t, w.tasks[t], u, w.tasks[u]))
    && (w.port.Some? ==> NoneLosing(w))
  }

  /** The part of the invariant that losing a continuation cannot break. */
  ghost predicate Safe(w: Link) {
    Resources(w) && Requests(w) && Answers(w) && NeverHalfOpen(w) && Tasks(w)
  }

  ghost predicate HasDial(m: map<nat, Task>) { exists t :: t in m && DialTask(m[t]) }
  ghost predicate HasCount(m: map<nat, Task>) { exists t :: t in m && m[t].Counting? }
  ghost predicate HasReconnect(m: map<nat, Task>) { exists t :: t in m && WillReconnect(m[t]) }

  /** A connect in flight and a claimed retry are each somebody's work. */
  ghost predicate Busy(w: Link) {
    (w.connectInFlight ==> HasDial(w.tasks)) && (w.retryArming ==> HasCount(w.tasks))
  }

  ghost predicate Inv(w: Link) { Safe(w) && Busy(w) }

  /** A worker without a port is on its way to one. */
  ghost predicate Driven(w: Link) {
    w.port.None? ==> w.retryTimer.Some? || w.retryArming || HasReconnect(w.tasks)
  }

  /* ---- pushing and popping ---- */

  ghost predicate Fits(w: Link, k: Task) {
    && TaskOk(w, k)
    && PairOk(w.epoch, w.nextTask, k, w.nextTask, k)
    && (w.port.Some? ==> !Losing(k))
    && (forall t :: t in w.tasks ==>
          PairOk(w.epoch, t, w.tasks[t], w.nextTask, k) && PairOk(w.epoch, w.nextTask, k, t, w.tasks[t]))
  }

  lemma Pops(w: Link, t: nat)
    requires Safe(w)
    ensures Safe(w.(tasks := w.tasks - {t}))
  {
    var v := w.(tasks := w.tasks - {t});
    forall x | x in v.tasks ensures TaskOk(v, v.tasks[x]) { assert TaskOk(w, w.tasks[x]); }
  }

  lemma Pushes(w: Link, k: Task)
    requires Safe(w) && Fits(w, k)
    ensures Safe(Push(w, k))
  {
    var v := Push(w, k);
    forall x | x in v.tasks ensures x < v.nextTask && TaskOk(v, v.tasks[x]) {
      assert x != w.nextTask ==> TaskOk(w, w.tasks[x]);
    }
    forall x, y | x in v.tasks && y in v.tasks ensures PairOk(v.epoch, x, v.tasks[x], y, v.tasks[y]) { }
  }

  /** A continuation no other one's order depends on. */
  lemma PushesPlain(w: Link, k: Task)
    requires Safe(w) && TaskOk(w, k) && (k.Acking? || k.Holding? || k.Posting? || k.ReadHeld? || k.ReadBeat?)
    ensures Safe(Push(w, k))
  {
    forall t | t in w.tasks
      ensures PairOk(w.epoch, t, w.tasks[t], w.nextTask, k) && PairOk(w.epoch, w.nextTask, k, t, w.tasks[t])
    { }
    Pushes(w, k);
  }

  lemma Boots(session: Session, nextPort: nat, nextTimer: nat, nextTask: nat)
    ensures Inv(Started(session, nextPort, nextTimer, nextTask))
  {
    var w := Started(session, nextPort, nextTimer, nextTask);
    assert nextTask in w.tasks;
  }

  /* ---- one lemma per piece of the worker ---- */

  lemma Enters(w: Link)
    requires Safe(w)
    ensures Safe(Enter(w))
  {
    if !(w.connectInFlight || (w.port.Some? && w.ackTimer.Some?)) {
      Pushes(w, ReadState(w.epoch, w.session.phase));
    }
  }

  lemma EpochMoves(w: Link, epoch: nat)
    requires Tasks(w) && epoch > w.epoch
    ensures forall t, u :: t in w.tasks && u in w.tasks ==> PairOk(epoch, t, w.tasks[t], u, w.tasks[u])
  {
    forall t, u | t in w.tasks && u in w.tasks ensures PairOk(epoch, t, w.tasks[t], u, w.tasks[u]) {
      assert TaskOk(w, w.tasks[t]) && PairOk(w.epoch, t, w.tasks[t], u, w.tasks[u]);
    }
  }

  lemma DropsFields(w: Link)
    requires Safe(w)
    ensures Resources(Dropped(w)) && Requests(Dropped(w)) && Answers(Dropped(w)) && NeverHalfOpen(Dropped(w))
  {
  }

  /** The suspended continuations after `w` let its port go and became `d`. */
  lemma LetsGo(w: Link, d: Link)
    requires Tasks(w) && d.tasks == w.tasks && d.nextTask == w.nextTask && d.nextPort == w.nextPort
    requires d.port.None? && !d.session.held && ((w.port.None? && d.epoch == w.epoch) || d.epoch > w.epoch)
    requires d.connectInFlight == w.connectInFlight && d.retryArming == w.retryArming
    requires d.answers.accepted == w.answers.accepted && d.answers.panicked == w.answers.panicked && (d.session.phase == w.session.phase || d.session.phase == Down)
    ensures Tasks(d)
  {
    if d.epoch > w.epoch { EpochMoves(w, d.epoch); }
    forall t | t in d.tasks ensures TaskOk(d, d.tasks[t]) { assert TaskOk(w, w.tasks[t]); }
  }

  lemma Drops(w: Link)
    requires Safe(w)
    ensures Safe(Dropped(w))
  {
    DropsFields(w);
    LetsGo(w, Dropped(w));
  }

  /** The retry chain of a link just lost: every read taken before is stale, and
      no dial is past its introduction. */
  lemma FitsLost(w: Link, d: Link, k: Task)
    requires Tasks(w) && w.port.Some? && Tasks(d) && d.port.None? && (k == Cleared(Retry) || k == Downed(Retry))
    requires d.tasks == w.tasks && d.nextTask == w.nextTask && d.epoch > w.epoch
    ensures Fits(d, k)
  {
    forall t | t in d.tasks
      ensures PairOk(d.epoch, t, d.tasks[t], d.nextTask, k) && PairOk(d.epoch, d.nextTask, k, t, d.tasks[t])
    {
      assert TaskOk(w, w.tasks[t]);
    }
  }

  lemma Loses(w: Link)
    requires Safe(w) && w.port.Some?
    ensures Safe(Teardown(w, Retry))
  {
    Drops(w);
    FitsLost(w, Dropped(w), Cleared(Retry));
    Pushes(Dropped(w), Cleared(Retry));
  }

  lemma Forces(w: Link)
    requires Safe(w)
    ensures Safe(Teardown(w, Force))
  {
    Drops(w);
    var d := Dropped(w);
    forall t | t in d.tasks
      ensures PairOk(d.epoch, t, d.tasks[t], d.nextTask, Cleared(Force))
              && PairOk(d.epoch, d.nextTask, Cleared(Force), t, d.tasks[t])
    { }
    Pushes(d, Cleared(Force));
  }

  ghost predicate NoneDial(w: Link) { forall t :: t in w.tasks ==> !DialTask(w.tasks[t]) }

  lemma Claims(w: Link)
    requires Safe(w) && w.port.None?
    ensures Safe(w.(connectInFlight := true))
  {
    var d := w.(connectInFlight := true);
    forall t | t in d.tasks ensures TaskOk(d, d.tasks[t]) { assert TaskOk(w, w.tasks[t]); }
  }

  lemma FitsCleared(d: Link, after: After)
    requires Tasks(d) && d.port.None? && d.connectInFlight && NoneDial(d) && NoneLosing(d) && (after == Dial || after == GiveUp)
    ensures Fits(d, Cleared(after))
  {
    forall t | t in d.tasks
      ensures PairOk(d.epoch, t, d.tasks[t], d.nextTask, Cleared(after))
              && PairOk(d.epoch, d.nextTask, Cleared(after), t, d.tasks[t])
    {
      assert t < d.nextTask && !DialTask(d.tasks[t]) && !Losing(d.tasks[t]);
    }
  }

  lemma DropsClaimed(w: Link)
    ensures Dropped(w.(connectInFlight := true)) == Dropped(w).(connectInFlight := true)
  {
  }

  /** A teardown inside the connect that is in flight, or that claims one. */
  lemma TearsDownDial(w: Link, after: After)
    requires Safe(w) && (after == Dial || after == GiveUp) && NoneDial(w) && NoneLosing(w)
    ensures Safe(Teardown(w.(connectInFlight := true), after))
  {
    var d := Dropped(w).(connectInFlight := true);
    DropsClaimed(w);
    Drops(w);
    Claims(Dropped(w));
    FitsCleared(d, after);
    Pushes(d, Cleared(after));
  }

  lemma StartsConnect(w: Link)
    requires Safe(w) && w.port.None? && w.connectInFlight && NoneDial(w)
    requires forall t :: t in w.tasks ==> w.tasks[t] != Cleared(Retry)
    ensures Safe(StartConnect(w))
  {
    var d := w.(session := w.session.(phase := Connecting));
    forall t | t in d.tasks ensures TaskOk(d, d.tasks[t]) { assert TaskOk(w, w.tasks[t]); }
    assert Safe(d);
    Pushes(d, SaidConnecting);
  }

  /** The connect in flight schedules its own retry. */
  lemma SchedulesOwn(w: Link)
    requires Safe(w) && w.port.None? && w.connectInFlight && NoneDial(w) && NoneLosing(w)
    requires forall t :: t in w.tasks ==> !w.tasks[t].Counting?
    ensures Safe(Schedule(w, true))
  {
    if w.retryTimer.Some? || w.retryArming {
      Finishes(w);
    } else {
      Arms(w, true);
    }
  }

  /** A lost link schedules its retry while a dial may be under way. */
  lemma SchedulesLost(w: Link)
    requires Safe(w) && w.port.None?
    requires forall t :: t in w.tasks && DialTask(w.tasks[t]) ==> w.tasks[t].Identity? || w.tasks[t] == SaidConnecting || w.retryArming
    ensures Safe(Schedule(w, false))
  {
    if !(w.retryTimer.Some? || w.retryArming) { Arms(w, false); }
  }

  lemma Finishes(w: Link)
    requires Safe(w) && w.port.None? && NoneDial(w)
    ensures Safe(Finish(w))
  {
    var d := Finish(w);
    forall t | t in d.tasks ensures TaskOk(d, d.tasks[t]) { assert TaskOk(w, w.tasks[t]); }
  }

  lemma Arms(w: Link, own: bool)
    requires Safe(w) && w.port.None? && w.retryTimer.None? && !w.retryArming
    requires own ==> w.connectInFlight && NoneDial(w) && NoneLosing(w) && forall t :: t in w.tasks ==> !w.tasks[t].Counting?
    requires !own ==> forall t :: t in w.tasks && DialTask(w.tasks[t]) ==> w.tasks[t].Identity? || w.tasks[t] == SaidConnecting
    ensures Safe(Push(w.(retryArming := true), Counting(own, false)))
  {
    var d := w.(retryArming := true);
    forall t | t in d.tasks ensures TaskOk(d, d.tasks[t]) { assert TaskOk(w, w.tasks[t]); }
    Pushes(d, Counting(own, false));
  }

  lemma Opens(w: Link)
    requires Safe(w) && w.port.None? && w.connectInFlight && NoneDial(w) && NoneLosing(w)
    requires w.session.phase != Ready && !w.session.held
    ensures Safe(PortOpened(w))
  {
    var d := PortOpened(w);
    EpochMoves(w, d.epoch);
    forall t | t in d.tasks ensures TaskOk(d, d.tasks[t]) { assert TaskOk(w, w.tasks[t]); }
    assert Resources(d);
  }

  lemma OpensPort(w: Link)
    requires Safe(w) && w.port.None? && w.connectInFlight && NoneDial(w) && NoneLosing(w)
    requires w.session.phase != Ready && !w.session.held
    ensures Safe(OpenPort(w))
  {
    var d := PortOpened(w);
    Opens(w);
    forall t | t in d.tasks
      ensures PairOk(d.epoch, t, d.tasks[t], d.nextTask, Identity(w.nextPort))
      ensures PairOk(d.epoch, d.nextTask, Identity(w.nextPort), t, d.tasks[t])
    {
      assert !DialTask(d.tasks[t]);
    }
    Pushes(d, Identity(w.nextPort));
  }

  lemma Introduces(w: Link, p: nat)
    requires Safe(w) && Current(w, p) && w.connectInFlight && NoneDial(w)
    ensures Safe(Finish(SetAckTimer(w, p)))
  {
    var d := Finish(SetAckTimer(w, p));
    forall t | t in d.tasks ensures TaskOk(d, d.tasks[t]) { assert TaskOk(w, w.tasks[t]); }
    assert Resources(d);
  }

  lemma Settles(w: Link, from: nat)
    requires Safe(w) && (Current(w, from) ==> w.session.phase == Ready || w.session.held)
    ensures Safe(Settle(w, from))
  {
    if Current(w, from) {
      var d := Settle(w, from);
      EpochMoves(w, d.epoch);
      forall t | t in d.tasks ensures TaskOk(d, d.tasks[t]) { assert TaskOk(w, w.tasks[t]); }
      assert Resources(d);
    }
  }

  lemma Beats(w: Link, now: nat)
    requires Safe(w)
    ensures Safe(w.(session := w.session.(beat := now)))
  {
    var d := w.(session := w.session.(beat := now));
    forall t | t in d.tasks ensures TaskOk(d, d.tasks[t]) { assert TaskOk(w, w.tasks[t]); }
  }

  lemma SaysReady(w: Link, from: nat)
    requires Safe(w) && Current(w, from) && from in w.answers.accepted
    ensures Safe(w.(session := w.session.(phase := Ready)))
  {
    var d := w.(session := w.session.(phase := Ready));
    forall t | t in d.tasks ensures TaskOk(d, d.tasks[t]) { assert TaskOk(w, w.tasks[t]); }
  }

  lemma SetsHold(w: Link, from: nat)
    requires Safe(w) && Current(w, from) && from in w.answers.panicked
    ensures Safe(w.(session := w.session.(held := true)))
  {
    var d := w.(session := w.session.(held := true));
    forall t | t in d.tasks ensures TaskOk(d, d.tasks[t]) { assert TaskOk(w, w.tasks[t]); }
  }

  lemma SaysDown(w: Link)
    requires Safe(w) && (w.port.Some? ==> w.session.held)
    ensures Safe(w.(session := SayDown(w.session)))
  {
    var d := w.(session := SayDown(w.session));
    forall t | t in d.tasks ensures TaskOk(d, d.tasks[t]) { assert TaskOk(w, w.tasks[t]); }
  }

  lemma Records(w: Link, from: nat, done: AckStep, now: nat)
    requires Safe(w) && Current(w, from) && TaskOk(w, Acking(from, done))
    ensures Safe(Record(w, from, done, now))
  {
    match done
    case AttemptZero =>
      assert w.(session := w.session.(held := false)) == w;
      PushesPlain(w, Acking(from, HoldClear));
    case HoldClear => PushesPlain(w, Acking(from, AckStored));
    case AckStored => PushesPlain(w, Acking(from, LabelStored));
    case LabelStored =>
      Beats(w, now);
      PushesPlain(w.(session := w.session.(beat := now)), Acking(from, BeatStored));
    case BeatStored =>
      SaysReady(w, from);
      PushesPlain(w.(session := w.session.(phase := Ready)), Acking(from, ReadySaid));
    case ReadySaid => Settles(w, from);
  }

  lemma Holds(w: Link, from: nat, done: HoldStep)
    requires Safe(w) && Current(w, from) && TaskOk(w, Holding(from, done))
    ensures Safe(Hold(w, from, done))
  {
    match done
    case AttemptZeroed => PushesPlain(w, Holding(from, RelaysCleared));
    case RelaysCleared =>
      SetsHold(w, from);
      PushesPlain(w.(session := w.session.(held := true)), Holding(from, HoldSet));
    case HoldSet =>
      SaysDown(w);
      PushesPlain(w.(session := SayDown(w.session)), Holding(from, DownSaid));
    case DownSaid => Settles(w, from);
  }

  lemma Decides(w: Link, e: nat, phase: Phase, held: bool, stale: bool)
    requires Safe(w)
    requires e == w.epoch && w.port.None? && !w.connectInFlight ==> forall t :: t in w.tasks ==> w.tasks[t] != Cleared(Retry)
    ensures Safe(Decide(w, e, phase, held, stale))
  {
    if e != w.epoch {
      Enters(w);
    } else if w.connectInFlight || (w.port.Some? && (w.ackTimer.Some? || held || (phase == Ready && !stale))) {
    } else {
      assert NoneDial(w);
      if w.port.Some? {
        TearsDownDial(w, Dial);
      } else {
        Claims(w);
        StartsConnect(w.(connectInFlight := true));
      }
    }
  }

  /** What the continuation that resumes leaves behind: everything but itself, and what
      its place in the order says about the rest. */
  ghost predicate Leaves(w: Link, k: Task, t: nat) {
    && Safe(w) && TaskOk(w, k) && t !in w.tasks
    && (forall u :: u in w.tasks ==> PairOk(w.epoch, u, w.tasks[u], t, k) && PairOk(w.epoch, t, k, u, w.tasks[u]))
    && (w.port.Some? ==> !Losing(k))
    && (OnSession(k) ==> forall u :: u in w.tasks && OnSession(w.tasks[u]) ==> t < u)
  }

  lemma Leaving(w: Link, t: nat)
    requires Safe(w) && t in w.tasks && (OnSession(w.tasks[t]) ==> Oldest(w, t))
    ensures Leaves(w.(tasks := w.tasks - {t}), w.tasks[t], t)
  {
    Pops(w, t);
  }

  lemma ContinuesRead(w: Link, k: Task, t: nat, ok: bool, now: nat)
    requires Leaves(w, k, t) && (k.Boot? || k.ReadState? || k.ReadHeld? || k.ReadBeat? || k.ForceZeroed?)
    ensures Safe(Continue(w, k, ok, now))
  {
    match k
    case Boot => Enters(w);
    case ReadState(e, phase) =>
      if w.port.Some? { PushesPlain(w, ReadHeld(e, phase, w.session.held)); }
      else {
        if e == w.epoch {
          forall u | u in w.tasks ensures w.tasks[u] != Cleared(Retry) {
            assert PairOk(w.epoch, t, k, u, w.tasks[u]);
          }
        }
        Decides(w, e, phase, false, false);
      }
    case ReadHeld(e, phase, held) =>
      if w.port.Some? && !held && phase == Ready { PushesPlain(w, ReadBeat(e, w.session.beat)); }
      else { Decides(w, e, phase, held, false); }
    case ReadBeat(e, beat) => Decides(w, e, Ready, false, IsStale(beat, now));
    case ForceZeroed => Enters(w);
  }

  lemma NoOtherDial(w: Link, k: Task, t: nat)
    requires Leaves(w, k, t) && DialTask(k)
    ensures NoneDial(w) && w == w.(connectInFlight := true)
  {
  }

  lemma ContinuesSaid(w: Link, t: nat)
    requires Leaves(w, SaidConnecting, t)
    ensures Safe(Push(w.(session := w.session.(held := false)), HoldCleared))
  {
    NoOtherDial(w, SaidConnecting, t);
    Unholds(w);
    forall u | u in w.tasks
      ensures PairOk(w.epoch, u, w.tasks[u], w.nextTask, HoldCleared)
              && PairOk(w.epoch, w.nextTask, HoldCleared, u, w.tasks[u])
    {
      assert PairOk(w.epoch, t, SaidConnecting, u, w.tasks[u]);
    }
    Pushes(w.(session := w.session.(held := false)), HoldCleared);
  }

  lemma ContinuesHoldCleared(w: Link, t: nat, ok: bool)
    requires Leaves(w, HoldCleared, t)
    ensures Safe(if ok then OpenPort(w) else Teardown(w, GiveUp))
  {
    NoOtherDial(w, HoldCleared, t);
    forall u | u in w.tasks ensures !Losing(w.tasks[u]) { assert PairOk(w.epoch, t, HoldCleared, u, w.tasks[u]); }
    if ok { OpensPort(w); } else { TearsDownDial(w, GiveUp); }
  }

  lemma ContinuesIdentity(w: Link, p: nat, t: nat, ok: bool, now: nat)
    requires Leaves(w, Identity(p), t)
    ensures Safe(Continue(w, Identity(p), ok, now))
  {
    NoOtherDial(w, Identity(p), t);
    if Current(w, p) {
      if ok { Introduces(w, p); } else { TearsDownDial(w, GiveUp); }
    } else {
      Finishes(w);
      assert ClosePort(w, p) == w;
    }
  }

  lemma Unholds(w: Link)
    requires Safe(w) && w.port.None?
    ensures Safe(w.(session := w.session.(held := false)))
  {
    var d := w.(session := w.session.(held := false));
    forall t | t in d.tasks ensures TaskOk(d, d.tasks[t]) { assert TaskOk(w, w.tasks[t]); }
  }

  /** A teardown that found the port replaced or gone goes on to what it was for. */
  lemma ContinuesTeardown(w: Link, k: Task, t: nat, ok: bool, now: nat)
    requires Leaves(w, k, t) && (k.Cleared? || k.Downed?)
    ensures Safe(Continue(w, k, ok, now))
  {
    if k.Cleared? && w.port.None? {
      SaysDown(w);
      FitsDowned(w.(session := SayDown(w.session)), k, t);
      Pushes(w.(session := SayDown(w.session)), Downed(k.after));
    } else {
      Afterwards(w, k, t);
    }
  }

  lemma FitsDowned(w: Link, k: Task, t: nat)
    requires Leaves(w, k, t) && k.Cleared? && w.port.None?
    ensures Fits(w, Downed(k.after))
  {
    forall u | u in w.tasks
      ensures PairOk(w.epoch, u, w.tasks[u], w.nextTask, Downed(k.after))
              && PairOk(w.epoch, w.nextTask, Downed(k.after), u, w.tasks[u])
    {
      assert PairOk(w.epoch, u, w.tasks[u], t, k) && PairOk(w.epoch, t, k, u, w.tasks[u]);
    }
  }

  lemma Afterwards(w: Link, k: Task, t: nat)
    requires Leaves(w, k, t) && (k.Downed? || (k.Cleared? && w.port.Some?))
    ensures Safe(AfterTeardown(w, k.after))
  {
    forall u | u in w.tasks ensures PairOk(w.epoch, u, w.tasks[u], t, k) && PairOk(w.epoch, t, k, u, w.tasks[u]) { }
    match k.after
    case Dial => StartsConnect(w);
    case GiveUp => SchedulesOwn(w);
    case Retry => SchedulesLost(w);
    case Force => Pushes(w, ForceZeroed);
  }

  lemma ArmsRetry(w: Link)
    requires Safe(w) && w.retryArming
    requires forall u :: u in w.tasks ==> !(w.tasks[u].Counting? && w.tasks[u].own)
    ensures Safe(ArmRetry(w))
  {
    var d := ArmRetry(w);
    forall u | u in d.tasks ensures TaskOk(d, d.tasks[u]) { assert TaskOk(w, w.tasks[u]); }
    assert Resources(d);
  }

  lemma CountsOn(w: Link, own: bool, t: nat)
    requires Leaves(w, Counting(own, false), t)
    ensures Safe(Push(w, Counting(own, true)))
  {
    var k, l := Counting(own, false), Counting(own, true);
    forall u | u in w.tasks
      ensures PairOk(w.epoch, u, w.tasks[u], w.nextTask, l) && PairOk(w.epoch, w.nextTask, l, u, w.tasks[u])
    {
      assert PairOk(w.epoch, u, w.tasks[u], t, k) && PairOk(w.epoch, t, k, u, w.tasks[u]);
    }
    Pushes(w, l);
  }

  lemma ContinuesCount(w: Link, own: bool, written: bool, t: nat, ok: bool, now: nat)
    requires Leaves(w, Counting(own, written), t)
    ensures Safe(Continue(w, Counting(own, written), ok, now))
  {
    var k := Counting(own, written);
    if !written {
      CountsOn(w, own, t);
    } else {
      forall u | u in w.tasks ensures PairOk(w.epoch, u, w.tasks[u], t, k) && PairOk(w.epoch, t, k, u, w.tasks[u]) { }
      if w.retryArming { ArmsRetry(w); }
      if own { Finishes(ArmRetry(w)); }
    }
  }

  lemma Continues(w: Link, k: Task, t: nat, ok: bool, now: nat)
    requires Leaves(w, k, t)
    ensures Safe(Continue(w, k, ok, now))
  {
    match k
    case Cleared(_) => ContinuesTeardown(w, k, t, ok, now);
    case Downed(_) => ContinuesTeardown(w, k, t, ok, now);
    case Counting(own, written) => ContinuesCount(w, own, written, t, ok, now);
    case Acking(from, done) => if Current(w, from) { Records(w, from, done, now); }
    case Holding(from, done) => if Current(w, from) { Holds(w, from, done); }
    case Posting(from) => if Current(w, from) && !ok { Loses(w); }
    case SaidConnecting => ContinuesSaid(w, t);
    case HoldCleared => ContinuesHoldCleared(w, t, ok);
    case Identity(p) => ContinuesIdentity(w, p, t, ok, now);
    case _ => ContinuesRead(w, k, t, ok, now);
  }

  /* ---- one lemma per event ---- */

  lemma Accepts(w: Link, from: nat)
    requires Safe(w) && Current(w, from) && from !in w.answers.panicked
    ensures Safe(w.(answers := w.answers.(accepted := w.answers.accepted + {from})))
  {
    var d := w.(answers := w.answers.(accepted := w.answers.accepted + {from}));
    forall t | t in d.tasks ensures TaskOk(d, d.tasks[t]) { assert TaskOk(w, w.tasks[t]); }
  }

  lemma Panics(w: Link, from: nat)
    requires Safe(w) && Current(w, from) && from !in w.answers.accepted
    ensures Safe(w.(answers := w.answers.(panicked := w.answers.panicked + {from})))
  {
    var d := w.(answers := w.answers.(panicked := w.answers.panicked + {from}));
    forall t | t in d.tasks ensures TaskOk(d, d.tasks[t]) { assert TaskOk(w, w.tasks[t]); }
  }

  lemma AskSettles(w: Link, id: nat)
    requires Safe(w) && id in w.asks.pending
    ensures Safe(SettleAsk(w, id))
  {
    var d := SettleAsk(w, id);
    forall t | t in d.tasks ensures TaskOk(d, d.tasks[t]) { assert TaskOk(w, w.tasks[t]); }
    assert Requests(d);
  }

  lemma Frames(w: Link, from: nat, msg: Msg)
    requires Safe(w) && Consistent(w, Frame(from, msg))
    ensures Safe(OnFrame(w, from, msg))
  {
    if !Current(w, from) {
      assert ClosePort(w, from) == w;
    } else {
      match msg
      case Ack =>
        Accepts(w, from);
        PushesPlain(w.(answers := w.answers.(accepted := w.answers.accepted + {from})), Acking(from, AttemptZero));
      case PanicRefusal =>
        Panics(w, from);
        PushesPlain(w.(answers := w.answers.(panicked := w.answers.panicked + {from})), Holding(from, AttemptZeroed));
      case Refusal => Loses(w);
      case Ping(at) =>
        Beats(w, at);
        PushesPlain(w.(session := w.session.(beat := at)), Posting(from));
      case Request => PushesPlain(w, Posting(from));
      case Response(id) => if id in w.asks.pending { AskSettles(w, id); }
      case Notice =>
    }
  }

  lemma Exits(w: Link, from: nat)
    requires Safe(w)
    ensures Safe(OnHostExit(w, from))
  {
    if !Current(w, from) {
      assert w.open - {from} == w.open;
    } else {
      Drops(w);
      SaysDown(Dropped(w));
      FitsLost(w, Dropped(w).(session := SayDown(Dropped(w).session)), Downed(Retry));
      Pushes(Dropped(w).(session := SayDown(Dropped(w).session)), Downed(Retry));
    }
  }

  lemma Asks(w: Link, id: nat, ok: bool)
    requires Safe(w) && id !in w.asks.asked
    ensures Safe(OnAsk(w, id, ok))
  {
    var d := OnAsk(w, id, ok);
    forall t | t in d.tasks ensures TaskOk(d, d.tasks[t]) { assert TaskOk(w, w.tasks[t]); }
    assert Requests(d);
  }

  lemma TimesOut(w: Link, t: nat)
    requires Safe(w) && t in w.timers.ack
    ensures Safe(OnAckTimeout(w, t))
  {
    var w1 := w.(ackTimer := None, timers := w.timers.(ack := w.timers.ack - {t}));
    assert w.ackTimer == Some(t);
    Loses(w);
    assert Dropped(w1) == Dropped(w);
  }

  lemma Keeps(w: Link, e: Event)
    requires Safe(w) && Enabled(w, e) && Consistent(w, e)
    ensures Safe(Step(w, e))
  {
    match e
    case Wake => Enters(w);
    case ForceRedial(_) => Forces(w);
    case Ask(id, ok) => Asks(w, id, ok);
    case AskTimeout(id) => AskSettles(w, id);
    case Frame(from, msg) => Frames(w, from, msg);
    case HostExit(from) => Exits(w, from);
    case AckTimeout(t) => TimesOut(w, t);
    case RetryFires(t) =>
      Fires(w, t);
      Enters(w.(retryTimer := None, timers := w.timers.(retry := w.timers.retry - {t})));
    case Resume(t, ok, now) =>
      Leaving(w, t);
      Continues(w.(tasks := w.tasks - {t}), w.tasks[t], t, ok, now);
    case Evict => Boots(w.session, w.nextPort, w.timers.next, w.nextTask);
  }

  lemma Fires(w: Link, t: nat)
    requires Safe(w) && t in w.timers.retry
    ensures Safe(w.(retryTimer := None, timers := w.timers.(retry := w.timers.retry - {t})))
  {
    var d := w.(retryTimer := None, timers := w.timers.(retry := w.timers.retry - {t}));
    forall u | u in d.tasks ensures TaskOk(d, d.tasks[u]) { assert TaskOk(w, w.tasks[u]); }
  }

  /* ---- somebody is always at work ---- */

  /** What was at work before `k` resumed. */
  ghost predicate BusyWith(w: Link, k: Task) {
    && (w.connectInFlight ==> HasDial(w.tasks) || DialTask(k))
    && (w.retryArming ==> HasCount(w.tasks) || k.Counting?)
  }

  ghost predicate Numbered(w: Link) { forall t :: t in w.tasks ==> t < w.nextTask }

  lemma PushesWork(w: Link, k: Task)
    requires Numbered(w)
    ensures HasDial(w.tasks) || DialTask(k) ==> HasDial(w.tasks[w.nextTask := k])
    ensures HasCount(w.tasks) || k.Counting? ==> HasCount(w.tasks[w.nextTask := k])
    ensures HasReconnect(w.tasks) || WillReconnect(k) ==> HasReconnect(w.tasks[w.nextTask := k])
  {
    var m, n := w.tasks, w.tasks[w.nextTask := k];
    assert n[w.nextTask] == k;
    if t :| t in m && DialTask(m[t]) { assert n[t] == m[t]; }
    if t :| t in m && m[t].Counting? { assert n[t] == m[t]; }
    if t :| t in m && WillReconnect(m[t]) { assert n[t] == m[t]; }
  }

  lemma EntersBusy(w: Link)
    requires Numbered(w) && Busy(w)
    ensures Busy(Enter(w))
  {
    PushesWork(w, ReadState(w.epoch, w.session.phase));
  }

  lemma TeardownBusy(w: Link, after: After)
    requires Numbered(w) && (w.retryArming ==> HasCount(w.tasks))
    requires w.connectInFlight ==> HasDial(w.tasks) || after == Dial || after == GiveUp
    ensures Busy(Teardown(w, after))
  {
    PushesWork(w, Cleared(after));
  }

  lemma ScheduleBusy(w: Link, own: bool)
    requires Numbered(w) && (w.retryArming ==> HasCount(w.tasks)) && (w.connectInFlight ==> HasDial(w.tasks) || own)
    ensures Busy(Schedule(w, own))
  {
    PushesWork(w, Counting(own, false));
  }

  lemma DecideBusy(w: Link, e: nat, phase: Phase, held: bool, stale: bool)
    requires Numbered(w) && Busy(w)
    ensures Busy(Decide(w, e, phase, held, stale))
  {
    EntersBusy(w);
    if w.port.Some? { TeardownBusy(w.(connectInFlight := true), Dial); }
    PushesWork(w, SaidConnecting);
  }

  lemma AfterwardsBusy(w: Link, after: After)
    requires Numbered(w) && (w.retryArming ==> HasCount(w.tasks))
    requires w.connectInFlight ==> HasDial(w.tasks) || after == Dial || after == GiveUp
    ensures Busy(AfterTeardown(w, after))
  {
    match after
    case Dial => PushesWork(w, SaidConnecting);
    case GiveUp => ScheduleBusy(w, true);
    case Retry => ScheduleBusy(w, false);
    case Force => PushesWork(w, ForceZeroed);
  }

  lemma ReadsBusy(w: Link, k: Task, now: nat)
    requires Numbered(w) && Busy(w) && (k.ReadState? || k.ReadHeld? || k.ReadBeat?)
    ensures Busy(Continue(w, k, true, now)) && Busy(Continue(w, k, false, now))
  {
    match k
    case ReadState(e, phase) =>
      PushesWork(w, ReadHeld(e, phase, w.session.held));
      DecideBusy(w, e, phase, false, false);
    case ReadHeld(e, phase, held) =>
      PushesWork(w, ReadBeat(e, w.session.beat));
      DecideBusy(w, e, phase, held, false);
    case ReadBeat(e, beat) => DecideBusy(w, e, Ready, false, IsStale(beat, now));
  }

  lemma ContinuesBusy(w: Link, k: Task, ok: bool, now: nat)
    requires Numbered(w) && BusyWith(w, k)
    ensures Busy(Continue(w, k, ok, now))
  {
    match k
    case Boot => EntersBusy(w);
    case Cleared(after) => PushesWork(w, Downed(after)); AfterwardsBusy(w, after);
    case Downed(after) => AfterwardsBusy(w, after);
    case SaidConnecting => PushesWork(w, HoldCleared);
    case HoldCleared => if ok { PushesWork(w, Identity(w.nextPort)); } else { TeardownBusy(w, GiveUp); }
    case Identity(p) => if !ok { TeardownBusy(w, GiveUp); }
    case Counting(own, _) => PushesWork(w, Counting(own, true));
    case ForceZeroed => EntersBusy(w);
    case Acking(from, done) => RecordsBusy(w, from, done, now);
    case Holding(from, done) => HoldsBusy(w, from, done);
    case Posting(_) => TeardownBusy(w, Retry);
    case _ => ReadsBusy(w, k, now);
  }

  lemma RecordsBusy(w: Link, from: nat, done: AckStep, now: nat)
    requires Numbered(w) && Busy(w)
    ensures Busy(Record(w, from, done, now))
  {
    match done
    case AttemptZero => PushesWork(w, Acking(from, HoldClear));
    case HoldClear => PushesWork(w, Acking(from, AckStored));
    case AckStored => PushesWork(w, Acking(from, LabelStored));
    case LabelStored => PushesWork(w, Acking(from, BeatStored));
    case BeatStored => PushesWork(w, Acking(from, ReadySaid));
    case ReadySaid =>
  }

  lemma HoldsBusy(w: Link, from: nat, done: HoldStep)
    requires Numbered(w) && Busy(w)
    ensures Busy(Hold(w, from, done))
  {
    match done
    case AttemptZeroed => PushesWork(w, Holding(from, RelaysCleared));
    case RelaysCleared => PushesWork(w, Holding(from, HoldSet));
    case HoldSet => PushesWork(w, Holding(from, DownSaid));
    case DownSaid =>
  }

  lemma FramesBusy(w: Link, from: nat, msg: Msg)
    requires Numbered(w) && Busy(w)
    ensures Busy(OnFrame(w, from, msg))
  {
    match msg
    case Ack => PushesWork(w, Acking(from, AttemptZero));
    case PanicRefusal => PushesWork(w, Holding(from, AttemptZeroed));
    case Refusal => TeardownBusy(w, Retry);
    case Ping(_) => PushesWork(w, Posting(from));
    case Request => PushesWork(w, Posting(from));
    case _ =>
  }

  lemma KeepsBusy(w: Link, e: Event)
    requires Inv(w) && Enabled(w, e)
    ensures Busy(Step(w, e))
  {
    match e
    case Wake => EntersBusy(w);
    case ForceRedial(_) => TeardownBusy(w, Force);
    case Ask(_, _) =>
    case AskTimeout(_) =>
    case Frame(from, msg) => FramesBusy(w, from, msg);
    case HostExit(_) => PushesWork(w, Downed(Retry));
    case AckTimeout(t) => TeardownBusy(w.(ackTimer := None, timers := w.timers.(ack := w.timers.ack - {t})), Retry);
    case RetryFires(t) => EntersBusy(w.(retryTimer := None, timers := w.timers.(retry := w.timers.retry - {t})));
    case Resume(t, ok, now) => LeavesBusy(w, t); ContinuesBusy(w.(tasks := w.tasks - {t}), w.tasks[t], ok, now);
    case Evict =>
  }

  lemma LeavesBusy(w: Link, t: nat)
    requires Busy(w) && t in w.tasks
    ensures BusyWith(w.(tasks := w.tasks - {t}), w.tasks[t])
  {
    var m := w.tasks - {t};
    if u :| u in w.tasks && DialTask(w.tasks[u]) { assert u != t ==> u in m; }
    if u :| u in w.tasks && w.tasks[u].Counting? { assert u != t ==> u in m; }
  }

  /** The connect in flight only has an identity to collect, for a port already lost. */
  ghost predicate Abandoned(w: Link) {
    w.connectInFlight && w.port.None? && exists t :: t in w.tasks && w.tasks[t].Identity?
  }

  /** A continuation that does nothing more once it sees a connect in flight. */
  predicate Reading(k: Task) { k.Boot? || k.ReadState? || k.ReadHeld? || k.ReadBeat? || k.ForceZeroed? }

  /** The event uses up the last thing that would have brought a port back. */
  ghost predicate SpendsLast(w: Link, e: Event) {
    match e
    case RetryFires(_) => !HasReconnect(w.tasks)
    case Resume(t, _, _) =>
      && t in w.tasks && Reading(w.tasks[t])
      && w.retryTimer.None? && !w.retryArming && !HasReconnect(w.tasks - {t})
    case _ => false
  }

  lemma EntersDriven(w: Link)
    requires Inv(w) && !Abandoned(w)
    ensures Driven(Enter(w))
  {
    PushesWork(w, ReadState(w.epoch, w.session.phase));
    if w.connectInFlight && w.port.None? {
      var t :| t in w.tasks && DialTask(w.tasks[t]);
      assert TaskOk(w, w.tasks[t]);
    }
  }

  lemma DecidesDriven(w: Link, e: nat, phase: Phase, held: bool, stale: bool)
    requires Inv(w) && !Abandoned(w)
    ensures Driven(Decide(w, e, phase, held, stale))
  {
    EntersDriven(w);
    PushesWork(w, Cleared(Dial));
    PushesWork(w, SaidConnecting);
  }

  lemma ReadsDriven(w: Link, k: Task, t: nat, ok: bool, now: nat)
    requires Leaves(w, k, t) && Busy(w) && Reading(k) && !Abandoned(w)
    ensures Driven(Continue(w, k, ok, now))
  {
    match k
    case Boot => EntersDriven(w);
    case ReadState(e, phase) =>
      PushesWork(w, ReadHeld(e, phase, w.session.held));
      DecidesDriven(w, e, phase, false, false);
    case ReadHeld(e, phase, held) =>
      PushesWork(w, ReadBeat(e, w.session.beat));
      DecidesDriven(w, e, phase, held, false);
    case ReadBeat(e, beat) => DecidesDriven(w, e, Ready, false, IsStale(beat, now));
    case ForceZeroed => EntersDriven(w);
  }

  /** While the identity of a lost port is collected, a wake source's read comes
      to nothing: the connect in flight turns it away. */
  lemma ReadsTurnedAway(w: Link, k: Task, ok: bool, now: nat)
    requires Reading(k) && w.connectInFlight && w.port.None?
    ensures Continue(w, k, ok, now) == w
  {
  }

  lemma TeardownDriven(w: Link, after: After)
    requires Numbered(w)
    ensures HasReconnect(Teardown(w, after).tasks)
  {
    PushesWork(w, Cleared(after));
  }

  lemma AfterwardsDriven(w: Link, after: After)
    requires Numbered(w)
    ensures Driven(AfterTeardown(w, after))
  {
    PushesWork(w, SaidConnecting);
    PushesWork(w, ForceZeroed);
  }

  lemma WorksDriven(w: Link, k: Task, t: nat, ok: bool, now: nat)
    requires Leaves(w, k, t) && !Reading(k)
    requires w.port.None? ==> w.retryTimer.Some? || w.retryArming || HasReconnect(w.tasks) || WillReconnect(k)
    ensures Driven(Continue(w, k, ok, now))
  {
    match k
    case Cleared(after) => PushesWork(w, Downed(after)); AfterwardsDriven(w, after);
    case Downed(after) => AfterwardsDriven(w, after);
    case SaidConnecting => PushesWork(w, HoldCleared);
    case HoldCleared => TeardownDriven(w, GiveUp);
    case Identity(p) => TeardownDriven(w, GiveUp);
    case Counting(own, _) => PushesWork(w, Counting(own, true));
    case Posting(_) => TeardownDriven(w, Retry);
    case _ =>
  }

  lemma FramesDriven(w: Link, from: nat, msg: Msg)
    requires Numbered(w) && Driven(w)
    ensures Driven(OnFrame(w, from, msg))
  {
    if msg == Refusal { TeardownDriven(w, Retry); }
  }

  lemma ResumesDriven(w: Link, t: nat, ok: bool, now: nat)
    requires Inv(w) && Driven(w) && Enabled(w, Resume(t, ok, now))
    ensures Driven(Step(w, Resume(t, ok, now))) <==> !(Abandoned(w) && SpendsLast(w, Resume(t, ok, now)))
  {
    var v := w.(tasks := w.tasks - {t});
    var k := w.tasks[t];
    Leaving(w, t);
    LeavesBusy(w, t);
    if HasReconnect(w.tasks) { LeavesReconnect(w, t); }
    if !Reading(k) { WorksDriven(v, k, t, ok, now); }
    else if Abandoned(w) { ReadsTurnedAway(v, k, ok, now); }
    else { LeavesAbandoned(w, t); ReadsDriven(v, k, t, ok, now); }
  }

  lemma FiresDriven(w: Link, t: nat)
    requires Inv(w) && Driven(w) && t in w.timers.retry
    ensures Driven(Step(w, RetryFires(t))) <==> !(Abandoned(w) && SpendsLast(w, RetryFires(t)))
  {
    var v := w.(retryTimer := None, timers := w.timers.(retry := w.timers.retry - {t}));
    Fires(w, t);
    if !Abandoned(w) { assert !Abandoned(v); EntersDriven(v); }
  }

  /** Exactly when a step leaves the worker without a port and without a way
      back to one: when it spends the last driver during an abandoned connect. */
  lemma StaysDriven(w: Link, e: Event)
    requires Inv(w) && Driven(w) && Enabled(w, e)
    ensures Driven(Step(w, e)) <==> !(Abandoned(w) && SpendsLast(w, e))
  {
    match e
    case Wake => if !Abandoned(w) { EntersDriven(w); }
    case ForceRedial(_) => TeardownDriven(w, Force);
    case Ask(_, _) =>
    case AskTimeout(_) =>
    case Frame(from, msg) => FramesDriven(w, from, msg);
    case HostExit(_) => PushesWork(w, Downed(Retry));
    case AckTimeout(t) => TeardownDriven(w.(ackTimer := None, timers := w.timers.(ack := w.timers.ack - {t})), Retry);
    case RetryFires(t) => FiresDriven(w, t);
    case Resume(t, ok, now) => ResumesDriven(w, t, ok, now);
    case Evict => assert w.nextTask in Step(w, e).tasks;
  }

  lemma LeavesReconnect(w: Link, t: nat)
    requires t in w.tasks && HasReconnect(w.tasks)
    ensures HasReconnect(w.tasks - {t}) || WillReconnect(w.tasks[t])
  {
    var u :| u in w.tasks && WillReconnect(w.tasks[u]);
    assert u != t ==> u in w.tasks - {t};
  }

  lemma LeavesAbandoned(w: Link, t: nat)
    requires t in w.tasks && !Abandoned(w)
    ensures !Abandoned(w.(tasks := w.tasks - {t}))
  {
  }
}
