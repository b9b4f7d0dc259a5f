/** The extension's native-messaging link, one worker and its browser.
    Each stretch of link.js between two awaits is one function from link to
    link; what waits at an await is a task. Session storage answers in the
    order it was called, so a write takes effect where it is issued and a read
    is answered with what was stored at its issue (see SessionStore). */
module Link {
  import opened Prelude

  /** The persisted link state, LINK in the protocol. */
  datatype Phase = Down | Connecting | Ready

  /** What follows a teardown: the dial that asked for the drop, the failed
      connect giving up, the retry after a lost link, or the forced redial. */
  datatype After = Dial | GiveUp | Retry | Force

  /** The writes that record an ok answer, and those that record a panic hold. */
  datatype AckStep = AttemptZero | HoldClear | AckStored | LabelStored | BeatStored | ReadySaid
  datatype HoldStep = AttemptZeroed | RelaysCleared | HoldSet | DownSaid

  /** A suspended continuation, named after the call it waits for. */
  datatype Task =
    | Boot
    | ReadState(epoch: nat, phase: Phase)
    | ReadHeld(epoch: nat, phase: Phase, held: bool)
    | ReadBeat(epoch: nat, beat: nat)
    | Cleared(after: After)
    | Downed(after: After)
    | SaidConnecting
    | HoldCleared
    | Identity(p: nat)
    | Counting(own: bool, written: bool)
    | ForceZeroed
    | Acking(from: nat, recorded: AckStep)
    | Holding(from: nat, kept: HoldStep)
    | Posting(from: nat)

  /** Waiting on chrome.storage.session, which answers in call order. The rest
      wait on local storage, the tab list or the worker's own handlers. */
  predicate OnSession(k: Task) {
    match k
    case Boot => false
    case Identity(_) => false
    case Acking(_, done) => done != LabelStored
    case Holding(_, done) => done != RelaysCleared
    case Posting(_) => false
    case _ => true
  }

  datatype Msg = Ack | PanicRefusal | Refusal | Ping(at: nat) | Request | Response(id: nat) | Notice

  /** chrome.storage.session: what outlives the worker. */
  datatype Session = Session(phase: Phase, held: bool, beat: nat)

  /** The browser's live timers. An ack timer remembers the port it was set for. */
  datatype Timers = Timers(ack: map<nat, nat>, retry: set<nat>, next: nat)

  /** Requests to the broker: those waiting, their live timers, every one asked,
      and how often each settled. */
  datatype Asks = Asks(pending: set<nat>, timers: set<nat>, asked: set<nat>, settled: multiset<nat>)

  /** Which ports had an ok answer, and which a panic refusal, while current. */
  datatype Answered = Answered(accepted: set<nat>, panicked: set<nat>)

  /** The worker's globals and what surrounds them: session storage, the open
      native ports, the live timers and the suspended continuations. */
  datatype Link = Link(
    port: Option<nat>, ackTimer: Option<nat>, retryTimer: Option<nat>, retryArming: bool,
    connectInFlight: bool, epoch: nat, session: Session, open: set<nat>, nextPort: nat,
    timers: Timers, asks: Asks, tasks: map<nat, Task>, nextTask: nat, answers: Answered)

  /** What the browser can do to the worker. `ok` is whether the browser call
      of that stretch (connectNative, postMessage) succeeded; `now` its clock. */
  datatype Event =
    | Wake
    | ForceRedial(unlessPending: bool)
    | Ask(id: nat, ok: bool)
    | AskTimeout(id: nat)
    | Frame(from: nat, msg: Msg)
    | HostExit(from: nat)
    | AckTimeout(timer: nat)
    | RetryFires(timer: nat)
    | Resume(task: nat, ok: bool, now: nat)
    | Evict

  /** TIMING.HEARTBEAT_INTERVAL * TIMING.STALE_AFTER_MISSED, in milliseconds. */
  const STALE_MS: nat := 45_000

  function BootOnly(t: nat): map<nat, Task> { map[t := Boot] }

  /** A worker just started, with whatever session storage the last one left. */
  function Started(session: Session, nextPort: nat, nextTimer: nat, nextTask: nat): Link {
    Link(None, None, None, false, false, 0, session, {}, nextPort, Timers(map[], {}, nextTimer),
         Asks({}, {}, {}, multiset{}), BootOnly(nextTask), nextTask + 1, Answered({}, {}))
  }

  function Init(): Link { Started(Session(Down, false, 0), 0, 0, 0) }

  /* ---- pieces ---- */

  predicate Current(w: Link, from: nat) { w.port == Some(from) }

  function Push(w: Link, k: Task): Link {
    w.(tasks := w.tasks[w.nextTask := k], nextTask := w.nextTask + 1)
  }

  function ClosePort(w: Link, p: nat): Link { w.(open := w.open - {p}) }

  function AckCleared(w: Link): map<nat, nat> {
    if w.ackTimer.Some? then w.timers.ack - {w.ackTimer.value} else w.timers.ack
  }

  function RetryCleared(w: Link): set<nat> {
    if w.retryTimer.Some? then w.timers.retry - {w.retryTimer.value} else w.timers.retry
  }

  function Rejected(a: Asks): Asks {
    a.(pending := {}, timers := a.timers - a.pending, settled := a.settled + multiset(a.pending))
  }

  function SayDown(s: Session): Session { s.(phase := Down, beat := 0) }

  /** Letting go of the port, with everything a teardown clears in that stretch. */
  function Dropped(w: Link): Link {
    w.(ackTimer := None, timers := w.timers.(ack := AckCleared(w)),
       port := None,
       epoch := if w.port.Some? then w.epoch + 1 else w.epoch,
       open := if w.port.Some? then w.open - {w.port.value} else w.open,
       asks := Rejected(w.asks), session := w.session.(held := false))
  }

  /** The stretch of teardown up to its first await, on the current port. */
  function Teardown(w: Link, after: After): Link { Push(Dropped(w), Cleared(after)) }

  function Finish(w: Link): Link { w.(connectInFlight := false) }

  /** scheduleReconnect up to its first await. `own` when connect awaits it. */
  function Schedule(w: Link, own: bool): Link {
    if w.retryTimer.Some? || w.retryArming
    then if own then Finish(w) else w
    else Push(w.(retryArming := true), Counting(own, false))
  }

  /** The claim on the retry becomes a timer. */
  function ArmRetry(w: Link): Link {
    w.(retryArming := false, retryTimer := Some(w.timers.next),
       timers := w.timers.(retry := w.timers.retry + {w.timers.next}, next := w.timers.next + 1))
  }

  function StartConnect(w: Link): Link { Push(w.(session := w.session.(phase := Connecting)), SaidConnecting) }

  function AfterTeardown(w: Link, after: After): Link {
    match after
    case Dial => StartConnect(w)
    case GiveUp => Schedule(w, true)
    case Retry => Schedule(w, false)
    case Force => Push(w, ForceZeroed)
  }

  /** A port still held when connectNative returns another is closed first. */
  function Replaced(w: Link): Link {
    if w.port.None? then w
    else w.(port := None, open := w.open - {w.port.value}, asks := Rejected(w.asks))
  }

  function PortOpened(w: Link): Link {
    w.(port := Some(w.nextPort), epoch := w.epoch + 1, open := w.open + {w.nextPort}, nextPort := w.nextPort + 1)
  }

  function OpenPort(w: Link): Link { Push(PortOpened(Replaced(w)), Identity(w.nextPort)) }

  function SetAckTimer(w: Link, p: nat): Link {
    w.(ackTimer := Some(w.timers.next),
       timers := w.timers.(ack := AckCleared(w)[w.timers.next := p], next := w.timers.next + 1))
  }

  /** The answer is fully recorded: its deadline and any earlier retry are off. */
  function Settle(w: Link, from: nat): Link {
    if !Current(w, from) then w
    else w.(ackTimer := None, retryTimer := None,
            timers := w.timers.(ack := AckCleared(w), retry := RetryCleared(w)),
            retryArming := false, epoch := w.epoch + 1)
  }

  /** ensureConnected up to its first await. */
  function Enter(w: Link): Link {
    if w.connectInFlight || (w.port.Some? && w.ackTimer.Some?) then w
    else Push(w, ReadState(w.epoch, w.session.phase))
  }

  /** ensureConnected once it has read the link: everything up to the claim. */
  function Decide(w: Link, epoch: nat, phase: Phase, held: bool, stale: bool): Link {
    if epoch != w.epoch then Enter(w)
    else if w.connectInFlight then w
    else if w.port.Some? && (w.ackTimer.Some? || held || (phase == Ready && !stale)) then w
    else
      var c := w.(connectInFlight := true);
      if w.port.Some? then Teardown(c, Dial) else StartConnect(c)
  }

  predicate IsStale(beat: nat, now: nat) { beat == 0 || now - beat > STALE_MS }

  /* ---- one continuation resumes ---- */

  function Continue(w: Link, k: Task, ok: bool, now: nat): Link {
    match k
    case Boot => Enter(w)
    case ReadState(e, phase) =>
      if w.port.Some? then Push(w, ReadHeld(e, phase, w.session.held)) else Decide(w, e, phase, false, false)
    case ReadHeld(e, phase, held) =>
      if w.port.Some? && !held && phase == Ready then Push(w, ReadBeat(e, w.session.beat)) else Decide(w, e, phase, held, false)
    case ReadBeat(e, beat) => Decide(w, e, Ready, false, IsStale(beat, now))
    case Cleared(after) =>
      if w.port.Some? then AfterTeardown(w, after) else Push(w.(session := SayDown(w.session)), Downed(after))
    case Downed(after) => AfterTeardown(w, after)
    case SaidConnecting => Push(w.(session := w.session.(held := false)), HoldCleared)
    case HoldCleared => if ok then OpenPort(w) else Teardown(w, GiveUp)
    case Identity(p) =>
      if ok then (if Current(w, p) then Finish(SetAckTimer(w, p)) else Finish(w))
      else if Current(w, p) then Teardown(w, GiveUp)
      else Finish(ClosePort(w, p))
    case Counting(own, false) => Push(w, Counting(own, true))
    case Counting(own, true) =>
      var w1 := if w.retryArming then ArmRetry(w) else w;
      if own then Finish(w1) else w1
    case ForceZeroed => Enter(w)
    case Acking(from, done) => if Current(w, from) then Record(w, from, done, now) else w
    case Holding(from, done) => if Current(w, from) then Hold(w, from, done) else w
    case Posting(from) => if Current(w, from) && !ok then Teardown(w, Retry) else w
  }

  /** The next write of an ok answer, on the port that is still current. */
  function Record(w: Link, from: nat, done: AckStep, now: nat): Link {
    match done
    case AttemptZero => Push(w.(session := w.session.(held := false)), Acking(from, HoldClear))
    case HoldClear => Push(w, Acking(from, AckStored))
    case AckStored => Push(w, Acking(from, LabelStored))
    case LabelStored => Push(w.(session := w.session.(beat := now)), Acking(from, BeatStored))
    case BeatStored => Push(w.(session := w.session.(phase := Ready)), Acking(from, ReadySaid))
    case ReadySaid => Settle(w, from)
  }

  /** The next write of a panic hold, on the port that is still current. */
  function Hold(w: Link, from: nat, done: HoldStep): Link {
    match done
    case AttemptZeroed => Push(w, Holding(from, RelaysCleared))
    case RelaysCleared => Push(w.(session := w.session.(held := true)), Holding(from, HoldSet))
    case HoldSet => Push(w.(session := SayDown(w.session)), Holding(from, DownSaid))
    case DownSaid => Settle(w, from)
  }

  /* ---- one event ---- */

  /** A waiting request is answered or rejected, and its timer is off. */
  function SettleAsk(w: Link, id: nat): Link {
    w.(asks := w.asks.(pending := w.asks.pending - {id}, timers := w.asks.timers - {id},
                       settled := w.asks.settled + multiset{id}))
  }

  function OnFrame(w: Link, from: nat, msg: Msg): Link {
    if !Current(w, from) then ClosePort(w, from)
    else match msg
      case Ack => Push(w.(answers := w.answers.(accepted := w.answers.accepted + {from})), Acking(from, AttemptZero))
      case PanicRefusal => Push(w.(answers := w.answers.(panicked := w.answers.panicked + {from})), Holding(from, AttemptZeroed))
      case Refusal => Teardown(w, Retry)
      case Ping(at) => Push(w.(session := w.session.(beat := at)), Posting(from))
      case Request => Push(w, Posting(from))
      case Response(id) => if id in w.asks.pending then SettleAsk(w, id) else w
      case Notice => w
  }

  function OnHostExit(w: Link, from: nat): Link {
    if !Current(w, from) then w.(open := w.open - {from})
    else Push(Dropped(w).(session := SayDown(Dropped(w).session)), Downed(Retry))
  }

  function OnAsk(w: Link, id: nat, ok: bool): Link {
    if w.port.Some? && ok
    then w.(asks := w.asks.(asked := w.asks.asked + {id}, pending := w.asks.pending + {id},
                            timers := w.asks.timers + {id}))
    else w.(asks := w.asks.(asked := w.asks.asked + {id}, settled := w.asks.settled + multiset{id}))
  }

  function OnForce(w: Link, unlessPending: bool): Link {
    if w.connectInFlight || (w.port.Some? && w.ackTimer.Some?) then w
    else if unlessPending && (w.retryTimer.Some? || w.retryArming) then w
    else Teardown(w, Force)
  }

  function OnAckTimeout(w: Link, timer: nat): Link
    requires timer in w.timers.ack
  {
    var w1 := w.(ackTimer := None, timers := w.timers.(ack := w.timers.ack - {timer}));
    if Current(w, w.timers.ack[timer]) then Teardown(w1, Retry) else w1
  }

  /** What the browser may do next: a timer that is live, a task that waits and
      whose storage answer is the oldest one owed, a request id nobody used. */
  ghost predicate Enabled(w: Link, e: Event) {
    match e
    case Ask(id, _) => id !in w.asks.asked
    case AskTimeout(id) => id in w.asks.timers
    case AckTimeout(t) => t in w.timers.ack
    case RetryFires(t) => t in w.timers.retry
    case Resume(t, _, _) => t in w.tasks && (OnSession(w.tasks[t]) ==> Oldest(w, t))
    case Frame(from, _) => from < w.nextPort
    case HostExit(from) => from < w.nextPort
    case _ => true
  }

  ghost predicate Oldest(w: Link, t: nat) {
    forall u | u in w.tasks && OnSession(w.tasks[u]) :: t <= u
  }

  /** The broker answers a port's REGISTER with routes or with a panic hold, and
      lets a held connection go before it would answer it again. */
  ghost predicate Consistent(w: Link, e: Event) {
    match e
    case Frame(from, Ack) => from !in w.answers.panicked
    case Frame(from, PanicRefusal) => from !in w.answers.accepted
    case _ => true
  }

  ghost function Step(w: Link, e: Event): Link
    requires Enabled(w, e)
  {
    match e
    case Wake => Enter(w)
    case ForceRedial(unless) => OnForce(w, unless)
    case Ask(id, ok) => OnAsk(w, id, ok)
    case AskTimeout(id) => SettleAsk(w, id)
    case Frame(from, msg) => OnFrame(w, from, msg)
    case HostExit(from) => OnHostExit(w, from)
    case AckTimeout(t) => OnAckTimeout(w, t)
    case RetryFires(t) => Enter(w.(retryTimer := None, timers := w.timers.(retry := w.timers.retry - {t})))
    case Resume(t, ok, now) => Continue(w.(tasks := w.tasks - {t}), w.tasks[t], ok, now)
    case Evict => Started(w.session, w.nextPort, w.timers.next, w.nextTask)
  }
}
