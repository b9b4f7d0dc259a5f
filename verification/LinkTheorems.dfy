/** The link over whole runs: any interleaving of wake sources, frames, host
    exits, timers, storage answers and worker terminations. */
module LinkTheorems {
  import opened Prelude
  import opened Link
  import opened LinkInvariant

  ghost predicate Run(w: Link, es: seq<Event>, v: Link)
    decreases es
  {
    if es == [] then v == w
    else Enabled(w, es[0]) && Consistent(w, es[0]) && Run(Step(w, es[0]), es[1..], v)
  }

  /** No event of the run spends the last driver of an abandoned connect. */
  ghost predicate Sparing(w: Link, es: seq<Event>)
    decreases es
  {
    es != [] && Enabled(w, es[0]) ==> !(Abandoned(w) && SpendsLast(w, es[0])) && Sparing(Step(w, es[0]), es[1..])
  }

  /** A worker that starts, whatever session storage the one before it left. */
  ghost predicate Fresh(w: Link) {
    w.nextTask > 0 && w == Started(w.session, w.nextPort, w.timers.next, w.nextTask - 1)
  }

  lemma {:induction false} RunKeeps(w: Link, es: seq<Event>, v: Link)
    requires Inv(w) && Run(w, es, v)
    ensures Inv(v)
    decreases es
  {
    if es != [] {
      Keeps(w, es[0]);
      KeepsBusy(w, es[0]);
      RunKeeps(Step(w, es[0]), es[1..], v);
    }
  }

  /** One native port at most, and it is the worker's; never half-open; READY
      beside a live port means that very port's REGISTER was accepted. */
  lemma OnePortNeverHalfOpen(w: Link, es: seq<Event>, v: Link)
    requires Fresh(w) && Run(w, es, v)
    ensures forall p, q :: p in v.open && q in v.open ==> p == q
    ensures forall p :: p in v.open <==> v.port == Some(p)
    ensures v.port.Some? ==> v.connectInFlight || v.ackTimer.Some? || v.session.phase == Ready || v.session.held
    ensures v.port.Some? && v.session.phase == Ready ==> v.port.value in v.answers.accepted
    ensures forall t, u :: t in v.timers.ack && u in v.timers.ack ==> t == u
    ensures forall t, u :: t in v.timers.retry && u in v.timers.retry ==> t == u
  {
    Boots(w.session, w.nextPort, w.timers.next, w.nextTask - 1);
    RunKeeps(w, es, v);
  }

  /** Every request settles exactly once, and none waits on a link that is gone. */
  lemma RequestsSettleOnce(w: Link, es: seq<Event>, v: Link)
    requires Fresh(w) && Run(w, es, v)
    ensures v.port.None? ==> v.asks.pending == {}
    ensures forall id :: id in v.asks.asked ==> v.asks.settled[id] == if id in v.asks.pending then 0 else 1
    ensures forall id :: id !in v.asks.asked ==> v.asks.settled[id] == 0
    ensures v.asks.timers == v.asks.pending
  {
    Boots(w.session, w.nextPort, w.timers.next, w.nextTask - 1);
    RunKeeps(w, es, v);
  }

  lemma {:induction false} SparingRunStaysDriven(w: Link, es: seq<Event>, v: Link)
    requires Inv(w) && Driven(w) && Run(w, es, v) && Sparing(w, es)
    ensures Driven(v)
    decreases es
  {
    if es != [] {
      Keeps(w, es[0]);
      KeepsBusy(w, es[0]);
      StaysDriven(w, es[0]);
      SparingRunStaysDriven(Step(w, es[0]), es[1..], v);
    }
  }

  /** No lost reconnect: with no port, a retry is armed or claimed or something
      suspended will dial, and at rest it is the retry timer. */
  lemma NoLostReconnect(w: Link, es: seq<Event>, v: Link)
    requires Fresh(w) && Run(w, es, v) && Sparing(w, es)
    ensures v.port.None? ==> v.retryTimer.Some? || v.retryArming || HasReconnect(v.tasks)
    ensures v.port.None? && v.tasks == map[] ==> v.retryTimer.Some? && v.timers.retry == {v.retryTimer.value}
  {
    Boots(w.session, w.nextPort, w.timers.next, w.nextTask - 1);
    assert w.nextTask - 1 in w.tasks;
    RunKeeps(w, es, v);
    SparingRunStaysDriven(w, es, v);
  }

  lemma {:induction false} RunOn(w: Link, es: seq<Event>, v: Link, e: Event)
    requires Run(w, es, v) && Enabled(v, e) && Consistent(v, e)
    ensures Run(w, es + [e], Step(v, e))
    decreases es
  {
    if es == [] {
      assert [e][1..] == [];
    } else {
      RunOn(Step(w, es[0]), es[1..], v, e);
      assert (es + [e])[1..] == es[1..] + [e];
    }
  }

  /** The first worker, its first port just opened. */
  function FirstPort(): Link {
    Init().(port := Some(0), connectInFlight := true, epoch := 1, open := {0}, nextPort := 1,
            tasks := map[4 := Identity(0)], nextTask := 5, session := Init().session.(phase := Connecting))
  }

  /** The same worker after its host exited and the backoff was armed, while the
      identity is still being collected. */
  function BackoffArmed(): Link {
    FirstPort().(port := None, epoch := 2, open := {}, retryTimer := Some(0),
                 tasks := map[4 := Identity(0)], nextTask := 8,
                 session := FirstPort().session.(phase := Down), timers := FirstPort().timers.(retry := {0}, next := 1))
  }

  lemma Go(es: seq<Event>, v: Link, e: Event) returns (es': seq<Event>, v': Link)
    requires Run(Init(), es, v) && Enabled(v, e) && Consistent(v, e)
    ensures es' == es + [e] && v' == Step(v, e) && Run(Init(), es', v')
  {
    RunOn(Init(), es, v, e);
    es', v' := es + [e], Step(v, e);
  }

  lemma ReachesFirstPort() returns (es: seq<Event>)
    ensures Run(Init(), es, FirstPort())
  {
    var v: Link;
    es, v := [], Init();
    es, v := Go(es, v, Resume(0, true, 0));
    assert v.tasks == map[1 := ReadState(0, Down)];
    es, v := Go(es, v, Resume(1, true, 0));
    assert v.tasks == map[2 := SaidConnecting];
    es, v := Go(es, v, Resume(2, true, 0));
    assert v.tasks == map[3 := HoldCleared];
    es, v := Go(es, v, Resume(3, true, 0));
    assert v.tasks == map[4 := Identity(0)];
    assert v == FirstPort();
  }

  /** Its host exited; the attempt is about to be counted. */
  function HostLost(): Link {
    FirstPort().(port := None, epoch := 2, open := {}, retryArming := true,
                 session := Session(Down, false, 0),
                 tasks := map[4 := Identity(0), 6 := Counting(false, false)], nextTask := 7)
  }

  lemma ReachesHostLost() returns (es: seq<Event>)
    ensures Run(Init(), es, HostLost())
  {
    es := ReachesFirstPort();
    var v := FirstPort();
    es, v := Go(es, v, HostExit(0));
    assert v.tasks == map[4 := Identity(0), 5 := Downed(Retry)];
    es, v := Go(es, v, Resume(5, true, 0));
    assert v.tasks == map[4 := Identity(0), 6 := Counting(false, false)];
    assert v == HostLost();
  }

  lemma ReachesBackoff() returns (es: seq<Event>)
    ensures Run(Init(), es, BackoffArmed())
  {
    es := ReachesHostLost();
    var v := HostLost();
    es, v := Go(es, v, Resume(6, true, 0));
    assert v.tasks == map[4 := Identity(0), 7 := Counting(false, true)];
    es, v := Go(es, v, Resume(7, true, 0));
    assert v.tasks == map[4 := Identity(0)];
    assert v == BackoffArmed();
  }

  /** The backoff fires while the identity of a port already lost is still being
      collected: the connect in flight turns it away, then gives up in silence,
      and nothing is left to dial until a wake source comes. */
  lemma ReconnectCanBeLost() returns (es: seq<Event>, v: Link)
    ensures Run(Init(), es, v)
    ensures v.tasks == map[] && v.port.None? && v.timers.retry == {} && !v.connectInFlight
  {
    es := ReachesBackoff();
    v := BackoffArmed();
    es, v := Go(es, v, RetryFires(0));
    assert v.tasks == map[4 := Identity(0)];
    es, v := Go(es, v, Resume(4, true, 0));
    assert v.tasks == map[];
  }

  /** A frame or a disconnect from a port that is not current changes nothing;
      nor does anything still suspended on its behalf, which only ends. */
  lemma StalePortsChangeNothing(w: Link, from: nat, msg: Msg, t: nat, ok: bool, now: nat)
    requires Inv(w) && from < w.nextPort && !Current(w, from)
    ensures Step(w, Frame(from, msg)) == w
    ensures Step(w, HostExit(from)) == w
    ensures t in w.tasks && !DialTask(w.tasks[t])
              && (w.tasks[t] == Posting(from) || (w.tasks[t].Acking? && w.tasks[t].from == from)
                  || (w.tasks[t].Holding? && w.tasks[t].from == from))
              && Enabled(w, Resume(t, ok, now))
            ==> Step(w, Resume(t, ok, now)) == w.(tasks := w.tasks - {t})
  {
    assert w.open - {from} == w.open;
  }

  /** No wake source ever drops a live link for looking half-open: the only port
      a read of the link lets go of had been told READY and then gone silent for
      longer than the stale window, by the stamp that was read. */
  lemma DropsOnlySilence(w: Link, t: nat, ok: bool, now: nat)
    requires Inv(w) && Enabled(w, Resume(t, ok, now)) && Reading(w.tasks[t])
    requires w.port.Some? && Step(w, Resume(t, ok, now)).port != w.port
    ensures w.tasks[t].ReadBeat? && w.tasks[t].epoch == w.epoch && (w.tasks[t].beat == 0 || now - w.tasks[t].beat > 45_000)
    ensures !w.connectInFlight && w.ackTimer.None?
  {
    assert TaskOk(w, w.tasks[t]);
  }

  /** Whatever else is suspended: once an answer is fully recorded on the port that
      got it, its deadline and every retry are off, armed or only claimed. */
  lemma AnswerTakesRetriesBack(w: Link, t: nat, ok: bool, now: nat)
    requires Inv(w) && Enabled(w, Resume(t, ok, now)) && w.port.Some?
    requires w.tasks[t] == Acking(w.port.value, ReadySaid) || w.tasks[t] == Holding(w.port.value, DownSaid)
    ensures var v := Step(w, Resume(t, ok, now));
            && v.ackTimer.None? && v.retryTimer.None? && !v.retryArming && v.timers.retry == {} && v.timers.ack.Keys == {}
            && v.port == w.port && v.session == w.session && v.epoch == w.epoch + 1
  {
  }

  /** And a claim that was taken back arms nothing when its turn comes. */
  lemma NoClaimNoTimer(w: Link, t: nat, ok: bool, now: nat)
    requires Inv(w) && Enabled(w, Resume(t, ok, now)) && w.tasks[t].Counting? && w.tasks[t].written
    ensures var v := Step(w, Resume(t, ok, now));
            if w.retryArming then v.retryTimer == Some(w.timers.next) && v.timers.retry == {w.timers.next} && !v.retryArming
            else v.retryTimer == w.retryTimer && v.timers == w.timers
  {
    assert TaskOk(w, w.tasks[t]);
  }

  /** The same first worker, its REGISTER answered with a panic refusal. */
  function HeldPort(): Link {
    FirstPort().(connectInFlight := false, epoch := 2, session := Session(Down, true, 0),
                 timers := Timers(map[], {}, 1), tasks := map[], nextTask := 9, answers := Answered({}, {0}))
  }

  /** That answer about to be recorded. */
  function Refused(): Link {
    FirstPort().(connectInFlight := false, ackTimer := Some(0), timers := Timers(map[0 := 0], {}, 1),
                 tasks := map[5 := Holding(0, AttemptZeroed)], nextTask := 6, answers := Answered({}, {0}))
  }

  lemma ReachesRefused() returns (es: seq<Event>)
    ensures Run(Init(), es, Refused())
  {
    es := ReachesFirstPort();
    var v := FirstPort();
    es, v := Go(es, v, Resume(4, true, 0));
    assert v.tasks == map[];
    es, v := Go(es, v, Frame(0, PanicRefusal));
    assert v.tasks == map[5 := Holding(0, AttemptZeroed)];
    assert v == Refused();
  }

  lemma ReachesHeldPort() returns (es: seq<Event>)
    ensures Run(Init(), es, HeldPort())
  {
    es := ReachesRefused();
    var v := Refused();
    es, v := Go(es, v, Resume(5, true, 0));
    assert v.tasks == map[6 := Holding(0, RelaysCleared)];
    es, v := Go(es, v, Resume(6, true, 0));
    assert v.tasks == map[7 := Holding(0, HoldSet)];
    es, v := Go(es, v, Resume(7, true, 0));
    assert v.tasks == map[8 := Holding(0, DownSaid)];
    es, v := Go(es, v, Resume(8, true, 0));
    assert v.tasks == map[] && v.timers.ack == map[];
    assert v == HeldPort();
  }

  /** A run from a fresh worker reaches a held link that an ok answer, were it to
      come, leaves half-open. */
  lemma HeldLinkIsReached() returns (es: seq<Event>, v: Link)
    ensures Run(Init(), es, v) && v.session.held && Enabled(v, Frame(0, Ack)) && !Consistent(v, Frame(0, Ack))
    ensures var w := Step(v, Frame(0, Ack));
            && Enabled(w, Resume(v.nextTask, true, 0))
            && var u := Step(w, Resume(v.nextTask, true, 0));
               u.port == Some(0) && !(u.connectInFlight || u.ackTimer.Some? || u.session.phase == Ready || u.session.held)
  {
    es := ReachesHeldPort();
    v := HeldPort();
    Boots(Session(Down, false, 0), 0, 0, 0);
    RunKeeps(Init(), es, v);
    HeldLinkMustNotBeAccepted(v, 0);
  }

  /** A held link, answered ok without being let go first, is half-open while
      the answer is recorded: the broker's side of the bargain is needed. */
  lemma HeldLinkMustNotBeAccepted(w: Link, p: nat)
    requires Inv(w) && w.port == Some(p) && w.session.held && w.session.phase == Down && w.tasks == map[]
             && w.ackTimer.None? && !w.connectInFlight
    ensures Enabled(w, Frame(p, Ack)) && !Consistent(w, Frame(p, Ack))
    ensures var v := Step(w, Frame(p, Ack));
            && Enabled(v, Resume(w.nextTask, true, 0))
            && var u := Step(v, Resume(w.nextTask, true, 0));
               u.port == Some(p) && !(u.connectInFlight || u.ackTimer.Some? || u.session.phase == Ready || u.session.held)
  {
  }
}
