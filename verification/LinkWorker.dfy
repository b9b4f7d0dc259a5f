/** link.js as it runs: module globals that handlers and continuations change
    in place. Each method is one stretch between awaits and does to the worker
    what the stretch of the same name in Link says. */
module LinkWorker {
  import opened Prelude
  import L = Link

  class Worker {
    var port: Option<nat>
    var ackTimer: Option<nat>
    var retryTimer: Option<nat>
    var retryArming: bool
    var connectInFlight: bool
    var linkEpoch: nat
    var session: L.Session
    var open: set<nat>
    var nextPort: nat
    var timers: L.Timers
    var asks: L.Asks
    var tasks: map<nat, L.Task>
    var nextTask: nat
    var answers: L.Answered

    ghost function View(): L.Link
      reads this
    {
      L.Link(port, ackTimer, retryTimer, retryArming, connectInFlight, linkEpoch, session, open, nextPort,
             timers, asks, tasks, nextTask, answers)
    }

    constructor ()
      ensures View() == L.Init()
    {
      port, ackTimer, retryTimer, retryArming, connectInFlight, linkEpoch := None, None, None, false, false, 0;
      session, open, nextPort := L.Session(L.Down, false, 0), {}, 0;
      timers, asks := L.Timers(map[], {}, 0), L.Asks({}, {}, {}, multiset{});
      tasks, nextTask, answers := L.BootOnly(0), 1, L.Answered({}, {});
    }

    /** Suspend until the call `k` names is answered. */
    method Await(k: L.Task)
      modifies this`tasks, this`nextTask
      ensures View() == L.Push(old(View()), k)
    {
      tasks := tasks[nextTask := k];
      nextTask := nextTask + 1;
    }

    method SetState(state: L.Phase)
      modifies this`session
      ensures session == if state == L.Down then L.SayDown(old(session)) else old(session).(phase := state)
    {
      session := session.(phase := state);
      if state == L.Down { session := session.(beat := 0); }
    }

    method ClearAckTimer()
      modifies this`ackTimer, this`timers
      ensures ackTimer == None && timers == old(timers).(ack := L.AckCleared(old(View())))
    {
      if ackTimer.Some? { timers := timers.(ack := timers.ack - {ackTimer.value}); }
      ackTimer := None;
    }

    /** Reject every waiting request, one by one, clearing its timer. */
    method RejectPending()
      modifies this`asks
      ensures asks == L.Rejected(old(asks))
    {
      ghost var all := asks.pending;
      while asks.pending != {}
        invariant asks.pending <= all && asks.asked == old(asks.asked)
        invariant asks.timers == old(asks.timers) - (all - asks.pending)
        invariant asks.settled == old(asks.settled) + multiset(all - asks.pending)
        decreases |asks.pending|
      {
        var id :| id in asks.pending;
        assert all - (asks.pending - {id}) == (all - asks.pending) + {id};
        asks := asks.(pending := asks.pending - {id}, timers := asks.timers - {id}, settled := asks.settled + multiset{id});
      }
      assert all - {} == all;
    }

    /** What teardown and handleDisconnect both clear before their first await. */
    method LetGo()
      modifies this
      ensures View() == L.Dropped(old(View()))
    {
      ClearAckTimer();
      if port.Some? {
        var dying := port.value;
        port := None;
        linkEpoch := linkEpoch + 1;
        open := open - {dying};
      }
      RejectPending();
      session := session.(held := false);
    }

    /** teardown, up to its first await. */
    method Teardown(after: L.After)
      modifies this
      ensures View() == L.Teardown(old(View()), after)
    {
      LetGo();
      Await(L.Cleared(after));
    }

    /** scheduleReconnect, up to its first await. */
    method ScheduleReconnect(own: bool)
      modifies this
      ensures View() == L.Schedule(old(View()), own)
    {
      if retryTimer.Some? || retryArming {
        if own { connectInFlight := false; }
        return;
      }
      retryArming := true;
      Await(L.Counting(own, false));
    }

    method StartConnect()
      modifies this
      ensures View() == L.StartConnect(old(View()))
    {
      SetState(L.Connecting);
      Await(L.SaidConnecting);
    }

    method AfterTeardown(after: L.After)
      modifies this
      ensures View() == L.AfterTeardown(old(View()), after)
    {
      match after
      case Dial => StartConnect();
      case GiveUp => ScheduleReconnect(true);
      case Retry => ScheduleReconnect(false);
      case Force => Await(L.ForceZeroed);
    }

    method OpenPort()
      modifies this
      ensures View() == L.OpenPort(old(View()))
    {
      var p := nextPort;
      if port.Some? {
        var dead := port.value;
        port := None;
        open := open - {dead};
        RejectPending();
      }
      assert View() == L.Replaced(old(View()));
      port, nextPort := Some(p), p + 1;
      linkEpoch := linkEpoch + 1;
      open := open + {p};
      Await(L.Identity(p));
    }

    method Settle(from: nat)
      modifies this
      ensures View() == L.Settle(old(View()), from)
    {
      if port != Some(from) { return; }
      ClearAckTimer();
      if retryTimer.Some? { timers := timers.(retry := timers.retry - {retryTimer.value}); }
      retryTimer := None;
      retryArming := false;
      linkEpoch := linkEpoch + 1;
    }

    /** ensureConnected, up to its first await. */
    method EnsureConnected()
      modifies this`tasks, this`nextTask
      ensures View() == L.Enter(old(View()))
    {
      if connectInFlight || (port.Some? && ackTimer.Some?) { return; }
      Await(L.ReadState(linkEpoch, session.phase));
    }

    /** ensureConnected, from its last read to the claim. */
    method Decide(epoch: nat, read: L.Phase, hold: bool, stale: bool)
      modifies this
      ensures View() == L.Decide(old(View()), epoch, read, hold, stale)
    {
      if epoch != linkEpoch { EnsureConnected(); return; }
      if connectInFlight { return; }
      if port.Some? && ackTimer.Some? { return; }
      if port.Some? && hold { return; }
      if port.Some? && read == L.Ready && !stale { return; }
      var drop := port.Some?;
      connectInFlight := true;
      if drop { Teardown(L.Dial); } else { StartConnect(); }
    }

    method Introduce(p: nat, ok: bool)
      modifies this
      ensures View() == L.Continue(old(View()), L.Identity(p), ok, 0)
    {
      if !ok {
        if port != Some(p) {
          open := open - {p};
          connectInFlight := false;
        } else {
          Teardown(L.GiveUp);
        }
        return;
      }
      if port == Some(p) {
        ClearAckTimer();
        ackTimer := Some(timers.next);
        timers := timers.(ack := timers.ack[timers.next := p], next := timers.next + 1);
      }
      connectInFlight := false;
    }

    /** scheduleReconnect, once the attempt count is written. */
    method ArmRetry(own: bool)
      modifies this
      ensures View() == L.Continue(old(View()), L.Counting(own, true), true, 0)
    {
      if retryArming {
        retryArming := false;
        retryTimer := Some(timers.next);
        timers := timers.(retry := timers.retry + {timers.next}, next := timers.next + 1);
      }
      if own { connectInFlight := false; }
    }

    /** onRegisterAck for an ok answer, after each of its awaits. */
    method RecordAck(from: nat, done: L.AckStep, now: nat)
      modifies this
      ensures View() == L.Continue(old(View()), L.Acking(from, done), true, now)
    {
      if port != Some(from) { return; }
      match done
      case AttemptZero => session := session.(held := false); Await(L.Acking(from, L.HoldClear));
      case HoldClear => Await(L.Acking(from, L.AckStored));
      case AckStored => Await(L.Acking(from, L.LabelStored));
      case LabelStored => session := session.(beat := now); Await(L.Acking(from, L.BeatStored));
      case BeatStored => SetState(L.Ready); Await(L.Acking(from, L.ReadySaid));
      case ReadySaid => Settle(from);
    }

    /** onRegisterAck for a panic refusal, after each of its awaits. */
    method RecordHold(from: nat, done: L.HoldStep)
      modifies this
      ensures View() == L.Continue(old(View()), L.Holding(from, done), true, 0)
    {
      if port != Some(from) { return; }
      match done
      case AttemptZeroed => Await(L.Holding(from, L.RelaysCleared));
      case RelaysCleared => session := session.(held := true); Await(L.Holding(from, L.HoldSet));
      case HoldSet => SetState(L.Down); Await(L.Holding(from, L.DownSaid));
      case DownSaid => Settle(from);
    }

    /** ensureConnected, once one of its reads is answered. */
    method Reread(k: L.Task, now: nat)
      requires k.ReadState? || k.ReadHeld? || k.ReadBeat?
      modifies this
      ensures View() == L.Continue(old(View()), k, true, now)
    {
      match k
      case ReadState(e, read) =>
        if port.Some? { Await(L.ReadHeld(e, read, session.held)); } else { Decide(e, read, false, false); }
      case ReadHeld(e, read, hold) =>
        if port.Some? && !hold && read == L.Ready { Await(L.ReadBeat(e, session.beat)); } else { Decide(e, read, hold, false); }
      case ReadBeat(e, stamp) => Decide(e, L.Ready, false, L.IsStale(stamp, now));
    }

    /** The suspended continuation `t` resumes and runs to its next await. */
    method Resume(t: nat, ok: bool, now: nat)
      requires L.Enabled(View(), L.Resume(t, ok, now))
      modifies this
      ensures View() == L.Step(old(View()), L.Resume(t, ok, now))
    {
      var k := tasks[t];
      tasks := tasks - {t};
      Continue(k, ok, now);
    }

    method Continue(k: L.Task, ok: bool, now: nat)
      modifies this
      ensures View() == L.Continue(old(View()), k, ok, now)
    {
      match k
      case Boot => EnsureConnected();
      case Cleared(after) =>
        if port.Some? { AfterTeardown(after); } else { SetState(L.Down); Await(L.Downed(after)); }
      case Downed(after) => AfterTeardown(after);
      case SaidConnecting => session := session.(held := false); Await(L.HoldCleared);
      case HoldCleared => if ok { OpenPort(); } else { Teardown(L.GiveUp); }
      case Identity(p) => Introduce(p, ok);
      case Counting(own, written) => if written { ArmRetry(own); } else { Await(L.Counting(own, true)); }
      case ForceZeroed => EnsureConnected();
      case Acking(from, done) => RecordAck(from, done, now);
      case Holding(from, done) => RecordHold(from, done);
      case Posting(from) => if port == Some(from) && !ok { Teardown(L.Retry); }
      case _ => Reread(k, now);
    }

    method HandleMessage(from: nat, msg: L.Msg)
      modifies this
      ensures View() == L.OnFrame(old(View()), from, msg)
    {
      if port != Some(from) { open := open - {from}; return; }
      match msg
      case Ack =>
        answers := answers.(accepted := answers.accepted + {from});
        Await(L.Acking(from, L.AttemptZero));
      case PanicRefusal =>
        answers := answers.(panicked := answers.panicked + {from});
        Await(L.Holding(from, L.AttemptZeroed));
      case Refusal => Teardown(L.Retry);
      case Ping(at) => session := session.(beat := at); Await(L.Posting(from));
      case Request => Await(L.Posting(from));
      case Response(id) =>
        if id in asks.pending {
          asks := asks.(pending := asks.pending - {id}, timers := asks.timers - {id}, settled := asks.settled + multiset{id});
        }
      case Notice =>
    }

    method HandleDisconnect(from: nat)
      modifies this
      ensures View() == L.OnHostExit(old(View()), from)
    {
      if port != Some(from) {
        open := open - {from};
        return;
      }
      LetGo();
      SetState(L.Down);
      Await(L.Downed(L.Retry));
    }

    method OnAckTimeout(timer: nat)
      requires timer in timers.ack
      modifies this
      ensures View() == L.OnAckTimeout(old(View()), timer)
    {
      var p := timers.ack[timer];
      ackTimer := None;
      timers := timers.(ack := timers.ack - {timer});
      if port != Some(p) { return; }
      Teardown(L.Retry);
    }

    method OnRetryTimer(timer: nat)
      requires timer in timers.retry
      modifies this
      ensures View() == L.Step(old(View()), L.RetryFires(timer))
    {
      retryTimer := None;
      timers := timers.(retry := timers.retry - {timer});
      EnsureConnected();
    }

    method ForceReconnect(unlessPending: bool)
      modifies this
      ensures View() == L.OnForce(old(View()), unlessPending)
    {
      if connectInFlight { return; }
      if port.Some? && ackTimer.Some? { return; }
      if unlessPending && (retryTimer.Some? || retryArming) { return; }
      Teardown(L.Force);
    }

    method RequestBroker(id: nat, ok: bool)
      modifies this
      ensures View() == L.OnAsk(old(View()), id, ok)
    {
      asks := asks.(asked := asks.asked + {id});
      if port.None? || !ok {
        asks := asks.(settled := asks.settled + multiset{id});
        return;
      }
      asks := asks.(timers := asks.timers + {id}, pending := asks.pending + {id});
    }

    method OnAskTimeout(id: nat)
      requires id in asks.timers
      modifies this`asks
      ensures View() == L.SettleAsk(old(View()), id)
    {
      asks := asks.(pending := asks.pending - {id}, timers := asks.timers - {id}, settled := asks.settled + multiset{id});
    }

    /** The module's globals, as the worker's script sets them when it is loaded. */
    method Load()
      modifies `port, `ackTimer, `retryTimer, `retryArming, `connectInFlight, `linkEpoch
      ensures port == ackTimer == retryTimer == None && !retryArming && !connectInFlight && linkEpoch == 0
    {
      port, ackTimer, retryTimer, retryArming, connectInFlight, linkEpoch := None, None, None, false, false, 0;
    }

    /** The worker is terminated and revived: only session storage survives. */
    method Restart()
      modifies this
      ensures View() == L.Started(old(session), old(nextPort), old(timers).next, old(nextTask))
    {
      Load();
      open, asks, answers := {}, L.Asks({}, {}, {}, multiset{}), L.Answered({}, {});
      timers := L.Timers(map[], {}, timers.next);
      tasks := L.BootOnly(nextTask);
      nextTask := nextTask + 1;
    }

    /** Whatever the browser does next. */
    method Dispatch(e: L.Event)
      requires L.Enabled(View(), e)
      modifies this
      ensures View() == L.Step(old(View()), e)
    {
      match e
      case Wake => EnsureConnected();
      case ForceRedial(unlessPending) => ForceReconnect(unlessPending);
      case Ask(id, ok) => RequestBroker(id, ok);
      case AskTimeout(id) => OnAskTimeout(id);
      case Frame(from, msg) => HandleMessage(from, msg);
      case HostExit(from) => HandleDisconnect(from);
      case AckTimeout(timer) => OnAckTimeout(timer);
      case RetryFires(timer) => OnRetryTimer(timer);
      case Resume(t, ok, now) => Resume(t, ok, now);
      case Evict => Restart();
    }
  }
}
