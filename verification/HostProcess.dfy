/** The relay as it runs: module variables its callbacks change in place. Each
    callback does to the relay what HostRelay says. */
module HostProcess {
  import opened Prelude
  import R = HostRelay

  class Host {
    var link: R.Link
    var socket: Option<nat>
    var nextSocket: nat
    var awaitingOwnAck: bool
    var browserRegistered: bool
    var replaced: bool
    var shuttingDown: bool
    var retry: R.Retry
    var outbound: seq<R.Frame>
    var pendingReqIds: seq<nat>
    var seen: nat
    var trail: seq<R.Act>

    ghost function View(): R.Relay
      reads this
    {
      R.Relay(link, socket, nextSocket, awaitingOwnAck, browserRegistered, replaced, shuttingDown, retry, outbound,
              pendingReqIds, seen, trail)
    }

    constructor (token: bool)
      ensures View() == R.Init(token)
    {
      link, socket, nextSocket, awaitingOwnAck := R.Down, None, 0, false;
      browserRegistered, replaced, shuttingDown := false, false, false;
      retry := R.Retry(None, {}, 0);
      outbound, pendingReqIds, seen, trail := [], [], 0, [];
      new;
      Connect(token);
    }

    method Send(a: R.Act)
      modifies this`trail
      ensures trail == old(trail) + [a]
    {
      trail := trail + [a];
    }

    method ClearRetry()
      modifies this`retry
      ensures retry == R.ClearRetry(old(retry))
    {
      if retry.timer.Some? { retry := retry.(live := retry.live - {retry.timer.value}); }
      retry := retry.(timer := None);
    }

    method Connect(token: bool)
      modifies this
      ensures View() == R.Connect(old(View()), token)
    {
      if shuttingDown || link != R.Down { return; }
      ClearRetry();
      link := R.Connecting;
      if !token { OnSocketClosed(); return; }
      socket := Some(nextSocket);
      nextSocket := nextSocket + 1;
      awaitingOwnAck := true;
      Send(R.Dialed(nextSocket - 1));
    }

    /** Every request the browser waits for is failed, in the order they came. */
    method FailPendingRequests()
      modifies this`pendingReqIds, this`trail
      ensures View() == R.FailPending(old(View()))
    {
      for k := 0 to |pendingReqIds|
        invariant pendingReqIds == old(pendingReqIds)
        invariant trail == old(trail) + R.Failures(pendingReqIds)[..k]
      {
        Send(R.Failed(pendingReqIds[k]));
        assert R.Failures(pendingReqIds)[..k + 1] == R.Failures(pendingReqIds)[..k] + [R.Failed(pendingReqIds[k])];
      }
      assert R.Failures(pendingReqIds)[..|pendingReqIds|] == R.Failures(pendingReqIds);
      pendingReqIds := [];
    }

    /** Any REGISTER still queued is cut out, from the back. */
    method CutRegisters()
      modifies this`outbound
      ensures outbound == R.NoRegister(old(outbound))
    {
      var i := |outbound|;
      while i > 0
        invariant 0 <= i <= |old(outbound)| && i <= |outbound|
        invariant outbound == old(outbound)[..i] + R.NoRegister(old(outbound)[i..])
      {
        i := i - 1;
        assert old(outbound)[i..] == [old(outbound)[i]] + old(outbound)[i + 1..];
        if outbound[i].msg.Register? { outbound := outbound[..i] + outbound[i + 1..]; }
      }
      assert old(outbound)[0..] == old(outbound);
    }

    /** The browser is told that its registration is void. */
    method RefuseRegistration()
      modifies this`browserRegistered, this`outbound, this`trail
      ensures View() == R.RefuseRegistration(old(View()))
    {
      if !browserRegistered { return; }
      browserRegistered := false;
      CutRegisters();
      Send(R.Voided(seen));
    }

    method OnSocketClosed()
      modifies this
      ensures View() == R.OnSocketClosed(old(View()))
    {
      socket, awaitingOwnAck, link := None, false, R.Down;
      if replaced { pendingReqIds := []; return; }
      FailPendingRequests();
      RefuseRegistration();
      if shuttingDown { return; }
      retry := R.Retry(Some(retry.next), retry.live + {retry.next}, retry.next + 1);
    }

    method ForwardToBroker(f: R.Frame)
      modifies this`pendingReqIds, this`browserRegistered, this`trail
      ensures View() == R.Forward(old(View()), f)
    {
      if f.msg.Req? { pendingReqIds := R.Remember(pendingReqIds, f.msg.id); }
      if f.msg.Register? { browserRegistered := true; }
      if socket.Some? { Send(R.Wrote(socket.value, f)); }
    }

    method FlushOutbound()
      modifies this`outbound, this`pendingReqIds, this`browserRegistered, this`trail
      ensures View() == R.Flush(old(View()))
    {
      while outbound != []
        invariant R.Flush(View()) == R.Flush(old(View()))
        decreases |outbound|
      {
        var f := outbound[0];
        outbound := outbound[1..];
        ForwardToBroker(f);
      }
    }

    method BufferOutbound(f: R.Frame)
      requires |outbound| <= R.OUTBOUND_BUFFER_MAX
      modifies this`outbound
      ensures View() == R.BufferOutbound(old(View()), f)
    {
      outbound := outbound + [f];
      while |outbound| > R.OUTBOUND_BUFFER_MAX
        invariant outbound == old(outbound) + [f] ||
                  (|old(outbound)| == R.OUTBOUND_BUFFER_MAX && outbound == (old(outbound) + [f])[1..])
        decreases |outbound|
      {
        outbound := outbound[1..];
      }
    }

    method HandleFromBroker(s: nat, msg: R.FromBroker, proven: bool)
      modifies this
      ensures View() == R.FromSocket(old(View()), s, msg, proven)
    {
      if socket != Some(s) { return; }
      if awaitingOwnAck {
        awaitingOwnAck := false;
        if proven {
          link := R.Ready;
          Send(R.Proved(s));
          FlushOutbound();
        }
        return;
      }
      if link != R.Ready { return; }
      if msg.ReplacedNotice? { replaced := true; return; }
      if msg.Res? { pendingReqIds := R.Without(pendingReqIds, msg.id); }
      Send(R.Relayed(s, msg));
    }

    method HandleFromBrowser(msg: R.Up)
      requires |outbound| <= R.OUTBOUND_BUFFER_MAX
      modifies this
      ensures View() == R.FromBrowser(old(View()), msg)
    {
      var f := R.Frame(seen, msg);
      seen := seen + 1;
      if link.Ready? { ForwardToBroker(f); return; }
      if msg.Register? && link.Connecting? { browserRegistered := true; }
      if link.Connecting? { BufferOutbound(f); return; }
      match msg
      case Register => Send(R.Voided(seen));
      case Hello => Send(R.HelloRefused);
      case Req(id) => Send(R.Failed(id));
      case OtherUp => BufferOutbound(f);
    }

    method Shutdown()
      modifies this
      ensures View() == R.Shutdown(old(View()))
    {
      if shuttingDown { return; }
      shuttingDown := true;
      ClearRetry();
      var s := socket;
      socket := None;
      if s.None? { return; }
      if link.Ready? { DrainTo(s.value); } else { outbound := []; }
    }

    method DrainTo(s: nat)
      modifies this`outbound, this`trail
      ensures outbound == [] && trail == old(trail) + R.Writes(s, old(outbound))
    {
      ghost var k, all := 0, R.Writes(s, outbound);
      while outbound != []
        invariant k <= |old(outbound)| && outbound == old(outbound)[k..]
        invariant trail == old(trail) + all[..k]
        decreases |outbound|
      {
        var f := outbound[0];
        outbound := outbound[1..];
        assert all[..k + 1] == all[..k] + [R.Wrote(s, f)];
        k := k + 1;
        Send(R.Wrote(s, f));
      }
      assert all[..k] == all;
    }

    /** Whatever happens next. */
    method Dispatch(e: R.Event)
      requires R.Enabled(View(), e) && |outbound| <= R.OUTBOUND_BUFFER_MAX
      modifies this
      ensures View() == R.Step(old(View()), e)
    {
      match e
      case RetryFires(t, token) =>
        retry := retry.(live := retry.live - {t});
        Connect(token);
      case PipeConnects(s) => Send(R.SaidHello(s));
      case PipeSends(s, msg, proven) => HandleFromBroker(s, msg, proven);
      case PipeCloses(s) => if socket == Some(s) { OnSocketClosed(); }
      case BrowserSends(msg) => HandleFromBrowser(msg);
      case BrowserCloses => Shutdown();
    }
  }
}
