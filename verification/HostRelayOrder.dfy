/** The browser's frames reach brokers in the order they were sent, each once at
    most, however often the link goes down in between. */
module HostRelayOrder {
  import opened Prelude
  import opened HostRelay
  import opened HostRelayTheorems

  /** The frames written so far, to whatever pipe, in order. */
  ghost function Written(trail: seq<Act>): seq<Frame> {
    if trail == [] then []
    else Written(trail[..|trail| - 1]) + if trail[|trail| - 1].Wrote? then [trail[|trail| - 1].frame] else []
  }

  /** What was written, then what is still to be. */
  ghost function Stream(r: Relay): seq<Frame> { Written(r.trail) + r.outbound }

  ghost function Registers(fs: seq<Frame>): nat {
    if fs == [] then 0 else Registers(fs[..|fs| - 1]) + if fs[|fs| - 1].msg.Register? then 1 else 0
  }

  /** In the order they were sent, each once, all of them among the first `seen`,
      with `n` REGISTERs at most. */
  ghost predicate Ordered(fs: seq<Frame>, seen: nat, n: nat) {
    && (forall i, j :: 0 <= i < j < |fs| ==> fs[i].serial < fs[j].serial)
    && (forall i :: 0 <= i < |fs| ==> fs[i].serial < seen)
    && Registers(fs) <= n
  }

  lemma {:induction false} WrittenJoin(a: seq<Act>, b: seq<Act>)
    ensures Written(a + b) == Written(a) + Written(b)
  {
    if b == [] {
      assert a + b == a;
    } else {
      var m := |b| - 1;
      WrittenJoin(a, b[..m]);
      assert (a + b)[..|a + b| - 1] == a + b[..m] && (a + b)[|a + b| - 1] == b[m];
    }
  }

  lemma WroteNothing(a: seq<Act>, x: Act)
    requires !x.Wrote?
    ensures Written(a + [x]) == Written(a)
  {
    assert (a + [x])[..|a|] == a;
  }

  lemma {:induction false} NoneWritten(acts: seq<Act>)
    requires forall x :: x in acts ==> !x.Wrote?
    ensures Written(acts) == []
  {
    if acts != [] {
      var n := |acts| - 1;
      assert acts[n] in acts;
      NoneWritten(acts[..n]);
    }
  }

  lemma {:induction false} RegistersJoin(a: seq<Frame>, b: seq<Frame>)
    ensures Registers(a + b) == Registers(a) + Registers(b)
  {
    if b == [] {
      assert a + b == a;
    } else {
      var m := |b| - 1;
      RegistersJoin(a, b[..m]);
      assert (a + b)[..|a + b| - 1] == a + b[..m] && (a + b)[|a + b| - 1] == b[m];
    }
  }

  /** One more frame of the browser at the end. */
  lemma Longer(fs: seq<Frame>, seen: nat, n: nat, msg: Up)
    requires Ordered(fs, seen, n)
    ensures Ordered(fs + [Frame(seen, msg)], seen + 1, n + if msg.Register? then 1 else 0)
  {
    assert (fs + [Frame(seen, msg)])[..|fs|] == fs;
  }

  /** One frame dropped where the buffer begins. */
  lemma Shorter(fs: seq<Frame>, k: nat, seen: nat, n: nat)
    requires Ordered(fs, seen, n) && k < |fs|
    ensures Ordered(fs[..k] + fs[k + 1..], seen, n)
  {
    assert fs == fs[..k] + [fs[k]] + fs[k + 1..];
    RegistersJoin(fs[..k] + [fs[k]], fs[k + 1..]);
    RegistersJoin(fs[..k], [fs[k]]);
    RegistersJoin(fs[..k], fs[k + 1..]);
  }

  /** Every queued REGISTER cut out. */
  lemma {:induction false} Cut(a: seq<Frame>, b: seq<Frame>, fs: seq<Frame>, seen: nat, n: nat)
    requires fs == a + b && Ordered(fs, seen, n)
    ensures Ordered(a + NoRegister(b), seen, n)
    decreases |b|
  {
    if b == [] {
      assert a + NoRegister(b) == fs;
    } else {
      var f, rest := b[0], b[1..];
      if f.msg.Register? {
        FirstCut(a, b, fs, seen, n);
        Cut(a, rest, a + rest, seen, n);
        assert NoRegister(b) == NoRegister(rest);
      } else {
        NextOf(a, b);
        Cut(a + [f], rest, fs, seen, n);
        NextOf(a, NoRegister(b));
        assert NoRegister(b)[1..] == NoRegister(rest);
      }
    }
  }

  lemma NextOf(a: seq<Frame>, b: seq<Frame>)
    requires b != []
    ensures a + b == a + [b[0]] + b[1..]
  {
  }

  lemma FirstCut(a: seq<Frame>, b: seq<Frame>, fs: seq<Frame>, seen: nat, n: nat)
    requires fs == a + b && b != [] && Ordered(fs, seen, n)
    ensures Ordered(a + b[1..], seen, n)
  {
    Shorter(fs, |a|, seen, n);
    assert fs[..|a|] + fs[|a| + 1..] == a + b[1..];
  }

  /** A frame queued behind the others, the oldest of them perhaps dropped. */
  lemma Queued(w: seq<Frame>, out: seq<Frame>, fs: seq<Frame>, seen: nat, n: nat, msg: Up)
    requires fs == w + out && Ordered(fs, seen, n)
    ensures var all, m := out + [Frame(seen, msg)], n + if msg.Register? then 1 else 0;
            Ordered(w + all, seen + 1, m) && Ordered(w + all[1..], seen + 1, m)
  {
    var f, m := Frame(seen, msg), n + if msg.Register? then 1 else 0;
    var gs := fs + [f];
    Longer(fs, seen, n, msg);
    assert gs == w + (out + [f]);
    Shorter(gs, |w|, seen + 1, m);
    assert gs[..|w|] + gs[|w| + 1..] == w + (out + [f])[1..];
  }

  /* ---- the steps ---- */

  ghost predicate InOrder(r: Relay, n: nat) { Ordered(Stream(r), r.seen, n) }

  lemma SameStream(r: Relay, t: Relay, n: nat)
    requires InOrder(r, n) && t.outbound == r.outbound && t.seen == r.seen && Written(t.trail) == Written(r.trail)
    ensures InOrder(t, n)
  {
  }

  lemma RefuseOrdered(r: Relay, n: nat)
    requires InOrder(r, n)
    ensures InOrder(RefuseRegistration(r), n)
  {
    Cut(Written(r.trail), r.outbound, Stream(r), r.seen, n);
    WroteNothing(r.trail, Voided(r.seen));
  }

  lemma ClosedOrdered(r: Relay, n: nat)
    requires InOrder(r, n)
    ensures InOrder(OnSocketClosed(r), n)
  {
    var c := r.(link := Down, socket := None, awaiting := false);
    if !r.replaced {
      NoneWritten(Failures(c.pending));
      WrittenJoin(c.trail, Failures(c.pending));
      assert Written(c.trail) + [] == Written(c.trail);
      SameStream(c, FailPending(c), n);
      RefuseOrdered(FailPending(c), n);
    }
  }

  lemma ConnectOrdered(r: Relay, token: bool, n: nat)
    requires InOrder(r, n)
    ensures InOrder(Connect(r, token), n)
  {
    if !r.closing && r.link == Down {
      var c := r.(retry := ClearRetry(r.retry), link := Connecting);
      if !token { ClosedOrdered(c, n); } else { WroteNothing(r.trail, Dialed(r.nextSocket)); }
    }
  }

  lemma {:induction false} FlushOrdered(r: Relay, n: nat)
    requires InOrder(r, n) && r.socket.Some?
    ensures InOrder(Flush(r), n)
    decreases |r.outbound|
  {
    if r.outbound != [] {
      var f := r.outbound[0];
      var t := Forward(r.(outbound := r.outbound[1..]), f);
      WrittenJoin(r.trail, [Wrote(r.socket.value, f)]);
      WrittenOne(r.socket.value, f);
      assert Stream(t) == Stream(r);
      FlushOrdered(t, n);
    }
  }

  lemma WrittenOne(s: nat, f: Frame)
    ensures Written([Wrote(s, f)]) == [f]
  {
    assert [Wrote(s, f)][..0] == [];
    assert Written([]) == [];
  }

  lemma SocketOrdered(r: Relay, s: nat, msg: FromBroker, proven: bool, n: nat)
    requires InOrder(r, n)
    ensures InOrder(FromSocket(r, s, msg, proven), n)
  {
    WroteNothing(r.trail, Proved(s));
    WroteNothing(r.trail, Relayed(s, msg));
    if r.socket == Some(s) && r.awaiting && proven {
      FlushOrdered(r.(awaiting := false, link := Ready, trail := r.trail + [Proved(s)]), n);
    }
  }

  lemma BufferOrdered(r: Relay, t: Relay, msg: Up, n: nat)
    requires InOrder(r, n) && t.trail == r.trail && t.outbound == r.outbound && t.seen == r.seen + 1
    ensures InOrder(BufferOutbound(t, Frame(r.seen, msg)), n + if msg.Register? then 1 else 0)
  {
    Queued(Written(r.trail), r.outbound, Stream(r), r.seen, n, msg);
  }

  lemma WroteOrdered(trail: seq<Act>, s: nat, fs: seq<Frame>, seen: nat, n: nat, msg: Up)
    requires fs == Written(trail) && Ordered(fs, seen, n)
    ensures Ordered(Written(trail + [Wrote(s, Frame(seen, msg))]) + [], seen + 1, n + if msg.Register? then 1 else 0)
  {
    var f := Frame(seen, msg);
    Longer(fs, seen, n, msg);
    WrittenJoin(trail, [Wrote(s, f)]);
    WrittenOne(s, f);
    assert fs + [f] + [] == fs + [f];
  }

  lemma ForwardOrdered(r: Relay, msg: Up, n: nat)
    requires InOrder(r, n) && (r.socket.Some? ==> r.outbound == [])
    ensures InOrder(Forward(r.(seen := r.seen + 1), Frame(r.seen, msg)), n + if msg.Register? then 1 else 0)
  {
    if r.socket.Some? {
      assert Stream(r) == Written(r.trail);
      WroteOrdered(r.trail, r.socket.value, Stream(r), r.seen, n, msg);
    }
  }

  /** A refusal is noted, and the frame is not queued. */
  lemma NotedOrdered(r: Relay, a: Act, n: nat, m: nat)
    requires InOrder(r, n) && !a.Wrote? && n <= m
    ensures InOrder(Note(r.(seen := r.seen + 1), a), m)
  {
    WroteNothing(r.trail, a);
  }

  lemma DownOrdered(r: Relay, msg: Up, n: nat)
    requires InOrder(r, n) && r.link == Down
    ensures InOrder(FromBrowser(r, msg), n + if msg.Register? then 1 else 0)
  {
    var c := r.(seen := r.seen + 1);
    match msg
    case Register => NotedOrdered(r, Voided(c.seen), n, n + 1);
    case Hello => NotedOrdered(r, HelloRefused, n, n);
    case Req(id) => NotedOrdered(r, Failed(id), n, n);
    case OtherUp => BufferOrdered(r, c, msg, n);
  }

  lemma BrowserOrdered(r: Relay, msg: Up, n: nat)
    requires InOrder(r, n) && Inv(r)
    ensures InOrder(FromBrowser(r, msg), n + if msg.Register? then 1 else 0)
  {
    match r.link
    case Ready => ForwardOrdered(r, msg, n);
    case Connecting =>
      BufferOrdered(r, r.(seen := r.seen + 1, registered := r.registered || msg.Register?), msg, n);
    case Down => DownOrdered(r, msg, n);
  }

  lemma {:induction false} WritesAll(s: nat, fs: seq<Frame>)
    ensures Written(Writes(s, fs)) == fs
  {
    if fs != [] {
      var n := |fs| - 1;
      WritesAll(s, fs[..n]);
      assert Writes(s, fs)[..n] == Writes(s, fs[..n]);
      assert fs == fs[..n] + [fs[n]];
    }
  }

  lemma ShutdownOrdered(r: Relay, n: nat)
    requires InOrder(r, n)
    ensures InOrder(Shutdown(r), n)
  {
    if !r.closing && r.socket.Some? {
      if r.link.Ready? {
        WritesAll(r.socket.value, r.outbound);
        WrittenJoin(r.trail, Writes(r.socket.value, r.outbound));
        assert Stream(r) + [] == Stream(r);
      } else {
        FirstOrdered(Written(r.trail), r.outbound, r.seen, n);
      }
    }
  }

  lemma FirstOrdered(a: seq<Frame>, b: seq<Frame>, seen: nat, n: nat)
    requires Ordered(a + b, seen, n)
    ensures Ordered(a + [], seen, n)
  {
    RegistersJoin(a, b);
    assert a + [] == a && forall i :: 0 <= i < |a| ==> a[i] == (a + b)[i];
  }

  ghost function Registering(e: Event): nat { if e.BrowserSends? && e.up.Register? then 1 else 0 }

  lemma PipeStepOrdered(r: Relay, e: Event, n: nat)
    requires InOrder(r, n) && Enabled(r, e) && !e.BrowserSends? && !e.BrowserCloses?
    ensures InOrder(Step(r, e), n)
  {
    match e
    case RetryFires(t, token) => ConnectOrdered(r.(retry := r.retry.(live := r.retry.live - {t})), token, n);
    case PipeConnects(s) => NotedOnly(r, SaidHello(s), n);
    case PipeSends(s, msg, proven) => SocketOrdered(r, s, msg, proven, n);
    case PipeCloses(s) => ClosedOrdered(r, n);
  }

  lemma NotedOnly(r: Relay, a: Act, n: nat)
    requires InOrder(r, n) && !a.Wrote?
    ensures InOrder(Note(r, a), n)
  {
    WroteNothing(r.trail, a);
  }

  lemma StepOrdered(r: Relay, e: Event, n: nat)
    requires InOrder(r, n) && Inv(r) && Enabled(r, e)
    ensures InOrder(Step(r, e), n + Registering(e))
  {
    match e
    case BrowserSends(msg) => BrowserOrdered(r, msg, n);
    case BrowserCloses => ShutdownOrdered(r, n);
    case _ => PipeStepOrdered(r, e, n);
  }

  /** How many REGISTERs the browser sends in a run. */
  ghost function Sent(es: seq<Event>): nat { if es == [] then 0 else Registering(es[0]) + Sent(es[1..]) }

  lemma {:induction false} RunOrdered(r: Relay, es: seq<Event>, r': Relay, n: nat)
    requires InOrder(r, n) && Inv(r) && Run(r, es, r')
    ensures InOrder(r', n + Sent(es))
    decreases es
  {
    if es != [] {
      StepOrdered(r, es[0], n);
      StepKeeps(r, es[0]);
      RunOrdered(Step(r, es[0]), es[1..], r', n + Registering(es[0]));
    }
  }

  /** Whatever happens to the pipe, frames are written in the order the browser
      sent them, each once at most, and no more REGISTERs than it sent. */
  lemma FramesGoInOrder(token: bool, es: seq<Event>, r: Relay)
    requires Run(Init(token), es, r)
    ensures Ordered(Written(r.trail), r.seen, Sent(es))
  {
    var s := Relay(Down, None, 0, false, false, false, false, Retry(None, {}, 0), [], [], 0, []);
    assert Stream(s) == [];
    ConnectOrdered(s, token, 0);
    InitKeeps(token);
    RunOrdered(Init(token), es, r, 0);
    FirstOrdered(Written(r.trail), r.outbound, r.seen, Sent(es));
    assert Written(r.trail) + [] == Written(r.trail);
  }
}
