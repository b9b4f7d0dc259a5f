/** What becomes of every frame the browser sends, over every run. */
module HostRelayFates {
  import opened Prelude
  import opened HostRelay
  import opened HostRelayTheorems
  import opened HostRelayDelivery

  /** The frame was written to a broker. */
  ghost predicate Reached(trail: seq<Act>, f: Frame) { exists k :: 0 <= k < |trail| && trail[k].Wrote? && trail[k].frame == f }

  /** The frame is refused or goes under: it comes when there is no link and is
      answered at once, or after the browser closed the port; it is the oldest of
      more than 32; it is a REGISTER the browser is told is void; or the browser
      closes the port before the pipe has proven itself. */
  ghost predicate Lost(r: Relay, e: Event, f: Frame) {
    match e
    case BrowserSends(msg) =>
      || (f == Frame(r.seen, msg) && ((r.link == Down && !msg.OtherUp?) || (r.link == Ready && r.closing)))
      || (|r.outbound| == 32 && f == r.outbound[0] && r.link != Ready)
    case PipeCloses(s) => r.socket == Some(s) && f.msg.Register? && r.registered && !r.replaced
    case BrowserCloses => r.socket.Some? && r.link == Connecting
    case _ => false
  }

  ghost predicate Held(r: Relay, f: Frame) { f in r.outbound || Reached(r.trail, f) }

  lemma ReachedOn(a: seq<Act>, b: seq<Act>, f: Frame)
    requires a <= b && Reached(a, f)
    ensures Reached(b, f)
  {
    var k :| 0 <= k < |a| && a[k].Wrote? && a[k].frame == f;
    assert b[k] == a[k];
  }

  lemma {:induction false} WritesReach(s: nat, fs: seq<Frame>, before: seq<Act>, f: Frame)
    requires f in fs
    ensures Reached(before + WritesTo(s, fs), f)
  {
    var n := |fs| - 1;
    if fs[n] == f {
      var all := before + WritesTo(s, fs);
      assert all[|all| - 1] == Wrote(s, f);
    } else {
      assert f in fs[..n];
      WritesReach(s, fs[..n], before, f);
      ReachedOn(before + WritesTo(s, fs[..n]), before + WritesTo(s, fs), f);
    }
  }

  lemma SocketHolds(r: Relay, s: nat, msg: FromBroker, proven: bool, f: Frame)
    requires Held(r, f)
    ensures Held(FromSocket(r, s, msg, proven), f)
  {
    var t := FromSocket(r, s, msg, proven);
    if r.socket == Some(s) && r.awaiting && proven {
      FlushWrites(r.(awaiting := false, link := Ready, trail := r.trail + [Proved(s)]));
      if f in r.outbound { WritesReach(s, r.outbound, r.trail + [Proved(s)], f); }
    }
    if Reached(r.trail, f) { ReachedOn(r.trail, t.trail, f); }
  }

  lemma ClosedHolds(r: Relay, f: Frame)
    requires Held(r, f) && !(f.msg.Register? && r.registered && !r.replaced)
    ensures Held(OnSocketClosed(r), f)
  {
    NoRegisterIs(r.outbound);
    if Reached(r.trail, f) { ReachedOn(r.trail, OnSocketClosed(r).trail, f); }
  }

  lemma ConnectHolds(r: Relay, token: bool, f: Frame)
    requires Held(r, f) && (r.link == Down ==> forall g :: g in r.outbound ==> !g.msg.Register?)
    ensures Held(Connect(r, token), f)
  {
    if !r.closing && r.link == Down {
      var c := r.(retry := ClearRetry(r.retry), link := Connecting);
      NoRegisterIs(c.outbound);
      if Reached(r.trail, f) { ReachedOn(r.trail, Connect(r, token).trail, f); }
    }
  }

  lemma BufferHolds(r: Relay, g: Frame, f: Frame)
    requires |r.outbound| <= 32 && (f in r.outbound || f == g)
    ensures f in BufferOutbound(r, g).outbound || (|r.outbound| == 32 && f == r.outbound[0])
  {
    var all := r.outbound + [g];
    assert f in all;
    assert all == [all[0]] + all[1..];
  }

  lemma BrowserHolds(r: Relay, msg: Up, f: Frame)
    requires Inv(r) && (Held(r, f) || f == Frame(r.seen, msg))
    ensures Held(FromBrowser(r, msg), f) || Lost(r, BrowserSends(msg), f)
  {
    var t := FromBrowser(r, msg);
    if Reached(r.trail, f) {
      SaidMore(r, msg);
      ReachedOn(r.trail, t.trail, f);
    } else if r.link == Ready {
      if r.socket.Some? && f == Frame(r.seen, msg) { assert t.trail[|r.trail|] == Wrote(r.socket.value, f); }
    } else {
      BufferHolds(r, Frame(r.seen, msg), f);
    }
  }

  lemma SaidMore(r: Relay, msg: Up)
    ensures r.trail <= FromBrowser(r, msg).trail
  {
  }

  /** A step loses a frame only in one of these ways; any other is written or still
      queued after it. */
  lemma StepHolds(r: Relay, e: Event, f: Frame)
    requires Inv(r) && Enabled(r, e)
    requires Held(r, f) || (e.BrowserSends? && f == Frame(r.seen, e.up))
    ensures Held(Step(r, e), f) || Lost(r, e, f)
  {
    match e
    case RetryFires(t, token) => ConnectHolds(r.(retry := r.retry.(live := r.retry.live - {t})), token, f);
    case PipeConnects(s) => if Reached(r.trail, f) { ReachedOn(r.trail, Step(r, e).trail, f); }
    case PipeSends(s, msg, proven) => SocketHolds(r, s, msg, proven, f);
    case PipeCloses(s) => if !Lost(r, e, f) && r.socket == Some(s) { ClosedHolds(r, f); }
    case BrowserSends(msg) => BrowserHolds(r, msg, f);
    case BrowserCloses => ShutdownHolds(r, f);
  }

  lemma ShutdownHolds(r: Relay, f: Frame)
    requires Inv(r) && Held(r, f)
    ensures Held(Shutdown(r), f) || Lost(r, BrowserCloses, f)
  {
    if Reached(r.trail, f) {
      assert r.trail <= Shutdown(r).trail;
      ReachedOn(r.trail, Shutdown(r).trail, f);
    }
  }

  ghost predicate LostIn(r: Relay, es: seq<Event>, f: Frame)
    decreases es
  {
    es != [] && Enabled(r, es[0]) && (Lost(r, es[0], f) || LostIn(Step(r, es[0]), es[1..], f))
  }

  lemma {:induction false} RunHolds(r: Relay, es: seq<Event>, t: Relay, f: Frame)
    requires Inv(r) && Run(r, es, t) && Held(r, f)
    ensures Held(t, f) || LostIn(r, es, f)
    decreases es
  {
    if es != [] {
      StepHolds(r, es[0], f);
      StepKeeps(r, es[0]);
      if !Lost(r, es[0], f) { RunHolds(Step(r, es[0]), es[1..], t, f); }
    }
  }

  /** Over every run, each frame the browser sends has been written to a broker, is
      still queued, or was lost in one of the ways named. */
  lemma EveryFrameIsAccountedFor(token: bool, es: seq<Event>, r: Relay, msg: Up, fs: seq<Event>, t: Relay)
    requires Run(Init(token), es, r) && Run(Step(r, BrowserSends(msg)), fs, t)
    ensures var f := Frame(r.seen, msg);
            Reached(t.trail, f) || f in t.outbound || Lost(r, BrowserSends(msg), f) || LostIn(Step(r, BrowserSends(msg)), fs, f)
  {
    var f := Frame(r.seen, msg);
    InitKeeps(token);
    RunKeeps(Init(token), es, r);
    StepHolds(r, BrowserSends(msg), f);
    StepKeeps(r, BrowserSends(msg));
    if Held(Step(r, BrowserSends(msg)), f) { RunHolds(Step(r, BrowserSends(msg)), fs, t, f); }
  }

  /** What comes when there is no link is answered at once, by its kind. */
  lemma RefusedAtOnce(r: Relay, msg: Up)
    requires r.link == Down && !msg.OtherUp?
    ensures var t := Step(r, BrowserSends(msg));
            && t.outbound == r.outbound
            && t.trail == r.trail + [if msg.Register? then Voided(r.seen + 1) else if msg.Req? then Failed(msg.id) else HelloRefused]
  {
  }

  /* ---- registrations ---- */

  /** A REGISTER was written, and the browser was not told since that it is void. */
  ghost predicate Standing(trail: seq<Act>) {
    trail != [] &&
      var n := |trail| - 1;
      !trail[n].Voided? && ((trail[n].Wrote? && trail[n].frame.msg.Register?) || Standing(trail[..n]))
  }

  lemma {:induction false} StandingJoin(trail: seq<Act>, acts: seq<Act>)
    requires forall a :: a in acts ==> !a.Voided? && !(a.Wrote? && a.frame.msg.Register?)
    ensures Standing(trail + acts) <==> Standing(trail)
  {
    if acts == [] {
      assert trail + acts == trail;
    } else {
      var n := |acts| - 1;
      StandingJoin(trail, acts[..n]);
      assert (trail + acts)[..|trail| + n] == trail + acts[..n] && (trail + acts)[|trail| + n] == acts[n];
    }
  }

  lemma StandingNext(trail: seq<Act>, a: Act)
    ensures Standing(trail + [a]) <==> !a.Voided? && ((a.Wrote? && a.frame.msg.Register?) || Standing(trail))
  {
    assert (trail + [a])[..|trail|] == trail;
  }

  ghost predicate Known(r: Relay) { Standing(r.trail) ==> r.registered }

  lemma ClosedKnown(r: Relay)
    requires Known(r)
    ensures Known(OnSocketClosed(r)) && (Standing(r.trail) && !r.replaced ==> Last(OnSocketClosed(r).trail) == Some(Voided(r.seen)))
  {
    var f := r.trail + Failures(r.pending);
    StandingJoin(r.trail, Failures(r.pending));
    StandingNext(f, Voided(r.seen));
  }

  ghost function Last(trail: seq<Act>): Option<Act> { if trail == [] then None else Some(trail[|trail| - 1]) }

  lemma {:induction false} FlushKnown(r: Relay)
    requires Known(r) && r.socket.Some?
    ensures Known(Flush(r))
    decreases |r.outbound|
  {
    if r.outbound != [] {
      StandingNext(r.trail, Wrote(r.socket.value, r.outbound[0]));
      FlushKnown(Forward(r.(outbound := r.outbound[1..]), r.outbound[0]));
    }
  }

  lemma StepKnown(r: Relay, e: Event)
    requires Inv(r) && Known(r) && Enabled(r, e)
    ensures Known(Step(r, e))
  {
    match e
    case RetryFires(t, token) =>
      StandingNext(r.trail, Dialed(r.nextSocket));
      ClosedKnown(r.(retry := ClearRetry(r.retry.(live := r.retry.live - {t})), link := Connecting));
    case PipeConnects(s) => StandingNext(r.trail, SaidHello(s));
    case PipeSends(s, msg, proven) =>
      StandingNext(r.trail, Proved(s));
      StandingNext(r.trail, Relayed(s, msg));
      if r.socket == Some(s) && r.awaiting { FlushKnown(r.(awaiting := false, link := Ready, trail := r.trail + [Proved(s)])); }
    case PipeCloses(s) => ClosedKnown(r);
    case BrowserSends(msg) => BrowserKnown(r, msg);
    case BrowserCloses => assert r.trail + Writes(0, []) == r.trail;
  }

  lemma BrowserKnown(r: Relay, msg: Up)
    requires Inv(r) && Known(r)
    ensures Known(FromBrowser(r, msg))
  {
    if r.link == Ready && r.socket.Some? { StandingNext(r.trail, Wrote(r.socket.value, Frame(r.seen, msg))); }
    if r.link == Down && !msg.OtherUp? {
      StandingNext(r.trail, if msg.Register? then Voided(r.seen + 1) else if msg.Req? then Failed(msg.id) else HelloRefused);
    }
  }

  lemma {:induction false} RunKnown(r: Relay, es: seq<Event>, t: Relay)
    requires Inv(r) && Known(r) && Run(r, es, t)
    ensures Known(t)
    decreases es
  {
    if es != [] {
      StepKnown(r, es[0]);
      StepKeeps(r, es[0]);
      RunKnown(Step(r, es[0]), es[1..], t);
    }
  }

  /** A browser that registered hears that its registration is void when the pipe it
      went through goes, and it is the last thing it hears of that pipe. */
  lemma LostRegistrationIsVoided(token: bool, es: seq<Event>, r: Relay, s: nat)
    requires Run(Init(token), es, r) && r.socket == Some(s) && !r.replaced && Standing(r.trail)
    ensures Last(Step(r, PipeCloses(s)).trail) == Some(Voided(r.seen))
  {
    InitKeeps(token);
    var i := Relay(Down, None, 0, false, false, false, false, Retry(None, {}, 0), [], [], 0, []);
    StandingNext([], Dialed(0));
    ClosedKnown(i.(retry := ClearRetry(i.retry), link := Connecting));
    RunKnown(Init(token), es, r);
    ClosedKnown(r);
  }
}
