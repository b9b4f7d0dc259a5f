/** The relay relays: what becomes of every frame the browser sends, of every frame
    the broker sends, and of every request. */
module HostRelayDelivery {
  import opened Prelude
  import opened HostRelay
  import opened HostRelayTheorems
  import opened HostRelayOrder

  /* ---- the pipe ---- */

  /** A retry that fires dials a new pipe, whose proof is then awaited; without the
      credentials to dial with it leaves the next retry, and dials nothing. */
  lemma RetryDials(r: Relay, t: nat, token: bool)
    requires Inv(r) && Enabled(r, RetryFires(t, token))
    ensures var n := Step(r, RetryFires(t, token));
            if token then
              && n.link == Connecting && n.socket == Some(r.nextSocket) && n.nextSocket == r.nextSocket + 1 && n.awaiting
              && n.retry.live == {} && n.trail == r.trail + [Dialed(r.nextSocket)] && n.outbound == r.outbound
            else n.link == Down && n.socket == None && n.nextSocket == r.nextSocket && |n.retry.live| == 1
  {
  }

  /** A pipe that connects is told HELLO, and nothing else. */
  lemma HelloIsSaid(r: Relay, s: nat)
    requires Enabled(r, PipeConnects(s))
    ensures Step(r, PipeConnects(s)) == r.(trail := r.trail + [SaidHello(s)])
  {
  }

  /* ---- up ---- */

  /** On a proven link a frame of the browser goes to the broker at once, as it is. */
  lemma ReadyFrameIsWritten(r: Relay, msg: Up)
    requires Inv(r) && r.link == Ready && r.socket.Some?
    ensures var t := Step(r, BrowserSends(msg));
            t.trail == r.trail + [Wrote(r.socket.value, Frame(r.seen, msg))] && t.outbound == [] && t.link == Ready && t.socket == r.socket
  {
  }

  ghost function WritesTo(s: nat, fs: seq<Frame>): seq<Act> {
    if fs == [] then [] else WritesTo(s, fs[..|fs| - 1]) + [Wrote(s, fs[|fs| - 1])]
  }

  lemma {:induction false} WritesFirst(s: nat, fs: seq<Frame>)
    requires fs != []
    ensures WritesTo(s, fs) == [Wrote(s, fs[0])] + WritesTo(s, fs[1..])
  {
    var n := |fs| - 1;
    if n > 0 {
      WritesFirst(s, fs[..n]);
      assert fs[..n][1..] == fs[1..][..n - 1];
    } else {
      assert fs[..0] == [] && fs[1..] == [];
    }
  }

  lemma ForwardWrites(r: Relay, f: Frame)
    requires r.socket.Some?
    ensures var t := Forward(r, f);
            t.trail == r.trail + [Wrote(r.socket.value, f)] && t.outbound == r.outbound && t.link == r.link && t.socket == r.socket
  {
  }

  lemma TrailWrites(trail: seq<Act>, s: nat, fs: seq<Frame>)
    requires fs != []
    ensures trail + [Wrote(s, fs[0])] + WritesTo(s, fs[1..]) == trail + WritesTo(s, fs)
  {
    WritesFirst(s, fs);
  }

  lemma {:induction false} FlushWrites(r: Relay)
    requires r.socket.Some?
    ensures Flush(r).trail == r.trail + WritesTo(r.socket.value, r.outbound) && Flush(r).outbound == []
    ensures Flush(r).link == r.link && Flush(r).socket == r.socket
    decreases |r.outbound|
  {
    if r.outbound == [] {
      assert r.trail + [] == r.trail;
    } else {
      var c := r.(outbound := r.outbound[1..]);
      ForwardWrites(c, r.outbound[0]);
      FlushWrites(Forward(c, r.outbound[0]));
      TrailWrites(r.trail, r.socket.value, r.outbound);
    }
  }

  /** Once the pipe has proven itself the link is ready, and everything queued is
      written to it, in order. */
  lemma ProofSendsTheQueue(r: Relay, s: nat, msg: FromBroker)
    requires r.socket == Some(s) && r.awaiting
    ensures var t := Step(r, PipeSends(s, msg, true));
            t.trail == r.trail + [Proved(s)] + WritesTo(s, r.outbound) && t.outbound == [] && t.link == Ready && t.socket == Some(s)
  {
    FlushWrites(r.(awaiting := false, link := Ready, trail := r.trail + [Proved(s)]));
  }

  /** Whatever the pipe sends before it has proven itself, nothing is told to it or
      to the browser. */
  lemma UnprovenIsCut(r: Relay, s: nat, msg: FromBroker)
    requires Inv(r) && Proved(s) !in r.trail
    ensures var t := Step(r, PipeSends(s, msg, false)); t.trail == r.trail && t.outbound == r.outbound
  {
  }

  /* ---- down ---- */

  /** On a proven link a frame of the broker goes to the browser as it is, except
      the notice that is the relay's own. */
  lemma BrokerFrameIsRelayed(r: Relay, s: nat, msg: FromBroker, proven: bool)
    requires Inv(r) && r.socket == Some(s) && r.link == Ready
    ensures var t := Step(r, PipeSends(s, msg, proven));
            if msg == ReplacedNotice then t == r.(replaced := true) else t == r.(trail := r.trail + [Relayed(s, msg)], pending := t.pending)
  {
  }

  /* ---- requests ---- */

  ghost predicate Once(ids: seq<nat>) { forall i, j :: 0 <= i < j < |ids| ==> ids[i] != ids[j] }

  predicate About(a: Act, id: nat) {
    match a
    case Wrote(_, f) => f.msg == Req(id)
    case Relayed(_, msg) => msg == Res(id)
    case Failed(i) => i == id
    case _ => false
  }

  /** The last that was heard of the request is that it was written to a broker. */
  ghost predicate Waiting(trail: seq<Act>, id: nat) {
    trail != [] &&
      var n := |trail| - 1;
      if About(trail[n], id) then trail[n].Wrote? else Waiting(trail[..n], id)
  }

  lemma WaitingNext(trail: seq<Act>, a: Act, id: nat)
    ensures Waiting(trail + [a], id) <==> if About(a, id) then a.Wrote? else Waiting(trail, id)
  {
    assert (trail + [a])[..|trail|] == trail;
  }

  lemma {:induction false} WaitingJoin(trail: seq<Act>, acts: seq<Act>, id: nat)
    requires forall a :: a in acts ==> !About(a, id)
    ensures Waiting(trail + acts, id) <==> Waiting(trail, id)
  {
    if acts == [] {
      assert trail + acts == trail;
    } else {
      var n := |acts| - 1;
      WaitingJoin(trail, acts[..n], id);
      assert trail + acts == trail + acts[..n] + [acts[n]];
      WaitingNext(trail + acts[..n], acts[n], id);
    }
  }

  lemma FailuresLast(ids: seq<nat>)
    requires ids != []
    ensures Failures(ids) == Failures(ids[..|ids| - 1]) + [Failed(ids[|ids| - 1])]
  {
  }

  lemma {:induction false} FailedAll(trail: seq<Act>, ids: seq<nat>, id: nat)
    ensures Waiting(trail + Failures(ids), id) <==> Waiting(trail, id) && id !in ids
  {
    if ids == [] {
      assert trail + Failures(ids) == trail;
    } else {
      var n := |ids| - 1;
      FailedAll(trail, ids[..n], id);
      FailuresLast(ids);
      assert trail + Failures(ids) == trail + Failures(ids[..n]) + [Failed(ids[n])];
      WaitingNext(trail + Failures(ids[..n]), Failed(ids[n]), id);
    }
  }

  lemma OnceTail(ids: seq<nat>)
    requires Once(ids) && ids != []
    ensures Once(ids[1..]) && ids[0] !in ids[1..] && forall x :: x in ids <==> x == ids[0] || x in ids[1..]
  {
    assert ids == [ids[0]] + ids[1..];
  }

  lemma {:induction false} WithoutIs(ids: seq<nat>, id: nat)
    requires Once(ids)
    ensures Once(Without(ids, id)) && forall x :: x in Without(ids, id) <==> x in ids && x != id
  {
    if ids != [] {
      OnceTail(ids);
      WithoutIs(ids[1..], id);
    }
  }

  lemma RememberIs(ids: seq<nat>, id: nat)
    requires Once(ids)
    ensures Once(Remember(ids, id)) && forall x :: x in Remember(ids, id) ==> x in ids || x == id
    ensures |ids| < 256 ==> forall x :: x in ids || x == id ==> x in Remember(ids, id)
    ensures |Remember(ids, id)| <= |ids| + 1
  {
  }

  /** What the relay remembers was written and not answered; and, while there is
      `room`, all of it. */
  ghost predicate Tracks(r: Relay, room: bool) {
    && Once(r.pending) && (r.link == Down ==> r.pending == [])
    && (!r.closing ==> forall id :: id in r.pending ==> Waiting(r.trail, id))
    && (!r.closing && !r.replaced && room ==> forall id :: Waiting(r.trail, id) ==> id in r.pending)
  }

  /** A note about no request. */
  lemma NoteTracks(r: Relay, a: Act, room: bool)
    requires Tracks(r, room) && forall id :: !About(a, id)
    ensures Tracks(r.(trail := r.trail + [a]), room)
  {
    forall id ensures Waiting(r.trail + [a], id) <==> Waiting(r.trail, id) { WaitingNext(r.trail, a, id); }
  }

  lemma FailTracks(r: Relay, room: bool)
    requires Tracks(r, room)
    ensures Tracks(FailPending(r), room) && FailPending(r).pending == []
  {
    forall id ensures Waiting(FailPending(r).trail, id) <==> Waiting(r.trail, id) && id !in r.pending {
      FailedAll(r.trail, r.pending, id);
    }
  }

  lemma ClosedTracks(r: Relay, room: bool)
    requires Tracks(r, room)
    ensures Tracks(OnSocketClosed(r), room)
  {
    if !r.replaced {
      var f := FailPending(r).(link := Down, socket := None, awaiting := false);
      FailTracks(r, room);
      assert f == FailPending(r.(link := Down, socket := None, awaiting := false));
      NoteTracks(f, Voided(f.seen), room);
    }
  }

  lemma ForwardTracks(r: Relay, f: Frame, room: bool)
    requires Tracks(r, room) && r.link == Ready && (r.socket.Some? || r.closing) && (room ==> |r.pending| < 256)
    ensures Tracks(Forward(r, f), room) && |Forward(r, f).pending| <= |r.pending| + 1
  {
    if f.msg.Req? { RememberIs(r.pending, f.msg.id); }
    if r.socket.Some? {
      forall id { WaitingNext(r.trail, Wrote(r.socket.value, f), id); }
    }
  }

  lemma {:induction false} FlushTracks(r: Relay, room: bool)
    requires Tracks(r, room) && r.link == Ready && r.socket.Some? && (room ==> |r.pending| + |r.outbound| <= 256)
    ensures Tracks(Flush(r), room)
    decreases |r.outbound|
  {
    if r.outbound != [] {
      var c := r.(outbound := r.outbound[1..]);
      ForwardTracks(c, r.outbound[0], room);
      FlushTracks(Forward(c, r.outbound[0]), room);
    }
  }

  lemma SocketTracks(r: Relay, s: nat, msg: FromBroker, proven: bool, room: bool)
    requires Inv(r) && Tracks(r, room) && (room ==> |r.pending| + |r.outbound| < 256)
    ensures Tracks(FromSocket(r, s, msg, proven), room)
  {
    if r.socket == Some(s) {
      if r.awaiting {
        NoteTracks(r, Proved(s), room);
        if proven { FlushTracks(r.(awaiting := false, link := Ready, trail := r.trail + [Proved(s)]), room); }
      } else if r.link == Ready && !msg.ReplacedNotice? {
        if msg.Res? { WithoutIs(r.pending, msg.id); }
        forall id { WaitingNext(r.trail, Relayed(s, msg), id); }
      }
    }
  }

  /** With no link a request is failed at once. */
  lemma DownTracks(r: Relay, a: Act, room: bool)
    requires Tracks(r, room) && r.link == Down && !a.Wrote?
    ensures Tracks(r.(trail := r.trail + [a]), room)
  {
    forall id ensures Waiting(r.trail + [a], id) ==> Waiting(r.trail, id) { WaitingNext(r.trail, a, id); }
  }

  lemma BrowserTracks(r: Relay, msg: Up, room: bool)
    requires Inv(r) && Tracks(r, room) && (room ==> |r.pending| < 256)
    ensures Tracks(FromBrowser(r, msg), room)
  {
    var c := r.(seen := r.seen + 1);
    match r.link
    case Ready => ForwardTracks(c, Frame(r.seen, msg), room);
    case Connecting =>
    case Down =>
      if !msg.OtherUp? {
        var a := if msg.Register? then Voided(c.seen) else if msg.Req? then Failed(msg.id) else HelloRefused;
        DownTracks(c, a, room);
      }
  }

  lemma StepTracks(r: Relay, e: Event, room: bool)
    requires Inv(r) && Tracks(r, room) && Enabled(r, e) && (room ==> |r.pending| + |r.outbound| < 256)
    ensures Tracks(Step(r, e), room)
  {
    match e
    case RetryFires(t, token) =>
      NoteTracks(r, Dialed(r.nextSocket), room);
      ClosedTracks(r.(retry := ClearRetry(r.retry.(live := r.retry.live - {t})), link := Connecting), room);
    case PipeConnects(s) => NoteTracks(r, SaidHello(s), room);
    case PipeSends(s, msg, proven) => SocketTracks(r, s, msg, proven, room);
    case PipeCloses(s) => ClosedTracks(r, room);
    case BrowserSends(msg) => BrowserTracks(r, msg, room);
    case BrowserCloses =>
  }

  /** In no state of the run has the relay so many requests to remember, or so many
      frames queued, that it would forget one. */
  ghost predicate Roomy(r: Relay, es: seq<Event>)
    decreases es
  {
    es != [] && Enabled(r, es[0]) ==> |r.pending| + |r.outbound| < 256 && Roomy(Step(r, es[0]), es[1..])
  }

  lemma {:induction false} RunTracks(r: Relay, es: seq<Event>, r': Relay, room: bool)
    requires Inv(r) && Tracks(r, room) && Run(r, es, r') && (room ==> Roomy(r, es))
    ensures Tracks(r', room)
    decreases es
  {
    if es != [] {
      StepKeeps(r, es[0]);
      StepTracks(r, es[0], room);
      RunTracks(Step(r, es[0]), es[1..], r', room);
    }
  }

  lemma InitTracks(token: bool, room: bool)
    ensures Tracks(Init(token), room)
  {
    var s := Relay(Down, None, 0, false, false, false, false, Retry(None, {}, 0), [], [], 0, []);
    NoteTracks(s.(link := Connecting), Dialed(0), room);
    ClosedTracks(s.(retry := ClearRetry(s.retry), link := Connecting), room);
  }

  lemma FailedSince(trail: seq<Act>, ids: seq<nat>, tail: seq<Act>, id: nat)
    requires forall a :: a in tail ==> !a.Failed?
    ensures Failed(id) in Failures(ids) + tail <==> id in ids
  {
    if id in ids {
      var k :| 0 <= k < |ids| && ids[k] == id;
      assert (Failures(ids) + tail)[k] == Failed(id);
    }
  }

  /** When the pipe goes, exactly the requests that were written to it, or to one
      before, and had no answer, are failed. That holds of every relay that was not
      replaced and is not closing; that it fails every one, as long as it had room. */
  lemma LostRequestsAreFailed(token: bool, es: seq<Event>, r: Relay, s: nat, id: nat)
    requires Run(Init(token), es, r) && r.socket == Some(s) && !r.replaced
    ensures var t := Step(r, PipeCloses(s));
            && r.trail <= t.trail && t.pending == []
            && (Failed(id) in t.trail[|r.trail|..] ==> Waiting(r.trail, id))
            && (Roomy(Init(token), es) && Waiting(r.trail, id) ==> Failed(id) in t.trail[|r.trail|..])
            && (Roomy(Init(token), es) ==> !Waiting(t.trail, id))
  {
    InitKeeps(token);
    RunKeeps(Init(token), es, r);
    InitTracks(token, Roomy(Init(token), es));
    RunTracks(Init(token), es, r, Roomy(Init(token), es));
    ClosedTracks(r, Roomy(Init(token), es));
    var t := Step(r, PipeCloses(s));
    var tail := if r.registered then [Voided(r.seen)] else [];
    assert t.trail == r.trail + (Failures(r.pending) + tail);
    FailedSince(r.trail, r.pending, tail, id);
  }
}
