/** No unproven relaying, no ghost registration, a bounded buffer, and no redial
    after a replacement, over every run of the relay. */
module HostRelayTheorems {
  import opened Prelude
  import opened HostRelay

  lemma Appended(trail: seq<Act>, a: Act)
    requires TrailOk(trail) && ActOk(trail, a)
    ensures TrailOk(trail + [a])
    ensures Void(trail + [a]) == if a.Voided? then a.upTo else Void(trail)
    ensures forall b :: b in trail + [a] <==> b in trail || b == a
  {
    assert (trail + [a])[..|trail|] == trail;
    forall k | 0 <= k < |trail + [a]| ensures ActOk((trail + [a])[..k], (trail + [a])[k]) {
      if k < |trail| { assert (trail + [a])[..k] == trail[..k]; }
    }
  }

  /** Acts that void nothing and relay nothing, each allowed at the start. */
  lemma {:induction false} AppendedAll(trail: seq<Act>, acts: seq<Act>)
    requires TrailOk(trail)
    requires forall a :: a in acts ==> !a.Voided? && ActOk(trail, a)
    ensures TrailOk(trail + acts) && Void(trail + acts) == Void(trail)
    decreases acts
  {
    if acts == [] {
      assert trail + acts == trail;
    } else {
      Appended(trail, acts[0]);
      forall a | a in acts[1..] ensures ActOk(trail + [acts[0]], a) {
        assert a in acts;
      }
      AppendedAll(trail + [acts[0]], acts[1..]);
      assert trail + [acts[0]] + acts[1..] == trail + acts;
    }
  }

  lemma FailPendingKeeps(r: Relay)
    requires TrailOk(r.trail)
    ensures var t := FailPending(r);
            && TrailOk(t.trail) && Void(t.trail) == Void(r.trail) && r.trail <= t.trail
            && forall s: nat :: Proved(s) in t.trail <==> Proved(s) in r.trail
  {
    forall a | a in Failures(r.pending) ensures !a.Voided? && ActOk(r.trail, a) && a.Failed? {
    }
    AppendedAll(r.trail, Failures(r.pending));
  }

  lemma {:induction false} NoRegisterIs(fs: seq<Frame>)
    ensures |NoRegister(fs)| <= |fs| && forall f :: f in NoRegister(fs) <==> f in fs && !f.msg.Register?
  {
    if fs != [] { NoRegisterIs(fs[1..]); }
  }

  lemma RefuseKeeps(r: Relay)
    requires TrailOk(r.trail) && Void(r.trail) <= r.seen
    requires forall f :: f in r.outbound && f.msg.Register? ==> r.registered
    ensures var t := RefuseRegistration(r);
            && TrailOk(t.trail) && Void(t.trail) <= t.seen && r.trail <= t.trail && |t.outbound| <= |r.outbound|
            && (forall f :: f in t.outbound ==> !f.msg.Register?)
            && forall s: nat :: Proved(s) in t.trail <==> Proved(s) in r.trail
  {
    NoRegisterIs(r.outbound);
    Appended(r.trail, Voided(r.seen));
  }

  lemma ClosedKeeps(r: Relay)
    requires Bounded(r) && TrailOk(r.trail) && Void(r.trail) <= r.seen && r.retry.live == {} && !r.closing
    requires forall f :: f in r.outbound && f.msg.Register? ==> r.registered && !r.replaced
    requires forall s: nat :: Proved(s) in r.trail ==> s < r.nextSocket
    ensures Inv(OnSocketClosed(r))
  {
    var c := r.(link := Down, socket := None, awaiting := false);
    FailPendingKeeps(c);
    RefuseKeeps(FailPending(c));
  }

  lemma ConnectKeeps(r: Relay, token: bool)
    requires Bounded(r) && Linked(r) && TrailOk(r.trail) && NoGhost(r) && r.retry.live == {}
    requires r.link == Down && !r.replaced && !r.closing
    ensures Inv(Connect(r, token))
  {
    var c := r.(retry := ClearRetry(r.retry), link := Connecting);
    if token { Appended(r.trail, Dialed(r.nextSocket)); } else { ClosedKeeps(c); }
  }

  /** Everything of the relay that forwarding leaves alone. */
  ghost predicate SameLink(r: Relay, t: Relay) {
    && t.link == r.link && t.socket == r.socket && t.nextSocket == r.nextSocket && t.awaiting == r.awaiting
    && t.replaced == r.replaced && t.closing == r.closing && t.retry == r.retry && t.seen == r.seen
  }

  lemma ForwardKeeps(r: Relay, f: Frame)
    requires |r.pending| <= PENDING_REQ_MAX && TrailOk(r.trail)
    requires r.socket.Some? ==> Proved(r.socket.value) in r.trail
    requires f.msg.Register? ==> Void(r.trail) <= f.serial
    ensures var t := Forward(r, f);
            && SameLink(r, t) && |t.pending| <= PENDING_REQ_MAX && TrailOk(t.trail) && Void(t.trail) == Void(r.trail)
            && t.outbound == r.outbound && (r.registered ==> t.registered)
            && forall s: nat :: Proved(s) in t.trail <==> Proved(s) in r.trail
  {
    if r.socket.Some? { Appended(r.trail, Wrote(r.socket.value, f)); }
  }

  lemma {:induction false} FlushKeeps(r: Relay)
    requires |r.pending| <= PENDING_REQ_MAX && TrailOk(r.trail)
    requires r.socket.Some? ==> Proved(r.socket.value) in r.trail
    requires forall f :: f in r.outbound && f.msg.Register? ==> Void(r.trail) <= f.serial
    ensures var t := Flush(r);
            && SameLink(r, t) && |t.pending| <= PENDING_REQ_MAX && TrailOk(t.trail) && Void(t.trail) == Void(r.trail)
            && t.outbound == []
            && forall s: nat :: Proved(s) in t.trail <==> Proved(s) in r.trail
    decreases |r.outbound|
  {
    if r.outbound != [] {
      var c := r.(outbound := r.outbound[1..]);
      var t := Forward(c, r.outbound[0]);
      ForwardKeeps(c, r.outbound[0]);
      assert forall f :: f in t.outbound ==> f in r.outbound;
      FlushKeeps(t);
      assert Flush(r) == Flush(t);
    }
  }

  lemma {:induction false} WithoutShorter(ids: seq<nat>, id: nat)
    ensures |Without(ids, id)| <= |ids|
  {
    if ids != [] { WithoutShorter(ids[1..], id); }
  }

  lemma FromSocketKeeps(r: Relay, s: nat, msg: FromBroker, proven: bool)
    requires Inv(r)
    ensures Inv(FromSocket(r, s, msg, proven))
  {
    if r.socket == Some(s) {
      if r.awaiting {
        if proven {
          Appended(r.trail, Proved(s));
          FlushKeeps(r.(awaiting := false, link := Ready, trail := r.trail + [Proved(s)]));
        }
      } else if r.link == Ready && !msg.ReplacedNotice? {
        Appended(r.trail, Relayed(s, msg));
        if msg.Res? { WithoutShorter(r.pending, msg.id); }
      }
    }
  }

  lemma BufferKeeps(r: Relay, f: Frame)
    requires Bounded(r) && NoGhost(r) && (f.msg.Register? ==> Void(r.trail) <= f.serial && r.registered && r.link != Down)
    ensures Bounded(BufferOutbound(r, f)) && NoGhost(BufferOutbound(r, f))
  {
  }

  lemma NoteLinked(r: Relay, trail: seq<Act>)
    requires Linked(r) && forall s: nat :: Proved(s) in trail <==> Proved(s) in r.trail
    ensures Linked(r.(trail := trail))
  {
  }

  lemma NoteNoGhost(r: Relay, trail: seq<Act>)
    requires NoGhost(r)
    requires Void(trail) == Void(r.trail) || (Void(trail) == r.seen && r.link == Down)
    ensures NoGhost(r.(trail := trail))
  {
  }

  /** A note of a refusal, or of HELLO, to a relay that stays as it is. */
  lemma NoteKeeps(r: Relay, a: Act)
    requires Inv(r) && (a.Voided? || a.HelloRefused? || a.Failed? || a.SaidHello?)
    requires a.Voided? ==> a.upTo == r.seen && r.link == Down
    ensures Inv(Note(r, a))
  {
    var trail := r.trail + [a];
    assert TrailOk(trail) && (Void(trail) == if a.Voided? then a.upTo else Void(r.trail))
        && forall s: nat :: Proved(s) in trail <==> Proved(s) in r.trail
    by { Appended(r.trail, a); }
    NoteLinked(r, trail);
    NoteNoGhost(r, trail);
  }

  lemma SeenKeeps(r: Relay)
    requires Inv(r)
    ensures Inv(r.(seen := r.seen + 1))
  {
  }

  lemma BufferedKeeps(r: Relay, f: Frame)
    requires Inv(r) && r.link != Ready && f.serial < r.seen
    requires f.msg.Register? ==> Void(r.trail) <= f.serial && r.link == Connecting
    ensures Inv(BufferOutbound(r.(registered := r.registered || f.msg.Register?), f))
  {
    BufferKeeps(r.(registered := r.registered || f.msg.Register?), f);
  }

  lemma ForwardedKeeps(r: Relay, f: Frame)
    requires Inv(r) && r.link == Ready && (f.msg.Register? ==> Void(r.trail) <= f.serial)
    ensures Inv(Forward(r, f))
  {
    ForwardKeeps(r, f);
  }

  lemma OtherDownKeeps(r: Relay, f: Frame)
    requires Inv(r) && r.link == Down && f.msg.OtherUp?
    ensures Inv(BufferOutbound(r, f))
  {
    BufferKeeps(r, f);
  }

  lemma AnsweredDownKeeps(r: Relay, msg: Up)
    requires Inv(r) && r.link == Down
    ensures Inv(FromBrowser(r, msg))
  {
    var c := r.(seen := r.seen + 1);
    SeenKeeps(r);
    if msg.OtherUp? {
      OtherDownKeeps(c, Frame(r.seen, msg));
    } else {
      var a := match msg case Register => Voided(c.seen) case Req(id) => Failed(id) case _ => HelloRefused;
      NoteKeeps(c, a);
      assert FromBrowser(r, msg) == Note(c, a);
    }
  }

  lemma FromBrowserKeeps(r: Relay, msg: Up)
    requires Inv(r)
    ensures Inv(FromBrowser(r, msg))
  {
    if r.link == Down {
      AnsweredDownKeeps(r, msg);
    } else {
      SeenKeeps(r);
      var c := r.(seen := r.seen + 1);
      if r.link == Ready { ForwardedKeeps(c, Frame(r.seen, msg)); } else { BufferedKeeps(c, Frame(r.seen, msg)); }
    }
  }

  lemma ShutdownKeeps(r: Relay)
    requires Inv(r)
    ensures Inv(Shutdown(r))
  {
    assert Writes(0, []) == [] && r.trail + [] == r.trail;
  }

  lemma StepKeeps(r: Relay, e: Event)
    requires Inv(r) && Enabled(r, e)
    ensures Inv(Step(r, e))
  {
    match e
    case RetryFires(t, token) => ConnectKeeps(r.(retry := r.retry.(live := r.retry.live - {t})), token);
    case PipeConnects(s) => NoteKeeps(r, SaidHello(s));
    case PipeSends(s, msg, proven) => FromSocketKeeps(r, s, msg, proven);
    case PipeCloses(s) => if r.socket == Some(s) { ClosedKeeps(r); }
    case BrowserSends(msg) => FromBrowserKeeps(r, msg);
    case BrowserCloses => ShutdownKeeps(r);
  }

  lemma InitKeeps(token: bool)
    ensures Inv(Init(token))
  {
    ConnectKeeps(Relay(Down, None, 0, false, false, false, false, Retry(None, {}, 0), [], [], 0, []), token);
  }

  lemma {:induction false} RunKeeps(r: Relay, es: seq<Event>, r': Relay)
    requires Inv(r) && Run(r, es, r')
    ensures Inv(r')
    decreases es
  {
    if es != [] {
      StepKeeps(r, es[0]);
      RunKeeps(Step(r, es[0]), es[1..], r');
    }
  }

  /** Only HELLO reaches a pipe that has not proven it is the broker's, and
      nothing from such a pipe reaches the browser. */
  lemma OnlyHelloBeforeProof(token: bool, es: seq<Event>, r: Relay, j: nat)
    requires Run(Init(token), es, r) && j < |r.trail| && (r.trail[j].Wrote? || r.trail[j].Relayed?)
    ensures exists i :: 0 <= i < j && r.trail[i] == Proved(r.trail[j].s)
  {
    InitKeeps(token);
    RunKeeps(Init(token), es, r);
    assert ActOk(r.trail[..j], r.trail[j]);
  }

  lemma {:induction false} VoidGrows(trail: seq<Act>, i: nat, j: nat)
    requires TrailOk(trail) && i < j <= |trail| && trail[i].Voided?
    ensures trail[i].upTo <= Void(trail[..j])
    decreases j
  {
    assert trail[..j][..j - 1] == trail[..j - 1] && trail[..j][j - 1] == trail[j - 1];
    if i < j - 1 {
      VoidGrows(trail, i, j - 1);
      assert ActOk(trail[..j - 1], trail[j - 1]);
    }
  }

  /** Once the browser is told that its registration is void, no REGISTER it
      sent before that is ever written to a broker. */
  lemma NoGhostRegistration(token: bool, es: seq<Event>, r: Relay, i: nat, j: nat)
    requires Run(Init(token), es, r) && i < j < |r.trail|
    requires r.trail[i].Voided? && r.trail[j].Wrote? && r.trail[j].frame.msg.Register?
    ensures r.trail[i].upTo <= r.trail[j].frame.serial
  {
    InitKeeps(token);
    RunKeeps(Init(token), es, r);
    VoidGrows(r.trail, i, j);
    assert ActOk(r.trail[..j], r.trail[j]);
  }

  /** The buffer stays bounded; a relay that is down, was not replaced and is not
      closing has exactly one redial armed, and in no other state is one. */
  lemma BoundedAndRetrying(token: bool, es: seq<Event>, r: Relay)
    requires Run(Init(token), es, r)
    ensures |r.outbound| <= 32 && |r.pending| <= 256
    ensures |r.retry.live| == if r.link == Down && !r.replaced && !r.closing then 1 else 0
  {
    InitKeeps(token);
    RunKeeps(Init(token), es, r);
  }

  lemma StepOfReplaced(r: Relay, e: Event)
    requires Inv(r) && r.replaced && Enabled(r, e)
    ensures Step(r, e).replaced && Step(r, e).nextSocket == r.nextSocket
  {
  }

  /** After a REPLACED notice the relay never dials again. */
  lemma {:induction false} ReplacedNeverRedials(r: Relay, es: seq<Event>, r': Relay)
    requires Inv(r) && r.replaced && Run(r, es, r')
    ensures r'.nextSocket == r.nextSocket && r'.replaced
    decreases es
  {
    if es != [] {
      StepKeeps(r, es[0]);
      StepOfReplaced(r, es[0]);
      ReplacedNeverRedials(Step(r, es[0]), es[1..], r');
    }
  }
}
