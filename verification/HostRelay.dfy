/** host/index.mjs: the relay between one browser port and the broker's pipe. */
module HostRelay {
  import opened Prelude

  datatype Link = Down | Connecting | Ready

  /** What the browser sends, numbered as it arrives. */
  datatype Up = Register | Hello | Req(id: nat) | OtherUp
  datatype Frame = Frame(serial: nat, msg: Up)

  /** What the broker sends once the link is ready. */
  datatype FromBroker = Res(id: nat) | ReplacedNotice | OtherDown

  /** What the relay did that its two peers can see, in order. */
  datatype Act =
    | Dialed(s: nat)
    | SaidHello(s: nat)
    | Proved(s: nat)
    | Wrote(s: nat, frame: Frame)
    | Relayed(s: nat, msg: FromBroker)
    | Voided(upTo: nat)
    | HelloRefused
    | Failed(id: nat)

  datatype Retry = Retry(timer: Option<nat>, live: set<nat>, next: nat)

  /** `awaiting` is awaitingOwnAck, `registered` browserRegistered, `closing`
      shuttingDown; `seen` counts the browser's frames. */
  datatype Relay = Relay(
    link: Link, socket: Option<nat>, nextSocket: nat, awaiting: bool, registered: bool, replaced: bool, closing: bool,
    retry: Retry, outbound: seq<Frame>, pending: seq<nat>, seen: nat, trail: seq<Act>)

  const OUTBOUND_BUFFER_MAX := 32
  const PENDING_REQ_MAX := 256

  function Note(r: Relay, a: Act): Relay { r.(trail := r.trail + [a]) }

  /* ---- the browser's requests and registrations ---- */

  function Remember(ids: seq<nat>, id: nat): seq<nat> {
    var kept := if |ids| >= PENDING_REQ_MAX then ids[1..] else ids;
    if id in kept then kept else kept + [id]
  }

  function Without(ids: seq<nat>, id: nat): seq<nat> {
    if ids == [] then [] else if ids[0] == id then ids[1..] else [ids[0]] + Without(ids[1..], id)
  }

  function Failures(ids: seq<nat>): seq<Act> { seq(|ids|, i requires 0 <= i < |ids| => Failed(ids[i])) }

  /** failPendingRequests. */
  function FailPending(r: Relay): Relay { r.(trail := r.trail + Failures(r.pending), pending := []) }

  function NoRegister(fs: seq<Frame>): seq<Frame> {
    if fs == [] then [] else (if fs[0].msg.Register? then [] else [fs[0]]) + NoRegister(fs[1..])
  }

  /** refuseRegistration. */
  function RefuseRegistration(r: Relay): Relay {
    if !r.registered then r
    else r.(registered := false, outbound := NoRegister(r.outbound), trail := r.trail + [Voided(r.seen)])
  }

  /* ---- the pipe ---- */

  function ArmRetry(t: Retry): Retry { Retry(Some(t.next), t.live + {t.next}, t.next + 1) }

  function ClearRetry(t: Retry): Retry {
    Retry(None, if t.timer.Some? then t.live - {t.timer.value} else t.live, t.next)
  }

  function OnSocketClosed(r: Relay): Relay {
    var c := r.(link := Down, socket := None, awaiting := false);
    if r.replaced then c.(pending := [])
    else
      var f := RefuseRegistration(FailPending(c));
      if r.closing then f else f.(retry := ArmRetry(f.retry))
  }

  /** connect; `token` is whether runtime.json gave the credentials to dial with. */
  function Connect(r: Relay, token: bool): Relay {
    if r.closing || r.link != Down then r
    else
      var c := r.(retry := ClearRetry(r.retry), link := Connecting);
      if !token then OnSocketClosed(c)
      else c.(socket := Some(r.nextSocket), nextSocket := r.nextSocket + 1, awaiting := true, trail := r.trail + [Dialed(r.nextSocket)])
  }

  function Forward(r: Relay, f: Frame): Relay {
    r.(pending := if f.msg.Req? then Remember(r.pending, f.msg.id) else r.pending,
       registered := r.registered || f.msg.Register?,
       trail := if r.socket.Some? then r.trail + [Wrote(r.socket.value, f)] else r.trail)
  }

  /** flushOutbound, on a link that is ready. */
  function Flush(r: Relay): Relay
    decreases |r.outbound|
  {
    if r.outbound == [] then r else Flush(Forward(r.(outbound := r.outbound[1..]), r.outbound[0]))
  }

  function BufferOutbound(r: Relay, f: Frame): Relay {
    var all := r.outbound + [f];
    r.(outbound := if |all| > OUTBOUND_BUFFER_MAX then all[1..] else all)
  }

  /** handleFromBroker, for a frame of the current socket; `proven` is whether
      judgeFirstFrame takes it for the broker's own answer. */
  function FromSocket(r: Relay, s: nat, msg: FromBroker, proven: bool): Relay {
    if r.socket != Some(s) then r
    else if r.awaiting then
      if proven then Flush(r.(awaiting := false, link := Ready, trail := r.trail + [Proved(s)]))
      else r.(awaiting := false)
    else if r.link != Ready then r
    else if msg.ReplacedNotice? then r.(replaced := true)
    else r.(pending := if msg.Res? then Without(r.pending, msg.id) else r.pending, trail := r.trail + [Relayed(s, msg)])
  }

  function FromBrowser(r: Relay, msg: Up): Relay {
    var f := Frame(r.seen, msg);
    var c := r.(seen := r.seen + 1);
    match r.link
    case Ready => Forward(c, f)
    case Connecting => BufferOutbound(c.(registered := r.registered || msg.Register?), f)
    case Down =>
      match msg
      case Register => Note(c, Voided(c.seen))
      case Hello => Note(c, HelloRefused)
      case Req(id) => Note(c, Failed(id))
      case OtherUp => BufferOutbound(c, f)
  }

  function Writes(s: nat, fs: seq<Frame>): seq<Act> { seq(|fs|, i requires 0 <= i < |fs| => Wrote(s, fs[i])) }

  /** shutdown: what is buffered goes only to a broker that has proven itself. */
  function Shutdown(r: Relay): Relay {
    if r.closing then r
    else
      var c := r.(closing := true, retry := ClearRetry(r.retry), socket := None);
      if r.socket.None? then c
      else c.(outbound := [], trail := if r.link.Ready? then r.trail + Writes(r.socket.value, r.outbound) else r.trail)
  }

  /* ---- events ---- */

  datatype Event =
    | RetryFires(timer: nat, token: bool)
    | PipeConnects(s: nat)
    | PipeSends(s: nat, msg: FromBroker, proven: bool)
    | PipeCloses(s: nat)
    | BrowserSends(up: Up)
    | BrowserCloses

  predicate Enabled(r: Relay, e: Event) {
    match e
    case RetryFires(t, _) => t in r.retry.live
    case PipeConnects(s) => s < r.nextSocket && SaidHello(s) !in r.trail
    case _ => true
  }

  function Step(r: Relay, e: Event): Relay
    requires Enabled(r, e)
  {
    match e
    case RetryFires(t, token) => Connect(r.(retry := r.retry.(live := r.retry.live - {t})), token)
    case PipeConnects(s) => Note(r, SaidHello(s))
    case PipeSends(s, msg, proven) => FromSocket(r, s, msg, proven)
    case PipeCloses(s) => if r.socket == Some(s) then OnSocketClosed(r) else r
    case BrowserSends(msg) => FromBrowser(r, msg)
    case BrowserCloses => Shutdown(r)
  }

  function Init(token: bool): Relay {
    Connect(Relay(Down, None, 0, false, false, false, false, Retry(None, {}, 0), [], [], 0, []), token)
  }

  ghost predicate Run(r: Relay, es: seq<Event>, r': Relay)
    decreases es
  {
    if es == [] then r' == r else Enabled(r, es[0]) && Run(Step(r, es[0]), es[1..], r')
  }

  /* ---- what every step keeps ---- */

  ghost predicate Bounded(r: Relay) { |r.outbound| <= OUTBOUND_BUFFER_MAX && |r.pending| <= PENDING_REQ_MAX }

  /** Where the socket, the wait for its answer and the retry timer stand. */
  ghost predicate Linked(r: Relay) {
    && (r.socket.Some? ==> r.socket.value < r.nextSocket && !r.closing)
    && (!r.closing ==> (r.socket.Some? <==> r.link != Down))
    && (r.socket.Some? ==> (r.link == Ready <==> Proved(r.socket.value) in r.trail))
    && (r.awaiting && r.socket.Some? ==> r.link == Connecting)
    && (forall s: nat :: Proved(s) in r.trail ==> s < r.nextSocket)
    && (r.link == Ready && !r.closing ==> r.outbound == [])
    && (r.replaced && !r.closing ==> r.link != Connecting)
  }

  /** A link that is down, and was not replaced, has one retry timer; no other
      state has any. */
  ghost predicate Retrying(r: Relay) {
    if r.link == Down && !r.replaced && !r.closing then r.retry.timer.Some? && r.retry.live == {r.retry.timer.value}
    else r.retry.live == {}
  }

  /** The last thing told void: what of the browser's frames came before. */
  ghost function Void(trail: seq<Act>): nat {
    if trail == [] then 0
    else if trail[|trail| - 1].Voided? then trail[|trail| - 1].upTo
    else Void(trail[..|trail| - 1])
  }

  ghost predicate ActOk(before: seq<Act>, a: Act) {
    && (a.Wrote? ==> Proved(a.s) in before && (a.frame.msg.Register? ==> Void(before) <= a.frame.serial))
    && (a.Relayed? ==> Proved(a.s) in before)
    && (a.Voided? ==> Void(before) <= a.upTo)
  }

  ghost predicate TrailOk(trail: seq<Act>) { forall k :: 0 <= k < |trail| ==> ActOk(trail[..k], trail[k]) }

  /** Nothing the browser was told is void is still queued. */
  ghost predicate NoGhost(r: Relay) {
    && Void(r.trail) <= r.seen
    && (forall f :: f in r.outbound && f.msg.Register? ==> Void(r.trail) <= f.serial && r.registered)
    && (r.link == Down ==> forall f :: f in r.outbound ==> !f.msg.Register?)
  }

  ghost predicate Inv(r: Relay) { Bounded(r) && Linked(r) && Retrying(r) && TrailOk(r.trail) && NoGhost(r) }
}
