/** bridged/index.mjs and policy.mjs: routes, requests in flight, arms and the
    panic switch. Each handler runs to its end before the next, except a
    registration, which waits once for the identity behind it. */
module Broker {
  import opened Prelude

  /* ---- connections and routes ---- */

  datatype Role = Host | Mcp

  /** `closed` once destroyed, `closing` once its last message is on its way out;
      `asked` once it sent REGISTER; `held` when that was answered with a panic
      refusal, `accepted` when with a route. */
  datatype Conn = Conn(role: Role, closed: bool, closing: bool, asked: bool, held: bool, accepted: bool)

  datatype Route = Route(serial: nat, conn: nat, claimed: bool)

  /** A registration waiting for its identity. */
  datatype Reg = Reg(conn: nat, installId: string)

  /* ---- requests in flight ---- */

  /** `caller` is dropped when its connection goes; `route` is the route object. */
  datatype Pending = Pending(caller: Option<nat>, mcpId: nat, route: nat, routeConn: nat)

  datatype Origin = Origin(conn: nat, mcpId: nat)

  datatype Answer = Answer(conn: nat, mcpId: nat, id: nat)

  /** What is in flight and its timers; what was ever forwarded and for whom;
      and what was finished, logged and answered, each as often as it was. */
  datatype Requests = Requests(
    pendings: map<nat, Pending>, timers: set<nat>, next: nat, origin: map<nat, Origin>,
    finished: multiset<nat>, lines: multiset<nat>, answers: multiset<Answer>)

  /* ---- arms ---- */

  datatype Note =
    | Armed(installId: string, at: int, until: int)
    | Disarmed(installId: string)
    | DisarmedAll
    | Sent(installId: string, request: nat, armedTier: bool, at: int)

  /** #until, and what was armed, disarmed and sent so far. */
  datatype Grants = Grants(until: map<string, int>, trail: seq<Note>)

  const DEFAULT_ARM_MINUTES := 15
  const MAX_ARM_MINUTES := 60

  /** Math.round: halves go up. */
  function Round(x: real): int { (x + 0.5).Floor }

  /** clampArmMinutes; None is an argument that is not a finite number. */
  function ClampArmMinutes(minutes: Option<real>): int {
    if minutes.None? || minutes.value <= 0.0 then DEFAULT_ARM_MINUTES
    else
      var n := Round(minutes.value);
      if n < 1 then 1 else if n > MAX_ARM_MINUTES then MAX_ARM_MINUTES else n
  }

  function Arm(g: Grants, id: string, minutes: Option<real>, now: int): Grants {
    var until := now + ClampArmMinutes(minutes) * 60_000;
    Grants(g.until[id := until], g.trail + [Armed(id, now, until)])
  }

  function Disarm(g: Grants, id: string): Grants { Grants(g.until - {id}, g.trail + [Disarmed(id)]) }

  function DisarmAll(g: Grants): Grants { Grants(map[], g.trail + [DisarmedAll]) }

  predicate IsArmed(g: Grants, id: string, now: int) { id in g.until && g.until[id] > now }

  /** armedUntil forgets a window it finds expired. */
  function Looked(g: Grants, id: string, now: int): Grants {
    if id in g.until && g.until[id] <= now then g.(until := g.until - {id}) else g
  }

  /* ---- the broker ---- */

  /** `file` is whether the panic file exists, `active` what the switch last saw. */
  datatype Panic = Panic(file: bool, active: bool)

  datatype Broker = Broker(
    panic: Panic, conns: map<nat, Conn>, routes: map<string, Route>, regs: map<nat, Reg>,
    grants: Grants, q: Requests, next: nat)

  function Init(file: bool): Broker {
    Broker(Panic(file, file), map[], map[], map[], Grants(map[], []),
           Requests(map[], {}, 0, map[], multiset{}, multiset{}, multiset{}), 0)
  }

  function Destroy(conns: map<nat, Conn>, gone: set<nat>): map<nat, Conn> {
    map c | c in conns :: if c in gone then conns[c].(closed := true) else conns[c]
  }

  /** sendAndClose: the connection is destroyed once its last message is written,
      and until then it is heard. */
  function SendAndClose(conns: map<nat, Conn>, c: nat): map<nat, Conn> {
    if Open(conns, c) then conns[c := conns[c].(closing := true)] else conns
  }

  predicate Open(conns: map<nat, Conn>, c: nat) { c in conns && !conns[c].closed }

  /** The caller of a request, if its connection would still take an answer. */
  predicate Hears(conns: map<nat, Conn>, p: Pending) { p.caller.Some? && Open(conns, p.caller.value) }

  function Told(q: Requests, conns: map<nat, Conn>, ids: set<nat>): set<Answer> {
    set id | id in ids && id in q.pendings && Hears(conns, q.pendings[id]) ::
      Answer(q.pendings[id].caller.value, q.pendings[id].mcpId, id)
  }

  /** finish, for each of `ids`: the timer is off, one line is logged, and the
      caller is answered if it is still there. */
  function Finish(q: Requests, conns: map<nat, Conn>, ids: set<nat>): Requests {
    q.(pendings := q.pendings - ids, timers := q.timers - ids,
       finished := q.finished + multiset(ids), lines := q.lines + multiset(ids),
       answers := q.answers + multiset(Told(q, conns, ids)))
  }

  function OnRoute(q: Requests, serial: nat): set<nat> { set id | id in q.pendings && q.pendings[id].route == serial }

  function RouteConns(routes: map<string, Route>): set<nat> { set id | id in routes :: routes[id].conn }

  function Held(conns: map<nat, Conn>): set<nat> { set c | c in conns && conns[c].held }

  /** enterPanic: `except` is the connection that asked. */
  function EnterPanic(b: Broker, except: set<nat>): Broker {
    b.(grants := DisarmAll(b.grants), q := Finish(b.q, b.conns, b.q.pendings.Keys),
       routes := map[], conns := Destroy(b.conns, RouteConns(b.routes) - except))
  }

  /** leavePanic: every held profile is let go, to register afresh. */
  function LeavePanic(b: Broker, except: set<nat>): Broker {
    b.(conns := Destroy(b.conns, Held(b.conns) - except))
  }

  /** panic.check: look at the file again. */
  function Check(b: Broker): Broker {
    if b.panic.active == b.panic.file then b
    else
      var c := b.(panic := Panic(b.panic.file, b.panic.file));
      if b.panic.file then EnterPanic(c, {}) else LeavePanic(c, {})
  }

  /* ---- registrations ---- */

  function Hold(b: Broker, c: nat): Broker {
    if c in b.conns then b.(conns := b.conns[c := b.conns[c].(held := true)]) else b
  }

  /** handleRegister up to its await. */
  function Register(b: Broker, c: nat, id: string): Broker
    requires c in b.conns
  {
    var b1 := Check(b.(conns := b.conns[c := b.conns[c].(asked := true)]));
    if b1.panic.active then Hold(b1, c)
    else b1.(regs := b1.regs[b1.next := Reg(c, id)], next := b1.next + 1)
  }

  /** A claim is dropped: the arm is revoked and what was asked of it fails. */
  function DropClaim(b: Broker, id: string): Broker
    requires id in b.routes
  {
    b.(routes := b.routes[id := b.routes[id].(claimed := false)], grants := Disarm(b.grants, id),
       q := Finish(b.q, b.conns, OnRoute(b.q, b.routes[id].serial)))
  }

  /** A route is replaced, never duplicated; the older connection is told, and closes
      after. */
  function Attach(b: Broker, c: nat, id: string, claimed: bool): Broker {
    var b1 := b.(routes := b.routes[id := Route(b.next, c, claimed)], next := b.next + 1);
    if id in b.routes && b.routes[id].conn != c
    then b1.(q := Finish(b.q, b.conns, OnRoute(b.q, b.routes[id].serial)), conns := SendAndClose(b.conns, b.routes[id].conn))
    else b1
  }

  function Accept(b: Broker, c: nat): Broker {
    if Open(b.conns, c) then b.(conns := b.conns[c := b.conns[c].(accepted := true)]) else b
  }

  /** handleRegister after its await. */
  function Registered(b: Broker, r: Reg, claimed: bool, changed: bool): Broker {
    if !Open(b.conns, r.conn) then b
    else
      var b1 := Check(b);
      if b1.panic.active then Hold(b1, r.conn)
      else
        var b2 := Attach(b1, r.conn, r.installId, claimed);
        Accept(if changed then DropClaim(b2, r.installId) else b2, r.conn)
  }

  /* ---- requests ---- */

  /** `passes` is whether what forwardToBrowser checks after the gate (the link,
      the handles, the url, the size, the upload's rails) lets the request by. */
  datatype What =
    | Forward(armedTier: bool, passes: bool)
    | ArmFor(minutes: Option<real>)
    | DisarmIt
    | ClaimIt(dirKnown: bool)
    | OtherMeta

  datatype Ask =
    | Board
    | Trip
    | Resume(removed: bool)
    | OfProfile(target: Option<string>, what: What)

  /** canOriginate. */
  predicate MayAsk(role: Role, ask: Ask) {
    match role
    case Mcp => !ask.Resume?
    case Host => !(ask.OfProfile? && ask.what.Forward?)
  }

  function Send(q: Requests, c: nat, mcpId: nat, r: Route): Requests {
    q.(pendings := q.pendings[q.next := Pending(Some(c), mcpId, r.serial, r.conn)], timers := q.timers + {q.next},
       origin := q.origin[q.next := Origin(c, mcpId)], next := q.next + 1)
  }

  /** A request for one live route, once panic is known to be off. */
  function ToProfile(b: Broker, c: nat, mcpId: nat, id: string, what: What, now: int): Broker
    requires id in b.routes
  {
    var r, armed := b.routes[id], IsArmed(b.grants, id, now);
    var b1 := b.(grants := Looked(b.grants, id, now));
    match what
    case Forward(armedTier, passes) =>
      if (armedTier && !(r.claimed && armed)) || !passes then b1
      else b1.(q := Send(b.q, c, mcpId, r), grants := b1.grants.(trail := b1.grants.trail + [Sent(id, b.q.next, armedTier, now)]))
    case ArmFor(minutes) => if r.claimed then b1.(grants := Arm(b1.grants, id, minutes, now)) else b1
    case DisarmIt => b1.(grants := Disarm(b1.grants, id))
    case ClaimIt(dirKnown) => if dirKnown then b1.(routes := b.routes[id := r.(claimed := true)]) else b1
    case OtherMeta => b1
  }

  function Request(b: Broker, c: nat, mcpId: nat, ask: Ask, now: int): Broker {
    if c !in b.conns then b
    else if !MayAsk(b.conns[c].role, ask) then b.(conns := Destroy(b.conns, {c}))
    else
      var b1 := Check(b);
      match ask
      case Board => b1
      case Trip => EnterPanic(b1.(panic := Panic(true, true), conns := SendAndClose(b1.conns, c)), {c})
      case Resume(removed) =>
        if !b1.panic.active || !b1.conns[c].held || !removed then b1
        else LeavePanic(b1.(panic := Panic(false, false), conns := SendAndClose(b1.conns, c)), {c})
      case OfProfile(target, what) =>
        if b1.panic.active || target.None? || target.value !in b1.routes then b1
        else ToProfile(b1, c, mcpId, target.value, what, now)
  }

  /** handleRes: a host may only answer what was sent to it. */
  function Respond(b: Broker, c: nat, id: nat): Broker {
    if id !in b.q.pendings then b
    else if b.q.pendings[id].routeConn != c then b.(conns := Destroy(b.conns, {c}))
    else b.(q := Finish(b.q, b.conns, {id}))
  }

  /** releaseConnection drops the caller of what it asked for. */
  function Orphan(q: Requests, c: nat): Requests {
    q.(pendings := map id | id in q.pendings ::
         if q.pendings[id].caller == Some(c) then q.pendings[id].(caller := None) else q.pendings[id])
  }

  /** The socket closed. `own` is the first route of that connection, if any. */
  function Closed(b: Broker, c: nat, own: Option<string>): Broker {
    var b1 := b.(conns := Destroy(b.conns, {c}));
    if own.None? || own.value !in b.routes then b1.(q := Orphan(b1.q, c))
    else
      b1.(routes := b.routes - {own.value},
          q := Orphan(Finish(b.q, b1.conns, OnRoute(b.q, b.routes[own.value].serial)), c))
  }

  /** A route that stopped answering heartbeats. */
  function Evict(b: Broker, id: string): Broker {
    if id !in b.routes then b
    else
      b.(routes := b.routes - {id}, conns := Destroy(b.conns, {b.routes[id].conn}),
         q := Finish(b.q, b.conns, OnRoute(b.q, b.routes[id].serial)))
  }

  /* ---- events ---- */

  datatype Event =
    | Connect(c: nat, role: Role)
    | Registers(c: nat, installId: string)
    | RegistrationResumes(reg: nat, claimed: bool, changed: bool)
    | Requested(c: nat, mcpId: nat, ask: Ask, now: int)
    | Responds(c: nat, id: nat)
    | TimesOut(id: nat)
    | Destroys(c: nat)
    | SocketCloses(c: nat, own: Option<string>)
    | Evicts(installId: string)
    | Drifts(installId: string)
    | PanicFile(there: bool)
    | Watch

  /** byConnection: a route of that connection, if it has one. */
  predicate IsOwn(b: Broker, c: nat, own: Option<string>) {
    if own.Some? then own.value in b.routes && b.routes[own.value].conn == c
    else forall id | id in b.routes :: b.routes[id].conn != c
  }

  predicate Enabled(b: Broker, e: Event) {
    match e
    case Connect(c, _) => c !in b.conns
    case Registers(c, _) => c in b.conns
    case RegistrationResumes(r, _, _) => r in b.regs
    case TimesOut(id) => id in b.q.timers
    case SocketCloses(c, own) => IsOwn(b, c, own)
    case _ => true
  }

  function Step(b: Broker, e: Event): Broker
    requires Enabled(b, e)
  {
    match e
    case Connect(c, role) => Check(b.(conns := b.conns[c := Conn(role, false, false, false, false, false)]))
    case Registers(c, id) => Register(b, c, id)
    case RegistrationResumes(r, claimed, changed) => Registered(b.(regs := b.regs - {r}), b.regs[r], claimed, changed)
    case Requested(c, mcpId, ask, now) => Request(b, c, mcpId, ask, now)
    case Responds(c, id) => Respond(b, c, id)
    case TimesOut(id) => b.(q := Finish(b.q, b.conns, {id}))
    case Destroys(c) => b.(conns := Destroy(b.conns, {c}))
    case SocketCloses(c, own) => Closed(b, c, own)
    case Evicts(id) => Evict(b, id)
    case Drifts(id) => if id in b.routes && b.routes[id].claimed then DropClaim(b, id) else b
    case PanicFile(there) => b.(panic := b.panic.(file := there))
    case Watch => Check(b)
  }

  ghost predicate Run(b: Broker, es: seq<Event>, b': Broker)
    decreases es
  {
    if es == [] then b' == b else Enabled(b, es[0]) && Run(Step(b, es[0]), es[1..], b')
  }
}
