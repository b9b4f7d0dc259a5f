/** What each thing that happens to the broker comes to: windows open, last and
    close; routes come and go with what was asked of them; panic goes on and off. */
module BrokerEffects {
  import opened Prelude
  import opened Broker
  import opened BrokerTheorems
  import opened BrokerAnswers

  /* ---- arm windows ---- */

  /** Panic is off, and known to be, and the profile is connected. */
  ghost predicate Reaches(b: Broker, c: nat, id: string) {
    c in b.conns && !b.panic.file && !b.panic.active && id in b.routes
  }

  function ArmAsked(c: nat, mcpId: nat, id: string, minutes: Option<real>, now: int): Event {
    Requested(c, mcpId, OfProfile(Some(id), ArmFor(minutes)), now)
  }

  /** After an ARM of a claimed profile an armed operation for it goes out until the
      clamped minutes are over, and not after. */
  lemma ArmOpensItsWindow(b: Broker, c: nat, mcpId: nat, id: string, minutes: Option<real>, now: int, d: nat, at: int)
    requires Reaches(b, c, id) && b.routes[id].claimed && d in b.conns && b.conns[d].role == Mcp
    ensures GoesOut(Step(b, ArmAsked(c, mcpId, id, minutes, now)), d, id, true, true, at) <==> at < now + ClampArmMinutes(minutes) * 60_000
  {
  }

  /** Of an unclaimed profile it opens nothing, not even for when it is claimed. */
  lemma UnclaimedIsNotArmed(b: Broker, c: nat, mcpId: nat, id: string, minutes: Option<real>, now: int)
    requires Reaches(b, c, id) && !b.routes[id].claimed
    ensures var t := Step(b, ArmAsked(c, mcpId, id, minutes, now));
            t.routes == b.routes && forall x, at :: at >= now ==> (IsArmed(t.grants, x, at) <==> IsArmed(b.grants, x, at))
  {
  }

  /** The window of `id` is closed in `t`, and every other is as it was. */
  ghost predicate ClosesOnly(b: Broker, t: Broker, id: string) {
    id !in t.grants.until && forall x :: x != id ==> (x in t.grants.until <==> x in b.grants.until) && (x in b.grants.until ==> t.grants.until[x] == b.grants.until[x])
  }

  lemma DisarmCloses(b: Broker, c: nat, mcpId: nat, id: string, now: int)
    requires Reaches(b, c, id)
    ensures ClosesOnly(b, Step(b, Requested(c, mcpId, OfProfile(Some(id), DisarmIt), now)), id)
  {
  }

  /** A window that a request finds over is forgotten, and one that is not is as it
      was; no other is looked at. */
  lemma OverIsForgotten(b: Broker, c: nat, mcpId: nat, id: string, armedTier: bool, passes: bool, now: int)
    requires Reaches(b, c, id) && b.conns[c].role == Mcp
    ensures Step(b, Asks(c, mcpId, id, armedTier, passes, now)).grants.until ==
              if id in b.grants.until && b.grants.until[id] <= now then b.grants.until - {id} else b.grants.until
  {
  }

  /** The event leaves the window of `id` alone: it does not arm or disarm it, its
      identity does not change, panic stays off, and nothing is asked of it at or
      past the end of the window. */
  ghost predicate Leaves(b: Broker, e: Event, id: string, until: int) {
    match e
    case Requested(c, _, ask, now) =>
      ask != Trip && (ask.OfProfile? && ask.target == Some(id) ==> now < until && !ask.what.ArmFor? && !ask.what.DisarmIt?)
    case RegistrationResumes(r, _, changed) => changed && r in b.regs ==> b.regs[r].installId != id
    case Drifts(x) => x != id
    case PanicFile(there) => !there
    case _ => true
  }

  ghost predicate Lasts(b: Broker, id: string, until: int) { !b.panic.file && id in b.grants.until && b.grants.until[id] == until }

  lemma CheckOpen(b: Broker, id: string, until: int)
    requires Lasts(b, id, until)
    ensures Lasts(Check(b), id, until) && !Check(b).panic.active
  {
  }

  lemma RequestOpen(b: Broker, c: nat, mcpId: nat, ask: Ask, now: int, id: string, until: int)
    requires Lasts(b, id, until) && Leaves(b, Requested(c, mcpId, ask, now), id, until)
    ensures Lasts(Request(b, c, mcpId, ask, now), id, until)
  {
    CheckOpen(b, id, until);
  }

  lemma RegisteredOpen(b: Broker, r: Reg, claimed: bool, changed: bool, id: string, until: int)
    requires Lasts(b, id, until) && (changed ==> r.installId != id)
    ensures Lasts(Registered(b, r, claimed, changed), id, until)
  {
    CheckOpen(b, id, until);
  }

  lemma StepLasts(b: Broker, e: Event, id: string, until: int)
    requires Enabled(b, e) && Lasts(b, id, until) && Leaves(b, e, id, until)
    ensures Lasts(Step(b, e), id, until)
  {
    match e
    case Requested(c, mcpId, ask, now) => RequestOpen(b, c, mcpId, ask, now, id, until);
    case RegistrationResumes(r, claimed, changed) => RegisteredOpen(b.(regs := b.regs - {r}), b.regs[r], claimed, changed, id, until);
    case Connect(c, role) => CheckOpen(b.(conns := b.conns[c := Conn(role, false, false, false, false, false)]), id, until);
    case Registers(c, x) => CheckOpen(b.(conns := b.conns[c := b.conns[c].(asked := true)]), id, until);
    case Watch => CheckOpen(b, id, until);
    case _ =>
  }

  ghost predicate AllLeave(b: Broker, es: seq<Event>, id: string, until: int)
    decreases es
  {
    es != [] && Enabled(b, es[0]) ==> Leaves(b, es[0], id, until) && AllLeave(Step(b, es[0]), es[1..], id, until)
  }

  lemma {:induction false} RunLasts(b: Broker, es: seq<Event>, t: Broker, id: string, until: int)
    requires Run(b, es, t) && Lasts(b, id, until) && AllLeave(b, es, id, until)
    ensures Lasts(t, id, until)
    decreases es
  {
    if es != [] {
      StepLasts(b, es[0], id, until);
      RunLasts(Step(b, es[0]), es[1..], t, id, until);
    }
  }

  /** A window lasts: whatever else happens, and however often its profile leaves and
      registers again, an armed operation goes out to the end of it, and not after. */
  lemma AnArmLasts(b: Broker, c: nat, mcpId: nat, id: string, minutes: Option<real>, now: int, es: seq<Event>, t: Broker,
      d: nat, at: int)
    requires Reaches(b, c, id) && b.routes[id].claimed && Run(Step(b, ArmAsked(c, mcpId, id, minutes, now)), es, t)
    requires AllLeave(Step(b, ArmAsked(c, mcpId, id, minutes, now)), es, id, now + ClampArmMinutes(minutes) * 60_000)
    requires d in t.conns && t.conns[d].role == Mcp && id in t.routes && t.routes[id].claimed
    ensures GoesOut(t, d, id, true, true, at) <==> at < now + ClampArmMinutes(minutes) * 60_000
  {
    RunLasts(Step(b, ArmAsked(c, mcpId, id, minutes, now)), es, t, id, now + ClampArmMinutes(minutes) * 60_000);
  }

  /* ---- routes that go, and what was asked of them ---- */

  /** Of what was in flight exactly the requests of the route `serial` are over, each
      finished and logged once more; the others wait as before. */
  ghost predicate Swept(b: Broker, t: Broker, serial: nat) {
    && (forall n :: n in t.q.pendings <==> n in b.q.pendings && b.q.pendings[n].route != serial)
    && (forall n :: t.q.finished[n] == b.q.finished[n] + if n in b.q.pendings && b.q.pendings[n].route == serial then 1 else 0)
    && t.q.timers == b.q.timers - OnRoute(b.q, serial)
  }

  /** And who asked for them is told, each under its own id, if its connection is
      there in `conns`. */
  ghost predicate Informed(b: Broker, t: Broker, serial: nat, conns: map<nat, Conn>) {
    forall n: nat, d: nat, m: nat :: t.q.answers[Answer(d, m, n)] == b.q.answers[Answer(d, m, n)] +
      if n in b.q.pendings && b.q.pendings[n].route == serial && b.q.pendings[n].caller == Some(d) && b.q.pendings[n].mcpId == m && Open(conns, d)
      then 1 else 0
  }

  lemma SweepInforms(b: Broker, t: Broker, serial: nat, conns: map<nat, Conn>)
    requires t.q.answers == Finish(b.q, conns, OnRoute(b.q, serial)).answers
    ensures Informed(b, t, serial, conns)
  {
    var told := Told(b.q, conns, OnRoute(b.q, serial));
    forall n: nat, d: nat, m: nat ensures Answer(d, m, n) in told <==>
        n in b.q.pendings && b.q.pendings[n].route == serial && b.q.pendings[n].caller == Some(d) && b.q.pendings[n].mcpId == m && Open(conns, d) {
    }
  }

  /** No other connection is closed. */
  ghost predicate ClosesConn(b: Broker, t: Broker, c: nat) {
    t.conns.Keys == b.conns.Keys && forall d :: d in b.conns ==> t.conns[d] == if d == c then b.conns[d].(closed := true) else b.conns[d]
  }

  lemma EvictedRouteGoes(b: Broker, id: string)
    requires id in b.routes
    ensures var t := Step(b, Evicts(id));
            t.routes == b.routes - {id} && ClosesConn(b, t, b.routes[id].conn) && Swept(b, t, b.routes[id].serial) && Informed(b, t, b.routes[id].serial, b.conns) && t.grants == b.grants
  {
    SweepInforms(b, Step(b, Evicts(id)), b.routes[id].serial, b.conns);
  }

  /** A connection that closes takes its route, what was asked of it, and its own
      claim to what it asked. */
  lemma ClosedRouteGoes(b: Broker, c: nat, own: Option<string>)
    requires Enabled(b, SocketCloses(c, own))
    ensures var t := Step(b, SocketCloses(c, own));
            && ClosesConn(b, t, c) && t.grants == b.grants
            && (if own.Some? then t.routes == b.routes - {own.value} && Swept(b, t, b.routes[own.value].serial) && Informed(b, t, b.routes[own.value].serial, t.conns)
                else t.routes == b.routes && t.q.pendings.Keys == b.q.pendings.Keys)
            && (forall n :: n in t.q.pendings ==> t.q.pendings[n].caller == if b.q.pendings[n].caller == Some(c) then None else b.q.pendings[n].caller)
  {
    if own.Some? { SweepInforms(b, Step(b, SocketCloses(c, own)), b.routes[own.value].serial, Destroy(b.conns, {c})); }
  }

  /** A profile whose identity changed is unclaimed and disarmed, and what was asked
      of it is over; its route stays. */
  lemma DriftedProfileIsDropped(b: Broker, id: string)
    requires id in b.routes
    ensures var t := Step(b, Drifts(id));
            if b.routes[id].claimed
            then t.routes == b.routes[id := b.routes[id].(claimed := false)] && ClosesOnly(b, t, id) && Swept(b, t, b.routes[id].serial)
                 && Informed(b, t, b.routes[id].serial, b.conns) && t.conns == b.conns
            else t == b
  {
    if b.routes[id].claimed { SweepInforms(b, Step(b, Drifts(id)), b.routes[id].serial, b.conns); }
  }

  /* ---- registrations ---- */

  /** Nothing in flight is over. */
  ghost predicate NoneSwept(b: Broker, t: Broker) { t.q == b.q }

  /** A registration that resumes in peace routes its profile to its own connection,
      and answers it ok. An older route on another connection is over, with what was
      asked of it, and that connection closes once it is told; one on this very
      connection is renewed, and what was asked of it goes on. */
  lemma RegistrationRoutes(b: Broker, t: nat, claimed: bool)
    requires t in b.regs && !b.panic.file && !b.panic.active && Open(b.conns, b.regs[t].conn)
    ensures var r, u := b.regs[t], Step(b, RegistrationResumes(t, claimed, false));
            && u.routes == b.routes[r.installId := Route(b.next, r.conn, claimed)]
            && u.conns[r.conn] == b.conns[r.conn].(accepted := true)
            && (if r.installId in b.routes && b.routes[r.installId].conn != r.conn
                then Swept(b, u, b.routes[r.installId].serial) && Informed(b, u, b.routes[r.installId].serial, b.conns)
                     && (Open(b.conns, b.routes[r.installId].conn) ==> u.conns[b.routes[r.installId].conn] == b.conns[b.routes[r.installId].conn].(closing := true))
                else NoneSwept(b, u))
            && (forall d :: d in b.conns && d != r.conn && (r.installId in b.routes ==> d != b.routes[r.installId].conn) ==> u.conns[d] == b.conns[d])
            && u.grants == b.grants
  {
    var r, u := b.regs[t], Step(b, RegistrationResumes(t, claimed, false));
    if r.installId in b.routes && b.routes[r.installId].conn != r.conn { SweepInforms(b, u, b.routes[r.installId].serial, b.conns); }
  }

  /** One whose identity changed comes out unclaimed and disarmed. */
  lemma ChangedRegistrationIsUnclaimed(b: Broker, t: nat, claimed: bool)
    requires t in b.regs && !b.panic.file && !b.panic.active && Open(b.conns, b.regs[t].conn)
    ensures var r, u := b.regs[t], Step(b, RegistrationResumes(t, claimed, true));
            u.routes == b.routes[r.installId := Route(b.next, r.conn, false)] && ClosesOnly(b, u, r.installId)
  {
  }

  /** A claim names a profile if its directory is known, and changes nothing else. */
  lemma ClaimNames(b: Broker, c: nat, mcpId: nat, id: string, dirKnown: bool, now: int)
    requires Reaches(b, c, id)
    ensures var t := Step(b, Requested(c, mcpId, OfProfile(Some(id), ClaimIt(dirKnown)), now));
            && t.routes == b.routes[id := b.routes[id].(claimed := b.routes[id].claimed || dirKnown)]
            && t.q == b.q && t.conns == b.conns && (forall x :: IsArmed(t.grants, x, now) <==> IsArmed(b.grants, x, now))
  {
  }

  /* ---- panic ---- */

  /** Panic goes on: every routed connection but the one that asked is closed, that
      one closes after its answer, and no other is touched. */
  lemma TripPutsOut(b: Broker, c: nat, mcpId: nat, now: int)
    requires c in b.conns && !b.panic.file && !b.panic.active
    ensures var t := Step(b, Requested(c, mcpId, Trip, now));
            && t.panic == Panic(true, true) && t.routes.Keys == {} && t.grants.until.Keys == {} && t.q.pendings.Keys == {}
            && t.conns.Keys == b.conns.Keys
            && (forall d :: d in b.conns && d != c ==>
                  t.conns[d] == if exists id :: id in b.routes && b.routes[id].conn == d then b.conns[d].(closed := true) else b.conns[d])
            && t.conns[c] == if b.conns[c].closed then b.conns[c] else b.conns[c].(closing := true)
  {
    var t := Step(b, Requested(c, mcpId, Trip, now));
    forall d | d in b.conns ensures d in RouteConns(b.routes) <==> exists id :: id in b.routes && b.routes[id].conn == d { }
  }

  /** Panic goes off by a request if and only if a browser that is held asks, and the
      file could be removed. Every held connection is then closed, the one that asked
      once it is answered, and no other is touched. */
  lemma ResumeIff(b: Broker, c: nat, mcpId: nat, removed: bool, now: int)
    requires b.panic == Panic(true, true)
    ensures var t := Step(b, Requested(c, mcpId, Resume(removed), now));
            if c in b.conns && b.conns[c].role == Host && b.conns[c].held && removed then
              && t.panic == Panic(false, false) && t.conns.Keys == b.conns.Keys
              && (forall d :: d in b.conns && d != c ==> t.conns[d] == if b.conns[d].held then b.conns[d].(closed := true) else b.conns[d])
              && t.conns[c] == if b.conns[c].closed then b.conns[c] else b.conns[c].(closing := true)
            else t.panic == Panic(true, true) && t.routes == b.routes && t.q == b.q && t.grants == b.grants
  {
  }

  /** Who may not ask is closed, and nothing else changes: a client that would resume,
      a browser that would drive another. */
  lemma ForbiddenIsClosed(b: Broker, c: nat, mcpId: nat, ask: Ask, now: int)
    requires c in b.conns && (if b.conns[c].role == Mcp then ask.Resume? else ask.OfProfile? && ask.what.Forward?)
    ensures var t := Step(b, Requested(c, mcpId, ask, now));
            ClosesConn(b, t, c) && t.(conns := b.conns) == b
  {
  }

  /** A registration during panic is held, and answered with nothing else. */
  lemma RegisterInPanicIsHeld(b: Broker, c: nat, id: string)
    requires c in b.conns && b.panic == Panic(true, true)
    ensures Step(b, Registers(c, id)) == b.(conns := b.conns[c := b.conns[c].(asked := true, held := true)])
  {
  }

  /** The file is looked at: what it says becomes so. */
  lemma WatchFollowsTheFile(b: Broker)
    ensures var t := Step(b, Watch);
            && t.panic == Panic(b.panic.file, b.panic.file)
            && (b.panic.active == b.panic.file ==> t == b)
            && (b.panic.file && !b.panic.active ==>
                  (t.routes.Keys == {} && t.q.pendings.Keys == {} && t.grants.until.Keys == {}
                   && forall d :: d in b.conns ==>
                        t.conns[d] == if exists id :: id in b.routes && b.routes[id].conn == d then b.conns[d].(closed := true) else b.conns[d]))
            && (!b.panic.file && b.panic.active ==>
                  (t.routes == b.routes && t.q == b.q && t.grants == b.grants
                   && forall d :: d in b.conns ==> t.conns[d] == if b.conns[d].held then b.conns[d].(closed := true) else b.conns[d]))
  {
    forall d | d in b.conns ensures d in RouteConns(b.routes) <==> exists id :: id in b.routes && b.routes[id].conn == d { }
  }

  /** One that was suspended when panic came on is held when it resumes; one whose
      connection closed meanwhile is dropped. */
  lemma SuspendedRegistrationIsHeld(b: Broker, t: nat, claimed: bool, changed: bool)
    requires t in b.regs
    ensures var r, u := b.regs[t], Step(b, RegistrationResumes(t, claimed, changed));
            && (!Open(b.conns, r.conn) ==> u == b.(regs := b.regs - {t}))
            && (Open(b.conns, r.conn) && b.panic == Panic(true, true) ==>
                  u == b.(regs := b.regs - {t}, conns := b.conns[r.conn := b.conns[r.conn].(held := true)]))
  {
  }

  /** In peace a connection comes with nothing, and its REGISTER waits for the identity
      behind it. */
  lemma RegisterWaitsInPeace(b: Broker, c: nat, role: Role, id: string)
    requires !b.panic.file && !b.panic.active
    ensures c !in b.conns ==> Step(b, Connect(c, role)) == b.(conns := b.conns[c := Conn(role, false, false, false, false, false)])
    ensures c in b.conns ==> Step(b, Registers(c, id)) == b.(conns := b.conns[c := b.conns[c].(asked := true)],
                                                            regs := b.regs[b.next := Reg(c, id)], next := b.next + 1)
  {
  }

  /** A connection that is destroyed is closed, and no other; a file that comes or goes
      is not acted on before it is looked at; and a question about the board changes
      nothing. */
  lemma DestroyedIsClosed(b: Broker, c: nat, mcpId: nat, there: bool, now: int)
    ensures var t := Step(b, Destroys(c)); ClosesConn(b, t, c) && t.(conns := b.conns) == b
    ensures Step(b, PanicFile(there)) == b.(panic := Panic(there, b.panic.active))
    ensures c in b.conns && b.panic.active == b.panic.file ==> Step(b, Requested(c, mcpId, Board, now)) == b
  {
  }
}
