/** What the broker keeps over every run: nothing lives through panic, every
    request completes once, and every armed operation was granted. */
module BrokerTheorems {
  import opened Prelude
  import opened Broker

  /* ---- panic ---- */

  /** While the switch is active there is no route, no request and no arm. */
  ghost predicate Quiet(b: Broker) {
    b.panic.active ==> b.routes.Keys == {} && b.q.pendings.Keys == {} && b.grants.until.Keys == {}
  }

  lemma CheckQuiet(b: Broker)
    requires Quiet(b)
    ensures Quiet(Check(b)) && (Check(b).panic.active <==> b.panic.file)
    ensures !Check(b).panic.active ==> Check(b).routes == b.routes && Check(b).q == b.q && Check(b).grants == b.grants && Check(b).regs == b.regs
  {
  }

  lemma RegisteredQuiet(b: Broker, r: Reg, claimed: bool, changed: bool)
    requires Quiet(b)
    ensures Quiet(Registered(b, r, claimed, changed))
  {
    CheckQuiet(b);
  }

  lemma RequestQuiet(b: Broker, c: nat, mcpId: nat, ask: Ask, now: int)
    requires Quiet(b)
    ensures Quiet(Request(b, c, mcpId, ask, now))
  {
    CheckQuiet(b);
  }

  lemma StepQuiet(b: Broker, e: Event)
    requires Quiet(b) && Enabled(b, e)
    ensures Quiet(Step(b, e))
  {
    match e
    case Connect(c, role) => CheckQuiet(b.(conns := b.conns[c := Conn(role, false, false, false, false, false)]));
    case Registers(c, id) => CheckQuiet(b.(conns := b.conns[c := b.conns[c].(asked := true)]));
    case RegistrationResumes(r, claimed, changed) => RegisteredQuiet(b.(regs := b.regs - {r}), b.regs[r], claimed, changed);
    case Requested(c, mcpId, ask, now) => RequestQuiet(b, c, mcpId, ask, now);
    case Watch => CheckQuiet(b);
    case Responds(_, _) =>
    case TimesOut(_) =>
    case Destroys(_) =>
    case SocketCloses(_, _) =>
    case Evicts(_) =>
    case Drifts(_) =>
    case PanicFile(_) =>
  }

  lemma {:induction false} RunQuiet(b: Broker, es: seq<Event>, b': Broker)
    requires Quiet(b) && Run(b, es, b')
    ensures Quiet(b')
    decreases es
  {
    if es != [] {
      StepQuiet(b, es[0]);
      RunQuiet(Step(b, es[0]), es[1..], b');
    }
  }

  /** However panic came about, and whatever was suspended when it did, nothing
      is routed, in flight or armed while it is active. */
  lemma PanicLeavesNothing(file: bool, es: seq<Event>, b: Broker)
    requires Run(Init(file), es, b) && b.panic.active
    ensures b.routes.Keys == {} && b.q.pendings.Keys == {} && b.grants.until.Keys == {}
  {
    RunQuiet(Init(file), es, b);
  }

  /* ---- requests ---- */

  ghost predicate For(p: Pending, o: Origin) {
    p.mcpId == o.mcpId && (p.caller.Some? ==> p.caller.value == o.conn)
  }

  /** The books of the requests: what is in flight has a timer, and whatever was
      forwarded and is not is finished, and logged, once. */
  ghost predicate Booked(q: Requests) {
    && q.timers == q.pendings.Keys && q.pendings.Keys <= q.origin.Keys
    && (forall id :: id in q.origin ==> id < q.next)
    && (forall id :: q.finished[id] == if id in q.origin && id !in q.pendings then 1 else 0)
    && q.lines == q.finished
    && (forall id :: id in q.pendings ==> For(q.pendings[id], q.origin[id]))
  }

  /** No request is answered twice, nor before it is finished, nor to anyone
      but who asked, under its own id. */
  ghost predicate Answered(q: Requests) {
    forall a :: q.answers[a] <= 1 &&
      (q.answers[a] == 1 ==> a.id in q.origin && a.id !in q.pendings && q.origin[a.id] == Origin(a.conn, a.mcpId))
  }

  lemma FinishBooked(q: Requests, conns: map<nat, Conn>, ids: set<nat>)
    requires Booked(q) && ids <= q.pendings.Keys
    ensures Booked(Finish(q, conns, ids))
  {
  }

  lemma FinishAnswered(q: Requests, conns: map<nat, Conn>, ids: set<nat>)
    requires Booked(q) && Answered(q) && ids <= q.pendings.Keys
    ensures Answered(Finish(q, conns, ids))
  {
    var told, r := Told(q, conns, ids), Finish(q, conns, ids);
    forall a ensures r.answers[a] <= 1 && (r.answers[a] == 1 ==> a.id in r.origin && a.id !in r.pendings && r.origin[a.id] == Origin(a.conn, a.mcpId)) {
      assert r.answers[a] == q.answers[a] + multiset(told)[a];
      if a in told { assert a.id in ids && a.id in q.pendings; }
    }
  }

  ghost predicate Sane(q: Requests) { Booked(q) && Answered(q) }

  lemma FinishSane(q: Requests, conns: map<nat, Conn>, ids: set<nat>)
    requires Sane(q) && ids <= q.pendings.Keys
    ensures Sane(Finish(q, conns, ids))
  {
    FinishBooked(q, conns, ids);
    FinishAnswered(q, conns, ids);
  }

  lemma SendSane(q: Requests, c: nat, mcpId: nat, r: Route)
    requires Sane(q)
    ensures Sane(Send(q, c, mcpId, r))
  {
  }

  lemma OrphanSane(q: Requests, c: nat)
    requires Sane(q)
    ensures Sane(Orphan(q, c))
  {
  }

  lemma CheckSane(b: Broker)
    requires Sane(b.q)
    ensures Sane(Check(b).q)
  {
    FinishSane(b.q, b.conns, b.q.pendings.Keys);
  }

  lemma AttachSane(b: Broker, c: nat, id: string, claimed: bool)
    requires Sane(b.q)
    ensures Sane(Attach(b, c, id, claimed).q)
  {
    if id in b.routes { FinishSane(b.q, b.conns, OnRoute(b.q, b.routes[id].serial)); }
  }

  lemma DropSane(b: Broker, id: string)
    requires Sane(b.q) && id in b.routes
    ensures Sane(DropClaim(b, id).q)
  {
    FinishSane(b.q, b.conns, OnRoute(b.q, b.routes[id].serial));
  }

  lemma RegisteredSane(b: Broker, r: Reg, claimed: bool, changed: bool)
    requires Sane(b.q)
    ensures Sane(Registered(b, r, claimed, changed).q)
  {
    CheckSane(b);
    if Open(b.conns, r.conn) && !Check(b).panic.active {
      AttachSane(Check(b), r.conn, r.installId, claimed);
      if changed { DropSane(Attach(Check(b), r.conn, r.installId, claimed), r.installId); }
    }
  }

  lemma ToProfileSane(b: Broker, c: nat, mcpId: nat, id: string, what: What, now: int)
    requires Sane(b.q) && id in b.routes
    ensures Sane(ToProfile(b, c, mcpId, id, what, now).q)
  {
    SendSane(b.q, c, mcpId, b.routes[id]);
  }

  lemma RequestSane(b: Broker, c: nat, mcpId: nat, ask: Ask, now: int)
    requires Sane(b.q)
    ensures Sane(Request(b, c, mcpId, ask, now).q)
  {
    if c in b.conns && MayAsk(b.conns[c].role, ask) {
      CheckSane(b);
      var b1 := Check(b);
      match ask
      case Trip => FinishSane(b1.q, SendAndClose(b1.conns, c), b1.q.pendings.Keys);
      case OfProfile(target, what) =>
        if target.Some? && target.value in b1.routes { ToProfileSane(b1, c, mcpId, target.value, what, now); }
      case Board =>
      case Resume(_) =>
    }
  }

  lemma ClosedSane(b: Broker, c: nat, own: Option<string>)
    requires Sane(b.q)
    ensures Sane(Closed(b, c, own).q)
  {
    OrphanSane(b.q, c);
    if own.Some? && own.value in b.routes {
      var conns, ids := Destroy(b.conns, {c}), OnRoute(b.q, b.routes[own.value].serial);
      FinishSane(b.q, conns, ids);
      OrphanSane(Finish(b.q, conns, ids), c);
    }
  }

  lemma RegisterSane(b: Broker, c: nat, id: string)
    requires Sane(b.q) && c in b.conns
    ensures Sane(Register(b, c, id).q)
  {
    CheckSane(b.(conns := b.conns[c := b.conns[c].(asked := true)]));
  }

  lemma EvictSane(b: Broker, id: string)
    requires Sane(b.q)
    ensures Sane(Evict(b, id).q)
  {
    if id in b.routes { FinishSane(b.q, b.conns, OnRoute(b.q, b.routes[id].serial)); }
  }

  lemma RespondSane(b: Broker, c: nat, id: nat)
    requires Sane(b.q)
    ensures Sane(Respond(b, c, id).q)
  {
    if id in b.q.pendings { FinishSane(b.q, b.conns, {id}); }
  }

  lemma StepSane(b: Broker, e: Event)
    requires Sane(b.q) && Enabled(b, e)
    ensures Sane(Step(b, e).q)
  {
    match e
    case Connect(c, role) => CheckSane(b.(conns := b.conns[c := Conn(role, false, false, false, false, false)]));
    case Registers(c, id) => RegisterSane(b, c, id);
    case RegistrationResumes(r, claimed, changed) => RegisteredSane(b.(regs := b.regs - {r}), b.regs[r], claimed, changed);
    case Requested(c, mcpId, ask, now) => RequestSane(b, c, mcpId, ask, now);
    case Responds(c, id) => RespondSane(b, c, id);
    case TimesOut(id) => FinishSane(b.q, b.conns, {id});
    case Destroys(_) =>
    case SocketCloses(c, own) => ClosedSane(b, c, own);
    case Evicts(id) => EvictSane(b, id);
    case Drifts(id) => if id in b.routes && b.routes[id].claimed { DropSane(b, id); }
    case PanicFile(_) =>
    case Watch => CheckSane(b);
  }

  lemma {:induction false} RunSane(b: Broker, es: seq<Event>, b': Broker)
    requires Sane(b.q) && Run(b, es, b')
    ensures Sane(b'.q)
    decreases es
  {
    if es != [] {
      StepSane(b, es[0]);
      RunSane(Step(b, es[0]), es[1..], b');
    }
  }

  /** Every forwarded request is in flight, with its timer running, or finished
      and logged exactly once; its caller is answered at most once, under its
      own id, and nobody else is. */
  lemma EveryRequestCompletesOnce(file: bool, es: seq<Event>, b: Broker, id: nat)
    requires Run(Init(file), es, b)
    ensures b.q.finished[id] == b.q.lines[id] == (if id in b.q.origin && id !in b.q.pendings then 1 else 0)
    ensures id in b.q.pendings <==> id in b.q.timers
    ensures forall a: Answer :: a.id == id && b.q.answers[a] > 0 ==>
              b.q.answers[a] == 1 && id in b.q.origin && b.q.origin[id] == Origin(a.conn, a.mcpId) && b.q.finished[id] == 1
  {
    RunSane(Init(file), es, b);
  }

  /** However a request is finished, its caller hears of it exactly when it is
      still there. */
  lemma FinishTells(q: Requests, conns: map<nat, Conn>, ids: set<nat>, id: nat, d: nat)
    requires Sane(q) && ids <= q.pendings.Keys && id in ids
    ensures var p := q.pendings[id];
            Finish(q, conns, ids).answers[Answer(d, p.mcpId, id)] == if p.caller == Some(d) && Open(conns, d) then 1 else 0
  {
    var p := q.pendings[id];
    assert q.answers[Answer(d, p.mcpId, id)] == 0;
    assert Answer(d, p.mcpId, id) in Told(q, conns, ids) <==> p.caller == Some(d) && Open(conns, d);
  }

  /** A request in flight can be finished by its timer, and an answer finishes
      it only when it comes from the connection of its own route. */
  lemma OnlyItsOwnRouteAnswers(b: Broker, c: nat, id: nat)
    requires Sane(b.q) && id in b.q.pendings
    ensures Enabled(b, TimesOut(id)) && Step(b, TimesOut(id)).q.finished[id] == 1
    ensures var after := Step(b, Responds(c, id));
            if b.q.pendings[id].routeConn == c then after.q.finished[id] == 1 && id !in after.q.pendings
            else after.q == b.q && !Open(after.conns, c)
  {
    FinishSane(b.q, b.conns, {id});
  }

  /* ---- arms ---- */

  /** The window the last ARM of `id` opened, if nothing closed it since. */
  ghost function Window(trail: seq<Note>, id: string): Option<int> {
    if trail == [] then None
    else
      var n := trail[|trail| - 1];
      if n == DisarmedAll || n == Disarmed(id) then None
      else if n.Armed? && n.installId == id then Some(n.until)
      else Window(trail[..|trail| - 1], id)
  }

  ghost predicate Granted(g: Grants) {
    && (forall id :: id in g.until ==> Window(g.trail, id) == Some(g.until[id]))
    && (forall k :: 0 <= k < |g.trail| && g.trail[k].Armed? ==> g.trail[k].until <= g.trail[k].at + MAX_ARM_MINUTES * 60_000)
    && (forall k :: 0 <= k < |g.trail| && g.trail[k].Sent? && g.trail[k].armedTier ==> InWindow(g.trail[..k], g.trail[k]))
  }

  ghost predicate InWindow(before: seq<Note>, n: Note)
    requires n.Sent?
  {
    Window(before, n.installId).Some? && Window(before, n.installId).value > n.at
  }

  lemma Clamped(minutes: Option<real>)
    ensures 1 <= ClampArmMinutes(minutes) <= MAX_ARM_MINUTES
    ensures minutes.None? || minutes.value <= 0.0 ==> ClampArmMinutes(minutes) == 15
    ensures minutes.Some? && 0.0 < minutes.value < 1.0 ==> ClampArmMinutes(minutes) == 1
    ensures minutes.Some? && minutes.value > 60.0 ==> ClampArmMinutes(minutes) == 60
    ensures minutes.Some? && 1.0 <= minutes.value <= 60.0 ==> -0.5 <= ClampArmMinutes(minutes) as real - minutes.value <= 0.5
  {
  }

  /** `t` is `g` with at most one note more, and only windows that are still open. */
  lemma NoteGranted(g: Grants, t: Grants, n: Note)
    requires Granted(g) && t.trail == g.trail + [n]
    requires forall id :: id in t.until ==> Window(t.trail, id) == Some(t.until[id])
    requires n.Armed? ==> n.until <= n.at + MAX_ARM_MINUTES * 60_000
    requires n.Sent? && n.armedTier ==> InWindow(g.trail, n)
    ensures Granted(t)
  {
    forall k | 0 <= k < |t.trail| && t.trail[k].Sent? && t.trail[k].armedTier ensures InWindow(t.trail[..k], t.trail[k]) {
      assert t.trail[..k] == g.trail[..k];
    }
  }

  lemma ArmGranted(g: Grants, id: string, minutes: Option<real>, now: int)
    requires Granted(g)
    ensures Granted(Arm(g, id, minutes, now))
  {
    Clamped(minutes);
    var t := Arm(g, id, minutes, now);
    assert t.trail[..|t.trail| - 1] == g.trail;
    NoteGranted(g, t, t.trail[|g.trail|]);
  }

  lemma DisarmGranted(g: Grants, id: string)
    requires Granted(g)
    ensures Granted(Disarm(g, id))
  {
    var t := Disarm(g, id);
    assert t.trail[..|t.trail| - 1] == g.trail;
    NoteGranted(g, t, Disarmed(id));
  }

  lemma DisarmAllGranted(g: Grants)
    requires Granted(g)
    ensures Granted(DisarmAll(g))
  {
    NoteGranted(g, DisarmAll(g), DisarmedAll);
  }

  lemma SentGranted(g: Grants, id: string, request: nat, armedTier: bool, now: int)
    requires Granted(g) && (armedTier ==> IsArmed(g, id, now))
    ensures Granted(Looked(g, id, now).(trail := g.trail + [Sent(id, request, armedTier, now)]))
  {
    var t := Looked(g, id, now).(trail := g.trail + [Sent(id, request, armedTier, now)]);
    assert t.trail[..|t.trail| - 1] == g.trail;
    NoteGranted(g, t, Sent(id, request, armedTier, now));
  }

  lemma ToProfileGranted(b: Broker, c: nat, mcpId: nat, id: string, what: What, now: int)
    requires Granted(b.grants) && id in b.routes
    ensures Granted(ToProfile(b, c, mcpId, id, what, now).grants)
  {
    var g := Looked(b.grants, id, now);
    match what
    case Forward(armedTier, _) => if armedTier ==> IsArmed(b.grants, id, now) { SentGranted(b.grants, id, b.q.next, armedTier, now); }
    case ArmFor(minutes) => ArmGranted(g, id, minutes, now);
    case DisarmIt => DisarmGranted(g, id);
    case ClaimIt(_) =>
    case OtherMeta =>
  }

  lemma CheckGranted(b: Broker)
    requires Granted(b.grants)
    ensures Granted(Check(b).grants)
  {
    DisarmAllGranted(b.grants);
  }

  lemma RequestGranted(b: Broker, c: nat, mcpId: nat, ask: Ask, now: int)
    requires Granted(b.grants)
    ensures Granted(Request(b, c, mcpId, ask, now).grants)
  {
    if c in b.conns && MayAsk(b.conns[c].role, ask) {
      CheckGranted(b);
      var b1 := Check(b);
      match ask
      case Trip => DisarmAllGranted(b1.grants);
      case OfProfile(target, what) =>
        if target.Some? && target.value in b1.routes { ToProfileGranted(b1, c, mcpId, target.value, what, now); }
      case Board =>
      case Resume(_) =>
    }
  }

  lemma RegisteredGranted(b: Broker, r: Reg, claimed: bool, changed: bool)
    requires Granted(b.grants)
    ensures Granted(Registered(b, r, claimed, changed).grants)
  {
    CheckGranted(b);
    DisarmGranted(Check(b).grants, r.installId);
  }

  lemma StepGranted(b: Broker, e: Event)
    requires Granted(b.grants) && Enabled(b, e)
    ensures Granted(Step(b, e).grants)
  {
    match e
    case Connect(c, role) => CheckGranted(b.(conns := b.conns[c := Conn(role, false, false, false, false, false)]));
    case Registers(c, id) => CheckGranted(b.(conns := b.conns[c := b.conns[c].(asked := true)]));
    case RegistrationResumes(r, claimed, changed) => RegisteredGranted(b.(regs := b.regs - {r}), b.regs[r], claimed, changed);
    case Requested(c, mcpId, ask, now) => RequestGranted(b, c, mcpId, ask, now);
    case Drifts(id) => if id in b.routes && b.routes[id].claimed { DisarmGranted(b.grants, id); }
    case Watch => CheckGranted(b);
    case Responds(_, _) =>
    case TimesOut(_) =>
    case Destroys(_) =>
    case SocketCloses(_, _) =>
    case Evicts(_) =>
    case PanicFile(_) =>
  }

  lemma {:induction false} RunGranted(b: Broker, es: seq<Event>, b': Broker)
    requires Granted(b.grants) && Run(b, es, b')
    ensures Granted(b'.grants)
    decreases es
  {
    if es != [] {
      StepGranted(b, es[0]);
      RunGranted(Step(b, es[0]), es[1..], b');
    }
  }

  /** Every request ever forwarded is noted where it was sent. */
  ghost predicate Noted(b: Broker) {
    forall id :: id in b.q.origin ==> SentAs(b.grants.trail, id)
  }

  ghost predicate SentAs(trail: seq<Note>, id: nat) {
    exists k :: 0 <= k < |trail| && trail[k].Sent? && trail[k].request == id
  }

  /** `t` comes after `b`: its trail goes on from there, and notes what it sends. */
  ghost predicate Follows(b: Broker, t: Broker) {
    && b.grants.trail <= t.grants.trail
    && forall id :: id in t.q.origin ==> id in b.q.origin || SentAs(t.grants.trail, id)
  }

  lemma ToProfileFollows(b: Broker, c: nat, mcpId: nat, id: string, what: What, now: int)
    requires id in b.routes
    ensures Follows(b, ToProfile(b, c, mcpId, id, what, now))
  {
    var t := ToProfile(b, c, mcpId, id, what, now);
    if t.q.origin != b.q.origin { assert t.grants.trail[|b.grants.trail|].Sent?; }
  }

  lemma RequestFollows(b: Broker, c: nat, mcpId: nat, ask: Ask, now: int)
    ensures Follows(b, Request(b, c, mcpId, ask, now))
  {
    CheckGoes(b);
    var b1 := Check(b);
    if ask.OfProfile? && ask.target.Some? && ask.target.value in b1.routes {
      ToProfileFollows(b1, c, mcpId, ask.target.value, ask.what, now);
    }
  }

  /** As Follows, of what sends nothing. */
  ghost predicate Goes(b: Broker, t: Broker) { b.grants.trail <= t.grants.trail && t.q.origin == b.q.origin }

  lemma CheckGoes(b: Broker)
    ensures Goes(b, Check(b))
  {
  }

  lemma AttachGoes(b: Broker, c: nat, id: string, claimed: bool)
    ensures Goes(b, Attach(b, c, id, claimed)) && id in Attach(b, c, id, claimed).routes
  {
  }

  lemma RegisteredGoes(b: Broker, r: Reg, claimed: bool, changed: bool)
    ensures Goes(b, Registered(b, r, claimed, changed))
  {
    CheckGoes(b);
    if !Check(b).panic.active { RoutedGoes(Check(b), r, claimed, changed); }
  }

  lemma RoutedGoes(b: Broker, r: Reg, claimed: bool, changed: bool)
    ensures r.installId in Attach(b, r.conn, r.installId, claimed).routes
    ensures var b2 := Attach(b, r.conn, r.installId, claimed);
            Goes(b, Accept(if changed then DropClaim(b2, r.installId) else b2, r.conn))
  {
    AttachGoes(b, r.conn, r.installId, claimed);
    DropGoes(Attach(b, r.conn, r.installId, claimed), r.installId);
  }

  lemma DropGoes(b: Broker, id: string)
    requires id in b.routes
    ensures Goes(b, DropClaim(b, id))
  {
  }

  lemma StepFollows(b: Broker, e: Event)
    requires Enabled(b, e)
    ensures Follows(b, Step(b, e))
  {
    match e
    case Requested(c, mcpId, ask, now) => RequestFollows(b, c, mcpId, ask, now);
    case RegistrationResumes(r, claimed, changed) => RegisteredGoes(b.(regs := b.regs - {r}), b.regs[r], claimed, changed);
    case Connect(_, _) =>
    case Registers(_, _) =>
    case Responds(_, _) =>
    case TimesOut(_) =>
    case Destroys(_) =>
    case SocketCloses(_, _) =>
    case Evicts(_) =>
    case Drifts(_) =>
    case PanicFile(_) =>
    case Watch =>
  }

  lemma StepNoted(b: Broker, e: Event)
    requires Noted(b) && Enabled(b, e)
    ensures Noted(Step(b, e))
  {
    StepFollows(b, e);
    var trail := Step(b, e).grants.trail;
    forall id | id in b.q.origin ensures SentAs(trail, id) {
      assert SentAs(b.grants.trail, id);
      var k :| 0 <= k < |b.grants.trail| && b.grants.trail[k].Sent? && b.grants.trail[k].request == id;
      assert trail[k] == b.grants.trail[k];
    }
  }

  lemma {:induction false} RunNoted(b: Broker, es: seq<Event>, b': Broker)
    requires Noted(b) && Run(b, es, b')
    ensures Noted(b')
    decreases es
  {
    if es != [] {
      StepNoted(b, es[0]);
      RunNoted(Step(b, es[0]), es[1..], b');
    }
  }

  lemma {:induction false} WindowOpened(trail: seq<Note>, id: string) returns (j: nat)
    requires Window(trail, id).Some?
    ensures j < |trail| && trail[j].Armed? && trail[j].installId == id && trail[j].until == Window(trail, id).value
    ensures forall i :: j < i < |trail| ==> trail[i] != DisarmedAll && trail[i] != Disarmed(id)
    ensures forall i :: j < i < |trail| && trail[i].Armed? ==> trail[i].installId != id
  {
    var n := |trail| - 1;
    if trail[n].Armed? && trail[n].installId == id {
      j := n;
    } else {
      j := WindowOpened(trail[..n], id);
    }
  }

  /** Every armed operation sent for a profile follows an ARM of that very
      profile less than the clamped maximum earlier, with no disarm, dropped
      identity or panic in between. */
  lemma ArmedOpsWereGranted(file: bool, es: seq<Event>, b: Broker, k: nat) returns (j: nat)
    requires Run(Init(file), es, b)
    requires k < |b.grants.trail| && b.grants.trail[k].Sent? && b.grants.trail[k].armedTier
    ensures j < k && b.grants.trail[j].Armed? && b.grants.trail[j].installId == b.grants.trail[k].installId
    ensures b.grants.trail[k].at < b.grants.trail[j].until <= b.grants.trail[j].at + MAX_ARM_MINUTES * 60_000
    ensures forall i :: j < i < k ==> b.grants.trail[i] != DisarmedAll && b.grants.trail[i] != Disarmed(b.grants.trail[k].installId)
  {
    RunGranted(Init(file), es, b);
    assert InWindow(b.grants.trail[..k], b.grants.trail[k]);
    j := WindowOpened(b.grants.trail[..k], b.grants.trail[k].installId);
  }

  /** And every request ever forwarded is on that trail. */
  lemma EveryForwardIsNoted(file: bool, es: seq<Event>, b: Broker, id: nat)
    requires Run(Init(file), es, b) && id in b.q.origin
    ensures SentAs(b.grants.trail, id)
  {
    RunNoted(Init(file), es, b);
  }

  /* ---- held connections ---- */

  /** No connection sends REGISTER twice: a host relays one per browser port. */
  ghost predicate Orderly(b: Broker, es: seq<Event>)
    decreases es
  {
    es != [] && Enabled(b, es[0]) ==>
      (es[0].Registers? ==> !b.conns[es[0].c].asked) && Orderly(Step(b, es[0]), es[1..])
  }

  /** A connection whose registration waits, one that has a route, and one that
      was answered, each at most one of these things. */
  ghost predicate Sorted(b: Broker) {
    && (forall r :: r in b.regs ==> Waits(b, b.regs[r].conn))
    && (forall r, s :: r in b.regs && s in b.regs && b.regs[r].conn == b.regs[s].conn ==> r == s)
    && (forall id :: id in b.routes ==> b.routes[id].conn in b.conns && b.conns[b.routes[id].conn].asked && !b.conns[b.routes[id].conn].held)
    && (forall c :: c in b.conns ==> !(b.conns[c].held && b.conns[c].accepted) && ((b.conns[c].held || b.conns[c].accepted) ==> b.conns[c].asked))
    && (forall r :: r in b.regs ==> r < b.next)
  }

  ghost predicate Waits(b: Broker, c: nat) {
    && c in b.conns && b.conns[c].asked && !b.conns[c].held && !b.conns[c].accepted
    && forall id :: id in b.routes ==> b.routes[id].conn != c
  }

  /** `t` is `b` with routes gone and connections closed at most. */
  ghost predicate Tame(b: Broker, t: Broker) {
    && t.regs == b.regs && t.next == b.next && t.conns.Keys == b.conns.Keys
    && (forall c :: c in b.conns ==> t.conns[c].(closed := b.conns[c].closed, closing := b.conns[c].closing) == b.conns[c])
    && (forall id :: id in t.routes ==> id in b.routes && t.routes[id].conn == b.routes[id].conn)
  }

  lemma TameSorted(b: Broker, t: Broker)
    requires Sorted(b) && Tame(b, t)
    ensures Sorted(t) && forall c :: Waits(b, c) ==> Waits(t, c)
  {
  }

  lemma EnterTame(b: Broker, except: set<nat>)
    ensures Tame(b, EnterPanic(b, except))
  {
  }

  lemma LeaveTame(b: Broker, except: set<nat>)
    ensures Tame(b, LeavePanic(b, except))
  {
  }

  lemma CheckTame(b: Broker)
    ensures Tame(b, Check(b))
  {
    var c := b.(panic := Panic(b.panic.file, b.panic.file));
    EnterTame(c, {});
    LeaveTame(c, {});
  }

  lemma CheckSorted(b: Broker)
    requires Sorted(b)
    ensures Sorted(Check(b)) && Check(b).regs == b.regs && forall c :: Waits(b, c) ==> Waits(Check(b), c)
  {
    CheckTame(b);
    TameSorted(b, Check(b));
  }

  lemma HoldSorted(b: Broker, c: nat)
    requires Sorted(b) && Waits(b, c) && forall r :: r in b.regs ==> b.regs[r].conn != c
    ensures Sorted(Hold(b, c))
  {
  }

  lemma RegisterSorted(b: Broker, c: nat, id: string)
    requires Sorted(b) && c in b.conns && !b.conns[c].asked
    ensures Sorted(Register(b, c, id))
  {
    var b1 := b.(conns := b.conns[c := b.conns[c].(asked := true)]);
    assert Waits(b1, c);
    CheckSorted(b1);
    if Check(b1).panic.active { HoldSorted(Check(b1), c); }
  }

  lemma AttachSorted(b: Broker, c: nat, id: string, claimed: bool)
    requires Sorted(b) && Waits(b, c) && forall r :: r in b.regs ==> b.regs[r].conn != c
    ensures Sorted(Attach(b, c, id, claimed)) && c in Attach(b, c, id, claimed).conns
    ensures Attach(b, c, id, claimed).conns[c] == b.conns[c]
    ensures forall r :: r in b.regs ==> b.regs[r].conn != c
    ensures Attach(b, c, id, claimed).regs == b.regs && id in Attach(b, c, id, claimed).routes
  {
  }

  lemma AcceptSorted(b: Broker, c: nat)
    requires Sorted(b) && c in b.conns && b.conns[c].asked && !b.conns[c].held
    requires forall r :: r in b.regs ==> b.regs[r].conn != c
    ensures Sorted(Accept(b, c))
  {
  }

  lemma RegisteredSorted(b: Broker, r: Reg, claimed: bool, changed: bool)
    requires Sorted(b) && Waits(b, r.conn) && forall s :: s in b.regs ==> b.regs[s].conn != r.conn
    ensures Sorted(Registered(b, r, claimed, changed))
  {
    if Open(b.conns, r.conn) {
      CheckSorted(b);
      if Check(b).panic.active { HoldSorted(Check(b), r.conn); } else { RoutedSorted(Check(b), r, claimed, changed); }
    }
  }

  lemma RoutedSorted(b: Broker, r: Reg, claimed: bool, changed: bool)
    requires Sorted(b) && Waits(b, r.conn) && forall s :: s in b.regs ==> b.regs[s].conn != r.conn
    ensures var b2 := Attach(b, r.conn, r.installId, claimed);
            Sorted(Accept(if changed then DropClaim(b2, r.installId) else b2, r.conn))
  {
    AttachSorted(b, r.conn, r.installId, claimed);
    var b2 := Attach(b, r.conn, r.installId, claimed);
    if changed {
      TameSorted(b2, DropClaim(b2, r.installId));
      AcceptSorted(DropClaim(b2, r.installId), r.conn);
    } else {
      AcceptSorted(b2, r.conn);
    }
  }

  lemma ResumesSorted(b: Broker, t: nat, claimed: bool, changed: bool)
    requires Sorted(b) && t in b.regs
    ensures Sorted(Registered(b.(regs := b.regs - {t}), b.regs[t], claimed, changed))
  {
    assert Waits(b, b.regs[t].conn);
    RegisteredSorted(b.(regs := b.regs - {t}), b.regs[t], claimed, changed);
  }

  lemma ToProfileTame(b: Broker, c: nat, mcpId: nat, id: string, what: What, now: int)
    requires id in b.routes
    ensures Tame(b, ToProfile(b, c, mcpId, id, what, now))
  {
  }

  lemma RequestTame(b: Broker, c: nat, mcpId: nat, ask: Ask, now: int)
    requires c in b.conns && MayAsk(b.conns[c].role, ask)
    ensures Tame(Check(b), Request(b, c, mcpId, ask, now))
  {
    var b1 := Check(b);
    match ask
    case Board =>
    case Trip => TripTame(b1, c);
    case Resume(_) => ResumeTame(b1, c);
    case OfProfile(target, what) =>
      if target.Some? && target.value in b1.routes { ToProfileTame(b1, c, mcpId, target.value, what, now); }
  }

  lemma TripTame(b: Broker, c: nat)
    ensures Tame(b, EnterPanic(b.(panic := Panic(true, true), conns := SendAndClose(b.conns, c)), {c}))
  {
    EnterTame(b.(panic := Panic(true, true), conns := SendAndClose(b.conns, c)), {c});
  }

  lemma ResumeTame(b: Broker, c: nat)
    ensures Tame(b, LeavePanic(b.(panic := Panic(false, false), conns := SendAndClose(b.conns, c)), {c}))
  {
    LeaveTame(b.(panic := Panic(false, false), conns := SendAndClose(b.conns, c)), {c});
  }

  lemma RequestSorted(b: Broker, c: nat, mcpId: nat, ask: Ask, now: int)
    requires Sorted(b)
    ensures Sorted(Request(b, c, mcpId, ask, now))
  {
    if c in b.conns && MayAsk(b.conns[c].role, ask) {
      CheckSorted(b);
      RequestTame(b, c, mcpId, ask, now);
      TameSorted(Check(b), Request(b, c, mcpId, ask, now));
    } else {
      TameSorted(b, Request(b, c, mcpId, ask, now));
    }
  }

  lemma ConnectSorted(b: Broker, c: nat, role: Role)
    requires Sorted(b) && c !in b.conns
    ensures Sorted(Check(b.(conns := b.conns[c := Conn(role, false, false, false, false, false)])))
  {
    CheckSorted(b.(conns := b.conns[c := Conn(role, false, false, false, false, false)]));
  }

  lemma ClosedTame(b: Broker, c: nat, own: Option<string>)
    ensures Tame(b, Closed(b, c, own))
  {
  }

  lemma EvictTame(b: Broker, id: string)
    ensures Tame(b, Evict(b, id))
  {
  }

  lemma QuietStepTame(b: Broker, e: Event)
    requires Enabled(b, e) && !e.Connect? && !e.Registers? && !e.RegistrationResumes? && !e.Requested?
    ensures Tame(b, Step(b, e))
  {
    match e
    case SocketCloses(c, own) => ClosedTame(b, c, own);
    case Evicts(id) => EvictTame(b, id);
    case Watch => CheckTame(b);
    case Responds(c, id) => RespondTame(b, c, id);
    case Drifts(id) => if id in b.routes { DropTame(b, id); }
    case _ =>
  }

  lemma RespondTame(b: Broker, c: nat, id: nat)
    ensures Tame(b, Respond(b, c, id))
  {
  }

  lemma DropTame(b: Broker, id: string)
    requires id in b.routes
    ensures Tame(b, DropClaim(b, id))
  {
  }

  lemma StepSorted(b: Broker, e: Event)
    requires Sorted(b) && Enabled(b, e) && (e.Registers? ==> !b.conns[e.c].asked)
    ensures Sorted(Step(b, e))
  {
    if e.Connect? {
      ConnectSorted(b, e.c, e.role);
    } else if e.Registers? {
      RegisterSorted(b, e.c, e.installId);
    } else if e.RegistrationResumes? {
      ResumesSorted(b, e.reg, e.claimed, e.changed);
    } else if e.Requested? {
      RequestSorted(b, e.c, e.mcpId, e.ask, e.now);
    } else {
      QuietStepTame(b, e);
      TameSorted(b, Step(b, e));
    }
  }

  lemma {:induction false} RunSorted(b: Broker, es: seq<Event>, b': Broker)
    requires Sorted(b) && Run(b, es, b') && Orderly(b, es)
    ensures Sorted(b')
    decreases es
  {
    if es != [] {
      StepSorted(b, es[0]);
      RunSorted(Step(b, es[0]), es[1..], b');
    }
  }

  /** A connection answered with a panic hold is never answered with a route,
      nor the other way round: what the extension's link counts on. */
  lemma HeldIsNeverAccepted(file: bool, es: seq<Event>, b: Broker, c: nat)
    requires Run(Init(file), es, b) && Orderly(Init(file), es) && c in b.conns
    ensures !(b.conns[c].held && b.conns[c].accepted)
    ensures b.conns[c].held ==> forall id :: id in b.routes ==> b.routes[id].conn != c
  {
    RunSorted(Init(file), es, b);
  }
}
