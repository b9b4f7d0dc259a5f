/** The broker as it runs: maps that its handlers change in place, and the
    sweeps that go through them. Each handler does what Broker says. */
module BrokerProcess {
  import opened Prelude
  import B = Broker

  /** Sweeping one more request is sweeping it with the others. */
  lemma FinishOneMore(q: B.Requests, conns: map<nat, B.Conn>, ids: set<nat>, id: nat)
    requires ids <= q.pendings.Keys && id in q.pendings && id !in ids
    ensures B.Finish(B.Finish(q, conns, ids), conns, {id}) == B.Finish(q, conns, ids + {id})
  {
    var f := B.Finish(q, conns, ids);
    assert f.pendings - {id} == q.pendings - (ids + {id});
    assert f.timers - {id} == q.timers - (ids + {id});
    assert multiset(ids) + multiset({id}) == multiset(ids + {id});
    ToldOneMore(q, conns, ids, id);
  }

  lemma ToldOneMore(q: B.Requests, conns: map<nat, B.Conn>, ids: set<nat>, id: nat)
    requires ids <= q.pendings.Keys && id in q.pendings && id !in ids
    ensures multiset(B.Told(q, conns, ids)) + multiset(B.Told(B.Finish(q, conns, ids), conns, {id}))
         == multiset(B.Told(q, conns, ids + {id}))
  {
    var a, b := B.Told(q, conns, ids), B.Told(B.Finish(q, conns, ids), conns, {id});
    assert a !! b;
    assert a + b == B.Told(q, conns, ids + {id});
  }

  lemma DestroyOneMore(conns: map<nat, B.Conn>, cs: set<nat>, c: nat)
    ensures B.Destroy(B.Destroy(conns, cs), {c}) == B.Destroy(conns, cs + {c})
  {
  }

  class Broker {
    var panic: B.Panic
    var conns: map<nat, B.Conn>
    var routes: map<string, B.Route>
    var regs: map<nat, B.Reg>
    var grants: B.Grants
    var q: B.Requests
    var next: nat

    ghost function View(): B.Broker
      reads this
    {
      B.Broker(panic, conns, routes, regs, grants, q, next)
    }

    constructor (file: bool)
      ensures View() == B.Init(file)
    {
      panic := B.Panic(file, file);
      conns, routes, regs, next := map[], map[], map[], 0;
      grants := B.Grants(map[], []);
      q := B.Requests(map[], {}, 0, map[], multiset{}, multiset{}, multiset{});
    }

    method DestroyConn(c: nat)
      modifies this`conns
      ensures conns == B.Destroy(old(conns), {c})
    {
      if c in conns { conns := conns[c := conns[c].(closed := true)]; }
    }

    method SendAndClose(c: nat)
      modifies this`conns
      ensures conns == B.SendAndClose(old(conns), c)
    {
      if c in conns && !conns[c].closed { conns := conns[c := conns[c].(closing := true)]; }
    }

    method FinishOne(id: nat)
      modifies this`q
      ensures q == B.Finish(old(q), conns, {id})
    {
      ToldOne(q, conns, id);
      var told := multiset{};
      if id in q.pendings {
        var p := q.pendings[id];
        if p.caller.Some? && p.caller.value in conns && !conns[p.caller.value].closed {
          told := multiset{B.Answer(p.caller.value, p.mcpId, id)};
        }
      }
      q := q.(timers := q.timers - {id}, pendings := q.pendings - {id},
              lines := q.lines + multiset{id}, finished := q.finished + multiset{id}, answers := q.answers + told);
    }

    /** failPendingsFor, for the requests the predicate holds of. */
    method FailPendings(ids: set<nat>)
      requires ids <= q.pendings.Keys
      modifies this`q
      ensures q == B.Finish(old(q), conns, ids)
    {
      var left := ids;
      FinishNone(q, conns);
      while left != {}
        invariant left <= ids && q == B.Finish(old(q), conns, ids - left)
        decreases |left|
      {
        var id :| id in left;
        FinishOneMore(old(q), conns, ids - left, id);
        assert ids - (left - {id}) == ids - left + {id};
        FinishOne(id);
        left := left - {id};
      }
      assert ids - {} == ids;
    }

    method EnterPanic(except: set<nat>)
      modifies this`grants, this`q, this`routes, this`conns
      ensures View() == B.EnterPanic(old(View()), except)
    {
      grants := B.DisarmAll(grants);
      FailPendings(q.pendings.Keys);
      DropRoutes(except);
    }

    method DropRoutes(except: set<nat>)
      modifies this`routes, this`conns
      ensures routes == map[] && conns == B.Destroy(old(conns), B.RouteConns(old(routes)) - except)
    {
      ghost var all, closed: set<nat>, done := routes, {}, {};
      DestroyNone(conns);
      while routes.Keys != {}
        invariant routes.Keys <= all.Keys && done == all.Keys - routes.Keys
        invariant forall id :: id in routes ==> routes[id] == all[id]
        invariant closed == Done(all, done) - except && conns == B.Destroy(old(conns), closed)
        decreases routes.Keys
      {
        var id :| id in routes.Keys;
        var conn := routes[id].conn;
        routes := routes - {id};
        DoneOneMore(all, done, id, except);
        done := done + {id};
        if conn !in except {
          DestroyOneMore(old(conns), closed, conn);
          closed := closed + {conn};
          DestroyConn(conn);
        }
      }
      assert done == all.Keys;
      assert Done(all, all.Keys) == B.RouteConns(all);
    }

    method LeavePanic(except: set<nat>)
      modifies this`conns
      ensures View() == B.LeavePanic(old(View()), except)
    {
      var left := conns.Keys;
      DestroyNone(conns);
      while left != {}
        invariant left <= conns.Keys == old(conns).Keys
        invariant forall c :: c in left ==> conns[c] == old(conns)[c]
        invariant conns == B.Destroy(old(conns), HeldAmong(old(conns), old(conns).Keys - left) - except)
        decreases |left|
      {
        var c :| c in left;
        ghost var done := old(conns).Keys - left;
        assert old(conns).Keys - (left - {c}) == done + {c};
        HeldOneMore(old(conns), done, c, except);
        DestroyOneMore(old(conns), HeldAmong(old(conns), done) - except, c);
        if conns[c].held && c !in except { DestroyConn(c); }
        left := left - {c};
      }
      assert HeldAmong(old(conns), old(conns).Keys - {}) == B.Held(old(conns));
    }

    method Check()
      modifies this
      ensures View() == B.Check(old(View()))
    {
      var was := panic.active;
      panic := B.Panic(panic.file, panic.file);
      if was != panic.active {
        if panic.active { EnterPanic({}); } else { LeavePanic({}); }
      }
    }

    /** Answered with a typed refusal and kept open, without a route. */
    method Hold(c: nat)
      modifies this`conns
      ensures View() == B.Hold(old(View()), c)
    {
      if c in conns { conns := conns[c := conns[c].(held := true)]; }
    }

    /** handleRegister, up to its await. */
    method HandleRegister(c: nat, id: string)
      requires c in conns
      modifies this
      ensures View() == B.Register(old(View()), c, id)
    {
      conns := conns[c := conns[c].(asked := true)];
      Check();
      if panic.active {
        Hold(c);
      } else {
        regs := regs[next := B.Reg(c, id)];
        next := next + 1;
      }
    }

    method DropClaim(id: string)
      requires id in routes
      modifies this
      ensures View() == B.DropClaim(old(View()), id)
    {
      var serial := routes[id].serial;
      routes := routes[id := routes[id].(claimed := false)];
      grants := B.Disarm(grants, id);
      FailPendings(B.OnRoute(q, serial));
    }

    method Attach(c: nat, id: string, claimed: bool)
      modifies this
      ensures View() == B.Attach(old(View()), c, id, claimed)
    {
      var replaced := if id in routes then Some(routes[id]) else None;
      routes := routes[id := B.Route(next, c, claimed)];
      next := next + 1;
      if replaced.Some? && replaced.value.conn != c {
        FailPendings(B.OnRoute(q, replaced.value.serial));
        SendAndClose(replaced.value.conn);
      }
    }

    method Accept(c: nat)
      modifies this`conns
      ensures View() == B.Accept(old(View()), c)
    {
      if c in conns && !conns[c].closed { conns := conns[c := conns[c].(accepted := true)]; }
    }

    /** handleRegister, once the identity is resolved. */
    method RegistrationResumes(t: nat, claimed: bool, changed: bool)
      requires t in regs
      modifies this
      ensures View() == B.Step(old(View()), B.RegistrationResumes(t, claimed, changed))
    {
      var r := regs[t];
      regs := regs - {t};
      FinishRegistration(r, claimed, changed);
    }

    method FinishRegistration(r: B.Reg, claimed: bool, changed: bool)
      modifies this
      ensures View() == B.Registered(old(View()), r, claimed, changed)
    {
      if r.conn !in conns || conns[r.conn].closed { return; }
      Check();
      if panic.active { Hold(r.conn); return; }
      Attach(r.conn, r.installId, claimed);
      if changed { DropClaim(r.installId); }
      Accept(r.conn);
    }

    /** A request for one route, past the panic check. */
    method HandleProfileOp(c: nat, mcpId: nat, id: string, what: B.What, now: int)
      requires id in routes
      modifies this`grants, this`q, this`routes
      ensures View() == B.ToProfile(old(View()), c, mcpId, id, what, now)
    {
      var route := routes[id];
      var armed := B.IsArmed(grants, id, now);
      grants := B.Looked(grants, id, now);
      match what
      case Forward(armedTier, passes) =>
        if armedTier && !(route.claimed && armed) { return; }
        if passes { Forward(c, mcpId, id, armedTier, now); }
      case ArmFor(minutes) => if route.claimed { grants := B.Arm(grants, id, minutes, now); }
      case DisarmIt => grants := B.Disarm(grants, id);
      case ClaimIt(dirKnown) => if dirKnown { routes := routes[id := route.(claimed := true)]; }
      case OtherMeta =>
    }

    method Forward(c: nat, mcpId: nat, id: string, armedTier: bool, now: int)
      requires id in routes
      modifies this`grants, this`q
      ensures q == B.Send(old(q), c, mcpId, routes[id])
      ensures grants == old(grants).(trail := old(grants).trail + [B.Sent(id, old(q).next, armedTier, now)])
    {
      var brokerId := q.next;
      var pending := B.Pending(Some(c), mcpId, routes[id].serial, routes[id].conn);
      grants := grants.(trail := grants.trail + [B.Sent(id, brokerId, armedTier, now)]);
      q := q.(next := brokerId + 1, timers := q.timers + {brokerId}, pendings := q.pendings[brokerId := pending],
              origin := q.origin[brokerId := B.Origin(c, mcpId)]);
    }

    method HandleReq(c: nat, mcpId: nat, ask: B.Ask, now: int)
      modifies this
      ensures View() == B.Request(old(View()), c, mcpId, ask, now)
    {
      if c !in conns { return; }
      if !B.MayAsk(conns[c].role, ask) { DestroyConn(c); return; }
      Check();
      match ask
      case Board =>
      case Trip =>
        panic := B.Panic(true, true);
        SendAndClose(c);
        EnterPanic({c});
      case Resume(removed) =>
        if panic.active && conns[c].held && removed {
          panic := B.Panic(false, false);
          SendAndClose(c);
          LeavePanic({c});
        }
      case OfProfile(target, what) =>
        if !panic.active && target.Some? && target.value in routes { HandleProfileOp(c, mcpId, target.value, what, now); }
    }

    method HandleRes(c: nat, id: nat)
      modifies this`conns, this`q
      ensures View() == B.Respond(old(View()), c, id)
    {
      if id !in q.pendings { return; }
      if q.pendings[id].routeConn != c { DestroyConn(c); return; }
      FinishOne(id);
    }

    /** The caller of every request of this connection is dropped. */
    method Orphan(c: nat)
      modifies this`q
      ensures q == B.Orphan(old(q), c)
    {
      var left := q.pendings.Keys;
      while left != {}
        invariant left <= q.pendings.Keys == old(q).pendings.Keys
        invariant q == old(q).(pendings := q.pendings)
        invariant forall id :: id in q.pendings ==> q.pendings[id] == if id in left then old(q).pendings[id] else B.Orphan(old(q), c).pendings[id]
        decreases |left|
      {
        var id :| id in left;
        if q.pendings[id].caller == Some(c) {
          q := q.(pendings := q.pendings[id := q.pendings[id].(caller := None)]);
        }
        left := left - {id};
      }
      assert q.pendings == B.Orphan(old(q), c).pendings;
    }

    /** The socket closed, and `own` is the first route of its connection. */
    method ReleaseConnection(c: nat, own: Option<string>)
      modifies this
      ensures View() == B.Closed(old(View()), c, own)
    {
      DestroyConn(c);
      if own.Some? && own.value in routes {
        var serial := routes[own.value].serial;
        routes := routes - {own.value};
        FailPendings(B.OnRoute(q, serial));
      }
      Orphan(c);
    }

    method Evict(id: string)
      modifies this
      ensures View() == B.Evict(old(View()), id)
    {
      if id !in routes { return; }
      var route := routes[id];
      FailPendings(B.OnRoute(q, route.serial));
      DestroyConn(route.conn);
      routes := routes - {id};
    }

    /** Whatever comes in next. */
    method Dispatch(e: B.Event)
      requires B.Enabled(View(), e)
      modifies this
      ensures View() == B.Step(old(View()), e)
    {
      match e
      case Connect(c, role) =>
        conns := conns[c := B.Conn(role, false, false, false, false, false)];
        Check();
      case Registers(c, id) => HandleRegister(c, id);
      case RegistrationResumes(t, claimed, changed) => RegistrationResumes(t, claimed, changed);
      case Requested(c, mcpId, ask, now) => HandleReq(c, mcpId, ask, now);
      case Responds(c, id) => HandleRes(c, id);
      case TimesOut(id) => FinishOne(id);
      case Destroys(c) => DestroyConn(c);
      case SocketCloses(c, own) => ReleaseConnection(c, own);
      case Evicts(id) => Evict(id);
      case Drifts(id) => if id in routes && routes[id].claimed { DropClaim(id); }
      case PanicFile(there) => panic := panic.(file := there);
      case Watch => Check();
    }
  }

  ghost function Done(routes: map<string, B.Route>, ids: set<string>): set<nat>
    requires ids <= routes.Keys
  {
    set id | id in ids :: routes[id].conn
  }

  lemma DoneOneMore(routes: map<string, B.Route>, ids: set<string>, id: string, except: set<nat>)
    requires ids <= routes.Keys && id in routes
    ensures Done(routes, ids + {id}) - except
         == Done(routes, ids) - except + if routes[id].conn in except then {} else {routes[id].conn}
  {
  }

  ghost function HeldAmong(conns: map<nat, B.Conn>,
      cs: set<nat>): set<nat> { set c | c in cs && c in conns && conns[c].held }

  lemma HeldOneMore(conns: map<nat, B.Conn>, cs: set<nat>, c: nat, except: set<nat>)
    requires c in conns
    ensures HeldAmong(conns, cs + {c}) - except
         == HeldAmong(conns, cs) - except + if conns[c].held && c !in except then {c} else {}
  {
  }

  lemma ToldOne(q: B.Requests, conns: map<nat, B.Conn>, id: nat)
    ensures B.Told(q, conns, {id}) ==
              if id in q.pendings && B.Hears(conns, q.pendings[id])
              then {B.Answer(q.pendings[id].caller.value, q.pendings[id].mcpId, id)} else {}
  {
  }

  lemma DestroyNone(conns: map<nat, B.Conn>)
    ensures B.Destroy(conns, {}) == conns
  {
  }

  lemma FinishNone(q: B.Requests, conns: map<nat, B.Conn>)
    ensures B.Finish(q, conns, {}) == q
  {
    assert B.Told(q, conns, {}) == {};
    assert q.pendings - {} == q.pendings;
  }
}
