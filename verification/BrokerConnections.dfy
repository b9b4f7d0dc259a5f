/** Which connections the broker leaves open: none whose profile it dropped. */
module BrokerConnections {
  import opened Prelude
  import opened Broker
  import opened BrokerTheorems

  ghost predicate HasRoute(b: Broker, c: nat) { exists id :: id in b.routes && b.routes[id].conn == c }

  /** An open connection that nobody has sent off. */
  predicate Staying(conns: map<nat, Conn>, c: nat) { Open(conns, c) && !conns[c].closing }

  /** Whoever was accepted and stays has a route. */
  ghost predicate Served(b: Broker) { forall c :: Staying(b.conns, c) && b.conns[c].accepted ==> HasRoute(b, c) }

  /** `t` keeps of `b` every route of a connection that stays. */
  ghost predicate Lets(b: Broker, t: Broker) {
    forall c :: Staying(t.conns, c) && t.conns[c].accepted ==>
      Staying(b.conns, c) && b.conns[c].accepted && (HasRoute(b, c) ==> HasRoute(t, c))
  }

  lemma RoutedConns(b: Broker, c: nat)
    ensures HasRoute(b, c) <==> c in RouteConns(b.routes)
  {
    if HasRoute(b, c) {
      var id :| id in b.routes && b.routes[id].conn == c;
      assert c in RouteConns(b.routes);
    }
  }

  lemma EnterServed(b: Broker, except: set<nat>)
    requires Served(b) && forall c :: c in except ==> !Staying(b.conns, c)
    ensures Served(EnterPanic(b, except))
  {
    var t := EnterPanic(b, except);
    forall c | Staying(t.conns, c) ensures !t.conns[c].accepted {
      RoutedConns(b, c);
      assert Staying(b.conns, c) && c !in RouteConns(b.routes);
    }
  }

  lemma CheckServed(b: Broker)
    requires Served(b)
    ensures Served(Check(b))
  {
    var c := b.(panic := Panic(b.panic.file, b.panic.file));
    assert Lets(b, c);
    EnterServed(c, {});
    assert Lets(c, LeavePanic(c, {}));
  }

  lemma HoldLets(b: Broker, c: nat)
    ensures Lets(b, Hold(b, c))
  {
    forall d | HasRoute(b, d) ensures HasRoute(Hold(b, c), d) {
    }
  }

  lemma AttachServed(b: Broker, c: nat, id: string, claimed: bool)
    requires Served(b)
    ensures Served(Attach(b, c, id, claimed)) && HasRoute(Attach(b, c, id, claimed), c)
  {
    var t := Attach(b, c, id, claimed);
    assert t.routes[id].conn == c;
    forall d | Staying(t.conns, d) && t.conns[d].accepted && d != c ensures HasRoute(t, d) {
      assert Staying(b.conns, d) && b.conns[d].accepted;
      var o :| o in b.routes && b.routes[o].conn == d;
      assert o != id && t.routes[o].conn == d;
    }
  }

  lemma DropServed(b: Broker, id: string)
    requires Served(b) && id in b.routes
    ensures Served(DropClaim(b, id))
    ensures forall c :: HasRoute(b, c) ==> HasRoute(DropClaim(b, id), c)
  {
    var t := DropClaim(b, id);
    forall c | HasRoute(b, c) ensures HasRoute(t, c) {
      var o :| o in b.routes && b.routes[o].conn == c;
      assert t.routes[o].conn == c;
    }
  }

  lemma AcceptServed(b: Broker, c: nat)
    requires Served(b) && HasRoute(b, c)
    ensures Served(Accept(b, c))
  {
    var t := Accept(b, c);
    forall d | Staying(t.conns, d) && t.conns[d].accepted ensures HasRoute(t, d) {
      assert HasRoute(b, d);
    }
  }

  lemma RegisteredServed(b: Broker, r: Reg, claimed: bool, changed: bool)
    requires Served(b)
    ensures Served(Registered(b, r, claimed, changed))
  {
    if Open(b.conns, r.conn) {
      CheckServed(b);
      var b1 := Check(b);
      if b1.panic.active { HoldLets(b1, r.conn); } else { RoutedServed(b1, r, claimed, changed); }
    }
  }

  lemma RoutedServed(b: Broker, r: Reg, claimed: bool, changed: bool)
    requires Served(b)
    ensures r.installId in Attach(b, r.conn, r.installId, claimed).routes
    ensures var b2 := Attach(b, r.conn, r.installId, claimed);
            Served(Accept(if changed then DropClaim(b2, r.installId) else b2, r.conn))
  {
    AttachServed(b, r.conn, r.installId, claimed);
    var b2 := Attach(b, r.conn, r.installId, claimed);
    if changed { DropServed(b2, r.installId); }
    AcceptServed(if changed then DropClaim(b2, r.installId) else b2, r.conn);
  }

  lemma RegisterServed(b: Broker, c: nat, id: string)
    requires Served(b) && c in b.conns
    ensures Served(Register(b, c, id))
  {
    var b1 := b.(conns := b.conns[c := b.conns[c].(asked := true)]);
    forall d | Staying(b1.conns, d) && b1.conns[d].accepted ensures HasRoute(b1, d) {
      assert HasRoute(b, d);
    }
    CheckServed(b1);
    HoldLets(Check(b1), c);
    var t := Check(b1).(regs := Check(b1).regs[Check(b1).next := Reg(c, id)], next := Check(b1).next + 1);
    forall d | HasRoute(Check(b1), d) ensures HasRoute(t, d) {
    }
  }

  lemma ToProfileServed(b: Broker, c: nat, mcpId: nat, id: string, what: What, now: int)
    requires Served(b) && id in b.routes
    ensures Served(ToProfile(b, c, mcpId, id, what, now))
  {
    var t := ToProfile(b, c, mcpId, id, what, now);
    forall d | HasRoute(b, d) ensures HasRoute(t, d) {
      var o :| o in b.routes && b.routes[o].conn == d;
      assert t.routes[o].conn == d;
    }
  }

  lemma SentOff(b: Broker, c: nat, p: Panic)
    requires Served(b)
    ensures var t := b.(panic := p, conns := SendAndClose(b.conns, c)); Served(t) && !Staying(t.conns, c)
  {
    var t := b.(panic := p, conns := SendAndClose(b.conns, c));
    forall d | Staying(t.conns, d) && t.conns[d].accepted ensures HasRoute(t, d) {
      assert HasRoute(b, d);
    }
  }

  lemma RequestServed(b: Broker, c: nat, mcpId: nat, ask: Ask, now: int)
    requires Served(b)
    ensures Served(Request(b, c, mcpId, ask, now))
  {
    if c in b.conns && MayAsk(b.conns[c].role, ask) {
      CheckServed(b);
      var b1 := Check(b);
      match ask
      case Board =>
      case Trip =>
        SentOff(b1, c, Panic(true, true));
        EnterServed(b1.(panic := Panic(true, true), conns := SendAndClose(b1.conns, c)), {c});
      case Resume(_) =>
        SentOff(b1, c, Panic(false, false));
        DestroysServed(b1.(panic := Panic(false, false), conns := SendAndClose(b1.conns, c)), Held(SendAndClose(b1.conns, c)) - {c});
      case OfProfile(target, what) =>
        if target.Some? && target.value in b1.routes { ToProfileServed(b1, c, mcpId, target.value, what, now); }
    } else {
      DestroysServed(b, {c});
    }
  }

  lemma DestroysServed(b: Broker, gone: set<nat>)
    requires Served(b)
    ensures Served(b.(conns := Destroy(b.conns, gone)))
  {
    var t := b.(conns := Destroy(b.conns, gone));
    forall d | Staying(t.conns, d) && t.conns[d].accepted ensures HasRoute(t, d) {
      assert HasRoute(b, d);
    }
  }

  /** A route goes with its connection. */
  lemma RemovedServed(b: Broker, id: string, t: Broker)
    requires Served(b) && id in b.routes && t.routes == b.routes - {id} && t.conns == Destroy(b.conns, {b.routes[id].conn})
    ensures Served(t)
  {
    forall d | Staying(t.conns, d) && t.conns[d].accepted ensures HasRoute(t, d) {
      assert HasRoute(b, d);
      var o :| o in b.routes && b.routes[o].conn == d;
      assert o in t.routes && t.routes[o].conn == d;
    }
  }

  lemma ClosedServed(b: Broker, c: nat, own: Option<string>)
    requires Served(b) && IsOwn(b, c, own)
    ensures Served(Closed(b, c, own))
  {
    if own.Some? { RemovedServed(b, own.value, Closed(b, c, own)); } else { DestroysServed(b, {c}); }
  }

  lemma StepServed(b: Broker, e: Event)
    requires Served(b) && Enabled(b, e)
    ensures Served(Step(b, e))
  {
    match e
    case Connect(c, role) => ConnectServed(b, c, role);
    case Registers(c, id) => RegisterServed(b, c, id);
    case RegistrationResumes(r, claimed, changed) =>
      assert Lets(b, b.(regs := b.regs - {r}));
      RegisteredServed(b.(regs := b.regs - {r}), b.regs[r], claimed, changed);
    case Requested(c, mcpId, ask, now) => RequestServed(b, c, mcpId, ask, now);
    case Responds(c, id) => DestroysServed(b, {c});
    case TimesOut(id) =>
    case Destroys(c) => DestroysServed(b, {c});
    case SocketCloses(c, own) => ClosedServed(b, c, own);
    case Evicts(id) => if id in b.routes { RemovedServed(b, id, Evict(b, id)); }
    case Drifts(id) => if id in b.routes { DropServed(b, id); }
    case PanicFile(there) =>
    case Watch => CheckServed(b);
  }

  lemma ConnectServed(b: Broker, c: nat, role: Role)
    requires Served(b) && c !in b.conns
    ensures Served(Check(b.(conns := b.conns[c := Conn(role, false, false, false, false, false)])))
  {
    var t := b.(conns := b.conns[c := Conn(role, false, false, false, false, false)]);
    forall d | Staying(t.conns, d) && t.conns[d].accepted ensures HasRoute(t, d) {
      assert HasRoute(b, d);
    }
    CheckServed(t);
  }

  lemma {:induction false} RunServed(b: Broker, es: seq<Event>, b': Broker)
    requires Served(b) && Run(b, es, b')
    ensures Served(b')
    decreases es
  {
    if es != [] {
      StepServed(b, es[0]);
      RunServed(Step(b, es[0]), es[1..], b');
    }
  }

  /** Over every run a connection that was accepted has a route, or was sent off,
      or is closed: no profile hangs on a connection the board does not show. */
  lemma NobodyHangs(file: bool, es: seq<Event>, b: Broker, c: nat)
    requires Run(Init(file), es, b) && Staying(b.conns, c) && b.conns[c].accepted
    ensures exists id :: id in b.routes && b.routes[id].conn == c
  {
    RunServed(Init(file), es, b);
  }
}
