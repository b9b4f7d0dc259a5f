/** When a connection is answered both ways, with a panic hold and with a route:
    the exact step at which it comes about. */
module BrokerHolds {
  import opened Prelude
  import opened Broker
  import opened BrokerTheorems

  ghost predicate Clash(conns: map<nat, Conn>) { exists c :: c in conns && conns[c].held && conns[c].accepted }

  /** REGISTER during panic on a connection that was accepted. */
  predicate HoldsAccepted(b: Broker, c: nat) { c in b.conns && b.panic.file && b.conns[c].accepted }

  /** A registration that resumes with panic off on a connection that was held, and
      that nobody let go of when panic went off. */
  predicate AcceptsHeld(b: Broker, c: nat) {
    Open(b.conns, c) && !b.panic.file && !b.panic.active && b.conns[c].held
  }

  /** The event answers a connection in the way it was not answered before. */
  predicate Breaks(b: Broker, e: Event)
    requires Enabled(b, e)
  {
    match e
    case Registers(c, _) => HoldsAccepted(b, c)
    case RegistrationResumes(r, _, _) =>
      var c := b.regs[r].conn;
      Open(b.conns, c) && (HoldsAccepted(b, c) || AcceptsHeld(b, c))
    case _ => false
  }

  /** The answers of `t` are those of `b`, connection by connection. */
  ghost predicate SameAnswers(conns: map<nat, Conn>, after: map<nat, Conn>) {
    && after.Keys == conns.Keys
    && forall c :: c in conns ==> after[c].held == conns[c].held && after[c].accepted == conns[c].accepted
  }

  lemma TameAnswers(b: Broker, t: Broker)
    requires Tame(b, t)
    ensures SameAnswers(b.conns, t.conns)
  {
    forall c | c in b.conns ensures t.conns[c].held == b.conns[c].held && t.conns[c].accepted == b.conns[c].accepted {
      assert t.conns[c].(closed := b.conns[c].closed, closing := b.conns[c].closing) == b.conns[c];
    }
  }

  /** One more answer, on `c` alone. */
  ghost predicate Answers(conns: map<nat, Conn>, after: map<nat, Conn>, c: nat, held: bool, accepted: bool) {
    && c in conns && after.Keys == conns.Keys
    && (forall d :: d in conns && d != c ==> after[d].held == conns[d].held && after[d].accepted == conns[d].accepted)
    && after[c].held == (conns[c].held || held) && after[c].accepted == (conns[c].accepted || accepted)
  }

  lemma AnswersClash(conns: map<nat, Conn>, after: map<nat, Conn>, c: nat, held: bool, accepted: bool)
    requires Answers(conns, after, c, held, accepted)
    ensures Clash(after) <==> Clash(conns) || ((conns[c].held || held) && (conns[c].accepted || accepted))
  {
    if Clash(conns) {
      var d :| d in conns && conns[d].held && conns[d].accepted;
      assert d in after && after[d].held && after[d].accepted;
    }
    assert c in after;
  }

  /** Looking at the panic file closes a held connection when panic goes off. */
  lemma CheckedAnswers(b: Broker)
    ensures SameAnswers(b.conns, Check(b).conns) && Check(b).panic.active == b.panic.file
    ensures forall c :: Open(Check(b).conns, c) ==> Open(b.conns, c)
    ensures !b.panic.file && b.panic.active ==> forall c :: Open(Check(b).conns, c) ==> !b.conns[c].held
    ensures !b.panic.file && !b.panic.active ==> Check(b) == b
  {
    CheckTame(b);
    TameAnswers(b, Check(b));
  }

  lemma AttachAnswers(b: Broker, c: nat, id: string, claimed: bool, changed: bool)
    ensures id in Attach(b, c, id, claimed).routes
    ensures var b2 := Attach(b, c, id, claimed);
            var b3 := if changed then DropClaim(b2, id) else b2;
            SameAnswers(b.conns, b3.conns) && (Open(b3.conns, c) <==> Open(b.conns, c))
  {
  }

  lemma RegisterAnswers(b: Broker, c: nat, id: string)
    requires c in b.conns
    ensures Answers(b.conns, Register(b, c, id).conns, c, b.panic.file, false)
  {
    CheckedAnswers(b.(conns := b.conns[c := b.conns[c].(asked := true)]));
  }

  lemma RegisteredAnswers(b: Broker, r: Reg, claimed: bool, changed: bool)
    requires Open(b.conns, r.conn)
    ensures var c := r.conn;
            Answers(b.conns, Registered(b, r, claimed, changed).conns, c, b.panic.file,
                    !b.panic.file && (b.panic.active ==> !b.conns[c].held && Open(Check(b).conns, c)))
  {
    CheckedAnswers(b);
    var b1 := Check(b);
    if !b1.panic.active { AttachAnswers(b1, r.conn, r.installId, claimed, changed); }
  }

  lemma QuietAnswers(b: Broker, e: Event)
    requires Enabled(b, e) && !e.Connect? && !e.Registers? && !e.RegistrationResumes?
    ensures SameAnswers(b.conns, Step(b, e).conns)
  {
    if e.Requested? {
      if e.c in b.conns && MayAsk(b.conns[e.c].role, e.ask) {
        CheckedAnswers(b);
        RequestTame(b, e.c, e.mcpId, e.ask, e.now);
        TameAnswers(Check(b), Step(b, e));
      }
    } else {
      QuietStepTame(b, e);
      TameAnswers(b, Step(b, e));
    }
  }

  lemma ConnectAnswers(b: Broker, c: nat, role: Role)
    requires c !in b.conns
    ensures Clash(Step(b, Connect(c, role)).conns) <==> Clash(b.conns)
    ensures var after := Step(b, Connect(c, role)).conns;
            forall d :: d in b.conns ==>
              d in after && after[d].held == b.conns[d].held && after[d].accepted == b.conns[d].accepted
  {
    var b1 := b.(conns := b.conns[c := Conn(role, false, false, false, false, false)]);
    CheckedAnswers(b1);
    assert Step(b, Connect(c, role)) == Check(b1);
    SameClash(b1.conns, Check(b1).conns);
    if Clash(b.conns) {
      var d :| d in b.conns && b.conns[d].held && b.conns[d].accepted;
      assert d in b1.conns && b1.conns[d].held && b1.conns[d].accepted;
    }
  }

  lemma SameClash(conns: map<nat, Conn>, after: map<nat, Conn>)
    requires SameAnswers(conns, after)
    ensures Clash(after) <==> Clash(conns)
  {
    if Clash(conns) {
      var d :| d in conns && conns[d].held && conns[d].accepted;
      assert d in after && after[d].held && after[d].accepted;
    }
  }

  /** Somebody has both answers after a step, if and only if somebody had before or
      the step breaks the rule. */
  lemma ClashIff(b: Broker, e: Event)
    requires Enabled(b, e)
    ensures Clash(Step(b, e).conns) <==> Clash(b.conns) || Breaks(b, e)
  {
    match e
    case Connect(c, role) => ConnectAnswers(b, c, role);
    case Registers(c, id) =>
      RegisterAnswers(b, c, id);
      AnswersClash(b.conns, Register(b, c, id).conns, c, b.panic.file, false);
    case RegistrationResumes(r, claimed, changed) => ResumesClash(b, r, claimed, changed);
    case _ =>
      QuietAnswers(b, e);
      SameClash(b.conns, Step(b, e).conns);
  }

  lemma ResumesClash(b: Broker, r: nat, claimed: bool, changed: bool)
    requires r in b.regs
    ensures var e := RegistrationResumes(r, claimed, changed);
            Clash(Step(b, e).conns) <==> Clash(b.conns) || Breaks(b, e)
  {
    var b0, reg := b.(regs := b.regs - {r}), b.regs[r];
    if Open(b.conns, reg.conn) {
      RegisteredAnswers(b0, reg, claimed, changed);
      AnswersClash(b.conns, Registered(b0, reg, claimed, changed).conns, reg.conn, b.panic.file,
                   !b.panic.file && (b.panic.active ==> !b.conns[reg.conn].held && Open(Check(b0).conns, reg.conn)));
    }
  }

  /** What the link depends on: an ok answer goes to a held connection if and only
      if a registration resumes on it, still open, with panic off and known to be. */
  lemma HeldAnsweredOkIff(b: Broker, e: Event, c: nat)
    requires Enabled(b, e) && c in b.conns && b.conns[c].held && !b.conns[c].accepted
    ensures c in Step(b, e).conns
    ensures Step(b, e).conns[c].accepted
       <==> e.RegistrationResumes? && b.regs[e.reg].conn == c && AcceptsHeld(b, c)
  {
    match e
    case Connect(d, role) => ConnectAnswers(b, d, role);
    case Registers(d, id) => RegisterAnswers(b, d, id);
    case RegistrationResumes(r, claimed, changed) =>
      if Open(b.conns, b.regs[r].conn) { RegisteredAnswers(b.(regs := b.regs - {r}), b.regs[r], claimed, changed); }
    case _ => QuietAnswers(b, e);
  }

  /** Some event of the run breaks the rule. */
  ghost predicate BreaksIn(b: Broker, es: seq<Event>)
    decreases es
  {
    es != [] && Enabled(b, es[0]) && (Breaks(b, es[0]) || BreaksIn(Step(b, es[0]), es[1..]))
  }

  lemma {:induction false} RunClashIff(b: Broker, es: seq<Event>, b': Broker)
    requires Run(b, es, b')
    ensures Clash(b'.conns) <==> Clash(b.conns) || BreaksIn(b, es)
    decreases es
  {
    if es != [] {
      ClashIff(b, es[0]);
      RunClashIff(Step(b, es[0]), es[1..], b');
    }
  }

  /** Over every run some connection is both held and accepted in the end, if and
      only if one of its events breaks the rule. */
  lemma BothAnswersIff(file: bool, es: seq<Event>, b: Broker)
    requires Run(Init(file), es, b)
    ensures (exists c :: c in b.conns && b.conns[c].held && b.conns[c].accepted) <==> BreaksIn(Init(file), es)
  {
    RunClashIff(Init(file), es, b);
  }

  /* ---- a second REGISTER ---- */

  lemma {:induction false} RunOn(b: Broker, es: seq<Event>, b': Broker, e: Event)
    requires Run(b, es, b') && Enabled(b', e)
    ensures Run(b, es + [e], Step(b', e))
    decreases es
  {
    if es == [] {
      assert [e][1..] == [];
    } else {
      RunOn(Step(b, es[0]), es[1..], b', e);
      assert (es + [e])[1..] == es[1..] + [e];
    }
  }

  lemma Go(es: seq<Event>, b: Broker, e: Event) returns (es': seq<Event>, b': Broker)
    requires Run(Init(false), es, b) && Enabled(b, e)
    ensures es' == es + [e] && b' == Step(b, e) && Run(Init(false), es', b')
  {
    RunOn(Init(false), es, b, e);
    es', b' := es + [e], Step(b, e);
  }

  /** A connection registers a profile that nobody has, in a broker at peace. */
  lemma GoRegister(es: seq<Event>, b: Broker, c: nat, id: string) returns (es': seq<Event>, b': Broker)
    requires Run(Init(false), es, b) && Open(b.conns, c) && b.panic == Panic(false, false) && b.regs.Keys == {}
    ensures Run(Init(false), es', b') && b'.panic == b.panic && b'.regs.Keys == {} && id in b'.routes && b'.routes[id].conn == c
    ensures Open(b'.conns, c) && b'.conns[c].accepted && b'.conns[c].held == b.conns[c].held
    ensures forall d :: d in b.conns && d != c ==> Open(b.conns, d) ==> Open(b'.conns, d) && b'.conns[d].accepted == b.conns[d].accepted
    ensures b'.routes.Keys == b.routes.Keys + {id}
  {
    es', b' := Go(es, b, Registers(c, id));
    var reg := b.next;
    assert reg in b'.regs && b'.regs[reg] == Reg(c, id);
    es', b' := Go(es', b', RegistrationResumes(reg, true, false));
  }

  /** A connection is held, its popup asks to resume, and before it is closed it
      registers once more: its hold is answered ok while it is open. */
  lemma HeldIsAnsweredOk() returns (es: seq<Event>, b: Broker, e: Event)
    ensures Run(Init(false), es, b) && Open(b.conns, 0) && b.conns[0].held && !b.conns[0].accepted
    ensures Enabled(b, e)
    ensures var t := Step(b, e); Open(t.conns, 0) && t.conns[0].held && t.conns[0].accepted && !t.panic.active
  {
    es, b := [], Init(false);
    es, b := Go(es, b, Connect(0, Host));
    es, b := Go(es, b, PanicFile(true));
    es, b := Go(es, b, Registers(0, "a"));
    assert b.panic.active && b.conns[0].held && !b.conns[0].closed;
    es, b := Go(es, b, Requested(0, 0, Resume(true), 0));
    assert b.panic == Panic(false, false) && Open(b.conns, 0);
    var reg := b.next;
    es, b := Go(es, b, Registers(0, "a"));
    assert reg in b.regs && b.regs[reg].conn == 0;
    e := RegistrationResumes(reg, true, false);
    HeldAnsweredOkIff(b, e, 0);
    AttachAnswers(b.(regs := b.regs - {reg}), 0, "a", true, false);
  }

  /** The other way round: an accepted connection that another took the route of
      registers again, in panic, while it is on its way out. */
  lemma SecondRegisterBreaksIt() returns (es: seq<Event>, b: Broker)
    ensures Run(Init(false), es, b) && Open(b.conns, 0) && b.conns[0].accepted && b.conns[0].held
  {
    es, b := [], Init(false);
    es, b := Go(es, b, Connect(0, Host));
    es, b := Go(es, b, Connect(1, Host));
    es, b := GoRegister(es, b, 0, "a");
    es, b := GoRegister(es, b, 1, "a");
    assert b.routes.Keys == {"a"} && RouteConns(b.routes) == {1};
    es, b := Go(es, b, PanicFile(true));
    es, b := Go(es, b, Registers(0, "a"));
  }
}
