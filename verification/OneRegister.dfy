/** From the extension's port through the host to the broker's connection: one
    REGISTER at most, which is what the broker's answers rest on. */
module OneRegister {
  import opened Prelude
  import L = Link
  import LT = LinkTheorems
  import LR = LinkRegisters
  import H = HostRelay
  import HO = HostRelayOrder
  import B = Broker
  import BT = BrokerTheorems

  /** One native port: the run of the worker that opened it, the run of the host
      the browser started for it, and one of the pipes that host dialled. */
  datatype Port = Port(
    worker: L.Link, link: seq<L.Event>, linkEnd: L.Link, port: nat,
    token: bool, relay: seq<H.Event>, relayEnd: H.Relay, pipe: nat)

  /** REGISTERs written to one pipe. */
  ghost function WrittenTo(trail: seq<H.Act>, pipe: nat): nat {
    if trail == [] then 0
    else
      var a := trail[|trail| - 1];
      WrittenTo(trail[..|trail| - 1], pipe) + if a.Wrote? && a.s == pipe && a.frame.msg.Register? then 1 else 0
  }

  /** REGISTERs the broker reads from connection `c`. */
  ghost function ReadFrom(es: seq<B.Event>, c: nat): nat { if es == [] then 0 else Reads(es[0], c) + ReadFrom(es[1..], c) }

  ghost function Reads(e: B.Event, c: nat): nat { if e.Registers? && e.c == c then 1 else 0 }

  /** The connection `c` is the other end of a pipe of that port. Neither the port
      nor the pipe makes up a REGISTER or repeats one: the host reads what was
      posted, and the broker what was written. */
  ghost predicate Carries(p: Port, es: seq<B.Event>, c: nat) {
    && LT.Fresh(p.worker) && LT.Run(p.worker, p.link, p.linkEnd) && H.Run(H.Init(p.token), p.relay, p.relayEnd)
    && HO.Sent(p.relay) <= LR.Posted(p.worker, p.link, p.port)
    && ReadFrom(es, c) <= WrittenTo(p.relayEnd.trail, p.pipe)
  }

  lemma {:induction false} WrittenIn(trail: seq<H.Act>, pipe: nat)
    ensures WrittenTo(trail, pipe) <= HO.Registers(HO.Written(trail))
  {
    if trail != [] {
      var n := |trail| - 1;
      WrittenIn(trail[..n], pipe);
      var w := HO.Written(trail[..n]);
      if trail[n].Wrote? {
        assert (w + [trail[n].frame])[..|w|] == w;
      } else {
        assert w + [] == w;
      }
    }
  }

  /** No connection of such a port brings a second REGISTER. */
  lemma OnceEach(p: Port, es: seq<B.Event>, c: nat)
    requires Carries(p, es, c)
    ensures ReadFrom(es, c) <= 1
  {
    LR.OnePortOneRegister(p.worker, p.link, p.linkEnd, p.port);
    HO.FramesGoInOrder(p.token, p.relay, p.relayEnd);
    WrittenIn(p.relayEnd.trail, p.pipe);
  }

  /* ---- what that is to the broker ---- */

  ghost predicate Asked(b: B.Broker, c: nat) { c in b.conns && b.conns[c].asked }

  lemma TameAsked(b: B.Broker, t: B.Broker, c: nat)
    requires BT.Tame(b, t)
    ensures Asked(t, c) == Asked(b, c)
  {
    if c in b.conns { assert t.conns[c].(closed := b.conns[c].closed, closing := b.conns[c].closing) == b.conns[c]; }
  }

  lemma RegisteredAsked(b: B.Broker, r: B.Reg, claimed: bool, changed: bool, c: nat)
    ensures Asked(B.Registered(b, r, claimed, changed), c) == Asked(b, c)
  {
    if B.Open(b.conns, r.conn) {
      BT.CheckTame(b);
      TameAsked(b, B.Check(b), c);
      if !B.Check(b).panic.active { RoutedAsked(B.Check(b), r, claimed, changed, c); }
    }
  }

  lemma AttachAsked(b: B.Broker, d: nat, id: string, claimed: bool, c: nat)
    ensures id in B.Attach(b, d, id, claimed).routes && Asked(B.Attach(b, d, id, claimed), c) == Asked(b, c)
  {
  }

  lemma RoutedAsked(b: B.Broker, r: B.Reg, claimed: bool, changed: bool, c: nat)
    ensures r.installId in B.Attach(b, r.conn, r.installId, claimed).routes
    ensures var b2 := B.Attach(b, r.conn, r.installId, claimed);
            Asked(B.Accept(if changed then B.DropClaim(b2, r.installId) else b2, r.conn), c) == Asked(b, c)
  {
    AttachAsked(b, r.conn, r.installId, claimed, c);
    var b2 := B.Attach(b, r.conn, r.installId, claimed);
    var b3 := if changed then B.DropClaim(b2, r.installId) else b2;
    assert b3.conns == b2.conns;
    AcceptAsked(b3, r.conn, c);
  }

  lemma AcceptAsked(b: B.Broker, d: nat, c: nat)
    ensures Asked(B.Accept(b, d), c) == Asked(b, c)
  {
  }

  lemma RegisterAsked(b: B.Broker, d: nat, id: string, c: nat)
    requires d in b.conns
    ensures Asked(B.Register(b, d, id), c) == (c == d || Asked(b, c))
  {
    var b1 := b.(conns := b.conns[d := b.conns[d].(asked := true)]);
    BT.CheckTame(b1);
    TameAsked(b1, B.Check(b1), c);
  }

  lemma ConnectAsked(b: B.Broker, d: nat, role: B.Role, c: nat)
    requires d !in b.conns
    ensures Asked(B.Step(b, B.Connect(d, role)), c) == Asked(b, c)
  {
    var b1 := b.(conns := b.conns[d := B.Conn(role, false, false, false, false, false)]);
    BT.CheckTame(b1);
    TameAsked(b1, B.Check(b1), c);
  }

  /** Only its own REGISTER marks a connection. */
  lemma StepAsked(b: B.Broker, e: B.Event, c: nat)
    requires B.Enabled(b, e)
    ensures Asked(B.Step(b, e), c) == (Asked(b, c) || Reads(e, c) == 1)
  {
    match e
    case Connect(d, role) => ConnectAsked(b, d, role, c);
    case Registers(d, id) => RegisterAsked(b, d, id, c);
    case RegistrationResumes(r, claimed, changed) =>
      RegisteredAsked(b.(regs := b.regs - {r}), b.regs[r], claimed, changed, c);
    case Requested(d, mcpId, ask, now) =>
      if d in b.conns && B.MayAsk(b.conns[d].role, ask) {
        BT.CheckTame(b);
        TameAsked(b, B.Check(b), c);
        BT.RequestTame(b, d, mcpId, ask, now);
        TameAsked(B.Check(b), B.Step(b, e), c);
      }
    case _ =>
      BT.QuietStepTame(b, e);
      TameAsked(b, B.Step(b, e), c);
  }

  lemma {:induction false} OnceIsOrderly(b: B.Broker, es: seq<B.Event>)
    requires forall c :: ReadFrom(es, c) + (if Asked(b, c) then 1 else 0) <= 1
    ensures BT.Orderly(b, es)
    decreases es
  {
    if es != [] && B.Enabled(b, es[0]) {
      var e := es[0];
      if e.Registers? { assert ReadFrom(es, e.c) >= 1; }
      forall c ensures ReadFrom(es[1..], c) + (if Asked(B.Step(b, e), c) then 1 else 0) <= 1 {
        StepAsked(b, e, c);
        assert ReadFrom(es, c) == Reads(e, c) + ReadFrom(es[1..], c);
      }
      OnceIsOrderly(B.Step(b, e), es[1..]);
    }
  }

  /** Between extensions, hosts and a broker, each running as it does: no connection
      is ever both held and accepted, and a held one has no route. */
  lemma NoneIsAnsweredBothWays(file: bool, es: seq<B.Event>, b: B.Broker, of: map<nat, Port>, c: nat)
    requires B.Run(B.Init(file), es, b) && c in b.conns
    requires forall d :: ReadFrom(es, d) > 0 ==> d in of && Carries(of[d], es, d)
    ensures !(b.conns[c].held && b.conns[c].accepted)
    ensures b.conns[c].held ==> forall id :: id in b.routes ==> b.routes[id].conn != c
  {
    forall d ensures ReadFrom(es, d) + (if Asked(B.Init(file), d) then 1 else 0) <= 1 {
      if ReadFrom(es, d) > 0 { OnceEach(of[d], es, d); }
    }
    OnceIsOrderly(B.Init(file), es);
    BT.HeldIsNeverAccepted(file, es, b, c);
  }
}
