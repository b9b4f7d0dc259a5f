/** From a request to its answer: when one goes out, to whom, and who may answer. */
module BrokerAnswers {
  import opened Prelude
  import opened Broker
  import opened BrokerTheorems

  /** Who asked may ask it, panic is off, the profile is connected, and an armed
      operation finds it claimed and its window open. */
  ghost predicate GoesOut(b: Broker, c: nat, target: string, armedTier: bool, passes: bool, now: int) {
    && c in b.conns && b.conns[c].role == Mcp && !b.panic.file && target in b.routes && passes
    && (armedTier ==> b.routes[target].claimed && target in b.grants.until && now < b.grants.until[target])
  }

  function Asks(c: nat, mcpId: nat, target: string, armedTier: bool, passes: bool, now: int): Event {
    Requested(c, mcpId, OfProfile(Some(target), Forward(armedTier, passes)), now)
  }

  /** Request `b.q.next` is in flight in `t`: on behalf of who asked, for the
      connection the profile has, with a timer and a note. */
  ghost predicate WentOut(b: Broker, t: Broker, c: nat, mcpId: nat, target: string, armedTier: bool, now: int) {
    var n := b.q.next;
    && target in b.routes
    && t.q.pendings == b.q.pendings[n := Pending(Some(c), mcpId, b.routes[target].serial, b.routes[target].conn)]
    && t.q.timers == b.q.timers + {n} && t.q.next == n + 1
    && t.grants.trail == b.grants.trail + [Sent(target, n, armedTier, now)]
  }

  lemma PassedOn(b: Broker, c: nat, mcpId: nat, target: string, armedTier: bool, passes: bool, now: int)
    requires target in b.routes
    ensures var t := ToProfile(b, c, mcpId, target, Forward(armedTier, passes), now);
            if passes && (armedTier ==> b.routes[target].claimed && target in b.grants.until && now < b.grants.until[target])
            then WentOut(b, t, c, mcpId, target, armedTier, now)
            else t.q == b.q
  {
  }

  lemma AskedInPeace(b: Broker, c: nat, mcpId: nat, target: string, what: What, now: int)
    requires c in b.conns && b.conns[c].role == Mcp && !b.panic.file
    ensures var b1 := Check(b);
            && b1.q == b.q && b1.routes == b.routes && b1.grants == b.grants
            && Request(b, c, mcpId, OfProfile(Some(target), what), now)
                 == if target in b1.routes then ToProfile(b1, c, mcpId, target, what, now) else b1
  {
  }

  lemma AskedInPanic(b: Broker, c: nat, mcpId: nat, target: string, what: What, now: int)
    requires c in b.conns && b.conns[c].role == Mcp && b.panic.file
    ensures var t := Request(b, c, mcpId, OfProfile(Some(target), what), now);
            t.q.origin == b.q.origin && t.q.next == b.q.next && t.q.pendings.Keys <= b.q.pendings.Keys
  {
  }

  /** A request goes out, under the next number, if and only if it may. */
  lemma ForwardGoesOutIff(b: Broker, c: nat, mcpId: nat, target: string, armedTier: bool, passes: bool, now: int)
    requires Sane(b.q)
    ensures var t := Step(b, Asks(c, mcpId, target, armedTier, passes, now));
            if GoesOut(b, c, target, armedTier, passes, now) then WentOut(b, t, c, mcpId, target, armedTier, now)
            else t.q.origin == b.q.origin && t.q.next == b.q.next && b.q.next !in t.q.pendings
  {
    assert b.q.next !in b.q.pendings;
    if c in b.conns && b.conns[c].role == Mcp {
      if b.panic.file {
        AskedInPanic(b, c, mcpId, target, Forward(armedTier, passes), now);
      } else {
        AskedInPeace(b, c, mcpId, target, Forward(armedTier, passes), now);
        if target in b.routes { PassedOn(Check(b), c, mcpId, target, armedTier, passes, now); }
      }
    }
  }

  /* ---- while it waits ---- */

  /** Of what was in flight, `t` has the same or nothing, but that `gone` may have
      left. */
  ghost predicate Waits(q: Requests, t: Requests, n: nat, gone: Option<nat>) {
    n in t.pendings ==>
      n in q.pendings && (t.pendings[n] == q.pendings[n] || (gone.Some? && q.pendings[n].caller == gone && Left(q.pendings[n], t.pendings[n])))
  }

  ghost predicate Left(p: Pending, r: Pending) { r == p.(caller := None) }

  lemma CheckWaits(b: Broker, n: nat)
    ensures Waits(b.q, Check(b).q, n, None) && Check(b).q.next == b.q.next
  {
  }

  lemma AttachWaits(b: Broker, c: nat, id: string, claimed: bool, n: nat)
    ensures var t := Attach(b, c, id, claimed); Waits(b.q, t.q, n, None) && t.q.next == b.q.next && id in t.routes
  {
  }

  lemma DropWaits(b: Broker, id: string, n: nat)
    requires id in b.routes
    ensures Waits(b.q, DropClaim(b, id).q, n, None) && DropClaim(b, id).q.next == b.q.next
  {
  }

  lemma RegisteredWaits(b: Broker, r: Reg, claimed: bool, changed: bool, n: nat)
    ensures Waits(b.q, Registered(b, r, claimed, changed).q, n, None) && Registered(b, r, claimed, changed).q.next == b.q.next
  {
    CheckWaits(b, n);
    if Open(b.conns, r.conn) && !Check(b).panic.active {
      AttachWaits(Check(b), r.conn, r.installId, claimed, n);
      DropWaits(Attach(Check(b), r.conn, r.installId, claimed), r.installId, n);
    }
  }

  lemma ToProfileWaits(b: Broker, c: nat, mcpId: nat, id: string, what: What, now: int, n: nat)
    requires id in b.routes && n < b.q.next
    ensures var t := ToProfile(b, c, mcpId, id, what, now); Waits(b.q, t.q, n, None) && b.q.next <= t.q.next
  {
  }

  lemma RequestWaits(b: Broker, c: nat, mcpId: nat, ask: Ask, now: int, n: nat)
    requires n < b.q.next
    ensures Waits(b.q, Request(b, c, mcpId, ask, now).q, n, None) && b.q.next <= Request(b, c, mcpId, ask, now).q.next
  {
    CheckWaits(b, n);
    if ask.OfProfile? && ask.target.Some? && ask.target.value in Check(b).routes {
      ToProfileWaits(Check(b), c, mcpId, ask.target.value, ask.what, now, n);
    }
  }

  lemma ClosedWaits(b: Broker, c: nat, own: Option<string>, n: nat)
    ensures Waits(b.q, Closed(b, c, own).q, n, Some(c)) && Closed(b, c, own).q.next == b.q.next
  {
  }

  /** A request in flight changes only in that its caller leaves. */
  lemma StepWaits(b: Broker, e: Event, n: nat)
    requires Enabled(b, e) && n < b.q.next
    ensures Waits(b.q, Step(b, e).q, n, if e.SocketCloses? then Some(e.c) else None) && b.q.next <= Step(b, e).q.next
  {
    match e
    case SocketCloses(c, own) => ClosedWaits(b, c, own, n);
    case RegistrationResumes(r, claimed, changed) => RegisteredWaits(b.(regs := b.regs - {r}), b.regs[r], claimed, changed, n);
    case Requested(c, mcpId, ask, now) => RequestWaits(b, c, mcpId, ask, now, n);
    case Connect(c, role) => CheckWaits(b.(conns := b.conns[c := Conn(role, false, false, false, false, false)]), n);
    case Registers(c, id) => CheckWaits(b.(conns := b.conns[c := b.conns[c].(asked := true)]), n);
    case Watch => CheckWaits(b, n);
    case Drifts(id) => if id in b.routes { DropWaits(b, id, n); }
    case _ =>
  }

  /** The caller's connection is not closed in the run. */
  ghost predicate Stays(es: seq<Event>, c: nat) { forall i :: 0 <= i < |es| && es[i].SocketCloses? ==> es[i].c != c }

  lemma {:induction false} RunWaits(b: Broker, es: seq<Event>, t: Broker, n: nat, c: nat)
    requires Run(b, es, t) && n < b.q.next && n in t.q.pendings
    ensures n in b.q.pendings
    ensures t.q.pendings[n] == b.q.pendings[n] || t.q.pendings[n] == b.q.pendings[n].(caller := None)
    ensures b.q.pendings[n].caller == Some(c) && Stays(es, c) ==> t.q.pendings[n].caller == Some(c)
    decreases es
  {
    if es != [] {
      StepWaits(b, es[0], n);
      RunWaits(Step(b, es[0]), es[1..], t, n, c);
    }
  }

  /** `n` was answered: finished and logged once, its caller told if it is there,
      and nothing else changed. */
  ghost predicate Fulfilled(t: Broker, u: Broker, n: nat, told: multiset<Answer>) {
    && n !in u.q.pendings && u.q.pendings == t.q.pendings - {n}
    && u.q.finished == t.q.finished + multiset{n} && u.q.lines == t.q.lines + multiset{n}
    && u.q.answers == t.q.answers + told
    && u.conns == t.conns && u.routes == t.routes && u.grants == t.grants
  }

  lemma AnswerFulfils(t: Broker, d: nat, n: nat)
    requires n in t.q.pendings && t.q.pendings[n].routeConn == d
    ensures var p := t.q.pendings[n];
            Fulfilled(t, Step(t, Responds(d, n)), n,
                      if p.caller.Some? && Open(t.conns, p.caller.value) then multiset{Answer(p.caller.value, p.mcpId, n)} else multiset{})
  {
    var p := t.q.pendings[n];
    assert Told(t.q, t.conns, {n}) ==
           if p.caller.Some? && Open(t.conns, p.caller.value) then {Answer(p.caller.value, p.mcpId, n)} else {};
  }

  /** A request nobody answers is over when its timer fires, and its caller told. */
  lemma TimeoutFulfils(t: Broker, n: nat)
    requires Sane(t.q) && n in t.q.pendings
    ensures var p := t.q.pendings[n];
            Enabled(t, TimesOut(n)) &&
            Fulfilled(t, Step(t, TimesOut(n)), n,
                      if p.caller.Some? && Open(t.conns, p.caller.value) then multiset{Answer(p.caller.value, p.mcpId, n)} else multiset{})
  {
    AnswerFulfils(t, t.q.pendings[n].routeConn, n);
    assert Step(t, TimesOut(n)) == Step(t, Responds(t.q.pendings[n].routeConn, n));
  }

  lemma StrangerIsClosed(t: Broker, d: nat, n: nat)
    requires n in t.q.pendings && t.q.pendings[n].routeConn != d
    ensures var u := Step(t, Responds(d, n)); u.q == t.q && u.routes == t.routes && !Open(u.conns, d)
  {
  }

  /** From any request to its answer, whatever comes in between: as long as it is
      in flight, the connection its profile had when it went out fulfils it, for
      whoever asked and is still there; from any other connection nothing is taken,
      and that connection is closed. */
  lemma ItsProfileAnswers(file: bool, es: seq<Event>, b: Broker, c: nat, mcpId: nat, target: string, armedTier: bool, now: int,
      fs: seq<Event>, t: Broker, d: nat)
    requires Run(Init(file), es, b) && GoesOut(b, c, target, armedTier, true, now)
    requires Run(Step(b, Asks(c, mcpId, target, armedTier, true, now)), fs, t) && b.q.next in t.q.pendings
    ensures var n, u := b.q.next, Step(t, Responds(d, b.q.next));
            if d == b.routes[target].conn
            then Fulfilled(t, u, n, if t.q.pendings[n].caller == Some(c) && Open(t.conns, c) then multiset{Answer(c, mcpId, n)} else multiset{})
            else u.q == t.q && u.routes == t.routes && !Open(u.conns, d)
    ensures Stays(fs, c) ==> t.q.pendings[b.q.next].caller == Some(c)
  {
    var n := b.q.next;
    RunSane(Init(file), es, b);
    ForwardGoesOutIff(b, c, mcpId, target, armedTier, true, now);
    RunWaits(Step(b, Asks(c, mcpId, target, armedTier, true, now)), fs, t, n, c);
    if d == b.routes[target].conn { AnswerFulfils(t, d, n); } else { StrangerIsClosed(t, d, n); }
  }
}
