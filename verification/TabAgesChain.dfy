/** withLedger: every read-modify-write of the ledger waits for the one before, so
    calls that overlap come to what they would one at a time, in the order they
    were made. */
module TabAgesChain {
  import opened Prelude
  import opened TabAges
  import opened TabAgesLedger

  /** A call of withLedger: what it does to the ledger, or nothing but making sure
      of the session. */
  type Call = Option<Op>

  /** `Holding` what was read, re-keyed if this session had not been, until it is
      written; a write can fail, and is then dropped. */
  datatype Phase = Waiting | Holding(read: Ledger) | Done(written: bool)

  datatype Job = Job(call: Call, phase: Phase)

  /** The calls made so far, in order; the ledger in storage, and whether this
      session has re-keyed it. */
  datatype Chain = Chain(jobs: seq<Job>, stored: Ledger, keyed: bool)

  datatype Event = Calls(call: Call) | Reads(j: nat) | Writes(j: nat, ok: bool)

  /** The re-key onto the tabs that are there once they settled. */
  type Rekey = Ledger -> Ledger

  function Applied(call: Call, ledger: Ledger): Ledger { if call.Some? then Apply(ledger, call.value) else ledger }

  /** A call reads once the one before it settled; it writes what it read. */
  predicate Enabled(c: Chain, e: Event) {
    match e
    case Calls(_) => true
    case Reads(j) => j < |c.jobs| && c.jobs[j].phase.Waiting? && (j > 0 ==> c.jobs[j - 1].phase.Done?)
    case Writes(j, _) => j < |c.jobs| && c.jobs[j].phase.Holding?
  }

  function SetPhase(c: Chain, j: nat, p: Phase): Chain
    requires j < |c.jobs|
  {
    c.(jobs := c.jobs[j := c.jobs[j].(phase := p)])
  }

  function Step(rekey: Rekey, c: Chain, e: Event): Chain
    requires Enabled(c, e)
  {
    match e
    case Calls(call) => c.(jobs := c.jobs + [Job(call, Waiting)])
    case Reads(j) => SetPhase(c, j, Holding(if c.keyed then c.stored else rekey(c.stored))).(keyed := true)
    case Writes(j, ok) =>
      if ok then SetPhase(c, j, Done(true)).(stored := Applied(c.jobs[j].call, c.jobs[j].phase.read))
      else SetPhase(c, j, Done(false))
  }

  ghost predicate Run(rekey: Rekey, c: Chain, es: seq<Event>, c': Chain)
    decreases es
  {
    if es == [] then c' == c else Enabled(c, es[0]) && Run(rekey, Step(rekey, c, es[0]), es[1..], c')
  }

  /** What storage holds once the first `n` calls were served one at a time. */
  ghost function Replay(rekey: Rekey, start: Chain, jobs: seq<Job>, n: nat): Ledger
    requires n <= |jobs|
  {
    if n == 0 then start.stored
    else
      var was := Replay(rekey, start, jobs, n - 1);
      if jobs[n - 1].phase == Done(true) then Applied(jobs[n - 1].call, Read(rekey, start, was, n - 1)) else was
  }

  /** What call `j` reads: the first one of a session re-keys. */
  ghost function Read(rekey: Rekey, start: Chain, was: Ledger, j: nat): Ledger {
    if j == 0 && !start.keyed then rekey(was) else was
  }

  /** Calls are served in their turn, and storage is what serving them left. */
  ghost predicate Inv(rekey: Rekey, start: Chain, c: Chain) {
    && (forall i, j :: 0 <= i < j < |c.jobs| && !c.jobs[j].phase.Waiting? ==> c.jobs[i].phase.Done?)
    && c.keyed == (start.keyed || (c.jobs != [] && !c.jobs[0].phase.Waiting?))
    && c.stored == Replay(rekey, start, c.jobs, |c.jobs|)
    && (forall j :: 0 <= j < |c.jobs| && c.jobs[j].phase.Holding? ==>
          c.jobs[j].phase.read == Read(rekey, start, Replay(rekey, start, c.jobs, j), j))
  }

  lemma {:induction false} ReplaySame(rekey: Rekey, start: Chain, jobs: seq<Job>, more: seq<Job>, n: nat)
    requires n <= |jobs| && n <= |more| && forall i :: 0 <= i < n ==> more[i] == jobs[i]
    ensures Replay(rekey, start, more, n) == Replay(rekey, start, jobs, n)
  {
    if n > 0 { ReplaySame(rekey, start, jobs, more, n - 1); }
  }

  /** Calls that have not written leave storage as it was. */
  lemma {:induction false} ReplayIdle(rekey: Rekey, start: Chain, jobs: seq<Job>, k: nat, n: nat)
    requires k <= n <= |jobs| && forall i :: k <= i < n ==> jobs[i].phase != Done(true)
    ensures Replay(rekey, start, jobs, n) == Replay(rekey, start, jobs, k)
    decreases n - k
  {
    if k < n { ReplayIdle(rekey, start, jobs, k, n - 1); }
  }

  lemma CallsKeep(rekey: Rekey, start: Chain, c: Chain, call: Call)
    requires Inv(rekey, start, c)
    ensures Inv(rekey, start, Step(rekey, c, Calls(call)))
  {
    var t := Step(rekey, c, Calls(call));
    ReplaySame(rekey, start, c.jobs, t.jobs, |c.jobs|);
    forall j | 0 <= j < |t.jobs| && t.jobs[j].phase.Holding?
      ensures t.jobs[j].phase.read == Read(rekey, start, Replay(rekey, start, t.jobs, j), j)
    {
      ReplaySame(rekey, start, c.jobs, t.jobs, j);
    }
  }

  /** When it is call `j`'s turn, all before it are over, none after it has begun,
      and storage is what those before it left. */
  lemma ItsTurn(rekey: Rekey, start: Chain, c: Chain, j: nat)
    requires Inv(rekey, start, c) && j < |c.jobs| && !c.jobs[j].phase.Done?
    requires c.jobs[j].phase.Waiting? ==> j > 0 ==> c.jobs[j - 1].phase.Done?
    ensures forall i :: 0 <= i < j ==> c.jobs[i].phase.Done?
    ensures forall i :: j < i < |c.jobs| ==> c.jobs[i].phase.Waiting?
    ensures c.stored == Replay(rekey, start, c.jobs, j)
  {
    ReplayIdle(rekey, start, c.jobs, j, |c.jobs|);
  }

  lemma ReadsKeep(rekey: Rekey, start: Chain, c: Chain, j: nat)
    requires Inv(rekey, start, c) && Enabled(c, Reads(j))
    ensures Inv(rekey, start, Step(rekey, c, Reads(j)))
  {
    var t := Step(rekey, c, Reads(j));
    ItsTurn(rekey, start, c, j);
    ReplaySame(rekey, start, c.jobs, t.jobs, j);
    ReplayIdle(rekey, start, t.jobs, j, |t.jobs|);
  }

  lemma WritesKeep(rekey: Rekey, start: Chain, c: Chain, j: nat, ok: bool)
    requires Inv(rekey, start, c) && Enabled(c, Writes(j, ok))
    ensures Inv(rekey, start, Step(rekey, c, Writes(j, ok)))
  {
    var t := Step(rekey, c, Writes(j, ok));
    ItsTurn(rekey, start, c, j);
    ReplaySame(rekey, start, c.jobs, t.jobs, j);
    ReplayIdle(rekey, start, t.jobs, j + 1, |t.jobs|);
  }

  lemma {:induction false} RunKeeps(rekey: Rekey, start: Chain, c: Chain, es: seq<Event>, c': Chain)
    requires Inv(rekey, start, c) && Run(rekey, c, es, c')
    ensures Inv(rekey, start, c')
    decreases es
  {
    if es != [] {
      match es[0] {
        case Calls(call) => CallsKeep(rekey, start, c, call);
        case Reads(j) => ReadsKeep(rekey, start, c, j);
        case Writes(j, ok) => WritesKeep(rekey, start, c, j, ok);
      }
      RunKeeps(rekey, start, Step(rekey, c, es[0]), es[1..], c');
    }
  }

  /* ---- the calls, in order ---- */

  ghost function Made(es: seq<Event>): seq<Call> {
    if es == [] then [] else (if es[0].Calls? then [es[0].call] else []) + Made(es[1..])
  }

  ghost function CallsOf(jobs: seq<Job>): seq<Call> { seq(|jobs|, i requires 0 <= i < |jobs| => jobs[i].call) }

  lemma {:induction false} RunMade(rekey: Rekey, c: Chain, es: seq<Event>, c': Chain)
    requires Run(rekey, c, es, c')
    ensures CallsOf(c'.jobs) == CallsOf(c.jobs) + Made(es)
    decreases es
  {
    if es == [] {
      assert CallsOf(c.jobs) + [] == CallsOf(c.jobs);
    } else {
      StepMade(rekey, c, es[0]);
      RunMade(rekey, Step(rekey, c, es[0]), es[1..], c');
      Regroup(CallsOf(c.jobs), if es[0].Calls? then [es[0].call] else [], Made(es[1..]));
    }
  }

  lemma StepMade(rekey: Rekey, c: Chain, e: Event)
    requires Enabled(c, e)
    ensures CallsOf(Step(rekey, c, e).jobs) == CallsOf(c.jobs) + if e.Calls? then [e.call] else []
  {
  }

  lemma Regroup(a: seq<Call>, b: seq<Call>, c: seq<Call>)
    ensures a + b + c == a + (b + c)
  {
  }

  /** The calls one after the other. */
  function InTurn(ledger: Ledger, calls: seq<Call>): Ledger
    decreases |calls|
  {
    if calls == [] then ledger else Applied(calls[|calls| - 1], InTurn(ledger, calls[..|calls| - 1]))
  }

  lemma {:induction false} AllWritten(rekey: Rekey, start: Chain, jobs: seq<Job>, n: nat)
    requires n <= |jobs| && forall j :: 0 <= j < n ==> jobs[j].phase == Done(true)
    ensures var first := if n > 0 && !start.keyed then rekey(start.stored) else start.stored;
            Replay(rekey, start, jobs, n) == InTurn(first, CallsOf(jobs)[..n])
  {
    if n > 0 {
      AllWritten(rekey, start, jobs, n - 1);
      assert CallsOf(jobs)[..n][..n - 1] == CallsOf(jobs)[..n - 1];
      if n == 1 { assert CallsOf(jobs)[..0] == []; }
    }
  }

  /** However the reads and writes of overlapping calls interleave, once they are
      all written the ledger is what the calls come to in the order they were made,
      on the re-keyed ledger if the session had not re-keyed it: no update is lost,
      and none comes before the re-key. */
  lemma CallsLinearize(rekey: Rekey, start: Chain, es: seq<Event>, c: Chain)
    requires start.jobs == [] && Run(rekey, start, es, c)
    requires forall j :: 0 <= j < |c.jobs| ==> c.jobs[j].phase == Done(true)
    ensures var first := if Made(es) != [] && !start.keyed then rekey(start.stored) else start.stored;
            c.stored == InTurn(first, Made(es))
  {
    assert Inv(rekey, start, start);
    RunKeeps(rekey, start, start, es, c);
    RunMade(rekey, start, es, c);
    assert CallsOf(start.jobs) + Made(es) == Made(es);
    AllWritten(rekey, start, c.jobs, |c.jobs|);
    assert CallsOf(c.jobs)[..|c.jobs|] == Made(es);
  }

  /** A write that failed is as if its call had not been made, but that the session
      counts as re-keyed: storage is at all times what the written calls left. */
  lemma StorageIsReplayed(rekey: Rekey, start: Chain, es: seq<Event>, c: Chain)
    requires start.jobs == [] && Run(rekey, start, es, c)
    ensures CallsOf(c.jobs) == Made(es) && c.stored == Replay(rekey, start, c.jobs, |c.jobs|)
  {
    assert Inv(rekey, start, start);
    RunKeeps(rekey, start, start, es, c);
    RunMade(rekey, start, es, c);
    assert CallsOf(start.jobs) + Made(es) == Made(es);
  }
}
