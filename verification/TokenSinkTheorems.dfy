/** Concurrent relays to a file come to what they would one at a time, in the
    order they were asked for. */
module TokenSinkTheorems {
  import opened Prelude
  import opened TokenSink

  /* ---- one at a time ---- */

  /** Each call waits on the one before it, unless everything before was over. */
  ghost predicate Chained(s: Sink) {
    && (s.tail.Some? ==> s.tail.value == |s.jobs| - 1)
    && (s.tail.None? ==> forall j :: 0 <= j < |s.jobs| ==> s.jobs[j].phase.Done?)
    && (forall j :: 0 <= j < |s.jobs| && s.jobs[j].before.Some? ==> s.jobs[j].before.value == j - 1)
    && (forall i, j :: 0 <= i < j < |s.jobs| && s.jobs[j].before.None? ==> s.jobs[i].phase.Done?)
  }

  /** Once a call has begun, every earlier one is over. */
  ghost predicate InTurn(s: Sink) {
    forall i, j :: 0 <= i < j < |s.jobs| && !s.jobs[j].phase.Waiting? ==> s.jobs[i].phase.Done?
  }

  /* ---- what the file holds ---- */

  /** What the file holds once the first `n` calls were served, each alone and in
      the order they were made. */
  ghost function Replay(held: Option<string>, jobs: seq<Job>, n: nat): Option<string>
    requires n <= |jobs|
  {
    if n == 0 then held
    else if jobs[n - 1].phase == Done(Written) then Some(jobs[n - 1].call.token)
    else Replay(held, jobs, n - 1)
  }

  /** The profile may relay to this file, and the token is good. */
  ghost predicate Admissible(v: Judge, call: Call) { call.own && call.claimed && v(call.token, call.relay, call.now).Some? }

  /** The file holds no token that is still good and issued as late or later. */
  ghost predicate Outdated(v: Judge, call: Call, held: Option<string>)
    requires v(call.token, call.relay, call.now).Some?
  {
    held.Some? ==>
      var kept := v(held.value, call.relay, call.now);
      kept.Some? ==> kept.value.iat < v(call.token, call.relay, call.now).value.iat
  }

  /** The token is to replace what the file holds. */
  ghost predicate Better(v: Judge, call: Call, held: Option<string>) { Admissible(v, call) && Outdated(v, call, held) }

  /** What the call comes to on a file that holds `held`, served alone: unless
      the writing fails, exactly a better token is written; and a refusal names the
      first thing that speaks against it. */
  ghost predicate Served(v: Judge, call: Call, held: Option<string>, o: Outcome) {
    match o
    case Refused(Foreign) => !call.own
    case Refused(Unclaimed) => call.own && !call.claimed
    case Refused(Invalid) => call.own && call.claimed && v(call.token, call.relay, call.now).None?
    case Kept => Admissible(v, call) && !Outdated(v, call, held)
    case Written => Better(v, call, held)
    case Failed => Better(v, call, held)
  }

  ghost predicate Fit(v: Judge, held: Option<string>, jobs: seq<Job>, j: nat)
    requires j < |jobs|
  {
    match jobs[j].phase
    case Waiting => true
    case Sleeping(_) => Better(v, jobs[j].call, Replay(held, jobs, j))
    case Done(o) => Served(v, jobs[j].call, Replay(held, jobs, j), o)
  }

  ghost predicate Fits(v: Judge, held: Option<string>, s: Sink) {
    && s.held == Replay(held, s.jobs, |s.jobs|)
    && (forall j :: 0 <= j < |s.jobs| ==> Fit(v, held, s.jobs, j))
    && (forall j :: j in s.copies <==> 0 <= j < |s.jobs| && s.jobs[j].phase.Sleeping?)
  }

  ghost predicate Inv(v: Judge, held: Option<string>, s: Sink) { Chained(s) && InTurn(s) && Fits(v, held, s) }

  /** Calls that wrote nothing change nothing. */
  lemma {:induction false} ReplayIdle(held: Option<string>, jobs: seq<Job>, k: nat, n: nat)
    requires k <= n <= |jobs| && forall i :: k <= i < n ==> jobs[i].phase != Done(Written)
    ensures Replay(held, jobs, n) == Replay(held, jobs, k)
    decreases n - k
  {
    if k < n { ReplayIdle(held, jobs, k, n - 1); }
  }

  /** The past does not depend on what came later. */
  lemma {:induction false} ReplaySame(held: Option<string>, jobs: seq<Job>, more: seq<Job>, n: nat)
    requires n <= |jobs| && n <= |more| && forall i :: 0 <= i < n ==> more[i] == jobs[i]
    ensures Replay(held, more, n) == Replay(held, jobs, n)
  {
    if n > 0 { ReplaySame(held, jobs, more, n - 1); }
  }

  /** When it is the turn of call `j`, the file holds what the earlier ones left. */
  lemma ItsTurn(v: Judge, held: Option<string>, s: Sink, j: nat)
    requires Inv(v, held, s) && j < |s.jobs| && !s.jobs[j].phase.Done?
    requires s.jobs[j].phase.Waiting? && s.jobs[j].before.Some? ==> Ended(s, s.jobs[j].before.value)
    ensures forall i :: 0 <= i < j ==> s.jobs[i].phase.Done?
    ensures forall i :: j < i < |s.jobs| ==> s.jobs[i].phase.Waiting?
    ensures s.held == Replay(held, s.jobs, j)
  {
    ReplayIdle(held, s.jobs, j, |s.jobs|);
  }

  lemma FitStays(v: Judge, held: Option<string>, jobs: seq<Job>, more: seq<Job>, i: nat)
    requires i < |jobs| && i < |more| && Fit(v, held, jobs, i) && forall k :: 0 <= k <= i ==> more[k] == jobs[k]
    ensures Fit(v, held, more, i)
  {
    ReplaySame(held, jobs, more, i);
  }

  /** Call `j` moves on, its turn having come, and the file with it. */
  lemma Advance(v: Judge, held: Option<string>, s: Sink, j: nat, p: Phase, t: Sink)
    requires Inv(v, held, s) && j < |s.jobs| && !s.jobs[j].phase.Done? && !p.Waiting?
    requires s.jobs[j].phase.Waiting? && s.jobs[j].before.Some? ==> Ended(s, s.jobs[j].before.value)
    requires t.jobs == s.jobs[j := s.jobs[j].(phase := p)] && t.tail == s.tail
    requires t.held == if p == Done(Written) then Some(s.jobs[j].call.token) else s.held
    requires t.copies == if p.Sleeping? then s.copies + {j} else s.copies - {j}
    requires match p
             case Waiting => false
             case Sleeping(_) => Better(v, s.jobs[j].call, s.held)
             case Done(o) => Served(v, s.jobs[j].call, s.held, o)
    ensures Inv(v, held, t)
  {
    ItsTurn(v, held, s, j);
    assert Chained(t) && InTurn(t);
    ReplaySame(held, s.jobs, t.jobs, j);
    ReplayIdle(held, t.jobs, j + 1, |t.jobs|);
    forall i | 0 <= i < |t.jobs| ensures Fit(v, held, t.jobs, i) {
      if i < j { FitStays(v, held, s.jobs, t.jobs, i); }
    }
  }

  lemma TryKeeps(v: Judge, held: Option<string>, s: Sink, j: nat, attempt: nat, r: Rename)
    requires Inv(v, held, s) && j < |s.jobs| && !s.jobs[j].phase.Done?
    requires s.jobs[j].phase.Waiting? && s.jobs[j].before.Some? ==> Ended(s, s.jobs[j].before.value)
    requires Better(v, s.jobs[j].call, s.held)
    ensures Inv(v, held, Try(s.(copies := s.copies + {j}), j, attempt, r))
  {
    var t := Try(s.(copies := s.copies + {j}), j, attempt, r);
    Advance(v, held, s, j, t.jobs[j].phase, t);
  }

  lemma StartKeeps(v: Judge, held: Option<string>, s: Sink, j: nat, folder: bool, copied: bool, r: Rename)
    requires Inv(v, held, s) && Enabled(s, Starts(j, folder, copied, r))
    ensures Inv(v, held, Start(v, s, j, folder, copied, r))
  {
    var call := s.jobs[j].call;
    if Better(v, call, s.held) && folder && copied {
      TryKeeps(v, held, s, j, 0, r);
    } else {
      var t := Start(v, s, j, folder, copied, r);
      assert j !in s.copies;
      Advance(v, held, s, j, t.jobs[j].phase, t);
    }
  }

  lemma WakeKeeps(v: Judge, held: Option<string>, s: Sink, j: nat, r: Rename)
    requires Inv(v, held, s) && Enabled(s, Wakes(j, r))
    ensures Inv(v, held, Step(v, s, Wakes(j, r)))
  {
    ItsTurn(v, held, s, j);
    assert Fit(v, held, s.jobs, j);
    assert j in s.copies && s.copies + {j} == s.copies;
    TryKeeps(v, held, s, j, s.jobs[j].phase.attempt, r);
  }

  lemma AcceptKeeps(v: Judge, held: Option<string>, s: Sink, call: Call)
    requires Inv(v, held, s)
    ensures Inv(v, held, Accept(s, call))
  {
    var t := Accept(s, call);
    ReplaySame(held, s.jobs, t.jobs, |s.jobs|);
    forall i | 0 <= i < |t.jobs| ensures Fit(v, held, t.jobs, i) {
      if i < |s.jobs| {
        assert Fit(v, held, s.jobs, i);
        ReplaySame(held, s.jobs, t.jobs, i);
      }
    }
  }

  lemma ForgetKeeps(v: Judge, held: Option<string>, s: Sink, j: nat)
    requires Inv(v, held, s) && Ended(s, j)
    ensures Inv(v, held, Step(v, s, Forgets(j)))
  {
  }

  lemma StepKeeps(v: Judge, held: Option<string>, s: Sink, e: Event)
    requires Inv(v, held, s) && Enabled(s, e)
    ensures Inv(v, held, Step(v, s, e))
  {
    match e
    case Relays(call) => AcceptKeeps(v, held, s, call);
    case Starts(j, folder, copied, r) => StartKeeps(v, held, s, j, folder, copied, r);
    case Wakes(j, r) => WakeKeeps(v, held, s, j, r);
    case Forgets(j) => ForgetKeeps(v, held, s, j);
  }

  /* ---- over whole runs, with many files ---- */

  /** The calls made for `file`, in the order they were made. */
  ghost function CallsFor(es: seq<(string, Event)>, file: string): seq<Call> {
    if es == [] then [] else CallOf(es[0], file) + CallsFor(es[1..], file)
  }

  ghost function Calls(jobs: seq<Job>): seq<Call> { seq(|jobs|, i requires 0 <= i < |jobs| => jobs[i].call) }

  lemma StepCalls(v: Judge, s: Sink, e: Event)
    requires Enabled(s, e)
    ensures Calls(Step(v, s, e).jobs) == Calls(s.jobs) + if e.Relays? then [e.call] else []
  {
  }

  lemma {:induction false} RunInv(v: Judge, held: Option<string>, files: Sinks, es: seq<(string, Event)>,
      files': Sinks, file: string)
    requires Run(v, files, es, files') && Inv(v, held, At(files, file))
    ensures Inv(v, held, At(files', file))
    decreases es
  {
    if es != [] {
      var f, e, s := es[0].0, es[0].1, At(files, es[0].0);
      if f == file { StepKeeps(v, held, s, e); }
      var next := files[f := Step(v, s, e)];
      assert At(next, file) == if f == file then Step(v, s, e) else At(files, file);
      RunInv(v, held, next, es[1..], files', file);
    }
  }

  ghost function CallOf(e: (string, Event), file: string): seq<Call> {
    if e.0 == file && e.1.Relays? then [e.1.call] else []
  }

  lemma CallsNext(v: Judge, files: Sinks, e: (string, Event), file: string)
    requires Enabled(At(files, e.0), e.1)
    ensures var next := files[e.0 := Step(v, At(files, e.0), e.1)];
            Calls(At(next, file).jobs) == Calls(At(files, file).jobs) + CallOf(e, file)
  {
    StepCalls(v, At(files, e.0), e.1);
  }

  lemma Assoc<T>(a: seq<T>, b: seq<T>, c: seq<T>)
    ensures (a + b) + c == a + (b + c)
  {
  }

  lemma {:induction false} RunCalls(v: Judge, files: Sinks, es: seq<(string, Event)>, files': Sinks, file: string)
    requires Run(v, files, es, files')
    ensures Calls(At(files', file).jobs) == Calls(At(files, file).jobs) + CallsFor(es, file)
    decreases es
  {
    if es != [] {
      CallsNext(v, files, es[0], file);
      RunCalls(v, files[es[0].0 := Step(v, At(files, es[0].0), es[0].1)], es[1..], files', file);
      Assoc(Calls(At(files, file).jobs), CallOf(es[0], file), CallsFor(es[1..], file));
    }
  }

  lemma RunKeeps(v: Judge, files: Sinks, es: seq<(string, Event)>, files': Sinks, file: string)
    requires Fresh(files) && Run(v, files, es, files')
    ensures Inv(v, At(files, file).held, At(files', file)) && Calls(At(files', file).jobs) == CallsFor(es, file)
  {
    RunInv(v, At(files, file).held, files, es, files', file);
    RunCalls(v, files, es, files', file);
  }

  /** Any interleaving of relays to any files leaves each file as serving its own
      calls one at a time would, in the order they were made: each call comes to
      what it would alone, on what the calls before it left. */
  lemma RelaysLinearize(v: Judge, files: Sinks, es: seq<(string, Event)>, files': Sinks, file: string)
    requires Fresh(files) && Run(v, files, es, files')
    ensures var s, held := At(files', file), At(files, file).held;
            && Calls(s.jobs) == CallsFor(es, file)
            && s.held == Replay(held, s.jobs, |s.jobs|)
            && forall j :: 0 <= j < |s.jobs| && s.jobs[j].phase.Done? ==>
                 Served(v, s.jobs[j].call, Replay(held, s.jobs, j), s.jobs[j].phase.outcome)
  {
    var s := At(files', file);
    RunKeeps(v, files, es, files', file);
    forall j | 0 <= j < |s.jobs| && s.jobs[j].phase.Done?
      ensures Served(v, s.jobs[j].call, Replay(At(files, file).held, s.jobs, j), s.jobs[j].phase.outcome)
    {
      assert Fit(v, At(files, file).held, s.jobs, j);
    }
  }

  /** A copy of a token stands beside its file only while its call sleeps, so
      once every call is over, however it ended, none is left. */
  lemma NoCopyRemains(v: Judge, files: Sinks, es: seq<(string, Event)>, files': Sinks, file: string)
    requires Fresh(files) && Run(v, files, es, files')
    ensures var s := At(files', file);
            && (forall j :: j in s.copies ==> j < |s.jobs| && s.jobs[j].phase.Sleeping?)
            && (forall i, j :: i in s.copies && j in s.copies ==> i == j)
            && ((forall j :: 0 <= j < |s.jobs| ==> s.jobs[j].phase.Done?) ==> s.copies == {})
  {
    RunKeeps(v, files, es, files', file);
  }

  /* ---- the newest token ---- */

  /** Every relay, whenever it is judged, takes these tokens for good, issued when
      `iat` says. */
  ghost predicate AllGood(v: Judge, iat: string -> int, held: Option<string>, jobs: seq<Job>) {
    && (forall i, j :: 0 <= i < |jobs| && 0 <= j < |jobs| ==> GoodFor(v, iat, jobs[i].call.token, jobs[j].call))
    && (held.Some? ==> forall j :: 0 <= j < |jobs| ==> GoodFor(v, iat, held.value, jobs[j].call))
    && (forall j :: 0 <= j < |jobs| ==> jobs[j].call.own && jobs[j].call.claimed && jobs[j].phase.Done? && jobs[j].phase.outcome != Failed)
  }

  ghost predicate GoodFor(v: Judge, iat: string -> int, token: string, call: Call) {
    v(token, call.relay, call.now).Some? && v(token, call.relay, call.now).value.iat == iat(token)
  }

  lemma {:induction false} NewestHeld(v: Judge, iat: string -> int, held: Option<string>, jobs: seq<Job>, n: nat)
    requires n <= |jobs| && AllGood(v, iat, held, jobs)
    requires forall j :: 0 <= j < |jobs| ==> Fit(v, held, jobs, j)
    ensures n > 0 ==> Replay(held, jobs, n).Some?
    ensures forall j :: 0 <= j < n ==> iat(jobs[j].call.token) <= iat(Replay(held, jobs, n).value)
    ensures held.Some? ==> Replay(held, jobs, n).Some? && iat(held.value) <= iat(Replay(held, jobs, n).value)
    ensures Replay(held, jobs, n) == held || exists j :: 0 <= j < n && Replay(held, jobs, n) == Some(jobs[j].call.token)
  {
    if n > 0 {
      NewestHeld(v, iat, held, jobs, n - 1);
      assert Fit(v, held, jobs, n - 1);
      assert GoodFor(v, iat, jobs[n - 1].call.token, jobs[n - 1].call);
      var was := Replay(held, jobs, n - 1);
      if was.Some? { assert GoodFor(v, iat, was.value, jobs[n - 1].call); }
    }
  }

  /** While every token stays good and every write succeeds, the file ends with
      one issued last of all, in whatever order they came. */
  lemma NewestTokenWins(v: Judge,
      iat: string -> int, files: Sinks, es: seq<(string, Event)>, files': Sinks, file: string)
    requires Fresh(files) && Run(v, files, es, files')
    requires AllGood(v, iat, At(files, file).held, At(files', file).jobs) && CallsFor(es, file) != []
    ensures var s := At(files', file);
            && s.held.Some? && (At(files, file).held == s.held || exists c :: c in CallsFor(es, file) && s.held == Some(c.token))
            && (forall c :: c in CallsFor(es, file) ==> iat(c.token) <= iat(s.held.value))
            && (At(files, file).held.Some? ==> iat(At(files, file).held.value) <= iat(s.held.value))
  {
    var s, held := At(files', file), At(files, file).held;
    RunKeeps(v, files, es, files', file);
    NewestHeld(v, iat, held, s.jobs, |s.jobs|);
    assert Calls(s.jobs) == CallsFor(es, file);
    if s.held != held {
      var j :| 0 <= j < |s.jobs| && s.held == Some(s.jobs[j].call.token);
      assert Calls(s.jobs)[j] in CallsFor(es, file);
    }
  }

  /* ---- the disk ---- */

  /** A better token is written if the folder is there, its copy can be written, and
      the copy can be renamed; a file found busy puts the call to sleep, and nothing
      else but the disk makes it fail. */
  lemma BetterIsWritten(v: Judge, s: Sink, j: nat, folder: bool, copied: bool, r: Rename)
    requires Enabled(s, Starts(j, folder, copied, r)) && Better(v, s.jobs[j].call, s.held)
    ensures var t := Step(v, s, Starts(j, folder, copied, r));
            && t.jobs[j].phase == (if !folder || !copied || r == Broken then Done(Failed) else if r == Busy then Sleeping(1) else Done(Written))
            && t.held == (if folder && copied && r == Renamed then Some(s.jobs[j].call.token) else s.held)
            && (forall i :: 0 <= i < |s.jobs| && i != j ==> t.jobs[i] == s.jobs[i])
  {
  }

  /** A call found busy is woken five times at most. */
  lemma SleeperTriesAgain(v: Judge, s: Sink, j: nat, r: Rename)
    requires Enabled(s, Wakes(j, r))
    ensures var t, n := Step(v, s, Wakes(j, r)), s.jobs[j].phase.attempt;
            && t.jobs[j].phase == (if r == Renamed then Done(Written) else if r == Busy && n < 5 then Sleeping(n + 1) else Done(Failed))
            && t.held == (if r == Renamed then Some(s.jobs[j].call.token) else s.held)
            && (forall i :: 0 <= i < |s.jobs| && i != j ==> t.jobs[i] == s.jobs[i])
  {
  }

  /* ---- the queue ---- */

  /** Some call can always go on: none waits for one that will not come. */
  lemma SomeCallCanGo(v: Judge, files: Sinks, es: seq<(string, Event)>, files': Sinks, file: string, j: nat) returns (i: nat)
    requires Fresh(files) && Run(v, files, es, files') && j < |At(files', file).jobs| && !At(files', file).jobs[j].phase.Done?
    ensures i <= j && var s := At(files', file);
            !s.jobs[i].phase.Done? && (forall folder, copied, r :: s.jobs[i].phase.Waiting? ==> Enabled(s, Starts(i, folder, copied, r)))
                                   && (forall r :: s.jobs[i].phase.Sleeping? ==> Enabled(s, Wakes(i, r)))
  {
    RunKeeps(v, files, es, files', file);
    var s := At(files', file);
    i := 0;
    while s.jobs[i].phase.Done?
      invariant i <= j && forall k :: 0 <= k < i ==> s.jobs[k].phase.Done?
      decreases j - i
    {
      i := i + 1;
    }
  }

  /** Once the last call made for a file is over the file is forgotten, and the next
      call waits for nobody. */
  lemma LastCallForgets(v: Judge, s: Sink, call: Call)
    requires s.jobs != [] && s.tail == Some(|s.jobs| - 1) && Ended(s, |s.jobs| - 1)
    ensures var t := Step(v, Step(v, s, Forgets(|s.jobs| - 1)), Relays(call)); t.jobs[|s.jobs|].before == None
  {
  }
}
