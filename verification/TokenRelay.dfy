/** token-relay.mjs as it runs, for one file: the queue, the file and the copy
    beside it, changed in place. */
module TokenRelay {
  import opened Prelude
  import T = TokenSink

  class Relay {
    const verdict: T.Judge
    var jobs: seq<T.Job>
    var queue: Option<nat>
    var file: Option<string>
    var copies: set<nat>

    ghost function View(): T.Sink
      reads this
    {
      T.Sink(jobs, queue, file, copies)
    }

    constructor (v: T.Judge, held: Option<string>)
      ensures verdict == v && View() == T.Sink([], None, held, {})
    {
      verdict, jobs, queue, file, copies := v, [], None, held, {};
    }

    /** oneAtATime: chain the call to whatever was asked of the file before. */
    method OneAtATime(call: T.Call) returns (j: nat)
      modifies this
      ensures j == |old(jobs)| && View() == T.Step(verdict, old(View()), T.Relays(call))
    {
      j := |jobs|;
      jobs := jobs + [T.Job(call, queue, T.Waiting)];
      queue := Some(j);
    }

    method Settle(j: nat, p: T.Phase)
      requires j < |jobs|
      modifies this`jobs
      ensures jobs == old(jobs)[j := old(jobs)[j].(phase := p)]
    {
      jobs := jobs[j := jobs[j].(phase := p)];
    }

    /** The queue forgets a file once its last call is over. */
    method Forget(j: nat)
      requires T.Enabled(View(), T.Forgets(j))
      modifies this
      ensures View() == T.Step(verdict, old(View()), T.Forgets(j))
    {
      if queue == Some(j) { queue := None; }
    }

    /** judgeAndWrite, up to its first sleep. */
    method JudgeAndWrite(j: nat, folder: bool, copied: bool, r: T.Rename)
      requires T.Enabled(View(), T.Starts(j, folder, copied, r))
      modifies this
      ensures View() == T.Step(verdict, old(View()), T.Starts(j, folder, copied, r))
    {
      var call := jobs[j].call;
      if !call.own { Settle(j, T.Done(T.Refused(T.Foreign))); return; }
      if !call.claimed { Settle(j, T.Done(T.Refused(T.Unclaimed))); return; }
      var judged := verdict(call.token, call.relay, call.now);
      if judged.None? { Settle(j, T.Done(T.Refused(T.Invalid))); return; }
      if file.Some? {
        var kept := verdict(file.value, call.relay, call.now);
        if kept.Some? && kept.value.iat >= judged.value.iat { Settle(j, T.Done(T.Kept)); return; }
      }
      if !folder { Settle(j, T.Done(T.Failed)); return; }
      WriteReplacing(j, copied, r);
    }

    /** writeReplacing: the copy, the first attempt to rename it over the file, and
        the copy removed again unless the call goes to sleep. */
    method WriteReplacing(j: nat, copied: bool, r: T.Rename)
      requires j < |jobs|
      modifies this
      ensures View() == if copied then T.Try(old(View()).(copies := old(copies) + {j}), j, 0, r)
                        else T.SetPhase(old(View()), j, T.Done(T.Failed))
    {
      if !copied { Settle(j, T.Done(T.Failed)); return; }
      copies := copies + {j};
      TryRename(j, 0, r);
    }

    method TryRename(j: nat, attempt: nat, r: T.Rename)
      requires j < |jobs|
      modifies this
      ensures View() == T.Try(old(View()), j, attempt, r)
    {
      if r.Busy? && attempt < 5 { Settle(j, T.Sleeping(attempt + 1)); return; }
      if r.Renamed? { file := Some(jobs[j].call.token); }
      copies := copies - {j};
      Settle(j, T.Done(if r.Renamed? then T.Written else T.Failed));
    }

    /** The call wakes and tries the rename again. */
    method Wake(j: nat, r: T.Rename)
      requires T.Enabled(View(), T.Wakes(j, r))
      modifies this
      ensures View() == T.Step(verdict, old(View()), T.Wakes(j, r))
    {
      TryRename(j, jobs[j].phase.attempt, r);
    }
  }
}
