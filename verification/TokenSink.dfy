/** token-relay.mjs: relayed tokens, each file written by one relay at a time.
    A relay that finds its file busy sleeps and tries the rename again, so
    relays to one file and to others interleave at every sleep. */
module TokenSink {
  import opened Prelude

  /** A token's expiry and issue time: exp and iat of RFC 7519, sections 4.1.4
      and 4.1.6. */
  datatype Claims = Claims(exp: int, iat: int)

  /** tokenVerdict: a token, judged for a relay at a time. None is a refusal. */
  type Judge = (string, nat, int) -> Option<Claims>

  /** One call of acceptRelayedToken; `own` is whether the relay belongs to this
      profile, `claimed` whether the profile is claimed. */
  datatype Call = Call(token: string, relay: nat, now: int, own: bool, claimed: bool)

  datatype Reason = Foreign | Unclaimed | Invalid

  datatype Outcome = Written | Kept | Refused(why: Reason) | Failed

  /** `Sleeping` between two rename attempts, its copy beside the file. */
  datatype Phase = Waiting | Sleeping(attempt: nat) | Done(outcome: Outcome)

  /** `before` is the call whose promise this one was chained to. */
  datatype Job = Job(call: Call, before: Option<nat>, phase: Phase)

  datatype Rename = Renamed | Busy | Broken

  /** One file: the calls made for it, in order; what sinkQueues has for it; what
      it holds; and the temporary copies beside it, by the call that wrote them. */
  datatype Sink = Sink(jobs: seq<Job>, tail: Option<nat>, held: Option<string>, copies: set<nat>)

  /** acceptRelayedToken: behind whatever was asked of that file before. */
  function Accept(s: Sink, call: Call): Sink {
    s.(jobs := s.jobs + [Job(call, s.tail, Waiting)], tail := Some(|s.jobs|))
  }

  /** The token in the file is still good for this relay and issued as late or later. */
  predicate Keeps(v: Judge, call: Call, held: Option<string>) {
    && held.Some? && v(held.value, call.relay, call.now).Some? && v(call.token, call.relay, call.now).Some?
    && v(held.value, call.relay, call.now).value.iat >= v(call.token, call.relay, call.now).value.iat
  }

  /** What speaks against the call, whatever the file holds. */
  function Refusal(v: Judge, call: Call): Option<Reason> {
    if !call.own then Some(Foreign)
    else if !call.claimed then Some(Unclaimed)
    else if v(call.token, call.relay, call.now).None? then Some(Invalid)
    else None
  }

  predicate Ended(s: Sink, j: nat) { j < |s.jobs| && s.jobs[j].phase.Done? }

  function SetPhase(s: Sink, j: nat, p: Phase): Sink
    requires j < |s.jobs|
  {
    s.(jobs := s.jobs[j := s.jobs[j].(phase := p)])
  }

  /** One rename attempt of writeReplacing, the copy being there. */
  function Try(s: Sink, j: nat, attempt: nat, r: Rename): Sink
    requires j < |s.jobs|
  {
    match r
    case Renamed => SetPhase(s.(held := Some(s.jobs[j].call.token), copies := s.copies - {j}), j, Done(Written))
    case Busy =>
      if attempt >= 5 then SetPhase(s.(copies := s.copies - {j}), j, Done(Failed))
      else SetPhase(s, j, Sleeping(attempt + 1))
    case Broken => SetPhase(s.(copies := s.copies - {j}), j, Done(Failed))
  }

  /** judgeAndWrite up to its first sleep; `folder` and `copied` are whether the
      folder is there and the copy could be written. */
  function Start(v: Judge, s: Sink, j: nat, folder: bool, copied: bool, r: Rename): Sink
    requires j < |s.jobs|
  {
    var call := s.jobs[j].call;
    if Refusal(v, call).Some? then SetPhase(s, j, Done(Refused(Refusal(v, call).value)))
    else if Keeps(v, call, s.held) then SetPhase(s, j, Done(Kept))
    else if !folder || !copied then SetPhase(s, j, Done(Failed))
    else Try(s.(copies := s.copies + {j}), j, 0, r)
  }

  datatype Event =
    | Relays(call: Call)
    | Starts(j: nat, folder: bool, copied: bool, r: Rename)
    | Wakes(j: nat, r: Rename)
    | Forgets(j: nat)

  /** A call starts once the one it is chained to has settled. */
  predicate Enabled(s: Sink, e: Event) {
    match e
    case Relays(_) => true
    case Starts(j, _, _, _) => j < |s.jobs| && s.jobs[j].phase.Waiting? && (s.jobs[j].before.Some? ==> Ended(s, s.jobs[j].before.value))
    case Wakes(j, _) => j < |s.jobs| && s.jobs[j].phase.Sleeping?
    case Forgets(j) => Ended(s, j)
  }

  function Step(v: Judge, s: Sink, e: Event): Sink
    requires Enabled(s, e)
  {
    match e
    case Relays(call) => Accept(s, call)
    case Starts(j, folder, copied, r) => Start(v, s, j, folder, copied, r)
    case Wakes(j, r) => Try(s, j, s.jobs[j].phase.attempt, r)
    case Forgets(j) => if s.tail == Some(j) then s.(tail := None) else s
  }

  /* ---- many files ---- */

  type Sinks = map<string, Sink>

  function At(files: Sinks, file: string): Sink {
    if file in files then files[file] else Sink([], None, None, {})
  }

  /** Any interleaving of what happens to any of the files. */
  ghost predicate Run(v: Judge, files: Sinks, es: seq<(string, Event)>, files': Sinks)
    decreases es
  {
    if es == [] then files' == files
    else
      var (file, e) := es[0];
      Enabled(At(files, file), e) && Run(v, files[file := Step(v, At(files, file), e)], es[1..], files')
  }

  /** Nothing asked for yet. */
  ghost predicate Fresh(files: Sinks) {
    forall f :: f in files ==> files[f].jobs == [] && files[f].tail == None && files[f].copies == {}
  }
}
