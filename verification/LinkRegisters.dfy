/** One port, one REGISTER: what lets the broker take a connection's registration
    for the only one. */
module LinkRegisters {
  import opened Prelude
  import opened Link
  import opened LinkInvariant
  import opened LinkTheorems

  /** The event posts the identity collected for port `p`. */
  ghost predicate Posts(w: Link, e: Event, p: nat) {
    e.Resume? && e.ok && e.task in w.tasks && w.tasks[e.task] == Identity(p) && Current(w, p)
  }

  /** How often a run posts REGISTER to port `p`. */
  ghost function Posted(w: Link, es: seq<Event>, p: nat): nat
    decreases es
  {
    if es == [] || !Enabled(w, es[0]) then 0
    else (if Posts(w, es[0], p) then 1 else 0) + Posted(Step(w, es[0]), es[1..], p)
  }

  /** Port `p` was opened, and no identity is being collected for it any more. */
  ghost predicate Spent(w: Link, p: nat) { p < w.nextPort && forall t :: t in w.tasks ==> w.tasks[t] != Identity(p) }

  lemma ContinueSpent(w: Link, k: Task, ok: bool, now: nat, p: nat)
    requires Spent(w, p)
    ensures Spent(Continue(w, k, ok, now), p)
  {
    match k
    case ReadState(e, phase) => DecideSpent(w, e, phase, false, false, p);
    case ReadHeld(e, phase, held) => DecideSpent(w, e, phase, held, false, p);
    case ReadBeat(e, _) => DecideSpent(w, e, Ready, false, IsStale(k.beat, now), p);
    case Cleared(after) => AfterSpent(w, after, p);
    case Downed(after) => AfterSpent(w, after, p);
    case Acking(from, done) => RecordSpent(w, from, done, now, p);
    case Holding(_, _) =>
    case _ =>
  }

  lemma DecideSpent(w: Link, epoch: nat, phase: Phase, held: bool, stale: bool, p: nat)
    requires Spent(w, p)
    ensures Spent(Decide(w, epoch, phase, held, stale), p)
  {
  }

  lemma AfterSpent(w: Link, after: After, p: nat)
    requires Spent(w, p)
    ensures Spent(AfterTeardown(w, after), p)
  {
  }

  lemma RecordSpent(w: Link, from: nat, done: AckStep, now: nat, p: nat)
    requires Spent(w, p)
    ensures Spent(Record(w, from, done, now), p)
  {
  }

  lemma StaysSpent(w: Link, e: Event, p: nat)
    requires Spent(w, p) && Enabled(w, e)
    ensures Spent(Step(w, e), p)
  {
    if e.Resume? { ContinueSpent(w.(tasks := w.tasks - {e.task}), w.tasks[e.task], e.ok, e.now, p); }
  }

  /** Only one identity is collected at a time, so what was posted is spent. */
  lemma PostsOnce(w: Link, e: Event, p: nat)
    requires Inv(w) && Enabled(w, e) && Posts(w, e, p)
    ensures Spent(Step(w, e), p)
  {
    var v := w.(tasks := w.tasks - {e.task});
    assert TaskOk(w, w.tasks[e.task]);
    forall t | t in v.tasks ensures v.tasks[t] != Identity(p) {
      assert PairOk(w.epoch, t, w.tasks[t], e.task, w.tasks[e.task]);
    }
    ContinueSpent(v, Identity(p), true, e.now, p);
  }

  lemma {:induction false} SpentPostsNever(w: Link, es: seq<Event>, p: nat)
    requires Spent(w, p)
    ensures Posted(w, es, p) == 0
    decreases es
  {
    if es != [] && Enabled(w, es[0]) {
      StaysSpent(w, es[0], p);
      SpentPostsNever(Step(w, es[0]), es[1..], p);
    }
  }

  lemma {:induction false} PostedOnce(w: Link, es: seq<Event>, v: Link, p: nat)
    requires Inv(w) && Run(w, es, v)
    ensures Posted(w, es, p) <= 1
    decreases es
  {
    if es != [] {
      if Posts(w, es[0], p) {
        PostsOnce(w, es[0], p);
        SpentPostsNever(Step(w, es[0]), es[1..], p);
      } else {
        Keeps(w, es[0]);
        KeepsBusy(w, es[0]);
        PostedOnce(Step(w, es[0]), es[1..], v, p);
      }
    }
  }

  /** Over every run at most one REGISTER is posted to any one native port. */
  lemma OnePortOneRegister(w: Link, es: seq<Event>, v: Link, p: nat)
    requires Fresh(w) && Run(w, es, v)
    ensures Posted(w, es, p) <= 1
  {
    Boots(w.session, w.nextPort, w.timers.next, w.nextTask - 1);
    PostedOnce(w, es, v, p);
  }
}
