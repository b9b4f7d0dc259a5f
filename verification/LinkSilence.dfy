/** Silence, and nothing but silence, costs a READY link its port at a wake. */
module LinkSilence {
  import opened Prelude
  import opened Link
  import opened LinkInvariant
  import opened LinkTheorems
  import opened LinkUndisturbed

  /** A wake source that has read the whole link lets the port go if and only if
      no heartbeat was on record, or the one on record was more than 45 seconds
      old. Otherwise nothing changes but that the read is over. */
  lemma SilenceIsDroppedIff(w: Link, t: nat, beat: nat, ok: bool, now: nat)
    requires Inv(w) && w.port.Some? && Enabled(w, Resume(t, ok, now)) && w.tasks[t] == ReadBeat(w.epoch, beat)
    ensures var v := Step(w, Resume(t, ok, now));
            if beat == 0 || now - beat > 45_000 then v.port == None && v.open == {} && v.connectInFlight
            else v == w.(tasks := w.tasks - {t})
  {
    assert TaskOk(w, w.tasks[t]);
  }

  /** A port that was accepted, with no stamp older than `since` on record, nor in
      a read that may still decide. */
  ghost predicate Heard(w: Link, p: nat, since: nat) {
    && w.port == Some(p) && w.session.phase == Ready && 0 < since <= w.session.beat
    && forall t :: t in w.tasks && w.tasks[t].ReadBeat? && w.tasks[t].epoch == w.epoch ==> since <= w.tasks[t].beat
  }

  /** What ends a link outright: the host or the broker ends it, its deadline
      passes, a post fails, the operator redials, or the worker goes. */
  ghost predicate Ends(w: Link, p: nat, e: Event) {
    match e
    case HostExit(from) => from == p
    case Frame(from, msg) => from == p && msg == Refusal
    case AckTimeout(_) => true
    case ForceRedial(_) => true
    case Evict => true
    case Resume(t, ok, _) => t in w.tasks && (w.tasks[t] == Posting(p) || w.tasks[t] == Identity(p)) && !ok
    case _ => false
  }

  /** Every clock the event reads is between `since` and 45 seconds later. */
  predicate Soon(e: Event, since: nat) {
    match e
    case Resume(_, _, now) => since <= now <= since + 45_000
    case Frame(_, Ping(at)) => since <= at <= since + 45_000
    case _ => true
  }

  ghost predicate Undisturbed(w: Link, es: seq<Event>, p: nat, since: nat)
    decreases es
  {
    es != [] && Enabled(w, es[0]) ==> !Ends(w, p, es[0]) && Soon(es[0], since) && Undisturbed(Step(w, es[0]), es[1..], p, since)
  }

  lemma HeardReads(w: Link, t: nat, ok: bool, now: nat, p: nat, since: nat)
    requires Inv(w) && Enabled(w, Resume(t, ok, now)) && Reading(w.tasks[t])
    requires Heard(w, p, since) && since <= now <= since + 45_000
    ensures Heard(Step(w, Resume(t, ok, now)), p, since)
  {
    assert TaskOk(w, w.tasks[t]);
  }

  /** A panic refusal being recorded is of another port. */
  lemma HeardHolds(w: Link, t: nat, ok: bool, now: nat, p: nat, since: nat)
    requires Inv(w) && Enabled(w, Resume(t, ok, now)) && w.tasks[t].Holding? && Heard(w, p, since)
    ensures Heard(Step(w, Resume(t, ok, now)), p, since)
  {
    assert TaskOk(w, w.tasks[t]);
    assert !Current(w, w.tasks[t].from);
  }

  lemma RecordHeard(u: Link, from: nat, done: AckStep, now: nat, p: nat, since: nat)
    requires Heard(u, p, since) && since <= now && forall t :: t in u.tasks && u.tasks[t].ReadBeat? ==> u.tasks[t].epoch <= u.epoch
    ensures Heard(Record(u, from, done, now), p, since)
  {
  }

  lemma HeardRecords(w: Link, t: nat, ok: bool, now: nat, p: nat, since: nat)
    requires Inv(w) && Enabled(w, Resume(t, ok, now)) && w.tasks[t].Acking? && Heard(w, p, since) && since <= now
    ensures Heard(Step(w, Resume(t, ok, now)), p, since)
  {
    forall u | u in w.tasks && w.tasks[u].ReadBeat? ensures w.tasks[u].epoch <= w.epoch { assert TaskOk(w, w.tasks[u]); }
    RecordHeard(w.(tasks := w.tasks - {t}), w.tasks[t].from, w.tasks[t].recorded, now, p, since);
  }

  lemma HeardResumes(w: Link, t: nat, ok: bool, now: nat, p: nat, since: nat)
    requires Inv(w) && Enabled(w, Resume(t, ok, now))
    requires Heard(w, p, since) && !Ends(w, p, Resume(t, ok, now)) && since <= now <= since + 45_000
    ensures Heard(Step(w, Resume(t, ok, now)), p, since)
  {
    var k := w.tasks[t];
    assert TaskOk(w, k);
    if Reading(k) {
      HeardReads(w, t, ok, now, p, since);
    } else if k.Acking? {
      HeardRecords(w, t, ok, now, p, since);
    } else if k.Holding? {
      HeardHolds(w, t, ok, now, p, since);
    }
  }

  lemma HeardStays(w: Link, e: Event, p: nat, since: nat)
    requires Inv(w) && Enabled(w, e) && Consistent(w, e) && Heard(w, p, since) && !Ends(w, p, e) && Soon(e, since)
    ensures Heard(Step(w, e), p, since)
  {
    match e
    case Resume(t, ok, now) => HeardResumes(w, t, ok, now, p, since);
    case _ =>
  }

  /** Over every run: a READY port whose stamps are at most 45 seconds old, by
      every clock that reads them, is kept by all the wake sources there are,
      until something ends it outright. */
  lemma {:induction false} HeardPortIsKept(w: Link, es: seq<Event>, v: Link, p: nat, since: nat)
    requires Inv(w) && Run(w, es, v) && Heard(w, p, since) && Undisturbed(w, es, p, since)
    ensures v.port == Some(p) && v.session.phase == Ready && since <= v.session.beat
    decreases es
  {
    if es != [] {
      HeardStays(w, es[0], p, since);
      Keeps(w, es[0]);
      KeepsBusy(w, es[0]);
      HeardPortIsKept(Step(w, es[0]), es[1..], v, p, since);
    }
  }

  /* ---- a ping that comes too late ---- */

  lemma {:induction false} RunJoin(w: Link, a: seq<Event>, u: Link, b: seq<Event>, v: Link)
    requires Run(w, a, u) && Run(u, b, v)
    ensures Run(w, a + b, v)
    decreases a
  {
    if a == [] {
      assert a + b == b;
    } else {
      RunJoin(Step(w, a[0]), a[1..], u, b, v);
      assert (a + b)[1..] == a[1..] + b;
    }
  }

  lemma GoQuietly(es: seq<Event>, v: Link, n: nat, now: nat) returns (es': seq<Event>, v': Link)
    requires Run(Init(), es, v)
    ensures v' == Quietly(v, n, now) && Run(Init(), es', v')
  {
    v' := Quietly(v, n, now);
    var more := QuietlyRuns(v, n, now);
    RunJoin(Init(), es, v, more, v');
    es' := es + more;
  }

  /** The first worker, READY, last heard from at `at`. */
  ghost function Up(at: nat): Link {
    Init().(port := Some(0), open := {0}, nextPort := 1, epoch := 2, session := Session(Ready, false, at),
            timers := Timers(map[], {}, 1), tasks := map[], nextTask := 11, answers := Answered({0}, {}))
  }

  lemma ReachesUp(at: nat) returns (es: seq<Event>)
    ensures Run(Init(), es, Up(at)) && AtPeace(Up(at))
  {
    var v := Init();
    es := [];
    var i := Introduced(Init().(tasks := map[]), 4);
    StartDials(Session(Down, false, 0), 0, 0, 0, 0);
    es, v := GoQuietly(es, v, 5, 0);
    assert v == i && v.nextTask == 5;
    Boots(Session(Down, false, 0), 0, 0, 0);
    RunKeeps(Init(), es, i);
    AcceptedIsReady(i, 0, at);
    es, v := Go(es, v, Frame(0, Ack));
    es, v := GoQuietly(es, v, 6, at);
    assert v == Up(at);
    RunKeeps(Init(), es, v);
  }

  lemma ReachesLastRead() returns (es: seq<Event>, v: Link)
    ensures Run(Init(), es, v) && v == Up(1_000).(tasks := map[13 := ReadBeat(2, 1_000)], nextTask := 14)
  {
    es := ReachesUp(1_000);
    v := Up(1_000);
    es, v := Go(es, v, Wake);
    assert v == Up(1_000).(tasks := map[11 := ReadState(2, Ready)], nextTask := 12);
    es, v := Go(es, v, Resume(11, true, 50_000));
    assert v == Up(1_000).(tasks := map[12 := ReadHeld(2, Ready, false)], nextTask := 13);
    es, v := Go(es, v, Resume(12, true, 50_000));
    assert v.tasks == map[13 := ReadBeat(2, 1_000)];
  }

  /** The stamp that counts is the one that was read: a ping that is noted between
      the read and its answer does not save a link found silent. */
  lemma PingCanComeTooLate() returns (es: seq<Event>, v: Link, t: nat)
    ensures Run(Init(), es, v) && v.port == Some(0) && v.session == Session(Ready, false, 60_000)
    ensures Enabled(v, Resume(t, true, 60_000)) && Step(v, Resume(t, true, 60_000)).port == None
  {
    es, v := ReachesLastRead();
    es, v := Go(es, v, Frame(0, Ping(60_000)));
    t := 13;
  }
}
