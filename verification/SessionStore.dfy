/** Why the link may apply a storage write where it is issued: the store answers
    its calls in the order they were made, so a read is answered with exactly
    what every call before it had written, however calls and answers interleave. */
module SessionStore {
  datatype Call<K, V> = Get | Set(patch: map<K, V>)

  /** What is written, and the calls still owed an answer, oldest first. */
  datatype Store<K, V> = Store(written: map<K, V>, calls: seq<Call<K, V>>)

  datatype Move<K, V> = Issue(call: Call<K, V>) | Answer

  function Write<K, V>(m: map<K, V>, call: Call<K, V>): map<K, V> {
    if call.Set? then m + call.patch else m
  }

  /** What the store will hold once it has answered every call made so far. */
  function Visible<K, V>(s: Store<K, V>): map<K, V>
    decreases |s.calls|
  {
    if s.calls == [] then s.written else Visible(Store(Write(s.written, s.calls[0]), s.calls[1..]))
  }

  function Move1<K, V>(s: Store<K, V>, m: Move<K, V>): Store<K, V> {
    match m
    case Issue(call) => Store(s.written, s.calls + [call])
    case Answer => if s.calls == [] then s else Store(Write(s.written, s.calls[0]), s.calls[1..])
  }

  function Moves<K, V>(s: Store<K, V>, ms: seq<Move<K, V>>): Store<K, V>
    decreases ms
  {
    if ms == [] then s else Moves(Move1(s, ms[0]), ms[1..])
  }

  function Answers<K, V>(ms: seq<Move<K, V>>): nat {
    if ms == [] then 0 else (if ms[0].Answer? then 1 else 0) + Answers(ms[1..])
  }

  /** A read issued on `s` and answered after the |s.calls| calls before it sees
      Visible(s), whatever else was issued or answered in between. */
  lemma {:induction false} ReadSeesEveryEarlierWrite<K, V>(s: Store<K, V>, later: seq<Call<K, V>>, ms: seq<Move<K, V>>)
    requires Answers(ms) == |s.calls|
    ensures var t := Moves(Store(s.written, s.calls + [Get] + later), ms);
            t.calls != [] && t.calls[0] == Get && t.written == Visible(s)
    decreases ms
  {
    if ms != [] {
      match ms[0]
      case Issue(call) =>
        assert s.calls + [Get] + later + [call] == s.calls + [Get] + (later + [call]);
        ReadSeesEveryEarlierWrite(s, later + [call], ms[1..]);
      case Answer =>
        var s' := Store(Write(s.written, s.calls[0]), s.calls[1..]);
        assert (s.calls + [Get] + later)[1..] == s'.calls + [Get] + later;
        ReadSeesEveryEarlierWrite(s', later, ms[1..]);
    }
  }
}
