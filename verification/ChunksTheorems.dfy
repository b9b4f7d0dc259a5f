/** Whatever order the parts of several messages arrive in, each message comes
    out once, byte for byte. */
module ChunksTheorems {
  import opened Prelude
  import opened Chunks

  type Bodies = map<string, Bytes>

  /** What came out, in order. */
  type Delivered = seq<(string, Bytes)>

  function Emit(out: Delivered, id: string, m: Option<Bytes>): Delivered {
    if m.Some? then out + [(id, m.value)] else out
  }

  function Receive(c: Codec, bs: Buffers, fs: seq<Chunk>): (Buffers, Delivered)
    decreases |fs|
  {
    if fs == [] then (bs, [])
    else
      var n := |fs| - 1;
      var (b, out) := Receive(c, bs, fs[..n]);
      var (b1, message) := Absorb(c, b, fs[n]);
      (b1, Emit(out, fs[n].id, message))
  }

  /** Frames over several ports in turn: what a lost link left is cleared. */
  function ReceivePorts(c: Codec, ports: seq<seq<Chunk>>): seq<Delivered> {
    if ports == [] then [] else ReceivePorts(c, ports[..|ports| - 1]) + [Receive(c, map[], ports[|ports| - 1]).1]
  }

  lemma ReceiveNextFrom(c: Codec, bs: Buffers, fs: seq<Chunk>, n: nat)
    requires n < |fs|
    ensures var (b, out) := Receive(c, bs, fs[..n]);
            var (b1, m) := Absorb(c, b, fs[n]);
            Receive(c, bs, fs[..n + 1]) == (b1, Emit(out, fs[n].id, m))
  {
    assert fs[..n + 1][..n] == fs[..n];
  }

  /** The receiver over the frames of one port after another, cleared by the
      teardown of each. */
  method Receiving(r: Receiver, ports: seq<seq<Chunk>>) returns (out: seq<Delivered>)
    requires r.chunkBuffers == map[]
    modifies r
    ensures out == ReceivePorts(r.codec, ports) && r.chunkBuffers == map[]
  {
    out := [];
    for k := 0 to |ports|
      invariant out == ReceivePorts(r.codec, ports[..k]) && r.chunkBuffers == map[]
    {
      assert ports[..k + 1][..k] == ports[..k];
      var delivered: Delivered := [];
      for i := 0 to |ports[k]|
        invariant (r.chunkBuffers, delivered) == Receive(r.codec, map[], ports[k][..i])
      {
        ReceiveNextFrom(r.codec, map[], ports[k], i);
        var message := r.AbsorbChunk(ports[k][i]);
        delivered := Emit(delivered, ports[k][i].id, message);
      }
      assert ports[k][..|ports[k]|] == ports[k];
      out := out + [delivered];
      r.Clear();
    }
    assert ports[..|ports|] == ports;
  }

  /** `f` is a part of the message of its id. */
  ghost predicate IsPart(c: Codec, bodies: Bodies, f: Chunk) {
    && f.id in bodies && f.index.Some? && 0 <= f.index.value < Total(bodies[f.id])
    && f == Part(c, f.id, bodies[f.id], f.index.value)
  }

  /** `fs` is every part of every message, each once, in any order. */
  ghost predicate Shuffled(c: Codec, bodies: Bodies, fs: seq<Chunk>) {
    && (forall id :: id in bodies ==> id != "")
    && (forall f :: f in fs ==> IsPart(c, bodies, f))
    && (forall i, j :: 0 <= i < j < |fs| ==> fs[i] != fs[j])
    && (forall id, k: nat :: id in bodies && k < Total(bodies[id]) ==> Part(c, id, bodies[id], k) in fs)
  }

  /** The numbers of the parts of `id` that have arrived. */
  ghost function Seen(fs: seq<Chunk>, id: string): set<int> {
    set f | f in fs && f.id == id && f.index.Some? :: f.index.value
  }

  ghost function Upto(n: nat): (s: set<int>)
    ensures |s| == n && forall k :: k in s <==> 0 <= k < n
  {
    if n == 0 then {} else Upto(n - 1) + {n - 1}
  }

  lemma SubsetFull(s: set<int>, n: nat)
    requires s <= Upto(n) && |s| >= n
    ensures s == Upto(n)
  {
    assert Upto(n) == s + (Upto(n) - s);
    assert |Upto(n) - s| == 0;
  }

  /* ---- one message put together ---- */

  /** `parts` holds the slices of `body` from `k` on. */
  ghost predicate Tail(c: Codec, body: Bytes, parts: map<int, string>, k: nat) {
    && (forall i :: i in parts <==> k <= i < Total(body))
    && (forall i: nat :: i in parts ==> parts[i] == c.enc(Slice(body, i)))
  }

  lemma LastSlice(body: Bytes)
    ensures End(body, Total(body)) == |body|
  {
  }

  lemma {:induction false} JoinTail(c: Codec, body: Bytes, parts: map<int, string>, k: nat)
    requires Inverse(c) && k <= Total(body) && Tail(c, body, parts, k)
    ensures Join(c, parts) == body[End(body, k)..]
    decreases Total(body) - k
  {
    if k == Total(body) {
      LastSlice(body);
      assert parts.Keys == {};
    } else {
      assert k in parts;
      var least := Least(parts.Keys);
      assert least == k;
      JoinTail(c, body, parts - {k}, k + 1);
      assert body[End(body, k)..] == Slice(body, k) + body[End(body, k + 1)..];
    }
  }

  /* ---- many messages ---- */

  ghost function Times(out: Delivered, id: string): nat {
    if out == [] then 0 else Times(out[..|out| - 1], id) + if out[|out| - 1].0 == id then 1 else 0
  }

  /** Where the message `id`, of that body, stands once its parts `seen` arrived. */
  ghost predicate StandsAt(c: Codec, body: Bytes, seen: set<int>, bs: Buffers, out: Delivered, id: string) {
    if seen == Upto(Total(body)) then id !in bs && Times(out, id) == 1
    else Times(out, id) == 0 && if seen == {} then id !in bs else id in bs && Holds(c, body, seen, bs[id])
  }

  ghost predicate Holds(c: Codec, body: Bytes, seen: set<int>, b: Buffer) {
    b.total == Total(body) && b.parts.Keys == seen && forall k: nat :: k in seen ==> b.parts[k] == c.enc(Slice(body, k))
  }

  ghost predicate Stands(c: Codec, bodies: Bodies, fs: seq<Chunk>, bs: Buffers, out: Delivered, id: string)
    requires id in bodies
  {
    StandsAt(c, bodies[id], Seen(fs, id), bs, out, id)
  }

  ghost predicate Good(c: Codec, bodies: Bodies, fs: seq<Chunk>, bs: Buffers, out: Delivered) {
    && (forall id :: id in bodies ==> Stands(c, bodies, fs, bs, out, id))
    && (forall id :: id in bs ==> id in bodies)
    && (forall d :: d in out ==> d.0 in bodies && d.1 == bodies[d.0])
  }

  lemma SeenMore(fs: seq<Chunk>, f: Chunk, id: string)
    requires f.index.Some?
    ensures Seen(fs + [f], id) == if f.id == id then Seen(fs, id) + {f.index.value} else Seen(fs, id)
  {
  }

  lemma TimesMore(out: Delivered, d: (string, Bytes), id: string)
    ensures Times(out + [d], id) == Times(out, id) + if d.0 == id then 1 else 0
  {
    assert (out + [d])[..|out|] == out;
  }

  lemma OtherStands(c: Codec, bodies: Bodies, fs: seq<Chunk>, bs: Buffers, out: Delivered, f: Chunk, id: string)
    requires IsPart(c, bodies, f) && id in bodies && id != f.id && Stands(c, bodies, fs, bs, out, id)
    ensures var (b, m) := Absorb(c, bs, f);
            Stands(c, bodies, fs + [f], b, Emit(out, f.id, m), id)
  {
    SeenMore(fs, f, id);
    var (b, m) := Absorb(c, bs, f);
    if m.Some? { TimesMore(out, (f.id, m.value), id); }
  }

  /** What the buffer of a message holds with one part more. */
  lemma FilledHolds(c: Codec, body: Bytes, seen: set<int>, bs: Buffers, out: Delivered, id: string, k: nat)
    requires id != "" && k < Total(body) && k !in seen && StandsAt(c, body, seen, bs, out, id)
    ensures Holds(c, body, seen + {k}, Filled(bs, Part(c, id, body, k)))
  {
    assert k in Upto(Total(body));
  }

  lemma Completes(c: Codec, body: Bytes, seen: set<int>, b: Buffer)
    requires Inverse(c) && seen <= Upto(Total(body)) && Holds(c, body, seen, b)
    ensures |b.parts| >= b.total ==> seen == Upto(Total(body)) && Join(c, b.parts) == body
    ensures seen == Upto(Total(body)) ==> |b.parts| >= b.total
  {
    assert |b.parts| == |b.parts.Keys| == |seen|;
    if |b.parts| >= b.total {
      SubsetFull(seen, b.total);
      JoinTail(c, body, b.parts, 0);
    }
  }

  lemma OwnStands(c: Codec, body: Bytes, seen: set<int>, bs: Buffers, out: Delivered, id: string, k: nat)
    requires Inverse(c) && id != "" && k < Total(body) && k !in seen && seen <= Upto(Total(body))
    requires StandsAt(c, body, seen, bs, out, id)
    ensures var (b, m) := Absorb(c, bs, Part(c, id, body, k));
            StandsAt(c, body, seen + {k}, b, Emit(out, id, m), id) && (m.Some? ==> m.value == body)
  {
    var f := Part(c, id, body, k);
    FilledHolds(c, body, seen, bs, out, id, k);
    assert k in Upto(Total(body));
    Completes(c, body, seen + {k}, Filled(bs, f));
    TimesMore(out, (id, body), id);
  }

  lemma SeenWithin(c: Codec, bodies: Bodies, fs: seq<Chunk>, id: string)
    requires id in bodies && forall f :: f in fs ==> IsPart(c, bodies, f)
    ensures Seen(fs, id) <= Upto(Total(bodies[id]))
  {
  }

  lemma NotSeen(c: Codec, bodies: Bodies, fs: seq<Chunk>, n: nat)
    requires Shuffled(c, bodies, fs) && n < |fs|
    ensures IsPart(c, bodies, fs[n]) && fs[n].index.value !in Seen(fs[..n], fs[n].id)
  {
    assert IsPart(c, bodies, fs[n]);
    forall i | 0 <= i < n && fs[i].id == fs[n].id ensures fs[i].index != fs[n].index {
      assert IsPart(c, bodies, fs[i]);
    }
  }

  lemma OwnNext(c: Codec, bodies: Bodies, fs: seq<Chunk>, n: nat, bs: Buffers, out: Delivered)
    requires Inverse(c) && Shuffled(c, bodies, fs) && n < |fs| && Good(c, bodies, fs[..n], bs, out)
    ensures var (b, m) := Absorb(c, bs, fs[n]);
            && fs[n].id in bodies && Stands(c, bodies, fs[..n] + [fs[n]], b, Emit(out, fs[n].id, m), fs[n].id)
            && (m.Some? ==> m.value == bodies[fs[n].id])
  {
    var f := fs[n];
    NotSeen(c, bodies, fs, n);
    SeenWithin(c, bodies, fs[..n], f.id);
    SeenMore(fs[..n], f, f.id);
    OwnStands(c, bodies[f.id], Seen(fs[..n], f.id), bs, out, f.id, f.index.value);
  }

  lemma NextGood(c: Codec, bodies: Bodies, fs: seq<Chunk>, n: nat, bs: Buffers, out: Delivered)
    requires Inverse(c) && Shuffled(c, bodies, fs) && n < |fs| && Good(c, bodies, fs[..n], bs, out)
    ensures var (b, m) := Absorb(c, bs, fs[n]); Good(c, bodies, fs[..n] + [fs[n]], b, Emit(out, fs[n].id, m))
  {
    var f := fs[n];
    var (b, m) := Absorb(c, bs, f);
    OwnNext(c, bodies, fs, n, bs, out);
    assert IsPart(c, bodies, f);
    forall id | id in bodies && id != f.id ensures Stands(c, bodies, fs[..n] + [f], b, Emit(out, f.id, m), id) {
      OtherStands(c, bodies, fs[..n], bs, out, f, id);
    }
  }

  lemma NoneGood(c: Codec, bodies: Bodies)
    ensures Good(c, bodies, [], map[], [])
  {
    forall id | id in bodies ensures Stands(c, bodies, [], map[], [], id) {
      assert 0 in Upto(Total(bodies[id]));
    }
  }

  lemma ReceiveNext(c: Codec, fs: seq<Chunk>, n: nat)
    requires n < |fs|
    ensures fs[..n + 1] == fs[..n] + [fs[n]]
    ensures var (bs, out) := Receive(c, map[], fs[..n]);
            var (b, m) := Absorb(c, bs, fs[n]);
            Receive(c, map[], fs[..n + 1]) == (b, Emit(out, fs[n].id, m))
  {
    assert fs[..n + 1][..n] == fs[..n];
  }

  lemma {:induction false} PrefixGood(c: Codec, bodies: Bodies, fs: seq<Chunk>, n: nat)
    requires Inverse(c) && Shuffled(c, bodies, fs) && n <= |fs|
    ensures var (bs, out) := Receive(c, map[], fs[..n]); Good(c, bodies, fs[..n], bs, out)
  {
    if n == 0 {
      NoneGood(c, bodies);
      assert fs[..0] == [];
    } else {
      PrefixGood(c, bodies, fs, n - 1);
      var (bs, out) := Receive(c, map[], fs[..n - 1]);
      NextGood(c, bodies, fs, n - 1, bs, out);
      ReceiveNext(c, fs, n - 1);
    }
  }

  /** Each message is delivered once, and is what was split; nothing is left. */
  lemma EveryMessageComesOut(c: Codec, bodies: Bodies, fs: seq<Chunk>)
    requires Inverse(c) && Shuffled(c, bodies, fs)
    ensures var (bs, out) := Receive(c, map[], fs);
            && bs.Keys == {}
            && (forall id :: id in bodies ==> Times(out, id) == 1)
            && (forall d :: d in out ==> d.0 in bodies && d.1 == bodies[d.0])
  {
    PrefixGood(c, bodies, fs, |fs|);
    assert fs[..|fs|] == fs;
    forall id | id in bodies ensures Seen(fs, id) == Upto(Total(bodies[id])) {
      SeenWithin(c, bodies, fs, id);
      forall k: int | k in Upto(Total(bodies[id])) ensures k in Seen(fs, id) {
        assert Part(c, id, bodies[id], k) in fs;
      }
    }
  }

  lemma {:induction false} PortIs(c: Codec, ports: seq<seq<Chunk>>, k: nat)
    requires k < |ports|
    ensures |ReceivePorts(c, ports)| == |ports| && ReceivePorts(c, ports)[k] == Receive(c, map[], ports[k]).1
  {
    var n := |ports| - 1;
    if n > 0 { PortIs(c, ports[..n], if k < n then k else 0); }
  }

  /** Whatever earlier links lost half way, even under the same ids: of a port whose
      frames are all the parts of some messages, each message comes out once. */
  lemma EveryPortStartsClean(c: Codec, bodies: Bodies, ports: seq<seq<Chunk>>, k: nat)
    requires Inverse(c) && k < |ports| && Shuffled(c, bodies, ports[k])
    ensures |ReceivePorts(c, ports)| == |ports|
    ensures var out := ReceivePorts(c, ports)[k];
            && (forall id :: id in bodies ==> Times(out, id) == 1)
            && (forall d :: d in out ==> d.0 in bodies && d.1 == bodies[d.0])
  {
    PortIs(c, ports, k);
    EveryMessageComesOut(c, bodies, ports[k]);
  }

  /* ---- what else may come ---- */

  /** A part says which it is of how many. */
  ghost predicate Says(f: Chunk) { f.id != "" && f.index.Some? && f.total.Some? && f.total.value >= 1 }

  ghost function Sensible(fs: seq<Chunk>): seq<Chunk> {
    if fs == [] then [] else Sensible(fs[..|fs| - 1]) + if Says(fs[|fs| - 1]) then [fs[|fs| - 1]] else []
  }

  /** Frames that do not say so change nothing, wherever they come. */
  lemma {:induction false} NoiseChangesNothing(c: Codec, bs: Buffers, fs: seq<Chunk>)
    ensures Receive(c, bs, fs) == Receive(c, bs, Sensible(fs))
  {
    if fs != [] {
      var f, front := fs[|fs| - 1], fs[..|fs| - 1];
      NoiseChangesNothing(c, bs, front);
      if Says(f) {
        var more := Sensible(front) + [f];
        assert more[..|more| - 1] == Sensible(front) && more[|more| - 1] == f;
      } else {
        assert Sensible(front) + [] == Sensible(front);
      }
    }
  }

  /** A part that came before, of a message not complete yet, changes nothing; and no
      part touches another message. */
  lemma RepeatedPartChangesNothing(c: Codec, bs: Buffers, f: Chunk)
    requires Says(f) && f.id in bs && f.index.value in bs[f.id].parts && bs[f.id].parts[f.index.value] == f.data
    requires bs[f.id].total == f.total.value && |bs[f.id].parts| < f.total.value
    ensures Absorb(c, bs, f) == (bs, None)
  {
    assert bs[f.id].parts[f.index.value := f.data] == bs[f.id].parts;
    assert bs[f.id := bs[f.id]] == bs;
  }

  /** Until its message is complete a part is kept, in place of an earlier one of its
      number, and the total that counts is the one it says. */
  lemma PartIsKept(c: Codec, bs: Buffers, f: Chunk)
    requires Says(f)
    ensures var (b, m) := Absorb(c, bs, f);
            m.None? ==> f.id in b && b[f.id].total == f.total.value && b[f.id].parts == (if f.id in bs then bs[f.id].parts else map[])[f.index.value := f.data]
  {
  }

  lemma OtherMessagesStand(c: Codec, bs: Buffers, f: Chunk, id: string)
    requires id != f.id
    ensures var (b, m) := Absorb(c, bs, f); (id in b <==> id in bs) && (id in bs ==> b[id] == bs[id])
  {
  }

  /** No part is larger than what one frame takes, and no body comes in none. */
  lemma PartsFitAFrame(c: Codec, id: string, body: Bytes, k: nat)
    ensures |Split(c, id, body)| >= 1 && |Slice(body, k)| <= 393_216
    ensures k < |Split(c, id, body)| ==> Split(c, id, body)[k].data == c.enc(Slice(body, k)) && Split(c, id, body)[k].index == Some(k)
  {
  }
}
