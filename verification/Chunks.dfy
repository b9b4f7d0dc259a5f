/** A message too large for one native-messaging frame: split by the host,
    put together again by the extension, whatever arrives in between. */
module Chunks {
  import opened Prelude

  type Bytes = seq<bv8>

  /** base64: text out of bytes and back. */
  datatype Codec = Codec(enc: Bytes -> string, dec: string -> Bytes)

  ghost predicate Inverse(c: Codec) { forall b :: c.dec(c.enc(b)) == b }

  /** chunk(): None is a field that is not an integer. */
  datatype Chunk = Chunk(id: string, index: Option<int>, total: Option<int>, data: string)

  const CHUNK_SLICE_BYTES := 384 * 1024

  function Total(body: Bytes): nat {
    if body == [] then 1 else (|body| + CHUNK_SLICE_BYTES - 1) / CHUNK_SLICE_BYTES
  }

  function End(body: Bytes, k: nat): nat {
    if k * CHUNK_SLICE_BYTES < |body| then k * CHUNK_SLICE_BYTES else |body|
  }

  /** Slice `k`, as subarray cuts it: never past the end. */
  function Slice(body: Bytes, k: nat): Bytes { body[End(body, k)..End(body, k + 1)] }

  function Part(c: Codec, id: string, body: Bytes, k: nat): Chunk {
    Chunk(id, Some(k), Some(Total(body)), c.enc(Slice(body, k)))
  }

  function Split(c: Codec, id: string, body: Bytes): seq<Chunk> { seq(Total(body), (k: nat) => Part(c, id, body, k)) }

  method SplitIntoChunks(c: Codec, id: string, body: Bytes) returns (parts: seq<Chunk>)
    ensures parts == Split(c, id, body)
  {
    var total := Total(body);
    parts := [];
    for k := 0 to total
      invariant |parts| == k && forall j :: 0 <= j < k ==> parts[j] == Part(c, id, body, j)
    {
      parts := parts + [Chunk(id, Some(k), Some(total), c.enc(Slice(body, k)))];
    }
  }

  /* ---- the receiving end ---- */

  datatype Buffer = Buffer(parts: map<int, string>, total: int)

  type Buffers = map<string, Buffer>

  function Least(s: set<int>): (m: int)
    requires s != {}
    ensures m in s && forall x :: x in s ==> m <= x
  {
    LeastExists(s);
    var m :| m in s && forall x :: x in s ==> m <= x;
    m
  }

  lemma {:induction false} LeastExists(s: set<int>)
    requires s != {}
    ensures exists m :: m in s && forall x :: x in s ==> m <= x
    decreases s
  {
    var x: int := Pick(s);
    var r := s - {x};
    if r == {} {
      assert s == {x};
    } else {
      LeastExists(r);
      var m :| m in r && forall y :: y in r ==> m <= y;
      assert forall y :: y in s ==> y == x || y in r;
      var least := if x < m then x else m;
      assert least in s;
    }
  }

  /** The parts in the order of their numbers, put together. */
  function Join(c: Codec, parts: map<int, string>): Bytes
    decreases |parts|
  {
    if parts.Keys == {} then []
    else
      var k := Least(parts.Keys);
      assert (parts - {k}).Keys == parts.Keys - {k};
      c.dec(parts[k]) + Join(c, parts - {k})
  }

  predicate Malformed(f: Chunk) { f.id == "" || f.index.None? || f.total.None? || f.total.value < 1 }

  function Filled(bs: Buffers, f: Chunk): Buffer
    requires !Malformed(f)
  {
    var parts := if f.id in bs then bs[f.id].parts else map[];
    Buffer(parts[f.index.value := f.data], f.total.value)
  }

  /** absorbChunk: the buffers after `f`, and the message it completes. */
  function Absorb(c: Codec, bs: Buffers, f: Chunk): (Buffers, Option<Bytes>) {
    if Malformed(f) then (bs, None)
    else
      var b := Filled(bs, f);
      if |b.parts| < b.total then (bs[f.id := b], None) else (bs - {f.id}, Some(Join(c, b.parts)))
  }

  class Receiver {
    const codec: Codec
    var chunkBuffers: Buffers

    constructor (c: Codec)
      ensures codec == c && chunkBuffers == map[]
    {
      codec, chunkBuffers := c, map[];
    }

    /** rejectPending, when a link is gone: half a message is dropped with it, and
        the next port's frames are received from scratch. */
    method Clear()
      modifies this
      ensures chunkBuffers == map[]
    {
      chunkBuffers := map[];
    }

    method AbsorbChunk(f: Chunk) returns (message: Option<Bytes>)
      modifies this
      ensures (chunkBuffers, message) == Absorb(codec, old(chunkBuffers), f)
    {
      if f.id == "" || f.index.None? || f.total.None? || f.total.value < 1 { return None; }
      var entry := Buffer(map[], f.total.value);
      if f.id in chunkBuffers { entry := chunkBuffers[f.id]; } else { chunkBuffers := chunkBuffers[f.id := entry]; }
      entry := entry.(total := f.total.value, parts := entry.parts[f.index.value := f.data]);
      if |entry.parts| < entry.total {
        chunkBuffers := chunkBuffers[f.id := entry];
        assert chunkBuffers == old(chunkBuffers)[f.id := entry];
        return None;
      }
      chunkBuffers := chunkBuffers - {f.id};
      assert chunkBuffers == old(chunkBuffers) - {f.id};
      message := Some(Join(codec, entry.parts));
    }
  }
}
