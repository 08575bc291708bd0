/** Chunk framing and the contents of a chunk directory (uploads.rs, blobs.rs). */
module Framing {
  import opened Types

  type Chunk = seq<Byte>

  /** A directory of `<index>.part` files. */
  type Dir = map<nat, Chunk>

  // ---- What preflight grants and put_chunk accepts ------------------------------

  function ChunkCount(size: nat, chunkBytes: nat): nat
    requires 0 < chunkBytes
  {
    (size + chunkBytes - 1) / chunkBytes
  }

  /** The only length `put_chunk` accepts at an index. */
  function ExpectedBytes(size: nat, chunkBytes: nat, chunkCount: nat, index: nat): int {
    if index == chunkCount - 1 then size - chunkBytes * (chunkCount - 1) else chunkBytes
  }

  ghost function SumExpected(size: nat, chunkBytes: nat, chunkCount: nat, upto: nat): int {
    if upto == 0 then 0
    else SumExpected(size, chunkBytes, chunkCount, upto - 1) + ExpectedBytes(size, chunkBytes, chunkCount, upto - 1)
  }

  lemma CountBounds(size: nat, chunkBytes: nat)
    requires 0 < size && 0 < chunkBytes
    ensures var count := ChunkCount(size, chunkBytes);
            1 <= count && chunkBytes * (count - 1) < size <= chunkBytes * count
  {
    var count := ChunkCount(size, chunkBytes);
    var rest := (size + chunkBytes - 1) % chunkBytes;
    assert size + chunkBytes - 1 == chunkBytes * count + rest;
    assert chunkBytes * (count - 1) == chunkBytes * count - chunkBytes;
    MultiplesAreOrdered(chunkBytes, 0, count);
  }

  lemma MultiplesAreOrdered(unit: nat, a: int, b: int)
    requires 0 < unit
    ensures unit * a < unit * b <==> a < b
  {
    assert unit * b == unit * a + unit * (b - a);
  }

  lemma {:induction false} SumBeforeLast(size: nat, chunkBytes: nat, chunkCount: nat, upto: nat)
    requires upto < chunkCount
    ensures SumExpected(size, chunkBytes, chunkCount, upto) == chunkBytes * upto
  {
    if upto > 0 {
      SumBeforeLast(size, chunkBytes, chunkCount, upto - 1);
      assert chunkBytes * upto == chunkBytes * (upto - 1) + chunkBytes;
    }
  }

  /** Any positive size is cut into chunks of 1 to `chunkBytes` bytes summing to it. */
  lemma FramingIsExact(size: nat, chunkBytes: nat)
    requires 0 < size && 0 < chunkBytes
    ensures var count := ChunkCount(size, chunkBytes);
            && 1 <= count
            && (forall i :: 0 <= i < count ==> 1 <= ExpectedBytes(size, chunkBytes, count, i) <= chunkBytes)
            && SumExpected(size, chunkBytes, count, count) == size
  {
    var count := ChunkCount(size, chunkBytes);
    CountBounds(size, chunkBytes);
    assert chunkBytes * count == chunkBytes * (count - 1) + chunkBytes;
    SumBeforeLast(size, chunkBytes, count, count - 1);
  }

  // ---- Reading a directory back ---------------------------------------------------

  ghost function Content(dir: Dir, count: nat): seq<Byte>
    requires forall i :: 0 <= i < count ==> i in dir
  {
    if count == 0 then [] else Content(dir, count - 1) + dir[count - 1]
  }

  /** The bytes of those of the first `count` chunks that are there. */
  ghost function Held(dir: Dir, count: nat): nat {
    if count == 0 then 0 else Held(dir, count - 1) + if count - 1 in dir then |dir[count - 1]| else 0
  }

  lemma {:induction false} HeldIsContent(dir: Dir, count: nat)
    requires forall i :: 0 <= i < count ==> i in dir
    ensures Held(dir, count) == |Content(dir, count)|
  {
    if count > 0 {
      HeldIsContent(dir, count - 1);
    }
  }

  /** The directory with an empty chunk in every gap. */
  ghost function Filled(dir: Dir, count: nat): Dir { map i: nat | i < count :: if i in dir then dir[i] else [] }

  /** What is held is as long as the content would be if the gaps were empty. */
  lemma {:induction false} HeldIsFilled(dir: Dir, count: nat, upto: nat)
    requires upto <= count
    ensures Held(dir, upto) == |Content(Filled(dir, count), upto)|
  {
    if upto > 0 {
      HeldIsFilled(dir, count, upto - 1);
    }
  }

  /** Indices 0..count and nothing else, `size` bytes in all: what `chunk_paths` accepts. */
  ghost predicate Whole(dir: Dir, count: nat, size: nat) {
    && (forall i: nat :: i in dir <==> i < count)
    && |Content(dir, count)| == size
  }

  ghost predicate Verified(hash: seq<Byte> -> Digest, dir: Dir, count: nat, size: nat, digest: Digest) {
    Whole(dir, count, size) && hash(Content(dir, count)) == digest
  }

  lemma {:induction false} SameChunksSameContent(a: Dir, b: Dir, count: nat)
    requires forall i :: 0 <= i < count ==> i in a && i in b && a[i] == b[i]
    ensures Content(a, count) == Content(b, count)
  {
    if count > 0 {
      SameChunksSameContent(a, b, count - 1);
    }
  }

  /** The way a client cuts sealed bytes: full chunks, then the remainder. */
  ghost function Cut(bytes: seq<Byte>, chunkBytes: nat): seq<Chunk>
    requires 0 < chunkBytes
    decreases |bytes|
  {
    if |bytes| <= chunkBytes then [bytes] else [bytes[..chunkBytes]] + Cut(bytes[chunkBytes..], chunkBytes)
  }

  lemma {:induction false} CutIsFramed(bytes: seq<Byte>, chunkBytes: nat)
    requires 0 < |bytes| && 0 < chunkBytes
    ensures var count := ChunkCount(|bytes|, chunkBytes);
            && |Cut(bytes, chunkBytes)| == count
            && forall i :: 0 <= i < count ==>
               |Cut(bytes, chunkBytes)[i]| == ExpectedBytes(|bytes|, chunkBytes, count, i)
    decreases |bytes|
  {
    var count := ChunkCount(|bytes|, chunkBytes);
    CountBounds(|bytes|, chunkBytes);
    if |bytes| <= chunkBytes {
      OneChunk(|bytes|, chunkBytes);
    } else {
      var rest := bytes[chunkBytes..];
      CutIsFramed(rest, chunkBytes);
      OneFewer(|bytes|, chunkBytes);
      var cut := Cut(bytes, chunkBytes);
      forall i | 0 <= i < count ensures |cut[i]| == ExpectedBytes(|bytes|, chunkBytes, count, i) {
        if i > 0 {
          assert cut[i] == Cut(rest, chunkBytes)[i - 1];
          assert chunkBytes * (count - 1) == chunkBytes * (count - 2) + chunkBytes;
        }
      }
    }
  }

  lemma OneChunk(size: nat, chunkBytes: nat)
    requires 0 < size <= chunkBytes
    ensures ChunkCount(size, chunkBytes) == 1
  {
    CountBounds(size, chunkBytes);
    MultiplesAreOrdered(chunkBytes, ChunkCount(size, chunkBytes) - 1, 1);
  }

  lemma OneFewer(size: nat, chunkBytes: nat)
    requires 0 < chunkBytes < size
    ensures 1 <= ChunkCount(size - chunkBytes, chunkBytes) == ChunkCount(size, chunkBytes) - 1
  {
    CountBounds(size - chunkBytes, chunkBytes);
    CountBounds(size, chunkBytes);
    var a, b := ChunkCount(size - chunkBytes, chunkBytes), ChunkCount(size, chunkBytes);
    assert chunkBytes * (a + 1) == chunkBytes * a + chunkBytes;
    assert chunkBytes * (a - 1) == chunkBytes * a - chunkBytes;
    MultiplesAreOrdered(chunkBytes, a, b);
    MultiplesAreOrdered(chunkBytes, b - 1, a + 1);
  }

  ghost function Joined(chunks: seq<Chunk>): seq<Byte> {
    if chunks == [] then [] else chunks[0] + Joined(chunks[1..])
  }

  lemma {:induction false} CutRejoins(bytes: seq<Byte>, chunkBytes: nat)
    requires 0 < chunkBytes
    ensures Joined(Cut(bytes, chunkBytes)) == bytes
    decreases |bytes|
  {
    if |bytes| <= chunkBytes {
      assert [bytes][1..] == [];
    } else {
      CutRejoins(bytes[chunkBytes..], chunkBytes);
      var cut := Cut(bytes, chunkBytes);
      assert cut[1..] == Cut(bytes[chunkBytes..], chunkBytes);
    }
  }

  lemma {:induction false} JoinedAppend(chunks: seq<Chunk>, last: Chunk)
    ensures Joined(chunks + [last]) == Joined(chunks) + last
  {
    if chunks == [] {
      assert ([] + [last])[1..] == [];
    } else {
      JoinedAppend(chunks[1..], last);
      assert (chunks + [last])[1..] == chunks[1..] + [last];
    }
  }

  lemma {:induction false} ContentJoins(dir: Dir, chunks: seq<Chunk>)
    requires forall i :: 0 <= i < |chunks| ==> i in dir && dir[i] == chunks[i]
    ensures Content(dir, |chunks|) == Joined(chunks)
  {
    if chunks != [] {
      var before := chunks[..|chunks| - 1];
      ContentJoins(dir, before);
      JoinedAppend(before, chunks[|chunks| - 1]);
      assert before + [chunks[|chunks| - 1]] == chunks;
    }
  }

  /** A directory that holds a client's chunks at their indices reads back as the bytes
      the client sealed, and passes for whole under the framing the grant declared. */
  lemma UploadReadsBack(bytes: seq<Byte>, chunkBytes: nat, dir: Dir)
    requires 0 < |bytes| && 0 < chunkBytes
    requires forall i: nat :: i in dir <==> i < |Cut(bytes, chunkBytes)|
    requires forall i: nat :: i < |Cut(bytes, chunkBytes)| ==> dir[i] == Cut(bytes, chunkBytes)[i]
    ensures Whole(dir, ChunkCount(|bytes|, chunkBytes), |bytes|)
    ensures Content(dir, ChunkCount(|bytes|, chunkBytes)) == bytes
  {
    CutIsFramed(bytes, chunkBytes);
    CutRejoins(bytes, chunkBytes);
    ContentJoins(dir, Cut(bytes, chunkBytes));
  }

  /** Chunks of the accepted lengths add up to the granted size, whatever their bytes. */
  lemma {:induction false} AcceptedBytesAddUp(dir: Dir, size: nat, chunkBytes: nat, count: nat, upto: nat)
    requires upto <= count
    requires forall i :: 0 <= i < upto ==> i in dir && |dir[i]| == ExpectedBytes(size, chunkBytes, count, i)
    ensures |Content(dir, upto)| == SumExpected(size, chunkBytes, count, upto)
  {
    if upto > 0 {
      AcceptedBytesAddUp(dir, size, chunkBytes, count, upto - 1);
    }
  }

  // ---- Missing ranges -----------------------------------------------------------------

  /** Inclusive ranges, ascending, disjoint and non-adjacent, covering exactly the absent
      indices of 0..count. */
  ghost predicate AreGaps(dir: Dir, count: nat, gaps: seq<(nat, nat)>) {
    && (forall k :: 0 <= k < |gaps| ==> gaps[k].0 <= gaps[k].1 < count)
    && (forall j, k :: 0 <= j < k < |gaps| ==> gaps[j].1 + 1 < gaps[k].0)
    && (forall i: nat :: i < count ==> (i !in dir <==> InGap(gaps, i)))
  }

  ghost predicate InGap(gaps: seq<(nat, nat)>, i: nat) {
    exists k :: 0 <= k < |gaps| && gaps[k].0 <= i <= gaps[k].1
  }
}
