/** The blob tree (blobs.rs): `incoming/<upload>` and `<holder>/<digest>` directories. */
module Blobs {
  import opened Types
  import opened Framing

  const EMPTY: Dir := map[]

  datatype WriteError = Missing | Mismatch

  datatype WriteResult = Written(dir: Dir) | Refused(error: WriteError)

  /** `write_chunk` on one directory: the same bytes again are a no-op, other bytes are a
      conflict and never an overwrite. */
  function WriteInto(dir: Dir, index: nat, bytes: Chunk): WriteResult {
    if index !in dir then Written(dir[index := bytes])
    else if dir[index] == bytes then Written(dir)
    else Refused(Mismatch)
  }

  datatype Disk = Disk(incoming: map<UploadId, Dir>, retained: map<Key, Dir>)

  datatype Placement = Placed(disk: Disk) | NotPlaced

  /** `Blobs::commit`: an existing destination is adopted only if it verifies, otherwise
      the upload directory is renamed into place. */
  ghost function Place(disk: Disk, hash: seq<Byte> -> Digest, id: UploadId, key: Key, count: nat,
                       size: nat): Placement
  {
    if key in disk.retained then
      if Verified(hash, disk.retained[key], count, size, key.digest)
      then Placed(disk.(incoming := disk.incoming - {id}))
      else NotPlaced
    else if id in disk.incoming then
      Placed(Disk(disk.incoming - {id}, disk.retained[key := disk.incoming[id]]))
    else NotPlaced
  }

  function Discarded(disk: Disk, id: UploadId): Disk { disk.(incoming := disk.incoming - {id}) }

  function Erased(disk: Disk, key: Key): Disk { disk.(retained := disk.retained - {key}) }

  class Blobs {
    var disk: Disk

    constructor ()
      ensures disk == Disk(map[], map[])
    {
      disk := Disk(map[], map[]);
    }

    method BeginUpload(id: UploadId)
      modifies this
      ensures disk == if id in old(disk).incoming then old(disk)
              else old(disk).(incoming := old(disk).incoming[id := EMPTY])
    {
      if id !in disk.incoming {
        disk := disk.(incoming := disk.incoming[id := EMPTY]);
      }
    }

    method WriteChunk(id: UploadId, index: nat, bytes: Chunk) returns (refused: Option<WriteError>)
      modifies this
      ensures id !in old(disk).incoming ==> refused == Some(Missing) && disk == old(disk)
      ensures id in old(disk).incoming ==>
                match WriteInto(old(disk).incoming[id], index, bytes)
                case Written(dir) => refused == None && disk == old(disk).(incoming := old(disk).incoming[id := dir])
                case Refused(error) => refused == Some(error) && disk == old(disk)
    {
      if id !in disk.incoming {
        return Some(Missing);
      }
      var dir: Dir := disk.incoming[id];
      if index in dir {
        if dir[index] == bytes {
          assert disk == disk.(incoming := disk.incoming[id := dir]);
          return None;
        }
        return Some(Mismatch);
      }
      disk := disk.(incoming := disk.incoming[id := dir[index := bytes]]);
      return None;
    }

    /** What has arrived: total bytes, and the gaps in one walk. */
    method Arrival(id: UploadId, chunkCount: nat) returns (total: nat, missing: seq<(nat, nat)>)
      ensures var dir := if id in disk.incoming then disk.incoming[id] else EMPTY;
              && AreGaps(dir, chunkCount, missing) && total == Held(dir, chunkCount)
              && (missing == [] ==> FullOf(dir, chunkCount, total))
    {
      var dir: Dir := if id in disk.incoming then disk.incoming[id] else EMPTY;
      total, missing := 0, [];
      var index := 0;
      while index < chunkCount
        invariant 0 <= index <= chunkCount
        invariant missing == Gaps(dir, index) && total == Held(dir, index)
      {
        if index in dir {
          total := total + |dir[index]|;
        } else if missing != [] && missing[|missing| - 1].1 == index - 1 {
          var last := missing[|missing| - 1];
          missing := missing[..|missing| - 1] + [(last.0, index)];
        } else {
          missing := missing + [(index, index)];
        }
        index := index + 1;
      }
      WalkedThrough(dir, chunkCount, total, missing);
    }

    /** Recompute the digest over the chunks in index order; None when one cannot be read. */
    method DigestOf(hash: seq<Byte> -> Digest, id: UploadId, chunkCount: nat) returns (digest: Option<Digest>)
      ensures var dir := if id in disk.incoming then disk.incoming[id] else EMPTY;
              digest == if forall i :: 0 <= i < chunkCount ==> i in dir then Some(hash(Content(dir, chunkCount)))
                else None
    {
      var dir: Dir := if id in disk.incoming then disk.incoming[id] else EMPTY;
      var hashed: seq<Byte> := [];
      var index := 0;
      while index < chunkCount
        invariant 0 <= index <= chunkCount
        invariant forall i :: 0 <= i < index ==> i in dir
        invariant hashed == Content(dir, index)
      {
        if index !in dir {
          return None;
        }
        hashed := hashed + dir[index];
        index := index + 1;
      }
      return Some(hash(hashed));
    }

    /** Whether a retained snapshot can be streamed: contiguous indices and the right size. */
    method ChunkPaths(key: Key, chunkCount: nat, size: nat) returns (whole: bool)
      ensures whole <==> key in disk.retained && Whole(disk.retained[key], chunkCount, size)
    {
      if key !in disk.retained {
        return false;
      }
      var dir := disk.retained[key];
      var indices := dir.Keys;
      var total := 0;
      var index := 0;
      while index < chunkCount
        invariant 0 <= index <= chunkCount
        invariant forall i :: 0 <= i < index ==> i in dir
        invariant total == |Content(dir, index)|
        invariant forall i :: i in indices <==> i in dir && index <= i
      {
        if index !in dir {
          return false;
        }
        total := total + |dir[index]|;
        indices := indices - {index};
        index := index + 1;
      }
      if indices != {} {
        ghost var extra := Pick(indices);
        assert extra in dir && chunkCount <= extra;
        return false;
      }
      return total == size;
    }

    method DiscardUpload(id: UploadId)
      modifies this
      ensures disk == Discarded(old(disk), id)
    {
      disk := disk.(incoming := disk.incoming - {id});
    }

    method Erase(key: Key)
      modifies this
      ensures disk == Erased(old(disk), key)
    {
      disk := disk.(retained := disk.retained - {key});
    }

    method Commit(hash: seq<Byte> -> Digest, id: UploadId, key: Key, chunkCount: nat, size: nat) returns (ok: bool)
      modifies this
      ensures match Place(old(disk), hash, id, key, chunkCount, size)
              case Placed(after) => ok && disk == after
              case NotPlaced => !ok && disk == old(disk)
    {
      if key in disk.retained {
        var whole := ChunkPaths(key, chunkCount, size);
        if !whole {
          return false;
        }
        var actual := DigestPaths(hash, disk.retained[key], chunkCount);
        if actual != key.digest {
          return false;
        }
        DiscardUpload(id);
        return true;
      }
      if id !in disk.incoming {
        return false;
      }
      disk := Disk(disk.incoming - {id}, disk.retained[key := disk.incoming[id]]);
      return true;
    }
  }

  method DigestPaths(hash: seq<Byte> -> Digest, dir: Dir, chunkCount: nat) returns (digest: Digest)
    requires forall i :: 0 <= i < chunkCount ==> i in dir
    ensures digest == hash(Content(dir, chunkCount))
  {
    var hashed: seq<Byte> := [];
    for index := 0 to chunkCount
      invariant hashed == Content(dir, index)
    {
      hashed := hashed + dir[index];
    }
    digest := hash(hashed);
  }

  // ---- What removal is for -----------------------------------------------------------

  /** Discarding an upload undoes it, whatever was written into it: the disk is as before it
      began, every index is missing again, and a commit of it can only adopt what is there. */
  lemma DiscardUndoesAnUpload(disk: Disk, hash: seq<Byte> -> Digest, id: UploadId, dir: Dir, key: Key, count: nat,
                              size: nat)
    requires id !in disk.incoming && 0 < count
    ensures var gone := Discarded(disk.(incoming := disk.incoming[id := dir]), id);
            && gone == disk
            && AreGaps(EMPTY, count, [(0, count - 1)])
            && (Place(gone, hash, id, key, count, size).Placed? <==>
                key in disk.retained && Verified(hash, disk.retained[key], count, size, key.digest))
  {
    assert disk.incoming[id := dir] - {id} == disk.incoming;
    OneGap(count);
  }

  lemma OneGap(count: nat)
    requires 0 < count
    ensures AreGaps(EMPTY, count, [(0, count - 1)])
  {
    var gaps: seq<(nat, nat)> := [(0, count - 1)];
    forall i: nat | i < count ensures InGap(gaps, i) {
      assert gaps[0].0 <= i <= gaps[0].1;
    }
  }

  /** Erasing makes room: where a directory stood that no commit would adopt, the next upload
      goes into place, and erasing that restores every other directory as it was. */
  lemma ErasureMakesRoom(disk: Disk, hash: seq<Byte> -> Digest, id: UploadId, key: Key, count: nat, size: nat)
    requires id in disk.incoming
    ensures var placed := Place(Erased(disk, key), hash, id, key, count, size);
            && placed.Placed? && placed.disk.retained[key] == disk.incoming[id]
            && Erased(placed.disk, key) == Erased(Discarded(disk, id), key)
  {
  }

  // ---- A walk over the indices, and the three ways it changes the gaps ------------

  /** Every index is there, and that many bytes in all. */
  ghost predicate FullOf(dir: Dir, count: nat, total: nat) {
    (forall i :: 0 <= i < count ==> i in dir) && total == |Content(dir, count)|
  }

  /** The gaps as one walk over the indices leaves them. */
  ghost function Gaps(dir: Dir, count: nat): seq<(nat, nat)> {
    if count == 0 then []
    else
      var before, index := Gaps(dir, count - 1), count - 1;
      if index in dir then before
      else if before != [] && before[|before| - 1].1 == index - 1
      then before[..|before| - 1] + [(before[|before| - 1].0, index)]
      else before + [(index, index)]
  }

  lemma {:induction false} GapsAreGaps(dir: Dir, count: nat)
    ensures AreGaps(dir, count, Gaps(dir, count))
  {
    if count > 0 {
      var before, index := Gaps(dir, count - 1), count - 1;
      GapsAreGaps(dir, index);
      if index in dir {
        PresentKeepsGaps(dir, index, before);
      } else if before != [] && before[|before| - 1].1 == index - 1 {
        AbsentExtendsGap(dir, index, before, Gaps(dir, count));
      } else {
        AbsentOpensGap(dir, index, before, Gaps(dir, count));
      }
    }
  }

  lemma WalkedThrough(dir: Dir, count: nat, total: nat, missing: seq<(nat, nat)>)
    requires missing == Gaps(dir, count) && total == Held(dir, count)
    ensures AreGaps(dir, count, missing) && (missing == [] ==> FullOf(dir, count, total))
  {
    GapsAreGaps(dir, count);
    if missing == [] {
      forall i: nat | i < count ensures i in dir {
        assert !InGap([], i);
      }
      HeldIsContent(dir, count);
    }
  }

  lemma PresentKeepsGaps(dir: Dir, count: nat, gaps: seq<(nat, nat)>)
    requires AreGaps(dir, count, gaps) && count in dir
    ensures AreGaps(dir, count + 1, gaps)
  {
  }

  lemma AbsentExtendsGap(dir: Dir, count: nat, before: seq<(nat, nat)>, after: seq<(nat, nat)>)
    requires AreGaps(dir, count, before) && count !in dir
    requires before != [] && before[|before| - 1].1 == count - 1
    requires after == before[..|before| - 1] + [(before[|before| - 1].0, count)]
    ensures AreGaps(dir, count + 1, after)
  {
    forall i: nat | i < count + 1 ensures i !in dir <==> InGap(after, i) {
      if InGap(before, i) {
        var k :| 0 <= k < |before| && before[k].0 <= i <= before[k].1;
        assert after[k].0 <= i <= after[k].1;
      }
      if InGap(after, i) && i < count {
        var k :| 0 <= k < |after| && after[k].0 <= i <= after[k].1;
        assert before[k].0 <= i <= before[k].1;
      }
      if i == count {
        assert after[|after| - 1].0 <= i <= after[|after| - 1].1;
      }
    }
  }

  lemma AbsentOpensGap(dir: Dir, count: nat, before: seq<(nat, nat)>, after: seq<(nat, nat)>)
    requires AreGaps(dir, count, before) && count !in dir
    requires before == [] || before[|before| - 1].1 != count - 1
    requires after == before + [(count, count)]
    ensures AreGaps(dir, count + 1, after)
  {
    forall i: nat | i < count + 1 ensures i !in dir <==> InGap(after, i) {
      if InGap(before, i) {
        var k :| 0 <= k < |before| && before[k].0 <= i <= before[k].1;
        assert after[k].0 <= i <= after[k].1;
      }
      if i == count {
        assert after[|after| - 1].0 <= i <= after[|after| - 1].1;
      }
    }
  }
}
