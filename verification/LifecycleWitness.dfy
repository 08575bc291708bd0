/** Whole runs from an empty operator in which a live snapshot loses its bytes, or a whole
    one its place in the live set. */
module LifecycleWitness {
  import opened Types
  import opened Tables
  import opened Framing
  import opened Blobs
  import opened Lifecycle
  import opened LifecycleSafety
  import opened LifecycleRuns
  import opened LifecycleMoves
  import opened CommitRefinement
  import opened RouteRefinement
  import LifecycleMarks
  import Uploads
  import Rows = Tables

  // ---- A client's upload ------------------------------------------------------------------

  /** The first k chunks, at their indices. */
  ghost function DirFrom(chunks: seq<Chunk>, k: nat): (dir: Dir)
    requires k <= |chunks|
    ensures forall i: nat :: i in dir <==> i < k
  {
    map i: nat | i < k :: chunks[i]
  }

  /** The grant is for these bytes and is open at `at`. */
  ghost predicate GrantFor(cfg: Config, grant: Grant, bytes: seq<Byte>, at: Instant) {
    && 0 < |bytes| && WellFramed(grant) && grant.size == |bytes| && grant.digest == cfg.hash(bytes) &&
       !grant.Expired(at)
  }

  ghost function Uploaded(s: System, id: UploadId, grant: Grant, dir: Dir, at: Instant): System {
    var granted := Granting(s, id, grant, at);
    granted.(disk := granted.disk.(incoming := granted.disk.incoming[id := dir]))
  }

  /** Chunks of the lengths the framing asks for, one at each index, under an open grant. */
  ghost predicate Fitting(grant: Grant, chunks: seq<Chunk>, at: Instant) {
    |chunks| == grant.chunkCount && !grant.Expired(at) && forall i :: 0 <= i < |chunks| ==>
      |chunks[i]| == Expected(grant, i)
  }

  /** The run mints the grant and writes its first k chunks; folded like `Leads`. */
  ghost predicate Wrote(cfg: Config, s: System, run: seq<Step>, id: UploadId, grant: Grant, chunks: seq<Chunk>,
                        at: Instant, k: nat)
  {
    forall n: nat {:trigger Unfolded(n)} :: Unfolded(n) ==>
      k <= |chunks| && Leads(cfg, s, run, Uploaded(s, id, grant, DirFrom(chunks, k), at))
  }

  lemma WriteRun(cfg: Config, s: System, t: Thread, id: UploadId, grant: Grant, chunks: seq<Chunk>, at: Instant,
                 mint: seq<Step>)
    returns (steps: seq<Step>)
    requires Fitting(grant, chunks, at) && t !in s.running && s.StoreFree() && s.blobLock != Some(t)
    requires Wrote(cfg, s, mint, id, grant, chunks, at, 0)
    ensures Wrote(cfg, s, steps, id, grant, chunks, at, |chunks|)
  {
    steps := mint;
    for k := 0 to |chunks|
      invariant Wrote(cfg, s, steps, id, grant, chunks, at, k)
    {
      steps := WriteOne(cfg, s, t, id, grant, chunks, at, steps, k);
    }
  }

  lemma NothingUploaded(s: System, id: UploadId, grant: Grant, dir: Dir, at: Instant)
    requires dir == EMPTY
    ensures Uploaded(s, id, grant, dir, at) == Granting(s, id, grant, at)
  {
    assert Granting(s, id, grant, at).disk.incoming[id := EMPTY] == s.disk.incoming[id := EMPTY];
  }

  /** The chunk at index k goes in after the k before it. */
  lemma WriteOne(cfg: Config, s: System, t: Thread, id: UploadId, grant: Grant, chunks: seq<Chunk>, at: Instant,
                 run: seq<Step>, k: nat)
    returns (steps: seq<Step>)
    requires Fitting(grant, chunks, at) && k < |chunks| && t !in s.running && s.StoreFree() && s.blobLock != Some(t)
    requires Wrote(cfg, s, run, id, grant, chunks, at, k)
    ensures Wrote(cfg, s, steps, id, grant, chunks, at, k + 1)
  {
    assert Unfolded(0);
    var here := Uploaded(s, id, grant, DirFrom(chunks, k), at);
    UploadedShape(s, id, grant, DirFrom(chunks, k), at);
    var more := ChunkRun(cfg, here, t, id, k, chunks[k], at);
    ChunkWritten(s, id, grant, chunks, at, k);
    LeadsOn(cfg, s, run, here, more, Uploaded(s, id, grant, DirFrom(chunks, k + 1), at));
    steps := run + more;
  }

  lemma ChunkWritten(s: System, id: UploadId, grant: Grant, chunks: seq<Chunk>, at: Instant, k: nat)
    requires k < |chunks|
    ensures DoWrite(Uploaded(s, id, grant, DirFrom(chunks, k), at), id, k, chunks[k]) ==
            Uploaded(s, id, grant, DirFrom(chunks, k + 1), at)
  {
    var here, next := Uploaded(s, id, grant, DirFrom(chunks, k), at), DirFrom(chunks, k + 1);
    UploadedShape(s, id, grant, DirFrom(chunks, k), at);
    assert DirFrom(chunks, k)[k := chunks[k]] == next;
    assert here.disk.incoming[id := next] == Granting(s, id, grant, at).disk.incoming[id := next];
  }

  ghost function WholeCut(grant: Grant, bytes: seq<Byte>): Dir
    requires 0 < grant.chunkBytes
  {
    DirFrom(Cut(bytes, grant.chunkBytes), |Cut(bytes, grant.chunkBytes)|)
  }

  /** Any bytes whatever can be uploaded for a grant that is for them, and arrive. */
  lemma UploadRun(cfg: Config, s: System, t: Thread, id: UploadId, grant: Grant, bytes: seq<Byte>, at: Instant)
    returns (steps: seq<Step>)
    requires GrantFor(cfg, grant, bytes, at) && MayUploadStep(cfg, s, BeginMint(t, id, grant, at)) &&
             s.blobLock != Some(t)
    ensures Leads(cfg, s, steps, Uploaded(s, id, grant, WholeCut(grant, bytes), at))
    ensures Verified(cfg.hash, WholeCut(grant, bytes), grant.chunkCount, grant.size, grant.digest)
  {
    CutIsFramed(bytes, grant.chunkBytes);
    UploadReadsBack(bytes, grant.chunkBytes, WholeCut(grant, bytes));
    var mint := MintRun(cfg, s, t, id, grant, at);
    NothingUploaded(s, id, grant, DirFrom(Cut(bytes, grant.chunkBytes), 0), at);
    MintNeedsTheStore(cfg, s, t, id, grant, at);
    steps := WriteRun(cfg, s, t, id, grant, Cut(bytes, grant.chunkBytes), at, mint);
    assert Unfolded(0);
  }

  lemma MintNeedsTheStore(cfg: Config, s: System, t: Thread, id: UploadId, grant: Grant, at: Instant)
    requires MayUploadStep(cfg, s, BeginMint(t, id, grant, at))
    ensures t !in s.running && s.StoreFree() && id !in s.issued && !LiveAt(s.snapshots, grant.Target())
    ensures |LiveRows(s.snapshots, grant.holder).Keys| < cfg.maximumRetained
  {
  }

  // ---- A snapshot kept -----------------------------------------------------------------------

  /** An upload, and the commit that keeps it in a new directory of its own. */
  lemma KeepRun(cfg: Config, s: System, t: Thread, id: UploadId, grant: Grant, bytes: seq<Byte>, at: Instant)
    returns (steps: seq<Step>, end: System)
    requires GrantFor(cfg, grant, bytes, at) && MayUploadStep(cfg, s, BeginMint(t, id, grant, at)) && s.BothFree()
    requires grant.Target() !in s.disk.retained && id !in s.uploads
    ensures Leads(cfg, s, steps, end)
    ensures end.snapshots == Rows.Retain(s.snapshots, grant, at) && end.uploads == s.uploads
    ensures end.disk.retained == s.disk.retained[grant.Target() := WholeCut(grant, bytes)]
    ensures end.running == s.running && end.BothFree() && end.detached == s.detached
    ensures end.issued == s.issued[id := grant] && end.exposed == ExposedBy(s, grant.Target())
  {
    var upload := UploadRun(cfg, s, t, id, grant, bytes, at);
    MintNeedsTheStore(cfg, s, t, id, grant, at);
    var here := Uploaded(s, id, grant, WholeCut(grant, bytes), at);
    UploadedMayCommit(cfg, s, t, id, grant, WholeCut(grant, bytes), at);
    var commit := KeptRun(cfg, here, t, id, grant, at);
    PlacedAfresh(here.disk, cfg.hash, id, grant.Target(), grant.chunkCount, grant.size);
    end := KeptEnd(here, id, grant,
                   Disk(here.disk.incoming - {id}, here.disk.retained[grant.Target() := here.disk.incoming[id]]), at);
    LeadsOn(cfg, s, upload, here, commit, end);
    KeptEndShape(s, id, grant, WholeCut(grant, bytes), at, end.disk);
    steps := upload + commit;
  }

  lemma UploadedMayCommit(cfg: Config, s: System, t: Thread, id: UploadId, grant: Grant, dir: Dir, at: Instant)
    requires t !in s.running && s.StoreFree() && !grant.Expired(at) && grant.Target() !in s.disk.retained
    requires |LiveRows(s.snapshots, grant.holder).Keys| < cfg.maximumRetained
    requires Verified(cfg.hash, dir, grant.chunkCount, grant.size, grant.digest)
    ensures var here := Uploaded(s, id, grant, dir, at);
            && Begins(here, t, id, grant, at) && Uploads.Arrived(Uploads.DirOf(here.disk, id), grant, cfg.hash)
            && PlaceSucceeds(cfg, here, id, grant)
  {
    assert Uploads.DirOf(Uploaded(s, id, grant, dir, at).disk, id) == dir;
  }

  lemma KeptEndShape(s: System, id: UploadId, grant: Grant, dir: Dir, at: Instant, disk: Disk)
    requires id !in s.uploads
    ensures var end := KeptEnd(Uploaded(s, id, grant, dir, at), id, grant, disk, at);
            && end.snapshots == Rows.Retain(s.snapshots, grant, at) && end.uploads == s.uploads
            && end.issued == s.issued[id := grant] && end.exposed == ExposedBy(s, grant.Target())
            && end.running == s.running && end.detached == s.detached
            && end.blobLock == s.blobLock && end.storeLock == s.storeLock
  {
    var here := Uploaded(s, id, grant, dir, at);
    UploadedShape(s, id, grant, dir, at);
    SameExposure(s, here, grant.Target());
    assert s.uploads[id := grant] - {id} == s.uploads;
  }

  lemma SameExposure(a: System, b: System, key: Key)
    requires a.snapshots == b.snapshots && a.detached == b.detached && a.exposed == b.exposed
    ensures ExposedBy(a, key) == ExposedBy(b, key)
  {
    assert a.Pending(key) == b.Pending(key);
  }

  lemma UploadedShape(s: System, id: UploadId, grant: Grant, dir: Dir, at: Instant)
    ensures var here := Uploaded(s, id, grant, dir, at);
            && here == s.(uploads := s.uploads[id := grant], disk := here.disk, issued := s.issued[id := grant],
                          clock := here.clock)
            && id in here.disk.incoming && here.disk.incoming[id] == dir && here.disk.retained == s.disk.retained
  {
  }

  lemma PlacedAfresh(disk: Disk, hash: seq<Byte> -> Digest, id: UploadId, key: Key, count: nat, size: nat)
    requires key !in disk.retained && id in disk.incoming
    ensures Place(disk, hash, id, key, count, size) ==
            Placed(Disk(disk.incoming - {id}, disk.retained[key := disk.incoming[id]]))
  {
  }

  lemma FirstMint(cfg: Config, t: Thread, id: UploadId, grant: Grant, at: Instant)
    requires WellFramed(grant) && 0 < cfg.maximumRetained
    ensures MayUploadStep(cfg, EMPTY_SYSTEM, BeginMint(t, id, grant, at))
  {
    assert LiveRows(EMPTY_SYSTEM.snapshots, grant.holder).Keys == {};
    assert OpenGrants(EMPTY_SYSTEM.uploads, grant.holder, at) == {};
  }

  /** One snapshot, kept, and nothing else at all. */
  ghost predicate OneKept(s: System, id: UploadId, grant: Grant, dir: Dir, at: Instant) {
    && s.snapshots == Rows.Retain(map[], grant, at) && s.uploads == map[] &&
       s.disk.retained == map[grant.Target() := dir]
    && s.running == map[] && s.BothFree() && s.detached == map[] && s.issued == map[id := grant]
  }

  lemma FirstKept(cfg: Config, t: Thread, id: UploadId, grant: Grant, bytes: seq<Byte>, at: Instant)
    returns (steps: seq<Step>, end: System)
    requires GrantFor(cfg, grant, bytes, at) && 0 < cfg.maximumRetained
    ensures Leads(cfg, EMPTY_SYSTEM, steps, end) && OneKept(end, id, grant, WholeCut(grant, bytes), at)
    ensures Verified(cfg.hash, WholeCut(grant, bytes), grant.chunkCount, grant.size, grant.digest)
  {
    FirstMint(cfg, t, id, grant, at);
    CutIsFramed(bytes, grant.chunkBytes);
    UploadReadsBack(bytes, grant.chunkBytes, WholeCut(grant, bytes));
    steps, end := KeepRun(cfg, EMPTY_SYSTEM, t, id, grant, bytes, at);
  }

  /** With its only snapshot erased, the operator grants it again. */
  lemma MintAgain(cfg: Config, s: System, u: Thread, id: UploadId, grant: Grant, at: Instant)
    requires WellFramed(grant) && 0 < cfg.maximumRetained && u !in s.running && s.StoreFree() && id !in s.issued
    requires s.uploads == map[] && LiveKeys(s.snapshots) == {}
    ensures MayUploadStep(cfg, s, BeginMint(u, id, grant, at))
  {
    assert forall key :: !LiveAt(s.snapshots, key) by {
      forall key ensures !LiveAt(s.snapshots, key) {
        assert key !in LiveKeys(s.snapshots);
      }
    }
    assert LiveRows(s.snapshots, grant.holder).Keys == {};
    assert OpenGrants(s.uploads, grant.holder, at) == {} && OpenGrantsFor(s.uploads, grant.Target(), at) == {};
  }

  lemma OnlyRowErased(s: System, id: UploadId, grant: Grant, dir: Dir, at: Instant)
    requires OneKept(s, id, grant, dir, at)
    ensures LiveAt(s.snapshots, grant.Target()) && LiveKeys(EraseRows(s.snapshots, {grant.Target()}, at)) == {}
  {
    var erased := EraseRows(s.snapshots, {grant.Target()}, at);
    assert forall key :: key in erased ==> key == grant.Target();
  }

  // ---- A live snapshot without its bytes ---------------------------------------------------------

  /** A run of the operator that ends with a snapshot live and its directory gone: an erase
      request is dropped while its unlink is still to run, the client's second upload is
      committed over the bytes the unlink has not reached, and then it reaches them. */
  lemma DetachedUnlinkLosesARevival(cfg: Config, t: Thread, u: Thread, task: Thread, id: UploadId, again: UploadId,
                                    grant: Grant, bytes: seq<Byte>, at: Instant)
    returns (steps: seq<Step>)
    requires t != u && id != again && 0 < cfg.maximumRetained && GrantFor(cfg, grant, bytes, at)
    ensures Run(cfg, steps) && LiveAt(After(cfg, steps).snapshots, grant.Target())
    ensures grant.Target() !in After(cfg, steps).disk.retained && PlacedUnderUnlink(cfg, steps, grant.Target())
  {
    var key, dir := grant.Target(), WholeCut(grant, bytes);
    var kept, s2 := FirstKept(cfg, t, id, grant, bytes, at);
    OnlyRowErased(s2, id, grant, dir, at);
    ThenBeginErase(cfg, EMPTY_SYSTEM, kept, s2, t, {key}, at);
    var s3 := s2.(snapshots := EraseRows(s2.snapshots, {key}, at), blobLock := Some(t)).Going(t, Unlinking({key}));
    var rest, end := RevivedUnderUnlink(cfg, s3, t, u, task, again, grant, bytes, at);
    LeadsOn(cfg, EMPTY_SYSTEM, kept + [BeginErase(t, {key}, at)], s3, rest, end);
    steps := kept + [BeginErase(t, {key}, at)] + rest;
    LedTo(cfg, EMPTY_SYSTEM, steps, end);
    EveryStateIsSound(cfg, steps);
    ExposedHistory(cfg, steps, key);
    assert LiveAt(end.snapshots, key) ==> Kept(cfg, end, key, end.snapshots[key].chunkCount, end.snapshots[key].size);
  }

  lemma RevivedUnderUnlink(cfg: Config, s: System, t: Thread, u: Thread, task: Thread, again: UploadId,
                           grant: Grant, bytes: seq<Byte>, at: Instant)
    returns (steps: seq<Step>, end: System)
    requires t != u && 0 < cfg.maximumRetained && GrantFor(cfg, grant, bytes, at) && again !in s.issued
    requires s.running == map[t := Unlinking({grant.Target()})] && s.blobLock == Some(t) && s.storeLock == None
    requires s.uploads == map[] && s.detached == map[] && LiveKeys(s.snapshots) == {}
    requires s.disk.retained == map[grant.Target() := WholeCut(grant, bytes)]
    ensures Leads(cfg, s, steps, end) && LiveAt(end.snapshots, grant.Target()) && grant.Target() !in end.disk.retained
  {
    MintAgain(cfg, s, u, again, grant, at);
    var upload, checked := UploadAndHash(cfg, s, u, again, grant, bytes, at);
    AdoptionSucceeds(cfg, checked, again, grant, WholeCut(grant, bytes));
    assert checked.running == map[t := Unlinking({grant.Target()}), u := Checked(again, grant)];
    var rest;
    rest, end := DroppedThenAdopted(cfg, checked, t, u, task, again, grant, at);
    LeadsOn(cfg, s, upload, checked, rest, end);
    steps := upload + rest;
  }

  lemma UploadAndHash(cfg: Config, s: System, u: Thread, id: UploadId, grant: Grant, bytes: seq<Byte>, at: Instant)
    returns (steps: seq<Step>, checked: System)
    requires GrantFor(cfg, grant, bytes, at) && MayUploadStep(cfg, s, BeginMint(u, id, grant, at)) &&
             s.blobLock != Some(u)
    ensures Leads(cfg, s, steps, checked) && checked.running == s.running[u := Checked(id, grant)]
    ensures checked.snapshots == s.snapshots && checked.disk.retained == s.disk.retained &&
            checked.detached == s.detached
    ensures checked.blobLock == s.blobLock && checked.storeLock == s.storeLock
    ensures Verified(cfg.hash, WholeCut(grant, bytes), grant.chunkCount, grant.size, grant.digest)
  {
    var upload := UploadRun(cfg, s, u, id, grant, bytes, at);
    MintNeedsTheStore(cfg, s, u, id, grant, at);
    var here := Uploaded(s, id, grant, WholeCut(grant, bytes), at);
    UploadedShape(s, id, grant, WholeCut(grant, bytes), at);
    var hashed := CheckedRun(cfg, here, u, id, grant, at);
    checked := here.Going(u, Checked(id, grant));
    LeadsOn(cfg, s, upload, here, hashed, checked);
    steps := upload + hashed;
  }

  /** A directory left behind by an erasure is adopted by the next upload of its bytes. */
  lemma AdoptionSucceeds(cfg: Config, s: System, id: UploadId, grant: Grant, dir: Dir)
    requires s.disk.retained == map[grant.Target() := dir] && LiveKeys(s.snapshots) == {} && 0 < cfg.maximumRetained
    requires Verified(cfg.hash, dir, grant.chunkCount, grant.size, grant.digest)
    ensures PlaceSucceeds(cfg, s, id, grant) && !LiveAt(s.snapshots, grant.Target())
  {
    assert grant.Target() !in LiveKeys(s.snapshots);
    assert forall d :: Key(grant.holder, d) !in LiveKeys(s.snapshots);
    assert LiveRows(s.snapshots, grant.holder).Keys == {};
  }

  lemma DroppedThenAdopted(cfg: Config, s: System, t: Thread, u: Thread, task: Thread, id: UploadId, grant: Grant,
                           at: Instant)
    returns (steps: seq<Step>, end: System)
    requires t != u && s.running == map[t := Unlinking({grant.Target()}), u := Checked(id, grant)] &&
             s.detached == map[]
    requires s.blobLock == Some(t) && s.StoreFree() && PlaceSucceeds(cfg, s, id, grant) &&
             !LiveAt(s.snapshots, grant.Target())
    ensures Leads(cfg, s, steps, end) && LiveAt(end.snapshots, grant.Target()) && grant.Target() !in end.disk.retained
  {
    var dropped := Dropped(cfg, s, t, u, task, id, grant);
    SamePlace(cfg, s, dropped, id, grant);
    var rest;
    rest, end := AdoptedThenUnlinked(cfg, dropped, u, task, id, grant, at);
    LeadsOn(cfg, s, [] + [Disconnect(t, task)], dropped, rest, end);
    steps := [] + [Disconnect(t, task)] + rest;
  }

  lemma Dropped(cfg: Config, s: System, t: Thread, u: Thread, task: Thread, id: UploadId, grant: Grant)
    returns (dropped: System)
    requires t != u && s.running == map[t := Unlinking({grant.Target()}), u := Checked(id, grant)] &&
             s.detached == map[]
    requires s.blobLock == Some(t) && s.StoreFree()
    ensures Leads(cfg, s, [] + [Disconnect(t, task)], dropped)
    ensures dropped.running == map[u := Checked(id, grant)] && dropped.BothFree() &&
            dropped.detached == map[task := {grant.Target()}]
    ensures dropped.snapshots == s.snapshots && dropped.disk == s.disk
  {
    LeadsNowhere(cfg, s);
    ThenDisconnect(cfg, s, [], s, t, task, {grant.Target()});
    dropped := s.(detached := s.detached[task := {grant.Target()}]).Ended(t);
    assert dropped.running == map[u := Checked(id, grant)];
  }

  lemma SamePlace(cfg: Config, a: System, b: System, id: UploadId, grant: Grant)
    requires a.snapshots == b.snapshots && a.disk == b.disk
    ensures PlaceSucceeds(cfg, a, id, grant) == PlaceSucceeds(cfg, b, id, grant)
  {
  }

  lemma AdoptedThenUnlinked(cfg: Config, s: System, u: Thread, task: Thread, id: UploadId, grant: Grant, at: Instant)
    returns (steps: seq<Step>, end: System)
    requires s.running == map[u := Checked(id, grant)] && s.BothFree() && s.detached == map[task := {grant.Target()}]
    requires PlaceSucceeds(cfg, s, id, grant) && !LiveAt(s.snapshots, grant.Target())
    ensures Leads(cfg, s, steps, end) && LiveAt(end.snapshots, grant.Target()) && grant.Target() !in end.disk.retained
  {
    LeadsNowhere(cfg, s);
    ThenPlaceBytes(cfg, s, [], s, u);
    var placed := DoPlace(cfg, s, u);
    assert placed.running[u] == InPlace(id, grant);
    ThenRecordRow(cfg, s, [] + [PlaceBytes(u)], placed, u, at);
    var recorded := DoRecord(placed, u, at);
    ThenUnlinkDetached(cfg, s, [] + [PlaceBytes(u)] + [RecordRow(u, at)], recorded, task, grant.Target());
    end := DoUnlinkDetached(recorded, task, grant.Target(), true);
    steps := [] + [PlaceBytes(u)] + [RecordRow(u, at)] + [UnlinkDetached(task, grant.Target(), true)];
  }

  // ---- A whole snapshot out of the live set --------------------------------------------------------

  /** Erased by one request and uploaded again by the same client, around whatever else runs. */
  lemma EraseAndKeepAgain(cfg: Config, s: System, u: Thread, id: UploadId, grant: Grant, bytes: seq<Byte>, at: Instant)
    returns (steps: seq<Step>, erased: seq<Step>, end: System)
    requires 0 < cfg.maximumRetained && GrantFor(cfg, grant, bytes, at) && id !in s.issued && s.uploads == map[]
    requires u !in s.running && s.BothFree() && LiveAt(s.snapshots, grant.Target())
    requires LiveKeys(EraseRows(s.snapshots, {grant.Target()}, at)) == {}
    ensures Leads(cfg, s, erased, Erasing(s, grant.Target(), at)) &&
            Leads(cfg, Erasing(s, grant.Target(), at), steps, end)
    ensures end.running == s.running && end.BothFree() && LiveAt(end.snapshots, grant.Target())
    ensures grant.Target() in end.disk.retained && end.disk.retained[grant.Target()] == WholeCut(grant, bytes)
    ensures end.snapshots[grant.Target()].chunkCount == grant.chunkCount &&
            end.snapshots[grant.Target()].size == grant.size
    ensures end.issued == s.issued[id := grant]
  {
    erased := EraseRun(cfg, s, u, {grant.Target()}, at);
    var gone := Erasing(s, grant.Target(), at);
    MintAgain(cfg, gone, u, id, grant, at);
    steps, end := KeepRun(cfg, gone, u, id, grant, bytes, at);
  }

  ghost function Erasing(s: System, key: Key, at: Instant): System {
    s.(snapshots := EraseRows(s.snapshots, {key}, at), disk := s.disk.(retained := s.disk.retained - {key}))
  }

  lemma CutIsVerified(cfg: Config, grant: Grant, bytes: seq<Byte>, at: Instant)
    requires GrantFor(cfg, grant, bytes, at)
    ensures Verified(cfg.hash, WholeCut(grant, bytes), grant.chunkCount, grant.size, grant.digest)
  {
    CutIsFramed(bytes, grant.chunkBytes);
    UploadReadsBack(bytes, grant.chunkBytes, WholeCut(grant, bytes));
  }

  /** A run of the operator that ends with a snapshot's bytes whole on disk and its row no
      longer live: a download reads the row, the snapshot is erased before the download looks
      for its bytes and uploaded again after, and then the download marks the new row. */
  lemma SlowDownloadUnlistsARevival(cfg: Config, t: Thread, u: Thread, id: UploadId, again: UploadId,
                                    grant: Grant, bytes: seq<Byte>, at: Instant)
    returns (steps: seq<Step>)
    requires t != u && id != again && 0 < cfg.maximumRetained && GrantFor(cfg, grant, bytes, at)
    ensures Run(cfg, steps) && !LiveAt(After(cfg, steps).snapshots, grant.Target())
    ensures Complete(cfg, After(cfg, steps), grant.Target(), grant.chunkCount, grant.size)
  {
    var key, dir := grant.Target(), WholeCut(grant, bytes);
    CutIsVerified(cfg, grant, bytes, at);
    var kept, s2 := FirstKept(cfg, u, id, grant, bytes, at);
    OnlyRowErased(s2, id, grant, dir, at);
    ThenBeginDownload(cfg, EMPTY_SYSTEM, kept, s2, t, key);
    var reading := s2.Going(t, Probing(key, s2.snapshots[key]));
    var rest, end := MarkedAfterRevival(cfg, reading, t, u, again, grant, bytes, at);
    LeadsOn(cfg, EMPTY_SYSTEM, kept + [BeginDownload(t, key)], reading, rest, end);
    steps := kept + [BeginDownload(t, key)] + rest;
    LedTo(cfg, EMPTY_SYSTEM, steps, end);
  }

  lemma MarkedAfterRevival(cfg: Config, s: System, t: Thread, u: Thread, again: UploadId, grant: Grant,
                           bytes: seq<Byte>, at: Instant)
    returns (steps: seq<Step>, end: System)
    requires t != u && 0 < cfg.maximumRetained && GrantFor(cfg, grant, bytes, at) && again !in s.issued &&
             s.uploads == map[]
    requires s.BothFree() && LiveAt(s.snapshots, grant.Target()) &&
             LiveKeys(EraseRows(s.snapshots, {grant.Target()}, at)) == {}
    requires s.running == map[t := Probing(grant.Target(), s.snapshots[grant.Target()])]
    ensures Leads(cfg, s, steps, end) && !LiveAt(end.snapshots, grant.Target())
    ensures grant.Target() in end.disk.retained && end.disk.retained[grant.Target()] == WholeCut(grant, bytes)
  {
    var missed, marking := ProbedInVain(cfg, s, t, u, grant.Target(), at);
    MintAgain(cfg, marking, u, again, grant, at);
    var revived, live := KeepRun(cfg, marking, u, again, grant, bytes, at);
    LeadsOn(cfg, s, missed, marking, revived, live);
    ThenMarkLost(cfg, s, missed + revived, live, t, grant.Target(), at);
    end := live.(snapshots := MarkUnavailable(live.snapshots, grant.Target(), at)).Ended(t);
    steps := missed + revived + [MarkLost(t, at)];
  }

  /** The snapshot is erased between the download's reading its row and its looking for the bytes. */
  lemma ProbedInVain(cfg: Config, s: System, t: Thread, u: Thread, key: Key, at: Instant)
    returns (steps: seq<Step>, marking: System)
    requires t != u && s.BothFree() && LiveAt(s.snapshots, key) && s.running == map[t := Probing(key, s.snapshots[key])]
    ensures Leads(cfg, s, steps, marking) && marking.running == map[t := Marking(key)] && marking.BothFree()
    ensures marking.snapshots == EraseRows(s.snapshots, {key}, at) && marking.disk.retained == s.disk.retained - {key}
    ensures marking.uploads == s.uploads && marking.issued == s.issued
  {
    var erased := EraseRun(cfg, s, u, {key}, at);
    var gone := Erasing(s, key, at);
    ThenProbe(cfg, s, erased, gone, t);
    marking := DoProbe(gone, t);
    steps := erased + [Probe(t)];
  }

  /** The same from the sweep's side, without any missing bytes: the row was listed, erased,
      and uploaded again under another framing before it was inspected. The operator reads the
      size of a chunk from its configuration when it starts, so it was restarted with another
      one between the two uploads: all that was minted before the crash is the one grant, and
      all that was minted after it is the other. */
  lemma StaleListingUnlistsARevival(cfg: Config, t: Thread, u: Thread, id: UploadId, again: UploadId,
                                    grant: Grant, other: Grant, bytes: seq<Byte>, at: Instant)
    returns (before: seq<Step>, after: seq<Step>)
    requires t != u && id != again && 0 < cfg.maximumRetained && GrantFor(cfg, grant, bytes, at) &&
             GrantFor(cfg, other, bytes, at)
    requires other.Target() == grant.Target() && other.chunkCount != grant.chunkCount
    ensures Run(cfg, before) && After(cfg, before).issued == map[id := grant]
    ensures Run(cfg, before + [Crash] + after)
    ensures var end := After(cfg, before + [Crash] + after);
            && end.issued == map[id := grant, again := other]
            && !LiveAt(end.snapshots, other.Target())
            && Complete(cfg, end, other.Target(), other.chunkCount, other.size)
  {
    var key, dir := grant.Target(), WholeCut(grant, bytes);
    CutIsVerified(cfg, other, bytes, at);
    var s2;
    before, s2 := FirstKept(cfg, u, id, grant, bytes, at);
    LedTo(cfg, EMPTY_SYSTEM, before, s2);
    OnlyRowErased(s2, id, grant, dir, at);
    ThenCrash(cfg, EMPTY_SYSTEM, before, s2);
    var end;
    after, end := ListedThenStale(cfg, s2, t, u, again, other, bytes, at);
    LeadsOn(cfg, EMPTY_SYSTEM, before + [Crash], s2, after, end);
    LedTo(cfg, EMPTY_SYSTEM, before + [Crash] + after, end);
  }

  /** From one live snapshot and nothing running. */
  lemma ListedThenStale(cfg: Config, s: System, t: Thread, u: Thread, again: UploadId, other: Grant,
                        bytes: seq<Byte>, at: Instant)
    returns (steps: seq<Step>, end: System)
    requires t != u && 0 < cfg.maximumRetained && GrantFor(cfg, other, bytes, at)
    requires again !in s.issued && s.uploads == map[] && s.running == map[] && s.BothFree()
    requires LiveAt(s.snapshots, other.Target()) && s.snapshots[other.Target()].chunkCount != other.chunkCount
    requires LiveKeys(EraseRows(s.snapshots, {other.Target()}, at)) == {}
    ensures Leads(cfg, s, steps, end) && end.issued == s.issued[again := other]
    ensures !LiveAt(end.snapshots, other.Target())
    ensures other.Target() in end.disk.retained && end.disk.retained[other.Target()] == WholeCut(other, bytes)
  {
    var key := other.Target();
    LeadsNowhere(cfg, s);
    ThenListLive(cfg, s, [], s, t, key);
    var listed := s.Going(t, Listed(key, s.snapshots[key]));
    var revived, erased, live := EraseAndKeepAgain(cfg, listed, u, again, other, bytes, at);
    LeadsOn(cfg, listed, erased, Erasing(listed, key, at), revived, live);
    LeadsOn(cfg, s, [] + [ListLive(t, key)], listed, erased + revived, live);
    CutIsVerified(cfg, other, bytes, at);
    var rest;
    rest, end := InspectedStale(cfg, live, t, key, s.snapshots[key], at);
    LeadsOn(cfg, s, [] + [ListLive(t, key)] + (erased + revived), live, rest, end);
    steps := [] + [ListLive(t, key)] + (erased + revived) + rest;
  }

  lemma InspectedStale(cfg: Config, s: System, t: Thread, key: Key, row: Row, at: Instant)
    returns (steps: seq<Step>, end: System)
    requires t in s.running && s.running[t] == Listed(key, row) && s.BothFree() && LiveAt(s.snapshots, key)
    requires key in s.disk.retained && Whole(s.disk.retained[key], s.snapshots[key].chunkCount, s.snapshots[key].size)
    requires row.chunkCount != s.snapshots[key].chunkCount
    ensures Leads(cfg, s, steps, end) && !LiveAt(end.snapshots, key) && end.disk == s.disk && end.issued == s.issued
  {
    LeadsNowhere(cfg, s);
    ThenInspect(cfg, s, [], s, t);
    var inspecting := DoInspect(s, t);
    ThenEndInspect(cfg, s, [] + [Inspect(t)], inspecting, t, at);
    assert !Serves(inspecting, key, row) by {
      if Serves(inspecting, key, row) {
        LifecycleMarks.WholeOneWay(s.disk.retained[key], row.chunkCount, row.size, s.snapshots[key].chunkCount,
                                   s.snapshots[key].size);
      }
    }
    end := DoEndInspect(inspecting, t, at);
    steps := [] + [Inspect(t)] + [EndInspect(t, at)];
  }
}
