/** A commit that nothing interleaves with, step by step, ends where Uploads.Commit says,
    whatever it answers. */
module CommitRefinement {
  import opened Types
  import opened Tables
  import opened Framing
  import opened Blobs
  import opened Lifecycle
  import opened LifecycleSafety
  import opened LifecycleRuns
  import opened LifecycleMoves
  import opened Uploads
  import Rows = Tables

  /** A run of one thread that ends with these rows, grants and directories and leaves every
      other thread, every lock and every pending unlink as it found them. */
  ghost predicate EndsAs(cfg: Config, s: System, steps: seq<Step>, db: Tables, disk: Disk) {
    && Reach(cfg, s, steps).Some?
    && var end := Reach(cfg, s, steps).value;
       && end.snapshots == db.snapshots && end.uploads == db.uploads && end.disk == disk
       && end.running == s.running && end.detached == s.detached
       && end.blobLock == s.blobLock && end.storeLock == s.storeLock
  }

  /** The tables and the directories are the system's. */
  ghost predicate Shows(s: System, db: Tables, disk: Disk) {
    db.snapshots == s.snapshots && db.uploads == s.uploads && disk == s.disk
  }

  lemma EndsThere(cfg: Config, s: System, steps: seq<Step>, end: System, db: Tables, disk: Disk)
    requires Leads(cfg, s, steps, end) && Shows(end, db, disk)
    requires end.running == s.running && end.detached == s.detached && end.blobLock == s.blobLock &&
             end.storeLock == s.storeLock
    ensures EndsAs(cfg, s, steps, db, disk)
  {
    LedTo(cfg, s, steps, end);
  }

  /** A thread may begin to commit this upload. */
  ghost predicate Begins(s: System, t: Thread, id: UploadId, grant: Grant, at: Instant) {
    t !in s.running && s.StoreFree() && id in s.uploads && s.uploads[id] == grant && !grant.Expired(at)
  }

  ghost predicate HasFirst(s: System, id: UploadId, k: nat) { forall i :: 0 <= i < k ==> i in DirOf(s.disk, id) }

  ghost function Arrives(s: System, t: Thread, id: UploadId, grant: Grant, k: nat): System
    requires HasFirst(s, id, k)
  {
    s.Going(t, Arriving(id, grant, k, |Content(DirOf(s.disk, id), k)|))
  }

  ghost function Hashes(s: System, t: Thread, id: UploadId, grant: Grant, k: nat): System
    requires HasFirst(s, id, k)
  {
    s.Going(t, Hashing(id, grant, k, Content(DirOf(s.disk, id), k)))
  }

  lemma ArriveRun(cfg: Config, s: System, t: Thread, id: UploadId, grant: Grant, at: Instant, n: nat)
    returns (steps: seq<Step>)
    requires Begins(s, t, id, grant, at) && n <= grant.chunkCount && HasFirst(s, id, n)
    ensures Leads(cfg, s, steps, Arrives(s, t, id, grant, n))
  {
    steps := ArriveNone(cfg, s, t, id, grant, at);
    for k := 0 to n
      invariant HasFirst(s, id, k) && Leads(cfg, s, steps, Arrives(s, t, id, grant, k))
    {
      ArriveNext(cfg, s, steps, t, id, grant, k);
      steps := steps + [Arrive(t)];
    }
  }

  lemma ArriveNone(cfg: Config, s: System, t: Thread, id: UploadId, grant: Grant, at: Instant)
    returns (steps: seq<Step>)
    requires Begins(s, t, id, grant, at)
    ensures Leads(cfg, s, steps, Arrives(s, t, id, grant, 0))
  {
    LeadsNowhere(cfg, s);
    ThenBeginCommit(cfg, s, [], s, t, id, at);
    steps := [] + [BeginCommit(t, id, at)];
  }

  lemma ArriveNext(cfg: Config, s: System, run: seq<Step>, t: Thread, id: UploadId, grant: Grant, k: nat)
    requires k < grant.chunkCount && HasFirst(s, id, k + 1)
    requires Leads(cfg, s, run, Arrives(s, t, id, grant, k))
    ensures Leads(cfg, s, run + [Arrive(t)], Arrives(s, t, id, grant, k + 1))
  {
    ThenArrive(cfg, s, run, Arrives(s, t, id, grant, k), t);
    ArriveOne(s, t, id, grant, k);
  }

  lemma ArriveOne(s: System, t: Thread, id: UploadId, grant: Grant, k: nat)
    requires k < grant.chunkCount && HasFirst(s, id, k + 1)
    ensures DoArrive(Arrives(s, t, id, grant, k), t) == Arrives(s, t, id, grant, k + 1)
  {
    assert k in DirOf(s.disk, id);
    GoesOn(s, t, Arrives(s, t, id, grant, k).running[t], Arrives(s, t, id, grant, k + 1).running[t]);
  }

  /** Only where the thread stands now matters, not where it stood. */
  lemma GoesOn(s: System, t: Thread, was: Phase, next: Phase)
    ensures s.Going(t, was).Going(t, next) == s.Going(t, next)
  {
    assert s.Going(t, was).Going(t, next).running == s.Going(t, next).running;
  }

  /** All chunks are there and add up: on to hashing. */
  lemma ArriveLast(cfg: Config, s: System, run: seq<Step>, t: Thread, id: UploadId, grant: Grant)
    requires AllThere(DirOf(s.disk, id), grant) && |Content(DirOf(s.disk, id), grant.chunkCount)| == grant.size
    requires Leads(cfg, s, run, Arrives(s, t, id, grant, grant.chunkCount))
    ensures Leads(cfg, s, run + [Arrive(t)], Hashes(s, t, id, grant, 0))
  {
    var mid := Arrives(s, t, id, grant, grant.chunkCount);
    ThenArrive(cfg, s, run, mid, t);
    GoesOn(s, t, mid.running[t], Hashing(id, grant, 0, []));
  }

  lemma HashRun(cfg: Config, s: System, t: Thread, id: UploadId, grant: Grant, at: Instant)
    returns (steps: seq<Step>)
    requires Begins(s, t, id, grant, at) && AllThere(DirOf(s.disk, id), grant)
    requires |Content(DirOf(s.disk, id), grant.chunkCount)| == grant.size
    ensures Leads(cfg, s, steps, Hashes(s, t, id, grant, grant.chunkCount))
  {
    var arrived := ArriveRun(cfg, s, t, id, grant, at, grant.chunkCount);
    ArriveLast(cfg, s, arrived, t, id, grant);
    steps := arrived + [Arrive(t)];
    for k := 0 to grant.chunkCount
      invariant HasFirst(s, id, k) && Leads(cfg, s, steps, Hashes(s, t, id, grant, k))
    {
      HashNext(cfg, s, steps, t, id, grant, k);
      steps := steps + [Hash(t)];
    }
  }

  lemma HashNext(cfg: Config, s: System, run: seq<Step>, t: Thread, id: UploadId, grant: Grant, k: nat)
    requires k < grant.chunkCount && HasFirst(s, id, k + 1)
    requires Leads(cfg, s, run, Hashes(s, t, id, grant, k))
    ensures Leads(cfg, s, run + [Hash(t)], Hashes(s, t, id, grant, k + 1))
  {
    assert k in DirOf(s.disk, id);
    ThenHash(cfg, s, run, Hashes(s, t, id, grant, k), t);
    GoesOn(s, t, Hashes(s, t, id, grant, k).running[t], Hashes(s, t, id, grant, k + 1).running[t]);
  }

  lemma CheckedRun(cfg: Config, s: System, t: Thread, id: UploadId, grant: Grant, at: Instant)
    returns (steps: seq<Step>)
    requires Begins(s, t, id, grant, at) && Arrived(DirOf(s.disk, id), grant, cfg.hash)
    ensures Leads(cfg, s, steps, s.Going(t, Checked(id, grant)))
  {
    var before := HashRun(cfg, s, t, id, grant, at);
    var mid := Hashes(s, t, id, grant, grant.chunkCount);
    ThenHash(cfg, s, before, mid, t);
    GoesOn(s, t, mid.running[t], Checked(id, grant));
    steps := before + [Hash(t)];
  }

  // ---- An upload that is kept --------------------------------------------------------------

  lemma PlacedRun(cfg: Config, s: System, t: Thread, id: UploadId, grant: Grant, at: Instant) returns (steps: seq<Step>)
    requires Begins(s, t, id, grant, at) && Arrived(DirOf(s.disk, id), grant, cfg.hash)
    requires s.BothFree() && PlaceSucceeds(cfg, s, id, grant)
    ensures Leads(cfg, s, steps,
                  HoldingBoth(s, t, id, grant,
                              Place(s.disk, cfg.hash, id, grant.Target(), grant.chunkCount, grant.size).disk))
  {
    var before := CheckedRun(cfg, s, t, id, grant, at);
    PlaceNext(cfg, s, before, t, id, grant);
    steps := before + [PlaceBytes(t)];
  }

  lemma PlaceNext(cfg: Config, s: System, run: seq<Step>, t: Thread, id: UploadId, grant: Grant)
    requires s.BothFree() && PlaceSucceeds(cfg, s, id, grant) && Leads(cfg, s, run, s.Going(t, Checked(id, grant)))
    ensures Leads(cfg, s, run + [PlaceBytes(t)],
                  HoldingBoth(s, t, id, grant,
                              Place(s.disk, cfg.hash, id, grant.Target(), grant.chunkCount, grant.size).disk))
  {
    var checked := s.Going(t, Checked(id, grant));
    ThenPlaceBytes(cfg, s, run, checked, t);
    assert PlaceSucceeds(cfg, checked, id, grant);
    HoldsTheSame(s, t, id, grant, Place(s.disk, cfg.hash, id, grant.Target(), grant.chunkCount, grant.size).disk);
  }

  lemma HoldsTheSame(s: System, t: Thread, id: UploadId, grant: Grant, disk: Disk)
    ensures HoldingBoth(s.Going(t, Checked(id, grant)), t, id, grant, disk) == HoldingBoth(s, t, id, grant, disk)
  {
    var checked := s.Going(t, Checked(id, grant));
    assert checked.Pending(grant.Target()) == s.Pending(grant.Target());
    assert HoldingBoth(checked, t, id, grant, disk).running == HoldingBoth(s, t, id, grant, disk).running;
  }

  /** A kept upload: all that changes is the row, the grant and the disk. */
  ghost function KeptEnd(s: System, id: UploadId, grant: Grant, disk: Disk, at: Instant): System {
    s.(disk := disk, exposed := ExposedBy(s, grant.Target()), snapshots := Rows.Retain(s.snapshots, grant, at),
       uploads := s.uploads - {id})
  }

  lemma RecordedRun(cfg: Config, s: System, steps: seq<Step>, t: Thread, id: UploadId, grant: Grant, at: Instant,
                    disk: Disk)
    requires t !in s.running && s.BothFree()
    requires Leads(cfg, s, steps, HoldingBoth(s, t, id, grant, disk))
    ensures Leads(cfg, s, steps + [RecordRow(t, at)] + [FinishCommit(t)], KeptEnd(s, id, grant, disk, at))
  {
    var placed := HoldingBoth(s, t, id, grant, disk);
    ThenRecordRow(cfg, s, steps, placed, t, at);
    var recorded := DoRecord(placed, t, at);
    ThenFinishCommit(cfg, s, steps + [RecordRow(t, at)], recorded, t);
    var end := recorded.(uploads := recorded.uploads - {id}).Ended(t);
    assert end.running == s.running;
  }

  lemma KeptRun(cfg: Config, s: System, t: Thread, id: UploadId, grant: Grant, at: Instant) returns (steps: seq<Step>)
    requires Begins(s, t, id, grant, at) && Arrived(DirOf(s.disk, id), grant, cfg.hash)
    requires s.BothFree() && PlaceSucceeds(cfg, s, id, grant)
    ensures Leads(cfg, s, steps,
                  KeptEnd(s, id, grant,
                          Place(s.disk, cfg.hash, id, grant.Target(), grant.chunkCount, grant.size).disk, at))
  {
    var before := PlacedRun(cfg, s, t, id, grant, at);
    RecordedRun(cfg, s, before, t, id, grant, at,
                Place(s.disk, cfg.hash, id, grant.Target(), grant.chunkCount, grant.size).disk);
    steps := before + [RecordRow(t, at)] + [FinishCommit(t)];
  }

  // ---- An upload that is not ------------------------------------------------------------------

  /** A chunk is missing: the thread gives up at the first gap and nothing has changed. */
  lemma IncompleteRun(cfg: Config, s: System, t: Thread, id: UploadId, grant: Grant, at: Instant)
    returns (steps: seq<Step>)
    requires Begins(s, t, id, grant, at) && s.blobLock != Some(t) && !AllThere(DirOf(s.disk, id), grant)
    ensures Leads(cfg, s, steps, s)
  {
    var k := FirstGap(DirOf(s.disk, id), grant);
    var before := ArriveRun(cfg, s, t, id, grant, at, k);
    ThenArrive(cfg, s, before, Arrives(s, t, id, grant, k), t);
    EndsWhereItBegan(s, t, Arrives(s, t, id, grant, k).running[t]);
    steps := before + [Arrive(t)];
  }

  /** A thread that takes nothing leaves nothing. */
  lemma EndsWhereItBegan(s: System, t: Thread, phase: Phase)
    requires t !in s.running && s.storeLock != Some(t) && s.blobLock != Some(t)
    ensures s.Going(t, phase).Ended(t) == s
  {
    assert s.Going(t, phase).Ended(t).running == s.running;
  }

  lemma FirstGap(dir: Dir, grant: Grant) returns (k: nat)
    requires !AllThere(dir, grant)
    ensures k < grant.chunkCount && k !in dir && forall i :: 0 <= i < k ==> i in dir
  {
    k := 0;
    while k < grant.chunkCount && k in dir
      invariant k <= grant.chunkCount && forall i :: 0 <= i < k ==> i in dir
    {
      k := k + 1;
    }
  }

  lemma AbandonRun(cfg: Config, s: System, steps: seq<Step>, t: Thread, id: UploadId) returns (all: seq<Step>)
    requires t !in s.running && s.StoreFree() && s.blobLock != Some(t)
    requires Leads(cfg, s, steps, s.Going(t, Abandoning(id)))
    ensures Leads(cfg, s, all, s.WithoutIncoming(id).(uploads := s.uploads - {id}))
  {
    var going := s.Going(t, Abandoning(id));
    ThenAbandonBytes(cfg, s, steps, going, t, id);
    var dropping := going.WithoutIncoming(id).Going(t, Dropping(id));
    ThenAbandonRow(cfg, s, steps + [AbandonBytes(t)], dropping, t, id);
    assert dropping.(uploads := dropping.uploads - {id}).Ended(t).running == s.running;
    all := steps + [AbandonBytes(t)] + [AbandonRow(t)];
  }

  /** Every chunk is there and the size or the digest is wrong: bytes and grant go. */
  lemma MismatchRun(cfg: Config, s: System, t: Thread, id: UploadId, grant: Grant, at: Instant)
    returns (steps: seq<Step>)
    requires Begins(s, t, id, grant, at) && s.blobLock != Some(t)
    requires AllThere(DirOf(s.disk, id), grant) && !Arrived(DirOf(s.disk, id), grant, cfg.hash)
    ensures Leads(cfg, s, steps, s.WithoutIncoming(id).(uploads := s.uploads - {id}))
  {
    if |Content(DirOf(s.disk, id), grant.chunkCount)| != grant.size {
      var before := ArriveRun(cfg, s, t, id, grant, at, grant.chunkCount);
      WrongSizeNext(cfg, s, before, t, id, grant);
      steps := AbandonRun(cfg, s, before + [Arrive(t)], t, id);
    } else {
      var before := HashRun(cfg, s, t, id, grant, at);
      WrongHashNext(cfg, s, before, t, id, grant);
      steps := AbandonRun(cfg, s, before + [Hash(t)], t, id);
    }
  }

  lemma WrongSizeNext(cfg: Config, s: System, run: seq<Step>, t: Thread, id: UploadId, grant: Grant)
    requires HasFirst(s, id, grant.chunkCount) && |Content(DirOf(s.disk, id), grant.chunkCount)| != grant.size
    requires Leads(cfg, s, run, Arrives(s, t, id, grant, grant.chunkCount))
    ensures Leads(cfg, s, run + [Arrive(t)], s.Going(t, Abandoning(id)))
  {
    var mid := Arrives(s, t, id, grant, grant.chunkCount);
    ThenArrive(cfg, s, run, mid, t);
    GoesOn(s, t, mid.running[t], Abandoning(id));
  }

  lemma WrongHashNext(cfg: Config, s: System, run: seq<Step>, t: Thread, id: UploadId, grant: Grant)
    requires HasFirst(s, id, grant.chunkCount) && cfg.hash(Content(DirOf(s.disk, id), grant.chunkCount)) != grant.digest
    requires Leads(cfg, s, run, Hashes(s, t, id, grant, grant.chunkCount))
    ensures Leads(cfg, s, run + [Hash(t)], s.Going(t, Abandoning(id)))
  {
    var mid := Hashes(s, t, id, grant, grant.chunkCount);
    ThenHash(cfg, s, run, mid, t);
    GoesOn(s, t, mid.running[t], Abandoning(id));
  }

  /** The bytes are right and there is no room, or the destination cannot be adopted. */
  lemma RefusedRun(cfg: Config, s: System, t: Thread, id: UploadId, grant: Grant, at: Instant)
    returns (steps: seq<Step>)
    requires Begins(s, t, id, grant, at) && Arrived(DirOf(s.disk, id), grant, cfg.hash)
    requires s.BothFree() && !PlaceSucceeds(cfg, s, id, grant)
    ensures Leads(cfg, s, steps, if RoomFor(cfg, s, grant.Target()) then s
                  else s.WithoutIncoming(id).(uploads := s.uploads - {id}))
  {
    var before := CheckedRun(cfg, s, t, id, grant, at);
    RefuseNext(cfg, s, before, t, id, grant);
    steps := before + [PlaceBytes(t)];
  }

  lemma RefuseNext(cfg: Config, s: System, run: seq<Step>, t: Thread, id: UploadId, grant: Grant)
    requires s.BothFree() && t !in s.running && !PlaceSucceeds(cfg, s, id, grant)
    requires Leads(cfg, s, run, s.Going(t, Checked(id, grant)))
    ensures Leads(cfg, s, run + [PlaceBytes(t)], if RoomFor(cfg, s, grant.Target()) then s
                  else s.WithoutIncoming(id).(uploads := s.uploads - {id}))
  {
    var checked := s.Going(t, Checked(id, grant));
    ThenPlaceBytes(cfg, s, run, checked, t);
    assert !PlaceSucceeds(cfg, checked, id, grant);
    EndsWhereItBegan(s, t, Checked(id, grant));
    EndsWhereItBegan(s.WithoutIncoming(id).(uploads := s.uploads - {id}), t, Checked(id, grant));
  }

  lemma HasPlaceToGo(disk: Disk, id: UploadId, grant: Grant, hash: seq<Byte> -> Digest)
    ensures HasPlace(disk, id, grant, hash) <==>
            Place(disk, hash, id, grant.Target(), grant.chunkCount, grant.size).Placed?
  {
  }

  lemma KeptWherePlaced(before: Tables, diskBefore: Disk, after: Tables, disk: Disk, id: UploadId, grant: Grant,
                     hash: seq<Byte> -> Digest, now: Instant)
    requires HasPlace(diskBefore, id, grant, hash) && KeepsUpload(before, diskBefore, after, disk, id, grant, now)
    ensures Place(diskBefore, hash, id, grant.Target(), grant.chunkCount, grant.size) == Placed(disk)
    ensures after.snapshots == Rows.Retain(before.snapshots, grant, now) && after.uploads == before.uploads - {id}
  {
  }

  /** The upload is kept: the run of a commit that goes through ends there. */
  lemma RetainedIsARun(cfg: Config, s: System, t: Thread, id: UploadId, grant: Grant, now: Instant, before: Tables,
                       after: Tables, disk: Disk)
    returns (steps: seq<Step>)
    requires Begins(s, t, id, grant, now) && s.BothFree() && Shows(s, before, s.disk)
    requires Arrived(DirOf(s.disk, id), grant, cfg.hash) && HasRoom(before, grant, cfg.maximumRetained)
    requires HasPlace(s.disk, id, grant, cfg.hash) && KeepsUpload(before, s.disk, after, disk, id, grant, now)
    ensures EndsAs(cfg, s, steps, after, disk)
  {
    KeptWherePlaced(before, s.disk, after, disk, id, grant, cfg.hash, now);
    steps := KeptRun(cfg, s, t, id, grant, now);
    EndsThere(cfg, s, steps, KeptEnd(s, id, grant, disk, now), after, disk);
  }

  /** The bytes are refused a place, or are not the ones that were granted. */
  lemma RefusedIsARun(cfg: Config, s: System, t: Thread, id: UploadId, grant: Grant, now: Instant, before: Tables,
                      after: Tables, disk: Disk, answer: CommitAnswer)
    returns (steps: seq<Step>)
    requires Begins(s, t, id, grant, now) && s.BothFree() && Shows(s, before, s.disk)
    requires answer.OverQuota? || answer.NotPlaced?
    requires CommitOutcome(before, s.disk, after, disk, cfg.hash, cfg.maximumRetained, id, grant, now, answer)
    ensures EndsAs(cfg, s, steps, after, disk)
  {
    HasPlaceToGo(s.disk, id, grant, cfg.hash);
    steps := RefusedRun(cfg, s, t, id, grant, now);
    EndsThere(cfg, s, steps, if RoomFor(cfg, s, grant.Target()) then s
              else s.WithoutIncoming(id).(uploads := s.uploads - {id}), after, disk);
  }

  // ---- Any answer --------------------------------------------------------------------------------

  lemma OutcomeIsARun(cfg: Config, s: System, t: Thread, id: UploadId, grant: Grant, now: Instant,
                      before: Tables, after: Tables, disk: Disk, answer: CommitAnswer)
    returns (steps: seq<Step>)
    requires Begins(s, t, id, grant, now) && s.BothFree() && Shows(s, before, s.disk)
    requires CommitOutcome(before, s.disk, after, disk, cfg.hash, cfg.maximumRetained, id, grant, now, answer)
    ensures EndsAs(cfg, s, steps, after, disk)
  {
    match answer
    case Retained => steps := RetainedIsARun(cfg, s, t, id, grant, now, before, after, disk);
    case Incomplete(missing) =>
      GapsMeanMissing(DirOf(s.disk, id), grant, missing);
      steps := IncompleteRun(cfg, s, t, id, grant, now);
      EndsThere(cfg, s, steps, s, after, disk);
    case DigestMismatch =>
      steps := MismatchRun(cfg, s, t, id, grant, now);
      EndsThere(cfg, s, steps, s.WithoutIncoming(id).(uploads := s.uploads - {id}), after, disk);
    case _ => steps := RefusedIsARun(cfg, s, t, id, grant, now, before, after, disk, answer);
  }

  lemma GapsMeanMissing(dir: Dir, grant: Grant, missing: seq<(nat, nat)>)
    requires missing != [] && AreGaps(dir, grant.chunkCount, missing)
    ensures !AllThere(dir, grant)
  {
    var i := missing[0].0;
    assert InGap(missing, i);
  }

  /** Refinement of the one-piece commit by the interleaved system: for every answer the
      route gives there is a run of lock sections and file operations, by one thread, from
      the same state to the same rows, grants and directories, with nothing else touched. */
  lemma CommitIsARunOfSteps(cfg: Config, s: System, t: Thread, caller: Holder, id: UploadId, now: Instant,
                            before: Tables, after: Tables, disk: Disk, answer: CommitAnswer)
    returns (steps: seq<Step>)
    requires t !in s.running && s.BothFree() && Shows(s, before, s.disk)
    requires CommitEffect(before, s.disk, after, disk, cfg.hash, cfg.maximumRetained, caller, id, now, answer)
    ensures EndsAs(cfg, s, steps, after, disk)
  {
    if answer.NoSuchUpload? || answer.UploadExpired? {
      steps := [];
    } else {
      steps := OutcomeIsARun(cfg, s, t, id, before.uploads[id], now, before, after, disk, answer);
    }
  }
}
