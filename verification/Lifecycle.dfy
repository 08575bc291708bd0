/** The snapshot lifecycle as an interleaved system (uploads.rs, erasures.rs, sweep.rs):
    requests and sweep threads advance one lock section or one file operation at a time,
    in any order, and the process may crash between any two of them.

    A rename, a directory removal and one chunk write are atomic, every SQL statement or
    transaction is one step, and acquiring `blob_mutations` and then the store is taken
    as one step where the code does nothing in between.
  */
module Lifecycle {
  import opened Types
  import opened Tables
  import opened Framing
  import opened Blobs
  import Receipts

  type Thread(==, !new)

  datatype Config = Config(hash: seq<Byte> -> Digest, maximumRetained: nat)

  /** Where a request or a sweep thread stands between two steps. */
  datatype Phase =
    | Minting(id: UploadId, grant: Grant)
    | Writing(id: UploadId, index: nat, bytes: Chunk)
    | Arriving(id: UploadId, grant: Grant, next: nat, total: int)
    | Hashing(id: UploadId, grant: Grant, next: nat, read: seq<Byte>)
    | Checked(id: UploadId, grant: Grant)
    | InPlace(id: UploadId, grant: Grant)
    | Recorded(id: UploadId)
    | Abandoning(id: UploadId)
    | Dropping(id: UploadId)
    | Probing(key: Key, row: Row)
    | Marking(key: Key)
    | Unlinking(keys: set<Key>)
    | Discarding(id: UploadId)
    | Listed(key: Key, row: Row)
    | Inspecting(key: Key, row: Row)
    | Sweeping(key: Key)
  {
    predicate HoldsBlobs() { InPlace? || Recorded? || Unlinking? || Inspecting? || Sweeping? }

    predicate Uploads() {
      Minting? || Writing? || Arriving? || Hashing? || Checked? || InPlace? || Recorded? || Abandoning? || Dropping?
    }

    predicate HoldsStore() { Minting? || InPlace? || Recorded? }
  }

  /** `detached` holds the unlinks left running on the blocking pool after their request and
      its lock were gone, task by task. `issued` and `exposed` are history: every grant ever
      minted, and the keys last placed, with no live row, while such an unlink was pending. */
  datatype System = System(
    snapshots: map<Key, Row>,
    uploads: map<UploadId, Grant>,
    disk: Disk,
    running: map<Thread, Phase>,
    blobLock: Option<Thread>,
    storeLock: Option<Thread>,
    clock: Instant,
    issued: map<UploadId, Grant>,
    detached: map<Thread, set<Key>>,
    exposed: set<Key>)
  {
    predicate StoreFree() { storeLock.None? }

    predicate BothFree() { blobLock.None? && storeLock.None? }

    /** An unlink of the key is still to run, under no lock. */
    ghost predicate Pending(key: Key) { exists task :: task in detached && key in detached[task] }

    function Going(t: Thread, phase: Phase): System { this.(running := running[t := phase]) }

    /** The thread returns: whatever it held is released. */
    function Ended(t: Thread): System {
      this.(running := running - {t},
            blobLock := if blobLock == Some(t) then None else blobLock,
            storeLock := if storeLock == Some(t) then None else storeLock)
    }

    function WithoutIncoming(id: UploadId): System { this.(disk := disk.(incoming := disk.incoming - {id})) }

    function WithoutRetained(key: Key): System { this.(disk := disk.(retained := disk.retained - {key})) }
  }

  datatype Step =
    | BeginMint(t: Thread, id: UploadId, grant: Grant, at: Instant)
    | FinishMint(t: Thread)
    | BeginChunk(t: Thread, id: UploadId, index: nat, bytes: Chunk, at: Instant)
    | WriteChunk(t: Thread)
    | BeginCommit(t: Thread, id: UploadId, at: Instant)
    | Arrive(t: Thread)
    | Hash(t: Thread)
    | PlaceBytes(t: Thread)
    | RecordRow(t: Thread, at: Instant)
    | FinishCommit(t: Thread)
    | AbandonBytes(t: Thread)
    | AbandonRow(t: Thread)
    | BeginDownload(t: Thread, key: Key)
    | Probe(t: Thread)
    | MarkLost(t: Thread, at: Instant)
    | BeginErase(t: Thread, keys: set<Key>, at: Instant)
    | Unlink(t: Thread, key: Key, ok: bool)
    | EndErase(t: Thread)
    | ListExpired(t: Thread, id: UploadId, at: Instant)
    | ListOrphan(t: Thread, id: UploadId)
    | Discard(t: Thread)
    | ListLive(t: Thread, key: Key)
    | Inspect(t: Thread)
    | EndInspect(t: Thread, at: Instant)
    | BeginSweep(t: Thread, key: Key)
    | EndSweep(t: Thread)
    | Expire(key: Key, at: Instant)
    | Tick(at: Instant)
    | GiveUp(t: Thread)
    | Disconnect(t: Thread, task: Thread)
    | UnlinkDetached(task: Thread, key: Key, ok: bool)
    | ForgetErased(before: Instant)
    | Crash

  ghost predicate WellFramed(grant: Grant) {
    0 < grant.size && 0 < grant.chunkBytes && grant.chunkCount == ChunkCount(grant.size, grant.chunkBytes)
  }

  function Expected(grant: Grant, index: nat): int {
    ExpectedBytes(grant.size, grant.chunkBytes, grant.chunkCount, index)
  }

  // ---- When a step may be taken ------------------------------------------------------

  predicate IsUploadStep(step: Step) {
    step.BeginMint? || step.FinishMint? || step.BeginChunk? || step.WriteChunk? || step.BeginCommit? || step.Arrive?
    || step.Hash? || step.PlaceBytes? || step.RecordRow? || step.FinishCommit? || step.AbandonBytes? || step.AbandonRow?
  }

  predicate IsListingStep(step: Step) {
    step.BeginDownload? || step.Probe? || step.MarkLost? || step.ListExpired? || step.ListOrphan? || step.Discard?
    || step.ListLive? || step.Inspect? || step.EndInspect? || step.Tick? || step.GiveUp?
  }

  ghost predicate May(cfg: Config, s: System, step: Step) {
    if IsUploadStep(step) then MayUploadStep(cfg, s, step)
    else if IsListingStep(step) then MayListingStep(s, step)
    else MayRemovalStep(s, step)
  }

  ghost predicate MayUploadStep(cfg: Config, s: System, step: Step)
    requires IsUploadStep(step)
  {
    match step
    case BeginMint(t, id, grant, at) =>
      && t !in s.running && s.StoreFree()
      && id !in s.issued && WellFramed(grant)
      && OpenGrantsFor(s.uploads, grant.Target(), at) == {}
      && !LiveAt(s.snapshots, grant.Target())
      && |LiveRows(s.snapshots, grant.holder).Keys| + |OpenGrants(s.uploads, grant.holder, at)| < cfg.maximumRetained
    case FinishMint(t) => t in s.running && s.running[t].Minting?
    case BeginChunk(t, id, index, bytes, at) =>
      && t !in s.running && s.StoreFree()
      && id in s.uploads && !s.uploads[id].Expired(at)
      && index < s.uploads[id].chunkCount && |bytes| == Expected(s.uploads[id], index)
    case WriteChunk(t) => t in s.running && s.running[t].Writing?
    case BeginCommit(t, id, at) =>
      t !in s.running && s.StoreFree() && id in s.uploads && !s.uploads[id].Expired(at)
    case Arrive(t) => t in s.running && s.running[t].Arriving?
    case Hash(t) => t in s.running && s.running[t].Hashing?
    case PlaceBytes(t) => t in s.running && s.running[t].Checked? && s.BothFree()
    case RecordRow(t, at) => t in s.running && s.running[t].InPlace?
    case FinishCommit(t) => t in s.running && s.running[t].Recorded?
    case AbandonBytes(t) => t in s.running && s.running[t].Abandoning?
    case AbandonRow(t) => t in s.running && s.running[t].Dropping? && s.StoreFree()
  }

  ghost predicate MayListingStep(s: System, step: Step)
    requires IsListingStep(step)
  {
    match step
    case BeginDownload(t, key) => t !in s.running && s.StoreFree() && LiveAt(s.snapshots, key)
    case Probe(t) => t in s.running && s.running[t].Probing?
    case MarkLost(t, at) => t in s.running && s.running[t].Marking? && s.StoreFree()
    case ListExpired(t, id, at) => t !in s.running && s.StoreFree() && id in s.uploads && s.uploads[id].Expired(at)
    case ListOrphan(t, id) => t !in s.running && s.StoreFree() && id in s.disk.incoming && id !in s.uploads
    case Discard(t) => t in s.running && s.running[t].Discarding?
    case ListLive(t, key) => t !in s.running && s.StoreFree() && LiveAt(s.snapshots, key)
    case Inspect(t) => t in s.running && s.running[t].Listed? && s.BothFree()
    case EndInspect(t, at) => t in s.running && s.running[t].Inspecting? && s.StoreFree()
    case Tick(at) => s.clock <= at
    case GiveUp(t) => t in s.running && !s.running[t].Unlinking?
  }

  ghost predicate MayRemovalStep(s: System, step: Step)
    requires !IsUploadStep(step) && !IsListingStep(step)
  {
    match step
    case BeginErase(t, keys, at) =>
      t !in s.running && s.BothFree() && forall key :: key in keys ==> LiveAt(s.snapshots, key)
    case BeginSweep(t, key) => t !in s.running && s.BothFree() && !LiveAt(s.snapshots, key)
    case Unlink(t, key, ok) => t in s.running && s.running[t].Unlinking? && key in s.running[t].keys
    case EndErase(t) => t in s.running && s.running[t] == Unlinking({})
    case EndSweep(t) => t in s.running && s.running[t].Sweeping?
    case Expire(key, at) => s.BothFree()
    case Disconnect(t, task) => t in s.running && s.running[t].Unlinking? && task !in s.detached
    case UnlinkDetached(task, key, ok) => task in s.detached && key in s.detached[task]
    case ForgetErased(before) => s.StoreFree()
    case Crash => true
  }

  /** The thread ends, or goes on as an upload; no other moves. */
  ghost predicate MovesUpload(s: System, s': System, t: Thread) {
    s'.running == s.running - {t} ||
    (t in s'.running && s'.running[t].Uploads() && s'.running == s.running[t := s'.running[t]])
  }

  // ---- What it does --------------------------------------------------------------------

  ghost function Do(cfg: Config, s: System, step: Step): (s': System)
    requires May(cfg, s, step)
    ensures s'.issued == if step.BeginMint? then s.issued[step.id := step.grant] else s.issued
    ensures !step.PlaceBytes? ==> s'.exposed == s.exposed
  {
    if IsUploadStep(step) then DoUploadStep(cfg, s, step)
    else if IsListingStep(step) then DoListingStep(cfg, s, step)
    else DoRemovalStep(cfg, s, step)
  }

  ghost function DoUploadStep(cfg: Config, s: System, step: Step): (s': System)
    requires May(cfg, s, step) && IsUploadStep(step)
    ensures MovesUpload(s, s', step.t)
    ensures s'.issued == if step.BeginMint? then s.issued[step.id := step.grant] else s.issued
    ensures !step.PlaceBytes? ==> s'.exposed == s.exposed
  {
    match step
    case BeginMint(t, id, grant, at) => DoMint(s, t, id, grant, at)
    case FinishMint(t) => s.(uploads := s.uploads[s.running[t].id := s.running[t].grant]).Ended(t)
    case BeginChunk(t, id, index, bytes, at) => s.Going(t, Writing(id, index, bytes))
    case WriteChunk(t) => DoWrite(s, s.running[t].id, s.running[t].index, s.running[t].bytes).Ended(t)
    case BeginCommit(t, id, at) => s.Going(t, Arriving(id, s.uploads[id], 0, 0))
    case Arrive(t) => DoArrive(s, t)
    case Hash(t) => DoHash(cfg, s, t)
    case PlaceBytes(t) => DoPlace(cfg, s, t)
    case RecordRow(t, at) => DoRecord(s, t, at)
    case FinishCommit(t) => s.(uploads := s.uploads - {s.running[t].id}).Ended(t)
    case AbandonBytes(t) => s.WithoutIncoming(s.running[t].id).Going(t, Dropping(s.running[t].id))
    case AbandonRow(t) => s.(uploads := s.uploads - {s.running[t].id}).Ended(t)
  }

  ghost function DoListingStep(cfg: Config, s: System, step: Step): (s': System)
    requires May(cfg, s, step) && IsListingStep(step)
    ensures s'.issued == s.issued && s'.exposed == s.exposed
  {
    match step
    case BeginDownload(t, key) => s.Going(t, Probing(key, s.snapshots[key]))
    case Probe(t) => DoProbe(s, t)
    case MarkLost(t, at) => s.(snapshots := MarkUnavailable(s.snapshots, s.running[t].key, at)).Ended(t)
    case ListExpired(t, id, at) => s.Going(t, Abandoning(id))
    case ListOrphan(t, id) => s.Going(t, Discarding(id))
    case Discard(t) => s.WithoutIncoming(s.running[t].id).Ended(t)
    case ListLive(t, key) => s.Going(t, Listed(key, s.snapshots[key]))
    case Inspect(t) => DoInspect(s, t)
    case EndInspect(t, at) => DoEndInspect(s, t, at)
    case Tick(at) => s.(clock := at)
    case GiveUp(t) => s.Ended(t)
  }

  ghost function DoRemovalStep(cfg: Config, s: System, step: Step): (s': System)
    requires May(cfg, s, step) && !IsUploadStep(step) && !IsListingStep(step)
    ensures s'.issued == s.issued && s'.exposed == s.exposed
  {
    match step
    case BeginErase(t, keys, at) =>
      s.(snapshots := EraseRows(s.snapshots, keys, at), blobLock := Some(t)).Going(t, Unlinking(keys))
    case Unlink(t, key, ok) =>
      (if ok then s.WithoutRetained(key) else s).Going(t, Unlinking(s.running[t].keys - {key}))
    case EndErase(t) => s.Ended(t)
    case BeginSweep(t, key) => s.(blobLock := Some(t)).Going(t, Sweeping(key))
    case EndSweep(t) => s.WithoutRetained(s.running[t].key).Ended(t)
    case Expire(key, at) => s.(snapshots := MarkUnavailable(s.snapshots, key, at))
    case Disconnect(t, task) => s.(detached := s.detached[task := s.running[t].keys]).Ended(t)
    case UnlinkDetached(task, key, ok) => DoUnlinkDetached(s, task, key, ok)
    case ForgetErased(before) => s.(snapshots := Receipts.SweepErasedReferences(s.snapshots, before))
    case Crash => s.(running := map[], blobLock := None, storeLock := None, detached := map[])
  }

  /** `chunk_paths` succeeds for the framing a row was read with. */
  ghost predicate Serves(s: System, key: Key, row: Row) {
    key in s.disk.retained && Whole(s.disk.retained[key], row.chunkCount, row.size)
  }

  ghost function DoProbe(s: System, t: Thread): (s': System)
    requires t in s.running && s.running[t].Probing?
    ensures s'.issued == s.issued && s'.detached == s.detached && s'.exposed == s.exposed && s'.clock == s.clock
    ensures s'.disk.retained == s.disk.retained && s'.snapshots == s.snapshots
  {
    if Serves(s, s.running[t].key, s.running[t].row) then s.Ended(t) else s.Going(t, Marking(s.running[t].key))
  }

  ghost function DoInspect(s: System, t: Thread): (s': System)
    requires t in s.running && s.running[t].Listed?
    ensures s'.issued == s.issued && s'.detached == s.detached && s'.exposed == s.exposed && s'.clock == s.clock
    ensures s'.disk.retained == s.disk.retained && s'.snapshots == s.snapshots
  {
    if LiveAt(s.snapshots, s.running[t].key)
    then s.(blobLock := Some(t)).Going(t, Inspecting(s.running[t].key, s.running[t].row))
    else s.Ended(t)
  }

  ghost function DoEndInspect(s: System, t: Thread, at: Instant): (s': System)
    requires t in s.running && s.running[t].Inspecting?
    ensures s'.issued == s.issued && s'.detached == s.detached && s'.exposed == s.exposed && s'.clock == s.clock
    ensures s'.disk == s.disk
  {
    if Serves(s, s.running[t].key, s.running[t].row) then s.Ended(t)
    else s.(snapshots := MarkUnavailable(s.snapshots, s.running[t].key, at)).Ended(t)
  }

  /** The two writes of a new grant begin: the upload directory, under the store lock. */
  ghost function DoMint(s: System, t: Thread, id: UploadId, grant: Grant, at: Instant): System {
    s.(disk := s.disk.(incoming := s.disk.incoming[id := EMPTY]),
       issued := s.issued[id := grant],
       clock := if s.clock < at then at else s.clock,
       storeLock := Some(t)).Going(t, Minting(id, grant))
  }

  ghost function DoRecord(s: System, t: Thread, at: Instant): (s': System)
    requires t in s.running && s.running[t].InPlace?
    ensures MovesUpload(s, s', t)
    ensures s'.issued == s.issued && s'.detached == s.detached && s'.exposed == s.exposed && s'.clock == s.clock
  {
    s.(snapshots := Retain(s.snapshots, s.running[t].grant, at)).Going(t, Recorded(s.running[t].id))
  }

  ghost function DoWrite(s: System, id: UploadId, index: nat, bytes: Chunk): (s': System)
    ensures s'.issued == s.issued && s'.detached == s.detached && s'.exposed == s.exposed && s'.clock == s.clock
    ensures s'.disk.retained == s.disk.retained && s'.snapshots == s.snapshots
  {
    if id !in s.disk.incoming then s
    else
      match WriteInto(s.disk.incoming[id], index, bytes)
      case Written(dir) => s.(disk := s.disk.(incoming := s.disk.incoming[id := dir]))
      case Refused(_) => s
  }

  ghost function DoArrive(s: System, t: Thread): (s': System)
    requires t in s.running && s.running[t].Arriving?
    ensures MovesUpload(s, s', t)
    ensures s'.issued == s.issued && s'.detached == s.detached && s'.exposed == s.exposed && s'.clock == s.clock
    ensures s'.disk.retained == s.disk.retained && s'.snapshots == s.snapshots
  {
    var Arriving(id, grant, next, total) := s.running[t];
    if next < grant.chunkCount then
      if id in s.disk.incoming && next in s.disk.incoming[id]
      then s.Going(t, Arriving(id, grant, next + 1, total + |s.disk.incoming[id][next]|))
      else s.Ended(t)
    else if total == grant.size then s.Going(t, Hashing(id, grant, 0, []))
    else s.Going(t, Abandoning(id))
  }

  ghost function DoHash(cfg: Config, s: System, t: Thread): (s': System)
    requires t in s.running && s.running[t].Hashing?
    ensures MovesUpload(s, s', t)
    ensures s'.issued == s.issued && s'.detached == s.detached && s'.exposed == s.exposed && s'.clock == s.clock
    ensures s'.disk.retained == s.disk.retained && s'.snapshots == s.snapshots
  {
    var Hashing(id, grant, next, read) := s.running[t];
    if next < grant.chunkCount then
      if id in s.disk.incoming && next in s.disk.incoming[id]
      then s.Going(t, Hashing(id, grant, next + 1, read + s.disk.incoming[id][next]))
      else s.Ended(t)
    else if cfg.hash(read) == grant.digest then s.Going(t, Checked(id, grant))
    else s.Going(t, Abandoning(id))
  }

  /** One turn of a loop nobody waits for any more. */
  ghost function DoUnlinkDetached(s: System, task: Thread, key: Key, ok: bool): System
    requires task in s.detached
  {
    (if ok then s.WithoutRetained(key) else s).(detached := s.detached[task := s.detached[task] - {key}])
  }

  /** Which keys are exposed once `key` has been placed: a live row keeps the history it has. */
  ghost function ExposedBy(s: System, key: Key): set<Key> {
    if LiveAt(s.snapshots, key) then s.exposed
    else if s.Pending(key) then s.exposed + {key} else s.exposed - {key}
  }

  /** The bytes are in place and both locks are held until the row says so. */
  ghost function HoldingBoth(s: System, t: Thread, id: UploadId, grant: Grant, disk: Disk): (s': System)
    ensures s'.disk == disk && s'.snapshots == s.snapshots && s'.detached == s.detached
  {
    s.(disk := disk, exposed := ExposedBy(s, grant.Target()), blobLock := Some(t), storeLock := Some(t))
      .Going(t, InPlace(id, grant))
  }

  /** The placement goes ahead, or the quota or an unverifiable destination stops it. */
  ghost predicate PlaceSucceeds(cfg: Config, s: System, id: UploadId, grant: Grant) {
    && (LiveAt(s.snapshots, grant.Target()) || |LiveRows(s.snapshots, grant.holder).Keys| < cfg.maximumRetained)
    && Place(s.disk, cfg.hash, id, grant.Target(), grant.chunkCount, grant.size).Placed?
  }

  ghost function DoPlace(cfg: Config, s: System, t: Thread): (s': System)
    requires t in s.running && s.running[t].Checked?
    ensures MovesUpload(s, s', t)
    ensures s'.issued == s.issued && s'.snapshots == s.snapshots && s'.detached == s.detached
    ensures var Checked(id, grant) := s.running[t];
            if PlaceSucceeds(cfg, s, id, grant)
            then s'.disk == Place(s.disk, cfg.hash, id, grant.Target(), grant.chunkCount, grant.size).disk
            else s'.disk == s.disk || s'.disk == s.disk.(incoming := s.disk.incoming - {id})
    ensures var Checked(id, grant) := s.running[t];
            s'.exposed == if PlaceSucceeds(cfg, s, id, grant) then ExposedBy(s, grant.Target()) else s.exposed
  {
    var Checked(id, grant) := s.running[t];
    if PlaceSucceeds(cfg, s, id, grant) then
      HoldingBoth(s, t, id, grant, Place(s.disk, cfg.hash, id, grant.Target(), grant.chunkCount, grant.size).disk)
    else if LiveAt(s.snapshots, grant.Target()) || |LiveRows(s.snapshots, grant.holder).Keys| < cfg.maximumRetained
    then s.Ended(t)
    else s.WithoutIncoming(id).(uploads := s.uploads - {id}).Ended(t)
  }
}
