/** The upload and download routes (uploads.rs), each request run on its own. How requests
    interleave is Lifecycle's subject. */
module Uploads {
  import opened Types
  import opened Tables
  import opened Framing
  import opened Blobs
  import opened Stores
  import opened Preflight
  import Lapse
  import Gate

  // ---- preflight ---------------------------------------------------------------------------

  /** What the gate is asked with: whether the operator charges, the credential the request
      carries, and the revocations in force. */
  datatype Payment = Payment(charges: bool, credential: Gate.Presented, revoked: set<EntitlementId>)
  {
    ghost function Verdict(db: Tables, holder: Holder, operation: Lapse.Operation, now: Instant): Lapse.Verdict {
      Gate.Answer(db, charges, credential, holder, operation, revoked, now)
    }

    function Registered(db: Tables, holder: Holder, operation: Lapse.Operation): Tables {
      if Gate.Asked(charges, operation) then Gate.Registered(db, credential, holder) else db
    }
  }

  method OpenGrantFor(uploads: map<UploadId, Grant>, key: Key, now: Instant) returns (open: Option<UploadId>)
    ensures Chosen(uploads, key, now, open)
  {
    var grants := OpenGrantsFor(uploads, key, now);
    open := None;
    var left := grants;
    while left != {}
      invariant left <= grants
      invariant open.None? ==> left == grants
      invariant open.Some? ==> open.value in grants
      invariant open.Some? ==> forall id :: id in grants - left ==>
                uploads[id].expiresAt <= uploads[open.value].expiresAt
      decreases left
    {
      var id :| id in left;
      if open.None? || uploads[open.value].expiresAt < uploads[id].expiresAt {
        open := Some(id);
      }
      left := left - {id};
    }
  }

  /** What a preflight answers, and what it leaves behind. */
  ghost predicate PreflightEffect(before: Tables, diskBefore: Disk, after: Tables, diskAfter: Disk, limits: Limits,
                                  currentTerms: TermsId, payment: Payment, request: Request, uploadId: UploadId,
                                  now: Instant, open: Option<UploadId>, answer: Preflight.Answer,
                                  missing: seq<(nat, nat)>)
    requires 0 < limits.chunkBytes
  {
    var holder := request.key.holder;
    var gated := if answer.BadRequest? || answer.Resumed? || answer.TermsChanged? then before
                 else payment.Registered(before, holder, Lapse.Operation.Preflight);
    && Chosen(before.uploads, request.key, now, open)
    && answer == Decide(limits, before.uploads, before.snapshots, open, currentTerms,
                        payment.Verdict(before, holder, Lapse.Operation.Preflight, now), request, now)
    && after == (if answer.Minted? then gated.(uploads := gated.uploads[uploadId := answer.grant]) else gated)
    && diskAfter == (if answer.Minted? then diskBefore.(incoming := diskBefore.incoming[uploadId := EMPTY])
                     else diskBefore)
    && (answer.Resumed? ==> AreGaps(DirOf(diskAfter, answer.id), answer.grant.chunkCount, missing))
  }

  /** A new grant is written with its directory, and nothing else is but a credential the gate
      let through. */
  lemma PreflightLeaves(before: Tables, diskBefore: Disk, after: Tables, diskAfter: Disk, limits: Limits,
                        currentTerms: TermsId, payment: Payment, request: Request, uploadId: UploadId, now: Instant,
                        open: Option<UploadId>, answer: Preflight.Answer, missing: seq<(nat, nat)>)
    requires 0 < limits.chunkBytes
    requires PreflightEffect(before, diskBefore, after, diskAfter, limits, currentTerms, payment, request, uploadId,
                             now, open, answer, missing)
    ensures after.uploads == if answer.Minted? then before.uploads[uploadId := answer.grant] else before.uploads
    ensures diskAfter.retained == diskBefore.retained
    ensures diskAfter.incoming == if answer.Minted? then diskBefore.incoming[uploadId := EMPTY] else diskBefore.incoming
    ensures after == before.(uploads := after.uploads, entitlements := after.entitlements, lapse := after.lapse)
    ensures answer.Resumed? && answer.id in diskBefore.incoming ==>
              AreGaps(diskBefore.incoming[answer.id], answer.grant.chunkCount, missing)
  {
  }

  /** An open grant is resumed before terms or payment are looked at; a new one is minted
      behind both, directory first. */
  method RunPreflight(store: Store, blobs: Blobs, limits: Limits, currentTerms: TermsId, payment: Payment,
                      request: Request, uploadId: UploadId, now: Instant)
    returns (answer: Preflight.Answer, missing: seq<(nat, nat)>, ghost open: Option<UploadId>)
    requires 0 < limits.chunkBytes && uploadId !in store.db.uploads && uploadId !in blobs.disk.incoming
    modifies store, blobs
    ensures PreflightEffect(old(store.db), old(blobs.disk), store.db, blobs.disk, limits, currentTerms, payment,
                            request, uploadId, now, open, answer, missing)
    ensures AnswersAsDue(limits, old(store.db).uploads, old(store.db).snapshots, currentTerms,
                         Gate.Answer(old(store.db), payment.charges, payment.credential, request.key.holder,
                                     Lapse.Operation.Preflight, payment.revoked, now),
                         request, now, answer)
  {
    missing := [];
    var found := OpenGrantFor(store.db.uploads, request.key, now);
    open := found;
    DecidesAsDue(limits, store.db.uploads, store.db.snapshots, open, currentTerms,
                 payment.Verdict(store.db, request.key.holder, Lapse.Operation.Preflight, now), request, now);
    if Malformed(request) {
      return BadRequest, [], open;
    }
    if found.Some? {
      var grant := store.db.uploads[found.value];
      if grant.size != request.size {
        return BadRequest, [], open;
      }
      var _, gaps := blobs.Arrival(found.value, grant.chunkCount);
      return Resumed(found.value, grant), gaps, open;
    }
    if request.acceptedTerms != currentTerms {
      return TermsChanged, [], open;
    }
    answer := RunGate(store, limits, currentTerms, payment, request, now);
    if answer.Minted? {
      blobs.BeginUpload(uploadId);
      store.BeginUpload(uploadId, answer.grant);
    }
  }

  /** Payment, and behind it the checks only a new grant has to pass. */
  method RunGate(store: Store, limits: Limits, currentTerms: TermsId, payment: Payment, request: Request, now: Instant)
    returns (answer: Preflight.Answer)
    requires 0 < limits.chunkBytes && !Malformed(request) && request.acceptedTerms == currentTerms
    requires Chosen(store.db.uploads, request.key, now, None)
    modifies store
    ensures answer == Decide(limits, old(store.db).uploads, old(store.db).snapshots, None, currentTerms,
                             payment.Verdict(old(store.db), request.key.holder, Lapse.Operation.Preflight, now),
                             request, now)
    ensures !answer.BadRequest? && !answer.Resumed? && !answer.TermsChanged?
    ensures store.db == payment.Registered(old(store.db), request.key.holder, Lapse.Operation.Preflight)
  {
    var gate := AskGate(store, payment, request.key.holder, Lapse.Operation.Preflight, now);
    answer := Decide(limits, store.db.uploads, store.db.snapshots, None, currentTerms, gate, request, now);
  }

  method AskGate(store: Store, payment: Payment, holder: Holder, operation: Lapse.Operation, now: Instant)
    returns (verdict: Lapse.Verdict)
    modifies store
    ensures verdict == payment.Verdict(old(store.db), holder, operation, now)
    ensures store.db == payment.Registered(old(store.db), holder, operation)
    ensures store.db.uploads == old(store.db).uploads && store.db.snapshots == old(store.db).snapshots
  {
    verdict := Gate.Require(store, payment.charges, payment.credential, holder, operation, payment.revoked, now);
  }

  // ---- put_chunk ------------------------------------------------------------------------------

  datatype ChunkAnswer = ChunkStored | NoSuchUpload | UploadExpired | BadChunk | ChunkConflict

  /** An upload id is good for its own holder, until the grant runs out. A chunk then lands at
      an index the grant has, with exactly the length the framing gives that index, and never
      over other bytes; the same bytes again are stored already. */
  ghost predicate ChunkEffect(db: Tables, before: Disk, after: Disk, caller: Holder, id: UploadId, index: int,
                              body: Chunk, now: Instant, answer: ChunkAnswer)
  {
    if id !in db.uploads || db.uploads[id].holder != caller then answer.NoSuchUpload? && after == before
    else if db.uploads[id].expiresAt <= now then answer.UploadExpired? && after == before
    else
      var grant := db.uploads[id];
      if !(0 <= index < grant.chunkCount) || |body| != LengthAt(grant, index) then answer.BadChunk? && after == before
      else if id !in before.incoming then answer.NoSuchUpload? && after == before
      else if index in before.incoming[id] then
        after == before && answer == if before.incoming[id][index] == body then ChunkStored else ChunkConflict
      else
        var dir: Dir := before.incoming[id];
        answer.ChunkStored? && after == before.(incoming := before.incoming[id := dir[index := body]])
  }

  /** Full chunks, and in the last what is left of the size. */
  function LengthAt(grant: Grant, index: int): int {
    if index < grant.chunkCount - 1 then grant.chunkBytes else grant.size - grant.chunkBytes * (grant.chunkCount - 1)
  }

  method PutChunk(store: Store, blobs: Blobs, caller: Holder, id: UploadId, index: int, body: Chunk, now: Instant)
    returns (answer: ChunkAnswer)
    modifies blobs
    ensures ChunkEffect(store.db, old(blobs.disk), blobs.disk, caller, id, index, body, now, answer)
  {
    if id !in store.db.uploads || store.db.uploads[id].holder != caller {
      return ChunkAnswer.NoSuchUpload;
    }
    var grant := store.db.uploads[id];
    if grant.Expired(now) {
      return ChunkAnswer.UploadExpired;
    }
    if index < 0 || grant.chunkCount <= index ||
      |body| != ExpectedBytes(grant.size, grant.chunkBytes, grant.chunkCount, index) {
      return BadChunk;
    }
    var refused := blobs.WriteChunk(id, index, body);
    return if refused == None then ChunkStored else if refused == Some(Missing) then ChunkAnswer.NoSuchUpload
      else ChunkConflict;
  }

  // ---- commit ---------------------------------------------------------------------------------

  datatype CommitAnswer =
    | Retained
    | NoSuchUpload
    | UploadExpired
    | Incomplete(missing: seq<(nat, nat)>)
    | DigestMismatch
    | OverQuota
    | NotPlaced

  function DirOf(disk: Disk, id: UploadId): Dir { if id in disk.incoming then disk.incoming[id] else EMPTY }

  ghost predicate AllThere(dir: Dir, grant: Grant) { forall i :: 0 <= i < grant.chunkCount ==> i in dir }

  ghost predicate Arrived(dir: Dir, grant: Grant, hash: seq<Byte> -> Digest) {
    AllThere(dir, grant) && |Content(dir, grant.chunkCount)| == grant.size &&
      hash(Content(dir, grant.chunkCount)) == grant.digest
  }

  ghost predicate HasRoom(db: Tables, grant: Grant, maximumRetained: nat) {
    LiveAt(db.snapshots, grant.Target()) || |LiveRows(db.snapshots, grant.holder).Keys| < maximumRetained
  }

  /** The directory an upload can be kept under: none there yet, or the very same bytes. */
  ghost predicate HasPlace(disk: Disk, id: UploadId, grant: Grant, hash: seq<Byte> -> Digest) {
    if grant.Target() in disk.retained then
      var dir := disk.retained[grant.Target()];
      Whole(dir, grant.chunkCount, grant.size) && hash(Content(dir, grant.chunkCount)) == grant.digest
    else id in disk.incoming
  }

  /** What a commit that keeps the snapshot leaves: the bytes under the holder and the digest, a
      row that says what the grant said, unless it is live already, no grant any more, and for the
      operation an outcome. */
  ghost predicate KeepsUpload(before: Tables, diskBefore: Disk, after: Tables, diskAfter: Disk, id: UploadId,
                              grant: Grant, now: Instant)
  {
    var key, outcome := Key(grant.holder, grant.digest), OutcomeKey(grant.holder, grant.operationId);
    && diskAfter.incoming == diskBefore.incoming - {id}
    && diskAfter.retained == (if key in diskBefore.retained then diskBefore.retained
                              else diskBefore.retained[key := DirOf(diskBefore, id)])
    && after.snapshots == (if LiveAt(before.snapshots, key) then before.snapshots
                           else before.snapshots[key := Row(grant.size, grant.chunkCount, grant.termsId,
                                                            grant.supersedes, now, None, None)])
    && after.uploads == before.uploads - {id}
    && after.outcomes == before.outcomes[outcome := Outcome(OutcomeStatus.Retained, {}, now)]
    && after == before.(snapshots := after.snapshots, uploads := after.uploads, outcomes := after.outcomes)
  }

  /** Each answer of a commit, the situation it stands for, and what it leaves behind. */
  ghost predicate CommitEffect(before: Tables, diskBefore: Disk, after: Tables, diskAfter: Disk,
                               hash: seq<Byte> -> Digest, maximumRetained: nat, caller: Holder, id: UploadId,
                               now: Instant, answer: CommitAnswer)
  {
    if id !in before.uploads || before.uploads[id].holder != caller then
      answer.NoSuchUpload? && after == before && diskAfter == diskBefore
    else if before.uploads[id].expiresAt <= now then
      answer.UploadExpired? && after == before && diskAfter == diskBefore
    else
      CommitOutcome(before, diskBefore, after, diskAfter, hash, maximumRetained, id, before.uploads[id], now, answer)
  }

  ghost predicate CommitOutcome(before: Tables, diskBefore: Disk, after: Tables, diskAfter: Disk,
                                hash: seq<Byte> -> Digest, maximumRetained: nat, id: UploadId, grant: Grant,
                                now: Instant, answer: CommitAnswer)
  {
    var dir := DirOf(diskBefore, id);
    var arrived, room := Arrived(dir, grant, hash), HasRoom(before, grant, maximumRetained);
    var untouched := after == before && diskAfter == diskBefore;
    var abandoned := after == before.(uploads := before.uploads - {id})
                     && diskAfter == diskBefore.(incoming := diskBefore.incoming - {id});
    match answer
    case NoSuchUpload => false
    case UploadExpired => false
    case Incomplete(missing) => missing != [] && AreGaps(dir, grant.chunkCount, missing) && untouched
    case DigestMismatch => AllThere(dir, grant) && !arrived && abandoned
    case OverQuota => arrived && !room && abandoned
    case NotPlaced => arrived && room && !HasPlace(diskBefore, id, grant, hash) && untouched
    case Retained =>
      arrived && room && HasPlace(diskBefore, id, grant, hash) &&
      KeepsUpload(before, diskBefore, after, diskAfter, id, grant, now)
  }

  /** So a commit keeps the snapshot exactly when it is the holder's own upload, in time, with
      every chunk there, of the granted size and digest, room for it, and nothing in its place but
      the same bytes. */
  lemma RetainedExactlyWhen(before: Tables, diskBefore: Disk, after: Tables, diskAfter: Disk,
                            hash: seq<Byte> -> Digest, maximumRetained: nat, caller: Holder, id: UploadId,
                            now: Instant, answer: CommitAnswer)
    requires CommitEffect(before, diskBefore, after, diskAfter, hash, maximumRetained, caller, id, now, answer)
    ensures answer.Retained? <==>
            && id in before.uploads && before.uploads[id].holder == caller && now < before.uploads[id].expiresAt
            && var grant, dir := before.uploads[id], DirOf(diskBefore, id);
               && (forall i :: 0 <= i < grant.chunkCount ==> i in dir)
               && |Content(dir, grant.chunkCount)| == grant.size && hash(Content(dir, grant.chunkCount)) == grant.digest
               && HasRoom(before, grant, maximumRetained) && HasPlace(diskBefore, id, grant, hash)
    ensures answer.Incomplete? <==>
            && id in before.uploads && before.uploads[id].holder == caller && now < before.uploads[id].expiresAt
            && exists i :: 0 <= i < before.uploads[id].chunkCount && i !in DirOf(diskBefore, id)
  {
    if answer.Incomplete? {
      assert InGap(answer.missing, answer.missing[0].0);
    }
  }

  /** Nothing is kept but bytes that arrived whole and hash to the digest that was granted;
      an upload with a gap keeps what it has and is told exactly what it lacks. */
  method Commit(store: Store, blobs: Blobs, hash: seq<Byte> -> Digest, maximumRetained: nat, caller: Holder,
                id: UploadId, now: Instant)
    returns (answer: CommitAnswer)
    modifies store, blobs
    ensures CommitEffect(old(store.db), old(blobs.disk), store.db, blobs.disk, hash, maximumRetained, caller, id, now,
                         answer)
  {
    if id !in store.db.uploads || store.db.uploads[id].holder != caller {
      return CommitAnswer.NoSuchUpload;
    }
    var grant := store.db.uploads[id];
    if grant.Expired(now) {
      return CommitAnswer.UploadExpired;
    }
    var received, missing := blobs.Arrival(id, grant.chunkCount);
    if missing != [] {
      return Incomplete(missing);
    }
    if received != grant.size {
      Abandon(store, blobs, id);
      return DigestMismatch;
    }
    var digest := blobs.DigestOf(hash, id, grant.chunkCount);
    if digest != Some(grant.digest) {
      Abandon(store, blobs, id);
      return DigestMismatch;
    }
    if !LiveAt(store.db.snapshots, grant.Target()) &&
      maximumRetained <= |LiveRows(store.db.snapshots, grant.holder).Keys| {
      Abandon(store, blobs, id);
      return OverQuota;
    }
    var ok := blobs.Commit(hash, id, grant.Target(), grant.chunkCount, grant.size);
    if !ok {
      return CommitAnswer.NotPlaced;
    }
    store.Retain(grant, now);
    store.DropUpload(id);
    store.RecordOutcome(grant.holder, grant.operationId, Outcome(OutcomeStatus.Retained, {}, now));
    return CommitAnswer.Retained;
  }

  /** Bytes first, then the row. */
  method Abandon(store: Store, blobs: Blobs, id: UploadId)
    modifies store, blobs
    ensures store.db == old(store.db).(uploads := old(store.db).uploads - {id})
    ensures blobs.disk == old(blobs.disk).(incoming := old(blobs.disk).incoming - {id})
  {
    blobs.DiscardUpload(id);
    store.DropUpload(id);
  }

  // ---- download -----------------------------------------------------------------------------

  datatype DownloadAnswer = Served(bytes: seq<Byte>) | NoSuchSnapshot | RetentionExpired

  /** Served whole or not at all: a live row whose bytes are not there stops being live. */
  ghost predicate DownloadEffect(before: Tables, disk: Disk, after: Tables, caller: Holder, digest: Digest,
                                 now: Instant, answer: DownloadAnswer)
  {
    var key, snapshots := Key(caller, digest), before.snapshots;
    if key !in snapshots || snapshots[key].erasedAt.Some? then answer.NoSuchSnapshot? && after == before
    else if snapshots[key].retainedUntil.Some? then answer.RetentionExpired? && after == before
    else if key in disk.retained && Whole(disk.retained[key], snapshots[key].chunkCount, snapshots[key].size) then
      answer == Served(Content(disk.retained[key], snapshots[key].chunkCount)) && after == before
    else
      && answer.RetentionExpired?
      && after == before.(snapshots := snapshots[key := snapshots[key].(retainedUntil := Some(now))])
  }

  method Download(store: Store, blobs: Blobs, caller: Holder, digest: Digest, now: Instant)
    returns (answer: DownloadAnswer)
    modifies store
    ensures DownloadEffect(old(store.db), blobs.disk, store.db, caller, digest, now, answer)
  {
    var key := Key(caller, digest);
    if key !in store.db.snapshots || store.db.snapshots[key].erasedAt.Some? {
      return NoSuchSnapshot;
    }
    var row := store.db.snapshots[key];
    if row.retainedUntil.Some? {
      return RetentionExpired;
    }
    var whole := blobs.ChunkPaths(key, row.chunkCount, row.size);
    if !whole {
      var _ := store.MarkUnavailable(key, now);
      return RetentionExpired;
    }
    var bytes := Stream(blobs.disk.retained[key], row.chunkCount);
    return Served(bytes);
  }

  method Stream(dir: Dir, chunkCount: nat) returns (bytes: seq<Byte>)
    requires forall i :: 0 <= i < chunkCount ==> i in dir
    ensures bytes == Content(dir, chunkCount)
  {
    bytes := [];
    for index := 0 to chunkCount
      invariant bytes == Content(dir, index)
    {
      bytes := bytes + dir[index];
    }
  }
}
