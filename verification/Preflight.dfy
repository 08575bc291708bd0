/** The preflight decision of uploads.rs, in the order the route makes it. */
module Preflight {
  import opened Types
  import opened Tables
  import opened Framing
  import Lapse

  datatype Limits = Limits(maximumBytes: nat, maximumRetained: nat, chunkBytes: nat, uploadExpiry: nat)

  datatype Request = Request(
    key: Key,
    operationId: OperationId,
    size: int,
    acceptedTerms: TermsId,
    supersedes: Option<Digest>)

  datatype Answer =
    | BadRequest
    | Resumed(id: UploadId, grant: Grant)
    | TermsChanged
    | PaymentRequired
    | InvalidEntitlement
    | AlreadyRetained
    | SnapshotTooLarge
    | QuotaExceeded
    | Minted(grant: Grant)

  /** `open_grant_for`: of the holder's unexpired grants for the digest, one that runs
      longest, if there is any. */
  predicate Chosen(uploads: map<UploadId, Grant>, key: Key, now: Instant, open: Option<UploadId>) {
    var grants := OpenGrantsFor(uploads, key, now);
    match open
    case None => grants == {}
    case Some(id) => id in grants && forall other :: other in grants ==>
      uploads[other].expiresAt <= uploads[id].expiresAt
  }

  predicate Malformed(request: Request) { request.size <= 0 || request.supersedes == Some(request.key.digest) }

  /** The answer, once an open grant has been looked for and the gate has been asked. */
  function Decide(limits: Limits, uploads: map<UploadId, Grant>, snapshots: map<Key, Row>, open: Option<UploadId>,
                  currentTerms: TermsId, gate: Lapse.Verdict, request: Request, now: Instant): Answer
    requires 0 < limits.chunkBytes && Chosen(uploads, request.key, now, open)
  {
    if Malformed(request) then BadRequest
    else if open.Some? then
      if uploads[open.value].size != request.size then BadRequest else Resumed(open.value, uploads[open.value])
    else if request.acceptedTerms != currentTerms then TermsChanged
    else if gate.PaymentRequired? then PaymentRequired
    else if gate.InvalidEntitlement? then InvalidEntitlement
    else if LiveAt(snapshots, request.key) then AlreadyRetained
    else if limits.maximumBytes < request.size then SnapshotTooLarge
    else if limits.maximumRetained
            <= |LiveRows(snapshots, request.key.holder).Keys| + |OpenGrants(uploads, request.key.holder, now)| then
              QuotaExceeded
    else
      Minted(Grant(request.key.holder, request.operationId, request.key.digest, request.size, limits.chunkBytes,
                   ChunkCount(request.size, limits.chunkBytes), request.acceptedTerms, request.supersedes,
                   now + limits.uploadExpiry))
  }

  // ---- In terms of the request and the tables -------------------------------------------------

  /** A grant for the key that has not run out. */
  ghost predicate IsOpen(uploads: map<UploadId, Grant>, key: Key, now: Instant, id: UploadId) {
    && id in uploads && uploads[id].holder == key.holder && uploads[id].digest == key.digest
    && now < uploads[id].expiresAt
  }

  /** The snapshots a holder has retained, and those they have been granted and may still send. */
  function Taken(uploads: map<UploadId, Grant>, snapshots: map<Key, Row>, holder: Holder, now: Instant): nat {
    |set key | key in snapshots && key.holder == holder && snapshots[key].erasedAt.None?
               && snapshots[key].retainedUntil.None? :: key.digest|
    + |set id | id in uploads && uploads[id].holder == holder && now < uploads[id].expiresAt|
  }

  /** Each answer with exactly the requests it goes to: badly formed; for an open grant, which is
      resumed at its own size only; under other terms; unpaid, or with a credential that is
      refused; for what is retained already; too large; past the quota; and all others. */
  ghost predicate AnswersAsDue(limits: Limits, uploads: map<UploadId, Grant>, snapshots: map<Key, Row>,
                               currentTerms: TermsId, gate: Lapse.Verdict, request: Request, now: Instant,
                               answer: Answer)
  {
    var key, size := request.key, request.size;
    var proper := 0 < size && request.supersedes != Some(key.digest);
    var anew := proper && !exists id :: IsOpen(uploads, key, now, id);
    var agreed := anew && request.acceptedTerms == currentTerms;
    var paid := agreed && gate.Lets?;
    var live := key in snapshots && snapshots[key].erasedAt.None? && snapshots[key].retainedUntil.None?;
    var taken := Taken(uploads, snapshots, key.holder, now);
    && (answer.BadRequest? || answer.Resumed? <==> !anew)
    && (answer.Resumed? ==> proper && Resumes(uploads, key, size, now, answer.id, answer.grant))
    && (answer.BadRequest? && proper ==> exists id :: IsLongest(uploads, key, now, id) && uploads[id].size != size)
    && (answer.TermsChanged? <==> anew && request.acceptedTerms != currentTerms)
    && (answer.PaymentRequired? <==> agreed && gate.PaymentRequired?)
    && (answer.InvalidEntitlement? <==> agreed && gate.InvalidEntitlement?)
    && (answer.AlreadyRetained? <==> paid && live)
    && (answer.SnapshotTooLarge? <==> paid && !live && limits.maximumBytes < size)
    && (answer.QuotaExceeded? <==> paid && !live && size <= limits.maximumBytes && limits.maximumRetained <= taken)
    && (answer.Minted? <==> paid && !live && size <= limits.maximumBytes && taken < limits.maximumRetained)
    && (answer.Minted? ==> Grants(limits, request, now, answer.grant))
  }

  ghost predicate IsLongest(uploads: map<UploadId, Grant>, key: Key, now: Instant, id: UploadId) {
    IsOpen(uploads, key, now, id) && forall other :: IsOpen(uploads, key, now, other) ==>
      uploads[other].expiresAt <= uploads[id].expiresAt
  }

  ghost predicate Resumes(uploads: map<UploadId, Grant>, key: Key, size: int, now: Instant, id: UploadId, grant: Grant)
  {
    IsLongest(uploads, key, now, id) && grant == uploads[id] && grant.size == size
  }

  /** The grant says what was asked for, and for how long: the declared size in as few chunks as
      hold it, under the terms that were accepted. */
  ghost predicate Grants(limits: Limits, request: Request, now: Instant, grant: Grant) {
    && grant.holder == request.key.holder && grant.digest == request.key.digest
    && grant.operationId == request.operationId && grant.size == request.size
    && grant.termsId == request.acceptedTerms && grant.supersedes == request.supersedes
    && grant.expiresAt == now + limits.uploadExpiry
    && grant.chunkBytes == limits.chunkBytes
    && grant.chunkBytes * (grant.chunkCount - 1) < grant.size <= grant.chunkBytes * grant.chunkCount
  }

  lemma TakenIsCounted(uploads: map<UploadId, Grant>, snapshots: map<Key, Row>, holder: Holder, now: Instant)
    ensures |LiveRows(snapshots, holder).Keys| + |OpenGrants(uploads, holder, now)|
            == Taken(uploads, snapshots, holder, now)
  {
    var live := set key | key in snapshots && key.holder == holder && snapshots[key].erasedAt.None?
      && snapshots[key].retainedUntil.None? :: key.digest;
    forall d ensures d in live <==> d in LiveRows(snapshots, holder) {
      if d in LiveRows(snapshots, holder) {
        assert Key(holder, d).digest == d;
      }
    }
    assert live == LiveRows(snapshots, holder).Keys;
    assert OpenGrants(uploads, holder, now) ==
      set id | id in uploads && uploads[id].holder == holder && now < uploads[id].expiresAt;
  }

  lemma OpenGrantsAreOpen(uploads: map<UploadId, Grant>, key: Key, now: Instant, open: Option<UploadId>)
    requires Chosen(uploads, key, now, open)
    ensures open.None? <==> !exists id :: IsOpen(uploads, key, now, id)
    ensures open.Some? ==> IsLongest(uploads, key, now, open.value)
  {
    assert forall id :: id in OpenGrantsFor(uploads, key, now) <==> IsOpen(uploads, key, now, id);
  }

  /** For every request and every state of the tables, the answer is the one that is due. */
  lemma DecidesAsDue(limits: Limits, uploads: map<UploadId, Grant>, snapshots: map<Key, Row>, open: Option<UploadId>,
                     currentTerms: TermsId, gate: Lapse.Verdict, request: Request, now: Instant)
    requires 0 < limits.chunkBytes && Chosen(uploads, request.key, now, open)
    ensures AnswersAsDue(limits, uploads, snapshots, currentTerms, gate, request, now,
                         Decide(limits, uploads, snapshots, open, currentTerms, gate, request, now))
  {
    OpenGrantsAreOpen(uploads, request.key, now, open);
    TakenIsCounted(uploads, snapshots, request.key.holder, now);
    if 0 < request.size {
      CountBounds(request.size, limits.chunkBytes);
    }
  }

  /** A grant is minted only for a snapshot that is not live and has no open grant, with
      room in the quota, and its framing cuts the declared size exactly. */
  lemma MintedOnlyWithRoom(limits: Limits, uploads: map<UploadId, Grant>, snapshots: map<Key, Row>,
                           open: Option<UploadId>, currentTerms: TermsId, gate: Lapse.Verdict, request: Request,
                           now: Instant)
    requires 0 < limits.chunkBytes && Chosen(uploads, request.key, now, open)
    requires Decide(limits, uploads, snapshots, open, currentTerms, gate, request, now).Minted?
    ensures var grant := Decide(limits, uploads, snapshots, open, currentTerms, gate, request, now).grant;
            && grant.Target() == request.key && OpenGrantsFor(uploads, request.key, now) == {} &&
               !LiveAt(snapshots, request.key)
            && |LiveRows(snapshots, grant.holder).Keys| + |OpenGrants(uploads, grant.holder, now)|
               < limits.maximumRetained
            && 1 <= grant.chunkCount
            && (forall i :: 0 <= i < grant.chunkCount ==>
                  1 <= ExpectedBytes(grant.size, grant.chunkBytes, grant.chunkCount, i) <= grant.chunkBytes)
            && SumExpected(grant.size, grant.chunkBytes, grant.chunkCount, grant.chunkCount) == grant.size
  {
    FramingIsExact(request.size, limits.chunkBytes);
  }
}
