/** The operator's SQLite tables as maps, and what each statement of store.rs does to them. */
module Tables {
  import opened Types

  datatype Row = Row(
    size: nat,
    chunkCount: nat,
    termsId: TermsId,
    supersedes: Option<Digest>,
    retainedAt: Instant,
    retainedUntil: Option<Instant>,
    erasedAt: Option<Instant>)
  {
    /** A row the operator reports as `retained`. */
    predicate Live() { erasedAt.None? && retainedUntil.None? }
  }

  datatype Grant = Grant(
    holder: Holder,
    operationId: OperationId,
    digest: Digest,
    size: nat,
    chunkBytes: nat,
    chunkCount: nat,
    termsId: TermsId,
    supersedes: Option<Digest>,
    expiresAt: Instant)
  {
    function Target(): Key { Key(holder, digest) }

    predicate Expired(now: Instant) { expiresAt <= now }
  }

  datatype Record = Record(holder: Holder, expiresAt: Instant)

  datatype LapseState = LapseState(lapsedAt: Instant, graceExpiresAt: Instant, postGraceAction: string)

  /** The parts of a terms document that a decision reads. */
  datatype TermsDocument = TermsDocument(endOfPayment: Option<PaymentClause>, erasure: ErasureClause)

  datatype PaymentClause = PaymentClause(
    notice: Option<string>,
    grace: Option<string>,
    duringGrace: set<string>,
    afterGrace: Option<string>)

  datatype ErasureClause = ErasureClause(scope: string, excluded: string, completionDeadline: Option<string>)

  datatype Scope = All | One(digest: Digest)

  datatype Receipt = Receipt(holder: Holder, scope: Scope, termsId: TermsId, issuedAt: Instant)

  datatype OutcomeStatus = Retained | ErasureAcknowledged

  datatype OutcomeKey = OutcomeKey(holder: Holder, operationId: OperationId)

  datatype Outcome = Outcome(status: OutcomeStatus, receiptIds: set<ReceiptId>, recordedAt: Instant)

  datatype NonceKey = NonceKey(holder: Holder, nonce: seq<Byte>)

  datatype Tables = Tables(
    snapshots: map<Key, Row>,
    uploads: map<UploadId, Grant>,
    entitlements: map<EntitlementId, Record>,
    lapse: map<Holder, LapseState>,
    terms: map<TermsId, TermsDocument>,
    receipts: map<ReceiptId, Receipt>,
    coverage: set<(ReceiptId, Digest)>,
    outcomes: map<OutcomeKey, Outcome>,
    nonces: map<NonceKey, Instant>)

  // ---- snapshots -----------------------------------------------------------

  predicate LiveAt(snapshots: map<Key, Row>, key: Key) { key in snapshots && snapshots[key].Live() }

  function LiveKeys(snapshots: map<Key, Row>): (keys: set<Key>)
    ensures forall key :: key in keys <==> LiveAt(snapshots, key)
  {
    set key | key in snapshots && snapshots[key].Live()
  }

  /** The holder's live rows, by digest. */
  function LiveRows(snapshots: map<Key, Row>, holder: Holder): (rows: map<Digest, Row>)
    ensures forall d :: d in rows <==> LiveAt(snapshots, Key(holder, d))
    ensures forall d :: d in rows ==>
              Key(holder, d) in snapshots && rows[d] == snapshots[Key(holder, d)] && rows[d].Live()
  {
    var digests := set key | key in snapshots && snapshots[key].Live() && key.holder == holder :: key.digest;
    assert forall d :: LiveAt(snapshots, Key(holder, d)) ==> Key(holder, d).digest in digests;
    map d | d in digests && LiveAt(snapshots, Key(holder, d)) :: snapshots[Key(holder, d)]
  }

  /** The upsert of `retain`: a live row is left alone, any other is revived with what
      the new upload pinned. */
  function Retain(snapshots: map<Key, Row>, grant: Grant, at: Instant): map<Key, Row> {
    if LiveAt(snapshots, grant.Target()) then snapshots
    else snapshots[grant.Target() :=
           Row(grant.size, grant.chunkCount, grant.termsId, grant.supersedes, at, None, None)]
  }

  function MarkUnavailable(snapshots: map<Key, Row>, key: Key, at: Instant): map<Key, Row> {
    if LiveAt(snapshots, key) then snapshots[key := snapshots[key].(retainedUntil := Some(at))]
    else snapshots
  }

  /** The row half of `commit_erasure`. */
  function EraseRows(snapshots: map<Key, Row>, keys: set<Key>, at: Instant): map<Key, Row> {
    map key | key in snapshots ::
      if key in keys && snapshots[key].erasedAt.None? then snapshots[key].(erasedAt := Some(at)) else snapshots[key]
  }

  // ---- uploads ---------------------------------------------------------------

  /** The holder's grants that have not run out, and `open_grant_for` one digest. */
  function OpenGrants(uploads: map<UploadId, Grant>, holder: Holder, now: Instant): set<UploadId> {
    set id | id in uploads && uploads[id].holder == holder && !uploads[id].Expired(now)
  }

  function OpenGrantsFor(uploads: map<UploadId, Grant>, key: Key, now: Instant): set<UploadId> {
    set id | id in uploads && uploads[id].Target() == key && !uploads[id].Expired(now)
  }

  // ---- holder_entitlements and lapse_state ---------------------------------

  /** The first statement of a registration, and all of it if the process dies after it. */
  function RecordEntitlement(db: Tables, holder: Holder, id: EntitlementId, expiresAt: Instant): Tables {
    db.(entitlements := db.entitlements[id := Record(holder, expiresAt)])
  }

  function ForgetLapse(db: Tables, holder: Holder): Tables { db.(lapse := db.lapse - {holder}) }

  /** Both statements of a registration. */
  function RegisterEntitlement(db: Tables, holder: Holder, id: EntitlementId, expiresAt: Instant): Tables {
    ForgetLapse(RecordEntitlement(db, holder, id, expiresAt), holder)
  }

  /** Every `expires_at` on record for the holder, leaving out the given ids. */
  function Expiries(entitlements: map<EntitlementId, Record>, holder: Holder,
                    without: set<EntitlementId>): set<Instant>
  {
    set id | id in entitlements && entitlements[id].holder == holder && id !in without :: entitlements[id].expiresAt
  }

  predicate HasRecord(entitlements: map<EntitlementId, Record>, holder: Holder) {
    exists id :: id in entitlements && entitlements[id].holder == holder
  }

  /** Every record of the holder is below the floor, and there is at least one. */
  predicate LosingEntitlements(entitlements: map<EntitlementId, Record>, holder: Holder, floor: Instant) {
    && HasRecord(entitlements, holder)
    && forall id :: id in entitlements && entitlements[id].holder == holder ==> entitlements[id].expiresAt < floor
  }

  function SweepEntitlements(entitlements: map<EntitlementId, Record>, holder: Holder,
                             floor: Instant): map<EntitlementId, Record>
  {
    map id | id in entitlements && !(entitlements[id].holder == holder && entitlements[id].expiresAt < floor)
      :: entitlements[id]
  }

  /** Sub-floor records of holders who keep another one at or above the floor. */
  function SweepSuperseded(entitlements: map<EntitlementId, Record>, floor: Instant): map<EntitlementId, Record> {
    map id | id in entitlements && !(entitlements[id].expiresAt < floor &&
                                     KeepsOne(entitlements, entitlements[id].holder, floor))
      :: entitlements[id]
  }

  predicate KeepsOne(entitlements: map<EntitlementId, Record>, holder: Holder, floor: Instant) {
    exists id :: id in entitlements && entitlements[id].holder == holder && floor <= entitlements[id].expiresAt
  }
}
