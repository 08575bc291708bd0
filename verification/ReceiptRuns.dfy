/** Whole histories of uploads, erasures, replays and sweeps over the receipt tables. */
module ReceiptRuns {
  import opened Types
  import opened Tables
  import opened Receipts
  import Blobs
  import Erasures
  import Uploads

  /** The tables, with what a reader of the log would also know: each holder's last
      erasure stamp, the receipt floors swept so far, and which outcomes on record were
      written by an erasure that committed. */
  datatype Ledger = Ledger(db: Tables, last: map<Holder, Instant>, floors: set<Instant>, committed: set<OutcomeKey>)

  datatype Event =
    | Retained(grant: Grant, at: Instant)
    | Unlisted(key: Key, at: Instant)
    | UploadAnswered(holder: Holder, operation: OperationId, at: Instant)
    | Erased(holder: Holder, scope: Scope, operation: OperationId, minted: seq<Mint>, at: Instant)
    | Replayed(holder: Holder, scope: Scope, operation: OperationId, at: Instant)
    | ReceiptsSwept(uploadsBefore: Instant, receiptsBefore: Instant)
    | ReferencesSwept(before: Instant)

  /** The replay branch: nothing live in scope, nothing expired, and a receipt to return. */
  ghost predicate Replays(db: Tables, holder: Holder, scope: Scope) {
    && TargetRows(db.snapshots, holder, scope) == map[]
    && !ScopeIsUnavailable(db.snapshots, holder, scope)
    && Latest(db, holder, scope, ErasedDigests(db.snapshots, holder, scope)) != {}
  }

  /** An erasure commits with receipts under unused ids, stamped later than the holder's
      previous erasure. */
  ghost predicate May(s: Ledger, event: Event) {
    match event
    case Erased(holder, scope, operation, minted, at) =>
      var rows := TargetRows(s.db.snapshots, holder, scope);
      && rows != map[] && MintedFor(minted, s.db.terms, rows, at)
      && MintIds(minted) !! s.db.receipts.Keys
      && (holder in s.last ==> s.last[holder] < at)
    case Replayed(holder, scope, _, _) => Replays(s.db, holder, scope)
    case _ => true
  }

  ghost function Replay(s: Ledger, holder: Holder, scope: Scope, operation: OperationId, at: Instant): Ledger {
    var named := Latest(s.db, holder, scope, ErasedDigests(s.db.snapshots, holder, scope));
    s.(db := RecordOutcome(s.db, holder, operation, Outcome(ErasureAcknowledged, named, at)),
       committed := s.committed - {OutcomeKey(holder, operation)})
  }

  ghost function Erase(s: Ledger, holder: Holder, scope: Scope, operation: OperationId, minted: seq<Mint>,
                       at: Instant): Ledger
  {
    var rows := TargetRows(s.db.snapshots, holder, scope);
    s.(db := CommitErasure(s.db, holder, scope, rows, minted, operation, at),
       last := s.last[holder := at],
       committed := s.committed + {OutcomeKey(holder, operation)})
  }

  ghost function SweepReceipts(s: Ledger, uploadsBefore: Instant, receiptsBefore: Instant): Ledger {
    var db := SweepOutcomesAndReceipts(s.db, uploadsBefore, receiptsBefore);
    s.(db := db, floors := s.floors + {receiptsBefore}, committed := s.committed * db.outcomes.Keys)
  }

  ghost function Apply(s: Ledger, event: Event): Ledger {
    match event
    case Retained(grant, at) => s.(db := s.db.(snapshots := Retain(s.db.snapshots, grant, at)))
    case Unlisted(key, at) => s.(db := s.db.(snapshots := MarkUnavailable(s.db.snapshots, key, at)))
    case UploadAnswered(holder, operation, at) =>
      s.(db := RecordOutcome(s.db, holder, operation, Outcome(OutcomeStatus.Retained, {}, at)),
         committed := s.committed - {OutcomeKey(holder, operation)})
    case Erased(holder, scope, operation, minted, at) => Erase(s, holder, scope, operation, minted, at)
    case Replayed(holder, scope, operation, at) => Replay(s, holder, scope, operation, at)
    case ReceiptsSwept(uploadsBefore, receiptsBefore) => SweepReceipts(s, uploadsBefore, receiptsBefore)
    case ReferencesSwept(before) => s.(db := s.db.(snapshots := SweepErasedReferences(s.db.snapshots, before)))
  }

  /** A new operator, with whatever terms it has published. */
  ghost function Opened(terms: map<TermsId, TermsDocument>): Ledger {
    Ledger(Tables(map[], map[], map[], map[], terms, map[], {}, map[], map[]), map[], {}, {})
  }

  ghost function After(terms: map<TermsId, TermsDocument>, log: seq<Event>): Ledger {
    if log == [] then Opened(terms) else Apply(After(terms, log[..|log| - 1]), log[|log| - 1])
  }

  ghost predicate Run(terms: map<TermsId, TermsDocument>, log: seq<Event>) {
    log == [] || (Run(terms, log[..|log| - 1]) && May(After(terms, log[..|log| - 1]), log[|log| - 1]))
  }

  // ---- What every state keeps ---------------------------------------------------------------

  /** Coverage never points at a receipt that is gone. */
  ghost predicate CoverageHasReceipts(db: Tables) {
    forall c :: c in db.coverage ==> c.0 in db.receipts
  }

  /** A receipt for a single reference covers that reference. */
  ghost predicate OneIsCovered(db: Tables) {
    forall id :: id in db.receipts && db.receipts[id].scope.One? ==> (id, db.receipts[id].scope.digest) in db.coverage
  }

  ghost predicate StampsBehind(s: Ledger) {
    forall id :: id in s.db.receipts ==>
      s.db.receipts[id].holder in s.last && s.db.receipts[id].issuedAt <= s.last[s.db.receipts[id].holder]
  }

  /** The receipts of one erasure never cover the same reference. */
  ghost predicate CoversAreDisjoint(db: Tables) {
    forall a, b, d :: (a, d) in db.coverage && (b, d) in db.coverage && SameErasure(db, a, b) ==> a == b
  }

  ghost predicate SameErasure(db: Tables, a: ReceiptId, b: ReceiptId) {
    && a in db.receipts && b in db.receipts
    && db.receipts[a].holder == db.receipts[b].holder && db.receipts[a].issuedAt == db.receipts[b].issuedAt
  }

  /** One erasure, one scope. */
  ghost predicate ErasuresHaveOneScope(db: Tables) {
    forall a, b :: SameErasure(db, a, b) ==> db.receipts[a].scope == db.receipts[b].scope
  }

  ghost predicate CoveredBy(db: Tables, key: Key, id: ReceiptId) {
    id in db.receipts && db.receipts[id].holder == key.holder && (id, key.digest) in db.coverage
  }

  ghost predicate AgedOut(s: Ledger, at: Instant) { exists floor :: floor in s.floors && at < floor }

  /** The receipt from the erasure that set `erased_at` is there and none covering the
      reference is newer; or it has aged out and none covering it is left at all. */
  ghost predicate Told(s: Ledger, key: Key, erasedAt: Instant) {
    && (forall id :: CoveredBy(s.db, key, id) ==> s.db.receipts[id].issuedAt <= erasedAt)
    && ((exists id :: CoveredBy(s.db, key, id) && s.db.receipts[id].issuedAt == erasedAt)
        || (AgedOut(s, erasedAt) && forall id :: !CoveredBy(s.db, key, id)))
  }

  ghost predicate ErasuresAreTold(s: Ledger) {
    forall key :: key in s.db.snapshots && s.db.snapshots[key].erasedAt.Some? ==>
      Told(s, key, s.db.snapshots[key].erasedAt.value)
  }

  /** An erasure's own outcome names at least one receipt, and exactly those on record that carry
      its holder and its stamp. */
  ghost predicate Backed(db: Tables, key: OutcomeKey) {
    && key in db.outcomes && db.outcomes[key].status == ErasureAcknowledged && db.outcomes[key].receiptIds != {}
    && forall id :: id in db.outcomes[key].receiptIds <==>
         id in db.receipts && db.receipts[id].holder == key.holder &&
           db.receipts[id].issuedAt == db.outcomes[key].recordedAt
  }

  ghost predicate OutcomesAreBacked(s: Ledger) {
    forall key :: key in s.committed ==>
      Backed(s.db, key) && key.holder in s.last && s.db.outcomes[key].recordedAt <= s.last[key.holder]
  }

  ghost predicate Inv(s: Ledger) {
    && CoverageHasReceipts(s.db) && OneIsCovered(s.db) && StampsBehind(s) && CoversAreDisjoint(s.db)
    && ErasuresHaveOneScope(s.db)
    && ErasuresAreTold(s) && OutcomesAreBacked(s)
  }

  // ---- Steps that leave the receipt tables alone ------------------------------------------------

  /** Rows that are erased afterwards were erased before, at the same instant. */
  lemma SnapshotStepKeeps(s: Ledger, snapshots: map<Key, Row>)
    requires Inv(s)
    requires forall key :: key in snapshots && snapshots[key].erasedAt.Some? ==>
               key in s.db.snapshots && s.db.snapshots[key].erasedAt == snapshots[key].erasedAt
    ensures Inv(s.(db := s.db.(snapshots := snapshots)))
  {
    var after := s.(db := s.db.(snapshots := snapshots));
    forall key | key in snapshots && snapshots[key].erasedAt.Some?
      ensures Told(after, key, snapshots[key].erasedAt.value) {
      var e := snapshots[key].erasedAt.value;
      assert Told(s, key, e);
      assert forall id :: CoveredBy(after.db, key, id) <==> CoveredBy(s.db, key, id);
      assert AgedOut(after, e) == AgedOut(s, e);
    }
    assert forall key :: Backed(s.db, key) ==> Backed(after.db, key);
  }

  lemma OutcomeStepKeeps(s: Ledger, holder: Holder, operation: OperationId, outcome: Outcome)
    requires Inv(s)
    ensures Inv(s.(db := RecordOutcome(s.db, holder, operation, outcome),
                   committed := s.committed - {OutcomeKey(holder, operation)}))
  {
    var after := s.(db := RecordOutcome(s.db, holder, operation, outcome),
                    committed := s.committed - {OutcomeKey(holder, operation)});
    forall key | key in after.db.snapshots && after.db.snapshots[key].erasedAt.Some?
      ensures Told(after, key, after.db.snapshots[key].erasedAt.value)
    {
      var e := after.db.snapshots[key].erasedAt.value;
      assert Told(s, key, e);
      assert forall id :: CoveredBy(after.db, key, id) <==> CoveredBy(s.db, key, id);
      assert AgedOut(after, e) == AgedOut(s, e);
    }
    assert forall key :: key != OutcomeKey(holder, operation) && Backed(s.db, key) ==> Backed(after.db, key);
  }

  // ---- Sweeping receipts -------------------------------------------------------------------------

  lemma SweepKeeps(s: Ledger, uploadsBefore: Instant, receiptsBefore: Instant)
    requires Inv(s)
    ensures Inv(SweepReceipts(s, uploadsBefore, receiptsBefore))
  {
    var after := SweepReceipts(s, uploadsBefore, receiptsBefore);
    SweptCoverage(s.db, uploadsBefore, receiptsBefore);
    forall key | key in after.db.snapshots && after.db.snapshots[key].erasedAt.Some?
      ensures Told(after, key, after.db.snapshots[key].erasedAt.value)
    {
      SweepKeepsTold(s, uploadsBefore, receiptsBefore, key, after.db.snapshots[key].erasedAt.value);
    }
    forall key | key in after.committed ensures Backed(after.db, key) {
      assert Backed(s.db, key);
    }
  }

  /** What a sweep leaves of coverage: the pairs whose receipt is still there. */
  lemma SweptCoverage(db: Tables, uploadsBefore: Instant, receiptsBefore: Instant)
    requires CoverageHasReceipts(db)
    ensures var after := SweepOutcomesAndReceipts(db, uploadsBefore, receiptsBefore);
            && (forall c :: c in after.coverage <==> c in db.coverage && c.0 in after.receipts)
            && (forall id :: id in after.receipts <==> id in db.receipts && receiptsBefore <= db.receipts[id].issuedAt)
            && (forall id :: id in after.receipts ==> after.receipts[id] == db.receipts[id])
  {
  }

  lemma SweepKeepsTold(s: Ledger, uploadsBefore: Instant, receiptsBefore: Instant, key: Key, erasedAt: Instant)
    requires Inv(s) && Told(s, key, erasedAt)
    ensures Told(SweepReceipts(s, uploadsBefore, receiptsBefore), key, erasedAt)
  {
    var after := SweepReceipts(s, uploadsBefore, receiptsBefore);
    SweptCoverage(s.db, uploadsBefore, receiptsBefore);
    assert forall id :: CoveredBy(after.db, key, id) <==>
             CoveredBy(s.db, key, id) && receiptsBefore <= s.db.receipts[id].issuedAt;
    if AgedOut(s, erasedAt) {
      var floor :| floor in s.floors && erasedAt < floor;
      assert floor in after.floors;
    }
    if exists id :: CoveredBy(s.db, key, id) && s.db.receipts[id].issuedAt == erasedAt {
      var id :| CoveredBy(s.db, key, id) && s.db.receipts[id].issuedAt == erasedAt;
      if receiptsBefore <= erasedAt {
        assert CoveredBy(after.db, key, id);
      } else {
        assert receiptsBefore in after.floors;
      }
    }
  }

  // ---- Committing an erasure ------------------------------------------------------------------------

  /** The receipt tables after a commit: what was there is untouched, what is new is the
      minted receipts and their covers. */
  ghost predicate Committed(db: Tables, after: Tables, holder: Holder, scope: Scope, minted: seq<Mint>, at: Instant) {
    && (forall id :: id in after.receipts <==> id in db.receipts || id in MintIds(minted))
    && (forall id :: id in db.receipts ==> after.receipts[id] == db.receipts[id])
    && (forall id :: id in MintIds(minted) ==>
          after.receipts[id].holder == holder && after.receipts[id].scope == scope && after.receipts[id].issuedAt == at)
    && (forall c :: c in after.coverage <==> c in db.coverage || c in NewCoverage(minted))
    && (forall c :: c in NewCoverage(minted) ==> c.0 in MintIds(minted))
    && MintIds(minted) !! db.receipts.Keys
  }

  lemma EraseCommits(s: Ledger, holder: Holder, scope: Scope, operation: OperationId, minted: seq<Mint>, at: Instant)
    requires Inv(s) && May(s, Erased(holder, scope, operation, minted, at))
    ensures Committed(s.db, Erase(s, holder, scope, operation, minted, at).db, holder, scope, minted, at)
  {
    var added := NewReceipts(holder, scope, minted, at);
    forall id | id in MintIds(minted) ensures added[id] == Receipt(holder, scope, added[id].termsId, at) {
      assert id in added;
    }
    forall c | c in NewCoverage(minted) ensures c.0 in MintIds(minted) {
      var i :| 0 <= i < |minted| && minted[i].id == c.0 && c.1 in minted[i].covers;
      assert minted[i].id in MintIds(minted);
    }
  }

  lemma CoversTellApart(minted: seq<Mint>, rows: map<Digest, Row>)
    requires Partition(minted, rows)
    ensures forall i, j, d ::
              0 <= i < |minted| && 0 <= j < |minted| && d in minted[i].covers && d in minted[j].covers ==> i == j
  {
  }

  /** Two minted receipts never cover the same reference. */
  lemma MintedOnce(minted: seq<Mint>, rows: map<Digest, Row>, a: ReceiptId, b: ReceiptId, d: Digest)
    requires Partition(minted, rows) && (a, d) in NewCoverage(minted) && (b, d) in NewCoverage(minted)
    ensures a == b
  {
    CoversTellApart(minted, rows);
    var i :| 0 <= i < |minted| && minted[i].id == a && d in minted[i].covers;
    var j :| 0 <= j < |minted| && minted[j].id == b && d in minted[j].covers;
  }

  lemma EraseKeepsTables(s: Ledger, holder: Holder, scope: Scope, operation: OperationId, minted: seq<Mint>,
                         at: Instant)
    requires Inv(s) && May(s, Erased(holder, scope, operation, minted, at))
    ensures var after := Erase(s, holder, scope, operation, minted, at);
            CoverageHasReceipts(after.db) && StampsBehind(after)
  {
    EraseCommits(s, holder, scope, operation, minted, at);
    var after := Erase(s, holder, scope, operation, minted, at);
    forall id | id in after.db.receipts
      ensures after.db.receipts[id].holder in after.last &&
              after.db.receipts[id].issuedAt <= after.last[after.db.receipts[id].holder]
    {
      if id in s.db.receipts {
        assert after.db.receipts[id] == s.db.receipts[id];
      } else {
        assert id in MintIds(minted);
      }
    }
  }

  lemma EraseCoversItsScope(s: Ledger, holder: Holder, scope: Scope, operation: OperationId, minted: seq<Mint>,
                            at: Instant)
    requires Inv(s) && May(s, Erased(holder, scope, operation, minted, at))
    ensures OneIsCovered(Erase(s, holder, scope, operation, minted, at).db)
  {
    EraseCommits(s, holder, scope, operation, minted, at);
    var rows := TargetRows(s.db.snapshots, holder, scope);
    ReceiptsPartitionTargets(minted, s.db.terms, rows, at);
    var after := Erase(s, holder, scope, operation, minted, at).db;
    forall id | id in after.receipts && after.receipts[id].scope.One?
      ensures (id, after.receipts[id].scope.digest) in after.coverage
    {
      if id !in s.db.receipts {
        var i :| 0 <= i < |minted| && minted[i].id == id;
        var d := Pick(minted[i].covers);
        assert d in rows && d == scope.digest;
        assert (id, d) in NewCoverage(minted);
      }
    }
  }

  lemma EraseKeepsCoversDisjoint(s: Ledger, holder: Holder, scope: Scope, operation: OperationId, minted: seq<Mint>,
                                 at: Instant)
    requires Inv(s) && May(s, Erased(holder, scope, operation, minted, at))
    ensures CoversAreDisjoint(Erase(s, holder, scope, operation, minted, at).db)
  {
    EraseCommits(s, holder, scope, operation, minted, at);
    var rows := TargetRows(s.db.snapshots, holder, scope);
    ReceiptsPartitionTargets(minted, s.db.terms, rows, at);
    var after := Erase(s, holder, scope, operation, minted, at).db;
    forall a, b, d | (a, d) in after.coverage && (b, d) in after.coverage && SameErasure(after, a, b) ensures a == b {
      OldAndNewDiffer(s, after, holder, scope, minted, at, a, b);
      if a in s.db.receipts {
        assert (a, d) !in NewCoverage(minted) && (b, d) !in NewCoverage(minted);
      } else {
        assert (a, d) !in s.db.coverage && (b, d) !in s.db.coverage;
        MintedOnce(minted, rows, a, b, d);
      }
    }
  }

  /** Receipts that share holder and stamp are both old or both new. */
  lemma OldAndNewDiffer(s: Ledger, after: Tables, holder: Holder, scope: Scope, minted: seq<Mint>, at: Instant,
                        a: ReceiptId, b: ReceiptId)
    requires StampsBehind(s) && Committed(s.db, after, holder, scope, minted, at) &&
             (holder in s.last ==> s.last[holder] < at)
    requires SameErasure(after, a, b)
    ensures a in s.db.receipts <==> b in s.db.receipts
    ensures a in s.db.receipts ==> SameErasure(s.db, a, b)
  {
    assert a in s.db.receipts || a in MintIds(minted);
    assert b in s.db.receipts || b in MintIds(minted);
  }

  lemma EraseKeepsOneScope(s: Ledger, holder: Holder, scope: Scope, operation: OperationId, minted: seq<Mint>,
                           at: Instant)
    requires Inv(s) && May(s, Erased(holder, scope, operation, minted, at))
    ensures ErasuresHaveOneScope(Erase(s, holder, scope, operation, minted, at).db)
  {
    EraseCommits(s, holder, scope, operation, minted, at);
    var after := Erase(s, holder, scope, operation, minted, at).db;
    forall a, b | SameErasure(after, a, b) ensures after.receipts[a].scope == after.receipts[b].scope {
      OldAndNewDiffer(s, after, holder, scope, minted, at, a, b);
    }
  }

  lemma EraseTells(s: Ledger, holder: Holder, scope: Scope, operation: OperationId, minted: seq<Mint>, at: Instant,
                   key: Key)
    requires Inv(s) && May(s, Erased(holder, scope, operation, minted, at))
    requires var after := Erase(s, holder, scope, operation, minted, at).db.snapshots;
             key in after && after[key].erasedAt.Some?
    ensures var after := Erase(s, holder, scope, operation, minted, at);
            Told(after, key, after.db.snapshots[key].erasedAt.value)
  {
    EraseCommits(s, holder, scope, operation, minted, at);
    var rows := TargetRows(s.db.snapshots, holder, scope);
    ReceiptsPartitionTargets(minted, s.db.terms, rows, at);
    var after := Erase(s, holder, scope, operation, minted, at);
    if key.holder == holder && key.digest in rows {
      assert Key(holder, key.digest) == key;
      TargetIsTold(s, after, holder, scope, minted, at, key);
    } else {
      OthersStayTold(s, after, holder, scope, minted, at, rows, key);
    }
  }

  lemma TargetIsTold(s: Ledger, after: Ledger, holder: Holder, scope: Scope, minted: seq<Mint>, at: Instant, key: Key)
    requires Inv(s) && Committed(s.db, after.db, holder, scope, minted, at) && key.holder == holder
    requires Covered(minted, key.digest) && (holder in s.last ==> s.last[holder] < at)
    ensures Told(after, key, at)
  {
    var i :| 0 <= i < |minted| && key.digest in minted[i].covers;
    var id := minted[i].id;
    assert (id, key.digest) in NewCoverage(minted) && id in MintIds(minted);
    assert CoveredBy(after.db, key, id) && after.db.receipts[id].issuedAt == at;
    forall other | CoveredBy(after.db, key, other) ensures after.db.receipts[other].issuedAt <= at {
      assert other in s.db.receipts || other in MintIds(minted);
    }
  }

  lemma OthersStayTold(s: Ledger, after: Ledger, holder: Holder, scope: Scope, minted: seq<Mint>, at: Instant,
                       rows: map<Digest, Row>, key: Key)
    requires Inv(s) && Committed(s.db, after.db, holder, scope, minted, at) && Partition(minted, rows)
    requires after.floors == s.floors && (key.holder != holder || key.digest !in rows)
    requires key in s.db.snapshots && s.db.snapshots[key].erasedAt.Some?
    ensures Told(after, key, s.db.snapshots[key].erasedAt.value)
  {
    var e := s.db.snapshots[key].erasedAt.value;
    assert Told(s, key, e);
    forall id: ReceiptId ensures CoveredBy(after.db, key, id) <==> CoveredBy(s.db, key, id) {
      if (id, key.digest) in NewCoverage(minted) {
        var i :| 0 <= i < |minted| && minted[i].id == id && key.digest in minted[i].covers;
        assert id in MintIds(minted) && key.digest in rows;
      }
    }
    assert AgedOut(after, e) == AgedOut(s, e);
  }

  lemma NewOutcomeIsBacked(s: Ledger, holder: Holder, scope: Scope, operation: OperationId, minted: seq<Mint>,
                           at: Instant)
    requires Inv(s) && May(s, Erased(holder, scope, operation, minted, at))
    ensures Backed(Erase(s, holder, scope, operation, minted, at).db, OutcomeKey(holder, operation))
  {
    EraseCommits(s, holder, scope, operation, minted, at);
    var rows := TargetRows(s.db.snapshots, holder, scope);
    var d := Pick(rows.Keys);
    var i :| 0 <= i < |minted| && minted[i].termsId == rows[d].termsId;
    assert minted[i].id in MintIds(minted);
  }

  /** No receipt minted now carries the stamp of an earlier erasure. */
  lemma OldOutcomeStaysBacked(db: Tables, after: Tables, holder: Holder, scope: Scope, minted: seq<Mint>, at: Instant,
                              key: OutcomeKey)
    requires Backed(db, key) && Committed(db, after, holder, scope, minted, at)
    requires key in after.outcomes && after.outcomes[key] == db.outcomes[key]
    requires key.holder == holder ==> db.outcomes[key].recordedAt < at
    ensures Backed(after, key)
  {
  }

  lemma EraseBacksItsOutcome(s: Ledger, holder: Holder, scope: Scope, operation: OperationId, minted: seq<Mint>,
                             at: Instant)
    requires Inv(s) && May(s, Erased(holder, scope, operation, minted, at))
    ensures OutcomesAreBacked(Erase(s, holder, scope, operation, minted, at))
  {
    NewOutcomeIsBacked(s, holder, scope, operation, minted, at);
    var after := Erase(s, holder, scope, operation, minted, at);
    forall key | key in after.committed && key != OutcomeKey(holder, operation)
      ensures Backed(after.db, key) && key.holder in after.last &&
              after.db.outcomes[key].recordedAt <= after.last[key.holder]
    {
      EraseLeavesOutcome(s, holder, scope, operation, minted, at, key);
    }
  }

  lemma EraseLeavesOutcome(s: Ledger, holder: Holder, scope: Scope, operation: OperationId, minted: seq<Mint>,
                           at: Instant, key: OutcomeKey)
    requires Inv(s) && May(s, Erased(holder, scope, operation, minted, at))
    requires key in s.committed && key != OutcomeKey(holder, operation)
    ensures var after := Erase(s, holder, scope, operation, minted, at);
            && Backed(after.db, key) && key.holder in after.last
            && after.db.outcomes[key].recordedAt <= after.last[key.holder]
  {
    EraseCommits(s, holder, scope, operation, minted, at);
    OldOutcomeStaysBacked(s.db, Erase(s, holder, scope, operation, minted, at).db, holder, scope, minted, at, key);
  }

  lemma EraseKeeps(s: Ledger, holder: Holder, scope: Scope, operation: OperationId, minted: seq<Mint>, at: Instant)
    requires Inv(s) && May(s, Erased(holder, scope, operation, minted, at))
    ensures Inv(Erase(s, holder, scope, operation, minted, at))
  {
    EraseKeepsTables(s, holder, scope, operation, minted, at);
    EraseCoversItsScope(s, holder, scope, operation, minted, at);
    EraseKeepsCoversDisjoint(s, holder, scope, operation, minted, at);
    EraseKeepsOneScope(s, holder, scope, operation, minted, at);
    EraseBacksItsOutcome(s, holder, scope, operation, minted, at);
    var after := Erase(s, holder, scope, operation, minted, at);
    forall key | key in after.db.snapshots && after.db.snapshots[key].erasedAt.Some?
      ensures Told(after, key, after.db.snapshots[key].erasedAt.value)
    {
      EraseTells(s, holder, scope, operation, minted, at, key);
    }
  }

  lemma StepKeeps(s: Ledger, event: Event)
    requires Inv(s) && May(s, event)
    ensures Inv(Apply(s, event))
  {
    match event
    case Retained(grant, at) => SnapshotStepKeeps(s, Retain(s.db.snapshots, grant, at));
    case Unlisted(key, at) => SnapshotStepKeeps(s, MarkUnavailable(s.db.snapshots, key, at));
    case ReferencesSwept(before) => SnapshotStepKeeps(s, SweepErasedReferences(s.db.snapshots, before));
    case UploadAnswered(holder, operation, at) =>
      OutcomeStepKeeps(s, holder, operation, Outcome(OutcomeStatus.Retained, {}, at));
    case Replayed(holder, scope, operation, at) =>
      OutcomeStepKeeps(s, holder, operation, Outcome(ErasureAcknowledged,
        Latest(s.db, holder, scope, ErasedDigests(s.db.snapshots, holder, scope)), at));
    case Erased(holder, scope, operation, minted, at) => EraseKeeps(s, holder, scope, operation, minted, at);
    case ReceiptsSwept(uploadsBefore, receiptsBefore) => SweepKeeps(s, uploadsBefore, receiptsBefore);
  }

  lemma {:induction false} EveryHistoryIsSound(terms: map<TermsId, TermsDocument>, log: seq<Event>)
    requires Run(terms, log)
    ensures Inv(After(terms, log))
  {
    if log != [] {
      EveryHistoryIsSound(terms, log[..|log| - 1]);
      StepKeeps(After(terms, log[..|log| - 1]), log[|log| - 1]);
    }
  }

  /** Whatever the erasure route answers is an event of such a history, or changes nothing. */
  lemma ErasureRouteIsAnEvent(s: Ledger, after: Tables, holder: Holder, scope: Scope, operation: OperationId,
                              at: Instant, nextId: nat -> ReceiptId, answer: Erasures.Answer)
    requires Erasures.Decides(s.db, after, holder, scope, operation, at, nextId, answer)
    requires holder in s.last ==> s.last[holder] < at
    requires forall i :: nextId(i) !in s.db.receipts
    ensures match answer
            case Acknowledged(minted) =>
              May(s, Erased(holder, scope, operation, minted, at)) &&
                Apply(s, Erased(holder, scope, operation, minted, at)).db == after
            case Replayed(_) =>
              May(s, Event.Replayed(holder, scope, operation, at)) &&
                Apply(s, Event.Replayed(holder, scope, operation, at)).db == after
            case _ => after == s.db
  {
    if answer.Acknowledged? {
      forall id | id in MintIds(answer.receipts) ensures id !in s.db.receipts {
        var i :| 0 <= i < |answer.receipts| && answer.receipts[i].id == id;
        assert id == nextId(i);
      }
    }
  }

  /** An upload that is kept is two such events, whatever becomes of its grant. */
  lemma KeptUploadIsTwoEvents(s: Ledger, after: Tables, diskBefore: Blobs.Disk, diskAfter: Blobs.Disk, id: UploadId,
                              grant: Grant, now: Instant)
    requires Uploads.KeepsUpload(s.db, diskBefore, after, diskAfter, id, grant, now)
    ensures var placed := Apply(s, Event.Retained(grant, now));
            after == Apply(placed, UploadAnswered(grant.holder, grant.operationId, now)).db.(uploads := after.uploads)
  {
  }

  // ---- Main results ------------------------------------------------------------------------------------

  /** In every history: coverage always has its receipt, and an outcome an erasure wrote names
      exactly the receipts on record from that erasure, of which there is at least one: it never
      outlives a receipt and never leaves one out. */
  lemma ReceiptsStandBehindTheirRecords(terms: map<TermsId, TermsDocument>, log: seq<Event>)
    requires Run(terms, log)
    ensures var s := After(terms, log);
            && CoverageHasReceipts(s.db)
            && forall key :: key in s.committed ==> Backed(s.db, key)
  {
    EveryHistoryIsSound(terms, log);
  }

  /** Retrying the erasure of a reference that is erased returns the one receipt that
      covers it from the erasure that set its present `erased_at`; once that receipt has
      aged out, nothing. It never returns one from an earlier life of the reference. */
  lemma ReplayReturnsThePresentErasure(terms: map<TermsId, TermsDocument>, log: seq<Event>, key: Key)
    requires Run(terms, log)
    requires var snapshots := After(terms, log).db.snapshots; key in snapshots && snapshots[key].erasedAt.Some?
    ensures var s := After(terms, log);
            var erasedAt := s.db.snapshots[key].erasedAt.value;
            var replay := Latest(s.db, key.holder, One(key.digest),
                                 ErasedDigests(s.db.snapshots, key.holder, One(key.digest)));
            if replay == {} then AgedOut(s, erasedAt)
            else exists id :: replay == {id} && CoveredBy(s.db, key, id) && s.db.receipts[id].issuedAt == erasedAt
  {
    EveryHistoryIsSound(terms, log);
    var s := After(terms, log);
    var erasedAt := s.db.snapshots[key].erasedAt.value;
    assert Told(s, key, erasedAt);
    var erased := ErasedDigests(s.db.snapshots, key.holder, One(key.digest));
    assert erased == {key.digest};
    if exists id :: CoveredBy(s.db, key, id) && s.db.receipts[id].issuedAt == erasedAt {
      var id :| CoveredBy(s.db, key, id) && s.db.receipts[id].issuedAt == erasedAt;
      OneReceiptIsLatest(s.db, key, erased, erasedAt, id);
    } else {
      NoReceiptIsLatest(s.db, key, erased);
    }
  }

  lemma OneReceiptIsLatest(db: Tables, key: Key, erased: set<Digest>, erasedAt: Instant, id: ReceiptId)
    requires OneIsCovered(db) && CoversAreDisjoint(db) && erased == {key.digest}
    requires CoveredBy(db, key, id) && db.receipts[id].issuedAt == erasedAt
    requires forall other :: CoveredBy(db, key, other) ==> db.receipts[other].issuedAt <= erasedAt
    ensures Latest(db, key.holder, One(key.digest), erased) == {id}
  {
    CandidatesCover(db, key, erased);
    var replay := Latest(db, key.holder, One(key.digest), erased);
    assert id in Candidates(db, key.holder, One(key.digest), erased);
    forall other | other in replay ensures other == id {
      assert CoveredBy(db, key, other);
      assert SameErasure(db, id, other);
    }
    assert id in replay;
  }

  lemma NoReceiptIsLatest(db: Tables, key: Key, erased: set<Digest>)
    requires OneIsCovered(db) && erased == {key.digest} && forall id :: !CoveredBy(db, key, id)
    ensures Latest(db, key.holder, One(key.digest), erased) == {}
  {
    CandidatesCover(db, key, erased);
  }

  lemma CandidatesCover(db: Tables, key: Key, erased: set<Digest>)
    requires OneIsCovered(db) && erased == {key.digest}
    ensures forall id :: id in Candidates(db, key.holder, One(key.digest), erased) <==> CoveredBy(db, key, id)
  {
    forall id: ReceiptId ensures id in Candidates(db, key.holder, One(key.digest), erased) <==> CoveredBy(db, key, id) {
      if CoveredBy(db, key, id) {
        assert CoversOne(db.coverage, id, erased);
      }
    }
  }

  /** The receipts of the holder's last erasure that are still on record. */
  ghost function OfTheLastErasure(s: Ledger, holder: Holder): set<ReceiptId>
    requires holder in s.last
  {
    set id | id in s.db.receipts && s.db.receipts[id].holder == holder && s.db.receipts[id].issuedAt == s.last[holder]
  }

  ghost function ReplayOfAll(db: Tables, holder: Holder): set<ReceiptId> {
    Latest(db, holder, All, ErasedDigests(db.snapshots, holder, All))
  }

  /** Retrying the erasure of everything returns the receipts of the holder's last erasure,
      all of them, if and only if one of those was for everything or covers a reference
      that is erased now. Otherwise it returns none of them: then that erasure was of a single
      reference, which has been uploaded again or forgotten since. */
  lemma ReplayOfAllIsTheLastErasure(terms: map<TermsId, TermsDocument>, log: seq<Event>, holder: Holder)
    requires Run(terms, log) && holder in After(terms, log).last
    ensures var s := After(terms, log);
            var relevant := exists id :: id in OfTheLastErasure(s, holder)
                              && id in Candidates(s.db, holder, All, ErasedDigests(s.db.snapshots, holder, All));
            if relevant then ReplayOfAll(s.db, holder) == OfTheLastErasure(s, holder)
            else ReplayOfAll(s.db, holder) !! OfTheLastErasure(s, holder)
  {
    EveryHistoryIsSound(terms, log);
    var s := After(terms, log);
    var erased := ErasedDigests(s.db.snapshots, holder, All);
    if exists id :: id in OfTheLastErasure(s, holder) && id in Candidates(s.db, holder, All, erased) {
      var id :| id in OfTheLastErasure(s, holder) && id in Candidates(s.db, holder, All, erased);
      forall other | other in OfTheLastErasure(s, holder) ensures other in Candidates(s.db, holder, All, erased) {
        AllOrTheSame(s.db, id, other);
      }
    }
  }

  /** Two receipts of one erasure are both for everything, or they are the same receipt. */
  lemma AllOrTheSame(db: Tables, a: ReceiptId, b: ReceiptId)
    requires SameErasure(db, a, b) && ErasuresHaveOneScope(db) && OneIsCovered(db) && CoversAreDisjoint(db)
    ensures db.receipts[b].scope == db.receipts[a].scope && (db.receipts[a].scope.One? ==> a == b)
  {
  }

  /** In particular, while a reference of the last erasure is still on record as erased and
      its receipt has not aged out, a retry of everything is answered with that erasure. */
  lemma ReplayOfAllWhileRemembered(terms: map<TermsId, TermsDocument>, log: seq<Event>, key: Key)
    requires Run(terms, log) && key.holder in After(terms, log).last
    requires var s := After(terms, log);
             key in s.db.snapshots && s.db.snapshots[key].erasedAt == Some(s.last[key.holder]) &&
               !AgedOut(s, s.last[key.holder])
    ensures var s := After(terms, log);
            && ReplayOfAll(s.db, key.holder) == OfTheLastErasure(s, key.holder)
            && exists id :: id in ReplayOfAll(s.db, key.holder) && CoveredBy(s.db, key, id)
  {
    EveryHistoryIsSound(terms, log);
    ReplayOfAllIsTheLastErasure(terms, log, key.holder);
    var s := After(terms, log);
    assert Told(s, key, s.last[key.holder]);
    var id :| CoveredBy(s.db, key, id) && s.db.receipts[id].issuedAt == s.last[key.holder];
    assert key == Key(key.holder, key.digest);
    assert CoversOne(s.db.coverage, id, ErasedDigests(s.db.snapshots, key.holder, All));
  }

  /** The documentation says an erasure outcome neither predeceases nor outlives the
      receipts it names. The replay branch stamps its outcome later than the receipts, so
      it does outlive them exactly when a sweep's floor falls between the two stamps. */
  lemma ReplayOutcomeOutlivesItsReceipts(s: Ledger, holder: Holder, scope: Scope, operation: OperationId, at: Instant,
                                         uploadsBefore: Instant, receiptsBefore: Instant, id: ReceiptId)
    requires Replays(s.db, holder, scope)
    requires id in Latest(s.db, holder, scope, ErasedDigests(s.db.snapshots, holder, scope))
    ensures var after := SweepReceipts(Replay(s, holder, scope, operation, at), uploadsBefore, receiptsBefore).db;
            var key := OutcomeKey(holder, operation);
            key in after.outcomes && id in after.outcomes[key].receiptIds && id !in after.receipts
            <==> s.db.receipts[id].issuedAt < receiptsBefore <= at
  {
  }
}
