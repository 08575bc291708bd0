/** What a retried erasure is answered after a sweep: while the reference is on record, the
    receipt it was owed, or that it has aged out; never that there was no such snapshot. */
module ReceiptSweeps {
  import opened Types
  import opened Tables
  import opened Receipts
  import opened ReceiptRuns
  import opened Sweeps
  import opened SweepTables
  import opened Erasures

  /** The sweep starts from where the history has got to. */
  ghost predicate StandsAt(db: Tables, s: Ledger) {
    db.snapshots == s.db.snapshots && db.receipts == s.db.receipts && db.coverage == s.db.coverage
  }

  /** The receipt of the erasure that set the row's stamp, still within its window. */
  ghost predicate IsOwed(db: Tables, a: Args, key: Key, erasedAt: Instant, id: ReceiptId) {
    CoveredBy(db, key, id) && db.receipts[id].issuedAt == erasedAt && a.receiptFloor <= erasedAt
  }

  /** The reference is on record as it was, and the receipts within their window are. */
  ghost predicate Remembers(before: Tables, after: Tables, a: Args, key: Key) {
    && KeepsReceipts(before, after, a)
    && key in before.snapshots && key in after.snapshots && after.snapshots[key] == before.snapshots[key]
    && before.snapshots[key].erasedAt.Some?
  }

  lemma SweepRemembers(w: World, a: Args, key: Key)
    requires key in w.db.snapshots && w.db.snapshots[key].erasedAt.Some?
    requires a.erasedFloor <= w.db.snapshots[key].erasedAt.value
    ensures Remembers(w.db, Sweep(w, a).db, a, key)
  {
    ReceiptsAfterSweep(w, a);
    RowsAfterSweep(w, a);
    assert KeepsRow(w, Sweep(w, a).db.snapshots, a, key);
  }

  lemma RelevantAfterSweep(s: Ledger, before: Tables, after: Tables, a: Args, key: Key)
    requires Inv(s) && StandsAt(before, s) && Remembers(before, after, a, key)
    ensures forall id :: Relevant(after, key.holder, One(key.digest), id) <==>
                         CoveredBy(before, key, id) && a.receiptFloor <= before.receipts[id].issuedAt
  {
    assert key == Key(key.holder, key.digest);
    forall id ensures Relevant(after, key.holder, One(key.digest), id) <==>
        CoveredBy(before, key, id) && a.receiptFloor <= before.receipts[id].issuedAt
    {
      if CoveredBy(before, key, id) && a.receiptFloor <= before.receipts[id].issuedAt {
        assert CoversErased(after, key.holder, One(key.digest), key, id);
      }
      if Relevant(after, key.holder, One(key.digest), id) && after.receipts[id].scope != One(key.digest) {
        var other :| CoversErased(after, key.holder, One(key.digest), other, id);
        assert other.digest == key.digest;
      }
    }
  }

  /** The one that is owed is the newest, and alone. */
  lemma OwedIsNewest(s: Ledger, before: Tables, after: Tables, a: Args, key: Key, erasedAt: Instant, id: ReceiptId)
    requires Inv(s) && StandsAt(before, s) && Told(s, key, erasedAt) && IsOwed(before, a, key, erasedAt, id)
    requires Remembers(before, after, a, key)
    ensures forall other :: IsNewest(after, key.holder, One(key.digest), other) <==> other == id
  {
    RelevantAfterSweep(s, before, after, a, key);
    assert Relevant(after, key.holder, One(key.digest), id);
    forall other ensures IsNewest(after, key.holder, One(key.digest), other) <==> other == id {
      assert CoveredBy(before, key, other) <==> CoveredBy(s.db, key, other);
      if IsNewest(after, key.holder, One(key.digest), other) {
        assert SameErasure(s.db, id, other);
      }
    }
  }

  lemma OrderedIdsDiffer(db: Tables, holder: Holder, scope: Scope, ids: seq<ReceiptId>)
    requires NewestRelevant(db, holder, scope, ids)
    ensures |ids| > 1 ==> ids[0] in ids && ids[1] in ids && ids[0] != ids[1]
  {
  }

  lemma AloneInOrder(db: Tables, holder: Holder, scope: Scope, ids: seq<ReceiptId>, id: ReceiptId)
    requires NewestRelevant(db, holder, scope, ids)
    requires forall other :: IsNewest(db, holder, scope, other) <==> other == id
    ensures ids == [id]
  {
    OrderedIdsDiffer(db, holder, scope, ids);
    assert id in ids;
  }

  /** Where none is owed, none that covers the reference outlives the sweep. */
  lemma NothingIsOwed(s: Ledger, db: Tables, a: Args, key: Key, erasedAt: Instant)
    requires StandsAt(db, s) && Told(s, key, erasedAt) && forall id :: !IsOwed(db, a, key, erasedAt, id)
    ensures forall id :: CoveredBy(db, key, id) ==> db.receipts[id].issuedAt < a.receiptFloor
  {
    forall id | CoveredBy(db, key, id) ensures db.receipts[id].issuedAt < a.receiptFloor {
      assert CoveredBy(s.db, key, id);
      var present :| CoveredBy(s.db, key, present) && s.db.receipts[present].issuedAt == erasedAt;
      assert !IsOwed(db, a, key, erasedAt, present);
    }
  }

  lemma OnlyTheErasedRow(db: Tables, key: Key)
    requires key in db.snapshots && db.snapshots[key].erasedAt.Some?
    ensures InHolding(db.snapshots, key.holder, One(key.digest), key)
    ensures !AnyUnerased(db.snapshots, key.holder, One(key.digest))
  {
    forall other | InHolding(db.snapshots, key.holder, One(key.digest), other) ensures other == key {
      assert other.digest == key.digest;
    }
  }

  lemma StillOwed(s: Ledger, db: Tables, a: Args, key: Key, erasedAt: Instant)
    requires StandsAt(db, s) && Told(s, key, erasedAt)
    ensures a.receiptFloor <= erasedAt && !AgedOut(s, erasedAt) ==> exists id :: IsOwed(db, a, key, erasedAt, id)
  {
    if a.receiptFloor <= erasedAt && !AgedOut(s, erasedAt) {
      var id :| CoveredBy(s.db, key, id) && s.db.receipts[id].issuedAt == erasedAt;
      assert IsOwed(db, a, key, erasedAt, id);
    }
  }

  lemma RetryIsAnswered(s: Ledger, before: Tables, swept: Tables, after: Tables, a: Args, key: Key,
                        operation: OperationId, at: Instant, answer: Erasures.Answer)
    requires Inv(s) && StandsAt(before, s) && Remembers(before, swept, a, key)
    requires Told(s, key, before.snapshots[key].erasedAt.value)
    requires Erasures.AnswersAsDue(swept, after, key.holder, One(key.digest), operation, at, answer)
    ensures var erasedAt := before.snapshots[key].erasedAt.value;
            if exists id :: IsOwed(before, a, key, erasedAt, id)
            then exists id :: IsOwed(before, a, key, erasedAt, id) && answer == Answer.Replayed([id])
            else answer == ReceiptExpired
  {
    var erasedAt := before.snapshots[key].erasedAt.value;
    OnlyTheErasedRow(swept, key);
    RelevantAfterSweep(s, before, swept, a, key);
    if id :| IsOwed(before, a, key, erasedAt, id) {
      OwedIsNewest(s, before, swept, a, key, erasedAt, id);
      assert Relevant(swept, key.holder, One(key.digest), id);
      AloneInOrder(swept, key.holder, One(key.digest), answer.ids, id);
    } else {
      NothingIsOwed(s, before, a, key, erasedAt);
    }
  }

  /** In every history, and through any sweep that does not forget the reference: retrying its
      erasure returns the one receipt of the erasure that set its stamp, as long as that receipt is
      on record and within its window, and says that it has expired otherwise. */
  lemma RetryAfterSweep(terms: map<TermsId, TermsDocument>, log: seq<Event>, w: World, a: Args, key: Key,
                        after: Tables, operation: OperationId, at: Instant, nextId: nat -> ReceiptId,
                        answer: Erasures.Answer)
    requires Run(terms, log) && StandsAt(w.db, ReceiptRuns.After(terms, log))
    requires key in w.db.snapshots && w.db.snapshots[key].erasedAt.Some?
    requires a.erasedFloor <= w.db.snapshots[key].erasedAt.value
    requires Decides(Sweep(w, a).db, after, key.holder, One(key.digest), operation, at, nextId, answer)
    ensures var erasedAt := w.db.snapshots[key].erasedAt.value;
            && (if exists id :: IsOwed(w.db, a, key, erasedAt, id)
                then exists id :: IsOwed(w.db, a, key, erasedAt, id) && answer == Answer.Replayed([id])
                else answer == ReceiptExpired)
            && (a.receiptFloor <= erasedAt && !AgedOut(ReceiptRuns.After(terms, log), erasedAt) ==>
                  exists id :: IsOwed(w.db, a, key, erasedAt, id))
  {
    EveryHistoryIsSound(terms, log);
    var s, swept, erasedAt := ReceiptRuns.After(terms, log), Sweep(w, a).db, w.db.snapshots[key].erasedAt.value;
    assert Told(s, key, erasedAt);
    SweepRemembers(w, a, key);
    DecidesAsDue(swept, after, key.holder, One(key.digest), operation, at, nextId, answer);
    RetryIsAnswered(s, w.db, swept, after, a, key, operation, at, answer);
    StillOwed(s, w.db, a, key, erasedAt);
  }
}
