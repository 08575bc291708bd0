/** What one sweep keeps and what it removes, table by table and directory by directory, read
    off the state it starts from (sweep.rs, store.rs). */
module SweepTables {
  import opened Types
  import opened Tables
  import opened Owed
  import opened Blobs
  import opened Framing
  import opened Sweeps
  import Handover
  import Lapse

  /** The directory holds the chunks the row counts, no other file, and its size in bytes. */
  ghost predicate Intact(disk: Disk, key: Key, row: Row) {
    && key in disk.retained
    && (forall i: nat :: i in disk.retained[key] <==> i < row.chunkCount)
    && |Content(disk.retained[key], row.chunkCount)| == row.size
  }

  /** A live row stays live if its window is not over and its bytes are there. */
  ghost predicate StaysLive(w: World, key: Key, now: Instant) {
    LiveAt(w.db.snapshots, key) && !ToErase(w.db, key, now) && Intact(w.disk, key, w.db.snapshots[key])
  }

  /** A row: an erased one is forgotten past its window, any other stays on record; a live one
      that does not stay live is unavailable as of now, and no row changes otherwise. */
  ghost predicate KeepsRow(w: World, after: map<Key, Row>, a: Args, key: Key) {
    && (key in after <==>
        key in w.db.snapshots &&
        (w.db.snapshots[key].erasedAt.None? || a.erasedFloor <= w.db.snapshots[key].erasedAt.value))
    && (key in after ==>
          after[key] == if LiveAt(w.db.snapshots, key) && !StaysLive(w, key, a.now)
            then w.db.snapshots[key].(retainedUntil := Some(a.now)) else w.db.snapshots[key])
  }

  ghost predicate KeepsRows(w: World, after: map<Key, Row>, a: Args) { forall key :: KeepsRow(w, after, a, key) }

  /** The outcomes: those of uploads and those of erasures, each past its own window. */
  ghost predicate KeepsOutcomes(before: map<OutcomeKey, Outcome>, after: map<OutcomeKey, Outcome>, a: Args) {
    && (forall key :: key in after <==>
          key in before &&
          match before[key].status
          case Retained => a.outcomeFloor <= before[key].recordedAt
          case ErasureAcknowledged => a.receiptFloor <= before[key].recordedAt)
    && (forall key :: key in after ==> after[key] == before[key])
  }

  /** The receipts past their window, and with each what it covers. */
  ghost predicate KeepsReceipts(before: Tables, after: Tables, a: Args) {
    && (forall id :: id in after.receipts <==> id in before.receipts && a.receiptFloor <= before.receipts[id].issuedAt)
    && (forall id :: id in after.receipts ==> after.receipts[id] == before.receipts[id])
    && (forall id: ReceiptId, digest: Digest :: (id, digest) in after.coverage <==>
          (id, digest) in before.coverage && (id in before.receipts ==> a.receiptFloor <= before.receipts[id].issuedAt))
  }

  ghost predicate KeepsNonces(before: map<NonceKey, Instant>, after: map<NonceKey, Instant>, a: Args) {
    && (forall key :: key in after <==> key in before && a.nonceFloor <= before[key])
    && (forall key :: key in after ==> after[key] == before[key])
  }

  ghost predicate KeepsRecords(before: map<EntitlementId, Record>, after: map<EntitlementId, Record>, a: Args) {
    && (forall id :: id in after <==> id in before && a.recordFloor <= before[id].expiresAt)
    && (forall id :: id in after ==> after[id] == before[id])
  }

  /** The grants that have not run out, and of the upload directories those with such a grant. */
  ghost predicate KeepsUploads(w: World, after: World, a: Args) {
    && (forall id :: id in after.db.uploads <==> id in w.db.uploads && a.now < w.db.uploads[id].expiresAt)
    && (forall id :: id in after.db.uploads ==> after.db.uploads[id] == w.db.uploads[id])
    && (forall id :: id in after.disk.incoming <==> id in w.disk.incoming && id in after.db.uploads)
    && (forall id :: id in after.disk.incoming ==> after.disk.incoming[id] == w.disk.incoming[id])
  }

  /** Of the retained directories, those whose rows stay live, untouched. */
  ghost predicate KeepsDirectories(w: World, after: Disk, a: Args) {
    && (forall key :: key in after.retained <==> StaysLive(w, key, a.now))
    && (forall key :: key in after.retained ==> key in w.disk.retained && after.retained[key] == w.disk.retained[key])
  }

  /** A row about a lapse reads as it should over the snapshots that are live now. */
  ghost predicate RowsAreTold(db: Tables) {
    forall h :: h in db.lapse ==> Tells(db.terms, db.snapshots, h, db.lapse[h].lapsedAt, Some(db.lapse[h]))
  }

  ghost predicate Leaves(w: World, after: World, a: Args) {
    && KeepsRows(w, after.db.snapshots, a) && KeepsDirectories(w, after.disk, a) && KeepsUploads(w, after, a)
    && KeepsOutcomes(w.db.outcomes, after.db.outcomes, a) && KeepsReceipts(w.db, after.db, a)
    && KeepsNonces(w.db.nonces, after.db.nonces, a) && KeepsRecords(w.db.entitlements, after.db.entitlements, a)
    && after.db.terms == w.db.terms && RowsAreTold(after.db)
  }

  // ---- Proofs, table by table --------------------------------------------------------------------

  lemma RowsAfterMarks(w: World, a: Args, key: Key)
    ensures var mid := RowsAndUploads(w, a).db.snapshots;
            && (key in mid <==> key in w.db.snapshots)
            && (key in mid ==>
                  mid[key] == if LiveAt(w.db.snapshots, key) && !StaysLive(w, key, a.now)
                    then w.db.snapshots[key].(retainedUntil := Some(a.now)) else w.db.snapshots[key])
  {
    DueIsToErase(w.db, key, a.revoked, a.now);
    assert DueToErase(w.db, key, a.revoked, a.now) ==> LiveAt(w.db.snapshots, key);
  }

  /** Only step (8) takes rows off record. */
  lemma RowsForgotten(w: World, a: Args, key: Key)
    ensures var mid, after := RowsAndUploads(w, a).db.snapshots, Sweep(w, a).db.snapshots;
            && (key in after <==>
                key in mid && (mid[key].erasedAt.None? || a.erasedFloor <= mid[key].erasedAt.value))
            && (key in after ==> after[key] == mid[key])
  {
  }

  lemma RowsAfterSweep(w: World, a: Args)
    ensures KeepsRows(w, Sweep(w, a).db.snapshots, a)
  {
    forall key ensures KeepsRow(w, Sweep(w, a).db.snapshots, a, key) {
      RowsAfterMarks(w, a, key);
      RowsForgotten(w, a, key);
    }
  }

  /** Nothing after step (3) changes which rows are live. */
  lemma LiveFromStepThree(w: World, a: Args, key: Key)
    ensures LiveAt(Sweep(w, a).db.snapshots, key) <==> LiveAt(RowsAndUploads(w, a).db.snapshots, key)
    ensures LiveAt(Sweep(w, a).db.snapshots, key) ==>
              Sweep(w, a).db.snapshots[key] == RowsAndUploads(w, a).db.snapshots[key]
  {
    RowsForgotten(w, a, key);
  }

  lemma DirectoriesAfterSweep(w: World, a: Args)
    ensures KeepsDirectories(w, Sweep(w, a).disk, a)
  {
    var mid := RowsAndUploads(w, a);
    forall key ensures LiveAt(mid.db.snapshots, key) <==> StaysLive(w, key, a.now) {
      RowsAfterMarks(w, a, key);
    }
  }

  lemma UploadsAfterSweep(w: World, a: Args)
    ensures KeepsUploads(w, Sweep(w, a), a)
  {
  }

  lemma WindowsKeep(db: Tables, a: Args)
    ensures var after := Windows(db, a);
            && KeepsOutcomes(db.outcomes, after.outcomes, a) && KeepsReceipts(db, after, a)
            && KeepsNonces(db.nonces, after.nonces, a)
  {
  }

  lemma RecordsAfterSweep(w: World, a: Args)
    ensures KeepsRecords(w.db.entitlements, Sweep(w, a).db.entitlements, a)
  {
  }

  lemma SameLiveRows(w: World, a: Args, h: Holder)
    ensures LiveRows(Sweep(w, a).db.snapshots, h) == LiveRows(RowsAndUploads(w, a).db.snapshots, h)
  {
    var before, after := RowsAndUploads(w, a).db.snapshots, Sweep(w, a).db.snapshots;
    forall d ensures LiveAt(after, Key(h, d)) <==> LiveAt(before, Key(h, d))
      ensures LiveAt(before, Key(h, d)) ==> after[Key(h, d)] == before[Key(h, d)]
    {
      LiveFromStepThree(w, a, Key(h, d));
    }
  }

  lemma RowsAreToldAfterSweep(w: World, a: Args)
    ensures RowsAreTold(Sweep(w, a).db)
  {
    var mid, after := RowsAndUploads(w, a).db, Sweep(w, a).db;
    forall h | h in after.lapse
      ensures Tells(after.terms, after.snapshots, h, after.lapse[h].lapsedAt, Some(after.lapse[h]))
    {
      SameLiveRows(w, a, h);
      RefreshedIsTold(mid, a, h);
      StateIsTold(after.terms, after.snapshots, h, after.lapse[h].lapsedAt);
    }
  }

  lemma RefreshedIsTold(db: Tables, a: Args, h: Holder)
    requires h in LapseRows(db, a).lapse
    ensures var state := LapseRows(db, a).lapse[h];
            Lapse.LapseStateAt(db.terms, LiveRows(db.snapshots, h), state.lapsedAt) == Some(state)
  {
    var handed := HandOverAll(db, a.revoked, a.recordFloor);
    var adopted := if a.charges then AdoptAll(handed, a.revoked, a.now) else handed;
    assert LapseOf(RefreshAll(adopted, a.revoked, a.now).lapse, h) ==
      if h in adopted.lapse then Handover.Refreshed(adopted, h, a.revoked, a.now) else None;
    Handover.RefreshedSameStamp(adopted, h, a.revoked, a.now);
  }

  lemma ReceiptsAfterSweep(w: World, a: Args)
    ensures KeepsReceipts(w.db, Sweep(w, a).db, a)
  {
    WindowsKeep(LapseRows(RowsAndUploads(w, a).db, a), a);
  }

  /** From any state: a sweep removes exactly what is past its window, run out, ungranted, due or
      damaged, and changes nothing it keeps. */
  lemma SweepLeaves(w: World, a: Args)
    ensures Leaves(w, Sweep(w, a), a)
  {
    RowsAfterSweep(w, a);
    DirectoriesAfterSweep(w, a);
    UploadsAfterSweep(w, a);
    WindowsKeep(LapseRows(RowsAndUploads(w, a).db, a), a);
    RecordsAfterSweep(w, a);
    RowsAreToldAfterSweep(w, a);
  }
}
