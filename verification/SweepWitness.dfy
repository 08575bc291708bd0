/** Worlds in which a second sweep does change something: both exceptions occur. */
module SweepWitness {
  import opened Types
  import opened Tables
  import opened Framing
  import opened Blobs
  import opened Lapse
  import opened Handover
  import opened Sweeps
  import opened SweepResults
  import Durations

  /** Terms under which protection lasts for `notice` and `erase` follows. */
  function TermsOf(notice: string): TermsDocument {
    TermsDocument(Some(PaymentClause(Some(notice), Some("none"), {}, None)), ErasureClause("", "", None))
  }

  /** One snapshot of one chunk, kept by a holder about whom these records and rows are held. */
  function OneSnapshot(key: Key, notice: string, entitlements: map<EntitlementId, Record>,
                       lapse: map<Holder, LapseState>): World
  {
    World(Tables(map[key := Row(1, 1, 0, None, 0, None, None)], map[], entitlements, lapse, map[0 := TermsOf(notice)],
                 map[], {}, map[], map[]),
          Disk(map[], map[key := map[0 := [0]]]))
  }

  /** What a sweep of a charging operator is given, with every floor at `now`. */
  function AllAt(now: Instant): Args { Args({}, true, now, now, now, now, now, now) }

  lemma OneSnapshotServes(key: Key, notice: string, entitlements: map<EntitlementId, Record>,
                          lapse: map<Holder, LapseState>)
    ensures var w := OneSnapshot(key, notice, entitlements, lapse);
            LiveAt(w.db.snapshots, key) && OnDisk(w.disk, key, w.db.snapshots[key])
  {
    var dir: Dir := map[0 := [0]];
    assert Content(dir, 1) == Content(dir, 0) + dir[0] == [0];
  }

  /** For every snapshot and time: terms of no duration, and nothing known about the holder. */
  lemma ASecondSweepExpires(key: Key, now: Instant)
    requires MIN_INSTANT <= now <= MAX_INSTANT
    ensures var w, a := OneSnapshot(key, "none", map[], map[]), AllAt(now);
            Ready(w.db, a) && NoTimeAtAll(w, a, key) && Sweep(Sweep(w, a), a) != Sweep(w, a)
  {
    var w, a := OneSnapshot(key, "none", map[], map[]), AllAt(now);
    OneSnapshotServes(key, "none", map[], map[]);
    RecordsAndExpiries(w.db.entitlements, key.holder);
    assert NoTimeAtAll(w, a, key);
    SecondSweepChangesNothing(w, a);
  }

  /** And for every notice of at least two seconds, at the far end of the clock's range: a
      record whose window leaves it, and beside it an older row, as a crash inside a
      registration leaves one, whose window does not. */
  lemma AnOlderRowIsShown(key: Key, id: EntitlementId, notice: string)
    requires Durations.DurationSeconds(notice).Some? && 2 <= Durations.DurationSeconds(notice).value <= MAX_INSTANT
    ensures var records := map[id := Record(key.holder, MAX_INSTANT - 1)];
            var rows := map[key.holder := LapseState(0, 0, "")];
            var w, a := OneSnapshot(key, notice, records, rows), AllAt(MAX_INSTANT);
            Ready(w.db, a) && ShownDue(w, a, key) && Sweep(Sweep(w, a), a) != Sweep(w, a)
  {
    var records := map[id := Record(key.holder, MAX_INSTANT - 1)];
    var rows := map[key.holder := LapseState(0, 0, "")];
    var w, a := OneSnapshot(key, notice, records, rows), AllAt(MAX_INSTANT);
    OneSnapshotServes(key, notice, records, rows);
    FarHorizon(w.db, key.holder, id);
    NoticeEnds(key, notice, records, rows);
    OlderRowIsSeen(w, a, key);
  }

  /** The one window of the one snapshot is the notice. */
  lemma NoticeEnds(key: Key, notice: string, entitlements: map<EntitlementId, Record>, lapse: map<Holder, LapseState>)
    requires Durations.DurationSeconds(notice).Some? && 2 <= Durations.DurationSeconds(notice).value <= MAX_INSTANT
    ensures var db := OneSnapshot(key, notice, entitlements, lapse).db;
            && EndOfPayment(db.terms, 0).Some? && EndOfPayment(db.terms, 0).value.afterGrace == "erase"
            && Ends(db.terms, db.snapshots[key], 0).Some?
            && Ends(db.terms, db.snapshots[key], 0).value <= MAX_INSTANT
            && Ends(db.terms, db.snapshots[key], MAX_INSTANT - 1).None?
  {
  }

  lemma OlderRowIsSeen(w: World, a: Args, key: Key)
    requires Ready(w.db, a) && LiveAt(w.db.snapshots, key) && w.db.snapshots.Keys == {key}
    requires OnDisk(w.disk, key, w.db.snapshots[key])
    requires LosingEntitlements(w.db.entitlements, key.holder, a.recordFloor) && OlderRow(w.db, key.holder)
    requires DueUnder(w.db, key, Some(w.db.lapse[key.holder].lapsedAt), a.now)
    requires Ends(w.db.terms, w.db.snapshots[key], HorizonOf(w.db, key.holder).value).None?
    ensures ShownDue(w, a, key) && Sweep(Sweep(w, a), a) != Sweep(w, a)
  {
    UnmovedBySteps(w, a, key);
    OlderRowShows(w.db, a, key);
    ShownAlike(w.db, RowsAndUploads(w, a).db, a, key);
    assert ShownDue(w, a, key);
    SecondSweepChangesNothing(w, a);
  }

  lemma ShownAlike(before: Tables, after: Tables, a: Args, key: Key)
    requires after.snapshots == before.snapshots && after.entitlements == before.entitlements
    requires after.lapse == before.lapse && after.terms == before.terms
    requires DueUnder(before, key, Shown(before, a, key.holder), a.now)
    ensures DueUnder(after, key, Shown(after, a, key.holder), a.now)
  {
    assert after.entitlements == before.entitlements;
    assert HorizonOf(after, key.holder) == HorizonOf(before, key.holder);
  }

  lemma FarHorizon(db: Tables, holder: Holder, id: EntitlementId)
    requires db.entitlements == map[id := Record(holder, MAX_INSTANT - 1)]
    ensures HorizonOf(db, holder) == Some(MAX_INSTANT - 1) && LosingEntitlements(db.entitlements, holder, MAX_INSTANT)
  {
    assert db.entitlements[id].expiresAt in Expiries(db.entitlements, holder, {});
  }

  /** What is whole and not due under its holder's horizon is the same row after step (3). */
  lemma UnmovedBySteps(w: World, a: Args, key: Key)
    requires LiveAt(w.db.snapshots, key) && OnDisk(w.disk, key, w.db.snapshots[key])
    requires !DueUnder(w.db, key, HorizonOf(w.db, key.holder), a.now) && w.db.snapshots.Keys == {key}
    ensures var mid := RowsAndUploads(w, a).db;
            && mid.snapshots == w.db.snapshots && mid.entitlements == w.db.entitlements && mid.lapse == w.db.lapse
            && mid.terms == w.db.terms
  {
    DueByHorizon(w.db, a, key);
  }

  lemma OlderRowShows(db: Tables, a: Args, key: Key)
    requires LosingEntitlements(db.entitlements, key.holder, a.recordFloor) && OlderRow(db, key.holder)
    requires LiveAt(db.snapshots, key) && DueUnder(db, key, Some(db.lapse[key.holder].lapsedAt), a.now)
    requires forall d :: LiveAt(db.snapshots, Key(key.holder, d)) ==> d == key.digest
    requires Ends(db.terms, db.snapshots[key], HorizonOf(db, key.holder).value).None?
    ensures DueUnder(db, key, Shown(db, a, key.holder), a.now)
  {
    assert key == Key(key.holder, key.digest);
    var rows := LiveRows(db.snapshots, key.holder);
    assert key.digest in Protected(db.terms, rows, db.lapse[key.holder].lapsedAt);
    assert OwesNothing(db, key.holder);
  }
}
