/** What one complete sweep guarantees, from any state, a crash's leftovers included. */
module SweepResults {
  import opened Types
  import opened Tables
  import opened Lapse
  import opened Handover
  import opened Sweeps
  import opened SweepLapse
  import opened SweepTables
  import Nonces
  import Receipts

  // ---- Disk and rows ------------------------------------------------------------------------

  /** A row is live afterwards exactly when it was live, was not due for erasure, and has
      its bytes; and then it is the row it was. */
  lemma LiveAfterSweep(w: World, a: Args, key: Key)
    ensures LiveAt(Sweep(w, a).db.snapshots, key) <==>
            LiveAt(w.db.snapshots, key) && !DueToErase(w.db, key, a.revoked, a.now) &&
              OnDisk(w.disk, key, w.db.snapshots[key])
    ensures LiveAt(Sweep(w, a).db.snapshots, key) ==> Sweep(w, a).db.snapshots[key] == w.db.snapshots[key]
  {
    LiveFromStepThree(w, a, key);
  }

  /** After one sweep the directories on disk are exactly the live rows, each whole. */
  lemma DiskIsTheLiveRows(w: World, a: Args)
    ensures var after := Sweep(w, a);
            && after.disk.retained.Keys == LiveKeys(after.db.snapshots)
            && forall key :: LiveAt(after.db.snapshots, key) ==> OnDisk(after.disk, key, after.db.snapshots[key])
  {
    var after := Sweep(w, a);
    forall key ensures key in after.disk.retained <==> LiveAt(after.db.snapshots, key) {
      LiveAfterSweep(w, a, key);
      LiveFromStepThree(w, a, key);
    }
    forall key | LiveAt(after.db.snapshots, key) ensures OnDisk(after.disk, key, after.db.snapshots[key]) {
      LiveAfterSweep(w, a, key);
    }
  }

  /** After one sweep every upload directory has a grant, and every grant is unexpired. */
  lemma UploadsHaveOpenGrants(w: World, a: Args)
    ensures var after := Sweep(w, a);
            && after.disk.incoming.Keys <= after.db.uploads.Keys
            && forall id :: id in after.db.uploads ==> !after.db.uploads[id].Expired(a.now)
  {
  }

  // ---- Horizons, holder by holder ---------------------------------------------------------------

  /** A state of the tables at `now`: no horizon derived so far lies ahead, as in every run,
      and the record floor is behind. */
  ghost predicate Ready(db: Tables, a: Args) {
    a.recordFloor <= a.now && forall h :: h in db.lapse ==> db.lapse[h].lapsedAt <= a.now
  }

  /** The older row that the hand-over of this sweep uncovers, if it has windows to tell. */
  ghost function Shown(db: Tables, a: Args, h: Holder): Option<Instant> {
    if Resurfaces(db, h, a.recordFloor) then Some(db.lapse[h].lapsedAt) else None
  }

  lemma HandedLooksAlike(db: Tables, h: Holder, revoked: set<EntitlementId>, floor: Instant)
    ensures if LosingEntitlements(db.entitlements, h, floor)
            then SameFor(HandOverAll(db, revoked, floor), HandOver(db, h, revoked, floor), h)
            else SameFor(HandOverAll(db, revoked, floor),
                         db.(entitlements := SweepSuperseded(db.entitlements, floor)), h)
  {
    var all := HandOverAll(db, revoked, floor);
    NoRecordNothingDerived(db, h, revoked, floor);
    if LosingEntitlements(db.entitlements, h, floor) {
      LosingKeepsNothing(db.entitlements, h, floor);
    } else {
      KeptBySupersede(db.entitlements, h, floor);
    }
  }

  lemma LosingKeepsNothing(entitlements: map<EntitlementId, Record>, h: Holder, floor: Instant)
    requires LosingEntitlements(entitlements, h, floor)
    ensures h in RecordHolders(entitlements)
    ensures RecordsOf(map id | id in entitlements && floor <= entitlements[id].expiresAt :: entitlements[id], h) ==
            map[]
    ensures RecordsOf(SweepEntitlements(entitlements, h, floor), h) == map[]
  {
    var id :| id in entitlements && entitlements[id].holder == h;
  }

  lemma KeptBySupersede(entitlements: map<EntitlementId, Record>, h: Holder, floor: Instant)
    requires !LosingEntitlements(entitlements, h, floor)
    ensures RecordsOf(SweepSuperseded(entitlements, floor), h) ==
            RecordsOf(map id | id in entitlements && floor <= entitlements[id].expiresAt :: entitlements[id], h)
  {
    forall id | id in entitlements && entitlements[id].holder == h && entitlements[id].expiresAt < floor
      ensures KeepsOne(entitlements, h, floor)
    {
      assert HasRecord(entitlements, h);
    }
  }

  /** (3b) keeps a horizon while it protects anything, and then uncovers what lies beneath. */
  lemma HorizonAfterHandOver(db: Tables, a: Args, h: Holder)
    requires Ready(db, a)
    ensures var before, after := HorizonOf(db, h), HorizonOf(HandOverAll(db, a.revoked, a.recordFloor), h);
            Handed(db.terms, LiveRows(db.snapshots, h), a, before, after, Shown(db, a, h))
  {
    var after := HandOverAll(db, a.revoked, a.recordFloor);
    HandedLooksAlike(db, h, a.revoked, a.recordFloor);
    if LosingEntitlements(db.entitlements, h, a.recordFloor) {
      HorizonCarriedOver(db, h, a.revoked, a.recordFloor, {});
      SameHorizon(after, HandOver(db, h, a.revoked, a.recordFloor), h, {});
      if OwesNothing(db, h) && h in db.lapse && !Resurfaces(db, h, a.recordFloor) {
        UncoveredOwesNothing(db, h, a.recordFloor);
      }
    } else {
      var kept := db.(entitlements := SweepSuperseded(db.entitlements, a.recordFloor));
      SupersedeKeepsTheLatest(db.entitlements, a.recordFloor, h);
      SameHorizon(after, kept, h, {});
    }
  }

  /** The horizon is kept, or protected nothing and is what lies beneath it: a row shown, a row
      that protects nothing either, or none. */
  ghost predicate Handed(terms: map<TermsId, TermsDocument>, rows: map<Digest, Row>, a: Args, before: Option<Instant>,
                         after: Option<Instant>, shown: Option<Instant>) {
    if shown.Some? then before.Some? && after == shown && Protected(terms, rows, shown.value) != {}
    else
      after == before ||
      (before.Some? && before.value <= a.now && Protected(terms, rows, before.value) == {}
       && (after.Some? ==> after.value <= a.now && Protected(terms, rows, after.value) == {}))
  }

  lemma ReadyAfterHandOver(db: Tables, a: Args)
    requires Ready(db, a)
    ensures forall h :: h in HandOverAll(db, a.revoked, a.recordFloor).lapse ==>
              HandOverAll(db, a.revoked, a.recordFloor).lapse[h].lapsedAt <= a.now
  {
    var after := HandOverAll(db, a.revoked, a.recordFloor);
    forall h | h in after.lapse ensures after.lapse[h].lapsedAt <= a.now {
      assert LapseOf(after.lapse, h) == LapseOf(RecordDerived(db, h, a.revoked, a.recordFloor).lapse, h);
      if LosingEntitlements(db.entitlements, h, a.recordFloor) {
        HorizonCarriedOver(db, h, a.revoked, a.recordFloor, a.revoked);
      }
    }
  }

  ghost function AdoptIfCharging(db: Tables, a: Args): Tables {
    if a.charges then AdoptAll(db, a.revoked, a.now) else db
  }

  /** (3c) gives a horizon to exactly the holders that have none and something to protect. */
  lemma HorizonAfterAdoption(db: Tables, a: Args, h: Holder)
    requires forall g :: g in db.lapse ==> db.lapse[g].lapsedAt <= a.now
    ensures var after := AdoptIfCharging(db, a);
            && (h in after.lapse ==> after.lapse[h].lapsedAt <= a.now)
            && HorizonOf(after, h) ==
               if HorizonOf(db, h).Some? then HorizonOf(db, h)
               else if a.charges && Protected(db.terms, LiveRows(db.snapshots, h), a.now) != {} then Some(a.now)
               else None
  {
    var after := AdoptIfCharging(db, a);
    if a.charges {
      AdoptedElsewhere(db, h, a.revoked, a.now);
      assert LapseOf(after.lapse, h) == Adopted(db, h, a.revoked, a.now);
      SameRecords(db.entitlements, after.entitlements, h, {});
      RecordsAndExpiries(db.entitlements, h);
    }
  }

  /** (3d) drops a horizon only when nothing is left for it to protect. */
  lemma HorizonAfterRefresh(db: Tables, a: Args, h: Holder)
    requires h in db.lapse ==> db.lapse[h].lapsedAt <= a.now
    ensures HorizonOf(RefreshAll(db, a.revoked, a.now), h) ==
            if HorizonOf(db, h).Some? && !HasRecord(db.entitlements, h)
               && Protected(db.terms, LiveRows(db.snapshots, h), HorizonOf(db, h).value) == {}
            then None else HorizonOf(db, h)
  {
    var after := RefreshAll(db, a.revoked, a.now);
    RecordsAndExpiries(db.entitlements, h);
    assert LapseOf(after.lapse, h) == if h in db.lapse then Refreshed(db, h, a.revoked, a.now) else None;
    if h in db.lapse && !HasRecord(db.entitlements, h) {
      RetiredExactlyWhenNothingIsOwed(db, h, a.revoked, a.now);
    }
  }

  /** A horizon stays, or is gone because it protects nothing, or is new at `now`; and where
      something is owed on a charging operator, there is one. It goes back in one case only: to
      the older row that the hand-over has shown. */
  ghost predicate HorizonMoves(before: Option<Instant>, after: Option<Instant>, a: Args, owed: bool,
                               shown: Option<Instant>) {
    && (if shown.Some? then before.Some? && after == shown else before.Some? && after.Some? ==> after == before)
    && (before.None? ==> after == if a.charges && owed then Some(a.now) else None)
    && (a.charges && owed ==> after.Some?)
  }

  /** Hand-over, adoption and refresh, one after the other. */
  lemma ThreeMoves(terms: map<TermsId, TermsDocument>, rows: map<Digest, Row>, a: Args, hasRecord: bool,
                   before: Option<Instant>, handed: Option<Instant>, adopted: Option<Instant>, after: Option<Instant>,
                   shown: Option<Instant>)
    requires Handed(terms, rows, a, before, handed, shown) && (shown.Some? || handed != before ==> !hasRecord)
    requires adopted == if handed.Some? then handed
                        else if a.charges && Protected(terms, rows, a.now) != {} then Some(a.now) else None
    requires adopted.Some? && !hasRecord ==> adopted.value <= a.now
    requires after == if adopted.Some? && !hasRecord && Protected(terms, rows, adopted.value) == {} then None
                      else adopted
    ensures HorizonMoves(before, after, a, Protected(terms, rows, a.now) != {}, shown)
  {
    if before.Some? && before.value <= a.now {
      ProtectedEarlier(terms, rows, before.value, a.now);
    }
    if adopted.Some? && !hasRecord {
      ProtectedEarlier(terms, rows, adopted.value, a.now);
    }
  }

  /** The horizon a holder has after (3b) to (3d): the one before, a new one at `now`, none, or
      the one shown; and none only when nothing is left to protect. */
  lemma HorizonAfterLapseRows(db: Tables, a: Args, h: Holder)
    requires Ready(db, a)
    ensures HorizonMoves(HorizonOf(db, h), HorizonOf(LapseRows(db, a), h), a,
                         Protected(db.terms, LiveRows(db.snapshots, h), a.now) != {}, Shown(db, a, h))
  {
    var handed := HandOverAll(db, a.revoked, a.recordFloor);
    var adopted := AdoptIfCharging(handed, a);
    ReadyAfterHandOver(db, a);
    HorizonAfterHandOver(db, a, h);
    HorizonAfterAdoption(handed, a, h);
    HorizonAfterRefresh(adopted, a, h);
    AdoptedBehind(adopted, a, h);
    RecordsAfterHandOver(db, a, h);
    ThreeMoves(db.terms, LiveRows(db.snapshots, h), a, HasRecord(adopted.entitlements, h), HorizonOf(db, h),
               HorizonOf(handed, h), HorizonOf(adopted, h), HorizonOf(LapseRows(db, a), h), Shown(db, a, h));
  }

  /** A horizon that has changed in (3b) is no longer a record's. */
  lemma RecordsAfterHandOver(db: Tables, a: Args, h: Holder)
    ensures var handed := HandOverAll(db, a.revoked, a.recordFloor);
            Shown(db, a, h).Some? || HorizonOf(handed, h) != HorizonOf(db, h) ==> !HasRecord(handed.entitlements, h)
  {
    var handed := HandOverAll(db, a.revoked, a.recordFloor);
    HandedLooksAlike(db, h, a.revoked, a.recordFloor);
    if LosingEntitlements(db.entitlements, h, a.recordFloor) {
      HandOverEmpties(db.entitlements, h, a.recordFloor);
      SameRecords(handed.entitlements, HandOver(db, h, a.revoked, a.recordFloor).entitlements, h, {});
    } else {
      SupersedeKeepsTheLatest(db.entitlements, a.recordFloor, h);
      SameHorizon(handed, db.(entitlements := SweepSuperseded(db.entitlements, a.recordFloor)), h, {});
    }
  }

  /** A horizon that no record gives lies behind. */
  lemma AdoptedBehind(db: Tables, a: Args, h: Holder)
    requires h in db.lapse ==> db.lapse[h].lapsedAt <= a.now
    ensures HorizonOf(db, h).Some? && !HasRecord(db.entitlements, h) ==> HorizonOf(db, h).value <= a.now
  {
    RecordsAndExpiries(db.entitlements, h);
  }

  lemma SameHorizonFromThere(w: World, a: Args, h: Holder)
    ensures HorizonOf(Sweep(w, a).db, h) == HorizonOf(LapseRows(RowsAndUploads(w, a).db, a), h)
  {
  }

  /** From any tables, a crash's leftovers included: an uninterrupted sweep leaves a holder's
      horizon, starts one now, or drops it; on a charging operator a holder with something
      readable to protect always has one afterwards. It moves one back exactly when its
      hand-over shows an older row; a row it uncovers that has nothing to tell it retires. */
  lemma HorizonAfterSweep(w: World, a: Args, h: Holder)
    requires Ready(w.db, a)
    ensures HorizonMoves(HorizonOf(w.db, h), HorizonOf(Sweep(w, a).db, h), a,
                         Protected(w.db.terms, LiveRows(Sweep(w, a).db.snapshots, h), a.now) != {},
                         Shown(RowsAndUploads(w, a).db, a, h))
  {
    var mid := RowsAndUploads(w, a).db;
    SameLiveRows(w, a, h);
    SameHorizonFromThere(w, a, h);
    assert HorizonOf(mid, h) == HorizonOf(w.db, h);
    assert Ready(mid, a);
    HorizonAfterLapseRows(mid, a, h);
  }

  // ---- A second sweep -----------------------------------------------------------------------------

  /** Nothing for any step to do. */
  ghost predicate Settled(w: World, a: Args) {
    && (forall key :: LiveAt(w.db.snapshots, key) ==>
          !DueToErase(w.db, key, a.revoked, a.now) && OnDisk(w.disk, key, w.db.snapshots[key]))
    && RestSettled(w, a)
  }

  ghost predicate RestSettled(w: World, a: Args) {
    && (forall id :: id in w.db.uploads ==> !w.db.uploads[id].Expired(a.now))
    && w.disk.incoming.Keys <= w.db.uploads.Keys && w.disk.retained.Keys <= LiveKeys(w.db.snapshots)
    && LapseSettled(w.db, a) && Windows(w.db, a) == w.db
  }

  ghost predicate LapseSettled(db: Tables, a: Args) {
    && (forall id :: id in db.entitlements ==> a.recordFloor <= db.entitlements[id].expiresAt)
    && (a.charges ==> forall h :: Adopted(db, h, a.revoked, a.now) == LapseOf(db.lapse, h))
    && (forall h :: h in db.lapse ==> Refreshed(db, h, a.revoked, a.now) == LapseOf(db.lapse, h))
  }

  lemma SettledLapseStays(db: Tables, a: Args)
    requires LapseSettled(db, a)
    ensures LapseRows(db, a) == db
  {
    SettledRecordsStay(db, a);
    SettledAdoption(db, a);
    SameTable(RefreshAll(db, a.revoked, a.now).lapse, db.lapse);
  }

  lemma SettledRecordsStay(db: Tables, a: Args)
    requires forall id :: id in db.entitlements ==> a.recordFloor <= db.entitlements[id].expiresAt
    ensures HandOverAll(db, a.revoked, a.recordFloor) == db
  {
    var handed := HandOverAll(db, a.revoked, a.recordFloor);
    forall h ensures LapseOf(handed.lapse, h) == LapseOf(db.lapse, h) {
      assert !LosingEntitlements(db.entitlements, h, a.recordFloor);
      NoRecordNothingDerived(db, h, a.revoked, a.recordFloor);
    }
    SameTable(handed.lapse, db.lapse);
    assert handed.entitlements == db.entitlements;
  }

  lemma SettledAdoption(db: Tables, a: Args)
    requires a.charges ==> forall h :: Adopted(db, h, a.revoked, a.now) == LapseOf(db.lapse, h)
    ensures AdoptIfCharging(db, a) == db
  {
    if a.charges {
      var adopted := AdoptAll(db, a.revoked, a.now);
      forall h ensures LapseOf(adopted.lapse, h) == LapseOf(db.lapse, h) {
        AdoptedElsewhere(db, h, a.revoked, a.now);
      }
      SameTable(adopted.lapse, db.lapse);
    }
  }

  lemma SettledRowsStay(w: World, a: Args)
    requires Settled(w, a)
    ensures RowsAndUploads(w, a) == w
  {
    var expired := ExpireAll(w.db, a.revoked, a.now);
    forall key | key in w.db.snapshots ensures expired[key] == w.db.snapshots[key] {
      assert key == Key(key.holder, key.digest);
    }
    assert expired == w.db.snapshots;
    assert MarkIncomplete(expired, w.disk, a.now) == expired;
    assert ExpiredIds(w.db.uploads, a.now) == {};
    assert w.db.uploads - {} == w.db.uploads && w.disk.incoming - {} == w.disk.incoming;
    assert w.disk.incoming.Keys - w.db.uploads.Keys == {};
  }

  lemma SettledStays(w: World, a: Args)
    requires Settled(w, a)
    ensures Sweep(w, a) == w
  {
    SettledRowsStay(w, a);
    SettledLapseStays(w.db, a);
    assert Unlisted(w.disk, w.db.snapshots) == {};
    assert w.disk.retained - {} == w.disk.retained;
  }

  lemma WindowsTwice(db: Tables, a: Args)
    ensures Windows(Windows(db, a), a) == Windows(db, a)
  {
    var once := Windows(db, a);
    assert Nonces.SweepNonces(once.nonces, a.nonceFloor) == once.nonces;
    WindowsTwiceReceipts(db, a);
    assert Receipts.SweepErasedReferences(once.snapshots, a.erasedFloor) == once.snapshots;
  }

  lemma WindowsTwiceReceipts(db: Tables, a: Args)
    ensures Receipts.SweepOutcomesAndReceipts(Windows(db, a), a.outcomeFloor, a.receiptFloor) == Windows(db, a)
  {
    var once := Windows(db, a);
    var twice := Receipts.SweepOutcomesAndReceipts(once, a.outcomeFloor, a.receiptFloor);
    assert twice.outcomes == once.outcomes;
    assert twice.coverage == once.coverage;
    assert twice.receipts == once.receipts;
  }

  /** (3d) run again on its own result finds nothing to rewrite or retire. */
  lemma RefreshedTwice(db: Tables, a: Args, h: Holder)
    requires h in RefreshAll(db, a.revoked, a.now).lapse
    ensures var after := RefreshAll(db, a.revoked, a.now);
            Refreshed(after, h, a.revoked, a.now) == LapseOf(after.lapse, h)
  {
    var after := RefreshAll(db, a.revoked, a.now);
    assert LapseOf(after.lapse, h) == if h in db.lapse then Refreshed(db, h, a.revoked, a.now) else None;
    KeptOnce(db, after, h, after.lapse[h], a.revoked, a.now);
  }

  lemma KeptOnce(db: Tables, after: Tables, h: Holder, state: LapseState, revoked: set<EntitlementId>, now: Instant)
    requires h in db.lapse && Refreshed(db, h, revoked, now) == Some(state)
    requires h in after.lapse && after.lapse[h] == state && after == db.(lapse := after.lapse)
    ensures Refreshed(after, h, revoked, now) == Some(state)
  {
    assert after.lapse[h := state] == after.lapse && after.(lapse := after.lapse) == after;
    SameDue(db.(lapse := db.lapse[h := state]), after, h, revoked, now);
  }

  lemma LapseSettlesAfterSweep(w: World, a: Args)
    requires Ready(w.db, a)
    ensures LapseSettled(Sweep(w, a).db, a)
  {
    var after := Sweep(w, a).db;
    forall h | h in after.lapse ensures Refreshed(after, h, a.revoked, a.now) == LapseOf(after.lapse, h) {
      RefreshSettles(w, a, h);
    }
    if a.charges {
      forall h ensures Adopted(after, h, a.revoked, a.now) == LapseOf(after.lapse, h) {
        AdoptionSettles(w, a, h);
      }
    }
  }

  lemma AdoptionSettles(w: World, a: Args, h: Holder)
    requires Ready(w.db, a) && a.charges
    ensures Adopted(Sweep(w, a).db, h, a.revoked, a.now) == LapseOf(Sweep(w, a).db.lapse, h)
  {
    HorizonAfterSweep(w, a, h);
    AdoptedElsewhere(Sweep(w, a).db, h, a.revoked, a.now);
  }

  lemma RefreshSettles(w: World, a: Args, h: Holder)
    requires h in Sweep(w, a).db.lapse
    ensures Refreshed(Sweep(w, a).db, h, a.revoked, a.now) == LapseOf(Sweep(w, a).db.lapse, h)
  {
    var mid := RowsAndUploads(w, a).db;
    var adopted := AdoptIfCharging(HandOverAll(mid, a.revoked, a.recordFloor), a);
    assert LapseRows(mid, a) == RefreshAll(adopted, a.revoked, a.now);
    RefreshedTwice(adopted, a, h);
    SameLiveRows(w, a, h);
    SameRefreshed(LapseRows(mid, a), Sweep(w, a).db, h, a.revoked, a.now);
  }

  /** A live row of a holder no record and no lapse row speaks for, on a charging operator,
      with its bytes in place, under terms that give it no time at all before erasure. */
  ghost predicate NoTimeAtAll(w: World, a: Args, key: Key) {
    && a.charges && LiveAt(w.db.snapshots, key) && HorizonOf(w.db, key.holder).None?
    && OnDisk(w.disk, key, w.db.snapshots[key])
    && Ends(w.db.terms, w.db.snapshots[key], a.now) == Some(a.now)
    && EndOfPayment(w.db.terms, w.db.snapshots[key].termsId).value.afterGrace == "erase"
  }

  ghost predicate DueUnder(db: Tables, key: Key, lapsedAt: Option<Instant>, now: Instant) {
    && LiveAt(db.snapshots, key) && lapsedAt.Some? && lapsedAt.value <= now
    && Ends(db.terms, db.snapshots[key], lapsedAt.value).Some? &&
       Ends(db.terms, db.snapshots[key], lapsedAt.value).value <= now
    && EndOfPayment(db.terms, db.snapshots[key].termsId).value.afterGrace == "erase"
  }

  lemma DueByHorizon(db: Tables, a: Args, key: Key)
    ensures DueToErase(db, key, a.revoked, a.now) <==> DueUnder(db, key, HorizonOf(db, key.holder), a.now)
  {
    assert key == Key(key.holder, key.digest);
    var rows := LiveRows(db.snapshots, key.holder);
    assert key.digest in rows <==> LiveAt(db.snapshots, key);
  }

  /** A live row that the sweep left alone under its holder's horizon, and that is due under
      the older row the sweep then shows. */
  ghost predicate ShownDue(w: World, a: Args, key: Key) {
    var mid := RowsAndUploads(w, a).db;
    DueUnder(mid, key, Shown(mid, a, key.holder), a.now)
  }

  /** What a sweep leaves due for erasure is exactly what it adopted with no time at all, and
      what it has shown to be due. */
  lemma DueAfterSweep(w: World, a: Args, key: Key)
    requires Ready(w.db, a)
    ensures DueToErase(Sweep(w, a).db, key, a.revoked, a.now) <==> NoTimeAtAll(w, a, key) || ShownDue(w, a, key)
  {
    var after, h := Sweep(w, a).db, key.holder;
    DueByHorizon(w.db, a, key);
    DueByHorizon(after, a, key);
    LiveAfterSweep(w, a, key);
    LiveFromStepThree(w, a, key);
    HorizonAfterSweep(w, a, h);
    if LiveAt(after.snapshots, key) && Ends(after.terms, after.snapshots[key], a.now).Some? {
      LiveIsOwed(after, a, key);
    }
    DueWithTheseHorizons(w, a, after, key, HorizonOf(w.db, h), HorizonOf(after, h),
                         Shown(RowsAndUploads(w, a).db, a, h));
  }

  lemma LiveIsOwed(db: Tables, a: Args, key: Key)
    requires LiveAt(db.snapshots, key) && Ends(db.terms, db.snapshots[key], a.now).Some?
    ensures Protected(db.terms, LiveRows(db.snapshots, key.holder), a.now) != {}
  {
    assert key == Key(key.holder, key.digest);
    assert key.digest in Protected(db.terms, LiveRows(db.snapshots, key.holder), a.now);
  }

  lemma DueWithTheseHorizons(w: World, a: Args, after: Tables, key: Key, before: Option<Instant>,
                             horizon: Option<Instant>, shown: Option<Instant>)
    requires after.terms == w.db.terms && before == HorizonOf(w.db, key.holder)
    requires LiveAt(after.snapshots, key) <==>
             LiveAt(w.db.snapshots, key) && !DueUnder(w.db, key, before, a.now) &&
               OnDisk(w.disk, key, w.db.snapshots[key])
    requires LiveAt(after.snapshots, key) ==> after.snapshots[key] == w.db.snapshots[key]
    requires if shown.Some? then before.Some? && horizon == shown
             else before.Some? && horizon.Some? ==> horizon == before
    requires before.None? ==> horizon.None? || (a.charges && horizon == Some(a.now))
    requires before.None? && a.charges && LiveAt(after.snapshots, key) &&
             Ends(after.terms, after.snapshots[key], a.now).Some? ==>
               horizon == Some(a.now)
    ensures DueUnder(after, key, horizon, a.now) <==> NoTimeAtAll(w, a, key) || DueUnder(after, key, shown, a.now)
  {
  }

  lemma DueIsMarked(w: World, a: Args, key: Key)
    requires DueToErase(w.db, key, a.revoked, a.now)
    ensures Sweep(w, a) != w
  {
    assert key == Key(key.holder, key.digest);
    assert LiveAt(w.db.snapshots, key);
    LiveAfterSweep(w, a, key);
  }

  /** A second sweep with the same arguments changes nothing at all, from any tables, unless
      the first took up a snapshot that pinned terms of no duration, or showed an older row
      that makes one due. */
  lemma SecondSweepChangesNothing(w: World, a: Args)
    requires Ready(w.db, a)
    ensures Sweep(Sweep(w, a), a) == Sweep(w, a) <==> forall key :: !NoTimeAtAll(w, a, key) && !ShownDue(w, a, key)
  {
    var after := Sweep(w, a);
    if forall key :: !NoTimeAtAll(w, a, key) && !ShownDue(w, a, key) {
      forall key | LiveAt(after.db.snapshots, key) ensures !DueToErase(after.db, key, a.revoked, a.now) {
        DueAfterSweep(w, a, key);
      }
      DiskIsTheLiveRows(w, a);
      UploadsHaveOpenGrants(w, a);
      LapseSettlesAfterSweep(w, a);
      WindowsTwice(LapseRows(RowsAndUploads(w, a).db, a), a);
      SettledStays(after, a);
    } else {
      var key :| NoTimeAtAll(w, a, key) || ShownDue(w, a, key);
      DueAfterSweep(w, a, key);
      DueIsMarked(after, a, key);
    }
  }

  /** When every published window is positive, only an older row shown can leave anything for
      a second sweep to do. */
  lemma PositiveWindowsSettleAtOnce(w: World, a: Args)
    requires Ready(w.db, a)
    requires forall id :: EndOfPayment(w.db.terms, id).Some? ==>
               0 < EndOfPayment(w.db.terms, id).value.notice + EndOfPayment(w.db.terms, id).value.grace
    ensures Sweep(Sweep(w, a), a) == Sweep(w, a) <==> forall key :: !ShownDue(w, a, key)
  {
    SecondSweepChangesNothing(w, a);
    forall key ensures !NoTimeAtAll(w, a, key) {
    }
  }
}
