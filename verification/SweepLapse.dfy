/** The lapse steps of `reconcile`, (3b) to (3d), and the pass as a whole. */
module SweepLapse {
  import opened Types
  import opened Tables
  import Rows = Tables
  import opened Lapse
  import opened Handover
  import opened Blobs
  import opened Stores
  import opened Sweeps
  import opened SweepSteps
  import opened SweepTables
  import opened Owed
  import Gate

  lemma SameTable(a: map<Holder, LapseState>, b: map<Holder, LapseState>)
    requires forall h :: LapseOf(a, h) == LapseOf(b, h)
    ensures a == b
  {
    forall h ensures h in a <==> h in b {
      assert LapseOf(a, h) == LapseOf(b, h);
    }
    forall h | h in a ensures a[h] == b[h] {
      assert LapseOf(a, h) == LapseOf(b, h);
    }
  }

  // ---- (3b) records past their bound -------------------------------------------------------------

  method DeriveLapseState(store: Store, h: Holder, revoked: set<EntitlementId>) returns (state: Option<LapseState>)
    ensures state == DerivedState(store.db, h, revoked)
  {
    var lapsedAt := Gate.LifecycleHorizonOf(store, h, revoked);
    if lapsedAt.None? {
      return None;
    }
    state := Gate.LapseStateAt(store, h, lapsedAt.value);
  }

  lemma SameDerived(a: Tables, b: Tables, h: Holder, revoked: set<EntitlementId>)
    requires SameFor(a, b, h)
    ensures DerivedState(a, h, revoked) == DerivedState(b, h, revoked)
  {
    SameHorizon(a, b, h, revoked);
  }

  lemma SameLosing(a: map<EntitlementId, Record>, b: map<EntitlementId, Record>, h: Holder, floor: Instant)
    requires RecordsOf(a, h) == RecordsOf(b, h)
    ensures LosingEntitlements(a, h, floor) == LosingEntitlements(b, h, floor)
  {
    var mine := RecordsOf(a, h);
    assert forall id :: id in a && a[id].holder == h <==> id in mine;
    assert forall id :: id in b && b[id].holder == h <==> id in mine;
    assert forall id :: id in mine ==> a[id] == b[id];
    SameRecords(a, b, h, {});
  }

  ghost function WithoutAged(entitlements: map<EntitlementId, Record>, done: set<Holder>,
                             floor: Instant): map<EntitlementId, Record>
  {
    map id | id in entitlements && !(entitlements[id].holder in done && entitlements[id].expiresAt < floor) ::
      entitlements[id]
  }

  function LosingHolders(entitlements: map<EntitlementId, Record>, floor: Instant): (losing: set<Holder>)
    ensures forall h :: h in losing <==> LosingEntitlements(entitlements, h, floor)
  {
    set id | id in entitlements && LosingEntitlements(entitlements, entitlements[id].holder, floor) ::
      entitlements[id].holder
  }

  /** Where the hand-over stands once the holders in `done` are through. */
  ghost predicate HandedOver(before: Tables, after: Tables, done: set<Holder>, revoked: set<EntitlementId>,
                             floor: Instant)
  {
    && after == before.(lapse := after.lapse, entitlements := WithoutAged(before.entitlements, done, floor))
    && forall h :: LapseOf(after.lapse, h) ==
                   if h in done then LapseOf(RecordDerived(before, h, revoked, floor).lapse, h)
                   else LapseOf(before.lapse, h)
  }

  lemma NotYetTouched(before: Tables, after: Tables, done: set<Holder>, revoked: set<EntitlementId>, floor: Instant,
                      h: Holder)
    requires HandedOver(before, after, done, revoked, floor) && h !in done
    ensures SameFor(after, before, h)
  {
  }

  /** The row a holder has once their records are handed over: where every record lies below the
      floor, what their live snapshots tell from the moment payment ended, if anything; otherwise
      the row they had. */
  ghost predicate HandsOn(before: Tables, h: Holder, floor: Instant, row: Option<LapseState>) {
    if LosesEveryRecord(before.entitlements, h, floor) then
      exists lapsedAt, told ::
        && LapsedAt(before, h, lapsedAt) && Tells(before.terms, before.snapshots, h, lapsedAt, told)
        && row == if told.Some? then told else LapseOf(before.lapse, h)
    else row == LapseOf(before.lapse, h)
  }

  ghost predicate LosesEveryRecord(entitlements: map<EntitlementId, Record>, h: Holder, floor: Instant) {
    && (exists id :: id in entitlements && entitlements[id].holder == h)
    && (forall id :: id in entitlements && entitlements[id].holder == h ==> entitlements[id].expiresAt < floor)
  }

  lemma DerivedIsHandedOn(db: Tables, h: Holder, revoked: set<EntitlementId>, floor: Instant)
    ensures HandsOn(db, h, floor, LapseOf(RecordDerived(db, h, revoked, floor).lapse, h))
  {
    if LosingEntitlements(db.entitlements, h, floor) {
      RecordsAndExpiries(db.entitlements, h);
      HorizonIsTheLapse(db, h, revoked);
      var lapsedAt := LifecycleHorizon(db, h, revoked).value;
      StateIsTold(db.terms, db.snapshots, h, lapsedAt);
      assert LapsedAt(db, h, lapsedAt) && Tells(db.terms, db.snapshots, h, lapsedAt, DerivedState(db, h, revoked));
    }
  }

  method HandOverHolder(store: Store, h: Holder, revoked: set<EntitlementId>, floor: Instant)
    modifies store
    ensures store.db == HandOver(old(store.db), h, revoked, floor)
    ensures HandsOn(old(store.db), h, floor, LapseOf(store.db.lapse, h))
    ensures forall g :: g != h ==> LapseOf(store.db.lapse, g) == LapseOf(old(store.db).lapse, g)
    ensures var before, after := old(store.db).entitlements, store.db.entitlements;
            && (forall id :: id in after <==>
                  id in before && !(before[id].holder == h && LosesEveryRecord(before, h, floor)))
            && (forall id :: id in after ==> after[id] == before[id])
  {
    DerivedIsHandedOn(store.db, h, revoked, floor);
    var losing := store.HolderLosingEntitlements(h, floor);
    if !losing {
      return;
    }
    var state := DeriveLapseState(store, h, revoked);
    if state.Some? {
      store.RecordLapseState(h, state.value);
    }
    store.SweepEntitlements(h, floor);
  }

  lemma OneHandedOver(before: Tables, mid: Tables, done: set<Holder>, revoked: set<EntitlementId>, floor: Instant,
                      h: Holder)
    requires HandedOver(before, mid, done, revoked, floor) && h !in done &&
             LosingEntitlements(before.entitlements, h, floor)
    ensures HandedOver(before, HandOver(mid, h, revoked, floor), done + {h}, revoked, floor)
  {
    NotYetTouched(before, mid, done, revoked, floor, h);
    SameDerived(mid, before, h, revoked);
    SameLosing(mid.entitlements, before.entitlements, h, floor);
    OneMoreAged(before.entitlements, done, floor, h);
    OneMoreRecorded(before, mid, done, revoked, floor, h);
  }

  lemma OneMoreRecorded(before: Tables, mid: Tables, done: set<Holder>, revoked: set<EntitlementId>, floor: Instant,
                        h: Holder)
    requires HandedOver(before, mid, done, revoked, floor) && h !in done &&
             DerivedState(mid, h, revoked) == DerivedState(before, h, revoked)
    requires LosingEntitlements(before.entitlements, h, floor) && LosingEntitlements(mid.entitlements, h, floor)
    ensures var recorded := RecordDerived(mid, h, revoked, floor);
            && recorded == mid.(lapse := recorded.lapse)
            && forall g :: LapseOf(recorded.lapse, g) ==
                 if g in done + {h} then LapseOf(RecordDerived(before, g, revoked, floor).lapse, g)
                 else LapseOf(before.lapse, g)
  {
    var recorded := RecordDerived(mid, h, revoked, floor);
    forall g ensures LapseOf(recorded.lapse, g) ==
                     if g in done + {h} then LapseOf(RecordDerived(before, g, revoked, floor).lapse, g)
                     else LapseOf(before.lapse, g)
    {
      if g == h {
        RecordedAs(before, mid, h, revoked, floor);
      } else {
        assert LapseOf(recorded.lapse, g) == LapseOf(mid.lapse, g);
      }
    }
  }

  lemma OneMoreAged(entitlements: map<EntitlementId, Record>, done: set<Holder>, floor: Instant, h: Holder)
    ensures Rows.SweepEntitlements(WithoutAged(entitlements, done, floor), h, floor) ==
            WithoutAged(entitlements, done + {h}, floor)
  {
  }

  lemma RecordedAs(a: Tables, b: Tables, h: Holder, revoked: set<EntitlementId>, floor: Instant)
    requires LapseOf(a.lapse, h) == LapseOf(b.lapse, h)
    requires LosingEntitlements(a.entitlements, h, floor) && LosingEntitlements(b.entitlements, h, floor)
    requires DerivedState(a, h, revoked) == DerivedState(b, h, revoked)
    ensures LapseOf(RecordDerived(a, h, revoked, floor).lapse, h) ==
            LapseOf(RecordDerived(b, h, revoked, floor).lapse, h)
  {
  }

  lemma AllHandedOver(before: Tables, mid: Tables, revoked: set<EntitlementId>, floor: Instant)
    requires HandedOver(before, mid, LosingHolders(before.entitlements, floor), revoked, floor)
    ensures mid.(entitlements := SweepSuperseded(mid.entitlements, floor)) == HandOverAll(before, revoked, floor)
  {
    AllAgedGone(before.entitlements, floor);
    var all := HandOverAll(before, revoked, floor);
    forall h ensures LapseOf(mid.lapse, h) == LapseOf(all.lapse, h) {
      NoRecordNothingDerived(before, h, revoked, floor);
    }
    SameTable(mid.lapse, all.lapse);
  }

  lemma AllAgedGone(entitlements: map<EntitlementId, Record>, floor: Instant)
    ensures SweepSuperseded(WithoutAged(entitlements, LosingHolders(entitlements, floor), floor), floor)
            == map id | id in entitlements && floor <= entitlements[id].expiresAt :: entitlements[id]
  {
    forall id | id in entitlements
      ensures id in SweepSuperseded(WithoutAged(entitlements, LosingHolders(entitlements, floor), floor), floor)
              <==> floor <= entitlements[id].expiresAt
    {
      NoneBelowIsLeft(entitlements, floor, id);
    }
  }

  lemma NoRecordNothingDerived(db: Tables, h: Holder, revoked: set<EntitlementId>, floor: Instant)
    ensures !LosingEntitlements(db.entitlements, h, floor) ==> RecordDerived(db, h, revoked, floor) == db
    ensures h !in db.lapse.Keys + RecordHolders(db.entitlements) ==>
            LapseOf(RecordDerived(db, h, revoked, floor).lapse, h) == None
  {
    if LosingEntitlements(db.entitlements, h, floor) {
      var id :| id in db.entitlements && db.entitlements[id].holder == h;
      assert h in RecordHolders(db.entitlements);
    }
  }

  /** A record below the floor goes in one of the two passes, any other stays. */
  lemma NoneBelowIsLeft(entitlements: map<EntitlementId, Record>, floor: Instant, id: EntitlementId)
    requires id in entitlements
    ensures id in SweepSuperseded(WithoutAged(entitlements, LosingHolders(entitlements, floor), floor), floor)
            <==> floor <= entitlements[id].expiresAt
  {
    var h := entitlements[id].holder;
    var left := WithoutAged(entitlements, LosingHolders(entitlements, floor), floor);
    if entitlements[id].expiresAt < floor && !LosingEntitlements(entitlements, h, floor) {
      assert HasRecord(entitlements, h);
      var other :| other in entitlements && entitlements[other].holder == h && floor <= entitlements[other].expiresAt;
      assert other in left;
      assert KeepsOne(left, h, floor);
    }
  }

  lemma AllHandsOn(db: Tables, revoked: set<EntitlementId>, floor: Instant)
    ensures forall h :: HandsOn(db, h, floor, LapseOf(HandOverAll(db, revoked, floor).lapse, h))
  {
    forall h ensures HandsOn(db, h, floor, LapseOf(HandOverAll(db, revoked, floor).lapse, h)) {
      DerivedIsHandedOn(db, h, revoked, floor);
      NoRecordNothingDerived(db, h, revoked, floor);
    }
  }

  /** Derive first, then delete: the holders losing every record, then everyone else's. */
  method HandOverRecords(store: Store, revoked: set<EntitlementId>, floor: Instant)
    modifies store
    ensures store.db == HandOverAll(old(store.db), revoked, floor)
    ensures forall h :: HandsOn(old(store.db), h, floor, LapseOf(store.db.lapse, h))
    ensures store.db.entitlements.Keys == set id | id in old(store.db).entitlements &&
                                                   floor <= old(store.db).entitlements[id].expiresAt
  {
    AllHandsOn(store.db, revoked, floor);
    ghost var before := store.db;
    var losing := LosingHolders(store.db.entitlements, floor);
    var left := losing;
    assert losing - left == {} && WithoutAged(before.entitlements, {}, floor) == before.entitlements;
    while left != {}
      invariant left <= losing
      invariant HandedOver(before, store.db, losing - left, revoked, floor)
      decreases left
    {
      var h :| h in left;
      OneHandedOver(before, store.db, losing - left, revoked, floor, h);
      assert losing - (left - {h}) == (losing - left) + {h};
      HandOverHolder(store, h, revoked, floor);
      left := left - {h};
    }
    assert losing - left == losing;
    AllHandedOver(before, store.db, revoked, floor);
    store.SweepSupersededEntitlements(floor);
  }

  // ---- (3c) holders nothing knows the lapse of ------------------------------------------------------

  /** A holder of whom nothing says when payment ended has lapsed now, if they have a live
      snapshot with a window to tell; any other has the row they had. */
  ghost predicate TakesUp(before: Tables, h: Holder, now: Instant, row: Option<LapseState>) {
    if exists at :: LapsedAt(before, h, at) then row == LapseOf(before.lapse, h)
    else Tells(before.terms, before.snapshots, h, now, row)
  }

  lemma AdoptedTakesUp(db: Tables, revoked: set<EntitlementId>, now: Instant)
    ensures forall h :: TakesUp(db, h, now, LapseOf(AdoptAll(db, revoked, now).lapse, h))
  {
    forall h ensures TakesUp(db, h, now, LapseOf(AdoptAll(db, revoked, now).lapse, h)) {
      AdoptedElsewhere(db, h, revoked, now);
      HorizonIsTheLapse(db, h, revoked);
      StateIsTold(db.terms, db.snapshots, h, now);
      assert LapseOf(AdoptAll(db, revoked, now).lapse, h) == Adopted(db, h, revoked, now);
    }
  }

  method AdoptUnrecorded(store: Store, revoked: set<EntitlementId>, now: Instant)
    modifies store
    ensures store.db == AdoptAll(old(store.db), revoked, now)
    ensures forall h :: TakesUp(old(store.db), h, now, LapseOf(store.db.lapse, h))
  {
    AdoptedTakesUp(store.db, revoked, now);
    ghost var before := store.db;
    var unrecorded := Gate.UnrecordedLapsedHolders(store, revoked);
    var left := unrecorded;
    while left != {}
      invariant left <= unrecorded
      invariant store.db == before.(lapse := store.db.lapse)
      invariant forall h :: LapseOf(store.db.lapse, h) ==
                            if h in unrecorded && h !in left then Adopted(before, h, revoked, now)
                            else LapseOf(before.lapse, h)
      decreases left
    {
      var h :| h in left;
      left := left - {h};
      var state := Gate.LapseStateAt(store, h, now);
      if state.Some? {
        store.RecordLapseState(h, state.value);
      }
    }
    ghost var all := AdoptAll(before, revoked, now);
    forall h ensures LapseOf(store.db.lapse, h) == LapseOf(all.lapse, h) {
      AdoptedElsewhere(before, h, revoked, now);
    }
    SameTable(store.db.lapse, all.lapse);
  }

  /** Only a holder with live snapshots and no horizon is adopted. */
  lemma AdoptedElsewhere(db: Tables, h: Holder, revoked: set<EntitlementId>, now: Instant)
    ensures !(Gate.HasLive(db.snapshots, h) && LifecycleHorizon(db, h, revoked).None?) ==>
              Adopted(db, h, revoked, now) == LapseOf(db.lapse, h)
    ensures Gate.HasLive(db.snapshots, h) <==> h in LiveHolders(db.snapshots)
    ensures LifecycleHorizon(db, h, revoked).None? ==> h !in db.lapse
  {
    if !Gate.HasLive(db.snapshots, h) {
      assert forall d :: !LiveAt(db.snapshots, Key(h, d)) by {
        forall d ensures !LiveAt(db.snapshots, Key(h, d)) {
          assert Key(h, d).holder == h;
        }
      }
      assert LiveRows(db.snapshots, h) == map[];
    } else {
      var key :| LiveAt(db.snapshots, key) && key.holder == h;
      assert key in LiveKeys(db.snapshots);
    }
    RecordsAndExpiries(db.entitlements, h);
  }

  // ---- (3d) derived rows kept current, and retired ------------------------------------------------------

  lemma SameRefreshed(a: Tables, b: Tables, h: Holder, revoked: set<EntitlementId>, now: Instant)
    requires SameFor(a, b, h) && h in a.lapse && h in b.lapse
    ensures Refreshed(a, h, revoked, now) == Refreshed(b, h, revoked, now)
  {
    var rows, lapsedAt := LiveRows(a.snapshots, h), a.lapse[h].lapsedAt;
    var current := Lapse.LapseStateAt(a.terms, rows, lapsedAt);
    if current.Some? {
      SameDue(a.(lapse := a.lapse[h := current.value]), b.(lapse := b.lapse[h := current.value]), h, revoked, now);
    }
  }

  /** The row a lapse is left with: what the live snapshots tell from the lapse it keeps; none,
      where they tell nothing, or all of it is over, was to end in erasure, and no window counted
      from the moment payment ended is over with its snapshot still live. */
  ghost predicate KeepsCurrent(before: Tables, h: Holder, now: Instant, row: Option<LapseState>)
    requires h in before.lapse
  {
    exists told ::
      && Tells(before.terms, before.snapshots, h, before.lapse[h].lapsedAt, told)
      && row == if told.Some? && told.value.graceExpiresAt <= now && told.value.postGraceAction == "erase"
                   && !AnythingOver(before, h, now)
                then None else told
  }

  ghost predicate AnythingOver(db: Tables, h: Holder, now: Instant) {
    exists key, lapsedAt, end ::
      && LiveAt(db.snapshots, key) && key.holder == h && LapsedAt(db, h, lapsedAt)
      && WindowEndsAt(db.terms, db.snapshots[key].termsId, lapsedAt, end) && end <= now
  }

  lemma DueIsAnythingOver(db: Tables, h: Holder, revoked: set<EntitlementId>, now: Instant)
    ensures PostGraceDue(db, h, revoked, now) != map[] <==> AnythingOver(db, h, now)
  {
    HorizonIsTheLapse(db, h, revoked);
    var due, rows := PostGraceDue(db, h, revoked, now), LiveRows(db.snapshots, h);
    if due != map[] {
      var d := Pick(due.Keys);
      WindowIsWhatTheTermsSay(db.terms, rows[d], LifecycleHorizon(db, h, revoked).value);
      assert LiveAt(db.snapshots, Key(h, d));
    }
    if AnythingOver(db, h, now) {
      var key, lapsedAt, end :|
        && LiveAt(db.snapshots, key) && key.holder == h && LapsedAt(db, h, lapsedAt)
        && WindowEndsAt(db.terms, db.snapshots[key].termsId, lapsedAt, end) && end <= now;
      WindowIsWhatTheTermsSay(db.terms, db.snapshots[key], lapsedAt);
      assert key == Key(h, key.digest) && key.digest in due;
    }
  }

  lemma RefreshedKeepsCurrent(db: Tables, h: Holder, revoked: set<EntitlementId>, now: Instant)
    requires h in db.lapse
    ensures KeepsCurrent(db, h, now, Refreshed(db, h, revoked, now))
  {
    var told := Lapse.LapseStateAt(db.terms, LiveRows(db.snapshots, h), db.lapse[h].lapsedAt);
    StateIsTold(db.terms, db.snapshots, h, db.lapse[h].lapsedAt);
    if told.Some? {
      var rewritten := db.(lapse := db.lapse[h := told.value]);
      DueIsAnythingOver(rewritten, h, revoked, now);
      assert forall at :: LapsedAt(rewritten, h, at) <==> LapsedAt(db, h, at);
    }
  }

  method RefreshHolder(store: Store, h: Holder, state: LapseState, revoked: set<EntitlementId>, now: Instant)
    requires h in store.db.lapse && store.db.lapse[h] == state
    modifies store
    ensures store.db == WithLapse(old(store.db), h, Refreshed(old(store.db), h, revoked, now))
  {
    var current := Gate.LapseStateAt(store, h, state.lapsedAt);
    if current.None? {
      store.ForgetLapseState(h);
      return;
    }
    Rewritten(store.db, h, state, current.value);
    if current.value != state {
      store.RecordLapseState(h, current.value);
    }
    if now < current.value.graceExpiresAt || current.value.postGraceAction != "erase" {
      return;
    }
    var due := Gate.PostGraceDue(store, h, revoked, now);
    if due == map[] {
      store.ForgetLapseState(h);
    }
  }

  /** Writing a row that has not changed leaves the table as it is, and forgetting it after
      rewriting it is forgetting it. */
  lemma Rewritten(db: Tables, h: Holder, state: LapseState, current: LapseState)
    requires h in db.lapse && db.lapse[h] == state
    ensures current == state ==> db.lapse[h := current] == db.lapse
    ensures db.lapse[h := current] - {h} == db.lapse - {h}
  {
  }

  /** So (3d) leaves every lapse row current, and adds none. */
  lemma EveryRowKeptCurrent(db: Tables, revoked: set<EntitlementId>, now: Instant, h: Holder)
    ensures var after := RefreshAll(db, revoked, now);
            if h in db.lapse then KeepsCurrent(db, h, now, LapseOf(after.lapse, h)) else h !in after.lapse
  {
    var after := RefreshAll(db, revoked, now);
    assert LapseOf(after.lapse, h) == if h in db.lapse then Refreshed(db, h, revoked, now) else None;
    if h in db.lapse {
      RefreshedKeepsCurrent(db, h, revoked, now);
    }
  }

  method RefreshLapseRows(store: Store, revoked: set<EntitlementId>, now: Instant)
    modifies store
    ensures store.db == RefreshAll(old(store.db), revoked, now)
  {
    ghost var before := store.db;
    var lapsed := store.db.lapse;
    var left := lapsed.Keys;
    while left != {}
      invariant left <= lapsed.Keys
      invariant store.db == before.(lapse := store.db.lapse)
      invariant forall h :: LapseOf(store.db.lapse, h) ==
                            if h in lapsed && h !in left then Refreshed(before, h, revoked, now)
                            else LapseOf(before.lapse, h)
      decreases left
    {
      var h :| h in left;
      left := left - {h};
      assert LapseOf(store.db.lapse, h) == LapseOf(before.lapse, h);
      SameRefreshed(store.db, before, h, revoked, now);
      RefreshHolder(store, h, lapsed[h], revoked, now);
    }
    SameTable(store.db.lapse, RefreshAll(before, revoked, now).lapse);
  }

  // ---- The pass ---------------------------------------------------------------------------------------------

  /** One sweep with nothing failing and nothing else running computes `Sweep`, and so removes
      exactly what is past its window, run out, ungranted, due or damaged. */
  method Reconcile(store: Store, blobs: Blobs, a: Args)
    modifies store, blobs
    ensures World(store.db, blobs.disk) == Sweep(World(old(store.db), old(blobs.disk)), a)
    ensures Leaves(World(old(store.db), old(blobs.disk)), World(store.db, blobs.disk), a)
  {
    SweepLeaves(World(store.db, blobs.disk), a);
    SweepRowsAndUploads(store, blobs, a);
    SweepLapseRows(store, a);
    DropUnlisted(store, blobs);
    SweepWindows(store, a);
  }

  method SweepRowsAndUploads(store: Store, blobs: Blobs, a: Args)
    modifies store, blobs
    ensures World(store.db, blobs.disk) == RowsAndUploads(World(old(store.db), old(blobs.disk)), a)
  {
    ExpirePostGrace(store, a.revoked, a.now);
    DropExpiredGrants(store, blobs, a.now);
    DropUngranted(store, blobs);
    MarkIncompleteRows(store, blobs, a.now);
    assert MarkIncomplete(ExpireAll(old(store.db), a.revoked, a.now), blobs.disk, a.now)
        == MarkIncomplete(ExpireAll(old(store.db), a.revoked, a.now), old(blobs.disk), a.now);
  }

  method SweepLapseRows(store: Store, a: Args)
    modifies store
    ensures store.db == LapseRows(old(store.db), a)
  {
    HandOverRecords(store, a.revoked, a.recordFloor);
    if a.charges {
      AdoptUnrecorded(store, a.revoked, a.now);
    }
    RefreshLapseRows(store, a.revoked, a.now);
  }

  method SweepWindows(store: Store, a: Args)
    modifies store
    ensures store.db == Windows(old(store.db), a)
  {
    store.SweepNonces(a.nonceFloor);
    store.SweepOutcomesAndReceipts(a.outcomeFloor, a.receiptFloor);
    store.SweepErasedReferences(a.erasedFloor);
  }
}
