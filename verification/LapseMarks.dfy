/** Step (0) lists what is due in one lock section and marks it in later ones (sweep.rs):
    what can come in between, and when a mark is early. */
module LapseMarks {
  import opened Types
  import opened Tables
  import opened Lapse
  import opened Handover
  import opened LapseRuns

  /** The row's own window, counted from the lapse, has closed, and its terms say erase. */
  ghost predicate Over(terms: map<TermsId, TermsDocument>, row: Row, lapsedAt: Instant, now: Instant) {
    && Ends(terms, row, lapsedAt).Some? && Ends(terms, row, lapsedAt).value <= now
    && EndOfPayment(terms, row.termsId).value.afterGrace == "erase"
  }

  /** What step (0) would take out of the live set now. */
  ghost predicate DueNow(db: Tables, key: Key, revoked: set<EntitlementId>, now: Instant) {
    var due := PostGraceDue(db, key.holder, revoked, now);
    key.digest in due && due[key.digest] == "erase"
  }

  lemma DueByHorizon(db: Tables, key: Key, revoked: set<EntitlementId>, now: Instant)
    ensures DueNow(db, key, revoked, now) <==>
            LiveAt(db.snapshots, key) && HorizonOf(db, key.holder).Some?
            && Over(db.terms, db.snapshots[key], HorizonOf(db, key.holder).value, now)
  {
    assert key == Key(key.holder, key.digest);
    RevokedDoesNotMatter(db, key.holder, revoked);
    var rows := LiveRows(db.snapshots, key.holder);
    assert key.digest in rows <==> LiveAt(db.snapshots, key);
  }

  // ---- What can come in between -------------------------------------------------------------

  /** After the first i events of the run, some event brought the row of the key to life. */
  ghost predicate RevivedSince(db: Tables, log: seq<Entry>, i: nat, key: Key)
    decreases |log|
  {
    i < |log| &&
    var before := log[..|log| - 1];
    RevivedSince(db, before, i, key) ||
    (!LiveAt(After(db, before).snapshots, key) && LiveAt(After(db, log).snapshots, key))
  }

  ghost predicate RenewsAt(terms: map<TermsId, TermsDocument>, entry: Entry, holder: Holder, row: Row, now: Instant) {
    entry.event.Registered? && entry.event.holder == holder
    && (Ends(terms, row, entry.event.expiresAt).None? || now < Ends(terms, row, entry.event.expiresAt).value)
  }

  /** A hand-over strands the holder on a row under which the window is closed. */
  ghost predicate ClosesAt(db: Tables, entry: Entry, holder: Holder, row: Row, now: Instant) {
    StrandsAt(db, entry, holder) && Over(db.terms, row, db.lapse[holder].lapsedAt, now)
  }

  /** Of all that has happened to the row's window after the first i events, the last was that
      its holder registered a credential it is still open under: nothing has closed it since. */
  ghost predicate OpenedSince(db: Tables, log: seq<Entry>, i: nat, holder: Holder, row: Row, now: Instant)
    decreases |log|
  {
    i < |log| &&
    var before, last := log[..|log| - 1], log[|log| - 1];
    RenewsAt(db.terms, last, holder, row, now) ||
    (OpenedSince(db, before, i, holder, row, now) && !ClosesAt(After(db, before), last, holder, row, now))
  }

  lemma {:induction false} TermsNeverChange(db: Tables, log: seq<Entry>)
    ensures After(db, log).terms == db.terms
    decreases |log|
  {
    if log != [] {
      TermsNeverChange(db, log[..|log| - 1]);
    }
  }

  /** A row live before and after an event is the same row. */
  lemma LiveRowStays(db: Tables, entry: Entry, key: Key)
    ensures LiveAt(db.snapshots, key) && LiveAt(Apply(db, entry).snapshots, key) ==>
              Apply(db, entry).snapshots[key] == db.snapshots[key]
  {
  }

  /** Live at the end and not revived since: live all along, and the same row. */
  lemma {:induction false} SameRowSince(db: Tables, log: seq<Entry>, i: nat, key: Key)
    requires i <= |log| && LiveAt(After(db, log).snapshots, key) && !RevivedSince(db, log, i, key)
    ensures LiveAt(After(db, log[..i]).snapshots, key)
    ensures After(db, log[..i]).snapshots[key] == After(db, log).snapshots[key]
    decreases |log|
  {
    if i == |log| {
      assert log[..i] == log;
    } else {
      var before := log[..|log| - 1];
      LiveRowStays(After(db, before), log[|log| - 1], key);
      SameRowSince(db, before, i, key);
      assert before[..i] == log[..i];
    }
  }

  // ---- What is over stays over unless the holder renews ---------------------------------------

  lemma LiveIsProtected(db: Tables, key: Key, lapsedAt: Instant)
    requires LiveAt(db.snapshots, key) && Ends(db.terms, db.snapshots[key], lapsedAt).Some?
    ensures Protected(db.terms, LiveRows(db.snapshots, key.holder), lapsedAt) != {}
  {
    assert key == Key(key.holder, key.digest);
    assert key.digest in Protected(db.terms, LiveRows(db.snapshots, key.holder), lapsedAt);
  }

  lemma ProtectedIsOver(db: Tables, key: Key, now: Instant)
    requires LiveAt(db.snapshots, key) && HorizonOf(db, key.holder).Some?
    requires Over(db.terms, db.snapshots[key], HorizonOf(db, key.holder).value, now)
    ensures Protected(db.terms, LiveRows(db.snapshots, key.holder), HorizonOf(db, key.holder).value) != {}
  {
    LiveIsProtected(db, key, HorizonOf(db, key.holder).value);
  }

  /** With something protected, no event drops a horizon; only its holder's registration
      moves it, and then to the expiry registered or the one it had. */
  lemma HorizonStep(db: Tables, charges: bool, clock: Instant, entry: Entry, holder: Holder)
    requires Sound(db, clock) && MayHappen(db, charges, clock, entry) && HorizonOf(db, holder).Some?
    requires Protected(db.terms, LiveRows(db.snapshots, holder), HorizonOf(db, holder).value) != {}
    ensures HorizonOf(Apply(db, entry), holder).Some?
    ensures HorizonOf(Apply(db, entry), holder) == HorizonOf(db, holder)
            || (entry.event.Registered? && entry.event.holder == holder
                && HorizonOf(Apply(db, entry), holder) == Some(entry.event.expiresAt))
  {
    if !OnlySnapshots(entry.event) {
      match entry.event
      case Registered(h, id, expiresAt) => RegisterMoves(db, h, id, expiresAt, holder);
      case HandedOver(h, revoked, floor, swept) => HandOverHolds(db, h, revoked, floor, swept, holder);
      case Superseded(floor) =>
        SupersedeKeepsTheLatest(db.entitlements, floor, holder);
        HorizonByRecords(db, holder);
        HorizonByRecords(db.(entitlements := SweepSuperseded(db.entitlements, floor)), holder);
      case Cleared(h) => ClearForward(db, clock, h, entry.at, holder);
      case AdoptionWritten(h) => AdoptHolds(db, h, entry.at, holder);
      case RefreshedRow(h, revoked) => RefreshHolds(db, h, revoked, entry.at, holder);
    }
  }

  lemma RegisterMoves(db: Tables, h: Holder, id: EntitlementId, expiresAt: Instant, holder: Holder)
    requires HorizonOf(db, holder).Some?
    requires id in db.entitlements ==> db.entitlements[id].holder == h && db.entitlements[id].expiresAt <= expiresAt
    ensures var after := HorizonOf(RecordEntitlement(db, h, id, expiresAt), holder);
            after == HorizonOf(db, holder) || (holder == h && after == Some(expiresAt))
  {
    var after := RecordEntitlement(db, h, id, expiresAt);
    HorizonByRecords(db, holder);
    HorizonByRecords(after, holder);
    if holder != h {
      RegisterSparesOthers(db, h, id, expiresAt, holder);
    } else {
      assert after.entitlements[id].expiresAt in Expiries(after.entitlements, h, {});
      var top := MaxOf(Expiries(after.entitlements, h, {})).value;
      var k :| k in after.entitlements && after.entitlements[k].holder == h && after.entitlements[k].expiresAt == top;
      if k != id {
        TopWasThere(db, h, id, expiresAt, k);
      }
    }
  }

  lemma TopWasThere(db: Tables, h: Holder, id: EntitlementId, expiresAt: Instant, k: EntitlementId)
    requires id in db.entitlements ==> db.entitlements[id].holder == h && db.entitlements[id].expiresAt <= expiresAt
    requires k != id && k in db.entitlements && db.entitlements[k].holder == h
    requires var after := Expiries(RecordEntitlement(db, h, id, expiresAt).entitlements, h, {});
             MaxOf(after) == Some(db.entitlements[k].expiresAt)
    ensures HorizonOf(db, h) == Some(db.entitlements[k].expiresAt)
  {
    var before, after := db.entitlements, RecordEntitlement(db, h, id, expiresAt).entitlements;
    assert before[k].expiresAt in Expiries(before, h, {});
    assert after[id].expiresAt in Expiries(after, h, {});
    forall x | x in Expiries(before, h, {}) ensures x <= before[k].expiresAt {
      var e :| e in before && before[e].holder == h && before[e].expiresAt == x;
      assert e != id ==> after[e].expiresAt in Expiries(after, h, {});
    }
    assert IsMax(Expiries(before, h, {}), before[k].expiresAt);
    HorizonByRecords(db, h);
    RecordsAndExpiries(before, h);
  }

  lemma HandOverHolds(db: Tables, h: Holder, revoked: set<EntitlementId>, floor: Instant, swept: bool, holder: Holder)
    requires HorizonOf(db, holder).Some?
    requires Protected(db.terms, LiveRows(db.snapshots, holder), HorizonOf(db, holder).value) != {}
    ensures var after := if swept then HandOver(db, h, revoked, floor) else RecordDerived(db, h, revoked, floor);
            HorizonOf(after, holder) == HorizonOf(db, holder)
  {
    if LosingEntitlements(db.entitlements, h, floor) {
      var after := if swept then HandOver(db, h, revoked, floor) else RecordDerived(db, h, revoked, floor);
      HorizonByRecords(db, holder);
      HorizonByRecords(after, holder);
      if holder == h {
        HorizonCarriedOver(db, h, revoked, floor, {});
      } else {
        SweepSparesOthers(db.entitlements, h, floor, holder, {});
      }
    }
  }

  lemma AdoptHolds(db: Tables, h: Holder, at: Instant, holder: Holder)
    requires HorizonOf(db, holder).Some? && StillListed(db, h, at)
    ensures HorizonOf(WriteAdoption(db, h, at), holder) == HorizonOf(db, holder)
  {
    HorizonByRecords(db, holder);
    HorizonByRecords(WriteAdoption(db, h, at), holder);
  }

  lemma RefreshHolds(db: Tables, h: Holder, revoked: set<EntitlementId>, at: Instant, holder: Holder)
    requires Sound(db, at) && HorizonOf(db, holder).Some?
    requires Protected(db.terms, LiveRows(db.snapshots, holder), HorizonOf(db, holder).value) != {}
    ensures var after := if h in db.lapse then WithLapse(db, h, Refreshed(db, h, revoked, at)) else db;
            HorizonOf(after, holder) == HorizonOf(db, holder)
  {
    HorizonByRecords(db, holder);
    if h in db.lapse {
      HorizonByRecords(WithLapse(db, h, Refreshed(db, h, revoked, at)), holder);
      if holder == h && !HasRecord(db.entitlements, h) {
        RetiredExactlyWhenNothingIsOwed(db, h, revoked, at);
      }
    }
  }

  // ---- The window of one live row, from event to event ---------------------------------------

  lemma EndsEarlier(terms: map<TermsId, TermsDocument>, row: Row, early: Instant, late: Instant)
    requires early <= late && Ends(terms, row, late).Some?
    ensures Ends(terms, row, early).Some? && Ends(terms, row, early).value <= Ends(terms, row, late).value
  {
  }

  ghost predicate OverUnder(terms: map<TermsId, TermsDocument>, row: Row, horizon: Option<Instant>, now: Instant) {
    horizon.Some? && Over(terms, row, horizon.value, now)
  }

  /** Without a horizon, the row's window is out of the clock's range from here on. */
  ghost predicate OutOfRange(terms: map<TermsId, TermsDocument>, row: Row, horizon: Option<Instant>, clock: Instant) {
    horizon.None? ==> Ends(terms, row, clock).None?
  }

  lemma OverMovesBack(terms: map<TermsId, TermsDocument>, row: Row, early: Instant, late: Instant, now: Instant)
    requires early <= late && Over(terms, row, late, now)
    ensures Over(terms, row, early, now)
  {
    EndsEarlier(terms, row, early, late);
  }

  ghost predicate SaysErase(terms: map<TermsId, TermsDocument>, row: Row) {
    EndOfPayment(terms, row.termsId).Some? && EndOfPayment(terms, row.termsId).value.afterGrace == "erase"
  }

  /** What one event does to a live row's window: a renewal may open it, stranding may close
      it, and nothing else does either. */
  lemma WindowStep(db: Tables, charges: bool, clock: Instant, entry: Entry, key: Key, row: Row, now: Instant)
    requires Sound(db, clock) && MayHappen(db, charges, clock, entry)
    requires LiveAt(db.snapshots, key) && db.snapshots[key] == row && SaysErase(db.terms, row)
    requires OutOfRange(db.terms, row, HorizonOf(db, key.holder), clock)
    ensures var after := HorizonOf(Apply(db, entry), key.holder);
            && OutOfRange(db.terms, row, after, entry.at)
            && (OverUnder(db.terms, row, after, now) <==>
                if RenewsAt(db.terms, entry, key.holder, row, now) then false
                else ClosesAt(db, entry, key.holder, row, now) ||
                     OverUnder(db.terms, row, HorizonOf(db, key.holder), now))
  {
    var before, after := HorizonOf(db, key.holder), HorizonOf(Apply(db, entry), key.holder);
    StepForward(db, charges, clock, entry, key.holder);
    if entry.event.Registered? && entry.event.holder == key.holder {
      RegisterForward(db, clock, key.holder, entry.event.id, entry.event.expiresAt, entry.at, key.holder);
    }
    if OverUnder(db.terms, row, before, now) {
      ClosedStep(db, charges, clock, entry, key, row, now);
    } else if StrandsAt(db, entry, key.holder) {
      HorizonCarriedOver(db, key.holder, entry.event.revoked, entry.event.floor, {});
    } else {
      OpenStep(db, charges, clock, entry, key, row, now);
    }
  }

  lemma ClosedStep(db: Tables, charges: bool, clock: Instant, entry: Entry, key: Key, row: Row, now: Instant)
    requires Sound(db, clock) && MayHappen(db, charges, clock, entry) && SaysErase(db.terms, row)
    requires LiveAt(db.snapshots, key) && db.snapshots[key] == row
    requires OverUnder(db.terms, row, HorizonOf(db, key.holder), now)
    requires var event, after := entry.event, HorizonOf(Apply(db, entry), key.holder);
             event.Registered? && event.holder == key.holder ==> after.Some? && event.expiresAt <= after.value
    ensures !ClosesAt(db, entry, key.holder, row, now) && HorizonOf(Apply(db, entry), key.holder).Some?
    ensures OverUnder(db.terms, row, HorizonOf(Apply(db, entry), key.holder), now) <==>
            !RenewsAt(db.terms, entry, key.holder, row, now)
  {
    ProtectedIsOver(db, key, now);
    HorizonStep(db, charges, clock, entry, key.holder);
    var after := HorizonOf(Apply(db, entry), key.holder).value;
    if RenewsAt(db.terms, entry, key.holder, row, now) && Over(db.terms, row, after, now) {
      OverMovesBack(db.terms, row, entry.event.expiresAt, after, now);
    }
  }

  lemma OpenStep(db: Tables, charges: bool, clock: Instant, entry: Entry, key: Key, row: Row, now: Instant)
    requires Sound(db, clock) && MayHappen(db, charges, clock, entry) && SaysErase(db.terms, row)
    requires LiveAt(db.snapshots, key) && db.snapshots[key] == row
    requires OutOfRange(db.terms, row, HorizonOf(db, key.holder), clock)
    requires !OverUnder(db.terms, row, HorizonOf(db, key.holder), now)
    requires Forward(HorizonOf(db, key.holder), HorizonOf(Apply(db, entry), key.holder), entry.at)
    ensures OutOfRange(db.terms, row, HorizonOf(Apply(db, entry), key.holder), entry.at)
    ensures !OverUnder(db.terms, row, HorizonOf(Apply(db, entry), key.holder), now)
  {
    var before, after := HorizonOf(db, key.holder), HorizonOf(Apply(db, entry), key.holder);
    if before.Some? && after.Some? {
      if Over(db.terms, row, after.value, now) {
        OverMovesBack(db.terms, row, before.value, after.value, now);
      }
    } else if before.Some? {
      DroppedOutOfRange(db, charges, clock, entry, key, row);
    } else {
      var from := if after.Some? then after.value else entry.at;
      if Ends(db.terms, row, from).Some? {
        EndsEarlier(db.terms, row, clock, from);
      }
    }
  }

  /** A horizon is dropped only when it protects nothing, this row included. */
  lemma DroppedOutOfRange(db: Tables, charges: bool, clock: Instant, entry: Entry, key: Key, row: Row)
    requires Sound(db, clock) && MayHappen(db, charges, clock, entry)
    requires LiveAt(db.snapshots, key) && db.snapshots[key] == row
    requires HorizonOf(db, key.holder).Some? && HorizonOf(Apply(db, entry), key.holder).None?
    requires HorizonOf(db, key.holder).value <= entry.at
    ensures Ends(db.terms, row, entry.at).None?
  {
    var horizon := HorizonOf(db, key.holder).value;
    if Ends(db.terms, row, entry.at).Some? {
      EndsEarlier(db.terms, row, horizon, entry.at);
      LiveIsProtected(db, key, horizon);
      HorizonStep(db, charges, clock, entry, key.holder);
    }
  }

  /** From a listing on, for as long as it is the same row: closed unless it has been opened. */
  lemma {:induction false} ClosedUnlessOpened(db: Tables, charges: bool, start: Instant, log: seq<Entry>, i: nat,
                                             key: Key, row: Row, now: Instant)
    requires Fresh(db) && Run(db, charges, start, log) && i <= |log|
    requires LiveAt(After(db, log).snapshots, key) && After(db, log).snapshots[key] == row
    requires !RevivedSince(db, log, i, key)
    requires OverUnder(db.terms, row, HorizonOf(After(db, log[..i]), key.holder), now)
    ensures OutOfRange(db.terms, row, HorizonOf(After(db, log), key.holder), Clock(start, log))
    ensures OverUnder(db.terms, row, HorizonOf(After(db, log), key.holder), now) <==>
            !OpenedSince(db, log, i, key.holder, row, now)
    decreases |log|
  {
    if i == |log| {
      assert log[..i] == log;
    } else {
      var before, last := log[..|log| - 1], log[|log| - 1];
      assert before[..i] == log[..i];
      LiveRowStays(After(db, before), last, key);
      ClosedUnlessOpened(db, charges, start, before, i, key, row, now);
      SoundRuns(db, charges, start, before);
      TermsNeverChange(db, before);
      WindowStep(After(db, before), charges, Clock(start, before), last, key, row, now);
    }
  }

  // ---- Main results ----------------------------------------------------------------------------------

  /** A snapshot is listed after i events, as due at `now`, and is still the same row when it is
      marked at the end of the run. The mark is early, the snapshot not being due at `now` by
      then, if and only if in between its holder registered a credential under whose expiry the
      row's window is still open, and no hand-over since has stranded them on a row under which
      it is closed. Nothing else that can happen in between, in any order, makes a mark early.
      (A row revived after the listing has the same said of it from its revival on.) */
  lemma MarkIsEarlyExactlyWhen(db: Tables, charges: bool, start: Instant, log: seq<Entry>, i: nat, key: Key,
                               revoked: set<EntitlementId>, now: Instant)
    requires Fresh(db) && Run(db, charges, start, log) && i <= |log|
    requires DueNow(After(db, log[..i]), key, revoked, now)
    requires LiveAt(After(db, log).snapshots, key) && !RevivedSince(db, log, i, key)
    ensures !DueNow(After(db, log), key, revoked, now) <==>
            OpenedSince(db, log, i, key.holder, After(db, log).snapshots[key], now)
  {
    assert log[..|log|] == log;
    TermsNeverChange(db, log);
    TermsNeverChange(db, log[..i]);
    DueByHorizon(After(db, log[..i]), key, revoked, now);
    DueByHorizon(After(db, log), key, revoked, now);
    SameRowSince(db, log, i, key);
    ClosedUnlessOpened(db, charges, start, log, i, key, After(db, log).snapshots[key], now);
  }

  /** What step (0) takes out of the live set, if it is still the row it listed, has had its
      own notice and grace in full by the time of the sweep, counted from every `expiresAt`
      any credential of the holder had declared when it was listed: unless, since that was
      declared, a hand-over has stranded the holder (see LapseStranding). */
  lemma NothingExpiresEarly(db: Tables, charges: bool, start: Instant, log: seq<Entry>, i: nat, k: nat, key: Key,
                            revoked: set<EntitlementId>, now: Instant)
    requires Fresh(db) && Run(db, charges, start, log) && k < i <= |log|
    requires log[k].event.Registered? && log[k].event.holder == key.holder
    requires DueNow(After(db, log[..i]), key, revoked, now)
    requires LiveAt(After(db, log).snapshots, key) && !RevivedSince(db, log, i, key)
    ensures var end := After(db, log);
            var clause := EndOfPayment(end.terms, end.snapshots[key].termsId);
            || StrandedBetween(db, log, k + 1, i, key.holder)
            || (clause.Some? && log[k].event.expiresAt + clause.value.notice + clause.value.grace <= now)
  {
    TermsNeverChange(db, log);
    SameRowSince(db, log, i, key);
    ListedInTime(db, charges, start, log, i, k, key, revoked, now);
  }

  /** The same of the listing alone. */
  lemma ListedInTime(db: Tables, charges: bool, start: Instant, log: seq<Entry>, i: nat, k: nat, key: Key,
                     revoked: set<EntitlementId>, now: Instant)
    requires Fresh(db) && Run(db, charges, start, log) && k < i <= |log|
    requires log[k].event.Registered? && log[k].event.holder == key.holder
    requires DueNow(After(db, log[..i]), key, revoked, now)
    ensures LiveAt(After(db, log[..i]).snapshots, key)
    ensures StrandedBetween(db, log, k + 1, i, key.holder) ||
            Over(db.terms, After(db, log[..i]).snapshots[key], log[k].event.expiresAt, now)
  {
    DueByHorizon(After(db, log[..i]), key, revoked, now);
    TermsNeverChange(db, log[..i]);
    HorizonReached(db, charges, start, log, k, key.holder);
    NotLostUnlessStranded(db, charges, start, log, k + 1, i, key.holder);
    if !StrandedBetween(db, log, k + 1, i, key.holder) {
      var row, horizon := After(db, log[..i]).snapshots[key], HorizonOf(After(db, log[..i]), key.holder).value;
      OverMovesBack(db.terms, row, log[k].event.expiresAt, horizon, now);
    }
  }

  /** A run of the operator in which a mark is early: a snapshot is kept and its holder's
      credential runs out, the window closes, the sweep lists it, the holder renews, and only
      then is it marked. */
  lemma AnEarlyMark(db: Tables, start: Instant, grant: Grant, id: EntitlementId, again: EntitlementId,
                    expiresAt: Instant, renewed: Instant, now: Instant)
    returns (listed: seq<Entry>, log: seq<Entry>)
    requires Fresh(db) && db.snapshots == map[] && id != again && start <= expiresAt && start <= now <= renewed
    requires Over(db.terms, RowOf(grant, start), expiresAt, now)
    requires Ends(db.terms, RowOf(grant, start), renewed).None? ||
             now < Ends(db.terms, RowOf(grant, start), renewed).value
    ensures Run(db, true, start, log) && listed <= log
    ensures DueNow(After(db, listed), grant.Target(), {}, now)
    ensures LiveAt(After(db, log).snapshots, grant.Target()) && !DueNow(After(db, log), grant.Target(), {}, now)
  {
    var holder := grant.holder;
    var paid := Entry(start, Registered(holder, id, expiresAt));
    Then(db, true, start, [], paid);
    OnlyRecord(db, holder, id, expiresAt);
    var kept := Entry(start, Committed(grant, start));
    Then(db, true, start, [] + [paid], kept);
    listed := [] + [paid] + [kept];
    HorizonByRecords(After(db, listed), holder);
    RecordsAndExpiries(After(db, listed).entitlements, holder);
    DueByHorizon(After(db, listed), grant.Target(), {}, now);
    log := RenewedTooLate(db, start, listed, grant.Target(), again, renewed, now);
  }

  function RowOf(grant: Grant, at: Instant): Row {
    Row(grant.size, grant.chunkCount, grant.termsId, grant.supersedes, at, None, None)
  }

  lemma RenewedTooLate(db: Tables, start: Instant, listed: seq<Entry>, key: Key, id: EntitlementId, renewed: Instant,
                       now: Instant)
    returns (log: seq<Entry>)
    requires Fresh(db) && Run(db, true, start, listed) && Clock(start, listed) <= now <= renewed
    requires id !in After(db, listed).entitlements && LiveAt(After(db, listed).snapshots, key)
    requires var row := After(db, listed).snapshots[key];
             Ends(db.terms, row, renewed).None? || now < Ends(db.terms, row, renewed).value
    ensures log == listed + [Entry(now, Registered(key.holder, id, renewed))] && Run(db, true, start, log)
    ensures LiveAt(After(db, log).snapshots, key) && !DueNow(After(db, log), key, {}, now)
  {
    var last := Entry(now, Registered(key.holder, id, renewed));
    Then(db, true, start, listed, last);
    log := listed + [last];
    TermsNeverChange(db, listed);
    SoundRuns(db, true, start, listed);
    RenewalOpens(After(db, listed), Clock(start, listed), key, id, renewed, now);
  }

  lemma RenewalOpens(db: Tables, clock: Instant, key: Key, id: EntitlementId, renewed: Instant, now: Instant)
    requires Sound(db, clock) && clock <= now <= renewed && id !in db.entitlements && LiveAt(db.snapshots, key)
    requires var row := db.snapshots[key];
             Ends(db.terms, row, renewed).None? || now < Ends(db.terms, row, renewed).value
    ensures !DueNow(RecordEntitlement(db, key.holder, id, renewed), key, {}, now)
  {
    var after := RecordEntitlement(db, key.holder, id, renewed);
    RegisterForward(db, clock, key.holder, id, renewed, now, key.holder);
    DueByHorizon(after, key, {}, now);
    var row, horizon := db.snapshots[key], HorizonOf(after, key.holder).value;
    if Over(db.terms, row, horizon, now) {
      OverMovesBack(db.terms, row, renewed, horizon, now);
    }
  }

  lemma Then(db: Tables, charges: bool, start: Instant, log: seq<Entry>, entry: Entry)
    requires Run(db, charges, start, log) && MayHappen(After(db, log), charges, Clock(start, log), entry)
    ensures Run(db, charges, start, log + [entry]) && Clock(start, log + [entry]) == entry.at
    ensures After(db, log + [entry]) == Apply(After(db, log), entry)
  {
    assert (log + [entry])[..|log|] == log;
  }

  lemma OnlyRecord(db: Tables, holder: Holder, id: EntitlementId, expiresAt: Instant)
    requires db.entitlements == map[]
    ensures Expiries(RecordEntitlement(db, holder, id, expiresAt).entitlements, holder, {}) == {expiresAt}
    ensures MaxOf(Expiries(RecordEntitlement(db, holder, id, expiresAt).entitlements, holder, {})) == Some(expiresAt)
  {
    var after := RecordEntitlement(db, holder, id, expiresAt).entitlements;
    assert after[id].expiresAt in Expiries(after, holder, {});
  }
}
