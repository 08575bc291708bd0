/** How a hand-over comes to strand a holder: where the older rows come from, and two runs of
    the operator in which a horizon moves back and a snapshot is due too soon. */
module LapseStranding {
  import opened Types
  import opened Tables
  import opened Lapse
  import opened Handover
  import opened LapseRuns
  import opened LapseMarks

  /** Where the rows come from over which a hand-over strands: a registration whose second
      statement never ran, or an adoption written after a registration. */
  lemma OlderRowsComeFrom(db: Tables, charges: bool, clock: Instant, entry: Entry, holder: Holder)
    requires MayHappen(db, charges, clock, entry)
    requires !OlderRow(db, holder) && OlderRow(Apply(db, entry), holder)
    ensures BringsOlder(db, entry.event, holder)
  {
    if OnlySnapshots(entry.event) {
      NotOlder(db, db.(snapshots := SnapshotsAfter(db, entry)), holder);
    } else if !BringsOlder(db, entry.event, holder) {
      LedgerLeavesNoOlder(db, charges, clock, entry, holder);
    }
  }

  ghost predicate BringsOlder(db: Tables, event: Event, holder: Holder) {
    || (event.Registered? && event.holder == holder && holder in db.lapse)
    || (event.AdoptionWritten? && event.holder == holder && HasRecord(db.entitlements, holder))
  }

  lemma LedgerLeavesNoOlder(db: Tables, charges: bool, clock: Instant, entry: Entry, holder: Holder)
    requires MayHappen(db, charges, clock, entry) && !OnlySnapshots(entry.event)
    requires !OlderRow(db, holder) && !BringsOlder(db, entry.event, holder)
    ensures !OlderRow(Apply(db, entry), holder)
  {
    match entry.event
    case Registered(h, id, expiresAt) => RegisterLeavesNoOlder(db, h, id, expiresAt, holder);
    case Cleared(h) => NotOlder(db, ForgetLapse(db, h), holder);
    case HandedOver(h, revoked, floor, swept) => HandOverLeavesNoOlder(db, h, revoked, floor, swept, holder);
    case Superseded(floor) => SupersedeLeavesNoOlder(db, floor, holder);
    case AdoptionWritten(h) => AdoptionLeavesNoOlder(db, h, entry.at, holder);
    case RefreshedRow(h, revoked) => RefreshLeavesNoOlder(db, h, revoked, entry.at, holder);
  }

  lemma RegisterLeavesNoOlder(db: Tables, h: Holder, id: EntitlementId, expiresAt: Instant, holder: Holder)
    requires !OlderRow(db, holder) && (id in db.entitlements ==> db.entitlements[id].holder == h)
    ensures OlderRow(RecordEntitlement(db, h, id, expiresAt), holder) ==> h == holder && holder in db.lapse
  {
    if h != holder {
      RegisterSparesOthers(db, h, id, expiresAt, holder);
      NotOlder(db, RecordEntitlement(db, h, id, expiresAt), holder);
    }
  }

  lemma SupersedeLeavesNoOlder(db: Tables, floor: Instant, holder: Holder)
    requires !OlderRow(db, holder)
    ensures !OlderRow(db.(entitlements := SweepSuperseded(db.entitlements, floor)), holder)
  {
    SupersedeKeepsTheLatest(db.entitlements, floor, holder);
    NotOlder(db, db.(entitlements := SweepSuperseded(db.entitlements, floor)), holder);
  }

  lemma AdoptionLeavesNoOlder(db: Tables, h: Holder, at: Instant, holder: Holder)
    requires !OlderRow(db, holder)
    ensures OlderRow(WriteAdoption(db, h, at), holder) ==> h == holder && HasRecord(db.entitlements, holder)
  {
    if h != holder {
      NotOlder(db, WriteAdoption(db, h, at), holder);
    }
  }

  lemma RefreshLeavesNoOlder(db: Tables, h: Holder, revoked: set<EntitlementId>, now: Instant, holder: Holder)
    requires !OlderRow(db, holder)
    ensures !OlderRow(if h in db.lapse then WithLapse(db, h, Refreshed(db, h, revoked, now)) else db, holder)
  {
    if h in db.lapse {
      RefreshedSameStamp(db, h, revoked, now);
      NotOlder(db, WithLapse(db, h, Refreshed(db, h, revoked, now)), holder);
    }
  }

  /** With no other records and no other stamp in the row, there is no older row either. */
  lemma NotOlder(before: Tables, after: Tables, holder: Holder)
    requires !OlderRow(before, holder)
    requires HasRecord(after.entitlements, holder) ==> HasRecord(before.entitlements, holder)
    requires MaxOf(Expiries(after.entitlements, holder, {})) == MaxOf(Expiries(before.entitlements, holder, {}))
    requires holder in after.lapse ==>
               holder in before.lapse && after.lapse[holder].lapsedAt == before.lapse[holder].lapsedAt
    ensures !OlderRow(after, holder)
  {
    HorizonByRecords(before, holder);
    HorizonByRecords(after, holder);
  }

  lemma HandOverLeavesNoOlder(db: Tables, h: Holder, revoked: set<EntitlementId>, floor: Instant, swept: bool,
                              holder: Holder)
    requires !OlderRow(db, holder)
    ensures !OlderRow(if swept then HandOver(db, h, revoked, floor) else RecordDerived(db, h, revoked, floor), holder)
  {
    var after := if swept then HandOver(db, h, revoked, floor) else RecordDerived(db, h, revoked, floor);
    if LosingEntitlements(db.entitlements, h, floor) {
      if holder != h {
        SweepSparesOthers(db.entitlements, h, floor, holder, {});
        NotOlder(db, after, holder);
      } else if swept {
        HandOverEmpties(db.entitlements, h, floor);
      } else {
        DerivedIsNotOlder(db, h, revoked, floor);
      }
    }
  }

  /** What is derived tells the very horizon it is derived from. */
  lemma DerivedIsNotOlder(db: Tables, h: Holder, revoked: set<EntitlementId>, floor: Instant)
    requires !OlderRow(db, h) && LosingEntitlements(db.entitlements, h, floor)
    ensures !OlderRow(RecordDerived(db, h, revoked, floor), h)
  {
    RevokedDoesNotMatter(db, h, revoked);
    RecordedHorizon(db, h, revoked, floor, h);
  }

  // ---- Two failing runs ----------------------------------------------------------------------

  /** Times for a stranding: the horizon falls from `late` to `early`, `at` is the sweep, and a
      row of these terms is over at `now` counted from the one and open from the other. */
  ghost predicate Falls(terms: map<TermsId, TermsDocument>, row: Row, early: Instant, late: Instant, at: Instant,
                        now: Instant) {
    early < late < at <= now && Over(terms, row, early, now) && !Over(terms, row, late, now)
  }

  /** The common end of both runs: the last snapshot is erased, the sweep deletes the record
      and derives nothing, and an upload granted before is committed. */
  lemma Uncovered(db: Tables, start: Instant, log: seq<Entry>, grant: Grant, early: Instant, late: Instant,
                  at: Instant, now: Instant)
    returns (end: seq<Entry>)
    requires Fresh(db) && Run(db, true, start, log) && Clock(start, log) <= at
    requires Falls(db.terms, RowOf(grant, at), early, late, at, now)
    requires var s := After(db, log);
             && s.terms == db.terms && s.snapshots.Keys <= {grant.Target()}
             && Expiries(s.entitlements, grant.holder, {}) == {late}
             && grant.holder in s.lapse && s.lapse[grant.holder].lapsedAt == early
    ensures Run(db, true, start, end) && log <= end
    ensures HorizonOf(After(db, log), grant.holder) == Some(late)
    ensures HorizonOf(After(db, end), grant.holder) == Some(early)
    ensures DueNow(After(db, end), grant.Target(), {}, now)
    ensures LiveAt(After(db, end).snapshots, grant.Target())
    ensures !Over(db.terms, After(db, end).snapshots[grant.Target()], late, now)
  {
    var bared := Bared(db, start, log, grant.Target(), early, late, at);
    var keep := Entry(at, Committed(grant, at));
    Then(db, true, start, bared, keep);
    end := bared + [keep];
    KeptTooLate(After(db, bared), keep, grant, early, now);
  }

  /** The first half of it: the erasure, and the hand-over that uncovers the older row. */
  lemma Bared(db: Tables, start: Instant, log: seq<Entry>, key: Key, early: Instant, late: Instant, at: Instant)
    returns (end: seq<Entry>)
    requires Fresh(db) && Run(db, true, start, log) && Clock(start, log) <= at && early < late < at
    requires var s := After(db, log);
             && s.terms == db.terms && s.snapshots.Keys <= {key} && Expiries(s.entitlements, key.holder, {}) == {late}
             && key.holder in s.lapse && s.lapse[key.holder].lapsedAt == early
    ensures Run(db, true, start, end) && Clock(start, end) == at && log <= end
    ensures HorizonOf(After(db, log), key.holder) == Some(late) && HorizonOf(After(db, end), key.holder) == Some(early)
    ensures After(db, end).terms == db.terms && !LiveAt(After(db, end).snapshots, key)
  {
    var erase, sweep := Entry(at, Erased(key)), Entry(at, HandedOver(key.holder, {}, at, true));
    Then(db, true, start, log, erase);
    EmptiesOut(After(db, log), erase, key.holder, key);
    Then(db, true, start, log + [erase], sweep);
    FallsBack(After(db, log), After(db, log + [erase]), key.holder, early, late, at);
    end := log + [erase] + [sweep];
  }

  /** What is kept now is due at once, if its window under the horizon is closed. */
  lemma KeptTooLate(db: Tables, entry: Entry, grant: Grant, early: Instant, now: Instant)
    requires entry.event == Committed(grant, entry.at) && !LiveAt(db.snapshots, grant.Target())
    requires HorizonOf(db, grant.holder) == Some(early) && Over(db.terms, RowOf(grant, entry.at), early, now)
    ensures var after := Apply(db, entry);
            && HorizonOf(after, grant.holder) == Some(early) && DueNow(after, grant.Target(), {}, now)
            && LiveAt(after.snapshots, grant.Target()) && after.snapshots[grant.Target()] == RowOf(grant, entry.at)
  {
    DueByHorizon(Apply(db, entry), grant.Target(), {}, now);
  }

  /** With nothing live, the hand-over brings the horizon back to the older row. */
  lemma FallsBack(before: Tables, bare: Tables, holder: Holder, early: Instant, late: Instant, floor: Instant)
    requires bare.entitlements == before.entitlements && bare.lapse == before.lapse && late < floor
    requires Expiries(bare.entitlements, holder, {}) == {late} && LiveRows(bare.snapshots, holder) == map[]
    requires holder in bare.lapse && bare.lapse[holder].lapsedAt == early
    ensures HorizonOf(before, holder) == Some(late)
    ensures HorizonOf(HandOver(bare, holder, {}, floor), holder) == Some(early)
  {
    RecordsAndExpiries(bare.entitlements, holder);
    HorizonByRecords(before, holder);
    HorizonByRecords(bare, holder);
    LosingAll(bare.entitlements, holder, late, floor);
    NothingLive(bare.terms, LiveRows(bare.snapshots, holder), late);
    HorizonCarriedOver(bare, holder, {}, floor, {});
  }

  lemma EmptiesOut(db: Tables, entry: Entry, holder: Holder, key: Key)
    requires entry.event == Erased(key) && key.holder == holder && db.snapshots.Keys <= {key}
    ensures var after := Apply(db, entry);
            && LiveRows(after.snapshots, holder) == map[] && !LiveAt(after.snapshots, key)
            && after.entitlements == db.entitlements && after.lapse == db.lapse
  {
  }

  lemma NothingLive(terms: map<TermsId, TermsDocument>, rows: map<Digest, Row>, lapsedAt: Instant)
    requires rows == map[]
    ensures Protected(terms, rows, lapsedAt) == {}
  {
  }

  lemma LosingAll(entitlements: map<EntitlementId, Record>, holder: Holder, expiresAt: Instant, floor: Instant)
    requires Expiries(entitlements, holder, {}) == {expiresAt} && expiresAt < floor
    ensures LosingEntitlements(entitlements, holder, floor)
  {
    RecordsAndExpiries(entitlements, holder);
    forall id | id in entitlements && entitlements[id].holder == holder ensures entitlements[id].expiresAt < floor {
      assert entitlements[id].expiresAt in Expiries(entitlements, holder, {});
    }
  }

  /** A run of the operator in which a crash strands a holder. Their first credential lapses
      and is handed over; they renew, and the process dies between the two statements of the
      registration; the renewed credential lapses with nothing left to protect, so the sweep
      deletes it and keeps the row of the first lapse. A snapshot kept after that is due
      although its window from the renewed expiry is open. */
  lemma CrashInRegistrationStrands(db: Tables, start: Instant, grant: Grant, id: EntitlementId, again: EntitlementId,
                                   early: Instant, swept: Instant, late: Instant, at: Instant, now: Instant)
    returns (renewed: seq<Entry>, end: seq<Entry>)
    requires Fresh(db) && db.snapshots == map[] && start <= early < swept <= late
    requires Falls(db.terms, RowOf(grant, at), early, late, at, now)
    ensures Run(db, true, start, end) && renewed <= end
    ensures HorizonOf(After(db, renewed), grant.holder) == Some(late)
    ensures HorizonOf(After(db, end), grant.holder) == Some(early)
    ensures DueNow(After(db, end), grant.Target(), {}, now) && LiveAt(After(db, end).snapshots, grant.Target())
    ensures !Over(db.terms, After(db, end).snapshots[grant.Target()], late, now)
  {
    var h := grant.holder;
    var lapsed := HandedOnce(db, start, grant, id, early, swept);
    var renew := Entry(swept, Registered(h, again, late));
    Then(db, true, start, lapsed, renew);
    renewed := lapsed + [renew];
    OnlyRecord(After(db, lapsed), h, again, late);
    end := Uncovered(db, start, renewed, grant, early, late, at, now);
  }

  /** A snapshot is kept, its holder's only credential lapses, and the sweep hands it over. */
  lemma HandedOnce(db: Tables, start: Instant, grant: Grant, id: EntitlementId, early: Instant, swept: Instant)
    returns (log: seq<Entry>)
    requires Fresh(db) && db.snapshots == map[] && start <= early < swept
    requires Ends(db.terms, RowOf(grant, start), early).Some?
    ensures Run(db, true, start, log) && Clock(start, log) == swept
    ensures var s := After(db, log);
            && s.terms == db.terms && s.snapshots == map[grant.Target() := RowOf(grant, start)]
            && s.entitlements == map[] && grant.holder in s.lapse && s.lapse[grant.holder].lapsedAt == early
  {
    var h := grant.holder;
    var paid, clear, kept, sweep := Entry(start, Registered(h, id, early)), Entry(start, Cleared(h)),
      Entry(start, Committed(grant, start)), Entry(swept, HandedOver(h, {}, swept, true));
    Then(db, true, start, [], paid);
    OnlyRecord(db, h, id, early);
    RecordsAndExpiries(After(db, [] + [paid]).entitlements, h);
    Then(db, true, start, [] + [paid], clear);
    Then(db, true, start, [] + [paid] + [clear], kept);
    var before := After(db, [] + [paid] + [clear] + [kept]);
    Then(db, true, start, [] + [paid] + [clear] + [kept], sweep);
    log := [] + [paid] + [clear] + [kept] + [sweep];
    LosingAll(before.entitlements, h, early, swept);
    HorizonByRecords(before, h);
    KeptIsProtected(before, grant, start, early);
    HorizonCarriedOver(before, h, {}, swept, {});
  }

  /** A run of the operator in which a late adoption strands a holder. Step (3c) lists them,
      they register, and the adoption is written beside the record; the rest is as above. */
  lemma LateAdoptionStrands(db: Tables, start: Instant, grant: Grant, id: EntitlementId, early: Instant, late: Instant,
                            at: Instant, now: Instant)
    returns (listed: seq<Entry>, adopted: seq<Entry>, end: seq<Entry>)
    requires Fresh(db) && db.snapshots == map[] && start <= early
    requires Falls(db.terms, RowOf(grant, at), early, late, at, now)
    ensures Run(db, true, start, end)
    ensures listed <= adopted && adopted <= end
    ensures HorizonOf(After(db, listed), grant.holder).None?
    ensures forall k :: |listed| <= k < |adopted| ==> adopted[k].at == early
    ensures HorizonOf(After(db, adopted), grant.holder) == Some(late)
    ensures HorizonOf(After(db, end), grant.holder) == Some(early)
    ensures DueNow(After(db, end), grant.Target(), {}, now) && LiveAt(After(db, end).snapshots, grant.Target())
    ensures !Over(db.terms, After(db, end).snapshots[grant.Target()], late, now)
  {
    listed, adopted := AdoptedLate(db, start, grant, id, early, late);
    end := Uncovered(db, start, adopted, grant, early, late, at, now);
  }

  lemma AdoptedLate(db: Tables, start: Instant, grant: Grant, id: EntitlementId, early: Instant, late: Instant)
    returns (listed: seq<Entry>, adopted: seq<Entry>)
    requires Fresh(db) && db.snapshots == map[] && start <= early < late
    requires Ends(db.terms, RowOf(grant, start), early).Some?
    ensures Run(db, true, start, adopted) && listed <= adopted
    ensures HorizonOf(After(db, listed), grant.holder).None? && Clock(start, adopted) == early
    ensures forall k :: |listed| <= k < |adopted| ==> adopted[k].at == early
    ensures var s := After(db, adopted);
            && s.terms == db.terms && s.snapshots.Keys == {grant.Target()}
            && Expiries(s.entitlements, grant.holder, {}) == {late}
            && grant.holder in s.lapse && s.lapse[grant.holder].lapsedAt == early
  {
    var h := grant.holder;
    var kept, paid, clear, write := Entry(start, Committed(grant, start)), Entry(early, Registered(h, id, late)),
      Entry(early, Cleared(h)), Entry(early, AdoptionWritten(h));
    Then(db, true, start, [], kept);
    listed := [] + [kept];
    RecordsAndExpiries(After(db, listed).entitlements, h);
    Then(db, true, start, listed, paid);
    OnlyRecord(After(db, listed), h, id, late);
    RecordsAndExpiries(After(db, listed + [paid]).entitlements, h);
    Then(db, true, start, listed + [paid], clear);
    var before := After(db, listed + [paid] + [clear]);
    RecordedBeside(before, h, late);
    Then(db, true, start, listed + [paid] + [clear], write);
    adopted := listed + [paid] + [clear] + [write];
    KeptIsProtected(before, grant, start, early);
  }

  lemma RecordedBeside(db: Tables, holder: Holder, late: Instant)
    requires holder !in db.lapse && Expiries(db.entitlements, holder, {}) == {late}
    ensures HorizonOf(db, holder) == Some(late) && (forall at :: at <= late ==> StillListed(db, holder, at))
  {
    RecordsAndExpiries(db.entitlements, holder);
    HorizonByRecords(db, holder);
  }

  lemma KeptIsProtected(db: Tables, grant: Grant, retainedAt: Instant, lapsedAt: Instant)
    requires db.snapshots == map[grant.Target() := RowOf(grant, retainedAt)]
    requires Ends(db.terms, RowOf(grant, retainedAt), lapsedAt).Some?
    ensures Protected(db.terms, LiveRows(db.snapshots, grant.holder), lapsedAt) != {}
  {
    assert LiveAt(db.snapshots, Key(grant.holder, grant.digest));
    assert grant.digest in Protected(db.terms, LiveRows(db.snapshots, grant.holder), lapsedAt);
  }
}
