/** Step (3c) lists the holders without a horizon in one lock section and writes their
    adoption in later ones, without asking again (sweep.rs). */
module LapseAdoptions {
  import opened Types
  import opened Tables
  import opened Lapse
  import opened Handover
  import opened LapseRuns

  /** Everything from here on carries the stamp of one sweep. */
  predicate SameSweep(log: seq<Entry>, i: nat, at: Instant) {
    forall k :: i <= k < |log| ==> log[k].at == at
  }

  /** In between the holder registered a credential that runs past this instant. */
  ghost predicate RenewedSince(log: seq<Entry>, i: nat, j: nat, holder: Holder, at: Instant) {
    exists k :: i <= k < j <= |log| && RenewsPast(log[k], holder, at)
  }

  predicate RenewsPast(entry: Entry, holder: Holder, at: Instant) {
    entry.event.Registered? && entry.event.holder == holder && at < entry.event.expiresAt
  }

  /** The holder's records run past this instant. */
  ghost predicate RunsPast(db: Tables, holder: Holder, at: Instant) {
    HasRecord(db.entitlements, holder) && HorizonOf(db, holder).Some? && at < HorizonOf(db, holder).value
  }

  /** A holder stays listed, renewed or adopted, and their records run past the instant only
      if they did or are renewed now. */
  ghost predicate StaysListed(before: Tables, after: Tables, holder: Holder, at: Instant, renews: bool) {
    StillListed(after, holder, at) && (RunsPast(after, holder, at) <==> RunsPast(before, holder, at) || renews)
  }

  /** One event of the sweep that listed the holder. */
  lemma ListedStep(db: Tables, charges: bool, clock: Instant, entry: Entry, holder: Holder)
    requires Sound(db, clock) && MayHappen(db, charges, clock, entry) && StillListed(db, holder, entry.at)
    ensures StaysListed(db, Apply(db, entry), holder, entry.at, RenewsPast(entry, holder, entry.at))
  {
    if OnlySnapshots(entry.event) {
      SameRecordsListed(db, db.(snapshots := SnapshotsAfter(db, entry)), holder, entry.at);
    } else if OnlyRows(entry.event) {
      RowsListed(db, entry, holder);
    } else {
      RecordsListed(db, charges, clock, entry, holder);
    }
  }

  lemma RowsListed(db: Tables, entry: Entry, holder: Holder)
    requires OnlyRows(entry.event) && StillListed(db, holder, entry.at)
    ensures StaysListed(db, Apply(db, entry), holder, entry.at, false)
  {
    match entry.event
    case Cleared(h) => SameRecordsListed(db, ForgetLapse(db, h), holder, entry.at);
    case AdoptionWritten(h) => AdoptionListed(db, h, entry.at, holder);
    case RefreshedRow(h, revoked) => RefreshedListed(db, h, revoked, entry.at, holder);
  }

  lemma RecordsListed(db: Tables, charges: bool, clock: Instant, entry: Entry, holder: Holder)
    requires Sound(db, clock) && MayHappen(db, charges, clock, entry) && StillListed(db, holder, entry.at)
    requires !OnlySnapshots(entry.event) && !OnlyRows(entry.event)
    ensures StaysListed(db, Apply(db, entry), holder, entry.at, RenewsPast(entry, holder, entry.at))
  {
    match entry.event
    case Registered(h, id, expiresAt) => RegisteredListed(db, clock, h, id, expiresAt, entry.at, holder);
    case HandedOver(h, revoked, floor, swept) => HandedListed(db, h, revoked, floor, swept, holder, entry.at);
    case Superseded(floor) => SupersededListed(db, floor, holder, entry.at);
  }

  lemma SupersededListed(db: Tables, floor: Instant, holder: Holder, at: Instant)
    requires StillListed(db, holder, at)
    ensures StaysListed(db, db.(entitlements := SweepSuperseded(db.entitlements, floor)), holder, at, false)
  {
    SupersedeKeepsTheLatest(db.entitlements, floor, holder);
    SameRecordsListed(db, db.(entitlements := SweepSuperseded(db.entitlements, floor)), holder, at);
  }

  lemma SameRecordsListed(before: Tables, after: Tables, holder: Holder, at: Instant)
    requires StillListed(before, holder, at)
    requires MaxOf(Expiries(after.entitlements, holder, {})) == MaxOf(Expiries(before.entitlements, holder, {}))
    requires HasRecord(after.entitlements, holder) == HasRecord(before.entitlements, holder)
    requires holder in after.lapse ==>
               after.lapse[holder].lapsedAt == at || (holder in before.lapse
                                                      && after.lapse[holder].lapsedAt == before.lapse[holder].lapsedAt)
    ensures StaysListed(before, after, holder, at, false)
  {
    HorizonByRecords(before, holder);
    HorizonByRecords(after, holder);
  }

  lemma RegisteredListed(db: Tables, clock: Instant, h: Holder, id: EntitlementId, expiresAt: Instant, at: Instant,
                         holder: Holder)
    requires Sound(db, clock) && clock <= at <= expiresAt && StillListed(db, holder, at)
    requires id in db.entitlements ==> db.entitlements[id].holder == h && db.entitlements[id].expiresAt <= expiresAt
    ensures StaysListed(db, RecordEntitlement(db, h, id, expiresAt), holder, at, h == holder && at < expiresAt)
  {
    var after := RecordEntitlement(db, h, id, expiresAt);
    if h != holder {
      RegisterSparesOthers(db, h, id, expiresAt, holder);
      SameRecordsListed(db, after, holder, at);
    } else {
      RegisterForward(db, clock, h, id, expiresAt, at, h);
      assert after.entitlements[id].holder == h;
      HorizonByRecords(db, h);
      HorizonByRecords(after, h);
      if RunsPast(after, h, at) && expiresAt <= at {
        WasThere(db, h, id, expiresAt, at);
      }
    }
  }

  /** What runs past the instant, if the new record does not, did so before. */
  lemma WasThere(db: Tables, h: Holder, id: EntitlementId, expiresAt: Instant, at: Instant)
    requires RunsPast(RecordEntitlement(db, h, id, expiresAt), h, at) && expiresAt <= at
    ensures RunsPast(db, h, at)
  {
    var after := RecordEntitlement(db, h, id, expiresAt);
    HorizonByRecords(db, h);
    HorizonByRecords(after, h);
    var top := MaxOf(Expiries(after.entitlements, h, {})).value;
    var k :| k in after.entitlements && after.entitlements[k].holder == h && after.entitlements[k].expiresAt == top;
    assert k in db.entitlements && db.entitlements[k] == after.entitlements[k];
    assert db.entitlements[k].expiresAt in Expiries(db.entitlements, h, {});
  }

  lemma HandedListed(db: Tables, h: Holder, revoked: set<EntitlementId>, floor: Instant, swept: bool, holder: Holder,
                     at: Instant)
    requires StillListed(db, holder, at) && floor <= at
    ensures var after := if swept then HandOver(db, h, revoked, floor) else RecordDerived(db, h, revoked, floor);
            StaysListed(db, after, holder, at, false)
  {
    if LosingEntitlements(db.entitlements, h, floor) {
      ListedIsNotLosing(db, holder, at, floor);
      OthersHandedListed(db, h, revoked, floor, swept, holder, at);
    }
  }

  lemma OthersHandedListed(db: Tables, h: Holder, revoked: set<EntitlementId>, floor: Instant, swept: bool,
                           holder: Holder, at: Instant)
    requires StillListed(db, holder, at) && h != holder && LosingEntitlements(db.entitlements, h, floor)
    ensures var after := if swept then HandOver(db, h, revoked, floor) else RecordDerived(db, h, revoked, floor);
            StaysListed(db, after, holder, at, false)
  {
    var after := if swept then HandOver(db, h, revoked, floor) else RecordDerived(db, h, revoked, floor);
    SweepSparesOthers(db.entitlements, h, floor, holder, {});
    SameRecordsListed(db, after, holder, at);
  }

  lemma ListedIsNotLosing(db: Tables, holder: Holder, at: Instant, floor: Instant)
    requires StillListed(db, holder, at) && floor <= at
    ensures !LosingEntitlements(db.entitlements, holder, floor)
  {
    HorizonByRecords(db, holder);
    RecordsAndExpiries(db.entitlements, holder);
  }

  lemma AdoptionListed(db: Tables, h: Holder, at: Instant, holder: Holder)
    requires StillListed(db, holder, at)
    ensures StaysListed(db, WriteAdoption(db, h, at), holder, at, false)
  {
    SameRecordsListed(db, WriteAdoption(db, h, at), holder, at);
  }

  lemma RefreshedListed(db: Tables, h: Holder, revoked: set<EntitlementId>, at: Instant, holder: Holder)
    requires StillListed(db, holder, at)
    ensures var after := if h in db.lapse then WithLapse(db, h, Refreshed(db, h, revoked, at)) else db;
            StaysListed(db, after, holder, at, false)
  {
    if h in db.lapse {
      RefreshedSameStamp(db, h, revoked, at);
      SameRecordsListed(db, WithLapse(db, h, Refreshed(db, h, revoked, at)), holder, at);
    }
  }

  /** After the first `m` events the holder is still listed, and renewed exactly when some
      event since the i-th has renewed them. */
  ghost predicate ListedAt(db: Tables, log: seq<Entry>, i: nat, m: nat, holder: Holder, at: Instant)
    requires m <= |log|
  {
    forall n: nat {:trigger Unfolded(n)} :: Unfolded(n) ==>
      && StillListed(After(db, log[..m]), holder, at)
      && (RunsPast(After(db, log[..m]), holder, at) <==> RenewedSince(log, i, m, holder, at))
  }

  lemma {:induction false} ListedStays(db: Tables, charges: bool, start: Instant, log: seq<Entry>, i: nat, m: nat,
                                       holder: Holder, at: Instant)
    requires Fresh(db) && Run(db, charges, start, log) && i <= m <= |log| && SameSweep(log, i, at)
    requires HorizonOf(After(db, log[..i]), holder).None?
    ensures ListedAt(db, log, i, m, holder, at)
    decreases m
  {
    if m == i {
      JustListed(db, log, i, holder, at);
    } else {
      ListedStays(db, charges, start, log, i, m - 1, holder, at);
      ListedNext(db, charges, start, log, i, m, holder, at);
    }
  }

  lemma JustListed(db: Tables, log: seq<Entry>, i: nat, holder: Holder, at: Instant)
    requires i <= |log| && HorizonOf(After(db, log[..i]), holder).None?
    ensures ListedAt(db, log, i, i, holder, at)
  {
    HorizonByRecords(After(db, log[..i]), holder);
    RecordsAndExpiries(After(db, log[..i]).entitlements, holder);
  }

  lemma ListedNext(db: Tables, charges: bool, start: Instant, log: seq<Entry>, i: nat, m: nat, holder: Holder,
                   at: Instant)
    requires Fresh(db) && Run(db, charges, start, log) && i < m <= |log| && log[m - 1].at == at
    requires ListedAt(db, log, i, m - 1, holder, at)
    ensures ListedAt(db, log, i, m, holder, at)
  {
    assert Unfolded(0);
    PrefixRuns(db, charges, start, log, m - 1);
    SoundRuns(db, charges, start, log[..m - 1]);
    ListedStep(After(db, log[..m - 1]), charges, Clock(start, log[..m - 1]), log[m - 1], holder);
    AfterNext(db, log, m - 1);
    RenewedNext(log, i, m - 1, holder, at);
  }

  lemma RenewedNext(log: seq<Entry>, i: nat, m: nat, holder: Holder, at: Instant)
    requires i <= m < |log|
    ensures RenewedSince(log, i, m + 1, holder, at) <==>
            RenewedSince(log, i, m, holder, at) || RenewsPast(log[m], holder, at)
  {
    if RenewedSince(log, i, m, holder, at) {
      var k :| i <= k < m && RenewsPast(log[k], holder, at);
      assert RenewedSince(log, i, m + 1, holder, at);
    } else if RenewedSince(log, i, m + 1, holder, at) {
      var k :| i <= k < m + 1 && RenewsPast(log[k], holder, at);
      assert k == m;
    }
  }

  /** Over every run: a holder is listed after i events and adopted at the end, all within one
      sweep. The write may happen whatever came in between. The row it writes tells the
      holder's horizon if and only if they did not, in between, register a credential that
      runs past the sweep's instant; if they did, it is an older row beside their record. */
  lemma AdoptionAgreesExactlyWhenUnrenewed(db: Tables, start: Instant, log: seq<Entry>, i: nat, holder: Holder,
                                           at: Instant)
    requires Fresh(db) && Run(db, true, start, log) && Clock(start, log) <= at
    requires i <= |log| && SameSweep(log, i, at) && HorizonOf(After(db, log[..i]), holder).None?
    requires Protected(After(db, log).terms, LiveRows(After(db, log).snapshots, holder), at) != {}
    ensures MayHappen(After(db, log), true, Clock(start, log), Entry(at, AdoptionWritten(holder)))
    ensures var written := Apply(After(db, log), Entry(at, AdoptionWritten(holder)));
            && holder in written.lapse
            && (HorizonOf(written, holder) == Some(written.lapse[holder].lapsedAt) <==>
                !RenewedSince(log, i, |log|, holder, at))
            && (OlderRow(written, holder) <==> RenewedSince(log, i, |log|, holder, at))
  {
    ListedStays(db, true, start, log, i, |log|, holder, at);
    assert Unfolded(0);
    assert log[..|log|] == log;
    WrittenBeside(After(db, log), holder, at);
  }

  lemma WrittenBeside(db: Tables, holder: Holder, at: Instant)
    requires StillListed(db, holder, at) && Protected(db.terms, LiveRows(db.snapshots, holder), at) != {}
    ensures var written := WriteAdoption(db, holder, at);
            && holder in written.lapse
            && (HorizonOf(written, holder) == Some(written.lapse[holder].lapsedAt) <==> !RunsPast(db, holder, at))
            && (OlderRow(written, holder) <==> RunsPast(db, holder, at))
  {
    HorizonByRecords(db, holder);
    HorizonByRecords(WriteAdoption(db, holder, at), holder);
  }
}
