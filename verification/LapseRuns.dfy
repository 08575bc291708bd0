/** Whole runs of the lapse bookkeeping: registrations, commits, erasures and every sweep
    step, statement by statement where a crash can fall between two, in any order and any of
    them left out (a crash, a failed or interrupted sweep), with clock stamps that never go
    backwards. A request that comes in while a sweep runs carries the sweep's stamp, which is
    no later than its own. Steps (0) and (3c) read in one lock section and write in others, so
    a write is an event and a listing is a look at the tables (see LapseMarks, LapseAdoptions). */
module LapseRuns {
  import opened Types
  import opened Tables
  import opened Lapse
  import opened Handover

  datatype Event =
    | Registered(holder: Holder, id: EntitlementId, expiresAt: Instant)
    | Cleared(holder: Holder)
    | Committed(grant: Grant, retainedAt: Instant)
    | Erased(key: Key)
    | FoundUnavailable(key: Key)
    | HandedOver(holder: Holder, revoked: set<EntitlementId>, floor: Instant, swept: bool)
    | Superseded(floor: Instant)
    | AdoptionWritten(holder: Holder)
    | RefreshedRow(holder: Holder, revoked: set<EntitlementId>)

  datatype Entry = Entry(at: Instant, event: Event)

  /** The events that touch nothing but snapshot rows. */
  predicate OnlySnapshots(event: Event) {
    event.Committed? || event.Erased? || event.FoundUnavailable?
  }

  /** The events that touch nothing but derived rows. */
  predicate OnlyRows(event: Event) {
    event.Cleared? || event.AdoptionWritten? || event.RefreshedRow?
  }

  ghost function SnapshotsAfter(db: Tables, entry: Entry): map<Key, Row>
    requires OnlySnapshots(entry.event)
  {
    match entry.event
    case Committed(grant, retainedAt) => Retain(db.snapshots, grant, retainedAt)
    case FoundUnavailable(key) => MarkUnavailable(db.snapshots, key, entry.at)
    case Erased(key) =>
      if LiveAt(db.snapshots, key) then db.snapshots[key := db.snapshots[key].(erasedAt := Some(entry.at))]
      else db.snapshots
  }

  ghost function Apply(db: Tables, entry: Entry): (after: Tables)
    ensures after.terms == db.terms
    ensures !OnlySnapshots(entry.event) ==> after.snapshots == db.snapshots
    ensures OnlyRows(entry.event) || OnlySnapshots(entry.event) ==> after.entitlements == db.entitlements
  {
    if OnlySnapshots(entry.event) then db.(snapshots := SnapshotsAfter(db, entry))
    else
      match entry.event
      case Registered(holder, id, expiresAt) => RecordEntitlement(db, holder, id, expiresAt)
      case Cleared(holder) => ForgetLapse(db, holder)
      case HandedOver(holder, revoked, floor, swept) =>
        if swept then HandOver(db, holder, revoked, floor) else RecordDerived(db, holder, revoked, floor)
      case Superseded(floor) => db.(entitlements := SweepSuperseded(db.entitlements, floor))
      case AdoptionWritten(holder) => WriteAdoption(db, holder, entry.at)
      case RefreshedRow(holder, revoked) =>
        if holder in db.lapse then WithLapse(db, holder, Refreshed(db, holder, revoked, entry.at)) else db
  }

  /** The adoption that step (3c) writes without asking again. */
  ghost function WriteAdoption(db: Tables, holder: Holder, now: Instant): Tables {
    match LapseStateAt(db.terms, LiveRows(db.snapshots, holder), now)
    case None => db
    case Some(state) => db.(lapse := db.lapse[holder := state])
  }

  /** All that can have become of a holder since the sweep of this instant found them without
      a horizon (see LapseAdoptions): they have renewed, or the adoption is written already. */
  ghost predicate StillListed(db: Tables, holder: Holder, at: Instant) {
    && (holder in db.lapse ==> db.lapse[holder].lapsedAt == at)
    && (HasRecord(db.entitlements, holder) ==> HorizonOf(db, holder).Some? && at <= HorizonOf(db, holder).value)
  }

  /** What may happen next. A registered credential is one still inside its validity
      window; a re-issue keeps its holder and never shortens; a derived row is cleared behind
      a record; only a charging operator registers or adopts, and it adopts whom it listed;
      a sweep's floor lies in its past. */
  ghost predicate MayHappen(db: Tables, charges: bool, clock: Instant, entry: Entry) {
    && clock <= entry.at
    && match entry.event
       case Registered(holder, id, expiresAt) =>
         && charges && entry.at <= expiresAt
         && (id in db.entitlements ==>
               db.entitlements[id].holder == holder && db.entitlements[id].expiresAt <= expiresAt)
       case Cleared(holder) => HasRecord(db.entitlements, holder)
       case HandedOver(_, _, floor, _) => floor <= entry.at
       case Superseded(floor) => floor <= entry.at
       case AdoptionWritten(holder) => charges && StillListed(db, holder, entry.at)
       case _ => true
  }

  /** A store on which nothing has been registered yet. */
  ghost predicate Fresh(db: Tables) { db.entitlements == map[] && db.lapse == map[] }

  ghost function After(db: Tables, log: seq<Entry>): Tables {
    if log == [] then db else Apply(After(db, log[..|log| - 1]), log[|log| - 1])
  }

  ghost function Clock(start: Instant, log: seq<Entry>): Instant {
    if log == [] then start else log[|log| - 1].at
  }

  ghost predicate Run(db: Tables, charges: bool, start: Instant, log: seq<Entry>) {
    log == [] ||
    var before := log[..|log| - 1];
    Run(db, charges, start, before) && MayHappen(After(db, before), charges, Clock(start, before), log[|log| - 1])
  }

  // ---- One step ------------------------------------------------------------------

  /** No derived horizon lies ahead. */
  ghost predicate Sound(db: Tables, clock: Instant) {
    forall holder :: holder in db.lapse ==> db.lapse[holder].lapsedAt <= clock
  }

  /** A horizon that stays may only grow; one that goes is in the past; one that comes
      back starts no earlier than now. */
  ghost predicate Forward(before: Option<Instant>, after: Option<Instant>, at: Instant) {
    match (before, after)
    case (Some(a), Some(b)) => a <= b
    case (None, Some(b)) => at <= b
    case (Some(a), None) => a <= at
    case (None, None) => true
  }

  /** A hand-over that deletes the records over an older row with nothing derived. */
  ghost predicate StrandsAt(db: Tables, entry: Entry, holder: Holder) {
    entry.event.HandedOver? && entry.event.swept && entry.event.holder == holder
    && Strands(db, holder, entry.event.floor)
  }

  /** Each event moves each horizon forward, or drops one already past, if and only if it
      does not strand its holder. */
  lemma StepForward(db: Tables, charges: bool, clock: Instant, entry: Entry, holder: Holder)
    requires Sound(db, clock) && MayHappen(db, charges, clock, entry)
    ensures Sound(Apply(db, entry), entry.at)
    ensures Forward(HorizonOf(db, holder), HorizonOf(Apply(db, entry), holder), entry.at) <==>
            !StrandsAt(db, entry, holder)
  {
    if OnlySnapshots(entry.event) {
      SnapshotsForward(db, SnapshotsAfter(db, entry), clock, entry.at, holder);
    } else {
      LedgerForward(db, charges, clock, entry, holder);
    }
  }

  lemma LedgerForward(db: Tables, charges: bool, clock: Instant, entry: Entry, holder: Holder)
    requires Sound(db, clock) && MayHappen(db, charges, clock, entry) && !OnlySnapshots(entry.event)
    ensures Sound(Apply(db, entry), entry.at)
    ensures Forward(HorizonOf(db, holder), HorizonOf(Apply(db, entry), holder), entry.at) <==>
            !StrandsAt(db, entry, holder)
  {
    match entry.event
    case Registered(h, id, expiresAt) => RegisterForward(db, clock, h, id, expiresAt, entry.at, holder);
    case Cleared(h) => ClearForward(db, clock, h, entry.at, holder);
    case HandedOver(h, revoked, floor, swept) => HandOverForward(db, clock, h, revoked, floor, swept, entry.at, holder);
    case Superseded(floor) => SupersedeForward(db, clock, floor, entry.at, holder);
    case AdoptionWritten(h) => AdoptForward(db, clock, h, entry.at, holder);
    case RefreshedRow(h, revoked) => RefreshForward(db, clock, h, revoked, entry.at, holder);
  }

  lemma SnapshotsForward(db: Tables, snapshots: map<Key, Row>, clock: Instant, at: Instant, holder: Holder)
    requires Sound(db, clock) && clock <= at
    ensures var after := db.(snapshots := snapshots);
            Sound(after, at) && HorizonOf(after, holder) == HorizonOf(db, holder)
  {
  }

  lemma HorizonByRecords(db: Tables, holder: Holder)
    ensures HorizonOf(db, holder) ==
            if HasRecord(db.entitlements, holder) then MaxOf(Expiries(db.entitlements, holder, {}))
            else if holder in db.lapse then Some(db.lapse[holder].lapsedAt) else None
  {
    RecordsAndExpiries(db.entitlements, holder);
  }

  lemma RegisterForward(db: Tables, clock: Instant, h: Holder, id: EntitlementId, expiresAt: Instant, at: Instant,
                        holder: Holder)
    requires Sound(db, clock) && clock <= at <= expiresAt
    requires id in db.entitlements ==> db.entitlements[id].holder == h && db.entitlements[id].expiresAt <= expiresAt
    ensures var after := RecordEntitlement(db, h, id, expiresAt);
            && Sound(after, at)
            && Forward(HorizonOf(db, holder), HorizonOf(after, holder), at)
            && HorizonOf(after, h).Some? && expiresAt <= HorizonOf(after, h).value
  {
    var after := RecordEntitlement(db, h, id, expiresAt);
    assert after.entitlements[id].expiresAt in Expiries(after.entitlements, h, {});
    HorizonByRecords(after, h);
    HorizonByRecords(db, holder);
    HorizonByRecords(after, holder);
    forall other | other != h
      ensures Expiries(after.entitlements, other, {}) == Expiries(db.entitlements, other, {})
      ensures HasRecord(after.entitlements, other) == HasRecord(db.entitlements, other)
    {
      RegisterSparesOthers(db, h, id, expiresAt, other);
    }
    if holder == h && HasRecord(db.entitlements, h) {
      RecordsAndExpiries(db.entitlements, h);
      var top := MaxOf(Expiries(db.entitlements, h, {})).value;
      var prior :| prior in db.entitlements && db.entitlements[prior].holder == h &&
        db.entitlements[prior].expiresAt == top;
      assert prior in after.entitlements && after.entitlements[prior].expiresAt in Expiries(after.entitlements, h, {});
    }
  }

  lemma RegisterSparesOthers(db: Tables, h: Holder, id: EntitlementId, expiresAt: Instant, other: Holder)
    requires other != h && (id in db.entitlements ==> db.entitlements[id].holder == h)
    ensures var after := RecordEntitlement(db, h, id, expiresAt).entitlements;
            && Expiries(after, other, {}) == Expiries(db.entitlements, other, {})
            && HasRecord(after, other) == HasRecord(db.entitlements, other)
  {
    var after := RecordEntitlement(db, h, id, expiresAt).entitlements;
    forall k | k in db.entitlements && db.entitlements[k].holder == other
      ensures k in after && after[k] == db.entitlements[k] {}
  }

  lemma ClearForward(db: Tables, clock: Instant, h: Holder, at: Instant, holder: Holder)
    requires Sound(db, clock) && clock <= at && HasRecord(db.entitlements, h)
    ensures Sound(ForgetLapse(db, h), at) && HorizonOf(ForgetLapse(db, h), holder) == HorizonOf(db, holder)
  {
    HorizonByRecords(db, holder);
    HorizonByRecords(ForgetLapse(db, h), holder);
  }

  lemma HandOverForward(db: Tables, clock: Instant, h: Holder, revoked: set<EntitlementId>, floor: Instant, swept: bool,
                        at: Instant, holder: Holder)
    requires Sound(db, clock) && clock <= at && floor <= at
    ensures var after := if swept then HandOver(db, h, revoked, floor) else RecordDerived(db, h, revoked, floor);
            && Sound(after, at)
            && (Forward(HorizonOf(db, holder), HorizonOf(after, holder), at) <==>
                !(swept && h == holder && Strands(db, holder, floor)))
  {
    if LosingEntitlements(db.entitlements, h, floor) {
      HandOverStamps(db, h, revoked, floor, at);
      if swept {
        SweptHorizon(db, h, revoked, floor, holder);
      } else {
        RecordedHorizon(db, h, revoked, floor, holder);
      }
    }
  }

  lemma HandOverStamps(db: Tables, h: Holder, revoked: set<EntitlementId>, floor: Instant, at: Instant)
    requires Sound(db, at) && floor <= at && LosingEntitlements(db.entitlements, h, floor)
    ensures HandOver(db, h, revoked, floor).lapse == RecordDerived(db, h, revoked, floor).lapse
    ensures Sound(RecordDerived(db, h, revoked, floor), at)
  {
    HorizonCarriedOver(db, h, revoked, floor, revoked);
    RevokedDoesNotMatter(db, h, revoked);
  }

  lemma RecordedHorizon(db: Tables, h: Holder, revoked: set<EntitlementId>, floor: Instant, holder: Holder)
    requires LosingEntitlements(db.entitlements, h, floor)
    ensures HorizonOf(RecordDerived(db, h, revoked, floor), holder) == HorizonOf(db, holder)
  {
    HorizonByRecords(RecordDerived(db, h, revoked, floor), holder);
    HorizonByRecords(db, holder);
  }

  lemma SweptHorizon(db: Tables, h: Holder, revoked: set<EntitlementId>, floor: Instant, holder: Holder)
    requires LosingEntitlements(db.entitlements, h, floor)
    ensures var before, after := HorizonOf(db, holder), HorizonOf(HandOver(db, h, revoked, floor), holder);
            if holder != h then after == before
            else if after.None? then before.Some? && before.value < floor
            else before.Some? && (after.value < before.value <==> Strands(db, holder, floor))
  {
    if holder == h {
      HorizonCarriedOver(db, h, revoked, floor, {});
    } else {
      SweepSparesOthers(db.entitlements, h, floor, holder, {});
      HorizonByRecords(HandOver(db, h, revoked, floor), holder);
      HorizonByRecords(db, holder);
    }
  }

  lemma SupersedeForward(db: Tables, clock: Instant, floor: Instant, at: Instant, holder: Holder)
    requires Sound(db, clock) && clock <= at
    ensures var after := db.(entitlements := SweepSuperseded(db.entitlements, floor));
            Sound(after, at) && HorizonOf(after, holder) == HorizonOf(db, holder)
  {
    var after := db.(entitlements := SweepSuperseded(db.entitlements, floor));
    forall other
      ensures MaxOf(Expiries(after.entitlements, other, {})) == MaxOf(Expiries(db.entitlements, other, {}))
      ensures HasRecord(after.entitlements, other) == HasRecord(db.entitlements, other)
    {
      SupersedeKeepsTheLatest(db.entitlements, floor, other);
    }
  }

  lemma AdoptForward(db: Tables, clock: Instant, h: Holder, at: Instant, holder: Holder)
    requires Sound(db, clock) && clock <= at
    ensures var after := WriteAdoption(db, h, at);
            Sound(after, at) && Forward(HorizonOf(db, holder), HorizonOf(after, holder), at)
  {
    HorizonByRecords(db, holder);
    HorizonByRecords(WriteAdoption(db, h, at), holder);
  }

  lemma RefreshForward(db: Tables, clock: Instant, h: Holder, revoked: set<EntitlementId>, at: Instant, holder: Holder)
    requires Sound(db, clock) && clock <= at
    ensures var after := if h in db.lapse then WithLapse(db, h, Refreshed(db, h, revoked, at)) else db;
            Sound(after, at) && Forward(HorizonOf(db, holder), HorizonOf(after, holder), at)
  {
    RecordsAndExpiries(db.entitlements, h);
  }

  // ---- Whole runs ------------------------------------------------------------------

  lemma {:induction false} SoundRuns(db: Tables, charges: bool, start: Instant, log: seq<Entry>)
    requires Fresh(db) && Run(db, charges, start, log)
    ensures Sound(After(db, log), Clock(start, log))
    decreases |log|
  {
    if log != [] {
      var before, last := log[..|log| - 1], log[|log| - 1];
      SoundRuns(db, charges, start, before);
      forall holder | holder in After(db, log).lapse ensures After(db, log).lapse[holder].lapsedAt <= last.at {
        StepForward(After(db, before), charges, Clock(start, before), last, holder);
      }
    }
  }

  /** Between the two points of the run some hand-over strands the holder. */
  ghost predicate StrandedBetween(db: Tables, log: seq<Entry>, i: nat, j: nat, holder: Holder) {
    exists k :: i <= k < j <= |log| && StrandsAt(After(db, log[..k]), log[k], holder)
  }

  /** A horizon there has been is not lost: a later one is no earlier, and while there is none
      it has passed. */
  ghost predicate NotLost(db: Tables, start: Instant, log: seq<Entry>, i: nat, j: nat, holder: Holder)
    requires i <= |log| && j <= |log|
  {
    var had, has := HorizonOf(After(db, log[..i]), holder), HorizonOf(After(db, log[..j]), holder);
    had.Some? ==> if has.Some? then had.value <= has.value else had.value <= Clock(start, log[..j])
  }

  lemma NotLostUnlessStranded(db: Tables, charges: bool, start: Instant, log: seq<Entry>, i: nat, j: nat,
                              holder: Holder)
    requires Fresh(db) && Run(db, charges, start, log) && i <= j <= |log|
    ensures NotLost(db, start, log, i, j, holder) || StrandedBetween(db, log, i, j, holder)
  {
    for m := i to j
      invariant NotLost(db, start, log, i, m, holder) || StrandedBetween(db, log, i, m, holder)
    {
      if !StrandedBetween(db, log, i, m, holder) {
        NotLostNext(db, charges, start, log, i, m, holder);
      }
      StrandedStays(db, log, i, m, holder);
    }
  }

  lemma StrandedStays(db: Tables, log: seq<Entry>, i: nat, m: nat, holder: Holder)
    requires i <= m < |log|
    ensures StrandedBetween(db, log, i, m + 1, holder) <==>
            StrandedBetween(db, log, i, m, holder) || StrandsAt(After(db, log[..m]), log[m], holder)
  {
    if StrandedBetween(db, log, i, m, holder) {
      var k :| i <= k < m && StrandsAt(After(db, log[..k]), log[k], holder);
      assert StrandedBetween(db, log, i, m + 1, holder);
    } else if StrandedBetween(db, log, i, m + 1, holder) {
      var k :| i <= k < m + 1 && StrandsAt(After(db, log[..k]), log[k], holder);
      assert k == m;
    }
  }

  lemma NotLostNext(db: Tables, charges: bool, start: Instant, log: seq<Entry>, i: nat, m: nat, holder: Holder)
    requires Fresh(db) && Run(db, charges, start, log) && i <= m < |log| && NotLost(db, start, log, i, m, holder)
    ensures NotLost(db, start, log, i, m + 1, holder) || StrandsAt(After(db, log[..m]), log[m], holder)
  {
    PrefixRuns(db, charges, start, log, m);
    SoundRuns(db, charges, start, log[..m]);
    StepForward(After(db, log[..m]), charges, Clock(start, log[..m]), log[m], holder);
    AfterNext(db, log, m);
  }

  lemma AfterNext(db: Tables, log: seq<Entry>, k: nat)
    requires k < |log|
    ensures After(db, log[..k + 1]) == Apply(After(db, log[..k]), log[k])
  {
    assert log[..k + 1][..k] == log[..k];
  }

  /** Wherever the holder has a horizon, no earlier point of the run had a later one. */
  ghost predicate NeverMovesBack(db: Tables, log: seq<Entry>, holder: Holder) {
    forall i, j :: 0 <= i <= j <= |log| ==>
      !MovedBack(HorizonOf(After(db, log[..i]), holder), HorizonOf(After(db, log[..j]), holder))
  }

  ghost predicate MovedBack(before: Option<Instant>, after: Option<Instant>) {
    before.Some? && after.Some? && after.value < before.value
  }

  /** Wherever the holder has a horizon, it is no earlier than any expiry registered so far. */
  ghost predicate HonoursEveryExpiry(db: Tables, log: seq<Entry>, holder: Holder) {
    forall k, i :: 0 <= k < i <= |log| && log[k].event.Registered? && log[k].event.holder == holder ==>
      !MovedBack(Some(log[k].event.expiresAt), HorizonOf(After(db, log[..i]), holder))
  }

  /** Over every run, crashes inside a registration and late adoptions included: a holder's
      horizon never moves back, and honours every expiry they registered, if and only if no
      hand-over of the run strands them. */
  lemma HorizonNeverMovesBackExactlyWhen(db: Tables, charges: bool, start: Instant, log: seq<Entry>, holder: Holder)
    requires Fresh(db) && Run(db, charges, start, log)
    ensures NeverMovesBack(db, log, holder) <==> !StrandedBetween(db, log, 0, |log|, holder)
    ensures HonoursEveryExpiry(db, log, holder) <==> !StrandedBetween(db, log, 0, |log|, holder)
  {
    if StrandedBetween(db, log, 0, |log|, holder) {
      var k :| 0 <= k < |log| && StrandsAt(After(db, log[..k]), log[k], holder);
      StrandingShows(db, charges, start, log, k, holder);
    } else {
      forall i, j | 0 <= i <= j <= |log|
        ensures !MovedBack(HorizonOf(After(db, log[..i]), holder), HorizonOf(After(db, log[..j]), holder))
      {
        NotLostUnlessStranded(db, charges, start, log, i, j, holder);
      }
      forall k, i | 0 <= k < i <= |log| && log[k].event.Registered? && log[k].event.holder == holder
        ensures !MovedBack(Some(log[k].event.expiresAt), HorizonOf(After(db, log[..i]), holder))
      {
        HorizonReached(db, charges, start, log, k, holder);
        NotLostUnlessStranded(db, charges, start, log, k + 1, i, holder);
      }
    }
  }

  /** A registration brings the horizon to the expiry registered, or beyond. */
  lemma HorizonReached(db: Tables, charges: bool, start: Instant, log: seq<Entry>, k: nat, holder: Holder)
    requires Fresh(db) && Run(db, charges, start, log) && k < |log|
    requires log[k].event.Registered? && log[k].event.holder == holder
    ensures var horizon := HorizonOf(After(db, log[..k + 1]), holder);
            horizon.Some? && log[k].event.expiresAt <= horizon.value
  {
    PrefixRuns(db, charges, start, log, k);
    SoundRuns(db, charges, start, log[..k]);
    var Registered(h, id, expiresAt) := log[k].event;
    RegisterForward(After(db, log[..k]), Clock(start, log[..k]), h, id, expiresAt, log[k].at, holder);
    AfterNext(db, log, k);
  }

  /** A hand-over that strands moves the horizon back at once, from an expiry that had been
      registered. */
  lemma StrandingShows(db: Tables, charges: bool, start: Instant, log: seq<Entry>, k: nat, holder: Holder)
    requires Fresh(db) && Run(db, charges, start, log) && k < |log|
    requires StrandsAt(After(db, log[..k]), log[k], holder)
    ensures !NeverMovesBack(db, log, holder) && !HonoursEveryExpiry(db, log, holder)
  {
    var before, after := After(db, log[..k]), After(db, log[..k + 1]);
    AfterNext(db, log, k);
    HandOverMovesBackExactlyWhen(before, holder, log[k].event.revoked, log[k].event.floor);
    assert MovedBack(HorizonOf(before, holder), HorizonOf(after, holder));
    RecordsAndExpiries(before.entitlements, holder);
    var id :| id in before.entitlements && before.entitlements[id].holder == holder
              && Some(before.entitlements[id].expiresAt) == HorizonOf(before, holder);
    PrefixRuns(db, charges, start, log, k);
    var r := RecordsWereRegistered(db, charges, start, log[..k], id);
    assert log[r] == log[..k][r];
  }

  /** Every record of a run was registered in it. */
  lemma {:induction false} RecordsWereRegistered(db: Tables, charges: bool, start: Instant, log: seq<Entry>,
                                                 id: EntitlementId)
    returns (k: nat)
    requires Fresh(db) && Run(db, charges, start, log) && id in After(db, log).entitlements
    ensures k < |log| && log[k].event.Registered?
    ensures Record(log[k].event.holder, log[k].event.expiresAt) == After(db, log).entitlements[id]
    decreases |log|
  {
    var before, last := log[..|log| - 1], log[|log| - 1];
    if last.event.Registered? && last.event.id == id {
      k := |log| - 1;
    } else {
      RecordStays(After(db, before), last, id);
      k := RecordsWereRegistered(db, charges, start, before, id);
    }
  }

  /** The record is the one it was, if it is there. */
  ghost predicate NotNew(before: map<EntitlementId, Record>, after: map<EntitlementId, Record>, id: EntitlementId) {
    id in after ==> id in before && after[id] == before[id]
  }

  lemma RecordStays(db: Tables, entry: Entry, id: EntitlementId)
    requires !(entry.event.Registered? && entry.event.id == id)
    ensures NotNew(db.entitlements, Apply(db, entry).entitlements, id)
  {
    if !OnlySnapshots(entry.event) && !OnlyRows(entry.event) {
      match entry.event
      case Registered(h, k, expiresAt) =>
        assert NotNew(db.entitlements, RecordEntitlement(db, h, k, expiresAt).entitlements, id);
      case HandedOver(h, revoked, floor, swept) => HandOverOnlyDeletes(db, h, revoked, floor, swept, id);
      case Superseded(floor) => assert NotNew(db.entitlements, SweepSuperseded(db.entitlements, floor), id);
    }
  }

  lemma HandOverOnlyDeletes(db: Tables, h: Holder, revoked: set<EntitlementId>, floor: Instant, swept: bool,
                            id: EntitlementId)
    ensures var after := if swept then HandOver(db, h, revoked, floor) else RecordDerived(db, h, revoked, floor);
            NotNew(db.entitlements, after.entitlements, id)
  {
  }

  lemma {:induction false} PrefixRuns(db: Tables, charges: bool, start: Instant, log: seq<Entry>, i: nat)
    requires Run(db, charges, start, log) && i <= |log|
    ensures Run(db, charges, start, log[..i])
    ensures i < |log| ==> MayHappen(After(db, log[..i]), charges, Clock(start, log[..i]), log[i])
    decreases |log|
  {
    if i == |log| {
      assert log[..i] == log;
    } else if i < |log| - 1 {
      assert log[..|log| - 1][..i] == log[..i];
      PrefixRuns(db, charges, start, log[..|log| - 1], i);
    }
  }

  /** On an operator that has never charged, no sweep of any run ever lists a snapshot to expire. */
  lemma {:induction false} FreeOperatorNeverExpires(db: Tables, start: Instant, log: seq<Entry>, holder: Holder,
                                                    revoked: set<EntitlementId>, at: Instant)
    requires Fresh(db) && Run(db, false, start, log)
    ensures Fresh(After(db, log))
    ensures PostGraceDue(After(db, log), holder, revoked, at) == map[]
  {
    if log != [] {
      FreeOperatorNeverExpires(db, start, log[..|log| - 1], holder, revoked, at);
      FreeStep(After(db, log[..|log| - 1]), Clock(start, log[..|log| - 1]), log[|log| - 1]);
    }
    var end := After(db, log);
    assert Fresh(end);
    RecordsAndExpiries(end.entitlements, holder);
    RevokedDoesNotMatter(end, holder, revoked);
  }

  lemma FreeStep(db: Tables, clock: Instant, entry: Entry)
    requires Fresh(db) && MayHappen(db, false, clock, entry)
    ensures Fresh(Apply(db, entry))
  {
  }
}
