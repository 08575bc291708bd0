/** The sweep steps that carry a lapse horizon from the entitlement records to the
    derived row and retire the row: (0), (3b), (3c) and (3d) of sweep.rs. */
module Handover {
  import opened Types
  import opened Tables
  import opened Lapse

  // ---- The steps, one holder at a time ---------------------------------------

  /** Step (0): what is due and declares `erase` stops being live. */
  ghost function ExpireDue(db: Tables, holder: Holder, revoked: set<EntitlementId>, now: Instant): map<Key, Row> {
    var due := PostGraceDue(db, holder, revoked, now);
    map key | key in db.snapshots ::
      if key.holder == holder && key.digest in due && due[key.digest] == "erase"
      then db.snapshots[key].(retainedUntil := Some(now)) else db.snapshots[key]
  }

  ghost function DerivedState(db: Tables, holder: Holder, revoked: set<EntitlementId>): Option<LapseState> {
    match LifecycleHorizon(db, holder, revoked)
    case None => None
    case Some(lapsedAt) => LapseStateAt(db.terms, LiveRows(db.snapshots, holder), lapsedAt)
  }

  /** The write half of step (3b): the horizon goes into the derived row. */
  ghost function RecordDerived(db: Tables, holder: Holder, revoked: set<EntitlementId>, floor: Instant): (after: Tables)
    ensures after.terms == db.terms && after.snapshots == db.snapshots
  {
    if !LosingEntitlements(db.entitlements, holder, floor) then db
    else
      match DerivedState(db, holder, revoked)
      case None => db
      case Some(state) => db.(lapse := db.lapse[holder := state])
  }

  /** Step (3b) for a holder losing every record: derive first, then delete. */
  ghost function HandOver(db: Tables, holder: Holder, revoked: set<EntitlementId>, floor: Instant): (after: Tables)
    ensures after.terms == db.terms && after.snapshots == db.snapshots
  {
    if !LosingEntitlements(db.entitlements, holder, floor) then db
    else
      var recorded := RecordDerived(db, holder, revoked, floor);
      recorded.(entitlements := SweepEntitlements(recorded.entitlements, holder, floor))
  }

  /** All of step (3b): the listed holders one by one, then everyone else's old records. */
  ghost function HandOverPass(db: Tables, losing: seq<Holder>, revoked: set<EntitlementId>, floor: Instant): Tables
    decreases losing
  {
    if losing == [] then db.(entitlements := SweepSuperseded(db.entitlements, floor))
    else HandOverPass(HandOver(db, losing[0], revoked, floor), losing[1..], revoked, floor)
  }

  /** Step (3c): the lapse row a holder has once unrecorded holders are adopted. */
  ghost function Adopted(db: Tables, holder: Holder, revoked: set<EntitlementId>, now: Instant): Option<LapseState> {
    if LifecycleHorizon(db, holder, revoked).None? then LapseStateAt(db.terms, LiveRows(db.snapshots, holder), now)
    else if holder in db.lapse then Some(db.lapse[holder]) else None
  }

  /** Step (3d): the lapse row re-derived from the snapshots, or None when it is retired. */
  ghost function Refreshed(db: Tables, holder: Holder, revoked: set<EntitlementId>, now: Instant): Option<LapseState>
    requires holder in db.lapse
  {
    match LapseStateAt(db.terms, LiveRows(db.snapshots, holder), db.lapse[holder].lapsedAt)
    case None => None
    case Some(current) =>
      var rewritten := db.(lapse := db.lapse[holder := current]);
      if current.graceExpiresAt <= now && current.postGraceAction == "erase" &&
        PostGraceDue(rewritten, holder, revoked, now) == map[]
      then None
      else Some(current)
  }

  lemma RefreshedSameStamp(db: Tables, h: Holder, revoked: set<EntitlementId>, now: Instant)
    requires h in db.lapse
    ensures Refreshed(db, h, revoked, now).Some? ==>
              Refreshed(db, h, revoked, now).value.lapsedAt == db.lapse[h].lapsedAt
  {
  }

  function WithLapse(db: Tables, holder: Holder, state: Option<LapseState>): Tables {
    db.(lapse := if state.Some? then db.lapse[holder := state.value] else db.lapse - {holder})
  }

  // ---- Records and horizons ----------------------------------------------------

  /** The horizon, which no revocation moves. */
  ghost function HorizonOf(db: Tables, holder: Holder): Option<Instant> { LifecycleHorizon(db, holder, {}) }

  lemma RevokedDoesNotMatter(db: Tables, holder: Holder, revoked: set<EntitlementId>)
    ensures LifecycleHorizon(db, holder, revoked) == HorizonOf(db, holder)
  {
  }

  /** No live snapshot has a readable window that counts from the holder's horizon. */
  ghost predicate OwesNothing(db: Tables, holder: Holder)
    requires HorizonOf(db, holder).Some?
  {
    Protected(db.terms, LiveRows(db.snapshots, holder), HorizonOf(db, holder).value) == {}
  }

  /** A record, and beside it a derived row that tells an earlier horizon: what a crash inside
      a registration leaves, and an adoption written after one. */
  ghost predicate OlderRow(db: Tables, holder: Holder) {
    && HasRecord(db.entitlements, holder) && holder in db.lapse
    && HorizonOf(db, holder).Some? && db.lapse[holder].lapsedAt < HorizonOf(db, holder).value
  }

  /** Deleting the holder's records uncovers an older row: nothing is derived, so nothing is
      written over it. */
  ghost predicate Strands(db: Tables, holder: Holder, floor: Instant) {
    LosingEntitlements(db.entitlements, holder, floor) && OlderRow(db, holder) && OwesNothing(db, holder)
  }

  /** And the uncovered row has windows of its own to tell. */
  ghost predicate Resurfaces(db: Tables, holder: Holder, floor: Instant) {
    && Strands(db, holder, floor)
    && Protected(db.terms, LiveRows(db.snapshots, holder), db.lapse[holder].lapsedAt) != {}
  }

  lemma RecordsAndExpiries(entitlements: map<EntitlementId, Record>, holder: Holder)
    ensures HasRecord(entitlements, holder) <==> Expiries(entitlements, holder, {}) != {}
  {
    if HasRecord(entitlements, holder) {
      var id :| id in entitlements && entitlements[id].holder == holder;
      assert entitlements[id].expiresAt in Expiries(entitlements, holder, {});
    } else {
      assert forall x :: x !in Expiries(entitlements, holder, {});
    }
  }

  lemma HandOverEmpties(entitlements: map<EntitlementId, Record>, holder: Holder, floor: Instant)
    requires LosingEntitlements(entitlements, holder, floor)
    ensures !HasRecord(SweepEntitlements(entitlements, holder, floor), holder)
  {
  }

  lemma SweepSparesOthers(entitlements: map<EntitlementId, Record>, holder: Holder, floor: Instant, other: Holder,
                          without: set<EntitlementId>)
    requires other != holder
    ensures Expiries(SweepEntitlements(entitlements, holder, floor), other, without) ==
            Expiries(entitlements, other, without)
    ensures HasRecord(SweepEntitlements(entitlements, holder, floor), other) == HasRecord(entitlements, other)
  {
    var swept := SweepEntitlements(entitlements, holder, floor);
    forall id | id in entitlements && entitlements[id].holder == other ensures id in swept {}
  }

  /** Superseding keeps every holder's latest record, so every holder's horizon. */
  lemma SupersedeKeepsTheLatest(entitlements: map<EntitlementId, Record>, floor: Instant, holder: Holder)
    ensures MaxOf(Expiries(SweepSuperseded(entitlements, floor), holder, {})) ==
            MaxOf(Expiries(entitlements, holder, {}))
    ensures HasRecord(SweepSuperseded(entitlements, floor), holder) == HasRecord(entitlements, holder)
  {
    var kept := SweepSuperseded(entitlements, floor);
    var all := Expiries(entitlements, holder, {});
    assert Expiries(kept, holder, {}) <= all;
    if all != {} {
      var top := MaxOf(all).value;
      var id :| id in entitlements && entitlements[id].holder == holder && entitlements[id].expiresAt == top;
      assert id in kept by {
        if KeepsOne(entitlements, holder, floor) {
          var other :| other in entitlements && entitlements[other].holder == holder &&
            floor <= entitlements[other].expiresAt;
          assert entitlements[other].expiresAt in all;
        }
      }
      assert top in Expiries(kept, holder, {});
    }
    RecordsAndExpiries(entitlements, holder);
    RecordsAndExpiries(kept, holder);
  }

  // ---- The hand-over cannot be observed ------------------------------------------

  /** Two stores answer a holder alike: same gate for every credential-less request and
      the same snapshots due. */
  ghost predicate SameAnswers(a: Tables, b: Tables, charges: bool, holder: Holder, operation: Operation,
                              revoked: set<EntitlementId>, at: Instant) {
    && Require(a, charges, holder, operation, revoked, at) == Require(b, charges, holder, operation, revoked, at)
    && PostGraceDue(a, holder, revoked, at) == PostGraceDue(b, holder, revoked, at)
  }

  /** The access a holder has once every record is in the past. */
  lemma PastRecordsDoNotEntitle(db: Tables, holder: Holder, revoked: set<EntitlementId>, at: Instant)
    requires forall x :: x in Expiries(db.entitlements, holder, {}) ==> x <= at
    ensures !Evaluate(db, holder, revoked, at).Entitled?
  {
    assert Expiries(db.entitlements, holder, revoked) <= Expiries(db.entitlements, holder, {});
  }

  lemma SameHorizonSameAnswers(a: Tables, b: Tables, charges: bool, holder: Holder, operation: Operation,
                               revoked: set<EntitlementId>, at: Instant)
    requires a.terms == b.terms && a.snapshots == b.snapshots
    requires LifecycleHorizon(a, holder, revoked) == LifecycleHorizon(b, holder, revoked)
    requires HasRecord(a.entitlements, holder) == HasRecord(b.entitlements, holder) ||
             LifecycleHorizon(a, holder, revoked).Some?
    requires !Evaluate(a, holder, revoked, at).Entitled? && !Evaluate(b, holder, revoked, at).Entitled?
    ensures SameAnswers(a, b, charges, holder, operation, revoked, at)
  {
  }

  lemma SameRecordsSameAnswers(a: Tables, b: Tables, charges: bool, holder: Holder, operation: Operation,
                               revoked: set<EntitlementId>, at: Instant)
    requires a.terms == b.terms && a.snapshots == b.snapshots
    requires holder in a.lapse <==> holder in b.lapse
    requires holder in a.lapse ==> a.lapse[holder] == b.lapse[holder]
    requires Expiries(a.entitlements, holder, {}) == Expiries(b.entitlements, holder, {})
    requires Expiries(a.entitlements, holder, revoked) == Expiries(b.entitlements, holder, revoked)
    requires HasRecord(a.entitlements, holder) == HasRecord(b.entitlements, holder)
    ensures SameAnswers(a, b, charges, holder, operation, revoked, at)
  {
    assert EntitlementHorizon(a.entitlements, holder, revoked) == EntitlementHorizon(b.entitlements, holder, revoked);
    assert LifecycleHorizon(a, holder, revoked) == LifecycleHorizon(b, holder, revoked);
    assert Evaluate(a, holder, revoked, at) == Evaluate(b, holder, revoked, at);
  }

  lemma HandOverKeepsAnswers(db: Tables, gone: Holder, sweptUnder: set<EntitlementId>, floor: Instant,
                             charges: bool, holder: Holder, operation: Operation, revoked: set<EntitlementId>,
                             at: Instant)
    requires floor <= at && (holder == gone ==> !Resurfaces(db, holder, floor))
    ensures SameAnswers(db, HandOver(db, gone, sweptUnder, floor), charges, holder, operation, revoked, at)
  {
    if LosingEntitlements(db.entitlements, gone, floor) {
      if holder != gone {
        HandOverSparesOthers(db, gone, sweptUnder, floor, charges, holder, operation, revoked, at);
      } else {
        HandOverKeepsTheirAnswers(db, gone, sweptUnder, floor, charges, operation, revoked, at);
      }
    }
  }

  lemma HandOverSparesOthers(db: Tables, gone: Holder, sweptUnder: set<EntitlementId>, floor: Instant,
                             charges: bool, holder: Holder, operation: Operation, revoked: set<EntitlementId>,
                             at: Instant)
    requires holder != gone && LosingEntitlements(db.entitlements, gone, floor)
    ensures SameAnswers(db, HandOver(db, gone, sweptUnder, floor), charges, holder, operation, revoked, at)
  {
    SweepSparesOthers(db.entitlements, gone, floor, holder, {});
    SweepSparesOthers(db.entitlements, gone, floor, holder, revoked);
    SameRecordsSameAnswers(db, HandOver(db, gone, sweptUnder, floor), charges, holder, operation, revoked, at);
  }

  lemma HandOverKeepsTheirAnswers(db: Tables, holder: Holder, sweptUnder: set<EntitlementId>, floor: Instant,
                                  charges: bool, operation: Operation, revoked: set<EntitlementId>, at: Instant)
    requires floor <= at && LosingEntitlements(db.entitlements, holder, floor) && !Resurfaces(db, holder, floor)
    ensures SameAnswers(db, HandOver(db, holder, sweptUnder, floor), charges, holder, operation, revoked, at)
  {
    var after := HandOver(db, holder, sweptUnder, floor);
    HorizonCarriedOver(db, holder, sweptUnder, floor, revoked);
    RevokedDoesNotMatter(db, holder, revoked);
    PastRecordsDoNotEntitle(db, holder, revoked, at);
    PastRecordsDoNotEntitle(after, holder, revoked, at);
    if !OwesNothing(db, holder) {
      SameHorizonSameAnswers(db, after, charges, holder, operation, revoked, at);
    } else if holder in db.lapse {
      UncoveredOwesNothing(db, holder, floor);
      NothingOwedLapsed(db, holder, revoked, at);
      NothingOwedLapsed(after, holder, revoked, at);
    } else {
      NothingOwedSameAnswers(db, after, charges, holder, operation, revoked, at);
    }
  }

  /** Where the horizon protects nothing, neither does a later one. */
  lemma UncoveredOwesNothing(db: Tables, holder: Holder, floor: Instant)
    requires LosingEntitlements(db.entitlements, holder, floor) && !Resurfaces(db, holder, floor)
    requires HorizonOf(db, holder).Some? && OwesNothing(db, holder) && holder in db.lapse
    ensures Protected(db.terms, LiveRows(db.snapshots, holder), db.lapse[holder].lapsedAt) == {}
  {
    var row, horizon := db.lapse[holder].lapsedAt, HorizonOf(db, holder).value;
    if horizon <= row {
      ProtectedEarlier(db.terms, LiveRows(db.snapshots, holder), horizon, row);
    }
  }

  /** A longer-gone lapse protects everything a later one does. */
  lemma ProtectedEarlier(terms: map<TermsId, TermsDocument>, rows: map<Digest, Row>, early: Instant, late: Instant)
    requires early <= late
    ensures Protected(terms, rows, late) <= Protected(terms, rows, early)
  {
    forall d | d in Protected(terms, rows, late) ensures d in Protected(terms, rows, early) {
      assert Ends(terms, rows[d], late).Some?;
    }
  }

  /** A horizon that protects nothing refuses and expires as much as no horizon at all:
      `Lapsed` becomes `Unpaid`, and the refusal is the same. */
  lemma NothingOwedSameAnswers(a: Tables, b: Tables, charges: bool, holder: Holder, operation: Operation,
                               revoked: set<EntitlementId>, at: Instant)
    requires !Evaluate(a, holder, revoked, at).Entitled? && !Evaluate(b, holder, revoked, at).Entitled?
    requires LifecycleHorizon(a, holder, revoked).Some? && LifecycleHorizon(b, holder, revoked).None? &&
             !HasRecord(b.entitlements, holder)
    requires Protected(a.terms, LiveRows(a.snapshots, holder), LifecycleHorizon(a, holder, revoked).value) == {}
    ensures SameAnswers(a, b, charges, holder, operation, revoked, at)
  {
    NothingOwedLapsed(a, holder, revoked, at);
    assert Evaluate(b, holder, revoked, at) == Unpaid;
  }

  lemma NothingOwedLapsed(db: Tables, holder: Holder, revoked: set<EntitlementId>, at: Instant)
    requires !Evaluate(db, holder, revoked, at).Entitled? && LifecycleHorizon(db, holder, revoked).Some?
    requires Protected(db.terms, LiveRows(db.snapshots, holder), LifecycleHorizon(db, holder, revoked).value) == {}
    ensures Evaluate(db, holder, revoked, at) == Lapsed && PostGraceDue(db, holder, revoked, at) == map[]
  {
    NothingProtected(db.terms, LiveRows(db.snapshots, holder), LifecycleHorizon(db, holder, revoked).value, at);
  }

  /** What the horizon is on either side of the hand-over: the same while anything is
      protected, and otherwise what a derived row that was there already tells. */
  lemma HorizonCarriedOver(db: Tables, holder: Holder, sweptUnder: set<EntitlementId>, floor: Instant,
                           revoked: set<EntitlementId>)
    requires LosingEntitlements(db.entitlements, holder, floor)
    ensures var after := HandOver(db, holder, sweptUnder, floor);
            && !HasRecord(after.entitlements, holder) && Expiries(after.entitlements, holder, {}) == {}
            && HorizonOf(db, holder).Some? && HorizonOf(db, holder).value < floor
            && LifecycleHorizon(after, holder, revoked) ==
               if !OwesNothing(db, holder) then LifecycleHorizon(db, holder, revoked)
               else if holder in db.lapse then Some(db.lapse[holder].lapsedAt) else None
  {
    var after := HandOver(db, holder, sweptUnder, floor);
    RecordsAndExpiries(db.entitlements, holder);
    RecordsAndExpiries(after.entitlements, holder);
    HandOverEmpties(db.entitlements, holder, floor);
    assert MaxOf(Expiries(db.entitlements, holder, {})).value < floor;
    RevokedDoesNotMatter(db, holder, sweptUnder);
  }

  /** From any tables whatever: the hand-over of a holder moves their horizon back if and only
      if it strands them, which it could ask before it deletes. */
  lemma HandOverMovesBackExactlyWhen(db: Tables, holder: Holder, sweptUnder: set<EntitlementId>, floor: Instant)
    requires HorizonOf(db, holder).Some?
    ensures var after := HorizonOf(HandOver(db, holder, sweptUnder, floor), holder);
            after.Some? && after.value < HorizonOf(db, holder).value <==> Strands(db, holder, floor)
  {
    if LosingEntitlements(db.entitlements, holder, floor) {
      HorizonCarriedOver(db, holder, sweptUnder, floor, {});
    }
  }

  lemma NothingProtected(terms: map<TermsId, TermsDocument>, rows: map<Digest, Row>, lapsedAt: Instant, at: Instant)
    requires Protected(terms, rows, lapsedAt) == {}
    ensures GraceFrom(terms, rows, lapsedAt, at) == Lapsed && DueFrom(terms, rows, lapsedAt, at) == map[]
  {
    assert forall d :: d in rows ==> d !in Protected(terms, rows, lapsedAt);
  }

  lemma SupersedeKeepsAnswers(db: Tables, floor: Instant,
                              charges: bool, holder: Holder, operation: Operation, revoked: set<EntitlementId>,
                              at: Instant)
    requires floor <= at
    ensures SameAnswers(db, db.(entitlements := SweepSuperseded(db.entitlements, floor)), charges, holder, operation,
                        revoked, at)
  {
    var after := db.(entitlements := SweepSuperseded(db.entitlements, floor));
    SupersedeKeepsTheLatest(db.entitlements, floor, holder);
    SupersedeKeepsEntitled(db, floor, holder, revoked, at);
    if Evaluate(db, holder, revoked, at).Entitled? {
      assert LifecycleHorizon(after, holder, revoked) == LifecycleHorizon(db, holder, revoked);
    } else {
      SameHorizonSameAnswers(db, after, charges, holder, operation, revoked, at);
    }
  }

  lemma SupersedeKeepsEntitled(db: Tables, floor: Instant, holder: Holder, revoked: set<EntitlementId>, at: Instant)
    requires floor <= at
    ensures var after := db.(entitlements := SweepSuperseded(db.entitlements, floor));
            Evaluate(after, holder, revoked, at).Entitled? <==> Evaluate(db, holder, revoked, at).Entitled?
  {
    SupersedeKeepsTheLatest(db.entitlements, floor, holder);
    SupersedeKeepsAccess(db.entitlements, floor, holder, revoked, at);
  }

  /** A swept record had expired, so access at or after the floor does not need it. */
  lemma SupersedeKeepsAccess(entitlements: map<EntitlementId, Record>, floor: Instant, holder: Holder,
                             revoked: set<EntitlementId>, at: Instant)
    requires floor <= at
    ensures var before, after := MaxOf(Expiries(entitlements, holder, revoked)),
            MaxOf(Expiries(SweepSuperseded(entitlements, floor), holder, revoked));
            (before.Some? && at < before.value) == (after.Some? && at < after.value)
  {
    var kept := SweepSuperseded(entitlements, floor);
    var all := Expiries(entitlements, holder, revoked);
    assert Expiries(kept, holder, revoked) <= all;
    if all != {} && at < MaxOf(all).value {
      var id :| id in entitlements && entitlements[id].holder == holder && id !in revoked &&
        entitlements[id].expiresAt == MaxOf(all).value;
      assert id in kept;
      assert kept[id].expiresAt in Expiries(kept, holder, revoked);
    }
  }

  /** What the hand-over of someone else leaves of a holder. */
  lemma NotTheirHandOver(db: Tables, gone: Holder, sweptUnder: set<EntitlementId>, floor: Instant, holder: Holder)
    requires holder != gone
    ensures Resurfaces(HandOver(db, gone, sweptUnder, floor), holder, floor) == Resurfaces(db, holder, floor)
  {
    if LosingEntitlements(db.entitlements, gone, floor) {
      SweepSparesOthers(db.entitlements, gone, floor, holder, {});
      SparedLosesAlike(db.entitlements, gone, floor, holder);
      ResurfacesAlike(db, HandOver(db, gone, sweptUnder, floor), holder, floor);
    }
  }

  lemma ResurfacesAlike(a: Tables, b: Tables, holder: Holder, floor: Instant)
    requires a.terms == b.terms && a.snapshots == b.snapshots
    requires holder in a.lapse <==> holder in b.lapse
    requires holder in a.lapse ==> a.lapse[holder] == b.lapse[holder]
    requires Expiries(a.entitlements, holder, {}) == Expiries(b.entitlements, holder, {})
    requires HasRecord(a.entitlements, holder) == HasRecord(b.entitlements, holder)
    requires LosingEntitlements(a.entitlements, holder, floor) == LosingEntitlements(b.entitlements, holder, floor)
    ensures Resurfaces(a, holder, floor) == Resurfaces(b, holder, floor)
  {
    assert EntitlementHorizon(a.entitlements, holder, {}) == EntitlementHorizon(b.entitlements, holder, {});
    assert HorizonOf(a, holder) == HorizonOf(b, holder);
  }

  lemma SparedLosesAlike(entitlements: map<EntitlementId, Record>, gone: Holder, floor: Instant, holder: Holder)
    requires holder != gone
    ensures LosingEntitlements(SweepEntitlements(entitlements, gone, floor), holder, floor) ==
            LosingEntitlements(entitlements, holder, floor)
  {
    var swept := SweepEntitlements(entitlements, gone, floor);
    forall id | id in entitlements && entitlements[id].holder == holder ensures id in swept {}
  }

  /** One hand-over is enough: afterwards there is nothing to lose. */
  lemma HandedOverOnce(db: Tables, holder: Holder, sweptUnder: set<EntitlementId>, floor: Instant)
    ensures !LosingEntitlements(HandOver(db, holder, sweptUnder, floor).entitlements, holder, floor)
  {
    if LosingEntitlements(db.entitlements, holder, floor) {
      HandOverEmpties(db.entitlements, holder, floor);
    }
  }

  lemma {:induction false} PassKeepsAnswers(db: Tables, losing: seq<Holder>, sweptUnder: set<EntitlementId>,
                                            floor: Instant, charges: bool, holder: Holder, operation: Operation,
                                            revoked: set<EntitlementId>, at: Instant)
    requires floor <= at && !(holder in losing && Resurfaces(db, holder, floor))
    ensures SameAnswers(db, HandOverPass(db, losing, sweptUnder, floor), charges, holder, operation, revoked, at)
    decreases |losing|
  {
    if losing == [] {
      SupersedeKeepsAnswers(db, floor, charges, holder, operation, revoked, at);
    } else {
      HandOverKeepsAnswers(db, losing[0], sweptUnder, floor, charges, holder, operation, revoked, at);
      if losing[0] == holder {
        HandedOverOnce(db, holder, sweptUnder, floor);
      } else {
        NotTheirHandOver(db, losing[0], sweptUnder, floor, holder);
      }
      PassKeepsAnswers(HandOver(db, losing[0], sweptUnder, floor), losing[1..], sweptUnder, floor, charges, holder,
                       operation, revoked, at);
    }
  }

  /** A resurfaced row can be seen: some time later it makes due what was not. */
  lemma ResurfacedIsSeen(db: Tables, holder: Holder, sweptUnder: set<EntitlementId>, floor: Instant,
                         revoked: set<EntitlementId>)
    returns (at: Instant)
    requires Resurfaces(db, holder, floor)
    ensures floor <= at && PostGraceDue(db, holder, revoked, at) == map[]
    ensures PostGraceDue(HandOver(db, holder, sweptUnder, floor), holder, revoked, at) != map[]
  {
    var row, rows := db.lapse[holder].lapsedAt, LiveRows(db.snapshots, holder);
    var d := Pick(Protected(db.terms, rows, row));
    var end := Ends(db.terms, rows[d], row).value;
    at := if floor < end then end else floor;
    HorizonCarriedOver(db, holder, sweptUnder, floor, revoked);
    RevokedDoesNotMatter(db, holder, revoked);
    NothingProtected(db.terms, rows, HorizonOf(db, holder).value, at);
    assert d in PostGraceDue(HandOver(db, holder, sweptUnder, floor), holder, revoked, at);
  }

  lemma {:induction false} PassShowsIt(db: Tables, losing: seq<Holder>, sweptUnder: set<EntitlementId>, floor: Instant,
                                       holder: Holder, revoked: set<EntitlementId>)
    returns (at: Instant)
    requires holder in losing && Resurfaces(db, holder, floor)
    ensures floor <= at && PostGraceDue(db, holder, revoked, at) == map[]
    ensures PostGraceDue(HandOverPass(db, losing, sweptUnder, floor), holder, revoked, at) != map[]
    decreases |losing|
  {
    var next := HandOver(db, losing[0], sweptUnder, floor);
    if losing[0] == holder {
      at := ResurfacedIsSeen(db, holder, sweptUnder, floor, revoked);
      HandedOverOnce(db, holder, sweptUnder, floor);
      PassKeepsAnswers(next, losing[1..], sweptUnder, floor, true, holder, Operation.Erase, revoked, at);
    } else {
      NotTheirHandOver(db, losing[0], sweptUnder, floor, holder);
      at := PassShowsIt(next, losing[1..], sweptUnder, floor, holder, revoked);
      HandOverKeepsAnswers(db, losing[0], sweptUnder, floor, true, holder, Operation.Erase, revoked, at);
    }
  }

  /** From any tables whatever: step (3b) is unobservable to a holder, whatever list of
      holders it works through, if and only if it does not uncover a row of theirs that has
      windows to tell. Unobservable means that no request without a credential and no later
      expiry pass, at any time from the sweep on and under any revoked set, is answered
      differently for the records being gone. */
  lemma HandOverUnobservable(db: Tables, losing: seq<Holder>, sweptUnder: set<EntitlementId>, floor: Instant,
                             holder: Holder)
    ensures var after := HandOverPass(db, losing, sweptUnder, floor);
            (forall charges, operation, revoked, at :: floor <= at ==>
               SameAnswers(db, after, charges, holder, operation, revoked, at))
            <==> !(holder in losing && Resurfaces(db, holder, floor))
  {
    var after := HandOverPass(db, losing, sweptUnder, floor);
    if holder in losing && Resurfaces(db, holder, floor) {
      var at := PassShowsIt(db, losing, sweptUnder, floor, holder, {});
      assert !SameAnswers(db, after, true, holder, Operation.Erase, {}, at);
    } else {
      forall charges, operation, revoked, at | floor <= at
        ensures SameAnswers(db, after, charges, holder, operation, revoked, at)
      {
        PassKeepsAnswers(db, losing, sweptUnder, floor, charges, holder, operation, revoked, at);
      }
    }
  }

  // ---- Nothing is orphaned --------------------------------------------------------

  /** With no record behind it, a lapse row is retired exactly when no live snapshot of
      the holder has a window left to honour. */
  lemma RetiredExactlyWhenNothingIsOwed(db: Tables, holder: Holder, revoked: set<EntitlementId>, now: Instant)
    requires holder in db.lapse && !HasRecord(db.entitlements, holder)
    requires db.lapse[holder].lapsedAt <= now
    ensures Refreshed(db, holder, revoked, now).None? <==>
            Protected(db.terms, LiveRows(db.snapshots, holder), db.lapse[holder].lapsedAt) == {}
  {
    RecordsAndExpiries(db.entitlements, holder);
    var rows, lapsedAt := LiveRows(db.snapshots, holder), db.lapse[holder].lapsedAt;
    var protected := Protected(db.terms, rows, lapsedAt);
    if protected != {} {
      var current := LapseStateAt(db.terms, rows, lapsedAt).value;
      var best := BestOf(db.terms, rows, lapsedAt, protected);
      var rewritten := db.(lapse := db.lapse[holder := current]);
      assert LifecycleHorizon(rewritten, holder, revoked) == Some(lapsedAt);
      if current.graceExpiresAt <= now {
        assert best in PostGraceDue(rewritten, holder, revoked, now);
      }
    }
  }

  /** On a charging operator, once (3c) and (3d) have run for a holder, any live snapshot
      whose window counted from now is readable has a horizon to be expired by. */
  lemma NothingIsOrphaned(db: Tables, holder: Holder, revoked: set<EntitlementId>, now: Instant)
    requires holder in db.lapse ==> db.lapse[holder].lapsedAt <= now
    requires Protected(db.terms, LiveRows(db.snapshots, holder), now) != {}
    ensures var adopted := WithLapse(db, holder, Adopted(db, holder, revoked, now));
            var swept := if holder in adopted.lapse then
              WithLapse(adopted, holder, Refreshed(adopted, holder, revoked, now)) else adopted;
            LifecycleHorizon(swept, holder, revoked).Some?
  {
    var adopted := WithLapse(db, holder, Adopted(db, holder, revoked, now));
    RecordsAndExpiries(db.entitlements, holder);
    if !HasRecord(db.entitlements, holder) {
      assert holder in adopted.lapse && adopted.lapse[holder].lapsedAt <= now;
      var rows := LiveRows(db.snapshots, holder);
      var d := Pick(Protected(db.terms, rows, now));
      assert d in Protected(db.terms, rows, adopted.lapse[holder].lapsedAt);
      RetiredExactlyWhenNothingIsOwed(adopted, holder, revoked, now);
    }
  }
}
