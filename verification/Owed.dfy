/** What a holder has paid for and is still owed, read straight off the tables and the terms. */
module Owed {
  import opened Types
  import opened Tables
  import Durations
  import Lapse

  /** A credential on record, not revoked, that runs past now. */
  ghost predicate PaidUp(db: Tables, holder: Holder, revoked: set<EntitlementId>, now: Instant) {
    exists id :: id in db.entitlements && db.entitlements[id].holder == holder && id !in revoked
                 && now < db.entitlements[id].expiresAt
  }

  /** The holder's payment ended then: at their latest expiry on record, revoked or not; with no
      record left, at the instant their lapse row keeps. */
  ghost predicate LapsedAt(db: Tables, holder: Holder, at: Instant) {
    if exists id :: id in db.entitlements && db.entitlements[id].holder == holder then
      && (exists id :: id in db.entitlements && db.entitlements[id] == Record(holder, at))
      && (forall id :: id in db.entitlements && db.entitlements[id].holder == holder ==>
            db.entitlements[id].expiresAt <= at)
    else
      holder in db.lapse && db.lapse[holder].lapsedAt == at
  }

  /** Notice, then grace, as the terms declare them, counted from a lapse. No end is told where a
      declaration does not read, or the end passes the last second of the year 9999. */
  ghost predicate WindowEndsAt(terms: map<TermsId, TermsDocument>, id: TermsId, lapsedAt: Instant, end: Instant) {
    && id in terms && terms[id].endOfPayment.Some?
    && var clause := terms[id].endOfPayment.value;
    && clause.notice.Some? && clause.grace.Some?
    && var notice, grace :=
         Durations.DurationSeconds(clause.notice.value), Durations.DurationSeconds(clause.grace.value);
    && notice.Some? && grace.Some?
    && notice.value + grace.value <= 9_223_372_036_854_775_807
    && end == lapsedAt + notice.value + grace.value <= 253_402_300_799
  }

  /** What the terms say becomes of a snapshot once its window is over: erasure, unless they
      say otherwise. */
  ghost function Afterwards(terms: map<TermsId, TermsDocument>, id: TermsId): string
    requires id in terms && terms[id].endOfPayment.Some?
  {
    match terms[id].endOfPayment.value.afterGrace
    case Some(declared) => declared
    case None => "erase"
  }

  /** Some live snapshot of the holder promises this operation during a window that is open. */
  ghost predicate StillPromised(db: Tables, holder: Holder, operation: string, now: Instant) {
    exists key, lapsedAt, end ::
      && LiveAt(db.snapshots, key) && key.holder == holder && LapsedAt(db, holder, lapsedAt)
      && WindowEndsAt(db.terms, db.snapshots[key].termsId, lapsedAt, end) && now < end
      && operation in db.terms[db.snapshots[key].termsId].endOfPayment.value.duringGrace
  }

  /** A live snapshot whose own window is over, under terms that then have it erased. */
  ghost predicate ToErase(db: Tables, key: Key, now: Instant) {
    exists lapsedAt, end ::
      && LiveAt(db.snapshots, key) && LapsedAt(db, key.holder, lapsedAt)
      && WindowEndsAt(db.terms, db.snapshots[key].termsId, lapsedAt, end) && end <= now
      && Afterwards(db.terms, db.snapshots[key].termsId) == "erase"
  }

  /** What is kept about a lapse: when the last window over the live snapshots ends, and what the
      terms of the snapshot it belongs to say then. Where windows end together, that is the
      newest, then the one with the least digest. Nothing is kept where no window is told. */
  ghost predicate Tells(terms: map<TermsId, TermsDocument>, snapshots: map<Key, Row>, holder: Holder,
                        lapsedAt: Instant, state: Option<LapseState>)
  {
    match state
    case None =>
      forall key, end :: LiveAt(snapshots, key) && key.holder == holder ==>
        !WindowEndsAt(terms, snapshots[key].termsId, lapsedAt, end)
    case Some(told) =>
      told.lapsedAt == lapsedAt &&
      exists key :: LiveAt(snapshots, key) && key.holder == holder && LastWindow(terms, snapshots, key, told)
  }

  ghost predicate LastWindow(terms: map<TermsId, TermsDocument>, snapshots: map<Key, Row>, key: Key, told: LapseState)
    requires LiveAt(snapshots, key)
  {
    && WindowEndsAt(terms, snapshots[key].termsId, told.lapsedAt, told.graceExpiresAt)
    && told.postGraceAction == Afterwards(terms, snapshots[key].termsId)
    && forall other, end ::
         LiveAt(snapshots, other) && other.holder == key.holder && other != key &&
         WindowEndsAt(terms, snapshots[other].termsId, told.lapsedAt, end) ==>
           Before(snapshots, key, other, end, told.graceExpiresAt)
  }

  /** The other window, which ends at `end`, is over before this one, or is told after it. */
  predicate Before(snapshots: map<Key, Row>, key: Key, other: Key, end: Instant, last: Instant)
    requires key in snapshots && other in snapshots
  {
    || end < last
    || (end == last && snapshots[other].retainedAt < snapshots[key].retainedAt)
    || (end == last && snapshots[other].retainedAt == snapshots[key].retainedAt && key.digest < other.digest)
  }

  // ---- The same, as the operator computes it ----------------------------------------------------

  lemma WindowIsWhatTheTermsSay(terms: map<TermsId, TermsDocument>, row: Row, lapsedAt: Instant)
    ensures forall end :: Lapse.Ends(terms, row, lapsedAt) == Some(end) <==>
                          WindowEndsAt(terms, row.termsId, lapsedAt, end)
    ensures Lapse.EndOfPayment(terms, row.termsId).Some? ==>
              var clause := Lapse.EndOfPayment(terms, row.termsId).value;
              && clause.duringGrace == terms[row.termsId].endOfPayment.value.duringGrace
              && clause.afterGrace == Afterwards(terms, row.termsId)
  {
  }

  /** The horizon is the moment payment ended, and no revocation moves it. */
  lemma HorizonIsTheLapse(db: Tables, holder: Holder, revoked: set<EntitlementId>)
    ensures forall at :: Lapse.LifecycleHorizon(db, holder, revoked) == Some(at) <==> LapsedAt(db, holder, at)
  {
    var all := Expiries(db.entitlements, holder, {});
    if HasRecord(db.entitlements, holder) {
      var id :| id in db.entitlements && db.entitlements[id].holder == holder;
      assert db.entitlements[id].expiresAt in all;
      var top := MaxOf(all).value;
      var latest :| latest in db.entitlements && db.entitlements[latest].holder == holder &&
        db.entitlements[latest].expiresAt == top;
      assert db.entitlements[latest] == Record(holder, top);
      assert forall id :: id in db.entitlements && db.entitlements[id].holder == holder ==>
               db.entitlements[id].expiresAt in all;
    } else {
      assert all == {};
    }
  }

  lemma AccessIsPaidUp(db: Tables, holder: Holder, revoked: set<EntitlementId>, now: Instant)
    ensures Lapse.Evaluate(db, holder, revoked, now).Entitled? <==> PaidUp(db, holder, revoked, now)
  {
    var kept := Expiries(db.entitlements, holder, revoked);
    assert forall x :: x in kept ==> x in Expiries(db.entitlements, holder, {});
    if PaidUp(db, holder, revoked, now) {
      var id :| id in db.entitlements && db.entitlements[id].holder == holder && id !in revoked
        && now < db.entitlements[id].expiresAt;
      assert db.entitlements[id].expiresAt in kept;
    }
  }

  /** Grace allows exactly what some open window promises. */
  lemma GraceIsWhatIsPromised(db: Tables, holder: Holder, revoked: set<EntitlementId>, operation: string, now: Instant)
    requires !PaidUp(db, holder, revoked, now)
    ensures var access := Lapse.Evaluate(db, holder, revoked, now);
            access.Grace? && operation in access.allowed <==> StillPromised(db, holder, operation, now)
  {
    AccessIsPaidUp(db, holder, revoked, now);
    HorizonIsTheLapse(db, holder, revoked);
    var access, rows := Lapse.Evaluate(db, holder, revoked, now), LiveRows(db.snapshots, holder);
    if StillPromised(db, holder, operation, now) {
      var key, lapsedAt, end :|
        && LiveAt(db.snapshots, key) && key.holder == holder && LapsedAt(db, holder, lapsedAt)
        && WindowEndsAt(db.terms, db.snapshots[key].termsId, lapsedAt, end) && now < end
        && operation in db.terms[db.snapshots[key].termsId].endOfPayment.value.duringGrace;
      assert key == Key(holder, key.digest);
      WindowIsWhatTheTermsSay(db.terms, db.snapshots[key], lapsedAt);
      assert key.digest in Lapse.InGrace(db.terms, rows, lapsedAt, now);
    }
    if access.Grace? && operation in access.allowed {
      var lapsedAt := Lapse.LifecycleHorizon(db, holder, revoked).value;
      var kept := Lapse.InGrace(db.terms, rows, lapsedAt, now);
      var d :| d in kept && operation in Lapse.EndOfPayment(db.terms, rows[d].termsId).value.duringGrace;
      WindowIsWhatTheTermsSay(db.terms, rows[d], lapsedAt);
      assert LiveAt(db.snapshots, Key(holder, d));
    }
  }

  /** The sweep expires exactly the snapshots whose own window is over. */
  lemma DueIsToErase(db: Tables, key: Key, revoked: set<EntitlementId>, now: Instant)
    ensures var due := Lapse.PostGraceDue(db, key.holder, revoked, now);
            key.digest in due && due[key.digest] == "erase" <==> ToErase(db, key, now)
  {
    HorizonIsTheLapse(db, key.holder, revoked);
    assert key == Key(key.holder, key.digest);
    if LiveAt(db.snapshots, key) && Lapse.LifecycleHorizon(db, key.holder, revoked).Some? {
      WindowIsWhatTheTermsSay(db.terms, db.snapshots[key],
                              Lapse.LifecycleHorizon(db, key.holder, revoked).value);
    }
  }

  lemma ToldIsProtected(terms: map<TermsId, TermsDocument>, snapshots: map<Key, Row>, key: Key, lapsedAt: Instant)
    requires LiveAt(snapshots, key)
    ensures var rows := LiveRows(snapshots, key.holder);
            forall end :: WindowEndsAt(terms, snapshots[key].termsId, lapsedAt, end) ==>
              key.digest in Lapse.Protected(terms, rows, lapsedAt) &&
                Lapse.Ends(terms, rows[key.digest], lapsedAt) == Some(end)
  {
    assert key == Key(key.holder, key.digest);
    WindowIsWhatTheTermsSay(terms, snapshots[key], lapsedAt);
  }

  lemma BestIsLast(terms: map<TermsId, TermsDocument>, snapshots: map<Key, Row>, key: Key, told: LapseState)
    requires LiveAt(snapshots, key)
    requires var rows := LiveRows(snapshots, key.holder);
             Lapse.Best(terms, rows, told.lapsedAt, Lapse.Protected(terms, rows, told.lapsedAt), key.digest) &&
               told.graceExpiresAt == Lapse.Ends(terms, rows[key.digest], told.lapsedAt).value &&
               told.postGraceAction == Lapse.EndOfPayment(terms, rows[key.digest].termsId).value.afterGrace
    ensures LastWindow(terms, snapshots, key, told)
  {
    assert key == Key(key.holder, key.digest);
    WindowIsWhatTheTermsSay(terms, snapshots[key], told.lapsedAt);
    forall other, end | LiveAt(snapshots, other) && other.holder == key.holder && other != key &&
        WindowEndsAt(terms, snapshots[other].termsId, told.lapsedAt, end)
      ensures Before(snapshots, key, other, end, told.graceExpiresAt)
    {
      var rows := LiveRows(snapshots, key.holder);
      assert other == Key(key.holder, other.digest);
      ToldIsProtected(terms, snapshots, other, told.lapsedAt);
      assert Lapse.Beats(terms, rows, told.lapsedAt, key.digest, other.digest);
    }
  }

  /** A lapse row is computed as it should read. */
  lemma StateIsTold(terms: map<TermsId, TermsDocument>, snapshots: map<Key, Row>, holder: Holder, lapsedAt: Instant)
    ensures Tells(terms, snapshots, holder, lapsedAt,
                  Lapse.LapseStateAt(terms, LiveRows(snapshots, holder), lapsedAt))
  {
    var rows := LiveRows(snapshots, holder);
    var protected := Lapse.Protected(terms, rows, lapsedAt);
    if protected == {} {
      forall key, end | LiveAt(snapshots, key) && key.holder == holder
        ensures !WindowEndsAt(terms, snapshots[key].termsId, lapsedAt, end)
      {
        ToldIsProtected(terms, snapshots, key, lapsedAt);
      }
    } else {
      var key := Key(holder, Lapse.BestOf(terms, rows, lapsedAt, protected));
      BestIsLast(terms, snapshots, key, Lapse.LapseStateAt(terms, rows, lapsedAt).value);
    }
  }
}
