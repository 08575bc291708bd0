/** The walks of lapse.rs over a holder's listing, proved to compute what Lapse says. */
module Gate {
  import opened Types
  import opened Tables
  import opened Lapse
  import opened Stores
  import opened Owed
  import Rows = Tables

  /** The credential header of a request: none, one that does not verify, or one that does. */
  datatype Presented = Absent | Refused | Credential(id: EntitlementId, expiresAt: Instant)

  method LifecycleHorizonOf(store: Store, holder: Holder, revoked: set<EntitlementId>)
    returns (lapsedAt: Option<Instant>)
    ensures lapsedAt == LifecycleHorizon(store.db, holder, revoked)
    ensures forall at :: lapsedAt == Some(at) <==> LapsedAt(store.db, holder, at)
  {
    HorizonIsTheLapse(store.db, holder, revoked);
    var horizon := store.EntitlementHorizon(holder, revoked);
    if horizon.Some? {
      return Some(horizon.value.lifecycle);
    }
    return if holder in store.db.lapse then Some(store.db.lapse[holder].lapsedAt) else None;
  }

  // ---- What a walk has seen --------------------------------------------------------------

  ghost function Seen(listed: seq<Listed>, upto: nat): set<Digest>
    requires upto <= |listed|
  {
    set k | 0 <= k < upto :: listed[k].digest
  }

  lemma SeenOneMore(listed: seq<Listed>, upto: nat)
    requires upto < |listed|
    ensures Seen(listed, upto + 1) == Seen(listed, upto) + {listed[upto].digest}
  {
  }

  lemma AllSeen(listed: seq<Listed>, rows: map<Digest, Row>)
    requires IsListing(listed, rows)
    ensures Seen(listed, |listed|) == rows.Keys
  {
    forall d | d in rows ensures d in Seen(listed, |listed|) {
      assert Listed(d, rows[d]) in listed;
    }
  }

  // ---- Grace -------------------------------------------------------------------------------

  method GraceFrom(store: Store, holder: Holder, lapsedAt: Instant, now: Instant) returns (access: Access)
    ensures access == Lapse.GraceFrom(store.db.terms, LiveRows(store.db.snapshots, holder), lapsedAt, now)
  {
    ghost var rows := LiveRows(store.db.snapshots, holder);
    var terms := store.db.terms;
    var allowed: set<string>, anyInGrace := {}, false;
    var listed := store.Snapshots(holder);
    ghost var kept: set<Digest> := {};
    for i := 0 to |listed|
      invariant kept == Seen(listed, i) * InGrace(terms, rows, lapsedAt, now)
      invariant anyInGrace <==> kept != {}
      invariant allowed == Promised(terms, rows, kept)
    {
      KeptOneMore(terms, rows, lapsedAt, now, listed, i);
      var clause := EndOfPayment(terms, listed[i].row.termsId);
      if clause.None? {
        continue;
      }
      var ends := clause.value.WindowEnd(lapsedAt);
      if ends.None? || ends.value <= now {
        continue;
      }
      PromisedOneMore(terms, rows, kept, listed[i].digest);
      anyInGrace := true;
      allowed := allowed + clause.value.duringGrace;
      kept := kept + {listed[i].digest};
    }
    AllSeen(listed, rows);
    assert kept == InGrace(terms, rows, lapsedAt, now);
    return if anyInGrace then Grace(allowed) else Lapsed;
  }

  /** The next row in the listing is kept exactly when its window is open. */
  lemma KeptOneMore(terms: map<TermsId, TermsDocument>, rows: map<Digest, Row>, lapsedAt: Instant, now: Instant,
                    listed: seq<Listed>, i: nat)
    requires IsListing(listed, rows) && i < |listed|
    ensures var d, open := listed[i].digest, InGrace(terms, rows, lapsedAt, now);
            var end := Ends(terms, listed[i].row, lapsedAt);
            && d in rows && rows[d] == listed[i].row
            && Seen(listed, i + 1) * open ==
               if end.Some? && now < end.value then Seen(listed, i) * open + {d} else Seen(listed, i) * open
  {
    SeenOneMore(listed, i);
  }

  lemma PromisedOneMore(terms: map<TermsId, TermsDocument>, rows: map<Digest, Row>, kept: set<Digest>, d: Digest)
    requires d in rows && EndOfPayment(terms, rows[d].termsId).Some?
    ensures Promised(terms, rows, kept + {d}) == Promised(terms, rows, kept) +
            EndOfPayment(terms, rows[d].termsId).value.duringGrace
  {
  }

  /** A credential on the request is believed first and registered, or refused; without one
      the stored records, then the horizon, decide. None answers invalid_entitlement. */
  method Evaluate(store: Store, charges: bool, credential: Presented, holder: Holder,
                  revoked: set<EntitlementId>, now: Instant) returns (access: Option<Access>)
    modifies store
    ensures store.db == if charges then Registered(old(store.db), credential, holder) else old(store.db)
    ensures access ==
            if !charges then Some(Entitled)
            else
              match credential
              case Absent => Some(Lapse.Evaluate(old(store.db), holder, revoked, now))
              case Refused => None
              case Credential(_, _) => Some(Entitled)
  {
    if !charges {
      return Some(Entitled);
    }
    match credential
    case Refused => return None;
    case Credential(id, expiresAt) =>
      var _ := store.RegisterEntitlement(holder, id, expiresAt);
      return Some(Entitled);
    case Absent =>
      var horizon := store.EntitlementHorizon(holder, revoked);
      if horizon.Some? && horizon.value.access.Some? && now < horizon.value.access.value {
        return Some(Entitled);
      }
      var lapsedAt := LifecycleHorizonOf(store, holder, revoked);
      if lapsedAt.None? {
        return Some(if HasRecord(store.db.entitlements, holder) then Lapsed else Unpaid);
      }
      var grace := GraceFrom(store, holder, lapsedAt.value, now);
      return Some(grace);
  }

  /** The gate registers the credential a request carries. */
  function Registered(db: Tables, credential: Presented, holder: Holder): Tables {
    if credential.Credential? then Rows.RegisterEntitlement(db, holder, credential.id, credential.expiresAt) else db
  }

  predicate Asked(charges: bool, operation: Operation) { charges && !operation.AlwaysAvailable() }

  /** What the gate answers, before anything is registered. */
  ghost function Answer(db: Tables, charges: bool, credential: Presented, holder: Holder, operation: Operation,
                        revoked: set<EntitlementId>, now: Instant): Verdict
  {
    if !Asked(charges, operation) || credential.Credential? then Lets
    else if credential.Refused? then InvalidEntitlement
    else if Lapse.Require(db, charges, holder, operation, revoked, now) then Lets else PaymentRequired
  }

  /** Who is let through. Where nothing is charged, everyone; keeping, listing, exporting and
      reconciling what is already here, always; with a credential, the one it is about; without,
      whoever is paid up, and for a download or an erasure whoever is still promised it. */
  ghost predicate Passes(db: Tables, charges: bool, credential: Presented, holder: Holder, operation: Operation,
                         revoked: set<EntitlementId>, now: Instant)
  {
    || !charges || operation in {Register, Upload, Commit, List, Export, Reconcile} || credential.Credential?
    || (credential.Absent? && PaidUp(db, holder, revoked, now))
    || (credential.Absent? && operation == Download && StillPromised(db, holder, "download", now))
    || (credential.Absent? && operation == Erase && StillPromised(db, holder, "erase", now))
  }

  /** For every state of the tables: the gate lets through exactly those, and refuses a credential
      that does not verify differently from one that is not there. */
  lemma AnswerIsWhoPasses(db: Tables, charges: bool, credential: Presented, holder: Holder, operation: Operation,
                          revoked: set<EntitlementId>, now: Instant)
    ensures Answer(db, charges, credential, holder, operation, revoked, now) ==
            if Passes(db, charges, credential, holder, operation, revoked, now) then Lets
            else if credential.Refused? then InvalidEntitlement else PaymentRequired
  {
    AccessIsPaidUp(db, holder, revoked, now);
    if credential.Absent? && !PaidUp(db, holder, revoked, now) {
      GraceIsWhatIsPromised(db, holder, revoked, "download", now);
      GraceIsWhatIsPromised(db, holder, revoked, "erase", now);
    }
  }

  /** The gate every route passes through. A credential it lets through goes on record under its
      id, and what was derived about the holder goes. */
  method Require(store: Store, charges: bool, credential: Presented, holder: Holder, operation: Operation,
                 revoked: set<EntitlementId>, now: Instant) returns (verdict: Verdict)
    modifies store
    ensures verdict ==
            if Passes(old(store.db), charges, credential, holder, operation, revoked, now) then Lets
            else if credential.Refused? then InvalidEntitlement else PaymentRequired
    ensures if charges && credential.Credential? && operation in {Operation.Preflight, Download, Erase} then
              && store.db.entitlements == old(store.db).entitlements[credential.id :=
                                                                     Record(holder, credential.expiresAt)]
              && store.db.lapse == old(store.db).lapse - {holder}
              && store.db == old(store.db).(entitlements := store.db.entitlements, lapse := store.db.lapse)
            else store.db == old(store.db)
    ensures verdict == Answer(old(store.db), charges, credential, holder, operation, revoked, now)
    ensures store.db == if Asked(charges, operation) then Registered(old(store.db), credential, holder)
            else old(store.db)
  {
    AnswerIsWhoPasses(store.db, charges, credential, holder, operation, revoked, now);
    if operation.AlwaysAvailable() || !charges {
      return Lets;
    }
    var access := Evaluate(store, charges, credential, holder, revoked, now);
    if access.None? {
      return InvalidEntitlement;
    }
    match access.value
    case Entitled => return Lets;
    case Unpaid => return PaymentRequired;
    case Lapsed => return PaymentRequired;
    case Grace(terms) =>
      if operation.RefusedHolderWide() {
        return PaymentRequired;
      }
      var term := operation.GraceTerm();
      return if term.Some? && term.value in terms then Lets else PaymentRequired;
  }

  // ---- What the sweep reads ----------------------------------------------------------------

  method PostGraceDue(store: Store, holder: Holder, revoked: set<EntitlementId>, now: Instant)
    returns (due: map<Digest, string>)
    ensures due == Lapse.PostGraceDue(store.db, holder, revoked, now)
  {
    due := map[];
    var lapsedAt := LifecycleHorizonOf(store, holder, revoked);
    if lapsedAt.None? || now < lapsedAt.value {
      return;
    }
    ghost var rows := LiveRows(store.db.snapshots, holder);
    var terms := store.db.terms;
    var listed := store.Snapshots(holder);
    for i := 0 to |listed|
      invariant DueSoFar(due, terms, rows, lapsedAt.value, now, Seen(listed, i))
    {
      SeenOneMore(listed, i);
      assert rows[listed[i].digest] == listed[i].row;
      var clause := EndOfPayment(terms, listed[i].row.termsId);
      if clause.None? {
        continue;
      }
      var ends := clause.value.WindowEnd(lapsedAt.value);
      if ends.None? || now < ends.value {
        continue;
      }
      due := due[listed[i].digest := clause.value.afterGrace];
    }
    AllSeen(listed, rows);
    DueOfAll(due, terms, rows, lapsedAt.value, now);
  }

  ghost predicate DueSoFar(due: map<Digest, string>, terms: map<TermsId, TermsDocument>, rows: map<Digest, Row>,
                           lapsedAt: Instant, now: Instant, seen: set<Digest>)
  {
    forall d :: if d in due
                then d in seen && d in rows && IsDue(terms, rows[d], lapsedAt, now)
                     && due[d] == EndOfPayment(terms, rows[d].termsId).value.afterGrace
                else d in seen && d in rows ==> !IsDue(terms, rows[d], lapsedAt, now)
  }

  ghost predicate IsDue(terms: map<TermsId, TermsDocument>, row: Row, lapsedAt: Instant, now: Instant) {
    Ends(terms, row, lapsedAt).Some? && Ends(terms, row, lapsedAt).value <= now
  }

  lemma DueOfAll(due: map<Digest, string>, terms: map<TermsId, TermsDocument>, rows: map<Digest, Row>,
                 lapsedAt: Instant, now: Instant)
    requires DueSoFar(due, terms, rows, lapsedAt, now, rows.Keys)
    ensures due == DueFrom(terms, rows, lapsedAt, now)
  {
    var all := DueFrom(terms, rows, lapsedAt, now);
    forall d ensures d in due <==> d in all {
      assert d in all <==> d in rows && IsDue(terms, rows[d], lapsedAt, now);
    }
  }

  method LapseStateAt(store: Store, holder: Holder, lapsedAt: Instant) returns (state: Option<LapseState>)
    ensures Tells(store.db.terms, store.db.snapshots, holder, lapsedAt, state)
    ensures state == Lapse.LapseStateAt(store.db.terms, LiveRows(store.db.snapshots, holder), lapsedAt)
  {
    ghost var rows := LiveRows(store.db.snapshots, holder);
    var terms := store.db.terms;
    var latest: Option<(Instant, string)> := None;
    var listed := store.Snapshots(holder);
    ghost var seen: set<Digest> := {};
    ghost var best: Digest := 0;
    for i := 0 to |listed|
      invariant seen == Seen(listed, i) * Protected(terms, rows, lapsedAt)
      invariant latest.None? <==> seen == {}
      invariant latest.Some? ==> Best(terms, rows, lapsedAt, seen, best) && best in Seen(listed, i)
      invariant latest.Some? ==>
                latest.value == (Ends(terms, rows[best], lapsedAt).value,
                                 EndOfPayment(terms, rows[best].termsId).value.afterGrace)
    {
      SeenOneMore(listed, i);
      var clause := EndOfPayment(terms, listed[i].row.termsId);
      if clause.None? {
        continue;
      }
      var ends := clause.value.WindowEnd(lapsedAt);
      if ends.None? {
        continue;
      }
      BestOneMore(terms, rows, lapsedAt, seen, best, listed, i);
      if latest.None? || latest.value.0 < ends.value {
        latest := Some((ends.value, clause.value.afterGrace));
        best := listed[i].digest;
      }
      seen := seen + {listed[i].digest};
    }
    AllSeen(listed, rows);
    assert seen == Protected(terms, rows, lapsedAt);
    StateIsTold(terms, store.db.snapshots, holder, lapsedAt);
    if latest.None? {
      return None;
    }
    OneBest(terms, rows, lapsedAt, seen, best);
    return Some(LapseState(lapsedAt, latest.value.0, latest.value.1));
  }

  /** The next row in the listing takes over exactly when its window ends strictly later. */
  lemma BestOneMore(terms: map<TermsId, TermsDocument>, rows: map<Digest, Row>, lapsedAt: Instant,
                    seen: set<Digest>, best: Digest, listed: seq<Listed>, i: nat)
    requires IsListing(listed, rows) && i < |listed|
    requires seen == Seen(listed, i) * Protected(terms, rows, lapsedAt)
    requires listed[i].digest in Protected(terms, rows, lapsedAt)
    requires seen != {} ==> Best(terms, rows, lapsedAt, seen, best)
    ensures var d := listed[i].digest;
            && seen + {d} <= Protected(terms, rows, lapsedAt)
            && Best(terms, rows, lapsedAt, seen + {d},
                    if seen == {} || Ends(terms, rows[best], lapsedAt).value < Ends(terms, rows[d], lapsedAt).value
                    then d else best)
  {
    var d := listed[i].digest;
    forall e | e in seen ensures ListedBefore(rows, e, d) {
      var k :| 0 <= k < i && listed[k].digest == e;
      assert listed[k].Before(listed[i]);
    }
  }

  lemma OneBest(terms: map<TermsId, TermsDocument>, rows: map<Digest, Row>, lapsedAt: Instant, among: set<Digest>,
                d: Digest)
    requires among <= Protected(terms, rows, lapsedAt) && Best(terms, rows, lapsedAt, among, d)
    ensures BestOf(terms, rows, lapsedAt, among) == d
  {
    var e := BestOf(terms, rows, lapsedAt, among);
    assert e != d ==> Beats(terms, rows, lapsedAt, d, e);
  }

  method UnrecordedLapsedHolders(store: Store, revoked: set<EntitlementId>) returns (adopted: set<Holder>)
    ensures forall h :: h in adopted <==>
              HasLive(store.db.snapshots, h) && LifecycleHorizon(store.db, h, revoked).None?
  {
    adopted := {};
    var holders := HoldersWithSnapshots(store.db.snapshots);
    var left := holders;
    while left != {}
      invariant left <= holders
      invariant forall h :: h in adopted <==> h in holders && h !in left && LifecycleHorizon(store.db, h, revoked).None?
      decreases left
    {
      var h :| h in left;
      left := left - {h};
      var lapsedAt := LifecycleHorizonOf(store, h, revoked);
      if lapsedAt.None? {
        adopted := adopted + {h};
      }
    }
  }

  ghost predicate HasLive(snapshots: map<Key, Row>, holder: Holder) {
    exists key :: LiveAt(snapshots, key) && key.holder == holder
  }

  function HoldersWithSnapshots(snapshots: map<Key, Row>): (holders: set<Holder>)
    ensures forall h :: h in holders <==> HasLive(snapshots, h)
  {
    set key | key in LiveKeys(snapshots) :: key.holder
  }
}
