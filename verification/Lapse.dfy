/** Lapse, grace and the gate: the decisions of lapse.rs over the tables. */
module Lapse {
  import opened Types
  import opened Tables
  import Durations

  /** The first and the last whole second of the range the operator's clock type represents. */
  const MIN_INSTANT: Instant := -377_705_116_800

  const MAX_INSTANT: Instant := 253_402_300_799

  /** One snapshot's `endOfPayment` clause, read out of its own pinned terms. */
  datatype Clause = Clause(notice: nat, grace: nat, duringGrace: set<string>, afterGrace: string)
  {
    function WindowEnd(lapsedAt: Instant): (end: Option<Instant>)
      ensures end.Some? ==> lapsedAt <= end.value <= MAX_INSTANT
    {
      if notice + grace > I64_MAX || lapsedAt + notice + grace > MAX_INSTANT then None
      else Some(lapsedAt + notice + grace)
    }
  }

  /** Notice and grace run one after the other, never side by side: protection ends where
      grace alone ends when it starts at the end of notice alone, and there is no end exactly
      when one of the two leaves the clock's range. */
  lemma GraceFollowsNotice(clause: Clause, lapsedAt: Instant)
    requires MIN_INSTANT <= lapsedAt <= MAX_INSTANT
    ensures var noticed := clause.(grace := 0).WindowEnd(lapsedAt);
            clause.WindowEnd(lapsedAt) ==
            if noticed.None? then None else clause.(notice := 0).WindowEnd(noticed.value)
    ensures forall at :: lapsedAt <= at && clause.WindowEnd(at).Some? ==>
              && clause.WindowEnd(lapsedAt).Some?
              && clause.WindowEnd(at).value - clause.WindowEnd(lapsedAt).value == at - lapsedAt
  {
  }

  function EndOfPayment(terms: map<TermsId, TermsDocument>, id: TermsId): Option<Clause> {
    if id !in terms || terms[id].endOfPayment.None? then None
    else
      var raw := terms[id].endOfPayment.value;
      if raw.notice.None? || raw.grace.None? then None
      else
        match (Durations.DurationSeconds(raw.notice.value), Durations.DurationSeconds(raw.grace.value))
        case (Some(notice), Some(grace)) =>
          Some(Clause(notice, grace, raw.duringGrace, if raw.afterGrace.Some? then raw.afterGrace.value else "erase"))
        case _ => None
  }

  /** When the protection of a row ends, counted from a lapse instant. None when its
      terms carry no readable clause, or the end is out of the clock's range. */
  function Ends(terms: map<TermsId, TermsDocument>, row: Row, lapsedAt: Instant): (end: Option<Instant>)
    ensures end.Some? ==> lapsedAt <= end.value
  {
    match EndOfPayment(terms, row.termsId)
    case None => None
    case Some(clause) => clause.WindowEnd(lapsedAt)
  }

  // ---- Horizons ------------------------------------------------------------

  datatype Horizon = Horizon(access: Option<Instant>, lifecycle: Instant)

  ghost function EntitlementHorizon(entitlements: map<EntitlementId, Record>, holder: Holder,
                                    revoked: set<EntitlementId>): Option<Horizon>
  {
    match MaxOf(Expiries(entitlements, holder, {}))
    case None => None
    case Some(lifecycle) => Some(Horizon(MaxOf(Expiries(entitlements, holder, revoked)), lifecycle))
  }

  /** The moment a holder lapsed: the record while there is one, then the derived row. */
  ghost function LifecycleHorizon(db: Tables, holder: Holder, revoked: set<EntitlementId>): Option<Instant> {
    match EntitlementHorizon(db.entitlements, holder, revoked)
    case Some(horizon) => Some(horizon.lifecycle)
    case None => if holder in db.lapse then Some(db.lapse[holder].lapsedAt) else None
  }

  // ---- The request path ----------------------------------------------------

  datatype Access = Entitled | Unpaid | Grace(allowed: set<string>) | Lapsed

  function InGrace(terms: map<TermsId, TermsDocument>, rows: map<Digest, Row>, lapsedAt: Instant,
                   now: Instant): set<Digest>
  {
    set d | d in rows && Ends(terms, rows[d], lapsedAt).Some? && now < Ends(terms, rows[d], lapsedAt).value
  }

  /** The union of `duringGrace` over a set of rows with readable clauses. */
  function Promised(terms: map<TermsId, TermsDocument>, rows: map<Digest, Row>, digests: set<Digest>): set<string> {
    set d, term | d in digests && d in rows && EndOfPayment(terms, rows[d].termsId).Some?
                  && term in EndOfPayment(terms, rows[d].termsId).value.duringGrace :: term
  }

  function GraceFrom(terms: map<TermsId, TermsDocument>, rows: map<Digest, Row>, lapsedAt: Instant,
                     now: Instant): Access
  {
    var kept := InGrace(terms, rows, lapsedAt, now);
    if kept == {} then Lapsed else Grace(Promised(terms, rows, kept))
  }

  /** `evaluate` on a charging operator, for a request that carries no credential. */
  ghost function Evaluate(db: Tables, holder: Holder, revoked: set<EntitlementId>, now: Instant): Access {
    var horizon := EntitlementHorizon(db.entitlements, holder, revoked);
    if horizon.Some? && horizon.value.access.Some? && now < horizon.value.access.value then Entitled
    else
      match LifecycleHorizon(db, holder, revoked)
      case None => if HasRecord(db.entitlements, holder) then Lapsed else Unpaid
      case Some(lapsedAt) => GraceFrom(db.terms, LiveRows(db.snapshots, holder), lapsedAt, now)
  }

  datatype Operation = Register | Preflight | Upload | Commit | List | Download | Erase | Export | Reconcile
  {
    function GraceTerm(): Option<string> {
      match this
      case Download => Some("download")
      case Erase => Some("erase")
      case Export => Some("export")
      case _ => None
    }

    predicate AlwaysAvailable() { Export? || Register? || List? || Reconcile? || Upload? || Commit? }

    predicate RefusedHolderWide() { Preflight? }
  }

  /** What the gate answers a request. */
  datatype Verdict = Lets | PaymentRequired | InvalidEntitlement

  /** Which access lets which operation through. */
  predicate Allows(access: Access, operation: Operation) {
    match access
    case Entitled => true
    case Unpaid => false
    case Lapsed => false
    case Grace(allowed) =>
      && !operation.RefusedHolderWide()
      && operation.GraceTerm().Some?
      && operation.GraceTerm().value in allowed
  }

  ghost predicate Require(db: Tables, charges: bool, holder: Holder, operation: Operation,
                          revoked: set<EntitlementId>, now: Instant)
  {
    operation.AlwaysAvailable() || !charges || Allows(Evaluate(db, holder, revoked, now), operation)
  }

  // ---- The sweep path ------------------------------------------------------

  /** Digest to `afterGrace`, for every live snapshot whose own window has closed. */
  ghost function PostGraceDue(db: Tables, holder: Holder, revoked: set<EntitlementId>, now: Instant)
    : map<Digest, string>
  {
    match LifecycleHorizon(db, holder, revoked)
    case None => map[]
    case Some(lapsedAt) =>
      if now < lapsedAt then map[]
      else DueFrom(db.terms, LiveRows(db.snapshots, holder), lapsedAt, now)
  }

  function DueFrom(terms: map<TermsId, TermsDocument>, rows: map<Digest, Row>, lapsedAt: Instant,
                   now: Instant): map<Digest, string>
  {
    map d | d in rows && Ends(terms, rows[d], lapsedAt).Some? && Ends(terms, rows[d], lapsedAt).value <= now
      :: EndOfPayment(terms, rows[d].termsId).value.afterGrace
  }

  /** The digests whose clause is readable and whose window end is representable. */
  function Protected(terms: map<TermsId, TermsDocument>, rows: map<Digest, Row>, lapsedAt: Instant): set<Digest> {
    set d | d in rows && Ends(terms, rows[d], lapsedAt).Some?
  }

  /** The order rows are listed in: newest first, equal stamps by digest. */
  predicate ListedBefore(rows: map<Digest, Row>, a: Digest, b: Digest)
    requires a in rows && b in rows
  {
    rows[b].retainedAt < rows[a].retainedAt || (rows[a].retainedAt == rows[b].retainedAt && a < b)
  }

  /** `d` carries a later window end than `e`, or the same one and is listed first. */
  predicate Beats(terms: map<TermsId, TermsDocument>, rows: map<Digest, Row>, lapsedAt: Instant, d: Digest, e: Digest)
    requires d in Protected(terms, rows, lapsedAt) && e in Protected(terms, rows, lapsedAt)
  {
    var endD, endE := Ends(terms, rows[d], lapsedAt).value, Ends(terms, rows[e], lapsedAt).value;
    endE < endD || (endE == endD && ListedBefore(rows, d, e))
  }

  ghost predicate Best(terms: map<TermsId, TermsDocument>, rows: map<Digest, Row>, lapsedAt: Instant,
                       among: set<Digest>, d: Digest)
    requires among <= Protected(terms, rows, lapsedAt)
  {
    d in among && forall e :: e in among && e != d ==> Beats(terms, rows, lapsedAt, d, e)
  }

  ghost function BestOf(terms: map<TermsId, TermsDocument>, rows: map<Digest, Row>, lapsedAt: Instant,
                        among: set<Digest>): (d: Digest)
    requires {} != among <= Protected(terms, rows, lapsedAt)
    ensures Best(terms, rows, lapsedAt, among, d)
  {
    var x := Pick(among);
    var rest := among - {x};
    if rest == {} then
      assert among == {x};
      x
    else
      var d := BestOf(terms, rows, lapsedAt, rest);
      var top := if Beats(terms, rows, lapsedAt, x, d) then x else d;
      assert forall e :: e in among && e != top ==> Beats(terms, rows, lapsedAt, top, e) by {
        forall e | e in among && e != top ensures Beats(terms, rows, lapsedAt, top, e) {
          assert e == x || e in rest;
        }
      }
      top
  }

  /** What a lapse row would say now: the horizon, the latest window end over the live
      snapshots, and the action of the snapshot that carries it. */
  ghost function LapseStateAt(terms: map<TermsId, TermsDocument>, rows: map<Digest, Row>,
                              lapsedAt: Instant): (r: Option<LapseState>)
    ensures r.Some? <==> Protected(terms, rows, lapsedAt) != {}
    ensures r.Some? ==> r.value.lapsedAt == lapsedAt
  {
    if Protected(terms, rows, lapsedAt) == {} then None
    else
      var d := BestOf(terms, rows, lapsedAt, Protected(terms, rows, lapsedAt));
      Some(LapseState(lapsedAt, Ends(terms, rows[d], lapsedAt).value,
                      EndOfPayment(terms, rows[d].termsId).value.afterGrace))
  }
}
