/** Erasure receipts (erasures.rs and the receipt tables of store.rs). */
module Receipts {
  import opened Types
  import opened Tables
  import Durations
  import Lapse

  // ---- Composing one receipt ---------------------------------------------------------

  /** What `trim` strips. */
  predicate IsSpace(c: char) {
    || '\t' <= c <= '\r' || c == ' ' || c == '\U{85}' || c == '\U{A0}' || c == '\U{1680}'
    || '\U{2000}' <= c <= '\U{200A}' || c == '\U{2028}' || c == '\U{2029}' || c == '\U{202F}' || c == '\U{205F}' ||
      c == '\U{3000}'
  }

  /** The 25 characters Unicode gives the property White_Space. */
  lemma SpacesAreWhiteSpace(c: char)
    ensures IsSpace(c) <==>
            c in "\t\n\U{0B}\U{0C}\r \U{85}\U{A0}\U{1680}\U{2000}\U{2001}\U{2002}\U{2003}\U{2004}\U{2005}" ||
            c in "\U{2006}\U{2007}\U{2008}\U{2009}\U{200A}\U{2028}\U{2029}\U{202F}\U{205F}\U{3000}"
  {
  }

  predicate Blank(s: string) { forall i :: 0 <= i < |s| ==> IsSpace(s[i]) }

  /** `parse::<i64>()`, sign included. */
  function ParseSigned(s: string): Option<int> {
    var digits := if s != "" && (s[0] == '+' || s[0] == '-') then s[1..] else s;
    if digits == "" || !Durations.AllDigits(digits) then None
    else
      var magnitude: int := Durations.DigitsValue(digits);
      var n := if s[0] == '-' then 0 - magnitude else magnitude;
      if -I64_MAX - 1 <= n <= I64_MAX then Some(n) else None
  }

  /** `iso8601_days`: P, a positive whole number of days, D; in seconds. */
  function DaysOnly(period: string): (r: Option<int>)
    ensures r.Some? ==> 0 < r.value <= I64_MAX
  {
    if |period| < 2 || period[0] != 'P' || period[|period| - 1] != 'D' then None
    else
      match ParseSigned(period[1..|period| - 1])
      case None => None
      case Some(days) => if 0 < days && days * Durations.DAY <= I64_MAX then Some(days * Durations.DAY) else None
  }

  /** The instant a receipt commits to, or None when the pinned terms cannot carry one. */
  function Compose(terms: TermsDocument, at: Instant): (committedBy: Option<Instant>)
    ensures committedBy.Some? ==> at < committedBy.value <= Lapse.MAX_INSTANT
  {
    var clause := terms.erasure;
    if Blank(clause.excluded) || Blank(clause.scope) || clause.completionDeadline.None? then None
    else
      match DaysOnly(clause.completionDeadline.value)
      case None => None
      case Some(seconds) => if at + seconds <= Lapse.MAX_INSTANT then Some(at + seconds) else None
  }

  /** `P`, digits, `D`, with leading zeros or none. */
  predicate PlainDays(period: string) {
    |period| >= 3 && period[0] == 'P' && period[|period| - 1] == 'D' && Durations.AllDigits(period[1..|period| - 1])
  }

  /** The period without the plus sign an integer parser lets through. */
  function Unsigned(period: string): string {
    if |period| >= 3 && period[1] == '+' then [period[0]] + period[2..] else period
  }

  /** For every string: the receipt's reader accepts exactly the plain whole-day periods, with
      or without a plus sign, that the reader of declared durations finds positive, and reads
      them as that reader does. */
  lemma DeadlineMeansWhatTheTermsSay(period: string)
    ensures DaysOnly(period) ==
            if PlainDays(Unsigned(period)) && Durations.DurationSeconds(Unsigned(period)) != Some(0)
            then Durations.DurationSeconds(Unsigned(period)) else None
  {
    var plain := Unsigned(period);
    if PlainDays(plain) {
      PlainDaysRead(plain);
      if plain == period {
        PlainDaysAccepted(period);
      } else {
        PlusDaysAccepted(period);
      }
    } else {
      OnlyPlainDays(period);
    }
  }

  lemma PlainDaysRead(period: string)
    requires PlainDays(period)
    ensures var days := Durations.DigitsValue(period[1..|period| - 1]);
            Durations.DurationSeconds(period) == if days * Durations.DAY <= I64_MAX then Some(days * Durations.DAY)
              else None
  {
    var digits := period[1..|period| - 1];
    Durations.ReadsDigits(digits, 'D', false);
    assert "P" + (digits + ['D']) == period;
  }

  lemma PlainDaysAccepted(period: string)
    requires PlainDays(period)
    ensures var days := Durations.DigitsValue(period[1..|period| - 1]);
            DaysOnly(period) == if 0 < days && days * Durations.DAY <= I64_MAX then Some(days * Durations.DAY) else None
  {
    var digits := period[1..|period| - 1];
    assert Durations.IsDigit(digits[0]) && digits[0] != '+' && digits[0] != '-';
  }

  lemma PlusDaysAccepted(period: string)
    requires Unsigned(period) != period && PlainDays(Unsigned(period))
    ensures var days := Durations.DigitsValue(Unsigned(period)[1..|Unsigned(period)| - 1]);
            DaysOnly(period) == if 0 < days && days * Durations.DAY <= I64_MAX then Some(days * Durations.DAY) else None
  {
    var plain := Unsigned(period);
    var inside, digits := period[1..|period| - 1], plain[1..|plain| - 1];
    assert plain == [period[0]] + period[2..];
    assert period[|period| - 1] == plain[|plain| - 1];
    assert inside[0] == '+' && inside[1..] == digits;
  }

  lemma OnlyPlainDays(period: string)
    requires !PlainDays(Unsigned(period))
    ensures DaysOnly(period).None?
  {
    if |period| >= 2 && period[0] == 'P' && period[|period| - 1] == 'D' {
      var inside := period[1..|period| - 1];
      if inside != "" && inside[0] == '+' {
        var plain := Unsigned(period);
        assert plain == [period[0]] + period[2..];
        assert plain[1..|plain| - 1] == inside[1..];
      }
    }
  }

  /** So the two readers agree on a deadline the receipt accepts exactly when it carries no
      plus sign; with one, the reader of declared durations refuses it. */
  lemma ReadersDisagreeOnAPlus(period: string)
    requires DaysOnly(period).Some?
    ensures Durations.DurationSeconds(period) == if period[1] == '+' then None else DaysOnly(period)
  {
    DeadlineMeansWhatTheTermsSay(period);
    if period[1] == '+' {
      PlusIsNoDigit(period);
    }
  }

  lemma PlusIsNoDigit(period: string)
    requires |period| >= 2 && period[0] == 'P' && period[1] == '+'
    ensures Durations.DurationSeconds(period).None?
  {
    assert period[1..][0] == '+';
  }

  /** A receipt cites its terms and nothing else: it commits to as long after the
      acknowledgement as the terms' deadline says, and is refused exactly when they name no
      scope, no exclusion, or no deadline its reader accepts, or the end is out of range. */
  lemma ReceiptCommitsToItsTerms(terms: TermsDocument, at: Instant)
    ensures var clause := terms.erasure;
            var period := if clause.completionDeadline.Some? then Unsigned(clause.completionDeadline.value) else "";
            var seconds := Durations.DurationSeconds(period);
            Compose(terms, at) ==
            if Blank(clause.scope) || Blank(clause.excluded) || clause.completionDeadline.None? || !PlainDays(period)
               || seconds.None? || seconds == Some(0) || at + seconds.value > Lapse.MAX_INSTANT
            then None else Some(at + seconds.value)
  {
    if terms.erasure.completionDeadline.Some? {
      DeadlineMeansWhatTheTermsSay(terms.erasure.completionDeadline.value);
    }
  }

  // ---- Targets and the receipts over them ------------------------------------------------

  predicate InScope(scope: Scope, digest: Digest) { scope.All? || scope.digest == digest }

  /** `snapshots_in_scope`: the holder's live rows the scope names. */
  function TargetRows(snapshots: map<Key, Row>, holder: Holder, scope: Scope): (rows: map<Digest, Row>)
    ensures forall d :: d in rows <==> LiveAt(snapshots, Key(holder, d)) && InScope(scope, d)
    ensures forall d :: d in rows ==> Key(holder, d) in snapshots && rows[d] == snapshots[Key(holder, d)]
  {
    var live := LiveRows(snapshots, holder);
    map d | d in live && InScope(scope, d) :: live[d]
  }

  function ErasedDigests(snapshots: map<Key, Row>, holder: Holder, scope: Scope): (digests: set<Digest>)
    ensures forall d :: d in digests <==>
              Key(holder, d) in snapshots && snapshots[Key(holder, d)].erasedAt.Some? && InScope(scope, d)
  {
    var digests := set key | key in snapshots && key.holder == holder && snapshots[key].erasedAt.Some? &&
      InScope(scope, key.digest)
                     :: key.digest;
    assert forall d :: Key(holder, d) in snapshots && snapshots[Key(holder, d)].erasedAt.Some? && InScope(scope, d) ==>
             Key(holder, d).digest in digests;
    digests
  }

  predicate ScopeIsUnavailable(snapshots: map<Key, Row>, holder: Holder, scope: Scope) {
    exists key :: key in snapshots && key.holder == holder && InScope(scope, key.digest)
                  && snapshots[key].erasedAt.None? && snapshots[key].retainedUntil.Some?
  }

  /** One receipt about to be stored. */
  datatype Mint = Mint(id: ReceiptId, termsId: TermsId, covers: set<Digest>, committedBy: Instant)

  function Under(rows: map<Digest, Row>, termsId: TermsId): set<Digest> {
    set d | d in rows && rows[d].termsId == termsId
  }

  predicate Composes(terms: map<TermsId, TermsDocument>, termsId: TermsId, at: Instant) {
    termsId in terms && Compose(terms[termsId], at).Some?
  }

  predicate AllCompose(terms: map<TermsId, TermsDocument>, rows: map<Digest, Row>, at: Instant) {
    forall d :: d in rows ==> Composes(terms, rows[d].termsId, at)
  }

  predicate Ascending(minted: seq<Mint>) {
    forall i, j :: 0 <= i < j < |minted| ==> minted[i].termsId < minted[j].termsId
  }

  predicate DistinctIds(minted: seq<Mint>) {
    forall i, j :: 0 <= i < j < |minted| ==> minted[i].id != minted[j].id
  }

  /** One receipt for each terms id the targets pin, in order, covering what pinned it. */
  ghost predicate MintedFor(minted: seq<Mint>, terms: map<TermsId, TermsDocument>, rows: map<Digest, Row>,
                            at: Instant)
  {
    && Ascending(minted) && DistinctIds(minted)
    && (forall d :: d in rows ==> exists i :: 0 <= i < |minted| && minted[i].termsId == rows[d].termsId)
    && (forall i :: 0 <= i < |minted| ==>
          && minted[i].covers == Under(rows, minted[i].termsId) != {}
          && Composes(terms, minted[i].termsId, at)
          && Compose(terms[minted[i].termsId], at) == Some(minted[i].committedBy))
  }

  /** The receipts partition the targets: none is empty or reaches past them, no two
      overlap, every target is covered, and always by the one for the terms it pinned. */
  ghost predicate Partition(minted: seq<Mint>, rows: map<Digest, Row>) {
    && (forall i :: 0 <= i < |minted| ==> minted[i].covers != {} && minted[i].covers <= rows.Keys)
    && (forall i, j :: 0 <= i < j < |minted| ==> minted[i].covers !! minted[j].covers)
    && (forall d :: d in rows ==> Covered(minted, d))
    && (forall i, d :: 0 <= i < |minted| && d in minted[i].covers ==> d in rows && rows[d].termsId == minted[i].termsId)
  }

  ghost predicate Covered(minted: seq<Mint>, d: Digest) {
    exists i :: 0 <= i < |minted| && d in minted[i].covers
  }

  lemma ReceiptsPartitionTargets(minted: seq<Mint>, terms: map<TermsId, TermsDocument>, rows: map<Digest, Row>,
                                 at: Instant)
    requires MintedFor(minted, terms, rows, at)
    ensures Partition(minted, rows)
  {
    forall i | 0 <= i < |minted| ensures minted[i].covers <= rows.Keys {
      assert minted[i].covers == Under(rows, minted[i].termsId);
    }
    forall d | d in rows ensures Covered(minted, d) {
      var i :| 0 <= i < |minted| && minted[i].termsId == rows[d].termsId;
      assert d in minted[i].covers;
    }
    forall i, j | 0 <= i < j < |minted| ensures minted[i].covers !! minted[j].covers {
      assert minted[i].termsId < minted[j].termsId;
      UnderIsDisjoint(rows, minted[i].termsId, minted[j].termsId);
    }
  }

  lemma UnderIsDisjoint(rows: map<Digest, Row>, a: TermsId, b: TermsId)
    requires a != b
    ensures Under(rows, a) !! Under(rows, b)
  {
  }

  /** The pinned terms ids: collected, sorted, deduplicated. */
  method PinnedTerms(rows: map<Digest, Row>) returns (pinned: seq<TermsId>)
    ensures forall i, j :: 0 <= i < j < |pinned| ==> pinned[i] < pinned[j]
    ensures forall id :: id in pinned <==> Under(rows, id) != {}
  {
    pinned := [];
    var left := rows.Keys;
    while left != {}
      invariant left <= rows.Keys
      invariant forall i, j :: 0 <= i < j < |pinned| ==> pinned[i] < pinned[j]
      invariant forall id :: id in pinned <==> exists d :: d in rows.Keys - left && rows[d].termsId == id
      decreases left
    {
      ghost var before, done := pinned, rows.Keys - left;
      var d :| d in left;
      left := left - {d};
      pinned := Place(pinned, rows[d].termsId);
      assert rows.Keys - left == done + {d};
      forall id ensures id in pinned <==> exists e :: e in rows.Keys - left && rows[e].termsId == id {
        if id in pinned && id in before {
          var e :| e in done && rows[e].termsId == id;
          assert e in rows.Keys - left;
        } else if id in pinned {
          assert d in rows.Keys - left && rows[d].termsId == id;
        }
      }
    }
    assert rows.Keys - left == rows.Keys;
    forall id ensures id in pinned <==> Under(rows, id) != {} {
      if id in pinned {
        var d :| d in rows && rows[d].termsId == id;
        assert d in Under(rows, id);
      }
      if Under(rows, id) != {} {
        var d := Pick(Under(rows, id));
      }
    }
  }

  function Place(ids: seq<TermsId>, id: TermsId): (r: seq<TermsId>)
    requires forall i, j :: 0 <= i < j < |ids| ==> ids[i] < ids[j]
    ensures forall i, j :: 0 <= i < j < |r| ==> r[i] < r[j]
    ensures forall x :: x in r <==> x in ids || x == id
  {
    if ids == [] then [id]
    else if id == ids[0] then ids
    else if id < ids[0] then [id] + ids
    else
      assert ids == [ids[0]] + ids[1..];
      var rest := Place(ids[1..], id);
      assert forall i :: 0 <= i < |rest| ==> rest[i] in rest && (rest[i] in ids[1..] || rest[i] == id);
      assert forall x :: x in ids[1..] ==> ids[0] < x;
      [ids[0]] + rest
  }

  datatype MintResult = Composed(minted: seq<Mint>) | TermsMissing | Refused

  /** Everything that can refuse runs here, before anything is written. */
  method MintPerTerms(terms: map<TermsId, TermsDocument>, rows: map<Digest, Row>, at: Instant, nextId: nat -> ReceiptId)
    returns (r: MintResult)
    requires forall i, j :: i != j ==> nextId(i) != nextId(j)
    ensures r.Composed? <==> AllCompose(terms, rows, at)
    ensures r.TermsMissing? ==> exists d :: d in rows && rows[d].termsId !in terms
    ensures r.Refused? ==>
              exists d :: d in rows && rows[d].termsId in terms && Compose(terms[rows[d].termsId], at).None?
    ensures r.Composed? ==> MintedFor(r.minted, terms, rows, at)
    ensures r.Composed? ==> forall i :: 0 <= i < |r.minted| ==> r.minted[i].id == nextId(i)
  {
    var pinned := PinnedTerms(rows);
    assert forall d :: d in rows ==> d in Under(rows, rows[d].termsId);
    var minted: seq<Mint> := [];
    for i := 0 to |pinned|
      invariant |minted| == i
      invariant forall k :: 0 <= k < i ==>
                  && minted[k].id == nextId(k) && minted[k].termsId == pinned[k]
                  && minted[k].covers == Under(rows, pinned[k])
                  && Composes(terms, pinned[k], at) && Compose(terms[pinned[k]], at) == Some(minted[k].committedBy)
    {
      var id := pinned[i];
      if id !in terms || Compose(terms[id], at).None? {
        ghost var d := Pick(Under(rows, id));
        assert d in rows && !Composes(terms, rows[d].termsId, at);
        return if id !in terms then TermsMissing else Refused;
      }
      minted := minted + [Mint(nextId(i), id, Under(rows, id), Compose(terms[id], at).value)];
    }
    EveryPinnedComposes(terms, rows, at, pinned);
    forall d | d in rows ensures exists i :: 0 <= i < |minted| && minted[i].termsId == rows[d].termsId {
      assert rows[d].termsId in pinned;
      var i :| 0 <= i < |pinned| && pinned[i] == rows[d].termsId;
      assert minted[i].termsId == rows[d].termsId;
    }
    r := Composed(minted);
  }

  lemma EveryPinnedComposes(terms: map<TermsId, TermsDocument>, rows: map<Digest, Row>, at: Instant,
                            pinned: seq<TermsId>)
    requires forall d :: d in rows ==> rows[d].termsId in pinned
    requires forall k :: 0 <= k < |pinned| ==> Composes(terms, pinned[k], at)
    ensures AllCompose(terms, rows, at)
  {
  }

  // ---- The transaction and the sweep --------------------------------------------------------

  function CommitErasure(db: Tables, holder: Holder, scope: Scope, rows: map<Digest, Row>, minted: seq<Mint>,
                         operation: OperationId, at: Instant): Tables
  {
    db.(snapshots := EraseRows(db.snapshots, set d | d in rows :: Key(holder, d), at),
        receipts := db.receipts + NewReceipts(holder, scope, minted, at),
        coverage := db.coverage + NewCoverage(minted),
        outcomes := db.outcomes[OutcomeKey(holder, operation) := Outcome(ErasureAcknowledged, MintIds(minted), at)])
  }

  function MintIds(minted: seq<Mint>): set<ReceiptId> { set i | 0 <= i < |minted| :: minted[i].id }

  function NewReceipts(holder: Holder, scope: Scope, minted: seq<Mint>, at: Instant): (r: map<ReceiptId, Receipt>)
    ensures r.Keys == MintIds(minted)
    ensures DistinctIds(minted) ==>
              forall i :: 0 <= i < |minted| ==>
                minted[i].id in r && r[minted[i].id] == Receipt(holder, scope, minted[i].termsId, at)
    ensures forall id :: id in r ==> r[id].holder == holder && r[id].scope == scope && r[id].issuedAt == at
    decreases |minted|
  {
    if minted == [] then map[]
    else
      var last := minted[|minted| - 1];
      assert MintIds(minted) == MintIds(minted[..|minted| - 1]) + {last.id};
      NewReceipts(holder, scope, minted[..|minted| - 1], at)[last.id := Receipt(holder, scope, last.termsId, at)]
  }

  function NewCoverage(minted: seq<Mint>): (r: set<(ReceiptId, Digest)>)
    ensures forall id, d :: (id, d) in r <==>
              exists i :: 0 <= i < |minted| && minted[i].id == id && d in minted[i].covers
  {
    set i, d | 0 <= i < |minted| && d in minted[i].covers :: (minted[i].id, d)
  }

  function RecordOutcome(db: Tables, holder: Holder, operation: OperationId, outcome: Outcome): Tables {
    db.(outcomes := db.outcomes[OutcomeKey(holder, operation) := outcome])
  }

  /** Outcomes, coverage and receipts past their windows, in one transaction. */
  function SweepOutcomesAndReceipts(db: Tables, uploadsBefore: Instant, receiptsBefore: Instant): Tables {
    db.(outcomes := map key | key in db.outcomes && !Aged(db.outcomes[key], uploadsBefore, receiptsBefore) ::
        db.outcomes[key],
        coverage := (set c | c in db.coverage && !(c.0 in db.receipts && db.receipts[c.0].issuedAt < receiptsBefore)),
        receipts := map id | id in db.receipts && receiptsBefore <= db.receipts[id].issuedAt :: db.receipts[id])
  }

  predicate Aged(outcome: Outcome, uploadsBefore: Instant, receiptsBefore: Instant) {
    outcome.recordedAt < if outcome.status.ErasureAcknowledged? then receiptsBefore else uploadsBefore
  }

  function SweepErasedReferences(snapshots: map<Key, Row>, before: Instant): map<Key, Row> {
    map key | key in snapshots && !(snapshots[key].erasedAt.Some? && snapshots[key].erasedAt.value < before) ::
      snapshots[key]
  }

  // ---- What a committed erasure leaves, table by table ---------------------------------------

  ghost predicate Names(minted: seq<Mint>, id: ReceiptId) { exists i :: 0 <= i < |minted| && minted[i].id == id }

  ghost predicate Pairs(minted: seq<Mint>, id: ReceiptId, d: Digest) {
    exists i :: 0 <= i < |minted| && minted[i].id == id && d in minted[i].covers
  }

  /** Live rows of the holder in the scope become erased at the stamp; no other row changes. */
  ghost predicate RowsErased(before: map<Key, Row>, after: map<Key, Row>, holder: Holder, scope: Scope, at: Instant) {
    && (forall key :: key in after <==> key in before)
    && (forall key :: key in after ==>
          after[key] == if LiveAt(before, key) && key.holder == holder && (scope == All || scope == One(key.digest))
            then before[key].(erasedAt := Some(at)) else before[key])
  }

  /** The minted receipts and what they cover go on record beside what is there. */
  ghost predicate ReceiptsStored(before: Tables, after: Tables, holder: Holder, scope: Scope, minted: seq<Mint>,
                                 at: Instant)
  {
    && (forall id :: id in after.receipts <==> id in before.receipts || Names(minted, id))
    && (forall id :: id in before.receipts && !Names(minted, id) ==> after.receipts[id] == before.receipts[id])
    && (forall i :: 0 <= i < |minted| ==>
          minted[i].id in after.receipts &&
            after.receipts[minted[i].id] == Receipt(holder, scope, minted[i].termsId, at))
    && (forall id: ReceiptId, d: Digest ::
          (id, d) in after.coverage <==> (id, d) in before.coverage || Pairs(minted, id, d))
  }

  /** The operation has an outcome that names exactly the minted receipts and carries their
      stamp; every other operation has the one it had. */
  ghost predicate OutcomeNames(before: map<OutcomeKey, Outcome>, after: map<OutcomeKey, Outcome>, key: OutcomeKey,
                               minted: seq<Mint>, at: Instant)
  {
    && key in after && after[key].status == ErasureAcknowledged && after[key].recordedAt == at
    && (forall id :: id in after[key].receiptIds <==> Names(minted, id))
    && (forall other :: other != key ==> (other in after <==> other in before))
    && (forall other :: other != key && other in after ==> after[other] == before[other])
  }

  ghost predicate ErasureRecorded(before: Tables, after: Tables, holder: Holder, scope: Scope, minted: seq<Mint>,
                                  operation: OperationId, at: Instant)
  {
    && RowsErased(before.snapshots, after.snapshots, holder, scope, at)
    && ReceiptsStored(before, after, holder, scope, minted, at)
    && OutcomeNames(before.outcomes, after.outcomes, OutcomeKey(holder, operation), minted, at)
    && after == before.(snapshots := after.snapshots, receipts := after.receipts, coverage := after.coverage,
                        outcomes := after.outcomes)
  }

  lemma CommitErasesItsScope(db: Tables, holder: Holder, scope: Scope, minted: seq<Mint>, operation: OperationId,
                             at: Instant)
    ensures RowsErased(db.snapshots,
                       CommitErasure(db, holder, scope, TargetRows(db.snapshots, holder, scope), minted, operation,
                                     at).snapshots, holder, scope, at)
  {
    var rows := TargetRows(db.snapshots, holder, scope);
    var doomed := set d | d in rows :: Key(holder, d);
    forall key ensures key in doomed <==>
        LiveAt(db.snapshots, key) && key.holder == holder && (scope == All || scope == One(key.digest))
    {
      assert key == Key(key.holder, key.digest);
    }
  }

  lemma NewReceiptsAreNamed(holder: Holder, scope: Scope, minted: seq<Mint>, at: Instant)
    requires DistinctIds(minted)
    ensures var added := NewReceipts(holder, scope, minted, at);
            && (forall id :: id in added <==> Names(minted, id))
            && (forall i :: 0 <= i < |minted| ==>
                  minted[i].id in added && added[minted[i].id] == Receipt(holder, scope, minted[i].termsId, at))
    ensures forall id: ReceiptId, d: Digest :: (id, d) in NewCoverage(minted) <==> Pairs(minted, id, d)
  {
    var added := NewReceipts(holder, scope, minted, at);
    forall id ensures id in added <==> Names(minted, id) {
      assert id in added <==> id in MintIds(minted);
    }
    forall id: ReceiptId, d: Digest ensures (id, d) in NewCoverage(minted) <==> Pairs(minted, id, d) {
    }
  }

  lemma CommitStoresReceipts(db: Tables, holder: Holder, scope: Scope, rows: map<Digest, Row>, minted: seq<Mint>,
                             operation: OperationId, at: Instant)
    requires DistinctIds(minted)
    ensures ReceiptsStored(db, CommitErasure(db, holder, scope, rows, minted, operation, at), holder, scope, minted, at)
  {
    NewReceiptsAreNamed(holder, scope, minted, at);
  }

  lemma CommitNamesReceipts(db: Tables, holder: Holder, scope: Scope, rows: map<Digest, Row>, minted: seq<Mint>,
                            operation: OperationId, at: Instant)
    ensures OutcomeNames(db.outcomes, CommitErasure(db, holder, scope, rows, minted, operation, at).outcomes,
                         OutcomeKey(holder, operation), minted, at)
  {
  }

  /** For every state of the tables: a committed erasure records itself in full. */
  lemma CommitRecordsTheErasure(db: Tables, holder: Holder, scope: Scope, minted: seq<Mint>, operation: OperationId,
                                at: Instant)
    requires DistinctIds(minted)
    ensures ErasureRecorded(db,
                            CommitErasure(db, holder, scope, TargetRows(db.snapshots, holder, scope), minted,
                                          operation, at), holder, scope, minted, operation, at)
  {
    var rows := TargetRows(db.snapshots, holder, scope);
    CommitErasesItsScope(db, holder, scope, minted, operation, at);
    CommitStoresReceipts(db, holder, scope, rows, minted, operation, at);
    CommitNamesReceipts(db, holder, scope, rows, minted, operation, at);
  }

  // ---- Replay ------------------------------------------------------------------------------------

  /** The receipts relevant to a retry: same scope, or covering one of the erased digests. */
  function Candidates(db: Tables, holder: Holder, scope: Scope, erased: set<Digest>): set<ReceiptId> {
    set id | id in db.receipts && db.receipts[id].holder == holder
             && (db.receipts[id].scope == scope || CoversOne(db.coverage, id, erased))
  }

  predicate CoversOne(coverage: set<(ReceiptId, Digest)>, id: ReceiptId, digests: set<Digest>) {
    exists d :: d in digests && (id, d) in coverage
  }

  /** `latest_receipts_for_erased_scope`: the candidates sharing the newest stamp. */
  function Latest(db: Tables, holder: Holder, scope: Scope, erased: set<Digest>): set<ReceiptId> {
    var candidates := Candidates(db, holder, scope, erased);
    set id | id in candidates && forall other :: other in candidates ==>
      db.receipts[other].issuedAt <= db.receipts[id].issuedAt
  }
}
