/** `POST /v1/erasures` as the operator runs it (erasures.rs), once the holder is authenticated. */
module Erasures {
  import opened Types
  import opened Tables
  import opened Receipts
  import opened Stores
  import opened Blobs

  datatype Answer =
    | Acknowledged(receipts: seq<Mint>)
    | Replayed(ids: seq<ReceiptId>)
    | RetentionExpired
    | ReceiptExpired
    | NoSuchSnapshot
    | NoSuchTerms
    | Undecided

  /** What an erasure may answer, and what it leaves behind, for every state of the tables. */
  ghost predicate Decides(before: Tables, after: Tables, holder: Holder, scope: Scope, operation: OperationId,
                          at: Instant, nextId: nat -> ReceiptId, answer: Answer)
  {
    var rows := TargetRows(before.snapshots, holder, scope);
    match answer
    case Acknowledged(minted) =>
      && rows != map[] && MintedFor(minted, before.terms, rows, at)
      && (forall i :: 0 <= i < |minted| ==> minted[i].id == nextId(i))
      && after == CommitErasure(before, holder, scope, rows, minted, operation, at)
    case NoSuchTerms => rows != map[] && after == before && exists d :: d in rows && rows[d].termsId !in before.terms
    case Undecided =>
      rows != map[] && after == before && exists d :: d in rows && Uncomposable(before.terms, rows[d].termsId, at)
    case _ => rows == map[] && AnswersNothingLive(before, after, holder, scope, operation, at, answer)
  }

  predicate Uncomposable(terms: map<TermsId, TermsDocument>, id: TermsId, at: Instant) {
    id in terms && Compose(terms[id], at).None?
  }

  ghost predicate AnswersNothingLive(before: Tables, after: Tables, holder: Holder, scope: Scope,
                                     operation: OperationId, at: Instant, answer: Answer)
  {
    var unavailable := ScopeIsUnavailable(before.snapshots, holder, scope);
    var erased := ErasedDigests(before.snapshots, holder, scope);
    var latest := Latest(before, holder, scope, erased);
    match answer
    case Replayed(ids) =>
      && !unavailable && latest != {}
      && (forall id :: id in ids <==> id in latest) && InTermsOrder(ids, before.receipts)
      && after == RecordOutcome(before, holder, operation, Outcome(ErasureAcknowledged, latest, at))
    case RetentionExpired => unavailable && after == before
    case ReceiptExpired => !unavailable && latest == {} && erased != {} && after == before
    case NoSuchSnapshot => !unavailable && latest == {} && erased == {} && after == before
    case _ => false
  }

  /** The directories of what was erased go, and no others. */
  ghost predicate Unlinks(snapshots: map<Key, Row>, before: Disk, after: Disk, holder: Holder, scope: Scope,
                          answer: Answer)
  {
    after == if answer.Acknowledged?
             then before.(retained := before.retained - Keyed(holder, TargetRows(snapshots, holder, scope).Keys))
             else before
  }

  // ---- In terms of the rows and receipts on record ----------------------------------------------

  ghost predicate InHolding(snapshots: map<Key, Row>, holder: Holder, scope: Scope, key: Key) {
    key in snapshots && key.holder == holder && (scope == All || scope == One(key.digest))
  }

  ghost predicate AnyLive(snapshots: map<Key, Row>, holder: Holder, scope: Scope) {
    exists key :: InHolding(snapshots, holder, scope, key) && LiveAt(snapshots, key)
  }

  ghost predicate AnyUnerased(snapshots: map<Key, Row>, holder: Holder, scope: Scope) {
    exists key :: InHolding(snapshots, holder, scope, key) && snapshots[key].erasedAt.None?
  }

  /** A receipt a retry may be answered with: for the same scope, or for something in it that is
      erased. */
  ghost predicate Relevant(db: Tables, holder: Holder, scope: Scope, id: ReceiptId) {
    && id in db.receipts && db.receipts[id].holder == holder
    && (db.receipts[id].scope == scope || exists key :: CoversErased(db, holder, scope, key, id))
  }

  ghost predicate CoversErased(db: Tables, holder: Holder, scope: Scope, key: Key, id: ReceiptId) {
    && InHolding(db.snapshots, holder, scope, key) && db.snapshots[key].erasedAt.Some?
    && (id, key.digest) in db.coverage
  }

  ghost predicate IsNewest(db: Tables, holder: Holder, scope: Scope, id: ReceiptId) {
    && Relevant(db, holder, scope, id)
    && forall other :: Relevant(db, holder, scope, other) ==> db.receipts[other].issuedAt <= db.receipts[id].issuedAt
  }

  /** Those of them that carry the newest stamp, by terms id and then by their own. */
  ghost predicate NewestRelevant(db: Tables, holder: Holder, scope: Scope, ids: seq<ReceiptId>) {
    && (forall id :: id in ids <==> IsNewest(db, holder, scope, id))
    && (forall i, j :: 0 <= i < j < |ids| ==>
          && ids[i] in db.receipts && ids[j] in db.receipts
          && (db.receipts[ids[i]].termsId < db.receipts[ids[j]].termsId ||
              (db.receipts[ids[i]].termsId == db.receipts[ids[j]].termsId && ids[i] < ids[j])))
  }

  ghost predicate OutcomeRecorded(before: Tables, after: Tables, key: OutcomeKey, ids: seq<ReceiptId>, at: Instant) {
    && key in after.outcomes && after == before.(outcomes := before.outcomes[key := after.outcomes[key]])
    && after.outcomes[key].status == ErasureAcknowledged && after.outcomes[key].recordedAt == at
    && forall id :: id in after.outcomes[key].receiptIds <==> id in ids
  }

  /** Each answer with exactly the states it is given in. While anything in scope is live, the
      erasure commits or its terms refuse it. Otherwise what is expired but not erased comes first,
      then receipts to replay, then what was erased but has no receipt left. */
  ghost predicate AnswersAsDue(before: Tables, after: Tables, holder: Holder, scope: Scope, operation: OperationId,
                               at: Instant, answer: Answer)
  {
    var live, unerased := AnyLive(before.snapshots, holder, scope), AnyUnerased(before.snapshots, holder, scope);
    var relevant := exists id :: Relevant(before, holder, scope, id);
    var held := exists key :: InHolding(before.snapshots, holder, scope, key);
    && (answer.Acknowledged? || answer.NoSuchTerms? || answer.Undecided? <==> live)
    && (answer.RetentionExpired? <==> !live && unerased)
    && (answer.Replayed? <==> !unerased && relevant)
    && (answer.ReceiptExpired? <==> !unerased && !relevant && held)
    && (answer.NoSuchSnapshot? <==> !relevant && !held)
    && (answer.Acknowledged? ==> ErasureRecorded(before, after, holder, scope, answer.receipts, operation, at))
    && (answer.Replayed? ==> NewestRelevant(before, holder, scope, answer.ids)
                             && OutcomeRecorded(before, after, OutcomeKey(holder, operation), answer.ids, at))
    && (!answer.Acknowledged? && !answer.Replayed? ==> after == before)
  }

  lemma ScopeInTerms(snapshots: map<Key, Row>, holder: Holder, scope: Scope)
    ensures TargetRows(snapshots, holder, scope) != map[] <==> AnyLive(snapshots, holder, scope)
    ensures ErasedDigests(snapshots, holder, scope) != {} <==>
            exists key :: InHolding(snapshots, holder, scope, key) && snapshots[key].erasedAt.Some?
    ensures TargetRows(snapshots, holder, scope) == map[] ==>
              (ScopeIsUnavailable(snapshots, holder, scope) <==> AnyUnerased(snapshots, holder, scope))
  {
    var rows, erased := TargetRows(snapshots, holder, scope), ErasedDigests(snapshots, holder, scope);
    forall key | InHolding(snapshots, holder, scope, key)
      ensures LiveAt(snapshots, key) <==> key.digest in rows
      ensures snapshots[key].erasedAt.Some? <==> key.digest in erased
    {
      assert key == Key(holder, key.digest);
    }
    if rows != map[] {
      assert InHolding(snapshots, holder, scope, Key(holder, Pick(rows.Keys)));
    }
    if erased != {} {
      assert InHolding(snapshots, holder, scope, Key(holder, Pick(erased)));
    }
  }

  lemma CandidatesAreRelevant(db: Tables, holder: Holder, scope: Scope)
    ensures forall id :: id in Candidates(db, holder, scope, ErasedDigests(db.snapshots, holder, scope)) <==>
                         Relevant(db, holder, scope, id)
  {
    var erased := ErasedDigests(db.snapshots, holder, scope);
    forall id ensures id in Candidates(db, holder, scope, erased) <==> Relevant(db, holder, scope, id) {
      if id in db.receipts && CoversOne(db.coverage, id, erased) {
        var d :| d in erased && (id, d) in db.coverage;
        assert CoversErased(db, holder, scope, Key(holder, d), id);
      }
      if exists key :: CoversErased(db, holder, scope, key, id) {
        var key :| CoversErased(db, holder, scope, key, id);
        assert key == Key(holder, key.digest) && key.digest in erased;
      }
    }
  }

  lemma LatestIsNewest(db: Tables, holder: Holder, scope: Scope)
    ensures var latest := Latest(db, holder, scope, ErasedDigests(db.snapshots, holder, scope));
            && (latest != {} <==> exists id :: Relevant(db, holder, scope, id))
            && forall id :: id in latest <==> IsNewest(db, holder, scope, id)
  {
    CandidatesAreRelevant(db, holder, scope);
    var candidates := Candidates(db, holder, scope, ErasedDigests(db.snapshots, holder, scope));
    if candidates != {} {
      var id := NewestOf(db, candidates);
      assert id in Latest(db, holder, scope, ErasedDigests(db.snapshots, holder, scope));
    }
  }

  lemma NewestOf(db: Tables, candidates: set<ReceiptId>) returns (id: ReceiptId)
    requires candidates != {} && forall id :: id in candidates ==> id in db.receipts
    ensures id in candidates
    ensures forall other :: other in candidates ==> db.receipts[other].issuedAt <= db.receipts[id].issuedAt
  {
    var stamps := set id | id in candidates :: db.receipts[id].issuedAt;
    var any := Pick(candidates);
    assert db.receipts[any].issuedAt in stamps;
    var top := MaxOf(stamps).value;
    assert IsMax(stamps, top);
    id :| id in candidates && db.receipts[id].issuedAt == top;
    forall other | other in candidates ensures db.receipts[other].issuedAt <= db.receipts[id].issuedAt {
      assert db.receipts[other].issuedAt in stamps;
    }
  }

  lemma NothingLiveAsDue(before: Tables, after: Tables, holder: Holder, scope: Scope, operation: OperationId,
                         at: Instant, answer: Answer)
    requires !AnyLive(before.snapshots, holder, scope)
    requires AnswersNothingLive(before, after, holder, scope, operation, at, answer)
    ensures AnswersAsDue(before, after, holder, scope, operation, at, answer)
  {
    ScopeInTerms(before.snapshots, holder, scope);
    LatestIsNewest(before, holder, scope);
    NeverUnerased(before.snapshots, holder, scope);
  }

  lemma NeverUnerased(snapshots: map<Key, Row>, holder: Holder, scope: Scope)
    ensures AnyLive(snapshots, holder, scope) ==> AnyUnerased(snapshots, holder, scope)
    ensures !AnyUnerased(snapshots, holder, scope) ==>
              ((exists key :: InHolding(snapshots, holder, scope, key)) <==>
               (exists key :: InHolding(snapshots, holder, scope, key) && snapshots[key].erasedAt.Some?))
  {
  }

  lemma LiveAsDue(before: Tables, after: Tables, holder: Holder, scope: Scope, operation: OperationId, at: Instant,
                  answer: Answer)
    requires AnyLive(before.snapshots, holder, scope)
    requires answer.Acknowledged? || answer.NoSuchTerms? || answer.Undecided?
    requires if answer.Acknowledged? then ErasureRecorded(before, after, holder, scope, answer.receipts, operation, at)
             else after == before
    ensures AnswersAsDue(before, after, holder, scope, operation, at, answer)
  {
    NeverUnerased(before.snapshots, holder, scope);
  }

  /** For every state of the tables, the answer is the one that is due. */
  lemma DecidesAsDue(before: Tables, after: Tables, holder: Holder, scope: Scope, operation: OperationId, at: Instant,
                     nextId: nat -> ReceiptId, answer: Answer)
    requires Decides(before, after, holder, scope, operation, at, nextId, answer)
    ensures AnswersAsDue(before, after, holder, scope, operation, at, answer)
  {
    ScopeInTerms(before.snapshots, holder, scope);
    match answer
    case Acknowledged(minted) =>
      CommitRecordsTheErasure(before, holder, scope, minted, operation, at);
      LiveAsDue(before, after, holder, scope, operation, at, answer);
    case NoSuchTerms => LiveAsDue(before, after, holder, scope, operation, at, answer);
    case Undecided => LiveAsDue(before, after, holder, scope, operation, at, answer);
    case _ => NothingLiveAsDue(before, after, holder, scope, operation, at, answer);
  }

  /** Of the directories, exactly those of what the erasure took out of the live set go. */
  lemma UnlinksItsScope(snapshots: map<Key, Row>, before: Disk, after: Disk, holder: Holder, scope: Scope,
                        answer: Answer)
    requires Unlinks(snapshots, before, after, holder, scope, answer)
    ensures after.incoming == before.incoming
    ensures forall key :: key in after.retained <==>
              key in before.retained &&
              !(answer.Acknowledged? && InHolding(snapshots, holder, scope, key) && LiveAt(snapshots, key))
    ensures forall key :: key in after.retained ==> after.retained[key] == before.retained[key]
  {
    var doomed := Keyed(holder, TargetRows(snapshots, holder, scope).Keys);
    forall key ensures key in doomed <==> InHolding(snapshots, holder, scope, key) && LiveAt(snapshots, key) {
      assert key == Key(key.holder, key.digest);
    }
  }

  /** Rows, receipts and outcome commit together; the bytes go last. */
  method Erase(store: Store, blobs: Blobs, holder: Holder, scope: Scope, operation: OperationId, at: Instant,
               nextId: nat -> ReceiptId)
    returns (answer: Answer)
    requires forall i, j :: i != j ==> nextId(i) != nextId(j)
    modifies store, blobs
    ensures Decides(old(store.db), store.db, holder, scope, operation, at, nextId, answer)
    ensures Unlinks(old(store.db).snapshots, old(blobs.disk), blobs.disk, holder, scope, answer)
    ensures AnswersAsDue(old(store.db), store.db, holder, scope, operation, at, answer)
  {
    ghost var before := store.db;
    var targets := TargetRows(store.db.snapshots, holder, scope);
    if targets == map[] {
      answer := EraseNothingLive(store, holder, scope, operation, at);
    } else {
      var minted := MintPerTerms(store.db.terms, targets, at, nextId);
      match minted {
        case TermsMissing => answer := NoSuchTerms;
        case Refused => answer := Undecided;
        case Composed(receipts) =>
          store.CommitErasure(holder, scope, targets, receipts, operation, at);
          UnlinkAll(blobs, holder, targets.Keys);
          answer := Acknowledged(receipts);
      }
    }
    DecidesAsDue(before, store.db, holder, scope, operation, at, nextId, answer);
  }

  /** Nothing live in scope: expired, already erased, receipts gone, or never held. */
  method EraseNothingLive(store: Store, holder: Holder, scope: Scope, operation: OperationId, at: Instant)
    returns (answer: Answer)
    requires TargetRows(store.db.snapshots, holder, scope) == map[]
    modifies store
    ensures AnswersNothingLive(old(store.db), store.db, holder, scope, operation, at, answer)
  {
    if ScopeIsUnavailable(store.db.snapshots, holder, scope) {
      return RetentionExpired;
    }
    var erased := ErasedDigests(store.db.snapshots, holder, scope);
    var existing := store.LatestReceipts(holder, scope, erased);
    ghost var latest := Latest(store.db, holder, scope, erased);
    if existing != [] {
      assert existing[0] in existing && existing[0] in latest;
      var ids := set id | id in existing;
      assert ids == latest;
      store.RecordOutcome(holder, operation, Outcome(ErasureAcknowledged, ids, at));
      return Replayed(existing);
    }
    assert forall id :: id !in latest;
    if erased != {} {
      return ReceiptExpired;
    }
    return NoSuchSnapshot;
  }

  method UnlinkAll(blobs: Blobs, holder: Holder, digests: set<Digest>)
    modifies blobs
    ensures blobs.disk == old(blobs.disk).(retained := old(blobs.disk).retained - Keyed(holder, digests))
  {
    var left := digests;
    ghost var before := blobs.disk;
    while left != {}
      invariant left <= digests
      invariant blobs.disk == before.(retained := before.retained - Keyed(holder, digests - left))
      decreases left
    {
      var d :| d in left;
      assert Keyed(holder, digests - (left - {d})) == Keyed(holder, digests - left) + {Key(holder, d)};
      blobs.Erase(Key(holder, d));
      left := left - {d};
    }
    assert digests - left == digests;
  }

  /** An erasure commits exactly when something is live in its scope and every document
      those snapshots pin composes; its receipts then partition them. Unless it commits or
      replays, nothing changes at all. */
  lemma CommitsExactlyWhenEverythingComposes(before: Tables, after: Tables, holder: Holder, scope: Scope,
                                             operation: OperationId, at: Instant, nextId: nat -> ReceiptId,
                                             answer: Answer)
    requires Decides(before, after, holder, scope, operation, at, nextId, answer)
    ensures var rows := TargetRows(before.snapshots, holder, scope);
            && (answer.Acknowledged? <==> rows != map[] && AllCompose(before.terms, rows, at))
            && (answer.Acknowledged? ==> Partition(answer.receipts, rows))
            && (!answer.Acknowledged? && !answer.Replayed? ==> after == before)
  {
    var rows := TargetRows(before.snapshots, holder, scope);
    if answer.Acknowledged? {
      var minted := answer.receipts;
      ReceiptsPartitionTargets(minted, before.terms, rows, at);
      forall d | d in rows ensures Composes(before.terms, rows[d].termsId, at) {
        var i :| 0 <= i < |minted| && minted[i].termsId == rows[d].termsId;
      }
    }
  }
}
