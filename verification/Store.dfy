/** The store as the operator holds it: one object, updated statement by statement (store.rs). */
module Stores {
  import opened Types
  import opened Tables
  import Rows = Tables
  import opened Lapse
  import Nonces
  import Receipts

  datatype Listed = Listed(digest: Digest, row: Row)
  {
    /** ORDER BY retained_at DESC, equal stamps by digest. */
    predicate Before(other: Listed) {
      other.row.retainedAt < row.retainedAt || (row.retainedAt == other.row.retainedAt && digest < other.digest)
    }
  }

  /** All of the rows, each once, newest first. */
  ghost predicate IsListing(listed: seq<Listed>, rows: map<Digest, Row>) {
    && (forall i :: 0 <= i < |listed| ==> listed[i].digest in rows && rows[listed[i].digest] == listed[i].row)
    && (forall d :: d in rows ==> Listed(d, rows[d]) in listed)
    && InOrder(listed)
  }

  ghost predicate InOrder(listed: seq<Listed>) {
    forall i, j :: 0 <= i < j < |listed| ==> listed[i].Before(listed[j])
  }

  function Enlist(listed: seq<Listed>, entry: Listed): (r: seq<Listed>)
    ensures forall e :: e in r <==> e in listed || e == entry
  {
    if listed == [] then [entry]
    else if entry.Before(listed[0]) then [entry] + listed
    else
      assert listed == [listed[0]] + listed[1..];
      [listed[0]] + Enlist(listed[1..], entry)
  }

  lemma {:induction false} EnlistKeepsOrder(listed: seq<Listed>, entry: Listed)
    requires InOrder(listed) && forall i :: 0 <= i < |listed| ==> listed[i].digest != entry.digest
    ensures InOrder(Enlist(listed, entry))
  {
    if listed != [] && !entry.Before(listed[0]) {
      var rest := Enlist(listed[1..], entry);
      EnlistKeepsOrder(listed[1..], entry);
      forall j | 0 <= j < |rest| ensures listed[0].Before(rest[j]) {
        assert rest[j] in rest;
      }
    }
  }

  /** The latest of a set of expiries, or None of none. */
  ghost predicate Newest(s: set<Instant>, r: Option<Instant>) {
    (r.None? <==> s == {}) && (r.Some? ==> IsMax(s, r.value))
  }

  lemma LatestIsMax(s: set<Instant>, r: Option<Instant>)
    requires Newest(s, r)
    ensures r == MaxOf(s)
  {
  }

  function Later(held: Option<Instant>, at: Instant): Option<Instant> {
    if held.None? || held.value < at then Some(at) else held
  }

  lemma LaterIsLatest(s: set<Instant>, held: Option<Instant>, at: Instant)
    requires Newest(s, held)
    ensures Newest(s + {at}, Later(held, at))
  {
  }

  function Keyed(holder: Holder, digests: set<Digest>): set<Key> { set d | d in digests :: Key(holder, d) }

  /** The effect of one more `UPDATE ... WHERE erased_at IS NULL`. */
  lemma EraseOneMore(snapshots: map<Key, Row>, holder: Holder, done: set<Digest>, d: Digest, at: Instant)
    ensures var before, after := EraseRows(snapshots, Keyed(holder, done), at),
            EraseRows(snapshots, Keyed(holder, done + {d}), at);
            var key := Key(holder, d);
            after == if key in before && before[key].erasedAt.None? then
              before[key := before[key].(erasedAt := Some(at))] else before
  {
    assert Keyed(holder, done + {d}) == Keyed(holder, done) + {Key(holder, d)};
  }

  /** The rows `receipt_snapshots` gets for one receipt. */
  function Covers(mint: Receipts.Mint): set<(ReceiptId, Digest)> { set d | d in mint.covers :: (mint.id, d) }

  function StoreOne(db: Tables, holder: Holder, scope: Scope, mint: Receipts.Mint, at: Instant): Tables {
    db.(receipts := db.receipts[mint.id := Receipt(holder, scope, mint.termsId, at)],
        coverage := db.coverage + Covers(mint))
  }

  ghost function Stored(db: Tables, holder: Holder, scope: Scope, minted: seq<Receipts.Mint>, at: Instant): Tables {
    db.(receipts := db.receipts + Receipts.NewReceipts(holder, scope, minted, at),
        coverage := db.coverage + Receipts.NewCoverage(minted))
  }

  lemma StoredNone(db: Tables, holder: Holder, scope: Scope, at: Instant)
    ensures Stored(db, holder, scope, [], at) == db
  {
    assert Receipts.NewCoverage([]) == {};
  }

  lemma StoredOneMore(db: Tables, holder: Holder, scope: Scope, minted: seq<Receipts.Mint>, i: nat, at: Instant)
    requires i < |minted|
    ensures Stored(db, holder, scope, minted[..i + 1], at) ==
            StoreOne(Stored(db, holder, scope, minted[..i], at), holder, scope, minted[i], at)
  {
    OneMoreReceipt(holder, scope, minted, i, at);
    OneMoreCovered(minted, i);
    var was, last := Receipts.NewReceipts(holder, scope, minted[..i], at),
      Receipt(holder, scope, minted[i].termsId, at);
    assert db.receipts + was[minted[i].id := last] == (db.receipts + was)[minted[i].id := last];
    assert db.coverage + (Receipts.NewCoverage(minted[..i]) + Covers(minted[i]))
        == db.coverage + Receipts.NewCoverage(minted[..i]) + Covers(minted[i]);
  }

  lemma OneMoreReceipt(holder: Holder, scope: Scope, minted: seq<Receipts.Mint>, i: nat, at: Instant)
    requires i < |minted|
    ensures Receipts.NewReceipts(holder, scope, minted[..i + 1], at) ==
            Receipts.NewReceipts(holder, scope, minted[..i],
                                 at)[minted[i].id := Receipt(holder, scope, minted[i].termsId, at)]
  {
    var upto := minted[..i + 1];
    assert upto[..|upto| - 1] == minted[..i] && upto[|upto| - 1] == minted[i];
  }

  lemma OneMoreCovered(minted: seq<Receipts.Mint>, i: nat)
    requires i < |minted|
    ensures Receipts.NewCoverage(minted[..i + 1]) ==
            Receipts.NewCoverage(minted[..i]) + Covers(minted[i])
  {
    var before, after := minted[..i], minted[..i + 1];
    forall id: ReceiptId, d: Digest
      ensures (id, d) in Receipts.NewCoverage(after) <==>
              (id, d) in Receipts.NewCoverage(before) || (id == minted[i].id && d in minted[i].covers)
    {
      if (id, d) in Receipts.NewCoverage(before) {
        var k :| 0 <= k < |before| && before[k].id == id && d in before[k].covers;
        assert after[k].id == id;
      }
      if id == minted[i].id && d in minted[i].covers {
        assert after[i].id == id;
      }
      if (id, d) in Receipts.NewCoverage(after) {
        var k :| 0 <= k < |after| && after[k].id == id && d in after[k].covers;
        assert k < i ==> before[k].id == id;
      }
    }
  }

  class Store {
    var db: Tables

    constructor (terms: map<TermsId, TermsDocument>)
      ensures db == Tables(map[], map[], map[], map[], terms, map[], {}, map[], map[])
    {
      db := Tables(map[], map[], map[], map[], terms, map[], {}, map[], map[]);
    }

    // ---- nonces ----------------------------------------------------------------

    method RecordNonce(key: NonceKey, at: Instant) returns (isNew: bool)
      modifies this
      ensures isNew <==> key !in old(db).nonces
      ensures db == old(db).(nonces := Nonces.RecordNonce(old(db).nonces, key, at))
    {
      isNew := key !in db.nonces;
      if isNew {
        db := db.(nonces := db.nonces[key := at]);
      }
    }

    method SweepNonces(olderThan: Instant)
      modifies this
      ensures db == old(db).(nonces := Nonces.SweepNonces(old(db).nonces, olderThan))
    {
      db := db.(nonces := map key | key in db.nonces && !(db.nonces[key] < olderThan) :: db.nonces[key]);
    }

    // ---- snapshots -------------------------------------------------------------

    method Snapshots(holder: Holder) returns (listed: seq<Listed>)
      ensures IsListing(listed, LiveRows(db.snapshots, holder))
    {
      var rows := LiveRows(db.snapshots, holder);
      listed := [];
      var left := rows.Keys;
      while left != {}
        invariant left <= rows.Keys
        invariant forall e :: e in listed <==> e.digest in rows && e.digest !in left && e.row == rows[e.digest]
        invariant InOrder(listed)
        decreases left
      {
        var d :| d in left;
        assert forall i :: 0 <= i < |listed| ==> listed[i] in listed;
        EnlistKeepsOrder(listed, Listed(d, rows[d]));
        listed := Enlist(listed, Listed(d, rows[d]));
        left := left - {d};
      }
      assert forall i :: 0 <= i < |listed| ==> listed[i] in listed;
    }

    method Retain(grant: Grant, at: Instant)
      modifies this
      ensures db == old(db).(snapshots := Rows.Retain(old(db).snapshots, grant, at))
    {
      if !LiveAt(db.snapshots, grant.Target()) {
        db := db.(snapshots := db.snapshots[grant.Target() :=
          Row(grant.size, grant.chunkCount, grant.termsId, grant.supersedes, at, None, None)]);
      }
    }

    method MarkUnavailable(key: Key, at: Instant) returns (changed: bool)
      modifies this
      ensures changed <==> LiveAt(old(db).snapshots, key)
      ensures db == old(db).(snapshots := Rows.MarkUnavailable(old(db).snapshots, key, at))
    {
      changed := key in db.snapshots && db.snapshots[key].erasedAt.None? && db.snapshots[key].retainedUntil.None?;
      if changed {
        db := db.(snapshots := db.snapshots[key := db.snapshots[key].(retainedUntil := Some(at))]);
      }
    }

    method SweepErasedReferences(olderThan: Instant)
      modifies this
      ensures db == old(db).(snapshots := Receipts.SweepErasedReferences(old(db).snapshots, olderThan))
      ensures forall key :: key in db.snapshots <==>
                key in old(db).snapshots && (old(db).snapshots[key].erasedAt.None? ||
                                             olderThan <= old(db).snapshots[key].erasedAt.value)
      ensures forall key :: key in db.snapshots ==> db.snapshots[key] == old(db).snapshots[key]
    {
      db := db.(snapshots := map key | key in db.snapshots
        && (db.snapshots[key].erasedAt.None? || olderThan <= db.snapshots[key].erasedAt.value) :: db.snapshots[key]);
    }

    method BeginUpload(id: UploadId, grant: Grant)
      modifies this
      ensures db == old(db).(uploads := old(db).uploads[id := grant])
    {
      db := db.(uploads := db.uploads[id := grant]);
    }

    method DropUpload(id: UploadId)
      modifies this
      ensures db == old(db).(uploads := old(db).uploads - {id})
    {
      db := db.(uploads := db.uploads - {id});
    }

    // ---- entitlements and lapse state ----------------------------------------------

    /** The record goes in under its id, replacing what was there. */
    method RecordEntitlement(holder: Holder, id: EntitlementId, expiresAt: Instant)
      modifies this
      ensures db == Rows.RecordEntitlement(old(db), holder, id, expiresAt)
    {
      db := db.(entitlements := db.entitlements[id := Record(holder, expiresAt)]);
    }

    /** Two statements and no transaction: the record goes in, then whatever was derived about
        the holder goes. `between` is what a crash between the two leaves. */
    method RegisterEntitlement(holder: Holder, id: EntitlementId, expiresAt: Instant) returns (ghost between: Tables)
      modifies this
      ensures between == Rows.RecordEntitlement(old(db), holder, id, expiresAt)
      ensures db == Rows.ForgetLapse(between, holder) == Rows.RegisterEntitlement(old(db), holder, id, expiresAt)
    {
      RecordEntitlement(holder, id, expiresAt);
      between := db;
      ForgetLapseState(holder);
    }

    /** One walk over the holder's records keeps the latest of all and the latest unrevoked. */
    method EntitlementHorizon(holder: Holder, revoked: set<EntitlementId>) returns (horizon: Option<Horizon>)
      ensures horizon == Lapse.EntitlementHorizon(db.entitlements, holder, revoked)
    {
      var live: Option<Instant>, any: Option<Instant> := None, None;
      var left := set id | id in db.entitlements && db.entitlements[id].holder == holder;
      ghost var mine := left;
      ghost var all: set<Instant>, unrevoked: set<Instant> := {}, {};
      while left != {}
        invariant left <= mine
        invariant all == set id | id in mine - left :: db.entitlements[id].expiresAt
        invariant unrevoked == set id | id in mine - left && id !in revoked :: db.entitlements[id].expiresAt
        invariant Newest(all, any) && Newest(unrevoked, live)
        decreases left
      {
        var id :| id in left;
        var at := db.entitlements[id].expiresAt;
        LaterIsLatest(all, any, at);
        any := Later(any, at);
        if id !in revoked {
          LaterIsLatest(unrevoked, live, at);
          live := Later(live, at);
          unrevoked := unrevoked + {at};
        }
        all := all + {at};
        assert mine - (left - {id}) == (mine - left) + {id};
        left := left - {id};
      }
      assert mine - left == mine;
      assert all == Expiries(db.entitlements, holder, {});
      assert unrevoked == Expiries(db.entitlements, holder, revoked);
      LatestIsMax(all, any);
      LatestIsMax(unrevoked, live);
      horizon := if any.None? then None else Some(Horizon(live, any.value));
    }

    method HolderLosingEntitlements(holder: Holder, olderThan: Instant) returns (losing: bool)
      ensures losing <==> LosingEntitlements(db.entitlements, holder, olderThan)
    {
      var total := set id | id in db.entitlements && db.entitlements[id].holder == holder;
      var current := set id | id in total && olderThan <= db.entitlements[id].expiresAt;
      losing := total != {} && current == {};
      if losing {
        ghost var id := Pick(total);
        assert HasRecord(db.entitlements, holder);
        forall k | k in db.entitlements && db.entitlements[k].holder == holder
          ensures db.entitlements[k].expiresAt < olderThan {
          assert k in total && k !in current;
        }
      } else if total != {} {
        ghost var kept := Pick(current);
        assert kept in db.entitlements;
      } else {
        assert forall k :: k in db.entitlements ==> k !in total;
      }
    }

    method SweepEntitlements(holder: Holder, olderThan: Instant)
      modifies this
      ensures db == old(db).(entitlements := Rows.SweepEntitlements(old(db).entitlements, holder, olderThan))
    {
      db := db.(entitlements := Rows.SweepEntitlements(db.entitlements, holder, olderThan));
    }

    method SweepSupersededEntitlements(olderThan: Instant)
      modifies this
      ensures db == old(db).(entitlements := SweepSuperseded(old(db).entitlements, olderThan))
    {
      db := db.(entitlements := SweepSuperseded(db.entitlements, olderThan));
    }

    method RecordLapseState(holder: Holder, state: LapseState)
      modifies this
      ensures db == old(db).(lapse := old(db).lapse[holder := state])
    {
      db := db.(lapse := db.lapse[holder := state]);
    }

    method ForgetLapseState(holder: Holder)
      modifies this
      ensures db == Rows.ForgetLapse(old(db), holder)
    {
      db := db.(lapse := db.lapse - {holder});
    }

    // ---- receipts and outcomes --------------------------------------------------------

    /** One transaction: the rows, the receipts with their coverage, and the outcome. */
    method CommitErasure(holder: Holder, scope: Scope, rows: map<Digest, Row>, minted: seq<Receipts.Mint>,
                         operation: OperationId, at: Instant)
      modifies this
      ensures db == Receipts.CommitErasure(old(db), holder, scope, rows, minted, operation, at)
      ensures Receipts.OutcomeNames(old(db).outcomes, db.outcomes, OutcomeKey(holder, operation), minted, at)
      ensures Receipts.DistinctIds(minted) ==> Receipts.ReceiptsStored(old(db), db, holder, scope, minted, at)
    {
      Receipts.CommitNamesReceipts(db, holder, scope, rows, minted, operation, at);
      if Receipts.DistinctIds(minted) {
        Receipts.CommitStoresReceipts(db, holder, scope, rows, minted, operation, at);
      }
      EraseEach(holder, rows.Keys, at);
      StoreReceipts(holder, scope, minted, at);
      RecordOutcome(holder, operation, Outcome(ErasureAcknowledged, Receipts.MintIds(minted), at));
      assert Keyed(holder, rows.Keys) == set d | d in rows :: Key(holder, d);
    }

    method EraseEach(holder: Holder, digests: set<Digest>, at: Instant)
      modifies this
      ensures db == old(db).(snapshots := EraseRows(old(db).snapshots, Keyed(holder, digests), at))
    {
      var left := digests;
      ghost var before := db;
      while left != {}
        invariant left <= digests
        invariant db == before.(snapshots := EraseRows(before.snapshots, Keyed(holder, digests - left), at))
        decreases left
      {
        var d :| d in left;
        var key := Key(holder, d);
        EraseOneMore(before.snapshots, holder, digests - left, d, at);
        assert digests - (left - {d}) == (digests - left) + {d};
        if key in db.snapshots && db.snapshots[key].erasedAt.None? {
          db := db.(snapshots := db.snapshots[key := db.snapshots[key].(erasedAt := Some(at))]);
        }
        left := left - {d};
      }
      assert digests - left == digests;
    }

    method StoreReceipts(holder: Holder, scope: Scope, minted: seq<Receipts.Mint>, at: Instant)
      modifies this
      ensures db == Stored(old(db), holder, scope, minted, at)
    {
      ghost var start := db;
      assert minted[..0] == [];
      StoredNone(db, holder, scope, at);
      for i := 0 to |minted|
        invariant db == Stored(start, holder, scope, minted[..i], at)
      {
        StoredOneMore(start, holder, scope, minted, i, at);
        db := StoreOne(db, holder, scope, minted[i], at);
      }
      assert minted[..|minted|] == minted;
    }

    method RecordOutcome(holder: Holder, operation: OperationId, outcome: Outcome)
      modifies this
      ensures db == Receipts.RecordOutcome(old(db), holder, operation, outcome)
    {
      db := db.(outcomes := db.outcomes[OutcomeKey(holder, operation) := outcome]);
    }

    method SweepOutcomesAndReceipts(uploadsBefore: Instant, receiptsBefore: Instant)
      modifies this
      ensures db == Receipts.SweepOutcomesAndReceipts(old(db), uploadsBefore, receiptsBefore)
    {
      db := db.(outcomes := map key | key in db.outcomes
        && !(if db.outcomes[key].status == OutcomeStatus.Retained then db.outcomes[key].recordedAt < uploadsBefore
             else db.outcomes[key].recordedAt < receiptsBefore) :: db.outcomes[key]);
      var aged := set id | id in db.receipts && db.receipts[id].issuedAt < receiptsBefore;
      db := db.(coverage := set c | c in db.coverage && c.0 !in aged);
      db := db.(receipts := map id | id in db.receipts && id !in aged :: db.receipts[id]);
    }
  
    /** Candidates are collected in one walk, the newest stamp among them is found, and
        those that carry it are returned by terms id, then by id. */
    method LatestReceipts(holder: Holder, scope: Scope, digests: set<Digest>) returns (latest: seq<ReceiptId>)
      ensures forall id :: id in latest <==> id in Receipts.Latest(db, holder, scope, digests)
      ensures InTermsOrder(latest, db.receipts)
    {
      var candidates := Receipts.Candidates(db, holder, scope, digests);
      var newest: Option<Instant> := None;
      var left := candidates;
      while left != {}
        invariant left <= candidates
        invariant newest.None? ==> left == candidates
        invariant newest.Some? ==> exists id :: id in candidates && db.receipts[id].issuedAt == newest.value
        invariant forall id :: id in candidates - left ==> newest.Some? && db.receipts[id].issuedAt <= newest.value
        decreases left
      {
        var id :| id in left;
        newest := Later(newest, db.receipts[id].issuedAt);
        left := left - {id};
      }
      latest := [];
      if newest.Some? {
        left := set id | id in candidates && db.receipts[id].issuedAt == newest.value;
        ghost var chosen := left;
        while left != {}
          invariant left <= chosen
          invariant forall id :: id in latest <==> id in chosen - left
          invariant InTermsOrder(latest, db.receipts)
          decreases left
        {
          var id :| id in left;
          PlacedInTermsOrder(latest, id, db.receipts);
          latest := PlaceByTerms(latest, id, db.receipts);
          left := left - {id};
        }
      }
    }
  }

  predicate TermsOrder(a: ReceiptId, b: ReceiptId, receipts: map<ReceiptId, Receipt>) {
    a in receipts && b in receipts
    && (receipts[a].termsId < receipts[b].termsId || (receipts[a].termsId == receipts[b].termsId && a < b))
  }

  ghost predicate InTermsOrder(ids: seq<ReceiptId>, receipts: map<ReceiptId, Receipt>) {
    forall i, j :: 0 <= i < j < |ids| ==> TermsOrder(ids[i], ids[j], receipts)
  }

  function PlaceByTerms(ids: seq<ReceiptId>, id: ReceiptId, receipts: map<ReceiptId, Receipt>): (r: seq<ReceiptId>)
    ensures forall x :: x in r <==> x in ids || x == id
  {
    if ids == [] then [id]
    else if TermsOrder(id, ids[0], receipts) then [id] + ids
    else
      assert ids == [ids[0]] + ids[1..];
      [ids[0]] + PlaceByTerms(ids[1..], id, receipts)
  }

  lemma {:induction false} PlacedInTermsOrder(ids: seq<ReceiptId>, id: ReceiptId, receipts: map<ReceiptId, Receipt>)
    requires InTermsOrder(ids, receipts) && id !in ids && id in receipts && forall x :: x in ids ==> x in receipts
    ensures InTermsOrder(PlaceByTerms(ids, id, receipts), receipts)
  {
    if ids != [] && !TermsOrder(id, ids[0], receipts) {
      assert ids[0] in ids;
      var rest := PlaceByTerms(ids[1..], id, receipts);
      PlacedInTermsOrder(ids[1..], id, receipts);
      forall j | 0 <= j < |rest| ensures TermsOrder(ids[0], rest[j], receipts) {
        assert rest[j] in rest;
      }
    }
  }
}
