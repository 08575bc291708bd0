/** `reconcile` itself: every numbered step as the operator runs it, one loop each. */
module SweepSteps {
  import opened Types
  import opened Tables
  import opened Lapse
  import opened Handover
  import opened Blobs
  import opened Stores
  import opened Sweeps
  import Gate

  // ---- (0) snapshots whose own grace window closed ---------------------------------------

  ghost function ExpireSome(db: Tables, done: set<Holder>, revoked: set<EntitlementId>, now: Instant): map<Key, Row> {
    map key | key in db.snapshots ::
      if key.holder in done && DueToErase(db, key, revoked, now)
      then db.snapshots[key].(retainedUntil := Some(now)) else db.snapshots[key]
  }

  lemma OneHolderMore(db: Tables, done: set<Holder>, h: Holder, revoked: set<EntitlementId>, now: Instant)
    requires h !in done
    ensures ExpireDue(db.(snapshots := ExpireSome(db, done, revoked, now)), h, revoked, now) ==
            ExpireSome(db, done + {h}, revoked, now)
  {
    var mid := db.(snapshots := ExpireSome(db, done, revoked, now));
    OthersUnaffected(db, done, h, revoked, now);
    var due := PostGraceDue(db, h, revoked, now);
    var one, more := ExpireDue(mid, h, revoked, now), ExpireSome(db, done + {h}, revoked, now);
    forall key | key in db.snapshots ensures one[key] == more[key] {
      if key.holder == h {
        assert DueToErase(db, key, revoked, now) <==> key.digest in due && due[key.digest] == "erase";
      }
    }
  }

  lemma OthersUnaffected(db: Tables, done: set<Holder>, h: Holder, revoked: set<EntitlementId>, now: Instant)
    requires h !in done
    ensures PostGraceDue(db.(snapshots := ExpireSome(db, done, revoked, now)), h, revoked, now) ==
            PostGraceDue(db, h, revoked, now)
  {
    var mid := db.(snapshots := ExpireSome(db, done, revoked, now));
    OthersKeepTheirRows(db, done, h, revoked, now);
    SameDue(mid, db, h, revoked, now);
  }

  lemma OthersKeepTheirRows(db: Tables, done: set<Holder>, h: Holder, revoked: set<EntitlementId>, now: Instant)
    requires h !in done
    ensures LiveRows(ExpireSome(db, done, revoked, now), h) == LiveRows(db.snapshots, h)
  {
    var snapshots := ExpireSome(db, done, revoked, now);
    var before, after := LiveRows(db.snapshots, h), LiveRows(snapshots, h);
    forall d ensures (d in after <==> d in before) && (d in before ==> after[d] == before[d]) {
      var key := Key(h, d);
      assert key in db.snapshots ==> snapshots[key] == db.snapshots[key];
    }
  }

  lemma EveryHolderDone(db: Tables, revoked: set<EntitlementId>, now: Instant)
    ensures ExpireSome(db, Gate.HoldersWithSnapshots(db.snapshots), revoked, now) == ExpireAll(db, revoked, now)
  {
    forall key | key in db.snapshots && DueToErase(db, key, revoked, now)
      ensures key.holder in Gate.HoldersWithSnapshots(db.snapshots) {
      assert LiveAt(db.snapshots, Key(key.holder, key.digest));
    }
  }

  method ExpirePostGrace(store: Store, revoked: set<EntitlementId>, now: Instant)
    modifies store
    ensures store.db == old(store.db).(snapshots := ExpireAll(old(store.db), revoked, now))
  {
    ghost var before := store.db;
    var holders := Gate.HoldersWithSnapshots(store.db.snapshots);
    var left := holders;
    assert ExpireSome(before, {}, revoked, now) == before.snapshots;
    assert holders - left == {};
    while left != {}
      invariant left <= holders
      invariant store.db == before.(snapshots := ExpireSome(before, holders - left, revoked, now))
      decreases left
    {
      var h :| h in left;
      OneHolderMore(before, holders - left, h, revoked, now);
      assert holders - (left - {h}) == (holders - left) + {h};
      ExpireHolder(store, h, revoked, now);
      left := left - {h};
    }
    assert holders - left == holders;
    EveryHolderDone(before, revoked, now);
  }

  ghost function ExpireDigests(snapshots: map<Key, Row>, h: Holder, due: map<Digest, string>, done: set<Digest>,
                               now: Instant): map<Key, Row>
  {
    map key | key in snapshots ::
      if key.holder == h && key.digest in done && key.digest in due && due[key.digest] == "erase"
      then snapshots[key].(retainedUntil := Some(now)) else snapshots[key]
  }

  lemma OneDigestMore(snapshots: map<Key, Row>, h: Holder, due: map<Digest, string>, done: set<Digest>, d: Digest,
                      now: Instant)
    requires d in due && d !in done && LiveAt(snapshots, Key(h, d))
    ensures var before := ExpireDigests(snapshots, h, due, done, now);
            ExpireDigests(snapshots, h, due, done + {d}, now) ==
            if due[d] == "erase" then MarkUnavailable(before, Key(h, d), now) else before
  {
  }

  /** Only `erase` is implemented; any other declared state keeps the bytes. */
  method ExpireHolder(store: Store, h: Holder, revoked: set<EntitlementId>, now: Instant)
    modifies store
    ensures store.db == old(store.db).(snapshots := ExpireDue(old(store.db), h, revoked, now))
  {
    var due := Gate.PostGraceDue(store, h, revoked, now);
    ghost var before := store.db;
    assert forall d :: d in due ==> LiveAt(before.snapshots, Key(h, d));
    var left := due.Keys;
    assert ExpireDigests(before.snapshots, h, due, {}, now) == before.snapshots;
    assert due.Keys - left == {};
    while left != {}
      invariant left <= due.Keys
      invariant store.db == before.(snapshots := ExpireDigests(before.snapshots, h, due, due.Keys - left, now))
      decreases left
    {
      var d :| d in left;
      OneDigestMore(before.snapshots, h, due, due.Keys - left, d, now);
      assert due.Keys - (left - {d}) == (due.Keys - left) + {d};
      left := left - {d};
      if due[d] != "erase" {
        continue;
      }
      var _ := store.MarkUnavailable(Key(h, d), now);
    }
    assert due.Keys - left == due.Keys;
  }

  // ---- (1) grants that ran out, (2) directories with no grant --------------------------------

  /** The bytes go first, then the row. */
  method DropExpiredGrants(store: Store, blobs: Blobs, now: Instant)
    modifies store, blobs
    ensures store.db == old(store.db).(uploads := old(store.db).uploads - ExpiredIds(old(store.db).uploads, now))
    ensures blobs.disk ==
            old(blobs.disk).(incoming := old(blobs.disk).incoming - ExpiredIds(old(store.db).uploads, now))
  {
    var expired := ExpiredIds(store.db.uploads, now);
    var left := expired;
    ghost var db, disk := store.db, blobs.disk;
    assert db.uploads - (expired - left) == db.uploads && disk.incoming - (expired - left) == disk.incoming;
    while left != {}
      invariant left <= expired
      invariant store.db == db.(uploads := db.uploads - (expired - left))
      invariant blobs.disk == disk.(incoming := disk.incoming - (expired - left))
      decreases left
    {
      var id :| id in left;
      blobs.DiscardUpload(id);
      store.DropUpload(id);
      assert expired - (left - {id}) == (expired - left) + {id};
      left := left - {id};
    }
    assert expired - left == expired;
  }

  method DropUngranted(store: Store, blobs: Blobs)
    modifies blobs
    ensures blobs.disk ==
            old(blobs.disk).(incoming := old(blobs.disk).incoming - Ungranted(old(blobs.disk), store.db.uploads))
  {
    var found := blobs.disk.incoming.Keys;
    var left := found;
    ghost var disk, uploads := blobs.disk, store.db.uploads.Keys;
    assert disk.incoming - ((found - left) - uploads) == disk.incoming;
    while left != {}
      invariant left <= found
      invariant blobs.disk == disk.(incoming := disk.incoming - ((found - left) - uploads))
      decreases left
    {
      var id :| id in left;
      var known := id in store.db.uploads;
      if !known {
        blobs.DiscardUpload(id);
      }
      assert (found - (left - {id})) - uploads == ((found - left) - uploads) + (if known then {} else {id});
      left := left - {id};
    }
    assert found - left == found;
  }

  // ---- (3) rows whose bytes are absent or incomplete --------------------------------------------

  ghost function IncompleteSome(snapshots: map<Key, Row>, disk: Disk, done: set<Key>, now: Instant): map<Key, Row> {
    map key | key in snapshots ::
      if key in done && snapshots[key].Live() && !OnDisk(disk, key, snapshots[key])
      then snapshots[key].(retainedUntil := Some(now)) else snapshots[key]
  }

  lemma OneRowMore(snapshots: map<Key, Row>, disk: Disk, done: set<Key>, key: Key, now: Instant)
    requires key !in done && LiveAt(snapshots, key)
    ensures var before := IncompleteSome(snapshots, disk, done, now);
            && LiveAt(before, key) && before[key] == snapshots[key]
            && IncompleteSome(snapshots, disk, done + {key}, now) ==
               if OnDisk(disk, key, snapshots[key]) then before else MarkUnavailable(before, key, now)
  {
  }

  method MarkIncompleteRows(store: Store, blobs: Blobs, now: Instant)
    modifies store
    ensures store.db == old(store.db).(snapshots := MarkIncomplete(old(store.db).snapshots, blobs.disk, now))
  {
    var claimed := LiveKeys(store.db.snapshots);
    var listed := store.db.snapshots;
    var left := claimed;
    ghost var before := store.db;
    assert IncompleteSome(before.snapshots, blobs.disk, claimed - left, now) == before.snapshots;
    while left != {}
      invariant left <= claimed
      invariant store.db == before.(snapshots := IncompleteSome(before.snapshots, blobs.disk, claimed - left, now))
      decreases left
    {
      var key :| key in left;
      OneRowMore(before.snapshots, blobs.disk, claimed - left, key, now);
      assert claimed - (left - {key}) == (claimed - left) + {key};
      left := left - {key};
      if !LiveAt(store.db.snapshots, key) {
        continue;
      }
      var whole := blobs.ChunkPaths(key, listed[key].chunkCount, listed[key].size);
      if !whole {
        var _ := store.MarkUnavailable(key, now);
      }
    }
    assert claimed - left == claimed;
    assert IncompleteSome(before.snapshots, blobs.disk, claimed, now) ==
           MarkIncomplete(before.snapshots, blobs.disk, now);
  }

  // ---- (4) directories with no live row -------------------------------------------------------------

  method DropUnlisted(store: Store, blobs: Blobs)
    modifies blobs
    ensures blobs.disk ==
            old(blobs.disk).(retained := old(blobs.disk).retained - Unlisted(old(blobs.disk), store.db.snapshots))
  {
    var live := LiveKeys(store.db.snapshots);
    var found := blobs.disk.retained.Keys;
    var left := found;
    ghost var disk := blobs.disk;
    assert disk.retained - ((found - left) - live) == disk.retained;
    while left != {}
      invariant left <= found
      invariant blobs.disk == disk.(retained := disk.retained - ((found - left) - live))
      decreases left
    {
      var key :| key in left;
      assert (found - (left - {key})) - live == ((found - left) - live) + (if key in live then {} else {key});
      left := left - {key};
      if key in live {
        continue;
      }
      if LiveAt(store.db.snapshots, key) {
        continue;
      }
      blobs.Erase(key);
    }
    assert found - left == found;
  }
}
