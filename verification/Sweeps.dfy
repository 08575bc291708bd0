/** What each step of one failure-free, uninterrupted sweep does to the tables and the disk (sweep.rs). */
module Sweeps {
  import opened Types
  import opened Tables
  import opened Lapse
  import opened Handover
  import opened Blobs
  import opened Framing
  import Nonces
  import Receipts

  datatype Args = Args(
    revoked: set<EntitlementId>,
    charges: bool,
    now: Instant,
    nonceFloor: Instant,
    outcomeFloor: Instant,
    receiptFloor: Instant,
    erasedFloor: Instant,
    recordFloor: Instant)

  datatype World = World(db: Tables, disk: Disk)

  // ---- (0) and (3): rows that stop being live ------------------------------------------

  ghost predicate DueToErase(db: Tables, key: Key, revoked: set<EntitlementId>, now: Instant) {
    var due := PostGraceDue(db, key.holder, revoked, now);
    key.digest in due && due[key.digest] == "erase"
  }

  ghost function ExpireAll(db: Tables, revoked: set<EntitlementId>, now: Instant): map<Key, Row> {
    map key | key in db.snapshots ::
      if DueToErase(db, key, revoked, now) then db.snapshots[key].(retainedUntil := Some(now)) else db.snapshots[key]
  }

  ghost predicate OnDisk(disk: Disk, key: Key, row: Row) {
    key in disk.retained && Whole(disk.retained[key], row.chunkCount, row.size)
  }

  ghost function MarkIncomplete(snapshots: map<Key, Row>, disk: Disk, now: Instant): map<Key, Row> {
    map key | key in snapshots ::
      if snapshots[key].Live() && !OnDisk(disk, key, snapshots[key])
      then snapshots[key].(retainedUntil := Some(now)) else snapshots[key]
  }

  // ---- (1), (2), (4): what goes from disk -------------------------------------------------

  function ExpiredIds(uploads: map<UploadId, Grant>, now: Instant): set<UploadId> {
    set id | id in uploads && uploads[id].Expired(now)
  }

  function Ungranted(disk: Disk, uploads: map<UploadId, Grant>): set<UploadId> { disk.incoming.Keys - uploads.Keys }

  function Unlisted(disk: Disk, snapshots: map<Key, Row>): set<Key> { disk.retained.Keys - LiveKeys(snapshots) }

  // ---- (3b), (3c), (3d): the lapse rows, holder by holder ------------------------------------

  function LapseOf(lapse: map<Holder, LapseState>, holder: Holder): Option<LapseState> {
    if holder in lapse then Some(lapse[holder]) else None
  }

  /** The table that gives each of these holders what `f` says, and nobody else anything. */
  ghost function LapseTable(holders: set<Holder>, f: Holder -> Option<LapseState>): (table: map<Holder, LapseState>)
    ensures forall h :: LapseOf(table, h) == if h in holders then f(h) else None
  {
    map h | h in holders && f(h).Some? :: f(h).value
  }

  function RecordHolders(entitlements: map<EntitlementId, Record>): set<Holder> {
    set id | id in entitlements :: entitlements[id].holder
  }

  ghost function HandOverAll(db: Tables, revoked: set<EntitlementId>, floor: Instant): Tables {
    db.(lapse := LapseTable(db.lapse.Keys + RecordHolders(db.entitlements),
                            h => LapseOf(RecordDerived(db, h, revoked, floor).lapse, h)),
        entitlements := map id | id in db.entitlements && floor <= db.entitlements[id].expiresAt :: db.entitlements[id])
  }

  ghost function LiveHolders(snapshots: map<Key, Row>): set<Holder> {
    set key | key in LiveKeys(snapshots) :: key.holder
  }

  ghost function AdoptAll(db: Tables, revoked: set<EntitlementId>, now: Instant): Tables {
    db.(lapse := LapseTable(db.lapse.Keys + LiveHolders(db.snapshots), h => Adopted(db, h, revoked, now)))
  }

  ghost function RefreshAll(db: Tables, revoked: set<EntitlementId>, now: Instant): Tables {
    db.(lapse := LapseTable(db.lapse.Keys, h => if h in db.lapse then Refreshed(db, h, revoked, now) else None))
  }

  // ---- One holder's view ------------------------------------------------------------------------

  function RecordsOf(entitlements: map<EntitlementId, Record>, holder: Holder): map<EntitlementId, Record> {
    map id | id in entitlements && entitlements[id].holder == holder :: entitlements[id]
  }

  /** Two tables that agree on everything a decision about the holder reads. */
  ghost predicate SameFor(a: Tables, b: Tables, h: Holder) {
    && a.terms == b.terms
    && LiveRows(a.snapshots, h) == LiveRows(b.snapshots, h)
    && LapseOf(a.lapse, h) == LapseOf(b.lapse, h)
    && RecordsOf(a.entitlements, h) == RecordsOf(b.entitlements, h)
  }

  lemma SameRecords(a: map<EntitlementId, Record>, b: map<EntitlementId, Record>, h: Holder,
                    without: set<EntitlementId>)
    requires RecordsOf(a, h) == RecordsOf(b, h)
    ensures Expiries(a, h, without) == Expiries(b, h, without) && HasRecord(a, h) == HasRecord(b, h)
  {
    ExpiriesOfRecords(a, h, without);
    ExpiriesOfRecords(b, h, without);
  }

  lemma ExpiriesOfRecords(a: map<EntitlementId, Record>, h: Holder, without: set<EntitlementId>)
    ensures var mine := RecordsOf(a, h);
            && Expiries(a, h, without) == (set id | id in mine && id !in without :: mine[id].expiresAt)
            && (HasRecord(a, h) <==> mine != map[])
  {
    var mine := RecordsOf(a, h);
    if HasRecord(a, h) {
      var id :| id in a && a[id].holder == h;
      assert id in mine;
    }
    if mine != map[] {
      var id := Pick(mine.Keys);
      assert id in a && a[id].holder == h;
    }
  }

  lemma SameHorizon(a: Tables, b: Tables, h: Holder, revoked: set<EntitlementId>)
    requires SameFor(a, b, h)
    ensures LifecycleHorizon(a, h, revoked) == LifecycleHorizon(b, h, revoked)
  {
    SameRecords(a.entitlements, b.entitlements, h, {});
  }

  lemma SameDue(a: Tables, b: Tables, h: Holder, revoked: set<EntitlementId>, now: Instant)
    requires SameFor(a, b, h)
    ensures PostGraceDue(a, h, revoked, now) == PostGraceDue(b, h, revoked, now)
  {
    SameHorizon(a, b, h, revoked);
  }

  // ---- The whole pass ---------------------------------------------------------------------------

  /** Steps (0) to (3). */
  ghost function RowsAndUploads(w: World, a: Args): World {
    var expired := ExpireAll(w.db, a.revoked, a.now);
    var uploads := w.db.uploads - ExpiredIds(w.db.uploads, a.now);
    var incoming := w.disk.incoming - ExpiredIds(w.db.uploads, a.now);
    World(w.db.(snapshots := MarkIncomplete(expired, w.disk, a.now), uploads := uploads),
          w.disk.(incoming := incoming - (incoming.Keys - uploads.Keys)))
  }

  /** Steps (3b) to (3d). */
  ghost function LapseRows(db: Tables, a: Args): Tables {
    var handed := HandOverAll(db, a.revoked, a.recordFloor);
    var adopted := if a.charges then AdoptAll(handed, a.revoked, a.now) else handed;
    RefreshAll(adopted, a.revoked, a.now)
  }

  /** Steps (5) to (8). */
  ghost function Windows(db: Tables, a: Args): Tables {
    var spent := db.(nonces := Nonces.SweepNonces(db.nonces, a.nonceFloor));
    var answered := Receipts.SweepOutcomesAndReceipts(spent, a.outcomeFloor, a.receiptFloor);
    answered.(snapshots := Receipts.SweepErasedReferences(answered.snapshots, a.erasedFloor))
  }

  ghost function Sweep(w: World, a: Args): World {
    var mid := RowsAndUploads(w, a);
    var db := LapseRows(mid.db, a);
    World(Windows(db, a), mid.disk.(retained := mid.disk.retained - Unlisted(mid.disk, db.snapshots)))
  }
}
