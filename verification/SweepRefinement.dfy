/** One uninterrupted sweep, step by step, ends where the interleaved system can end. */
module SweepRefinement {
  import opened Types
  import opened Tables
  import opened Blobs
  import opened Lifecycle
  import opened LifecycleMoves
  import opened CommitRefinement
  import opened RouteRefinement
  import opened Sweeps
  import Receipts

  /** Nothing holds a lock, and this thread is free to begin. */
  ghost predicate Idle(s: System, t: Thread) { t !in s.running && s.BothFree() }

  lemma BackAgain(s: System, t: Thread, phase: Phase)
    requires Idle(s, t)
    ensures s.Going(t, phase).Ended(t) == s && s.(blobLock := Some(t)).Going(t, phase).Ended(t) == s
  {
    assert s.running[t := phase] - {t} == s.running;
  }

  // ---- (0) what is due ------------------------------------------------------------------

  ghost function MarkAll(snapshots: map<Key, Row>, keys: set<Key>, at: Instant): map<Key, Row> {
    map key | key in snapshots ::
      if key in keys && snapshots[key].Live() then snapshots[key].(retainedUntil := Some(at)) else snapshots[key]
  }

  lemma {:induction false} ExpireRun(cfg: Config, start: System, run: seq<Step>, s: System, keys: set<Key>, at: Instant)
    returns (all: seq<Step>)
    requires Leads(cfg, start, run, s) && s.BothFree()
    ensures Leads(cfg, start, all, s.(snapshots := MarkAll(s.snapshots, keys, at)))
    decreases keys
  {
    if keys == {} {
      assert MarkAll(s.snapshots, keys, at) == s.snapshots;
      all := run;
    } else {
      var key := Pick(keys);
      ThenExpire(cfg, start, run, s, key, at);
      var next := s.(snapshots := MarkUnavailable(s.snapshots, key, at));
      all := ExpireRun(cfg, start, run + [Expire(key, at)], next, keys - {key}, at);
      MarkedOneMore(s.snapshots, keys, key, at);
    }
  }

  lemma MarkedOneMore(snapshots: map<Key, Row>, keys: set<Key>, key: Key, at: Instant)
    requires key in keys
    ensures MarkAll(MarkUnavailable(snapshots, key, at), keys - {key}, at) == MarkAll(snapshots, keys, at)
  {
  }

  // ---- (1) grants that ran out, (2) directories with no grant -----------------------------

  ghost function Dropping(s: System, ids: set<UploadId>): System {
    s.(uploads := s.uploads - ids, disk := s.disk.(incoming := s.disk.incoming - ids))
  }

  lemma {:induction false} DropRun(cfg: Config, start: System, run: seq<Step>, s: System, t: Thread, ids: set<UploadId>,
                                  at: Instant)
    returns (all: seq<Step>)
    requires Leads(cfg, start, run, s) && Idle(s, t) && ids <= ExpiredIds(s.uploads, at)
    ensures Leads(cfg, start, all, Dropping(s, ids))
    decreases ids
  {
    if ids == {} {
      assert s.uploads - ids == s.uploads && s.disk.incoming - ids == s.disk.incoming;
      all := run;
    } else {
      var id := Pick(ids);
      DropNext(cfg, start, run, s, t, id, at);
      var next := run + [ListExpired(t, id, at)] + [AbandonBytes(t)] + [AbandonRow(t)];
      all := DropRun(cfg, start, next, Dropping(s, {id}), t, ids - {id}, at);
      assert s.uploads - {id} - (ids - {id}) == s.uploads - ids;
      assert s.disk.incoming - {id} - (ids - {id}) == s.disk.incoming - ids;
    }
  }

  lemma DropNext(cfg: Config, start: System, run: seq<Step>, s: System, t: Thread, id: UploadId, at: Instant)
    requires Leads(cfg, start, run, s) && Idle(s, t) && id in s.uploads && s.uploads[id].Expired(at)
    ensures Leads(cfg, start, run + [ListExpired(t, id, at)] + [AbandonBytes(t)] + [AbandonRow(t)], Dropping(s, {id}))
  {
    ThenListExpired(cfg, start, run, s, t, id, at);
    ThenAbandonBytes(cfg, start, run + [ListExpired(t, id, at)], s.Going(t, Abandoning(id)), t, id);
    var dropping := s.Going(t, Abandoning(id)).WithoutIncoming(id).Going(t, Phase.Dropping(id));
    GoesOn(s.WithoutIncoming(id), t, Abandoning(id), Phase.Dropping(id));
    ThenAbandonRow(cfg, start, run + [ListExpired(t, id, at)] + [AbandonBytes(t)], dropping, t, id);
    BackAgain(Dropping(s, {id}), t, Phase.Dropping(id));
  }

  lemma {:induction false} OrphanRun(cfg: Config, start: System, run: seq<Step>, s: System, t: Thread,
                                    ids: set<UploadId>)
    returns (all: seq<Step>)
    requires Leads(cfg, start, run, s) && Idle(s, t) && ids <= Ungranted(s.disk, s.uploads)
    ensures Leads(cfg, start, all, s.(disk := s.disk.(incoming := s.disk.incoming - ids)))
    decreases ids
  {
    if ids == {} {
      assert s.disk.incoming - ids == s.disk.incoming;
      all := run;
    } else {
      var id := Pick(ids);
      ThenListOrphan(cfg, start, run, s, t, id);
      ThenDiscard(cfg, start, run + [ListOrphan(t, id)], s.Going(t, Discarding(id)), t, id);
      BackAgain(s.WithoutIncoming(id), t, Discarding(id));
      all := OrphanRun(cfg, start, run + [ListOrphan(t, id)] + [Discard(t)], s.WithoutIncoming(id), t, ids - {id});
      assert s.disk.incoming - {id} - (ids - {id}) == s.disk.incoming - ids;
    }
  }

  // ---- (3) live rows without their bytes ---------------------------------------------------

  ghost function MarkLostOf(snapshots: map<Key, Row>, disk: Disk, keys: set<Key>, at: Instant): map<Key, Row> {
    map key | key in snapshots ::
      if key in keys && snapshots[key].Live() && !OnDisk(disk, key, snapshots[key])
      then snapshots[key].(retainedUntil := Some(at)) else snapshots[key]
  }

  lemma {:induction false} InspectRun(cfg: Config, start: System, run: seq<Step>, s: System, t: Thread, keys: set<Key>,
                                     at: Instant)
    returns (all: seq<Step>)
    requires Leads(cfg, start, run, s) && Idle(s, t) && keys <= LiveKeys(s.snapshots)
    ensures Leads(cfg, start, all, s.(snapshots := MarkLostOf(s.snapshots, s.disk, keys, at)))
    decreases keys
  {
    if keys == {} {
      assert MarkLostOf(s.snapshots, s.disk, keys, at) == s.snapshots;
      all := run;
    } else {
      var key := Pick(keys);
      InspectNext(cfg, start, run, s, t, key, at);
      InspectedOneMore(s.snapshots, s.disk, keys, key, at);
      var next := s.(snapshots := MarkLostOf(s.snapshots, s.disk, {key}, at));
      all := InspectRun(cfg, start, run + [ListLive(t, key)] + [Inspect(t)] + [EndInspect(t, at)], next, t,
                        keys - {key}, at);
    }
  }

  lemma InspectedOneMore(snapshots: map<Key, Row>, disk: Disk, keys: set<Key>, key: Key, at: Instant)
    requires key in keys && keys <= LiveKeys(snapshots)
    ensures var next := MarkLostOf(snapshots, disk, {key}, at);
            && keys - {key} <= LiveKeys(next)
            && MarkLostOf(next, disk, keys - {key}, at) == MarkLostOf(snapshots, disk, keys, at)
  {
  }

  lemma InspectNext(cfg: Config, start: System, run: seq<Step>, s: System, t: Thread, key: Key, at: Instant)
    requires Leads(cfg, start, run, s) && Idle(s, t) && LiveAt(s.snapshots, key)
    ensures Leads(cfg, start, run + [ListLive(t, key)] + [Inspect(t)] + [EndInspect(t, at)],
                  s.(snapshots := MarkLostOf(s.snapshots, s.disk, {key}, at)))
  {
    var row := s.snapshots[key];
    ThenListLive(cfg, start, run, s, t, key);
    var listed := s.Going(t, Listed(key, row));
    ThenInspect(cfg, start, run + [ListLive(t, key)], listed, t);
    GoesOn(s.(blobLock := Some(t)), t, Listed(key, row), Inspecting(key, row));
    var inspecting := s.(blobLock := Some(t)).Going(t, Inspecting(key, row));
    assert DoInspect(listed, t) == inspecting;
    ThenEndInspect(cfg, start, run + [ListLive(t, key)] + [Inspect(t)], inspecting, t, at);
    InspectionEnds(s, t, key, at);
  }

  lemma InspectionEnds(s: System, t: Thread, key: Key, at: Instant)
    requires Idle(s, t) && LiveAt(s.snapshots, key)
    ensures DoEndInspect(s.(blobLock := Some(t)).Going(t, Inspecting(key, s.snapshots[key])), t, at) ==
            s.(snapshots := MarkLostOf(s.snapshots, s.disk, {key}, at))
  {
    var after := s.(snapshots := MarkLostOf(s.snapshots, s.disk, {key}, at));
    BackAgain(after, t, Inspecting(key, s.snapshots[key]));
    if OnDisk(s.disk, key, s.snapshots[key]) {
      assert after.snapshots == s.snapshots;
    } else {
      assert after.snapshots == MarkUnavailable(s.snapshots, key, at);
    }
  }

  // ---- (4) directories with no live row ------------------------------------------------------

  lemma {:induction false} UnlistedRun(cfg: Config, start: System, run: seq<Step>, s: System, t: Thread, keys: set<Key>)
    returns (all: seq<Step>)
    requires Leads(cfg, start, run, s) && Idle(s, t) && keys !! LiveKeys(s.snapshots)
    ensures Leads(cfg, start, all, s.(disk := s.disk.(retained := s.disk.retained - keys)))
    decreases keys
  {
    if keys == {} {
      assert s.disk.retained - keys == s.disk.retained;
      all := run;
    } else {
      var key := Pick(keys);
      ThenBeginSweep(cfg, start, run, s, t, key);
      ThenEndSweep(cfg, start, run + [BeginSweep(t, key)], s.(blobLock := Some(t)).Going(t, Sweeping(key)), t, key);
      BackAgain(s.WithoutRetained(key), t, Sweeping(key));
      var next := run + [BeginSweep(t, key)] + [EndSweep(t)];
      all := UnlistedRun(cfg, start, next, s.WithoutRetained(key), t, keys - {key});
      assert s.disk.retained - {key} - (keys - {key}) == s.disk.retained - keys;
    }
  }

  // ---- The whole pass --------------------------------------------------------------------------

  /** Refinement of the sweep: from any state in which nothing holds a lock, a run of one
      thread through single lock sections and file operations ends in the rows, grants and
      directories that one complete pass computes. */
  lemma SweepIsARunOfSteps(cfg: Config, s: System, t: Thread, w: World, a: Args) returns (steps: seq<Step>)
    requires Idle(s, t) && Shows(s, w.db, w.disk)
    ensures EndsAs(cfg, s, steps, Sweep(w, a).db, Sweep(w, a).disk)
  {
    var mid := RowsAndUploads(w, a);
    var half := FirstHalf(cfg, s, t, w, a);
    var here := s.(snapshots := mid.db.snapshots, uploads := mid.db.uploads, disk := mid.disk);
    var unlisted := Unlisted(mid.disk, mid.db.snapshots);
    var swept := UnlistedRun(cfg, s, half, here, t, unlisted);
    var bare := here.(disk := here.disk.(retained := here.disk.retained - unlisted));
    ThenForgetErased(cfg, s, swept, bare, a.erasedFloor);
    steps := swept + [ForgetErased(a.erasedFloor)];
    SecondHalf(w, a);
    EndsThere(cfg, s, steps, bare.(snapshots := Receipts.SweepErasedReferences(bare.snapshots, a.erasedFloor)),
              Sweep(w, a).db, Sweep(w, a).disk);
  }

  /** Steps (0) to (3). */
  lemma FirstHalf(cfg: Config, s: System, t: Thread, w: World, a: Args) returns (steps: seq<Step>)
    requires Idle(s, t) && Shows(s, w.db, w.disk)
    ensures var mid := RowsAndUploads(w, a);
            Leads(cfg, s, steps, s.(snapshots := mid.db.snapshots, uploads := mid.db.uploads, disk := mid.disk))
  {
    var s0 := s.(snapshots := ExpireAll(w.db, a.revoked, a.now));
    var s2 := Cleaned(s0, a.now);
    var expired := DueRun(cfg, s, w.db, a);
    var cleaned := CleanRun(cfg, s, expired, s0, t, a.now);
    steps := InspectRun(cfg, s, cleaned, s2, t, LiveKeys(s2.snapshots), a.now);
    AllInspected(s2.snapshots, s2.disk, w.disk, a.now);
  }

  /** Step (0). */
  lemma DueRun(cfg: Config, s: System, db: Tables, a: Args) returns (steps: seq<Step>)
    requires s.BothFree() && s.snapshots == db.snapshots
    ensures Leads(cfg, s, steps, s.(snapshots := ExpireAll(db, a.revoked, a.now)))
  {
    var due := set key | key in db.snapshots && DueToErase(db, key, a.revoked, a.now);
    LeadsNowhere(cfg, s);
    steps := ExpireRun(cfg, s, [], s, due, a.now);
    DueIsLive(db, a, due);
  }

  ghost function Cleaned(s: System, now: Instant): System {
    var dropped := Dropping(s, ExpiredIds(s.uploads, now));
    dropped.(disk := dropped.disk.(incoming := dropped.disk.incoming - Ungranted(dropped.disk, dropped.uploads)))
  }

  /** Steps (1) and (2). */
  lemma CleanRun(cfg: Config, start: System, run: seq<Step>, s: System, t: Thread, now: Instant)
    returns (all: seq<Step>)
    requires Leads(cfg, start, run, s) && Idle(s, t)
    ensures Leads(cfg, start, all, Cleaned(s, now))
  {
    var ids := ExpiredIds(s.uploads, now);
    var dropped := DropRun(cfg, start, run, s, t, ids, now);
    var bare := Dropping(s, ids);
    all := OrphanRun(cfg, start, dropped, bare, t, Ungranted(bare.disk, bare.uploads));
  }

  lemma AllInspected(snapshots: map<Key, Row>, disk: Disk, before: Disk, now: Instant)
    requires disk.retained == before.retained
    ensures MarkLostOf(snapshots, disk, LiveKeys(snapshots), now) == MarkIncomplete(snapshots, before, now)
  {
  }

  lemma DueIsLive(db: Tables, a: Args, due: set<Key>)
    requires due == set key | key in db.snapshots && DueToErase(db, key, a.revoked, a.now)
    ensures MarkAll(db.snapshots, due, a.now) == ExpireAll(db, a.revoked, a.now)
  {
    forall key | key in due ensures db.snapshots[key].Live() {
      assert key == Key(key.holder, key.digest);
    }
  }

  /** Steps (3b) to (3d) and (5) to (7) leave rows, grants and directories alone. */
  lemma SecondHalf(w: World, a: Args)
    ensures var mid, after := RowsAndUploads(w, a), Sweep(w, a);
            && after.db.uploads == mid.db.uploads
            && after.db.snapshots == Receipts.SweepErasedReferences(mid.db.snapshots, a.erasedFloor)
            && after.disk == mid.disk.(retained := mid.disk.retained - Unlisted(mid.disk, mid.db.snapshots))
  {
  }
}
