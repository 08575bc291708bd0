/** Every step keeps the lifecycle invariant, one lemma for each kind of change. */
module LifecycleSteps {
  import opened Types
  import opened Tables
  import opened Framing
  import opened Blobs
  import opened Lifecycle
  import opened LifecycleSafety
  import Receipts

  // ---- Steps that only move a thread ------------------------------------------------------

  ghost predicate SameData(s: System, s': System) {
    && s'.snapshots == s.snapshots && s'.uploads == s.uploads && s'.disk == s.disk
    && s'.issued == s.issued && s'.detached == s.detached && s'.exposed == s.exposed && s.clock <= s'.clock
  }

  ghost predicate OthersStay(s: System, s': System, t: Option<Thread>) {
    forall u :: u in s'.running && Some(u) != t ==> u in s.running && s'.running[u] == s.running[u]
  }

  lemma ThreadMoves(cfg: Config, s: System, s': System, t: Option<Thread>)
    requires Inv(cfg, s) && SameData(s, s') && OthersStay(s, s', t) && Locked(s')
    requires t.Some? && t.value in s'.running ==> PhaseOk(cfg, s', s'.running[t.value])
    ensures Inv(cfg, s')
  {
    OthersEvolve(cfg, s, s', t);
    LiveStaysKept(cfg, s, s');
  }

  /** The invariant, put together from what a step shows about its own change. */
  lemma Assemble(cfg: Config, s: System, s': System, t: Option<Thread>)
    requires Inv(cfg, s) && Evolves(s, s', t)
    requires Locked(s') && Granted(s') && LiveKept(cfg, s') && WithinQuota(cfg, s') && OneOpenGrant(s')
    requires t.Some? && t.value in s'.running ==> PhaseOk(cfg, s', s'.running[t.value])
    ensures Inv(cfg, s')
  {
    OthersEvolve(cfg, s, s', t);
  }

  lemma GrantsFall(s: System, s': System)
    requires OneOpenGrant(s) && s.clock <= s'.clock
    requires forall id :: id in s'.uploads ==> id in s.uploads && s'.uploads[id] == s.uploads[id]
    ensures OneOpenGrant(s')
  {
  }

  /** Nothing that touches neither rows nor retained directories unsettles a live row. */
  lemma LiveStaysKept(cfg: Config, s: System, s': System)
    requires LiveKept(cfg, s) && s'.snapshots == s.snapshots && s'.disk.retained == s.disk.retained
    requires s'.exposed == s.exposed && forall key :: s'.Pending(key) ==> s.Pending(key)
    ensures LiveKept(cfg, s')
  {
  }

  lemma EndKeepsLocked(s: System, t: Thread)
    requires Locked(s)
    ensures Locked(s.Ended(t)) && OthersStay(s, s.Ended(t), Some(t))
  {
  }

  /** Taking no lock, or only free ones, cannot break the locking discipline. */
  lemma GoKeepsLocked(s: System, s': System, t: Thread, phase: Phase)
    requires Locked(s) && s'.running == s.running[t := phase]
    requires phase.HoldsBlobs() ==> s'.blobLock == Some(t)
    requires phase.HoldsStore() ==> s'.storeLock == Some(t)
    requires s'.blobLock == s.blobLock || s.blobLock.None?
    requires s'.storeLock == s.storeLock || s.storeLock.None?
    ensures Locked(s') && OthersStay(s, s', Some(t))
  {
  }

  lemma SamePhase(cfg: Config, s: System, s': System, phase: Phase)
    requires SameData(s, s') && s'.clock == s.clock && PhaseOk(cfg, s, phase)
    ensures PhaseOk(cfg, s', phase)
  {
  }

  lemma Returns(cfg: Config, s: System, t: Thread)
    requires Inv(cfg, s)
    ensures Inv(cfg, s.Ended(t))
  {
    EndKeepsLocked(s, t);
    ThreadMoves(cfg, s, s.Ended(t), Some(t));
  }

  lemma Goes(cfg: Config, s: System, t: Thread, phase: Phase)
    requires Inv(cfg, s) && !phase.HoldsBlobs() && !phase.HoldsStore() && PhaseOk(cfg, s, phase)
    ensures Inv(cfg, s.Going(t, phase))
  {
    GoKeepsLocked(s, s.Going(t, phase), t, phase);
    SamePhase(cfg, s, s.Going(t, phase), phase);
    ThreadMoves(cfg, s, s.Going(t, phase), Some(t));
  }

  /** A thread that has only read something claims nothing about it. */
  lemma Notes(cfg: Config, s: System, t: Thread, phase: Phase)
    requires Inv(cfg, s) && (phase.Probing? || phase.Abandoning? || phase.Discarding? || phase.Listed?)
    ensures Inv(cfg, s.Going(t, phase))
  {
    Goes(cfg, s, t, phase);
  }

  lemma TakesBlobs(cfg: Config, s: System, t: Thread, phase: Phase)
    requires Inv(cfg, s) && s.blobLock.None? && !phase.HoldsStore() && PhaseOk(cfg, s, phase)
    ensures Inv(cfg, s.(blobLock := Some(t)).Going(t, phase))
  {
    var s' := s.(blobLock := Some(t)).Going(t, phase);
    GoKeepsLocked(s, s', t, phase);
    SamePhase(cfg, s, s', phase);
    ThreadMoves(cfg, s, s', Some(t));
  }

  lemma QuietKeeps(cfg: Config, s: System, s': System)
    requires Inv(cfg, s) && SameData(s, s') && Locked(s') && (s'.running == s.running || s'.running == map[])
    ensures Inv(cfg, s')
  {
    ThreadMoves(cfg, s, s', None);
  }

  lemma TickKeeps(cfg: Config, s: System, at: Instant)
    requires Inv(cfg, s) && s.clock <= at
    ensures Inv(cfg, s.(clock := at))
  {
    QuietKeeps(cfg, s, s.(clock := at));
  }

  lemma ArriveKeeps(cfg: Config, s: System, t: Thread)
    requires Inv(cfg, s) && t in s.running && s.running[t].Arriving?
    ensures Inv(cfg, DoArrive(s, t))
  {
    var Arriving(id, grant, next, total) := s.running[t];
    if next < grant.chunkCount && !(id in s.disk.incoming && next in s.disk.incoming[id]) {
      Returns(cfg, s, t);
    } else {
      ArriveGoes(s, t);
      ArrivedKeeps(cfg, s, t, id, grant, next, total, DoArrive(s, t).running[t]);
    }
  }

  lemma ArriveGoes(s: System, t: Thread)
    requires t in s.running && s.running[t].Arriving?
    requires var Arriving(id, grant, next, _) := s.running[t];
             next < grant.chunkCount ==> id in s.disk.incoming && next in s.disk.incoming[id]
    ensures t in DoArrive(s, t).running && DoArrive(s, t) == s.Going(t, DoArrive(s, t).running[t])
  {
  }

  lemma ArrivedKeeps(cfg: Config, s: System, t: Thread, id: UploadId, grant: Grant, next: nat, total: int, phase: Phase)
    requires Inv(cfg, s) && t in s.running && s.running[t] == Arriving(id, grant, next, total)
    requires if next < grant.chunkCount
             then id in s.disk.incoming && next in s.disk.incoming[id]
                  && phase == Arriving(id, grant, next + 1, total + |s.disk.incoming[id][next]|)
             else phase == Hashing(id, grant, 0, []) || phase == Abandoning(id)
    ensures Inv(cfg, s.Going(t, phase))
  {
    assert PhaseOk(cfg, s, s.running[t]);
    ArrivedPhase(cfg, s, id, grant, next, total, phase);
    Goes(cfg, s, t, phase);
  }

  lemma ArrivedPhase(cfg: Config, s: System, id: UploadId, grant: Grant, next: nat, total: int, phase: Phase)
    requires Granted(s) && PhaseOk(cfg, s, Arriving(id, grant, next, total))
    requires if next < grant.chunkCount
             then id in s.disk.incoming && next in s.disk.incoming[id]
                  && phase == Arriving(id, grant, next + 1, total + |s.disk.incoming[id][next]|)
             else phase == Hashing(id, grant, 0, []) || phase == Abandoning(id)
    ensures PhaseOk(cfg, s, phase)
  {
  }

  lemma HashKeeps(cfg: Config, s: System, t: Thread)
    requires Inv(cfg, s) && t in s.running && s.running[t].Hashing?
    ensures Inv(cfg, DoHash(cfg, s, t))
  {
    var Hashing(id, grant, next, read) := s.running[t];
    assert PhaseOk(cfg, s, s.running[t]);
    var s' := DoHash(cfg, s, t);
    if t in s'.running {
      HashedPhase(cfg, s, id, grant, next, read, s'.running[t]);
      Goes(cfg, s, t, s'.running[t]);
    } else {
      Returns(cfg, s, t);
    }
  }

  lemma HashedPhase(cfg: Config, s: System, id: UploadId, grant: Grant, next: nat, read: seq<Byte>, phase: Phase)
    requires Granted(s) && PhaseOk(cfg, s, Hashing(id, grant, next, read))
    requires if next < grant.chunkCount
             then id in s.disk.incoming && next in s.disk.incoming[id]
                  && phase == Hashing(id, grant, next + 1, read + s.disk.incoming[id][next])
             else (phase == Checked(id, grant) && cfg.hash(read) == grant.digest) || phase == Abandoning(id)
    ensures PhaseOk(cfg, s, phase)
  {
    if phase.Checked? && id in s.disk.incoming {
      FullUploadHasItsSize(s, id, grant);
    }
  }

  /** Every chunk present means the granted size is present, so the size mismatch a commit
      checks for between arrival and hashing cannot occur. */
  lemma FullUploadHasItsSize(s: System, id: UploadId, grant: Grant)
    requires Granted(s) && Issued(s, id, grant) && id in s.disk.incoming &&
             Present(s.disk.incoming[id], grant.chunkCount)
    ensures Whole(s.disk.incoming[id], grant.chunkCount, grant.size)
  {
    AcceptedBytesAddUp(s.disk.incoming[id], grant.size, grant.chunkBytes, grant.chunkCount, grant.chunkCount);
    FramingIsExact(grant.size, grant.chunkBytes);
  }

  // ---- Steps on upload directories and rows -------------------------------------------------

  lemma MintKeeps(cfg: Config, s: System, t: Thread, id: UploadId, grant: Grant, at: Instant)
    requires Inv(cfg, s) && t !in s.running && s.StoreFree() && id !in s.issued && WellFramed(grant)
    requires OpenGrantsFor(s.uploads, grant.Target(), at) == {}
    ensures Inv(cfg, DoMint(s, t, id, grant, at))
  {
    var s' := DoMint(s, t, id, grant, at);
    GoKeepsLocked(s, s', t, Minting(id, grant));
    assert OpenGrantsFor(s'.uploads, grant.Target(), s'.clock) <= OpenGrantsFor(s.uploads, grant.Target(), at);
    MintGranted(s, s', id, grant);
    MintEvolves(s, s', t, id, grant);
    LiveStaysKept(cfg, s, s');
    GrantsFall(s, s');
    Assemble(cfg, s, s', Some(t));
  }

  lemma MintGranted(s: System, s': System, id: UploadId, grant: Grant)
    requires Granted(s) && id !in s.issued && WellFramed(grant)
    requires s'.uploads == s.uploads && s'.issued == s.issued[id := grant] &&
             s'.disk.incoming == s.disk.incoming[id := EMPTY]
    ensures Granted(s')
  {
  }

  lemma MintEvolves(s: System, s': System, t: Thread, id: UploadId, grant: Grant)
    requires id !in s.issued && OthersStay(s, s', Some(t)) && s.clock <= s'.clock
    requires s'.uploads == s.uploads && s'.snapshots == s.snapshots && s'.detached == s.detached &&
             s'.exposed == s.exposed
    requires s'.issued == s.issued[id := grant] && s'.disk == s.disk.(incoming := s.disk.incoming[id := EMPTY])
    ensures Evolves(s, s', Some(t))
  {
  }

  lemma FinishMintKeeps(cfg: Config, s: System, t: Thread)
    requires Inv(cfg, s) && t in s.running && s.running[t].Minting?
    ensures Inv(cfg, s.(uploads := s.uploads[s.running[t].id := s.running[t].grant]).Ended(t))
  {
    var s' := s.(uploads := s.uploads[s.running[t].id := s.running[t].grant]).Ended(t);
    var Minting(id, grant) := s.running[t];
    EndKeepsLocked(s, t);
    assert Granted(s') && Evolves(s, s', Some(t));
    OthersEvolve(cfg, s, s', Some(t));
    LiveStaysKept(cfg, s, s');
    forall a, b | a in s'.uploads && b in s'.uploads && a != b && s'.uploads[a].Target() == s'.uploads[b].Target()
      ensures s'.uploads[a].Expired(s'.clock) || s'.uploads[b].Expired(s'.clock)
    {
      if a == id {
        assert b !in OpenGrantsFor(s.uploads, grant.Target(), s.clock);
      } else if b == id {
        assert a !in OpenGrantsFor(s.uploads, grant.Target(), s.clock);
      }
    }
  }

  /** A step that changes one upload directory, or removes it. */
  lemma UploadChanges(cfg: Config, s: System, s': System, t: Thread, id: UploadId)
    requires Inv(cfg, s) && OthersStay(s, s', Some(t)) && Locked(s')
    requires s' == s.(disk := s.disk.(incoming := s'.disk.incoming), running := s'.running, blobLock := s'.blobLock,
                      storeLock := s'.storeLock)
    requires s'.disk.incoming == s.disk.incoming - {id} ||
             (id in s.disk.incoming && id in s'.disk.incoming
              && s'.disk.incoming == s.disk.incoming[id := s'.disk.incoming[id]]
              && Extends(s.disk.incoming[id], s'.disk.incoming[id]) && Fits(s.issued[id], s'.disk.incoming[id]))
    requires t in s'.running ==> PhaseOk(cfg, s', s'.running[t])
    ensures Inv(cfg, s')
  {
    assert Granted(s');
    assert Evolves(s, s', Some(t));
    LiveStaysKept(cfg, s, s');
    Assemble(cfg, s, s', Some(t));
  }

  lemma WriteKeeps(cfg: Config, s: System, t: Thread)
    requires Inv(cfg, s) && t in s.running && s.running[t].Writing?
    ensures Inv(cfg, DoWrite(s, s.running[t].id, s.running[t].index, s.running[t].bytes).Ended(t))
  {
    var Writing(id, index, bytes) := s.running[t];
    assert PhaseOk(cfg, s, s.running[t]);
    EndKeepsLocked(s, t);
    if id in s.disk.incoming && WriteInto(s.disk.incoming[id], index, bytes).Written? {
      UploadChanges(cfg, s, DoWrite(s, id, index, bytes).Ended(t), t, id);
    } else {
      Returns(cfg, s, t);
    }
  }

  lemma DiscardKeeps(cfg: Config, s: System, t: Thread)
    requires Inv(cfg, s) && t in s.running && s.running[t].Discarding?
    ensures Inv(cfg, s.WithoutIncoming(s.running[t].id).Ended(t))
  {
    EndKeepsLocked(s, t);
    UploadChanges(cfg, s, s.WithoutIncoming(s.running[t].id).Ended(t), t, s.running[t].id);
  }

  lemma AbandonBytesKeeps(cfg: Config, s: System, t: Thread)
    requires Inv(cfg, s) && t in s.running && s.running[t].Abandoning?
    ensures Inv(cfg, s.WithoutIncoming(s.running[t].id).Going(t, Dropping(s.running[t].id)))
  {
    var s' := s.WithoutIncoming(s.running[t].id).Going(t, Dropping(s.running[t].id));
    GoKeepsLocked(s, s', t, Dropping(s.running[t].id));
    UploadChanges(cfg, s, s', t, s.running[t].id);
  }

  lemma DropRowKeeps(cfg: Config, s: System, t: Thread, id: UploadId)
    requires Inv(cfg, s) && t in s.running &&
             (s.running[t] == Recorded(id) || (s.running[t] == Dropping(id) && s.StoreFree()))
    ensures Inv(cfg, s.(uploads := s.uploads - {id}).Ended(t))
  {
    var s' := s.(uploads := s.uploads - {id}).Ended(t);
    EndKeepsLocked(s, t);
    DropEvolves(s, s', t, id);
    OthersEvolve(cfg, s, s', Some(t));
    LiveStaysKept(cfg, s, s');
  }

  /** A grant goes, with or without its directory, under a store lock no other thread holds. */
  lemma DropEvolves(s: System, s': System, t: Thread, id: UploadId)
    requires Granted(s) && OthersStay(s, s', Some(t)) && NoOtherStore(s', Some(t))
    requires s' == s.(uploads := s.uploads - {id}, disk := s'.disk, running := s'.running, blobLock := s'.blobLock,
                      storeLock := s'.storeLock)
    requires s'.disk == s.disk || s'.disk == s.disk.(incoming := s.disk.incoming - {id})
    ensures Granted(s') && Evolves(s, s', Some(t))
  {
  }

  // ---- Steps on snapshot rows ------------------------------------------------------------------

  ghost predicate Fewer(before: map<Key, Row>, after: map<Key, Row>) {
    forall key :: LiveAt(after, key) ==>
      LiveAt(before, key) && after[key].chunkCount == before[key].chunkCount && after[key].size == before[key].size
  }

  lemma FewerLive(before: map<Key, Row>, after: map<Key, Row>, holder: Holder)
    requires Fewer(before, after)
    ensures |LiveRows(after, holder).Keys| <= |LiveRows(before, holder).Keys|
  {
    Smaller(LiveRows(after, holder).Keys, LiveRows(before, holder).Keys);
  }

  lemma {:induction false} Smaller<T>(a: set<T>, b: set<T>)
    requires a <= b
    ensures |a| <= |b|
  {
    if a != {} {
      var x := Pick(a);
      Smaller(a - {x}, b - {x});
    }
  }

  /** A step under the store lock that only takes rows out of the live set. */
  lemma RowsOnlyFall(cfg: Config, s: System, s': System, t: Option<Thread>)
    requires Inv(cfg, s) && Fewer(s.snapshots, s'.snapshots)
    requires s' == s.(snapshots := s'.snapshots, running := s'.running, blobLock := s'.blobLock,
                      storeLock := s'.storeLock)
    requires OthersStay(s, s', t) && NoOtherStore(s', t) && Locked(s')
    requires t.Some? && t.value in s'.running ==> PhaseOk(cfg, s', s'.running[t.value])
    ensures Inv(cfg, s')
  {
    assert Granted(s') && Evolves(s, s', t);
    OthersEvolve(cfg, s, s', t);
    forall holder ensures |LiveRows(s'.snapshots, holder).Keys| <= cfg.maximumRetained {
      FewerLive(s.snapshots, s'.snapshots, holder);
    }
    forall key | LiveAt(s'.snapshots, key)
      ensures Kept(cfg, s', key, s'.snapshots[key].chunkCount, s'.snapshots[key].size)
    {
      assert Kept(cfg, s, key, s.snapshots[key].chunkCount, s.snapshots[key].size);
    }
  }

  /** The row of a snapshot found without its bytes stops being live, and the thread ends. */
  lemma MarkKeeps(cfg: Config, s: System, t: Thread, key: Key, at: Instant)
    requires Inv(cfg, s) && s.StoreFree()
    ensures Inv(cfg, s.(snapshots := MarkUnavailable(s.snapshots, key, at)).Ended(t))
  {
    EndKeepsLocked(s, t);
    RowsOnlyFall(cfg, s, s.(snapshots := MarkUnavailable(s.snapshots, key, at)).Ended(t), Some(t));
  }

  lemma ProbeKeeps(cfg: Config, s: System, t: Thread)
    requires Inv(cfg, s) && t in s.running && s.running[t].Probing?
    ensures Inv(cfg, DoProbe(s, t))
  {
    if Serves(s, s.running[t].key, s.running[t].row) {
      Returns(cfg, s, t);
    } else {
      Goes(cfg, s, t, Marking(s.running[t].key));
    }
  }

  lemma InspectKeeps(cfg: Config, s: System, t: Thread)
    requires Inv(cfg, s) && t in s.running && s.running[t].Listed? && s.BothFree()
    ensures Inv(cfg, DoInspect(s, t))
  {
    if LiveAt(s.snapshots, s.running[t].key) {
      TakesBlobs(cfg, s, t, Inspecting(s.running[t].key, s.running[t].row));
    } else {
      Returns(cfg, s, t);
    }
  }

  lemma EndInspectKeeps(cfg: Config, s: System, t: Thread, at: Instant)
    requires Inv(cfg, s) && t in s.running && s.running[t].Inspecting? && s.StoreFree()
    ensures Inv(cfg, DoEndInspect(s, t, at))
  {
    if Serves(s, s.running[t].key, s.running[t].row) {
      Returns(cfg, s, t);
    } else {
      MarkKeeps(cfg, s, t, s.running[t].key, at);
    }
  }

  lemma ExpireKeeps(cfg: Config, s: System, key: Key, at: Instant)
    requires Inv(cfg, s) && s.BothFree()
    ensures Inv(cfg, s.(snapshots := MarkUnavailable(s.snapshots, key, at)))
  {
    RowsOnlyFall(cfg, s, s.(snapshots := MarkUnavailable(s.snapshots, key, at)), None);
  }

  lemma ForgetKeeps(cfg: Config, s: System, before: Instant)
    requires Inv(cfg, s) && s.StoreFree()
    ensures Inv(cfg, s.(snapshots := Receipts.SweepErasedReferences(s.snapshots, before)))
  {
    RowsOnlyFall(cfg, s, s.(snapshots := Receipts.SweepErasedReferences(s.snapshots, before)), None);
  }

  lemma EraseKeeps(cfg: Config, s: System, t: Thread, keys: set<Key>, at: Instant)
    requires Inv(cfg, s) && May(cfg, s, BeginErase(t, keys, at))
    ensures Inv(cfg, Do(cfg, s, BeginErase(t, keys, at)))
  {
    var s' := Do(cfg, s, BeginErase(t, keys, at));
    GoKeepsLocked(s, s', t, Unlinking(keys));
    RowsOnlyFall(cfg, s, s', Some(t));
  }

  // ---- Steps on retained directories --------------------------------------------------------------

  /** A step under the blob lock that removes a directory with no live row. */
  lemma RemovesDead(cfg: Config, s: System, s': System, t: Thread, key: Key)
    requires Inv(cfg, s) && !LiveAt(s.snapshots, key)
    requires s'.disk == s.disk || s'.disk == s.disk.(retained := s.disk.retained - {key})
    requires s' == s.(disk := s'.disk, running := s'.running, blobLock := s'.blobLock, storeLock := s'.storeLock)
    requires OthersStay(s, s', Some(t)) && Locked(s') && NoOtherBlobs(s', Some(t))
    requires t in s'.running ==> PhaseOk(cfg, s', s'.running[t])
    ensures Inv(cfg, s')
  {
    assert Granted(s') && Evolves(s, s', Some(t));
    OthersEvolve(cfg, s, s', Some(t));
    forall k | LiveAt(s'.snapshots, k)
      ensures Kept(cfg, s', k, s'.snapshots[k].chunkCount, s'.snapshots[k].size)
    {
      assert Kept(cfg, s, k, s.snapshots[k].chunkCount, s.snapshots[k].size);
    }
  }

  lemma UnlinkKeeps(cfg: Config, s: System, t: Thread, key: Key, ok: bool)
    requires Inv(cfg, s) && May(cfg, s, Unlink(t, key, ok))
    ensures Inv(cfg, Do(cfg, s, Unlink(t, key, ok)))
  {
    var s' := Do(cfg, s, Unlink(t, key, ok));
    GoKeepsLocked(s, s', t, Unlinking(s.running[t].keys - {key}));
    RemovesDead(cfg, s, s', t, key);
  }

  lemma EndSweepKeeps(cfg: Config, s: System, t: Thread)
    requires Inv(cfg, s) && t in s.running && s.running[t].Sweeping?
    ensures Inv(cfg, s.WithoutRetained(s.running[t].key).Ended(t))
  {
    EndKeepsLocked(s, t);
    RemovesDead(cfg, s, s.WithoutRetained(s.running[t].key).Ended(t), t, s.running[t].key);
  }

  // ---- Unlinks nobody waits for -----------------------------------------------------------------

  lemma DetachedKeeps(cfg: Config, s: System, task: Thread, key: Key, ok: bool)
    requires Inv(cfg, s) && task in s.detached && key in s.detached[task]
    ensures Inv(cfg, DoUnlinkDetached(s, task, key, ok))
  {
    var s' := DoUnlinkDetached(s, task, key, ok);
    DetachedShape(s, s', task, key, ok);
    assert Granted(s') && Evolves(s, s', None);
    OthersEvolve(cfg, s, s', None);
    DetachedKeepsLive(cfg, s, s', key);
  }

  lemma DetachedShape(s: System, s': System, task: Thread, key: Key, ok: bool)
    requires task in s.detached && key in s.detached[task] && s' == DoUnlinkDetached(s, task, key, ok)
    ensures s' == s.(disk := s'.disk, detached := s'.detached) && KeepsRetained(s, s') && s.Pending(key)
    ensures s'.disk.incoming == s.disk.incoming
    ensures forall k :: k != key && k in s.disk.retained ==>
            k in s'.disk.retained && s'.disk.retained[k] == s.disk.retained[k]
  {
    forall k | s'.Pending(k) ensures s.Pending(k) {
      var u :| u in s'.detached && k in s'.detached[u];
      assert u in s.detached && k in s.detached[u];
    }
  }

  lemma DetachedKeepsLive(cfg: Config, s: System, s': System, key: Key)
    requires LiveKept(cfg, s) && s'.snapshots == s.snapshots && KeepsRetained(s, s') && s.Pending(key)
    ensures LiveKept(cfg, s')
  {
    forall k | LiveAt(s'.snapshots, k)
      ensures Kept(cfg, s', k, s'.snapshots[k].chunkCount, s'.snapshots[k].size)
    {
      assert Kept(cfg, s, k, s.snapshots[k].chunkCount, s.snapshots[k].size);
    }
  }

  /** What becomes pending has no live row: the request still held the blob lock. */
  lemma DisconnectKeeps(cfg: Config, s: System, t: Thread, task: Thread)
    requires Inv(cfg, s) && t in s.running && s.running[t].Unlinking? && task !in s.detached
    ensures Inv(cfg, s.(detached := s.detached[task := s.running[t].keys]).Ended(t))
  {
    var keys := s.running[t].keys;
    var s' := s.(detached := s.detached[task := keys]).Ended(t);
    assert PhaseOk(cfg, s, Unlinking(keys));
    EndKeepsLocked(s, t);
    assert NoOtherBlobs(s', Some(t));
    assert Granted(s') && Evolves(s, s', Some(t));
    OthersEvolve(cfg, s, s', Some(t));
    DisconnectKeepsLive(cfg, s, s', task, keys);
  }

  lemma DisconnectKeepsLive(cfg: Config, s: System, s': System, task: Thread, keys: set<Key>)
    requires LiveKept(cfg, s) && forall key :: key in keys ==> !LiveAt(s.snapshots, key)
    requires s'.snapshots == s.snapshots && s'.disk == s.disk && s'.exposed == s.exposed
    requires task !in s.detached && s'.detached == s.detached[task := keys]
    ensures LiveKept(cfg, s')
  {
    forall k | LiveAt(s'.snapshots, k)
      ensures Kept(cfg, s', k, s'.snapshots[k].chunkCount, s'.snapshots[k].size)
    {
      assert Kept(cfg, s, k, s.snapshots[k].chunkCount, s.snapshots[k].size);
      if s'.Pending(k) {
        var u :| u in s'.detached && k in s'.detached[u];
        assert u in s.detached && k in s.detached[u];
      }
    }
  }

  /** A crash takes every thread, every lock and every pending unlink with it. */
  lemma CrashKeeps(cfg: Config, s: System)
    requires Inv(cfg, s)
    ensures Inv(cfg, s.(running := map[], blobLock := None, storeLock := None, detached := map[]))
  {
    var s' := s.(running := map[], blobLock := None, storeLock := None, detached := map[]);
    LiveStaysKept(cfg, s, s');
  }

  // ---- The commit ---------------------------------------------------------------------------------

  lemma PlaceKeeps(cfg: Config, s: System, t: Thread)
    requires Inv(cfg, s) && t in s.running && s.running[t].Checked? && s.BothFree()
    ensures Inv(cfg, DoPlace(cfg, s, t))
  {
    var Checked(id, grant) := s.running[t];
    if PlaceSucceeds(cfg, s, id, grant) {
      PlacedKeeps(cfg, s, t, id, grant);
    } else if RoomFor(cfg, s, grant.Target()) {
      Returns(cfg, s, t);
    } else {
      RefuseKeeps(cfg, s, t, id);
    }
  }

  lemma RefuseKeeps(cfg: Config, s: System, t: Thread, id: UploadId)
    requires Inv(cfg, s) && t in s.running && s.running[t].Checked? && s.running[t].id == id && s.BothFree()
    ensures Inv(cfg, s.WithoutIncoming(id).(uploads := s.uploads - {id}).Ended(t))
  {
    var s' := s.WithoutIncoming(id).(uploads := s.uploads - {id}).Ended(t);
    EndKeepsLocked(s, t);
    DropEvolves(s, s', t, id);
    OthersEvolve(cfg, s, s', Some(t));
    LiveStaysKept(cfg, s, s');
  }

  lemma PlacedKeeps(cfg: Config, s: System, t: Thread, id: UploadId, grant: Grant)
    requires Inv(cfg, s) && t in s.running && s.running[t] == Checked(id, grant) && s.BothFree()
    requires PlaceSucceeds(cfg, s, id, grant)
    ensures Inv(cfg, DoPlace(cfg, s, t))
  {
    var disk := Place(s.disk, cfg.hash, id, grant.Target(), grant.chunkCount, grant.size).disk;
    var s' := HoldingBoth(s, t, id, grant, disk);
    GoKeepsLocked(s, s', t, InPlace(id, grant));
    assert PhaseOk(cfg, s, s.running[t]);
    PlaceShape(cfg, s, id, grant, disk);
    PlacedEvolves(s, s', t, id, disk);
    PlaceKeepsLive(cfg, s, s', grant.Target());
    GrantsFall(s, s');
    PlacedPhase(cfg, s, s', id, grant);
    Assemble(cfg, s, s', Some(t));
  }

  lemma PlacedPhase(cfg: Config, s: System, s': System, id: UploadId, grant: Grant)
    requires Issued(s, id, grant) && RoomFor(cfg, s, grant.Target()) && s'.issued == s.issued &&
             s'.snapshots == s.snapshots
    requires LiveKept(cfg, s) && s'.exposed == ExposedBy(s, grant.Target()) && s'.detached == s.detached
    requires Complete(cfg, s', grant.Target(), grant.chunkCount, grant.size)
    ensures PhaseOk(cfg, s', InPlace(id, grant))
  {
    var key := grant.Target();
    assert s'.Pending(key) == s.Pending(key);
    if LiveAt(s.snapshots, key) {
      assert Kept(cfg, s, key, s.snapshots[key].chunkCount, s.snapshots[key].size);
    }
  }

  lemma PlacedEvolves(s: System, s': System, t: Thread, id: UploadId, disk: Disk)
    requires Granted(s) && OthersStay(s, s', Some(t)) && NoOtherBlobs(s', Some(t))
    requires s' == s.(disk := disk, exposed := s'.exposed, blobLock := s'.blobLock, storeLock := s'.storeLock,
                      running := s'.running)
    requires disk.incoming == s.disk.incoming - {id}
    ensures Granted(s') && Evolves(s, s', Some(t))
  {
  }

  /** A successful placement leaves every other retained directory alone, and its own
      verified. */
  lemma PlaceShape(cfg: Config, s: System, id: UploadId, grant: Grant, disk: Disk)
    requires Place(s.disk, cfg.hash, id, grant.Target(), grant.chunkCount, grant.size) == Placed(disk)
    requires id in s.disk.incoming ==>
             Verified(cfg.hash, s.disk.incoming[id], grant.chunkCount, grant.size, grant.digest)
    ensures disk.incoming == s.disk.incoming - {id}
    ensures forall k :: k in s.disk.retained ==> k in disk.retained && disk.retained[k] == s.disk.retained[k]
    ensures grant.Target() in disk.retained
    ensures Verified(cfg.hash, disk.retained[grant.Target()], grant.chunkCount, grant.size, grant.digest)
  {
  }

  lemma PlaceKeepsLive(cfg: Config, s: System, s': System, key: Key)
    requires LiveKept(cfg, s) && s'.snapshots == s.snapshots && s'.detached == s.detached &&
             s'.exposed == ExposedBy(s, key)
    requires forall k :: k in s.disk.retained ==> k in s'.disk.retained && s'.disk.retained[k] == s.disk.retained[k]
    ensures LiveKept(cfg, s')
  {
    forall k | LiveAt(s'.snapshots, k)
      ensures Kept(cfg, s', k, s'.snapshots[k].chunkCount, s'.snapshots[k].size)
    {
      assert Kept(cfg, s, k, s.snapshots[k].chunkCount, s.snapshots[k].size);
      assert s'.Pending(k) == s.Pending(k);
    }
  }

  lemma RecordKeeps(cfg: Config, s: System, t: Thread, at: Instant)
    requires Inv(cfg, s) && t in s.running && s.running[t].InPlace?
    ensures Inv(cfg, DoRecord(s, t, at))
  {
    InPlaceIsKept(cfg, s, t, s.running[t].id, s.running[t].grant);
    RowRecorded(cfg, s, DoRecord(s, t, at), t, s.running[t].id, s.running[t].grant, at);
  }

  lemma InPlaceIsKept(cfg: Config, s: System, t: Thread, id: UploadId, grant: Grant)
    requires PhasesOk(cfg, s) && t in s.running && s.running[t] == InPlace(id, grant)
    ensures Kept(cfg, s, grant.Target(), grant.chunkCount, grant.size) && RoomFor(cfg, s, grant.Target())
  {
    assert PhaseOk(cfg, s, s.running[t]);
  }

  lemma RowRecorded(cfg: Config, s: System, s': System, t: Thread, id: UploadId, grant: Grant, at: Instant)
    requires Inv(cfg, s) && t in s.running && s.running[t] == InPlace(id, grant)
    requires s' == s.(snapshots := Retain(s.snapshots, grant, at), running := s.running[t := Recorded(id)])
    requires Kept(cfg, s, grant.Target(), grant.chunkCount, grant.size) && RoomFor(cfg, s, grant.Target())
    ensures Inv(cfg, s')
  {
    GoKeepsLocked(s, s', t, Recorded(id));
    RecordEvolves(s, s', t);
    RecordKeepsLive(cfg, s, s', grant, at);
    RecordKeepsQuota(cfg, s, s', grant, at);
    GrantsFall(s, s');
    Assemble(cfg, s, s', Some(t));
  }

  lemma RecordEvolves(s: System, s': System, t: Thread)
    requires Locked(s) && Granted(s) && t in s.running && s.running[t].InPlace? && OthersStay(s, s', Some(t))
    requires s' == s.(snapshots := s'.snapshots, running := s'.running)
    ensures Granted(s') && Evolves(s, s', Some(t))
  {
  }

  lemma RecordKeepsLive(cfg: Config, s: System, s': System, grant: Grant, at: Instant)
    requires LiveKept(cfg, s) && Kept(cfg, s, grant.Target(), grant.chunkCount, grant.size)
    requires s' == s.(snapshots := Retain(s.snapshots, grant, at), running := s'.running)
    ensures LiveKept(cfg, s')
  {
    forall k | LiveAt(s'.snapshots, k)
      ensures Kept(cfg, s', k, s'.snapshots[k].chunkCount, s'.snapshots[k].size)
    {
      assert s'.Pending(k) == s.Pending(k);
      if LiveAt(s.snapshots, k) {
        assert Kept(cfg, s, k, s.snapshots[k].chunkCount, s.snapshots[k].size);
      }
    }
  }

  lemma RecordKeepsQuota(cfg: Config, s: System, s': System, grant: Grant, at: Instant)
    requires WithinQuota(cfg, s) && RoomFor(cfg, s, grant.Target())
    requires s'.snapshots == Retain(s.snapshots, grant, at)
    ensures WithinQuota(cfg, s')
  {
    forall holder ensures |LiveRows(s'.snapshots, holder).Keys| <= cfg.maximumRetained {
      RetainAddsAtMostOne(s.snapshots, grant, at, holder);
    }
  }

  lemma RetainAddsAtMostOne(snapshots: map<Key, Row>, grant: Grant, at: Instant, holder: Holder)
    ensures var before, after := LiveRows(snapshots, holder).Keys, LiveRows(Retain(snapshots, grant, at), holder).Keys;
            |after| <= |before| + if holder == grant.holder && !LiveAt(snapshots, grant.Target()) then 1 else 0
  {
    var before, after := LiveRows(snapshots, holder).Keys, LiveRows(Retain(snapshots, grant, at), holder).Keys;
    if holder == grant.holder && !LiveAt(snapshots, grant.Target()) {
      assert after <= before + {grant.digest};
      Smaller(after, before + {grant.digest});
    } else {
      assert after <= before;
      Smaller(after, before);
    }
  }

  // ---- Any step ---------------------------------------------------------------------------------------

  lemma StepKeeps(cfg: Config, s: System, step: Step)
    requires Inv(cfg, s) && May(cfg, s, step)
    ensures Inv(cfg, Do(cfg, s, step))
  {
    if IsUploadStep(step) {
      UploadStepKeeps(cfg, s, step);
    } else {
      OtherStepKeeps(cfg, s, step);
    }
  }

  lemma UploadStepKeeps(cfg: Config, s: System, step: Step)
    requires Inv(cfg, s) && May(cfg, s, step) && IsUploadStep(step)
    ensures Inv(cfg, Do(cfg, s, step))
  {
    match step
    case BeginMint(t, id, grant, at) => MintKeeps(cfg, s, t, id, grant, at);
    case FinishMint(t) => FinishMintKeeps(cfg, s, t);
    case BeginChunk(t, id, index, bytes, at) => Goes(cfg, s, t, Writing(id, index, bytes));
    case WriteChunk(t) => WriteKeeps(cfg, s, t);
    case BeginCommit(t, id, at) => Goes(cfg, s, t, Arriving(id, s.uploads[id], 0, 0));
    case Arrive(t) => ArriveKeeps(cfg, s, t);
    case Hash(t) => HashKeeps(cfg, s, t);
    case PlaceBytes(t) => PlaceKeeps(cfg, s, t);
    case RecordRow(t, at) => RecordKeeps(cfg, s, t, at);
    case FinishCommit(t) => DropRowKeeps(cfg, s, t, s.running[t].id);
    case AbandonBytes(t) => AbandonBytesKeeps(cfg, s, t);
    case AbandonRow(t) => DropRowKeeps(cfg, s, t, s.running[t].id);
  }

  lemma OtherStepKeeps(cfg: Config, s: System, step: Step)
    requires Inv(cfg, s) && May(cfg, s, step) && !IsUploadStep(step)
    ensures Inv(cfg, Do(cfg, s, step))
  {
    if IsListingStep(step) {
      ListingStepKeeps(cfg, s, step);
    } else {
      RemovalStepKeeps(cfg, s, step);
    }
  }

  /** Steps that read a row, a grant or a directory and go on holding only what they read. */
  predicate IsReadingStep(step: Step) {
    step.BeginDownload? || step.ListExpired? || step.ListOrphan? || step.ListLive? || step.Tick? || step.GiveUp?
  }

  lemma ListingStepKeeps(cfg: Config, s: System, step: Step)
    requires Inv(cfg, s) && May(cfg, s, step) && IsListingStep(step)
    ensures Inv(cfg, Do(cfg, s, step))
  {
    if IsReadingStep(step) {
      ReadingStepKeeps(cfg, s, step);
    } else {
      match step
      case Probe(t) => ProbeKeeps(cfg, s, t);
      case MarkLost(t, at) => MarkKeeps(cfg, s, t, s.running[t].key, at);
      case Discard(t) => DiscardKeeps(cfg, s, t);
      case Inspect(t) => InspectKeeps(cfg, s, t);
      case EndInspect(t, at) => EndInspectKeeps(cfg, s, t, at);
    }
  }

  lemma ReadingStepKeeps(cfg: Config, s: System, step: Step)
    requires Inv(cfg, s) && May(cfg, s, step) && IsReadingStep(step)
    ensures Inv(cfg, Do(cfg, s, step))
  {
    match step
    case BeginDownload(t, key) => Notes(cfg, s, t, Probing(key, s.snapshots[key]));
    case ListExpired(t, id, at) => Notes(cfg, s, t, Abandoning(id));
    case ListOrphan(t, id) => Notes(cfg, s, t, Discarding(id));
    case ListLive(t, key) => Notes(cfg, s, t, Listed(key, s.snapshots[key]));
    case Tick(at) => TickKeeps(cfg, s, at);
    case GiveUp(t) => Returns(cfg, s, t);
  }

  lemma RemovalStepKeeps(cfg: Config, s: System, step: Step)
    requires Inv(cfg, s) && May(cfg, s, step) && !IsUploadStep(step) && !IsListingStep(step)
    ensures Inv(cfg, Do(cfg, s, step))
  {
    match step
    case BeginErase(t, keys, at) => EraseKeeps(cfg, s, t, keys, at);
    case Unlink(t, key, ok) => UnlinkKeeps(cfg, s, t, key, ok);
    case EndErase(t) => Returns(cfg, s, t);
    case BeginSweep(t, key) => TakesBlobs(cfg, s, t, Sweeping(key));
    case EndSweep(t) => EndSweepKeeps(cfg, s, t);
    case Expire(key, at) => ExpireKeeps(cfg, s, key, at);
    case Disconnect(t, task) => DisconnectKeeps(cfg, s, t, task);
    case UnlinkDetached(task, key, ok) => DetachedKeeps(cfg, s, task, key, ok);
    case ForgetErased(before) => ForgetKeeps(cfg, s, before);
    case Crash => CrashKeeps(cfg, s);
  }
}
