/** Lengthening a run by one named step, with the state it leads to spelled out. */
module LifecycleMoves {
  import opened Types
  import opened Tables
  import opened Framing
  import opened Lifecycle
  import opened LifecycleRuns
  import Receipts

  /** The steps lead from one state to the other, with `Reach` kept folded: what strings
      runs together need not look into their steps. */
  ghost predicate Leads(cfg: Config, s: System, steps: seq<Step>, end: System) {
    forall n: nat {:trigger Unfolded(n)} :: Unfolded(n) ==> Reach(cfg, s, steps) == Some(end)
  }

  lemma LeadsNowhere(cfg: Config, s: System)
    ensures Leads(cfg, s, [], s)
  {
  }

  lemma LedTo(cfg: Config, s: System, steps: seq<Step>, end: System)
    requires Leads(cfg, s, steps, end)
    ensures Reach(cfg, s, steps) == Some(end)
  {
    assert Unfolded(0);
  }

  lemma LeadsOn(cfg: Config, start: System, a: seq<Step>, mid: System, b: seq<Step>, end: System)
    requires Leads(cfg, start, a, mid) && Leads(cfg, mid, b, end)
    ensures Leads(cfg, start, a + b, end)
  {
    assert Unfolded(0);
    RunsJoin(cfg, start, a, mid, b);
  }

  lemma ThenBeginMint(cfg: Config, start: System, run: seq<Step>, s: System, t: Thread, id: UploadId, grant: Grant,
                      at: Instant)
    requires Leads(cfg, start, run, s) && MayUploadStep(cfg, s, BeginMint(t, id, grant, at))
    ensures Leads(cfg, start, run + [BeginMint(t, id, grant, at)], DoMint(s, t, id, grant, at))
  {
    assert Unfolded(0);
    OneMore(cfg, start, run, s, BeginMint(t, id, grant, at));
  }

  lemma ThenFinishMint(cfg: Config, start: System, run: seq<Step>, s: System, t: Thread)
    requires Leads(cfg, start, run, s) && t in s.running && s.running[t].Minting?
    ensures Leads(cfg, start, run + [FinishMint(t)],
                  s.(uploads := s.uploads[s.running[t].id := s.running[t].grant]).Ended(t))
  {
    assert Unfolded(0);
    OneMore(cfg, start, run, s, FinishMint(t));
  }

  lemma ThenBeginChunk(cfg: Config, start: System, run: seq<Step>, s: System, t: Thread, id: UploadId, index: nat,
                       bytes: Chunk, at: Instant)
    requires Leads(cfg, start, run, s) && t !in s.running && s.StoreFree() && id in s.uploads &&
             !s.uploads[id].Expired(at)
    requires index < s.uploads[id].chunkCount && |bytes| == Expected(s.uploads[id], index)
    ensures Leads(cfg, start, run + [BeginChunk(t, id, index, bytes, at)], s.Going(t, Writing(id, index, bytes)))
  {
    assert Unfolded(0);
    OneMore(cfg, start, run, s, BeginChunk(t, id, index, bytes, at));
  }

  lemma ThenWriteChunk(cfg: Config, start: System, run: seq<Step>, s: System, t: Thread, id: UploadId, index: nat,
                       bytes: Chunk)
    requires Leads(cfg, start, run, s) && t in s.running && s.running[t] == Writing(id, index, bytes)
    ensures Leads(cfg, start, run + [WriteChunk(t)], DoWrite(s, id, index, bytes).Ended(t))
  {
    assert Unfolded(0);
    OneMore(cfg, start, run, s, WriteChunk(t));
  }

  lemma ThenBeginCommit(cfg: Config, start: System, run: seq<Step>, s: System, t: Thread, id: UploadId, at: Instant)
    requires Leads(cfg, start, run, s) && t !in s.running && s.StoreFree() && id in s.uploads &&
             !s.uploads[id].Expired(at)
    ensures Leads(cfg, start, run + [BeginCommit(t, id, at)], s.Going(t, Arriving(id, s.uploads[id], 0, 0)))
  {
    assert Unfolded(0);
    OneMore(cfg, start, run, s, BeginCommit(t, id, at));
  }

  lemma ThenArrive(cfg: Config, start: System, run: seq<Step>, s: System, t: Thread)
    requires Leads(cfg, start, run, s) && t in s.running && s.running[t].Arriving?
    ensures Leads(cfg, start, run + [Arrive(t)], DoArrive(s, t))
  {
    assert Unfolded(0);
    OneMore(cfg, start, run, s, Arrive(t));
  }

  lemma ThenHash(cfg: Config, start: System, run: seq<Step>, s: System, t: Thread)
    requires Leads(cfg, start, run, s) && t in s.running && s.running[t].Hashing?
    ensures Leads(cfg, start, run + [Hash(t)], DoHash(cfg, s, t))
  {
    assert Unfolded(0);
    OneMore(cfg, start, run, s, Hash(t));
  }

  lemma ThenPlaceBytes(cfg: Config, start: System, run: seq<Step>, s: System, t: Thread)
    requires Leads(cfg, start, run, s) && t in s.running && s.running[t].Checked? && s.BothFree()
    ensures Leads(cfg, start, run + [PlaceBytes(t)], DoPlace(cfg, s, t))
  {
    assert Unfolded(0);
    OneMore(cfg, start, run, s, PlaceBytes(t));
  }

  lemma ThenRecordRow(cfg: Config, start: System, run: seq<Step>, s: System, t: Thread, at: Instant)
    requires Leads(cfg, start, run, s) && t in s.running && s.running[t].InPlace?
    ensures Leads(cfg, start, run + [RecordRow(t, at)], DoRecord(s, t, at))
  {
    assert Unfolded(0);
    OneMore(cfg, start, run, s, RecordRow(t, at));
  }

  lemma ThenFinishCommit(cfg: Config, start: System, run: seq<Step>, s: System, t: Thread)
    requires Leads(cfg, start, run, s) && t in s.running && s.running[t].Recorded?
    ensures Leads(cfg, start, run + [FinishCommit(t)], s.(uploads := s.uploads - {s.running[t].id}).Ended(t))
  {
    assert Unfolded(0);
    OneMore(cfg, start, run, s, FinishCommit(t));
  }

  lemma ThenAbandonBytes(cfg: Config, start: System, run: seq<Step>, s: System, t: Thread, id: UploadId)
    requires Leads(cfg, start, run, s) && t in s.running && s.running[t] == Abandoning(id)
    ensures Leads(cfg, start, run + [AbandonBytes(t)], s.WithoutIncoming(id).Going(t, Dropping(id)))
  {
    assert Unfolded(0);
    OneMore(cfg, start, run, s, AbandonBytes(t));
  }

  lemma ThenAbandonRow(cfg: Config, start: System, run: seq<Step>, s: System, t: Thread, id: UploadId)
    requires Leads(cfg, start, run, s) && t in s.running && s.running[t] == Dropping(id) && s.StoreFree()
    ensures Leads(cfg, start, run + [AbandonRow(t)], s.(uploads := s.uploads - {id}).Ended(t))
  {
    assert Unfolded(0);
    OneMore(cfg, start, run, s, AbandonRow(t));
  }

  lemma ThenBeginDownload(cfg: Config, start: System, run: seq<Step>, s: System, t: Thread, key: Key)
    requires Leads(cfg, start, run, s) && t !in s.running && s.StoreFree() && LiveAt(s.snapshots, key)
    ensures Leads(cfg, start, run + [BeginDownload(t, key)], s.Going(t, Probing(key, s.snapshots[key])))
  {
    assert Unfolded(0);
    OneMore(cfg, start, run, s, BeginDownload(t, key));
  }

  lemma ThenProbe(cfg: Config, start: System, run: seq<Step>, s: System, t: Thread)
    requires Leads(cfg, start, run, s) && t in s.running && s.running[t].Probing?
    ensures Leads(cfg, start, run + [Probe(t)], DoProbe(s, t))
  {
    assert Unfolded(0);
    OneMore(cfg, start, run, s, Probe(t));
  }

  lemma ThenMarkLost(cfg: Config, start: System, run: seq<Step>, s: System, t: Thread, key: Key, at: Instant)
    requires Leads(cfg, start, run, s) && t in s.running && s.running[t] == Marking(key) && s.StoreFree()
    ensures Leads(cfg, start, run + [MarkLost(t, at)], s.(snapshots := MarkUnavailable(s.snapshots, key, at)).Ended(t))
  {
    assert Unfolded(0);
    OneMore(cfg, start, run, s, MarkLost(t, at));
  }

  lemma ThenListLive(cfg: Config, start: System, run: seq<Step>, s: System, t: Thread, key: Key)
    requires Leads(cfg, start, run, s) && t !in s.running && s.StoreFree() && LiveAt(s.snapshots, key)
    ensures Leads(cfg, start, run + [ListLive(t, key)], s.Going(t, Listed(key, s.snapshots[key])))
  {
    assert Unfolded(0);
    OneMore(cfg, start, run, s, ListLive(t, key));
  }

  lemma ThenInspect(cfg: Config, start: System, run: seq<Step>, s: System, t: Thread)
    requires Leads(cfg, start, run, s) && t in s.running && s.running[t].Listed? && s.BothFree()
    ensures Leads(cfg, start, run + [Inspect(t)], DoInspect(s, t))
  {
    assert Unfolded(0);
    OneMore(cfg, start, run, s, Inspect(t));
  }

  lemma ThenEndInspect(cfg: Config, start: System, run: seq<Step>, s: System, t: Thread, at: Instant)
    requires Leads(cfg, start, run, s) && t in s.running && s.running[t].Inspecting? && s.StoreFree()
    ensures Leads(cfg, start, run + [EndInspect(t, at)], DoEndInspect(s, t, at))
  {
    assert Unfolded(0);
    OneMore(cfg, start, run, s, EndInspect(t, at));
  }

  lemma ThenBeginErase(cfg: Config, start: System, run: seq<Step>, s: System, t: Thread, keys: set<Key>, at: Instant)
    requires Leads(cfg, start, run, s) && t !in s.running && s.BothFree() && forall key :: key in keys ==>
             LiveAt(s.snapshots, key)
    ensures Leads(cfg, start, run + [BeginErase(t, keys, at)],
                  s.(snapshots := EraseRows(s.snapshots, keys, at), blobLock := Some(t)).Going(t, Unlinking(keys)))
  {
    assert Unfolded(0);
    OneMore(cfg, start, run, s, BeginErase(t, keys, at));
  }

  lemma ThenUnlink(cfg: Config, start: System, run: seq<Step>, s: System, t: Thread, keys: set<Key>, key: Key)
    requires Leads(cfg, start, run, s) && t in s.running && s.running[t] == Unlinking(keys) && key in keys
    ensures Leads(cfg, start, run + [Unlink(t, key, true)], s.WithoutRetained(key).Going(t, Unlinking(keys - {key})))
  {
    assert Unfolded(0);
    OneMore(cfg, start, run, s, Unlink(t, key, true));
  }

  lemma ThenEndErase(cfg: Config, start: System, run: seq<Step>, s: System, t: Thread)
    requires Leads(cfg, start, run, s) && t in s.running && s.running[t] == Unlinking({})
    ensures Leads(cfg, start, run + [EndErase(t)], s.Ended(t))
  {
    assert Unfolded(0);
    OneMore(cfg, start, run, s, EndErase(t));
  }

  lemma ThenDisconnect(cfg: Config, start: System, run: seq<Step>, s: System, t: Thread, task: Thread, keys: set<Key>)
    requires Leads(cfg, start, run, s) && t in s.running && s.running[t] == Unlinking(keys) && task !in s.detached
    ensures Leads(cfg, start, run + [Disconnect(t, task)], s.(detached := s.detached[task := keys]).Ended(t))
  {
    assert Unfolded(0);
    OneMore(cfg, start, run, s, Disconnect(t, task));
  }

  lemma ThenCrash(cfg: Config, start: System, run: seq<Step>, s: System)
    requires Leads(cfg, start, run, s)
    ensures Leads(cfg, start, run + [Crash],
                  s.(running := map[], blobLock := None, storeLock := None, detached := map[]))
  {
    assert Unfolded(0);
    OneMore(cfg, start, run, s, Crash);
  }

  lemma ThenUnlinkDetached(cfg: Config, start: System, run: seq<Step>, s: System, task: Thread, key: Key)
    requires Leads(cfg, start, run, s) && task in s.detached && key in s.detached[task]
    ensures Leads(cfg, start, run + [UnlinkDetached(task, key, true)], DoUnlinkDetached(s, task, key, true))
  {
    assert Unfolded(0);
    OneMore(cfg, start, run, s, UnlinkDetached(task, key, true));
  }

  lemma ThenExpire(cfg: Config, start: System, run: seq<Step>, s: System, key: Key, at: Instant)
    requires Leads(cfg, start, run, s) && s.BothFree()
    ensures Leads(cfg, start, run + [Expire(key, at)], s.(snapshots := MarkUnavailable(s.snapshots, key, at)))
  {
    assert Unfolded(0);
    OneMore(cfg, start, run, s, Expire(key, at));
  }

  lemma ThenListExpired(cfg: Config, start: System, run: seq<Step>, s: System, t: Thread, id: UploadId, at: Instant)
    requires Leads(cfg, start, run, s) && t !in s.running && s.StoreFree() && id in s.uploads &&
             s.uploads[id].Expired(at)
    ensures Leads(cfg, start, run + [ListExpired(t, id, at)], s.Going(t, Abandoning(id)))
  {
    assert Unfolded(0);
    OneMore(cfg, start, run, s, ListExpired(t, id, at));
  }

  lemma ThenListOrphan(cfg: Config, start: System, run: seq<Step>, s: System, t: Thread, id: UploadId)
    requires Leads(cfg, start, run, s) && t !in s.running && s.StoreFree() && id in s.disk.incoming &&
             id !in s.uploads
    ensures Leads(cfg, start, run + [ListOrphan(t, id)], s.Going(t, Discarding(id)))
  {
    assert Unfolded(0);
    OneMore(cfg, start, run, s, ListOrphan(t, id));
  }

  lemma ThenDiscard(cfg: Config, start: System, run: seq<Step>, s: System, t: Thread, id: UploadId)
    requires Leads(cfg, start, run, s) && t in s.running && s.running[t] == Discarding(id)
    ensures Leads(cfg, start, run + [Discard(t)], s.WithoutIncoming(id).Ended(t))
  {
    assert Unfolded(0);
    OneMore(cfg, start, run, s, Discard(t));
  }

  lemma ThenBeginSweep(cfg: Config, start: System, run: seq<Step>, s: System, t: Thread, key: Key)
    requires Leads(cfg, start, run, s) && t !in s.running && s.BothFree() && !LiveAt(s.snapshots, key)
    ensures Leads(cfg, start, run + [BeginSweep(t, key)], s.(blobLock := Some(t)).Going(t, Sweeping(key)))
  {
    assert Unfolded(0);
    OneMore(cfg, start, run, s, BeginSweep(t, key));
  }

  lemma ThenEndSweep(cfg: Config, start: System, run: seq<Step>, s: System, t: Thread, key: Key)
    requires Leads(cfg, start, run, s) && t in s.running && s.running[t] == Sweeping(key)
    ensures Leads(cfg, start, run + [EndSweep(t)], s.WithoutRetained(key).Ended(t))
  {
    assert Unfolded(0);
    OneMore(cfg, start, run, s, EndSweep(t));
  }

  lemma ThenForgetErased(cfg: Config, start: System, run: seq<Step>, s: System, before: Instant)
    requires Leads(cfg, start, run, s) && s.StoreFree()
    ensures Leads(cfg, start, run + [ForgetErased(before)],
                  s.(snapshots := Receipts.SweepErasedReferences(s.snapshots, before)))
  {
    assert Unfolded(0);
    OneMore(cfg, start, run, s, ForgetErased(before));
  }
}
