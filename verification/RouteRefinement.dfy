/** Erase, download, chunk upload and minting, run on their own, end where the interleaved
    system can end. */
module RouteRefinement {
  import opened Types
  import opened Tables
  import opened Framing
  import opened Blobs
  import opened Lifecycle
  import opened LifecycleRuns
  import opened LifecycleMoves
  import opened CommitRefinement
  import opened Uploads
  import opened Stores
  import Erasures
  import Lapse
  import Preflight
  import Receipts

  // ---- Erase ---------------------------------------------------------------------------

  /** The unlinks of an erasure, one by one. */
  lemma {:induction false} UnlinkRun(cfg: Config, start: System, run: seq<Step>, s: System, t: Thread, keys: set<Key>)
    returns (all: seq<Step>)
    requires Leads(cfg, start, run, s.Going(t, Unlinking(keys)))
    ensures Leads(cfg, start, all, s.(disk := s.disk.(retained := s.disk.retained - keys)).Going(t, Unlinking({})))
    decreases keys
  {
    if keys == {} {
      assert s.disk.retained - keys == s.disk.retained;
      all := run;
    } else {
      var key := Pick(keys);
      UnlinkNext(cfg, start, run, s, t, keys, key);
      all := UnlinkRun(cfg, start, run + [Unlink(t, key, true)], s.WithoutRetained(key), t, keys - {key});
      assert s.disk.retained - {key} - (keys - {key}) == s.disk.retained - keys;
    }
  }

  lemma UnlinkNext(cfg: Config, start: System, run: seq<Step>, s: System, t: Thread, keys: set<Key>, key: Key)
    requires key in keys && Leads(cfg, start, run, s.Going(t, Unlinking(keys)))
    ensures Leads(cfg, start, run + [Unlink(t, key, true)], s.WithoutRetained(key).Going(t, Unlinking(keys - {key})))
  {
    ThenUnlink(cfg, start, run, s.Going(t, Unlinking(keys)), t, keys, key);
    GoesOn(s.WithoutRetained(key), t, Unlinking(keys), Unlinking(keys - {key}));
  }

  /** From taking both locks to letting the blob lock go: rows erased, directories gone. */
  lemma EraseRun(cfg: Config, s: System, t: Thread, keys: set<Key>, at: Instant) returns (steps: seq<Step>)
    requires t !in s.running && s.BothFree() && forall key :: key in keys ==> LiveAt(s.snapshots, key)
    ensures Leads(cfg, s, steps, s.(snapshots := EraseRows(s.snapshots, keys, at),
                                    disk := s.disk.(retained := s.disk.retained - keys)))
  {
    LeadsNowhere(cfg, s);
    ThenBeginErase(cfg, s, [], s, t, keys, at);
    var erased := s.(snapshots := EraseRows(s.snapshots, keys, at), blobLock := Some(t));
    var unlinked := UnlinkRun(cfg, s, [] + [BeginErase(t, keys, at)], erased, t, keys);
    var gone := erased.(disk := erased.disk.(retained := erased.disk.retained - keys));
    ThenEndErase(cfg, s, unlinked, gone.Going(t, Unlinking({})), t);
    assert gone.Going(t, Unlinking({})).Ended(t).running == s.running;
    steps := unlinked + [EndErase(t)];
  }

  /** Refinement of the erase route: whatever it answers, a run of one thread ends in the
      same rows and directories. */
  lemma EraseIsARunOfSteps(cfg: Config, s: System, t: Thread, before: Tables, after: Tables, disk: Disk, holder: Holder,
                           scope: Scope, operation: OperationId, at: Instant, nextId: nat -> ReceiptId,
                           answer: Erasures.Answer)
    returns (steps: seq<Step>)
    requires t !in s.running && s.BothFree() && Shows(s, before, s.disk)
    requires Erasures.Decides(before, after, holder, scope, operation, at, nextId, answer)
    requires Erasures.Unlinks(before.snapshots, s.disk, disk, holder, scope, answer)
    ensures EndsAs(cfg, s, steps, after, disk)
  {
    if answer.Acknowledged? {
      var rows := Receipts.TargetRows(s.snapshots, holder, scope);
      var keys := Keyed(holder, rows.Keys);
      assert keys == set d | d in rows :: Key(holder, d);
      steps := EraseRun(cfg, s, t, keys, at);
      EndsThere(cfg, s, steps, s.(snapshots := EraseRows(s.snapshots, keys, at), disk := disk), after, disk);
    } else {
      steps := [];
      LeadsNowhere(cfg, s);
      EndsThere(cfg, s, steps, s, after, disk);
    }
  }

  // ---- Download, chunk and mint -----------------------------------------------------------

  /** Refinement of the download route: a served or refused row, or a live one marked. */
  lemma DownloadIsARunOfSteps(cfg: Config, s: System, t: Thread, before: Tables, after: Tables, caller: Holder,
                              digest: Digest, now: Instant, answer: DownloadAnswer)
    returns (steps: seq<Step>)
    requires t !in s.running && s.StoreFree() && s.blobLock != Some(t) && Shows(s, before, s.disk)
    requires DownloadEffect(before, s.disk, after, caller, digest, now, answer)
    ensures EndsAs(cfg, s, steps, after, s.disk)
  {
    var key := Key(caller, digest);
    LeadsNowhere(cfg, s);
    if !LiveAt(s.snapshots, key) {
      steps := [];
      EndsThere(cfg, s, steps, s, after, s.disk);
    } else {
      var row := s.snapshots[key];
      ThenBeginDownload(cfg, s, [], s, t, key);
      var reading := s.Going(t, Probing(key, row));
      ThenProbe(cfg, s, [] + [BeginDownload(t, key)], reading, t);
      steps := [] + [BeginDownload(t, key)] + [Probe(t)];
      EndsWhereItBegan(s, t, Probing(key, row));
      GoesOn(s, t, Probing(key, row), Marking(key));
      if answer.Served? {
        EndsThere(cfg, s, steps, s, after, s.disk);
      } else {
        MarkNext(cfg, s, steps, t, key, now);
        steps := steps + [MarkLost(t, now)];
        EndsThere(cfg, s, steps, s.(snapshots := MarkUnavailable(s.snapshots, key, now)), after, s.disk);
      }
    }
  }

  lemma MarkNext(cfg: Config, s: System, run: seq<Step>, t: Thread, key: Key, now: Instant)
    requires t !in s.running && s.StoreFree() && s.blobLock != Some(t) && Leads(cfg, s, run, s.Going(t, Marking(key)))
    ensures Leads(cfg, s, run + [MarkLost(t, now)], s.(snapshots := MarkUnavailable(s.snapshots, key, now)))
  {
    ThenMarkLost(cfg, s, run, s.Going(t, Marking(key)), t, key, now);
    EndsWhereItBegan(s.(snapshots := MarkUnavailable(s.snapshots, key, now)), t, Marking(key));
  }

  /** An accepted chunk is two steps: the check under the store lock, the write under none. */
  lemma ChunkRun(cfg: Config, s: System, t: Thread, id: UploadId, index: nat, body: Chunk, now: Instant)
    returns (steps: seq<Step>)
    requires t !in s.running && s.StoreFree() && s.blobLock != Some(t)
    requires id in s.uploads && !s.uploads[id].Expired(now)
    requires index < s.uploads[id].chunkCount && |body| == Expected(s.uploads[id], index)
    ensures Leads(cfg, s, steps, DoWrite(s, id, index, body))
  {
    LeadsNowhere(cfg, s);
    ThenBeginChunk(cfg, s, [], s, t, id, index, body, now);
    ThenWriteChunk(cfg, s, [] + [BeginChunk(t, id, index, body, now)], s.Going(t, Writing(id, index, body)), t, id,
                   index, body);
    WritesTheSame(s, t, id, index, body);
    steps := [] + [BeginChunk(t, id, index, body, now)] + [WriteChunk(t)];
  }

  lemma WritesTheSame(s: System, t: Thread, id: UploadId, index: nat, body: Chunk)
    requires t !in s.running && s.storeLock != Some(t) && s.blobLock != Some(t)
    ensures DoWrite(s.Going(t, Writing(id, index, body)), id, index, body).Ended(t) == DoWrite(s, id, index, body)
  {
    EndsWhereItBegan(DoWrite(s, id, index, body), t, Writing(id, index, body));
  }

  lemma ChunkIsARunOfSteps(cfg: Config, s: System, t: Thread, db: Tables, disk: Disk, caller: Holder, id: UploadId,
                           index: int, body: Chunk, now: Instant, answer: ChunkAnswer)
    returns (steps: seq<Step>)
    requires t !in s.running && s.StoreFree() && s.blobLock != Some(t) && Shows(s, db, s.disk)
    requires ChunkEffect(db, s.disk, disk, caller, id, index, body, now, answer)
    ensures EndsAs(cfg, s, steps, db, disk)
  {
    LeadsNowhere(cfg, s);
    if answer.ChunkStored? {
      steps := ChunkRun(cfg, s, t, id, index, body, now);
      EndsThere(cfg, s, steps, DoWrite(s, id, index, body), db, disk);
    } else {
      steps := [];
      EndsThere(cfg, s, steps, s, db, disk);
    }
  }

  /** A new grant is two steps under the store lock: the directory, then the row. */
  lemma MintRun(cfg: Config, s: System, t: Thread, id: UploadId, grant: Grant, at: Instant) returns (steps: seq<Step>)
    requires MayUploadStep(cfg, s, BeginMint(t, id, grant, at)) && s.blobLock != Some(t)
    ensures Leads(cfg, s, steps, Granting(s, id, grant, at))
  {
    LeadsNowhere(cfg, s);
    ThenBeginMint(cfg, s, [], s, t, id, grant, at);
    var minting := DoMint(s, t, id, grant, at);
    ThenFinishMint(cfg, s, [] + [BeginMint(t, id, grant, at)], minting, t);
    MintedThere(s, t, id, grant, at);
    steps := [] + [BeginMint(t, id, grant, at)] + [FinishMint(t)];
  }

  lemma MintedThere(s: System, t: Thread, id: UploadId, grant: Grant, at: Instant)
    requires t !in s.running && s.storeLock.None? && s.blobLock != Some(t)
    ensures var minting := DoMint(s, t, id, grant, at);
            minting.(uploads := minting.uploads[id := grant]).Ended(t) == Granting(s, id, grant, at)
  {
    var minting := DoMint(s, t, id, grant, at);
    assert minting.(uploads := minting.uploads[id := grant]).Ended(t).running == s.running;
  }

  ghost function Granting(s: System, id: UploadId, grant: Grant, at: Instant): System {
    s.(uploads := s.uploads[id := grant], disk := s.disk.(incoming := s.disk.incoming[id := EMPTY]),
       issued := s.issued[id := grant], clock := if s.clock < at then at else s.clock)
  }

  /** A grant the preflight route mints is one the system mints, with the same effect. */
  lemma MintIsARunOfSteps(cfg: Config, s: System, t: Thread, db: Tables, id: UploadId, limits: Preflight.Limits,
                          open: Option<UploadId>, currentTerms: TermsId, gate: Lapse.Verdict,
                          request: Preflight.Request, now: Instant, grant: Grant)
    returns (steps: seq<Step>)
    requires t !in s.running && s.BothFree() && id !in s.issued && Shows(s, db, s.disk)
    requires 0 < limits.chunkBytes && limits.maximumRetained == cfg.maximumRetained
    requires Preflight.Chosen(s.uploads, request.key, now, open)
    requires Preflight.Decide(limits, s.uploads, s.snapshots, open, currentTerms, gate, request, now) ==
             Preflight.Minted(grant)
    ensures EndsAs(cfg, s, steps, db.(uploads := db.uploads[id := grant]),
                   s.disk.(incoming := s.disk.incoming[id := EMPTY]))
  {
    PreflightMintsAsTheSystemMay(cfg, s, t, id, limits, open, currentTerms, gate, request, now);
    steps := MintRun(cfg, s, t, id, grant, now);
    EndsThere(cfg, s, steps, Granting(s, id, grant, now), db.(uploads := db.uploads[id := grant]),
              s.disk.(incoming := s.disk.incoming[id := EMPTY]));
  }
}
