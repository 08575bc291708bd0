/** When a live snapshot keeps its bytes, whatever happens next: exactly when they are all
    there and no unlink of it is pending, which a commit could check as it places them. */
module LifecycleHazards {
  import opened Types
  import opened Tables
  import opened Blobs
  import opened Lifecycle
  import opened LifecycleSafety
  import opened LifecycleSteps
  import opened LifecycleRuns
  import Receipts

  // ---- One step, one key ------------------------------------------------------------------

  /** A row live on both sides of a step is the same row, its directory goes only by a
      pending unlink, and no unlink of it becomes pending. */
  ghost predicate StaysPut(s: System, s': System, key: Key) {
    LiveAt(s.snapshots, key) && LiveAt(s'.snapshots, key) ==>
      && s'.snapshots[key] == s.snapshots[key]
      && (s'.Pending(key) ==> s.Pending(key))
      && (key in s.disk.retained && !s.Pending(key) ==>
            key in s'.disk.retained && s'.disk.retained[key] == s.disk.retained[key])
  }

  ghost predicate PlacesAt(s: System, step: Step, key: Key) {
    step.PlaceBytes? && step.t in s.running && s.running[step.t].Checked? && s.running[step.t].grant.Target() == key
  }

  lemma KeyStep(cfg: Config, s: System, step: Step, key: Key)
    requires Inv(cfg, s) && May(cfg, s, step)
    ensures var s' := Do(cfg, s, step);
            && StaysPut(s, s', key)
            && (LiveAt(s'.snapshots, key) && !LiveAt(s.snapshots, key) ==> step.RecordRow?)
            && (key in s'.disk.retained && !PlacesAt(s, step, key) ==>
                  key in s.disk.retained && s'.disk.retained[key] == s.disk.retained[key])
  {
    if IsUploadStep(step) {
      KeyUploadStep(cfg, s, step, key);
    } else if IsListingStep(step) {
      KeyListingStep(cfg, s, step, key);
    } else {
      KeyRemovalStep(cfg, s, step, key);
    }
  }

  /** Upload steps remove no retained directory, make none but the one they place, and
      bring rows to life only by recording them. */
  lemma KeyUploadStep(cfg: Config, s: System, step: Step, key: Key)
    requires May(cfg, s, step) && IsUploadStep(step)
    ensures var s' := Do(cfg, s, step);
            && s'.detached == s.detached
            && (key in s.disk.retained ==> key in s'.disk.retained && s'.disk.retained[key] == s.disk.retained[key])
            && (!PlacesAt(s, step, key) && key in s'.disk.retained ==> key in s.disk.retained)
            && (if step.RecordRow? then LiveAt(s.snapshots, key) ==>
                LiveAt(s'.snapshots, key) && s'.snapshots[key] == s.snapshots[key]
                else s'.snapshots == s.snapshots)
  {
    if step.PlaceBytes? {
      KeyPlaceStep(cfg, s, step.t, key);
    } else if !step.RecordRow? {
      QuietUploadStep(cfg, s, step);
    }
  }

  lemma KeyPlaceStep(cfg: Config, s: System, t: Thread, key: Key)
    requires t in s.running && s.running[t].Checked?
    ensures var s' := DoPlace(cfg, s, t);
            && (key in s.disk.retained ==> key in s'.disk.retained && s'.disk.retained[key] == s.disk.retained[key])
            && (key != s.running[t].grant.Target() && key in s'.disk.retained ==> key in s.disk.retained)
  {
    var Checked(id, grant) := s.running[t];
    if PlaceSucceeds(cfg, s, id, grant) {
      PlaceAddsOne(s.disk, cfg.hash, id, grant.Target(), grant.chunkCount, grant.size);
    } else {
      assert DoPlace(cfg, s, t).disk.retained == s.disk.retained;
    }
  }

  lemma PlaceAddsOne(disk: Disk, hash: seq<Byte> -> Digest, id: UploadId, key: Key, count: nat, size: nat)
    ensures var placed := Place(disk, hash, id, key, count, size);
            placed.Placed? ==>
              && (forall k :: k in disk.retained ==>
                   k in placed.disk.retained && placed.disk.retained[k] == disk.retained[k])
              && (forall k :: k in placed.disk.retained && k != key ==> k in disk.retained)
  {
  }

  /** Before a placement and after a record, an upload touches no retained directory. */
  ghost predicate SameRetained(s: System, s': System) {
    s'.disk.retained == s.disk.retained && s'.snapshots == s.snapshots && s'.detached == s.detached
  }

  lemma QuietUploadStep(cfg: Config, s: System, step: Step)
    requires May(cfg, s, step) && IsUploadStep(step) && !step.PlaceBytes? && !step.RecordRow?
    ensures SameRetained(s, Do(cfg, s, step))
  {
    match step
    case BeginMint(t, id, grant, at) =>
    case FinishMint(t) =>
    case BeginChunk(t, id, index, bytes, at) =>
    case WriteChunk(t) => assert SameRetained(s, DoWrite(s, s.running[t].id, s.running[t].index, s.running[t].bytes));
    case BeginCommit(t, id, at) =>
    case Arrive(t) => assert SameRetained(s, DoArrive(s, t));
    case Hash(t) => assert SameRetained(s, DoHash(cfg, s, t));
    case FinishCommit(t) =>
    case AbandonBytes(t) =>
    case AbandonRow(t) =>
  }

  lemma KeyListingStep(cfg: Config, s: System, step: Step, key: Key)
    requires May(cfg, s, step) && IsListingStep(step)
    ensures OnlyFalls(s, Do(cfg, s, step), key)
  {
    if IsReadingStep(step) {
      ReadingStepOnlyReads(cfg, s, step);
    } else {
      match step
      case Probe(t) => assert OnlyFalls(s, DoProbe(s, t), key);
      case MarkLost(t, at) =>
      case Discard(t) =>
      case Inspect(t) => assert OnlyFalls(s, DoInspect(s, t), key);
      case EndInspect(t, at) => assert OnlyFalls(s, DoEndInspect(s, t, at), key);
    }
  }

  lemma ReadingStepOnlyReads(cfg: Config, s: System, step: Step)
    requires May(cfg, s, step) && IsReadingStep(step)
    ensures SameRetained(s, Do(cfg, s, step))
  {
  }

  /** No directory changes, and the row at most stops being live. */
  ghost predicate OnlyFalls(s: System, s': System, key: Key) {
    && s'.detached == s.detached && s'.disk.retained == s.disk.retained
    && (LiveAt(s'.snapshots, key) ==> LiveAt(s.snapshots, key) && s'.snapshots[key] == s.snapshots[key])
  }

  lemma KeyRemovalStep(cfg: Config, s: System, step: Step, key: Key)
    requires PhasesOk(cfg, s) && May(cfg, s, step) && !IsUploadStep(step) && !IsListingStep(step)
    ensures var s' := Do(cfg, s, step);
            && StaysPut(s, s', key)
            && (LiveAt(s'.snapshots, key) ==> LiveAt(s.snapshots, key))
            && (key in s'.disk.retained ==> key in s.disk.retained && s'.disk.retained[key] == s.disk.retained[key])
  {
    if step.Unlink? || step.EndSweep? {
      KeyUnlinkStep(cfg, s, step, key);
    } else if step.Disconnect? || step.UnlinkDetached? {
      KeyLooseStep(cfg, s, step, key);
    } else {
      KeyRowStep(cfg, s, step, key);
    }
  }

  /** The removals of files under the lock. */
  lemma KeyUnlinkStep(cfg: Config, s: System, step: Step, key: Key)
    requires PhasesOk(cfg, s) && May(cfg, s, step) && (step.Unlink? || step.EndSweep?)
    ensures OnlyGoes(s, Do(cfg, s, step), key)
  {
    match step
    case Unlink(t, k, ok) => KeyUnlink(cfg, s, Do(cfg, s, step), t, k, key);
    case EndSweep(t) => KeyUnlink(cfg, s, Do(cfg, s, step), t, s.running[t].key, key);
  }

  /** And those that lost it. */
  lemma KeyLooseStep(cfg: Config, s: System, step: Step, key: Key)
    requires PhasesOk(cfg, s) && May(cfg, s, step) && (step.Disconnect? || step.UnlinkDetached?)
    ensures OnlyGoes(s, Do(cfg, s, step), key)
  {
    match step
    case Disconnect(t, task) => KeyDisconnect(cfg, s, Do(cfg, s, step), t, task, key);
    case UnlinkDetached(task, k, ok) => KeyDetached(s, DoUnlinkDetached(s, task, k, ok), task, k, ok, key);
  }

  /** Rows stay as they are, and the directory of the key stays or goes. */
  ghost predicate OnlyGoes(s: System, s': System, key: Key) {
    && StaysPut(s, s', key) && s'.snapshots == s.snapshots
    && (key in s'.disk.retained ==> key in s.disk.retained && s'.disk.retained[key] == s.disk.retained[key])
  }

  /** The removals of rows, and what ends or loses a thread: no directory changes, and
      nothing more is pending. */
  lemma KeyRowStep(cfg: Config, s: System, step: Step, key: Key)
    requires May(cfg, s, step) && !IsUploadStep(step) && !IsListingStep(step)
    requires !step.Unlink? && !step.EndSweep? && !step.Disconnect? && !step.UnlinkDetached?
    ensures var s' := Do(cfg, s, step);
            && s'.disk == s.disk && (s'.detached == s.detached || s'.detached == map[])
            && (LiveAt(s'.snapshots, key) ==> LiveAt(s.snapshots, key) && s'.snapshots[key] == s.snapshots[key])
  {
    match step
    case BeginErase(t, keys, at) => KeyErase(s, keys, at, key);
    case EndErase(t) =>
    case BeginSweep(t, k) =>
    case Expire(k, at) =>
    case ForgetErased(before) => KeyForget(s, before, key);
    case Crash =>
  }

  lemma KeyErase(s: System, keys: set<Key>, at: Instant, key: Key)
    ensures var after := EraseRows(s.snapshots, keys, at);
            LiveAt(after, key) ==> LiveAt(s.snapshots, key) && after[key] == s.snapshots[key]
  {
  }

  lemma KeyForget(s: System, before: Instant, key: Key)
    ensures var after := Receipts.SweepErasedReferences(s.snapshots, before);
            LiveAt(after, key) ==> LiveAt(s.snapshots, key) && after[key] == s.snapshots[key]
  {
  }

  /** A thread that holds the blob lock unlinks only what no live row names. */
  lemma KeyUnlink(cfg: Config, s: System, s': System, t: Thread, k: Key, key: Key)
    requires PhasesOk(cfg, s) && t in s.running
    requires (s.running[t].Unlinking? && k in s.running[t].keys) || s.running[t] == Sweeping(k)
    requires s'.snapshots == s.snapshots && s'.detached == s.detached
    requires s'.disk == s.disk || s'.disk == s.WithoutRetained(k).disk
    ensures OnlyGoes(s, s', key)
  {
    assert PhaseOk(cfg, s, s.running[t]);
  }

  lemma KeyDetached(s: System, s': System, task: Thread, k: Key, ok: bool, key: Key)
    requires task in s.detached && k in s.detached[task] && s' == DoUnlinkDetached(s, task, k, ok)
    ensures OnlyGoes(s, s', key)
  {
    DetachedShape(s, s', task, k, ok);
  }

  lemma KeyDisconnect(cfg: Config, s: System, s': System, t: Thread, task: Thread, key: Key)
    requires PhasesOk(cfg, s) && t in s.running && s.running[t].Unlinking? && task !in s.detached
    requires s'.snapshots == s.snapshots && s'.disk == s.disk
    requires s'.detached == s.detached[task := s.running[t].keys]
    ensures OnlyGoes(s, s', key)
  {
    assert PhaseOk(cfg, s, s.running[t]);
    DisconnectPends(s, s', task, s.running[t].keys, key);
  }

  lemma DisconnectPends(s: System, s': System, task: Thread, keys: set<Key>, key: Key)
    requires task !in s.detached && s'.detached == s.detached[task := keys]
    ensures s'.Pending(key) ==> s.Pending(key) || key in keys
  {
    if s'.Pending(key) {
      var u :| u in s'.detached && key in s'.detached[u];
      assert u != task ==> u in s.detached && key in s.detached[u];
    }
  }

  // ---- Safe for as long as it lives ------------------------------------------------------------

  /** The steps can be taken, and the row is live before, between and after them. */
  ghost predicate StaysLive(cfg: Config, s: System, more: seq<Step>, key: Key)
    decreases |more|
  {
    && Reach(cfg, s, more).Some? && LiveAt(Reach(cfg, s, more).value.snapshots, key)
    && (more == [] || StaysLive(cfg, s, more[..|more| - 1], key))
  }

  /** Whatever any thread does next, the snapshot is complete for as long as it is live. */
  ghost predicate KeepsItsBytes(cfg: Config, s: System, key: Key) {
    forall more :: StaysLive(cfg, s, more, key) ==> RowComplete(cfg, Reach(cfg, s, more).value, key)
  }

  lemma {:induction false} UnthreatenedStays(cfg: Config, s: System, more: seq<Step>, key: Key)
    requires Inv(cfg, s) && StaysLive(cfg, s, more, key)
    requires LiveAt(s.snapshots, key) && RowComplete(cfg, s, key) && !s.Pending(key)
    ensures var end := Reach(cfg, s, more).value;
            Inv(cfg, end) && RowComplete(cfg, end, key) && !end.Pending(key)
    decreases |more|
  {
    if more != [] {
      var before := more[..|more| - 1];
      UnthreatenedStays(cfg, s, before, key);
      var mid := Reach(cfg, s, before).value;
      StepKeeps(cfg, mid, more[|more| - 1]);
      KeyStep(cfg, mid, more[|more| - 1], key);
    }
  }

  /** In every reachable state: a live snapshot keeps its bytes through everything that may
      follow if and only if they are complete now and no unlink of it is pending. */
  lemma KeepsItsBytesExactlyWhen(cfg: Config, steps: seq<Step>, key: Key)
    requires Run(cfg, steps) && LiveAt(After(cfg, steps).snapshots, key)
    ensures KeepsItsBytes(cfg, After(cfg, steps), key) <==>
            RowComplete(cfg, After(cfg, steps), key) && !After(cfg, steps).Pending(key)
  {
    EveryStateIsSound(cfg, steps);
    var s := After(cfg, steps);
    if RowComplete(cfg, s, key) && !s.Pending(key) {
      forall more | StaysLive(cfg, s, more, key) ensures RowComplete(cfg, Reach(cfg, s, more).value, key) {
        UnthreatenedStays(cfg, s, more, key);
      }
    } else if s.Pending(key) {
      PendingLoses(cfg, s, key);
    } else {
      assert StaysLive(cfg, s, [], key);
    }
  }

  lemma PendingLoses(cfg: Config, s: System, key: Key)
    requires LiveAt(s.snapshots, key) && s.Pending(key)
    ensures !KeepsItsBytes(cfg, s, key)
  {
    var task :| task in s.detached && key in s.detached[task];
    var step := UnlinkDetached(task, key, true);
    OneMore(cfg, s, [], s, step);
    var more := [] + [step];
    assert more[..|more| - 1] == [] && StaysLive(cfg, s, [], key);
    assert StaysLive(cfg, s, more, key);
  }

  // ---- The guard a commit could check ----------------------------------------------------------

  /** From placing the bytes on, the committing thread is still between placing and recording. */
  ghost predicate StillHolds(cfg: Config, s: System, held: seq<Step>, t: Thread, phase: Phase)
    decreases |held|
  {
    && Reach(cfg, s, held).Some? && t in Reach(cfg, s, held).value.running &&
       Reach(cfg, s, held).value.running[t] == phase
    && (held == [] || StillHolds(cfg, s, held[..|held| - 1], t, phase))
  }

  /** However the commit goes on to record its row, the row it makes keeps its bytes. */
  ghost predicate CommitKeepsBytes(cfg: Config, placed: System, t: Thread, id: UploadId, grant: Grant) {
    forall held, at :: StillHolds(cfg, placed, held, t, InPlace(id, grant)) ==>
      KeepsItsBytes(cfg, Do(cfg, Reach(cfg, placed, held).value, RecordRow(t, at)), grant.Target())
  }

  /** While the thread holds the blob lock nobody else places, so its history stands. */
  lemma {:induction false} HeldIsUnexposed(cfg: Config, s: System, held: seq<Step>, t: Thread, id: UploadId,
                                           grant: Grant)
    requires Inv(cfg, s) && StillHolds(cfg, s, held, t, InPlace(id, grant))
    ensures Inv(cfg, Reach(cfg, s, held).value) && Reach(cfg, s, held).value.exposed == s.exposed
    decreases |held|
  {
    if held != [] {
      var before := held[..|held| - 1];
      HeldIsUnexposed(cfg, s, before, t, id, grant);
      var mid := Reach(cfg, s, before).value;
      StepKeeps(cfg, mid, held[|held| - 1]);
      assert mid.blobLock == Some(t);
    }
  }

  lemma RecordedIsComplete(cfg: Config, s: System, t: Thread, id: UploadId, grant: Grant, at: Instant)
    requires Inv(cfg, s) && t in s.running && s.running[t] == InPlace(id, grant)
    requires grant.Target() !in s.exposed
    ensures var s' := Do(cfg, s, RecordRow(t, at));
            && LiveAt(s'.snapshots, grant.Target()) && !s'.Pending(grant.Target())
            && RowComplete(cfg, s', grant.Target()) && Inv(cfg, s')
  {
    StepKeeps(cfg, s, RecordRow(t, at));
    var s' := Do(cfg, s, RecordRow(t, at));
    assert Kept(cfg, s', grant.Target(), s'.snapshots[grant.Target()].chunkCount, s'.snapshots[grant.Target()].size);
  }

  /** For every reachable state in which a commit places the bytes of a snapshot that is not
      live: the row it goes on to record keeps its bytes, whatever is interleaved before and
      after, if and only if no unlink of the snapshot is pending as they are placed. */
  lemma CommitKeepsBytesExactlyWhen(cfg: Config, steps: seq<Step>, t: Thread, id: UploadId, grant: Grant)
    requires Run(cfg, steps) && Places(cfg, After(cfg, steps), PlaceBytes(t), grant.Target())
    requires After(cfg, steps).running[t] == Checked(id, grant)
    ensures CommitKeepsBytes(cfg, Do(cfg, After(cfg, steps), PlaceBytes(t)), t, id, grant) <==>
            !After(cfg, steps).Pending(grant.Target())
  {
    EveryStateIsSound(cfg, steps);
    var s, key := After(cfg, steps), grant.Target();
    var placed := Do(cfg, s, PlaceBytes(t));
    StepKeeps(cfg, s, PlaceBytes(t));
    assert placed.running[t] == InPlace(id, grant);
    if s.Pending(key) {
      PendingCommitLoses(cfg, s, placed, t, id, grant);
    } else {
      forall held, at | StillHolds(cfg, placed, held, t, InPlace(id, grant))
        ensures KeepsItsBytes(cfg, Do(cfg, Reach(cfg, placed, held).value, RecordRow(t, at)), key)
      {
        HeldIsUnexposed(cfg, placed, held, t, id, grant);
        RecordedKeeps(cfg, Reach(cfg, placed, held).value, t, id, grant, at);
      }
    }
  }

  lemma RecordedKeeps(cfg: Config, s: System, t: Thread, id: UploadId, grant: Grant, at: Instant)
    requires Inv(cfg, s) && t in s.running && s.running[t] == InPlace(id, grant)
    requires grant.Target() !in s.exposed
    ensures KeepsItsBytes(cfg, Do(cfg, s, RecordRow(t, at)), grant.Target())
  {
    RecordedIsComplete(cfg, s, t, id, grant, at);
    var s' := Do(cfg, s, RecordRow(t, at));
    forall more | StaysLive(cfg, s', more, grant.Target())
      ensures RowComplete(cfg, Reach(cfg, s', more).value, grant.Target())
    {
      UnthreatenedStays(cfg, s', more, grant.Target());
    }
  }

  lemma PendingCommitLoses(cfg: Config, s: System, placed: System, t: Thread, id: UploadId, grant: Grant)
    requires s.Pending(grant.Target()) && placed.detached == s.detached
    requires t in placed.running && placed.running[t] == InPlace(id, grant)
    ensures !CommitKeepsBytes(cfg, placed, t, id, grant)
  {
    var at: Instant := 0;
    var recorded := Do(cfg, placed, RecordRow(t, at));
    assert StillHolds(cfg, placed, [], t, InPlace(id, grant));
    assert recorded.detached == s.detached && recorded.Pending(grant.Target());
    PendingLoses(cfg, recorded, grant.Target());
  }
}
