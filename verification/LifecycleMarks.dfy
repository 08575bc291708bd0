/** When taking a snapshot out of the live set tells the truth about its bytes: the mark of
    a download that found none, and the mark of the sweep's inspection. */
module LifecycleMarks {
  import opened Types
  import opened Tables
  import opened Framing
  import opened Lifecycle
  import opened LifecycleSafety
  import opened LifecycleSteps
  import opened LifecycleRuns
  import opened LifecycleHazards

  // ---- What happened since a thread read its row ------------------------------------------

  predicate Reads(step: Step, t: Thread, key: Key) { step == BeginDownload(t, key) || step == ListLive(t, key) }

  /** A step brought the row of the key to life after the thread last read it. */
  ghost predicate RevivedSinceRead(cfg: Config, steps: seq<Step>, t: Thread, key: Key)
    requires Run(cfg, steps)
  {
    steps != [] &&
    var before, last := steps[..|steps| - 1], steps[|steps| - 1];
    && !Reads(last, t, key)
    && ((!LiveAt(After(cfg, before).snapshots, key) && LiveAt(After(cfg, steps).snapshots, key))
        || RevivedSinceRead(cfg, before, t, key))
  }

  /** A commit placed bytes under the key after the thread last read it. */
  ghost predicate PlacedSinceRead(cfg: Config, steps: seq<Step>, t: Thread, key: Key)
    requires Run(cfg, steps)
  {
    steps != [] &&
    var before, last := steps[..|steps| - 1], steps[|steps| - 1];
    !Reads(last, t, key) && (PlacesAt(After(cfg, before), last, key) || PlacedSinceRead(cfg, before, t, key))
  }

  ghost predicate Holds(s: System, t: Thread, key: Key, row: Row) {
    t in s.running && (s.running[t] == Probing(key, row) || s.running[t] == Listed(key, row) ||
                       s.running[t] == Inspecting(key, row))
  }

  ghost predicate Watches(s: System, t: Thread, key: Key) {
    t in s.running && (s.running[t] == Marking(key) ||
                       ((s.running[t].Probing? || s.running[t].Listed? || s.running[t].Inspecting?) &&
                        s.running[t].key == key))
  }

  /** A thread comes to watch a key by reading it, and keeps the row it read. */
  lemma WatchStep(cfg: Config, s: System, step: Step, t: Thread, key: Key)
    requires May(cfg, s, step)
    ensures var s' := Do(cfg, s, step);
            && (Watches(s', t, key) ==> Reads(step, t, key) || Watches(s, t, key))
            && (forall row :: Holds(s', t, key, row) && !Reads(step, t, key) ==> Holds(s, t, key, row))
            && (Reads(step, t, key) ==>
                  LiveAt(s.snapshots, key) && Holds(s', t, key, s.snapshots[key]) && s'.snapshots == s.snapshots)
  {
    if IsUploadStep(step) {
      UploadersDoNotWatch(cfg, s, step, t, key);
    } else if IsListingStep(step) {
      ListersWatch(cfg, s, step, t, key);
    } else {
      RemoversDoNotWatch(cfg, s, step, t, key);
    }
  }

  ghost predicate SameWatch(s: System, s': System, t: Thread, key: Key) {
    (Watches(s', t, key) ==> Watches(s, t, key)) && forall row :: Holds(s', t, key, row) ==> Holds(s, t, key, row)
  }

  lemma UploadersDoNotWatch(cfg: Config, s: System, step: Step, t: Thread, key: Key)
    requires May(cfg, s, step) && IsUploadStep(step)
    ensures SameWatch(s, Do(cfg, s, step), t, key)
  {
    MovedUpload(s, Do(cfg, s, step), step.t, t, key);
  }

  lemma MovedUpload(s: System, s': System, u: Thread, t: Thread, key: Key)
    requires MovesUpload(s, s', u)
    ensures SameWatch(s, s', t, key)
  {
  }

  lemma RemoversDoNotWatch(cfg: Config, s: System, step: Step, t: Thread, key: Key)
    requires May(cfg, s, step) && !IsUploadStep(step) && !IsListingStep(step)
    ensures SameWatch(s, Do(cfg, s, step), t, key)
  {
  }

  lemma ListersWatch(cfg: Config, s: System, step: Step, t: Thread, key: Key)
    requires May(cfg, s, step) && IsListingStep(step)
    ensures var s' := Do(cfg, s, step);
            && (Watches(s', t, key) ==> Reads(step, t, key) || Watches(s, t, key))
            && (forall row :: Holds(s', t, key, row) && !Reads(step, t, key) ==> Holds(s, t, key, row))
            && (Reads(step, t, key) ==>
                  LiveAt(s.snapshots, key) && Holds(s', t, key, s.snapshots[key]) && s'.snapshots == s.snapshots)
  {
    if IsReadingStep(step) {
      ReadersWatch(cfg, s, step, t, key);
    } else {
      ActorsWatch(cfg, s, step, t, key);
    }
  }

  lemma ActorsWatch(cfg: Config, s: System, step: Step, t: Thread, key: Key)
    requires May(cfg, s, step) && IsListingStep(step) && !IsReadingStep(step)
    ensures SameWatch(s, Do(cfg, s, step), t, key)
  {
    match step
    case Probe(u) => ProbeWatch(s, u, t, key);
    case MarkLost(u, at) => EndedWatch(s, Do(cfg, s, step), u, t, key);
    case Discard(u) => EndedWatch(s, Do(cfg, s, step), u, t, key);
    case Inspect(u) => InspectWatch(s, u, t, key);
    case EndInspect(u, at) => EndedWatch(s, DoEndInspect(s, u, at), u, t, key);
  }

  lemma EndedWatch(s: System, s': System, u: Thread, t: Thread, key: Key)
    requires s'.running == s.running - {u}
    ensures SameWatch(s, s', t, key)
  {
  }

  lemma ProbeWatch(s: System, u: Thread, t: Thread, key: Key)
    requires u in s.running && s.running[u].Probing?
    ensures SameWatch(s, DoProbe(s, u), t, key)
  {
  }

  lemma InspectWatch(s: System, u: Thread, t: Thread, key: Key)
    requires u in s.running && s.running[u].Listed?
    ensures SameWatch(s, DoInspect(s, u), t, key)
  {
  }

  lemma ReadersWatch(cfg: Config, s: System, step: Step, t: Thread, key: Key)
    requires May(cfg, s, step) && IsReadingStep(step)
    ensures var s' := Do(cfg, s, step);
            && (Watches(s', t, key) ==> Reads(step, t, key) || Watches(s, t, key))
            && (forall row :: Holds(s', t, key, row) && !Reads(step, t, key) ==> Holds(s, t, key, row))
            && (Reads(step, t, key) ==>
                  LiveAt(s.snapshots, key) && Holds(s', t, key, s.snapshots[key]) && s'.snapshots == s.snapshots)
  {
    match step
    case BeginDownload(u, k) => StartedWatch(s, Do(cfg, s, step), u, Probing(k, s.snapshots[k]), t, key);
    case ListExpired(u, id, at) => StartedWatch(s, Do(cfg, s, step), u, Abandoning(id), t, key);
    case ListOrphan(u, id) => StartedWatch(s, Do(cfg, s, step), u, Discarding(id), t, key);
    case ListLive(u, k) => StartedWatch(s, Do(cfg, s, step), u, Listed(k, s.snapshots[k]), t, key);
    case Tick(at) =>
    case GiveUp(u) => EndedWatch(s, Do(cfg, s, step), u, t, key);
  }

  /** A new thread watches what it has just read, if anything. */
  lemma StartedWatch(s: System, s': System, u: Thread, phase: Phase, t: Thread, key: Key)
    requires u !in s.running && s'.running == s.running[u := phase]
    ensures t != u ==> SameWatch(s, s', t, key)
    ensures t == u && phase.Probing? ==> forall row :: Holds(s', t, key, row) <==> phase == Probing(key, row)
    ensures t == u && phase.Listed? ==> forall row :: Holds(s', t, key, row) <==> phase == Listed(key, row)
    ensures t == u && !phase.Probing? && !phase.Listed? && !phase.Inspecting? && !phase.Marking? ==>
              SameWatch(s, s', t, key)
  {
  }

  // ---- A download that found no bytes ----------------------------------------------------------

  ghost predicate MarksNext(s: System, t: Thread, key: Key) { t in s.running && s.running[t] == Marking(key) }

  /** A download goes on to mark only from a probe that was not served. */
  lemma MarkingStep(cfg: Config, s: System, step: Step, t: Thread, key: Key)
    requires May(cfg, s, step) && MarksNext(Do(cfg, s, step), t, key)
    ensures MarksNext(s, t, key) ||
            (step == Probe(t) && t in s.running && s.running[t].Probing? && s.running[t].key == key
             && !Serves(s, key, s.running[t].row) && SameRetained(s, Do(cfg, s, step)))
  {
    if IsUploadStep(step) {
      assert MovesUpload(s, Do(cfg, s, step), step.t);
    }
  }

  /** What the thread holds of the key is its live row. */
  ghost predicate RowAsRead(s: System, t: Thread, key: Key)
    requires LiveAt(s.snapshots, key)
  {
    forall row :: Holds(s, t, key, row) ==> s.snapshots[key] == row
  }

  lemma RowAsReadStep(cfg: Config, s: System, step: Step, t: Thread, key: Key)
    requires Inv(cfg, s) && May(cfg, s, step) && LiveAt(s.snapshots, key) && LiveAt(Do(cfg, s, step).snapshots, key)
    requires Reads(step, t, key) || RowAsRead(s, t, key)
    ensures RowAsRead(Do(cfg, s, step), t, key)
  {
    WatchStep(cfg, s, step, t, key);
    KeyStep(cfg, s, step, key);
    SameRowHeld(s, Do(cfg, s, step), step, t, key);
  }

  lemma SameRowHeld(s: System, s': System, step: Step, t: Thread, key: Key)
    requires LiveAt(s.snapshots, key) && LiveAt(s'.snapshots, key) && s'.snapshots[key] == s.snapshots[key]
    requires forall row :: Holds(s', t, key, row) && !Reads(step, t, key) ==> Holds(s, t, key, row)
    requires if Reads(step, t, key) then Holds(s', t, key, s.snapshots[key]) else RowAsRead(s, t, key)
    ensures RowAsRead(s', t, key)
  {
  }

  /** The thread's row is the live one, and if it is about to mark, the key was exposed. */
  ghost predicate AsRead(s: System, t: Thread, key: Key)
    requires LiveAt(s.snapshots, key)
  {
    RowAsRead(s, t, key) && (MarksNext(s, t, key) ==> key in s.exposed)
  }

  lemma AsReadStep(cfg: Config, s: System, step: Step, t: Thread, key: Key)
    requires Inv(cfg, s) && May(cfg, s, step) && LiveAt(s.snapshots, key) && LiveAt(Do(cfg, s, step).snapshots, key)
    requires Reads(step, t, key) || AsRead(s, t, key)
    ensures AsRead(Do(cfg, s, step), t, key)
  {
    RowAsReadStep(cfg, s, step, t, key);
    if MarksNext(Do(cfg, s, step), t, key) {
      NoMarkAfterReading(cfg, s, step, t, key);
      ExposedWhenMarking(cfg, s, step, t, key);
      ExposedByPlacing(cfg, s, step, key);
    }
  }

  /** A thread that has just read its row is not about to mark it. */
  lemma NoMarkAfterReading(cfg: Config, s: System, step: Step, t: Thread, key: Key)
    requires May(cfg, s, step) && MarksNext(Do(cfg, s, step), t, key)
    ensures !Reads(step, t, key)
  {
    WatchStep(cfg, s, step, t, key);
  }

  lemma ExposedWhenMarking(cfg: Config, s: System, step: Step, t: Thread, key: Key)
    requires LiveKept(cfg, s) && May(cfg, s, step) && LiveAt(s.snapshots, key) && AsRead(s, t, key)
    requires MarksNext(Do(cfg, s, step), t, key)
    ensures key in s.exposed
  {
    MarkingStep(cfg, s, step, t, key);
    if !MarksNext(s, t, key) {
      assert Holds(s, t, key, s.running[t].row);
      UnservedIsExposed(cfg, s, key);
    }
  }

  /** While its row stays as read, a live key that a download is about to mark was exposed. */
  lemma {:induction false} UnrevivedIsExposed(cfg: Config, steps: seq<Step>, t: Thread, key: Key)
    requires Run(cfg, steps) && LiveAt(After(cfg, steps).snapshots, key) && !RevivedSinceRead(cfg, steps, t, key)
    ensures AsRead(After(cfg, steps), t, key)
  {
    if steps != [] {
      var before, last := steps[..|steps| - 1], steps[|steps| - 1];
      EveryStateIsSound(cfg, before);
      if Reads(last, t, key) {
        WatchStep(cfg, After(cfg, before), last, t, key);
      } else {
        UnrevivedIsExposed(cfg, before, t, key);
      }
      AsReadStep(cfg, After(cfg, before), last, t, key);
    }
  }

  lemma UnservedIsExposed(cfg: Config, s: System, key: Key)
    requires LiveKept(cfg, s) && LiveAt(s.snapshots, key) && !Serves(s, key, s.snapshots[key])
    ensures key in s.exposed
  {
    assert Kept(cfg, s, key, s.snapshots[key].chunkCount, s.snapshots[key].size);
  }

  /** Over every run: the mark of a download takes a snapshot whose directory serves it out
      of the live set if and only if the snapshot was brought back to life after the download
      read its row. For the keys that were placed under a pending unlink, see below. */
  lemma MarkIsWrongExactlyWhenRevived(cfg: Config, steps: seq<Step>, t: Thread, key: Key, at: Instant)
    requires Run(cfg, steps) && May(cfg, After(cfg, steps), MarkLost(t, at)) && MarksNext(After(cfg, steps), t, key)
    requires !PlacedUnderUnlink(cfg, steps, key)
    ensures var s, s' := After(cfg, steps), Do(cfg, After(cfg, steps), MarkLost(t, at));
            LiveAt(s.snapshots, key) && !LiveAt(s'.snapshots, key) && Serves(s, key, s.snapshots[key])
            <==> LiveAt(s.snapshots, key) && RevivedSinceRead(cfg, steps, t, key)
  {
    var s := After(cfg, steps);
    EveryStateIsSound(cfg, steps);
    ExposedHistory(cfg, steps, key);
    if LiveAt(s.snapshots, key) {
      if !Serves(s, key, s.snapshots[key]) {
        UnservedIsExposed(cfg, s, key);
      }
      if !RevivedSinceRead(cfg, steps, t, key) {
        UnrevivedIsExposed(cfg, steps, t, key);
      }
    }
  }

  /** A row comes to life only by a commit that placed its bytes after any watching began. */
  ghost predicate PlacedBeforeRecorded(cfg: Config, steps: seq<Step>, t: Thread, key: Key)
    requires Run(cfg, steps)
  {
    var s := After(cfg, steps);
    Watches(s, t, key) ==>
      forall u :: u in s.running && s.running[u].InPlace? && s.running[u].grant.Target() == key ==>
        PlacedSinceRead(cfg, steps, t, key)
  }

  lemma InPlaceStep(cfg: Config, s: System, step: Step, u: Thread, key: Key)
    requires May(cfg, s, step) && u in Do(cfg, s, step).running
    requires Do(cfg, s, step).running[u].InPlace? && Do(cfg, s, step).running[u].grant.Target() == key
    ensures PlacesAt(s, step, key) || (u in s.running && s.running[u] == Do(cfg, s, step).running[u])
  {
    if IsUploadStep(step) {
      assert MovesUpload(s, Do(cfg, s, step), step.t);
      if step.t == u {
        OnlyPlacingHolds(cfg, s, step);
      }
    } else if IsListingStep(step) {
      ListersDoNotPlace(cfg, s, step, u);
    }
  }

  lemma OnlyPlacingHolds(cfg: Config, s: System, step: Step)
    requires May(cfg, s, step) && IsUploadStep(step)
    requires step.t in Do(cfg, s, step).running && Do(cfg, s, step).running[step.t].InPlace?
    ensures step.PlaceBytes? && Do(cfg, s, step).running[step.t].grant == s.running[step.t].grant
  {
    match step
    case BeginMint(t, id, grant, at) =>
    case FinishMint(t) =>
    case BeginChunk(t, id, index, bytes, at) =>
    case WriteChunk(t) =>
    case BeginCommit(t, id, at) =>
    case Arrive(t) =>
    case Hash(t) =>
    case PlaceBytes(t) =>
    case RecordRow(t, at) =>
    case FinishCommit(t) =>
    case AbandonBytes(t) =>
    case AbandonRow(t) =>
  }

  lemma ListersDoNotPlace(cfg: Config, s: System, step: Step, u: Thread)
    requires May(cfg, s, step) && IsListingStep(step)
    requires u in Do(cfg, s, step).running && Do(cfg, s, step).running[u].InPlace?
    ensures u in s.running && s.running[u] == Do(cfg, s, step).running[u]
  {
  }

  lemma {:induction false} PlacingComesAfterReading(cfg: Config, steps: seq<Step>, t: Thread, key: Key)
    requires Run(cfg, steps)
    ensures PlacedBeforeRecorded(cfg, steps, t, key)
  {
    if steps != [] {
      var before, last := steps[..|steps| - 1], steps[|steps| - 1];
      var s, s' := After(cfg, before), After(cfg, steps);
      EveryStateIsSound(cfg, before);
      PlacingComesAfterReading(cfg, before, t, key);
      WatchStep(cfg, s, last, t, key);
      forall u | Watches(s', t, key) && u in s'.running && s'.running[u].InPlace? && s'.running[u].grant.Target() == key
        ensures PlacedSinceRead(cfg, steps, t, key)
      {
        InPlaceStep(cfg, s, last, u, key);
        if Reads(last, t, key) {
          ReadingNeedsTheStore(cfg, s, last, t, key, u);
        }
      }
    }
  }

  lemma ReadingNeedsTheStore(cfg: Config, s: System, step: Step, t: Thread, key: Key, u: Thread)
    requires Locked(s) && May(cfg, s, step) && Reads(step, t, key)
    ensures !(u in s.running && s.running[u].InPlace?)
  {
  }

  /** The thread's row is the live one, and if it is about to mark, nothing serves it. */
  ghost predicate Truthful(s: System, t: Thread, key: Key)
    requires LiveAt(s.snapshots, key)
  {
    RowAsRead(s, t, key) && (MarksNext(s, t, key) ==> !Serves(s, key, s.snapshots[key]))
  }

  lemma TruthfulStep(cfg: Config, s: System, step: Step, t: Thread, key: Key)
    requires Inv(cfg, s) && May(cfg, s, step) && LiveAt(s.snapshots, key) && LiveAt(Do(cfg, s, step).snapshots, key)
    requires Reads(step, t, key) || (Truthful(s, t, key) && !PlacesAt(s, step, key))
    ensures Truthful(Do(cfg, s, step), t, key)
  {
    RowAsReadStep(cfg, s, step, t, key);
    if MarksNext(Do(cfg, s, step), t, key) {
      NoMarkAfterReading(cfg, s, step, t, key);
      UnservedWhenMarking(cfg, s, step, t, key);
    }
  }

  lemma UnservedWhenMarking(cfg: Config, s: System, step: Step, t: Thread, key: Key)
    requires Inv(cfg, s) && May(cfg, s, step) && LiveAt(s.snapshots, key) && LiveAt(Do(cfg, s, step).snapshots, key)
    requires MarksNext(Do(cfg, s, step), t, key) && Truthful(s, t, key) && !PlacesAt(s, step, key)
    ensures !Serves(Do(cfg, s, step), key, Do(cfg, s, step).snapshots[key])
  {
    MarkingStep(cfg, s, step, t, key);
    KeyStep(cfg, s, step, key);
    if !MarksNext(s, t, key) {
      assert Holds(s, t, key, s.running[t].row);
    }
  }

  /** For every key, exposed or not: unless a commit placed bytes under the key after the
      download read its row, a mark that takes it out of the live set tells the truth. */
  lemma {:induction false} MarkIsRightUnlessPlaced(cfg: Config, steps: seq<Step>, t: Thread, key: Key)
    requires Run(cfg, steps) && Watches(After(cfg, steps), t, key) && !PlacedSinceRead(cfg, steps, t, key)
    requires LiveAt(After(cfg, steps).snapshots, key)
    ensures Truthful(After(cfg, steps), t, key)
  {
    var before, last := steps[..|steps| - 1], steps[|steps| - 1];
    EveryStateIsSound(cfg, before);
    WatchStep(cfg, After(cfg, before), last, t, key);
    if !Reads(last, t, key) {
      LiveBeforeToo(cfg, before, last, t, key);
      MarkIsRightUnlessPlaced(cfg, before, t, key);
    }
    TruthfulStep(cfg, After(cfg, before), last, t, key);
  }

  /** A watched key that nothing was placed under is not brought to life. */
  lemma LiveBeforeToo(cfg: Config, before: seq<Step>, last: Step, t: Thread, key: Key)
    requires Run(cfg, before) && May(cfg, After(cfg, before), last) && Watches(After(cfg, before), t, key)
    requires !PlacedSinceRead(cfg, before, t, key) && LiveAt(Do(cfg, After(cfg, before), last).snapshots, key)
    ensures LiveAt(After(cfg, before).snapshots, key)
  {
    var s := After(cfg, before);
    EveryStateIsSound(cfg, before);
    KeyStep(cfg, s, last, key);
    PlacingComesAfterReading(cfg, before, t, key);
    if !LiveAt(s.snapshots, key) {
      RevivedByCommit(cfg, s, last, key);
    }
  }

  /** Only the commit that holds the key in place can bring its row to life. */
  lemma RevivedByCommit(cfg: Config, s: System, step: Step, key: Key)
    requires May(cfg, s, step) && step.RecordRow? && !LiveAt(s.snapshots, key) &&
             LiveAt(Do(cfg, s, step).snapshots, key)
    ensures step.t in s.running && s.running[step.t].InPlace? && s.running[step.t].grant.Target() == key
  {
  }

  // ---- A row read too early ------------------------------------------------------------------------

  predicate SameFraming(a: Row, b: Row) { a.chunkCount == b.chunkCount && a.size == b.size }

  /** A live snapshot is refused by a thread that carries an older row of it exactly when the
      framing in that row is no longer the live one. */
  lemma RefusedExactlyWhenReframed(cfg: Config, s: System, key: Key, row: Row)
    requires Inv(cfg, s) && LiveAt(s.snapshots, key) && key !in s.exposed
    ensures Serves(s, key, s.snapshots[key])
    ensures Serves(s, key, row) <==> SameFraming(row, s.snapshots[key])
  {
    assert Kept(cfg, s, key, s.snapshots[key].chunkCount, s.snapshots[key].size);
    var live := s.snapshots[key];
    if Serves(s, key, row) {
      WholeOneWay(s.disk.retained[key], row.chunkCount, row.size, live.chunkCount, live.size);
    }
  }

  lemma WholeOneWay(dir: Dir, a: nat, sizeA: nat, b: nat, sizeB: nat)
    requires Whole(dir, a, sizeA) && Whole(dir, b, sizeB)
    ensures a == b && sizeA == sizeB
  {
    assert a in dir <==> a < b;
    assert b in dir <==> b < a;
  }

  /** Over every run: the sweep's inspection takes a live snapshot out if and only if the
      framing it listed is no longer the live one. Its directory serves it all the same, and
      the framing can only have changed by a revival after the listing. */
  lemma InspectionIsWrongExactlyWhenReframed(cfg: Config, steps: seq<Step>, t: Thread, key: Key, row: Row, at: Instant)
    requires Run(cfg, steps) && May(cfg, After(cfg, steps), EndInspect(t, at))
    requires After(cfg, steps).running[t] == Inspecting(key, row) && !PlacedUnderUnlink(cfg, steps, key)
    ensures var s, s' := After(cfg, steps), Do(cfg, After(cfg, steps), EndInspect(t, at));
            && (LiveAt(s.snapshots, key) && !LiveAt(s'.snapshots, key) <==>
                LiveAt(s.snapshots, key) && !SameFraming(row, s.snapshots[key]))
            && (LiveAt(s.snapshots, key) ==> Serves(s, key, s.snapshots[key]))
            && (LiveAt(s.snapshots, key) && !SameFraming(row, s.snapshots[key]) ==>
                RevivedSinceRead(cfg, steps, t, key))
  {
    var s := After(cfg, steps);
    EveryStateIsSound(cfg, steps);
    ExposedHistory(cfg, steps, key);
    if LiveAt(s.snapshots, key) {
      RefusedExactlyWhenReframed(cfg, s, key, row);
      if !RevivedSinceRead(cfg, steps, t, key) {
        UnrevivedIsExposed(cfg, steps, t, key);
        assert Holds(s, t, key, row);
      }
    }
  }
}
