/** From the client's bytes through any run of the operator and back. */
module LifecycleRoundTrip {
  import opened Types
  import opened Tables
  import opened Framing
  import opened Blobs
  import opened Lifecycle
  import opened LifecycleSafety
  import opened LifecycleSteps
  import opened LifecycleRuns
  import opened LifecycleHazards
  import LifecycleMarks

  /** For this upload nothing was accepted but these chunks, each at its own index; in what
      order, how often and by which requests is left open. */
  ghost predicate SentOnly(steps: seq<Step>, id: UploadId, chunks: seq<Chunk>) {
    forall i :: 0 <= i < |steps| ==> SendsOnly(steps[i], id, chunks)
  }

  ghost predicate SendsOnly(step: Step, id: UploadId, chunks: seq<Chunk>) {
    step.BeginChunk? && step.id == id ==> step.index < |chunks| && step.bytes == chunks[step.index]
  }

  ghost predicate HoldsOnly(s: System, id: UploadId, chunks: seq<Chunk>) {
    && (forall t :: t in s.running && s.running[t].Writing? && s.running[t].id == id ==>
          s.running[t].index < |chunks| && s.running[t].bytes == chunks[s.running[t].index])
    && (id in s.disk.incoming ==> Among(s.disk.incoming[id], chunks))
  }

  ghost predicate Among(dir: Dir, chunks: seq<Chunk>) { forall i :: i in dir ==> i < |chunks| && dir[i] == chunks[i] }

  lemma HoldsOnlyStep(cfg: Config, s: System, step: Step, id: UploadId, chunks: seq<Chunk>)
    requires May(cfg, s, step) && HoldsOnly(s, id, chunks) && SendsOnly(step, id, chunks)
    ensures HoldsOnly(Do(cfg, s, step), id, chunks)
  {
    if IsUploadStep(step) {
      UploadHoldsOnly(cfg, s, step, id, chunks);
    } else if IsListingStep(step) {
      ListingHoldsOnly(cfg, s, step, id, chunks);
    } else {
      RemovalHoldsOnly(cfg, s, step, id, chunks);
    }
  }

  lemma UploadHoldsOnly(cfg: Config, s: System, step: Step, id: UploadId, chunks: seq<Chunk>)
    requires May(cfg, s, step) && IsUploadStep(step) && HoldsOnly(s, id, chunks) && SendsOnly(step, id, chunks)
    ensures HoldsOnly(Do(cfg, s, step), id, chunks)
  {
    if step.WriteChunk? {
      WriteHoldsOnly(s, step.t, id, chunks);
    } else if step.PlaceBytes? {
      PlaceHoldsOnly(cfg, s, step.t, id, chunks);
    } else if step.BeginMint? {
      MintHoldsOnly(s, step.t, step.id, step.grant, step.at, id, chunks);
    } else if !step.BeginChunk? {
      LeavesChunks(cfg, s, step, id);
      HoldsStill(s, Do(cfg, s, step), step.t, id, chunks);
    }
  }

  /** The other upload steps change no chunk and write none next. */
  lemma LeavesChunks(cfg: Config, s: System, step: Step, id: UploadId)
    requires May(cfg, s, step) && IsUploadStep(step)
    requires !step.WriteChunk? && !step.PlaceBytes? && !step.BeginMint? && !step.BeginChunk?
    ensures var s' := Do(cfg, s, step);
            && (step.t in s'.running ==> !s'.running[step.t].Writing?)
            && (id in s'.disk.incoming ==> id in s.disk.incoming && s'.disk.incoming[id] == s.disk.incoming[id])
  {
    match step
    case FinishMint(t) =>
    case BeginCommit(t, x, at) =>
    case Arrive(t) =>
    case Hash(t) =>
    case RecordRow(t, at) =>
    case FinishCommit(t) =>
    case AbandonBytes(t) =>
    case AbandonRow(t) =>
  }

  lemma MintHoldsOnly(s: System, t: Thread, x: UploadId, grant: Grant, at: Instant, id: UploadId, chunks: seq<Chunk>)
    requires HoldsOnly(s, id, chunks)
    ensures HoldsOnly(DoMint(s, t, x, grant, at), id, chunks)
  {
  }

  lemma WriteHoldsOnly(s: System, t: Thread, id: UploadId, chunks: seq<Chunk>)
    requires t in s.running && s.running[t].Writing? && HoldsOnly(s, id, chunks)
    ensures HoldsOnly(DoWrite(s, s.running[t].id, s.running[t].index, s.running[t].bytes).Ended(t), id, chunks)
  {
  }

  lemma PlaceHoldsOnly(cfg: Config, s: System, t: Thread, id: UploadId, chunks: seq<Chunk>)
    requires t in s.running && s.running[t].Checked? && HoldsOnly(s, id, chunks)
    ensures HoldsOnly(DoPlace(cfg, s, t), id, chunks)
  {
    PlaceTakes(cfg, s, t, id);
    HoldsStill(s, DoPlace(cfg, s, t), t, id, chunks);
  }

  lemma PlaceTakes(cfg: Config, s: System, t: Thread, id: UploadId)
    requires t in s.running && s.running[t].Checked?
    ensures var s' := DoPlace(cfg, s, t);
            id in s'.disk.incoming ==> id in s.disk.incoming && s'.disk.incoming[id] == s.disk.incoming[id]
  {
    var Checked(x, grant) := s.running[t];
    PlaceFrees(s.disk, cfg.hash, x, grant.Target(), grant.chunkCount, grant.size);
  }

  lemma PlaceFrees(disk: Disk, hash: seq<Byte> -> Digest, id: UploadId, key: Key, count: nat, size: nat)
    ensures var placed := Place(disk, hash, id, key, count, size);
            placed.Placed? ==> placed.disk.incoming == disk.incoming - {id}
  {
  }

  lemma HoldsStill(s: System, s': System, t: Thread, id: UploadId, chunks: seq<Chunk>)
    requires HoldsOnly(s, id, chunks) && MovesUpload(s, s', t) && (t in s'.running ==> !s'.running[t].Writing?)
    requires id in s'.disk.incoming ==> id in s.disk.incoming && s'.disk.incoming[id] == s.disk.incoming[id]
    ensures HoldsOnly(s', id, chunks)
  {
  }

  lemma ListingHoldsOnly(cfg: Config, s: System, step: Step, id: UploadId, chunks: seq<Chunk>)
    requires May(cfg, s, step) && IsListingStep(step) && HoldsOnly(s, id, chunks)
    ensures HoldsOnly(Do(cfg, s, step), id, chunks)
  {
    if IsReadingStep(step) {
      ReadingHoldsOnly(cfg, s, step, id, chunks);
    } else {
      ActingHoldsOnly(cfg, s, step, id, chunks);
    }
  }

  lemma ActingHoldsOnly(cfg: Config, s: System, step: Step, id: UploadId, chunks: seq<Chunk>)
    requires May(cfg, s, step) && IsListingStep(step) && !IsReadingStep(step) && HoldsOnly(s, id, chunks)
    ensures HoldsOnly(Do(cfg, s, step), id, chunks)
  {
    match step
    case Probe(t) => NoWriterHoldsOnly(s, DoProbe(s, t), t, id, chunks);
    case MarkLost(t, at) => NoWriterHoldsOnly(s, Do(cfg, s, step), t, id, chunks);
    case Discard(t) => NoWriterHoldsOnly(s, Do(cfg, s, step), t, id, chunks);
    case Inspect(t) => NoWriterHoldsOnly(s, DoInspect(s, t), t, id, chunks);
    case EndInspect(t, at) => NoWriterHoldsOnly(s, DoEndInspect(s, t, at), t, id, chunks);
  }

  /** One thread ends or goes on to something that is not writing a chunk. */
  lemma NoWriterHoldsOnly(s: System, s': System, t: Thread, id: UploadId, chunks: seq<Chunk>)
    requires HoldsOnly(s, id, chunks) && (s'.disk == s.disk || exists x :: s'.disk == s.WithoutIncoming(x).disk)
    requires s'.running == s.running - {t} ||
             (t in s'.running && s'.running == s.running[t := s'.running[t]] && !s'.running[t].Writing?)
    ensures HoldsOnly(s', id, chunks)
  {
  }

  lemma ReadingHoldsOnly(cfg: Config, s: System, step: Step, id: UploadId, chunks: seq<Chunk>)
    requires May(cfg, s, step) && IsReadingStep(step) && HoldsOnly(s, id, chunks)
    ensures HoldsOnly(Do(cfg, s, step), id, chunks)
  {
  }

  lemma RemovalHoldsOnly(cfg: Config, s: System, step: Step, id: UploadId, chunks: seq<Chunk>)
    requires May(cfg, s, step) && !IsUploadStep(step) && !IsListingStep(step) && HoldsOnly(s, id, chunks)
    ensures HoldsOnly(Do(cfg, s, step), id, chunks)
  {
  }

  lemma {:induction false} SentOnlyIsHeld(cfg: Config, steps: seq<Step>, id: UploadId, chunks: seq<Chunk>)
    requires Run(cfg, steps) && SentOnly(steps, id, chunks)
    ensures HoldsOnly(After(cfg, steps), id, chunks)
    decreases |steps|
  {
    if steps != [] {
      SentOnlyIsHeld(cfg, steps[..|steps| - 1], id, chunks);
      HoldsOnlyStep(cfg, After(cfg, steps[..|steps| - 1]), steps[|steps| - 1], id, chunks);
    }
  }

  // ---- From the placement on -----------------------------------------------------------------

  /** A retained directory is never changed, only removed. */
  lemma DirectoryStays(cfg: Config, s: System, step: Step, key: Key)
    requires Inv(cfg, s) && May(cfg, s, step)
    requires key in s.disk.retained && key in Do(cfg, s, step).disk.retained
    ensures Do(cfg, s, step).disk.retained[key] == s.disk.retained[key]
  {
    if IsUploadStep(step) {
      KeyUploadStep(cfg, s, step, key);
    } else if IsListingStep(step) {
      KeyListingStep(cfg, s, step, key);
    } else {
      KeyRemovalStep(cfg, s, step, key);
    }
  }

  /** The directory has been there ever since the first i steps. */
  ghost predicate ThereSince(cfg: Config, steps: seq<Step>, i: nat, key: Key)
    requires Run(cfg, steps)
    decreases |steps|
  {
    key in After(cfg, steps).disk.retained && (|steps| <= i || ThereSince(cfg, steps[..|steps| - 1], i, key))
  }

  lemma {:induction false} SameSince(cfg: Config, steps: seq<Step>, i: nat, key: Key)
    requires Run(cfg, steps) && i <= |steps| && ThereSince(cfg, steps, i, key)
    ensures Run(cfg, steps[..i]) && key in After(cfg, steps[..i]).disk.retained
    ensures After(cfg, steps).disk.retained[key] == After(cfg, steps[..i]).disk.retained[key]
    decreases |steps|
  {
    if i == |steps| {
      assert steps[..i] == steps;
    } else {
      var before := steps[..|steps| - 1];
      assert before[..i] == steps[..i];
      SameSince(cfg, before, i, key);
      EveryStateIsSound(cfg, before);
      DirectoryStays(cfg, After(cfg, before), steps[|steps| - 1], key);
    }
  }

  lemma PlacedIsTheCut(cfg: Config, s: System, t: Thread, id: UploadId, grant: Grant, bytes: seq<Byte>)
    requires Inv(cfg, s) && t in s.running && s.running[t] == Checked(id, grant)
    requires PlaceSucceeds(cfg, s, id, grant) && grant.Target() !in s.disk.retained
    requires 0 < grant.chunkBytes && grant.size == |bytes| && HoldsOnly(s, id, Cut(bytes, grant.chunkBytes))
    ensures var dir := DoPlace(cfg, s, t).disk.retained;
            && grant.Target() in dir && Whole(dir[grant.Target()], grant.chunkCount, grant.size)
            && Content(dir[grant.Target()], grant.chunkCount) == bytes
  {
    assert PhaseOk(cfg, s, s.running[t]);
    var dir, chunks := s.disk.incoming[id], Cut(bytes, grant.chunkBytes);
    assert WellFramed(grant);
    CutIsFramed(bytes, grant.chunkBytes);
    CutRejoins(bytes, grant.chunkBytes);
    ContentJoins(dir, chunks);
  }

  /** If for a grant nothing was accepted but the chunks of one client's cut, in any order and
      with any retries, and the commit put that upload in place, then whatever is interleaved,
      for as long as the directory is there, a download that is served gets the sealed bytes. */
  lemma UploadedBytesAreServed(cfg: Config, steps: seq<Step>, i: nat, t: Thread, id: UploadId, grant: Grant,
                               bytes: seq<Byte>, row: Row)
    requires Run(cfg, steps) && i < |steps| && steps[i] == PlaceBytes(t)
    requires Run(cfg, steps[..i]) && Run(cfg, steps[..i + 1]) && t in After(cfg, steps[..i]).running &&
             After(cfg, steps[..i]).running[t] == Checked(id, grant)
    requires PlaceSucceeds(cfg, After(cfg, steps[..i]), id, grant) &&
             grant.Target() !in After(cfg, steps[..i]).disk.retained
    requires grant.size == |bytes| && 0 < grant.chunkBytes && SentOnly(steps, id, Cut(bytes, grant.chunkBytes))
    requires ThereSince(cfg, steps, i + 1, grant.Target())
    requires Serves(After(cfg, steps), grant.Target(), row)
    ensures Content(After(cfg, steps).disk.retained[grant.Target()], row.chunkCount) == bytes
  {
    PlacedInRun(cfg, steps, i, t, id, grant, bytes);
    SameSince(cfg, steps, i + 1, grant.Target());
    var dir := After(cfg, steps).disk.retained[grant.Target()];
    LifecycleMarks.WholeOneWay(dir, row.chunkCount, row.size, grant.chunkCount, grant.size);
  }

  lemma PlacedInRun(cfg: Config, steps: seq<Step>, i: nat, t: Thread, id: UploadId, grant: Grant, bytes: seq<Byte>)
    requires i < |steps| && steps[i] == PlaceBytes(t) && Run(cfg, steps[..i]) && Run(cfg, steps[..i + 1])
    requires t in After(cfg, steps[..i]).running && After(cfg, steps[..i]).running[t] == Checked(id, grant)
    requires PlaceSucceeds(cfg, After(cfg, steps[..i]), id, grant) &&
             grant.Target() !in After(cfg, steps[..i]).disk.retained
    requires grant.size == |bytes| && 0 < grant.chunkBytes && SentOnly(steps, id, Cut(bytes, grant.chunkBytes))
    ensures var dir := After(cfg, steps[..i + 1]).disk.retained;
            && grant.Target() in dir && Whole(dir[grant.Target()], grant.chunkCount, grant.size)
            && Content(dir[grant.Target()], grant.chunkCount) == bytes
  {
    HeldAt(cfg, steps, i, id, Cut(bytes, grant.chunkBytes));
    PlacedIsTheCut(cfg, After(cfg, steps[..i]), t, id, grant, bytes);
    StepAt(cfg, steps, i);
  }

  lemma HeldAt(cfg: Config, steps: seq<Step>, i: nat, id: UploadId, chunks: seq<Chunk>)
    requires i <= |steps| && Run(cfg, steps[..i]) && SentOnly(steps, id, chunks)
    ensures Inv(cfg, After(cfg, steps[..i])) && HoldsOnly(After(cfg, steps[..i]), id, chunks)
  {
    EveryStateIsSound(cfg, steps[..i]);
    assert forall j :: 0 <= j < i ==> steps[..i][j] == steps[j];
    SentOnlyIsHeld(cfg, steps[..i], id, chunks);
  }
}
