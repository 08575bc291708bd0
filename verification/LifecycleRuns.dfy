/** Safety of whole lifecycle runs, and the two interleavings that fall outside it. */
module LifecycleRuns {
  import opened Types
  import opened Tables
  import opened Framing
  import opened Blobs
  import opened Lifecycle
  import opened LifecycleSafety
  import opened LifecycleSteps
  import Lapse
  import Preflight

  const EMPTY_SYSTEM: System :=
    System(map[], map[], Disk(map[], map[]), map[], None, None, 0, map[], map[], {})

  /** The state the steps lead to, if each could be taken where it was taken. */
  ghost function Reach(cfg: Config, start: System, steps: seq<Step>): Option<System> {
    if steps == [] then Some(start)
    else
      match Reach(cfg, start, steps[..|steps| - 1])
      case None => None
      case Some(s) => if May(cfg, s, steps[|steps| - 1]) then Some(Do(cfg, s, steps[|steps| - 1])) else None
  }

  /** A run of the operator from an empty store and an empty disk. */
  ghost predicate Run(cfg: Config, steps: seq<Step>) { Reach(cfg, EMPTY_SYSTEM, steps).Some? }

  ghost function After(cfg: Config, steps: seq<Step>): System
    requires Run(cfg, steps)
  {
    Reach(cfg, EMPTY_SYSTEM, steps).value
  }

  lemma {:induction false} EveryStateIsSound(cfg: Config, steps: seq<Step>)
    requires Run(cfg, steps)
    ensures Inv(cfg, After(cfg, steps))
  {
    if steps == [] {
      assert forall holder :: LiveRows(EMPTY_SYSTEM.snapshots, holder).Keys == {};
    } else {
      EveryStateIsSound(cfg, steps[..|steps| - 1]);
      StepKeeps(cfg, After(cfg, steps[..|steps| - 1]), steps[|steps| - 1]);
    }
  }

  /** The step puts the bytes of a snapshot in place that has no live row. */
  ghost predicate Places(cfg: Config, s: System, step: Step, key: Key) {
    && step.PlaceBytes? && May(cfg, s, step) && !LiveAt(s.snapshots, key)
    && s.running[step.t].grant.Target() == key && PlaceSucceeds(cfg, s, s.running[step.t].id, s.running[step.t].grant)
  }

  /** When the bytes of the key were last placed, with no live row, an unlink of the key
      left behind by a dropped erase request was still to run. */
  ghost predicate PlacedUnderUnlink(cfg: Config, steps: seq<Step>, key: Key)
    requires Run(cfg, steps)
  {
    steps != [] &&
    var before, last := steps[..|steps| - 1], steps[|steps| - 1];
    if Places(cfg, After(cfg, before), last, key) then After(cfg, before).Pending(key)
    else PlacedUnderUnlink(cfg, before, key)
  }

  lemma ExposedByPlacing(cfg: Config, s: System, step: Step, key: Key)
    requires May(cfg, s, step)
    ensures key in Do(cfg, s, step).exposed <==>
            if Places(cfg, s, step, key) then s.Pending(key) else key in s.exposed
  {
  }

  lemma {:induction false} ExposedHistory(cfg: Config, steps: seq<Step>, key: Key)
    requires Run(cfg, steps)
    ensures key in After(cfg, steps).exposed <==> PlacedUnderUnlink(cfg, steps, key)
  {
    if steps != [] {
      var before := steps[..|steps| - 1];
      ExposedHistory(cfg, before, key);
      ExposedByPlacing(cfg, After(cfg, before), steps[|steps| - 1], key);
    }
  }

  ghost predicate RowComplete(cfg: Config, s: System, key: Key)
    requires LiveAt(s.snapshots, key)
  {
    Complete(cfg, s, key, s.snapshots[key].chunkCount, s.snapshots[key].size)
  }

  /** In every reachable state, under every interleaving and after any crash, a row the
      operator calls retained has its exact chunks on disk, of the declared total size,
      hashing to its digest, and no unlink of it is left to run; the one exception is a
      snapshot whose bytes were placed while an unlink of that very key was pending. */
  lemma LiveSnapshotsAreComplete(cfg: Config, steps: seq<Step>, key: Key)
    requires Run(cfg, steps) && LiveAt(After(cfg, steps).snapshots, key)
    requires !PlacedUnderUnlink(cfg, steps, key)
    ensures RowComplete(cfg, After(cfg, steps), key) && !After(cfg, steps).Pending(key)
    ensures var s := After(cfg, steps);
            && key in s.disk.retained
            && var row, dir := s.snapshots[key], s.disk.retained[key];
            && (forall i: nat :: i in dir <==> i < row.chunkCount)
            && |Content(dir, row.chunkCount)| == row.size && cfg.hash(Content(dir, row.chunkCount)) == key.digest
  {
    EveryStateIsSound(cfg, steps);
    ExposedHistory(cfg, steps, key);
  }

  /** No holder's live snapshots ever outnumber the limit, revivals and late commits included. */
  lemma QuotaHoldsThroughout(cfg: Config, steps: seq<Step>, holder: Holder)
    requires Run(cfg, steps)
    ensures |LiveRows(After(cfg, steps).snapshots, holder).Keys| <= cfg.maximumRetained
  {
    EveryStateIsSound(cfg, steps);
  }

  /** An upload with no chunk missing has the granted size: whatever order chunks came in
      and whatever raced them, the size check of a commit cannot fail after arrival. */
  lemma NothingMissingMeansFullSize(cfg: Config, steps: seq<Step>, id: UploadId)
    requires Run(cfg, steps)
    requires var s := After(cfg, steps);
             id in s.uploads && id in s.disk.incoming && Present(s.disk.incoming[id], s.uploads[id].chunkCount)
    ensures var s := After(cfg, steps);
            Whole(s.disk.incoming[id], s.uploads[id].chunkCount, s.uploads[id].size)
  {
    EveryStateIsSound(cfg, steps);
    var s := After(cfg, steps);
    FullUploadHasItsSize(s, id, s.uploads[id]);
  }

  // ---- Grants --------------------------------------------------------------------------------

  /** Two unexpired grants for one snapshot never coexist, now or at any later time. */
  lemma OneOpenGrantThroughout(cfg: Config, steps: seq<Step>, key: Key, now: Instant)
    requires Run(cfg, steps) && After(cfg, steps).clock <= now
    ensures |OpenGrantsFor(After(cfg, steps).uploads, key, now)| <= 1
  {
    EveryStateIsSound(cfg, steps);
    var open := OpenGrantsFor(After(cfg, steps).uploads, key, now);
    if open != {} {
      var a := Pick(open);
      assert forall b :: b in open ==> b == a;
      assert open == {a};
    }
  }

  lemma {:induction false} IssuedForever(cfg: Config, steps: seq<Step>, i: nat, id: UploadId)
    requires Run(cfg, steps) && i <= |steps|
    ensures Run(cfg, steps[..i])
    ensures id in After(cfg, steps[..i]).issued ==>
              id in After(cfg, steps).issued && After(cfg, steps).issued[id] == After(cfg, steps[..i]).issued[id]
    decreases |steps|
  {
    if i == |steps| {
      assert steps[..i] == steps;
    } else {
      var before := steps[..|steps| - 1];
      assert before[..i] == steps[..i];
      IssuedForever(cfg, before, i, id);
    }
  }

  /** A grant stays resumable exactly as minted: while its row is there and it has not run
      out, a retry for the same snapshot and size gets that same id, expiry, framing and
      terms, whatever terms the retry names and whether or not the holder still pays. */
  lemma GrantIsResumedAsMinted(cfg: Config, steps: seq<Step>, i: nat, id: UploadId, limits: Preflight.Limits,
                               open: Option<UploadId>, currentTerms: TermsId, gate: Lapse.Verdict,
                               request: Preflight.Request, now: Instant)
    requires Run(cfg, steps) && i <= |steps| && 0 < limits.chunkBytes
    requires Preflight.Chosen(After(cfg, steps).uploads, request.key, now, open)
    requires Run(cfg, steps[..i]) && id in After(cfg, steps[..i]).issued
    requires var s := After(cfg, steps); s.clock <= now && id in s.uploads && !s.uploads[id].Expired(now)
    requires var grant := After(cfg, steps[..i]).issued[id];
             request.key == grant.Target() && request.size == grant.size &&
               request.supersedes != Some(request.key.digest)
    ensures var s := After(cfg, steps);
            Preflight.Decide(limits, s.uploads, s.snapshots, open, currentTerms, gate, request, now)
            == Preflight.Resumed(id, After(cfg, steps[..i]).issued[id])
  {
    EveryStateIsSound(cfg, steps);
    IssuedForever(cfg, steps, i, id);
    var s := After(cfg, steps);
    assert WellFramed(s.issued[id]);
    assert id in OpenGrantsFor(s.uploads, request.key, now);
    assert forall other :: other in OpenGrantsFor(s.uploads, request.key, now) ==> other == id;
  }

  /** A grant the preflight route mints is one the system may begin to mint. */
  lemma PreflightMintsAsTheSystemMay(cfg: Config, s: System, t: Thread, id: UploadId, limits: Preflight.Limits,
                                     open: Option<UploadId>, currentTerms: TermsId, gate: Lapse.Verdict,
                                     request: Preflight.Request, now: Instant)
    requires t !in s.running && s.StoreFree() && id !in s.issued
    requires 0 < limits.chunkBytes && limits.maximumRetained == cfg.maximumRetained &&
             Preflight.Chosen(s.uploads, request.key, now, open)
    requires Preflight.Decide(limits, s.uploads, s.snapshots, open, currentTerms, gate, request, now).Minted?
    ensures May(cfg, s, BeginMint(t, id,
                                  Preflight.Decide(limits, s.uploads, s.snapshots, open, currentTerms, gate, request,
                                                   now).grant, now))
  {
    Preflight.MintedOnlyWithRoom(limits, s.uploads, s.snapshots, open, currentTerms, gate, request, now);
  }

  lemma StepAt(cfg: Config, steps: seq<Step>, i: nat)
    requires i < |steps| && Run(cfg, steps[..i + 1])
    ensures Run(cfg, steps[..i]) && May(cfg, After(cfg, steps[..i]), steps[i])
    ensures After(cfg, steps[..i + 1]) == Do(cfg, After(cfg, steps[..i]), steps[i])
  {
    assert steps[..i + 1][..i] == steps[..i];
  }

  // ---- Joining runs ------------------------------------------------------------------------------

  lemma OneMore(cfg: Config, start: System, steps: seq<Step>, s: System, step: Step)
    requires Reach(cfg, start, steps) == Some(s) && May(cfg, s, step)
    ensures Reach(cfg, start, steps + [step]) == Some(Do(cfg, s, step))
  {
    assert (steps + [step])[..|steps|] == steps;
  }

  lemma {:induction false} RunsJoin(cfg: Config, start: System, a: seq<Step>, mid: System, b: seq<Step>)
    requires Reach(cfg, start, a) == Some(mid)
    ensures Reach(cfg, start, a + b) == Reach(cfg, mid, b)
  {
    if b == [] {
      assert a + b == a;
    } else {
      RunsJoin(cfg, start, a, mid, b[..|b| - 1]);
      assert (a + b)[..|a + b| - 1] == a + b[..|b| - 1];
    }
  }
}
