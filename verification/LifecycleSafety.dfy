/** What every reachable state of the lifecycle keeps. */
module LifecycleSafety {
  import opened Types
  import opened Tables
  import opened Framing
  import opened Lifecycle

  // ---- The invariant -------------------------------------------------------------------

  ghost predicate Locked(s: System) {
    forall t :: t in s.running ==>
      && (s.running[t].HoldsBlobs() ==> s.blobLock == Some(t))
      && (s.running[t].HoldsStore() ==> s.storeLock == Some(t))
  }

  ghost predicate Fits(grant: Grant, dir: Dir) {
    forall i :: i in dir ==> i < grant.chunkCount && |dir[i]| == Expected(grant, i)
  }

  /** Rows repeat what was issued, and upload directories hold nothing a grant does not
      allow for. */
  ghost predicate Granted(s: System) {
    && (forall id :: id in s.uploads ==> id in s.issued && s.uploads[id] == s.issued[id])
    && (forall id :: id in s.issued ==> WellFramed(s.issued[id]))
    && (forall id :: id in s.disk.incoming ==> id in s.issued && Fits(s.issued[id], s.disk.incoming[id]))
  }

  ghost predicate Issued(s: System, id: UploadId, grant: Grant) { id in s.issued && s.issued[id] == grant }

  ghost predicate Present(dir: Dir, count: nat) { forall i :: 0 <= i < count ==> i in dir }

  /** The bytes of a snapshot are all there and hash to its digest. */
  ghost predicate Complete(cfg: Config, s: System, key: Key, count: nat, size: nat) {
    key in s.disk.retained && Verified(cfg.hash, s.disk.retained[key], count, size, key.digest)
  }

  /** Complete and with no unlink of the key pending, unless they were placed under one. */
  ghost predicate Kept(cfg: Config, s: System, key: Key, count: nat, size: nat) {
    key in s.exposed || (!s.Pending(key) && Complete(cfg, s, key, count, size))
  }

  ghost predicate RoomFor(cfg: Config, s: System, key: Key) {
    LiveAt(s.snapshots, key) || |LiveRows(s.snapshots, key.holder).Keys| < cfg.maximumRetained
  }

  ghost predicate PhaseOk(cfg: Config, s: System, phase: Phase) {
    match phase
    case Minting(id, grant) =>
      Issued(s, id, grant) && id !in s.uploads && OpenGrantsFor(s.uploads, grant.Target(), s.clock) == {}
    case Writing(id, index, bytes) =>
      id in s.issued && index < s.issued[id].chunkCount && |bytes| == Expected(s.issued[id], index)
    case Arriving(id, grant, next, total) =>
      && Issued(s, id, grant) && next <= grant.chunkCount
      && total == SumExpected(grant.size, grant.chunkBytes, grant.chunkCount, next)
      && (id in s.disk.incoming ==> Present(s.disk.incoming[id], next))
    case Hashing(id, grant, next, read) =>
      && Issued(s, id, grant) && next <= grant.chunkCount
      && (id in s.disk.incoming ==>
            Present(s.disk.incoming[id], grant.chunkCount) && read == Content(s.disk.incoming[id], next))
    case Checked(id, grant) =>
      && Issued(s, id, grant)
      && (id in s.disk.incoming ==>
            Verified(cfg.hash, s.disk.incoming[id], grant.chunkCount, grant.size, grant.digest))
    case InPlace(id, grant) =>
      && Issued(s, id, grant)
      && Kept(cfg, s, grant.Target(), grant.chunkCount, grant.size)
      && RoomFor(cfg, s, grant.Target())
    case Unlinking(keys) => forall key :: key in keys ==> !LiveAt(s.snapshots, key)
    case Sweeping(key) => !LiveAt(s.snapshots, key)
    case _ => true
  }

  ghost predicate PhasesOk(cfg: Config, s: System) {
    forall t :: t in s.running ==> PhaseOk(cfg, s, s.running[t])
  }

  ghost predicate LiveKept(cfg: Config, s: System) {
    forall key :: LiveAt(s.snapshots, key) ==> Kept(cfg, s, key, s.snapshots[key].chunkCount, s.snapshots[key].size)
  }

  ghost predicate WithinQuota(cfg: Config, s: System) {
    forall holder :: |LiveRows(s.snapshots, holder).Keys| <= cfg.maximumRetained
  }

  ghost predicate OneOpenGrant(s: System) {
    forall a, b :: a in s.uploads && b in s.uploads && a != b && s.uploads[a].Target() == s.uploads[b].Target() ==>
      s.uploads[a].Expired(s.clock) || s.uploads[b].Expired(s.clock)
  }

  ghost predicate Inv(cfg: Config, s: System) {
    Locked(s) && Granted(s) && PhasesOk(cfg, s) && LiveKept(cfg, s) && WithinQuota(cfg, s) && OneOpenGrant(s)
  }

  // ---- What a step may change under the other threads -----------------------------------

  ghost predicate NoOtherBlobs(s: System, t: Option<Thread>) {
    forall u :: u in s.running && Some(u) != t ==> !s.running[u].HoldsBlobs()
  }

  ghost predicate NoOtherStore(s: System, t: Option<Thread>) {
    forall u :: u in s.running && Some(u) != t ==> !s.running[u].HoldsStore()
  }

  ghost predicate Extends(a: Dir, b: Dir) { forall i :: i in a ==> i in b && a[i] == b[i] }

  /** No directory goes but by a pending unlink, and no unlink becomes pending. */
  ghost predicate KeepsRetained(s: System, s': System) {
    && s'.exposed == s.exposed
    && (forall key :: s'.Pending(key) ==> s.Pending(key))
    && (forall key :: key in s.disk.retained && !s.Pending(key) ==>
          key in s'.disk.retained && s'.disk.retained[key] == s.disk.retained[key])
  }

  /** The part of a step the other threads can notice: upload directories only gain chunks
      or vanish; rows change under the store lock, come alive or lose bytes only under the
      blob lock. */
  ghost predicate Evolves(s: System, s': System, t: Option<Thread>) {
    && (forall u :: u in s'.running && Some(u) != t ==> u in s.running && s'.running[u] == s.running[u])
    && (forall id :: id in s.issued ==> id in s'.issued && s'.issued[id] == s.issued[id])
    && s.clock <= s'.clock
    && (forall id :: id in s'.disk.incoming && id in s.issued ==>
          id in s.disk.incoming && Extends(s.disk.incoming[id], s'.disk.incoming[id]))
    && (s'.snapshots == s.snapshots || NoOtherStore(s', t))
    && (s'.uploads == s.uploads || NoOtherStore(s', t))
    && ((forall key :: LiveAt(s'.snapshots, key) ==> LiveAt(s.snapshots, key)) || NoOtherBlobs(s', t))
    && (KeepsRetained(s, s') || NoOtherBlobs(s', t))
  }

  lemma {:induction false} ExtensionKeepsContent(a: Dir, b: Dir, count: nat)
    requires Extends(a, b) && Present(a, count)
    ensures Present(b, count) && Content(a, count) == Content(b, count)
  {
    SameChunksSameContent(a, b, count);
  }

  lemma PhaseEvolves(cfg: Config, s: System, s': System, t: Option<Thread>, u: Thread)
    requires Inv(cfg, s) && Granted(s') && Evolves(s, s', t)
    requires u in s'.running && Some(u) != t
    ensures PhaseOk(cfg, s', s'.running[u])
  {
    var phase := s.running[u];
    match phase
    case Hashing(id, grant, next, read) =>
      if id in s'.disk.incoming {
        ExtensionKeepsContent(s.disk.incoming[id], s'.disk.incoming[id], grant.chunkCount);
        ExtensionKeepsContent(s.disk.incoming[id], s'.disk.incoming[id], next);
      }
    case Checked(id, grant) =>
      if id in s'.disk.incoming {
        ExtensionKeepsContent(s.disk.incoming[id], s'.disk.incoming[id], grant.chunkCount);
      }
    case Minting(id, grant) =>
      assert OpenGrantsFor(s'.uploads, grant.Target(), s'.clock) <= OpenGrantsFor(s.uploads, grant.Target(), s.clock);
    case _ =>
  }

  lemma OthersEvolve(cfg: Config, s: System, s': System, t: Option<Thread>)
    requires Inv(cfg, s) && Granted(s') && Evolves(s, s', t)
    ensures forall u :: u in s'.running && Some(u) != t ==> PhaseOk(cfg, s', s'.running[u])
  {
    forall u | u in s'.running && Some(u) != t ensures PhaseOk(cfg, s', s'.running[u]) {
      PhaseEvolves(cfg, s, s', t, u);
    }
  }
}
