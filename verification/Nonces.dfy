/** Single-use proofs: the freshness window of payload.rs, the nonce table and its sweep.

    Instants here are ticks of a clock with `resolution` ticks to the second, because
    the freshness test drops the sub-second part of the difference.
  */
module Nonces {
  import opened Types
  import opened Tables

  datatype Clock = Clock(resolution: nat, skew: nat, lag: nat)
  {
    ghost predicate Valid() { 0 < resolution }

    /** The furthest a stamp may lie from now and still round to within the skew. */
    function Reach(): int { skew * resolution + resolution - 1 }
  }

  /** Difference truncated to whole seconds, then compared with the skew on both sides. */
  predicate Fresh(clock: Clock, now: Instant, signedAt: Instant)
    requires clock.Valid()
  {
    var apart := if now < signedAt then signedAt - now else now - signedAt;
    apart / clock.resolution <= clock.skew
  }

  lemma FreshWithinReach(clock: Clock, now: Instant, signedAt: Instant)
    requires clock.Valid()
    ensures Fresh(clock, now, signedAt) <==> signedAt - clock.Reach() <= now <= signedAt + clock.Reach()
  {
    var apart := if now < signedAt then signedAt - now else now - signedAt;
    var whole, rest := apart / clock.resolution, apart % clock.resolution;
    assert apart == whole * clock.resolution + rest;
    Multiples(clock.resolution, whole, clock.skew);
  }

  lemma Multiples(unit: nat, a: nat, b: nat)
    ensures if a <= b then a * unit <= b * unit else b * unit + unit <= a * unit
  {
    if a <= b {
      assert b * unit == a * unit + (b - a) * unit;
    } else {
      assert a * unit == b * unit + unit + (a - b - 1) * unit;
    }
  }

  // ---- The table --------------------------------------------------------------

  /** INSERT OR IGNORE: a nonce already on record stays as first seen. */
  function RecordNonce(nonces: map<NonceKey, Instant>, key: NonceKey, at: Instant): map<NonceKey, Instant> {
    if key in nonces then nonces else nonces[key := at]
  }

  function SweepNonces(nonces: map<NonceKey, Instant>, floor: Instant): map<NonceKey, Instant> {
    map key | key in nonces && floor <= nonces[key] :: nonces[key]
  }

  // ---- Runs ----------------------------------------------------------------------

  /** A signed request: the signature fixes the holder, the nonce and the timestamp. */
  datatype Proof = Proof(key: NonceKey, signedAt: Instant)

  datatype Event =
    | Presented(proof: Proof, verifies: bool)
    | Swept

  datatype Entry = Entry(at: Instant, event: Event)

  /** Stamps are read before the lock, so a later entry may carry a stamp up to `lag`
      behind an earlier one. */
  ghost predicate Run(clock: Clock, log: seq<Entry>) {
    forall i, j :: 0 <= i < j < |log| ==> log[i].at <= log[j].at + clock.lag
  }

  ghost predicate Admits(clock: Clock, nonces: map<NonceKey, Instant>, entry: Entry, proof: Proof)
    requires clock.Valid()
  {
    && entry.event.Presented? && entry.event.proof == proof && entry.event.verifies
    && Fresh(clock, entry.at, proof.signedAt)
    && proof.key !in nonces
  }

  ghost function Apply(clock: Clock, retention: int, nonces: map<NonceKey, Instant>, entry: Entry)
    : map<NonceKey, Instant>
    requires clock.Valid()
  {
    match entry.event
    case Swept => SweepNonces(nonces, entry.at - retention)
    case Presented(proof, verifies) =>
      if verifies && Fresh(clock, entry.at, proof.signedAt) then RecordNonce(nonces, proof.key, entry.at) else nonces
  }

  ghost function After(clock: Clock, retention: int, log: seq<Entry>): map<NonceKey, Instant>
    requires clock.Valid()
  {
    if log == [] then map[]
    else Apply(clock, retention, After(clock, retention, log[..|log| - 1]), log[|log| - 1])
  }

  /** The request at position `i` of the log is let through with this proof. */
  ghost predicate AcceptedAt(clock: Clock, retention: int, log: seq<Entry>, i: nat, proof: Proof)
    requires clock.Valid()
  {
    i < |log| && Admits(clock, After(clock, retention, log[..i]), log[i], proof)
  }

  ghost predicate AcceptedTwice(clock: Clock, retention: int, log: seq<Entry>, i: nat, j: nat, proof: Proof)
    requires clock.Valid()
  {
    Run(clock, log) && i < j && AcceptedAt(clock, retention, log, i, proof) &&
      AcceptedAt(clock, retention, log, j, proof)
  }

  /** No run ever lets one proof through twice. */
  ghost predicate SingleUse(clock: Clock, retention: int)
    requires clock.Valid()
  {
    forall log, i, j, proof :: !AcceptedTwice(clock, retention, log, i, j, proof)
  }

  lemma AfterOneMore(clock: Clock, retention: int, log: seq<Entry>, m: nat)
    requires clock.Valid() && m < |log|
    ensures After(clock, retention, log[..m + 1]) == Apply(clock, retention, After(clock, retention, log[..m]), log[m])
  {
    assert log[..m + 1][..m] == log[..m];
  }

  /** From its acceptance until any moment at which it could be accepted again, the
      nonce of a proof stays on record. */
  lemma {:induction false} StaysOnRecord(clock: Clock, retention: int, log: seq<Entry>, i: nat, m: nat, j: nat,
                                         proof: Proof)
    requires clock.Valid() && 2 * clock.Reach() + clock.lag <= retention
    requires Run(clock, log) && i < m <= j < |log|
    requires AcceptedAt(clock, retention, log, i, proof) && Fresh(clock, log[j].at, proof.signedAt)
    ensures var nonces := After(clock, retention, log[..m]);
            proof.key in nonces && nonces[proof.key] == log[i].at
  {
    if m == i + 1 {
      AfterOneMore(clock, retention, log, i);
    } else {
      StaysOnRecord(clock, retention, log, i, m - 1, j, proof);
      AfterOneMore(clock, retention, log, m - 1);
      FreshWithinReach(clock, log[i].at, proof.signedAt);
      FreshWithinReach(clock, log[j].at, proof.signedAt);
      assert log[m - 1].at - retention <= log[i].at;
    }
  }

  /** A proof used at the early end of its window, swept, and used again at the late end. */
  lemma ReplayThroughTheSweep(clock: Clock, retention: int, key: NonceKey)
    requires clock.Valid() && 2 * clock.Reach() + clock.lag > retention
    ensures !SingleUse(clock, retention)
  {
    var proof := Proof(key, 0);
    var first := Entry(-clock.Reach(), Presented(proof, true));
    var sweep := Entry(clock.Reach() + clock.lag, Swept);
    var again := Entry(clock.Reach(), Presented(proof, true));
    var log := [first, sweep, again];
    FreshWithinReach(clock, first.at, 0);
    FreshWithinReach(clock, again.at, 0);
    assert log[..0] == [] && After(clock, retention, log[..0]) == map[];
    AfterOneMore(clock, retention, log, 0);
    AfterOneMore(clock, retention, log, 1);
    assert After(clock, retention, log[..1]) == map[key := first.at];
    assert key !in After(clock, retention, log[..2]);
    assert AcceptedTwice(clock, retention, log, 0, 2, proof);
  }

  /** The shortest retention that makes proofs single-use, for every clock. */
  lemma SingleUseExactlyWhenRetainedLongEnough(clock: Clock, retention: int, anyone: NonceKey)
    requires clock.Valid()
    ensures SingleUse(clock, retention) <==> 2 * clock.Reach() + clock.lag <= retention
  {
    if 2 * clock.Reach() + clock.lag <= retention {
      forall log, i, j, proof ensures !AcceptedTwice(clock, retention, log, i, j, proof) {
        if AcceptedTwice(clock, retention, log, i, j, proof) {
          StaysOnRecord(clock, retention, log, i, j, j, proof);
          assert false;
        }
      }
    } else {
      ReplayThroughTheSweep(clock, retention, anyone);
    }
  }

  /** The operator retains nonces for twice the skew, in whole seconds. That is enough
      exactly when stamps are whole seconds and taken in the order they are used. */
  lemma TwiceTheSkew(clock: Clock, anyone: NonceKey)
    requires clock.Valid()
    ensures SingleUse(clock, 2 * clock.skew * clock.resolution) <==> clock.resolution == 1 && clock.lag == 0
  {
    SingleUseExactlyWhenRetainedLongEnough(clock, 2 * clock.skew * clock.resolution, anyone);
    assert 2 * clock.skew * clock.resolution == 2 * (clock.skew * clock.resolution);
  }
}
