/** Whole runs of authenticated calls and nonce sweeps: when a signature is good only once. */
module AuthRuns {
  import opened Types
  import opened Tables
  import opened Auth
  import Nonces
  import Signing

  datatype Event = Called(call: Call) | Swept

  datatype Entry = Entry(at: Instant, event: Event)

  /** What the operator is run with. */
  datatype Operator = Operator(clock: Nonces.Clock, crypto: Crypto, retention: int)

  ghost function Apply(o: Operator, db: Tables, entry: Entry): Tables
    requires o.clock.Valid()
  {
    match entry.event
    case Called(call) => Spent(db, o.clock, o.crypto, call, entry.at)
    case Swept => db.(nonces := Nonces.SweepNonces(db.nonces, entry.at - o.retention))
  }

  ghost function After(o: Operator, db: Tables, log: seq<Entry>): Tables
    requires o.clock.Valid()
    decreases |log|
  {
    if log == [] then db else Apply(o, After(o, db, log[..|log| - 1]), log[|log| - 1])
  }

  /** Stamps are read before the lock, as in `Nonces`. */
  ghost predicate Run(o: Operator, log: seq<Entry>) {
    forall i, j :: 0 <= i < j < |log| ==> log[i].at <= log[j].at + o.clock.lag
  }

  ghost predicate AdmittedAt(o: Operator, db: Tables, log: seq<Entry>, i: nat, call: Call)
    requires o.clock.Valid()
  {
    && i < |log| && log[i].event == Called(call)
    && Admitted(After(o, db, log[..i]), o.clock, o.crypto, call, log[i].at).Some?
  }

  /** Two calls that carry the same signed bytes, whatever else differs. */
  ghost predicate SameSignedBytes(o: Operator, a: Call, b: Call) {
    && a.headers.Complete() && b.headers.Complete()
    && Signing.Framable(Signing.Fields(o.crypto.sha, SignedPart(a)))
    && Signing.Framable(Signing.Fields(o.crypto.sha, SignedPart(b)))
    && Signing.SigningBytes(o.crypto.sha, SignedPart(a)) == Signing.SigningBytes(o.crypto.sha, SignedPart(b))
  }

  ghost predicate AdmittedTwice(o: Operator, db: Tables, log: seq<Entry>, i: nat, j: nat, a: Call, b: Call)
    requires o.clock.Valid()
  {
    Run(o, log) && i < j && AdmittedAt(o, db, log, i, a) && AdmittedAt(o, db, log, j, b) && SameSignedBytes(o, a, b)
  }

  /** No run, from tables without nonces, ever admits the same signed bytes twice. */
  ghost predicate SignaturesAreSingleUse(o: Operator)
    requires o.clock.Valid()
  {
    forall db: Tables, log, i, j, a, b :: db.nonces == map[] ==> !AdmittedTwice(o, db, log, i, j, a, b)
  }

  // ---- The same run, as proofs ---------------------------------------------------------------

  /** A call without a proof counts as one that does not verify, about anyone. */
  ghost function AsProof(o: Operator, entry: Entry, anyone: NonceKey): Nonces.Entry {
    match entry.event
    case Swept => Nonces.Entry(entry.at, Nonces.Swept)
    case Called(call) =>
      match ProofOf(o.crypto, call)
      case Some(proof) => Nonces.Entry(entry.at, Nonces.Presented(proof, true))
      case None => Nonces.Entry(entry.at, Nonces.Presented(Nonces.Proof(anyone, 0), false))
  }

  ghost function AsProofs(o: Operator, log: seq<Entry>, anyone: NonceKey): (proofs: seq<Nonces.Entry>)
    ensures |proofs| == |log| && forall k :: 0 <= k < |log| ==> proofs[k] == AsProof(o, log[k], anyone)
    decreases |log|
  {
    if log == [] then [] else AsProofs(o, log[..|log| - 1], anyone) + [AsProof(o, log[|log| - 1], anyone)]
  }

  lemma {:induction false} SameNonces(o: Operator, db: Tables, log: seq<Entry>, i: nat, anyone: NonceKey)
    requires o.clock.Valid() && db.nonces == map[] && i <= |log|
    ensures After(o, db, log[..i]).nonces == Nonces.After(o.clock, o.retention, AsProofs(o, log, anyone)[..i])
    decreases i
  {
    if i > 0 {
      SameNonces(o, db, log, i - 1, anyone);
      OneMore(o, db, log, i - 1);
      Nonces.AfterOneMore(o.clock, o.retention, AsProofs(o, log, anyone), i - 1);
      SameStep(o, After(o, db, log[..i - 1]), log[i - 1], anyone);
    }
  }

  lemma OneMore(o: Operator, db: Tables, log: seq<Entry>, m: nat)
    requires o.clock.Valid() && m < |log|
    ensures After(o, db, log[..m + 1]) == Apply(o, After(o, db, log[..m]), log[m])
  {
    assert log[..m + 1][..m] == log[..m];
  }

  lemma SameStep(o: Operator, db: Tables, entry: Entry, anyone: NonceKey)
    requires o.clock.Valid()
    ensures Apply(o, db, entry).nonces == Nonces.Apply(o.clock, o.retention, db.nonces, AsProof(o, entry, anyone))
  {
    match entry.event
    case Swept =>
    case Called(call) =>
      match ProofOf(o.crypto, call)
      case None =>
      case Some(proof) => PresentedAlike(o, db.nonces, entry.at, proof);
  }

  /** A presented proof does to the nonces what it does under any retention. */
  lemma PresentedAlike(o: Operator, nonces: map<NonceKey, Instant>, at: Instant, proof: Nonces.Proof)
    requires o.clock.Valid()
    ensures var entry := Nonces.Entry(at, Nonces.Presented(proof, true));
            Nonces.Apply(o.clock, 0, nonces, entry) == Nonces.Apply(o.clock, o.retention, nonces, entry)
  {
  }

  lemma AdmittedIsAccepted(o: Operator, db: Tables, log: seq<Entry>, i: nat, call: Call, anyone: NonceKey)
    requires o.clock.Valid() && db.nonces == map[] && AdmittedAt(o, db, log, i, call)
    ensures ProofOf(o.crypto, call).Some?
    ensures Nonces.AcceptedAt(o.clock, o.retention, AsProofs(o, log, anyone), i, ProofOf(o.crypto, call).value)
  {
    SameNonces(o, db, log, i, anyone);
  }

  lemma AdmittedOnce(o: Operator, db: Tables, log: seq<Entry>, i: nat, j: nat, a: Call, b: Call)
    requires o.clock.Valid() && 2 * o.clock.Reach() + o.clock.lag <= o.retention && db.nonces == map[]
    ensures !AdmittedTwice(o, db, log, i, j, a, b)
  {
    if AdmittedTwice(o, db, log, i, j, a, b) {
      var proof := ProofOf(o.crypto, a).value;
      AdmittedIsAccepted(o, db, log, i, a, proof.key);
      AdmittedIsAccepted(o, db, log, j, b, proof.key);
      SignedBytesFixTheProof(o.crypto, a, b);
      var proofs := AsProofs(o, log, proof.key);
      assert Nonces.AcceptedTwice(o.clock, o.retention, proofs, i, j, proof);
      Nonces.SingleUseExactlyWhenRetainedLongEnough(o.clock, o.retention, proof.key);
    }
  }

  // ---- A signature used twice ------------------------------------------------------------------

  /** Used at the early end of its window, swept, and used again at the late end. */
  function UsedTwice(o: Operator, call: Call, signedAt: Instant): seq<Entry> {
    [Entry(signedAt - o.clock.Reach(), Called(call)),
     Entry(signedAt + o.clock.Reach() + o.clock.lag, Swept),
     Entry(signedAt + o.clock.Reach(), Called(call))]
  }

  lemma ReplayedThroughTheSweep(o: Operator, db: Tables, call: Call)
    requires o.clock.Valid() && o.retention < 2 * o.clock.Reach() + o.clock.lag && db.nonces == map[]
    requires ProofOf(o.crypto, call).Some? && SameSignedBytes(o, call, call)
    ensures AdmittedTwice(o, db, UsedTwice(o, call, ProofOf(o.crypto, call).value.signedAt), 0, 2, call, call)
  {
    var proof := ProofOf(o.crypto, call).value;
    var log := UsedTwice(o, call, proof.signedAt);
    Nonces.FreshWithinReach(o.clock, log[0].at, proof.signedAt);
    Nonces.FreshWithinReach(o.clock, log[2].at, proof.signedAt);
    assert log[..0] == [] && After(o, db, log[..0]) == db;
    OneMore(o, db, log, 0);
    OneMore(o, db, log, 1);
    assert After(o, db, log[..1]).nonces == map[proof.key := log[0].at];
    assert proof.key !in After(o, db, log[..2]).nonces;
  }

  /** Wherever anyone can sign at all: no signature is ever accepted twice, over every run of
      calls and sweeps, if and only if nonces are retained for twice the window's reach plus
      the clock lag. */
  lemma SignaturesAreSingleUseExactlyWhen(o: Operator, db: Tables, call: Call)
    requires o.clock.Valid() && db.nonces == map[]
    requires ProofOf(o.crypto, call).Some? && SameSignedBytes(o, call, call)
    ensures SignaturesAreSingleUse(o) <==> 2 * o.clock.Reach() + o.clock.lag <= o.retention
  {
    if 2 * o.clock.Reach() + o.clock.lag <= o.retention {
      forall db: Tables, log, i, j, a, b | db.nonces == map[] ensures !AdmittedTwice(o, db, log, i, j, a, b) {
        AdmittedOnce(o, db, log, i, j, a, b);
      }
    } else {
      ReplayedThroughTheSweep(o, db, call);
    }
  }
}
