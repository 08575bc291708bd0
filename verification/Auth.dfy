/** Authentication as every route runs it (auth.rs): the headers, the signature over the
    request actually received, the freshness of its timestamp, then the nonce. */
module Auth {
  import opened Types
  import opened Tables
  import opened Buffers
  import opened Stores
  import Nonces
  import Signing

  /** Foreign code: the digest, the signature check, the holder a key reference names, and
      the reading of a timestamp. */
  datatype Crypto = Crypto(
    sha: Bytes -> Bytes,
    verifies: (Bytes, Bytes, Bytes) -> bool,
    holderOf: Bytes -> Option<Holder>,
    instantOf: Bytes -> Option<Instant>)

  datatype Headers = Headers(holder: Option<Bytes>, timestamp: Option<Bytes>, nonce: Option<Bytes>,
                             signature: Option<Bytes>)
  {
    predicate Complete() { holder.Some? && timestamp.Some? && nonce.Some? && signature.Some? }
  }

  datatype Call = Call(verb: Bytes, path: Bytes, body: Bytes, headers: Headers)

  /** What a holder signs for this call. */
  function SignedPart(call: Call): Signing.Signed
    requires call.headers.Complete()
  {
    var h := call.headers;
    Signing.Signed(call.verb, call.path, h.holder.value, h.timestamp.value, h.nonce.value, call.body)
  }

  /** The proof a call carries, if its headers are there and its signature verifies. */
  ghost function ProofOf(crypto: Crypto, call: Call): Option<Nonces.Proof> {
    if !call.headers.Complete() then None
    else
      var h := call.headers;
      match (crypto.instantOf(h.timestamp.value), crypto.holderOf(h.holder.value))
      case (Some(signedAt), Some(holder)) =>
        if crypto.verifies(h.holder.value, Signing.SigningBytes(crypto.sha, SignedPart(call)), h.signature.value)
        then Some(Nonces.Proof(NonceKey(holder, h.nonce.value), signedAt)) else None
      case _ => None
  }

  /** The holder a call authenticates as, and the nonces once it has been looked at. */
  ghost function Admitted(db: Tables, clock: Nonces.Clock, crypto: Crypto, call: Call, now: Instant): Option<Holder>
    requires clock.Valid()
  {
    match ProofOf(crypto, call)
    case None => None
    case Some(proof) =>
      if Nonces.Admits(clock, db.nonces, Nonces.Entry(now, Nonces.Presented(proof, true)), proof) then
        Some(proof.key.holder) else None
  }

  ghost function Spent(db: Tables, clock: Nonces.Clock, crypto: Crypto, call: Call, now: Instant): Tables
    requires clock.Valid()
  {
    match ProofOf(crypto, call)
    case None => db
    case Some(proof) =>
      db.(nonces := Nonces.Apply(clock, 0, db.nonces, Nonces.Entry(now, Nonces.Presented(proof, true))))
  }

  // ---- In terms of the request itself ---------------------------------------------------------

  /** The call is signed by the holder it names: the signature it carries verifies, under the key
      it names, over the seven fields of this very request, its body's digest among them. */
  ghost predicate SignedBy(crypto: Crypto, call: Call, who: Holder) {
    var h := call.headers;
    && h.holder.Some? && h.timestamp.Some? && h.nonce.Some? && h.signature.Some?
    && crypto.holderOf(h.holder.value) == Some(who)
    && crypto.verifies(h.holder.value,
                       Signing.Framed([AsBytes("onym-backup-v1"), Signing.Upper(call.verb), call.path,
                                       h.holder.value, h.timestamp.value, h.nonce.value, crypto.sha(call.body)]),
                       h.signature.value)
  }

  /** Its timestamp is less than a second more than the skew away from now, on either side. */
  ghost predicate SignedNow(clock: Nonces.Clock, crypto: Crypto, call: Call, now: Instant) {
    && call.headers.timestamp.Some? && crypto.instantOf(call.headers.timestamp.value).Some?
    && var signedAt := crypto.instantOf(call.headers.timestamp.value).value;
       -(clock.skew + 1) * clock.resolution < now - signedAt < (clock.skew + 1) * clock.resolution
  }

  /** A call is let through as exactly the holder that signed it, in time and under a nonce that
      is not on record; and a nonce goes on record, as of now, for exactly such calls. */
  ghost predicate LetsIn(before: Tables, after: Tables, clock: Nonces.Clock, crypto: Crypto, call: Call, now: Instant,
                         holder: Option<Holder>)
  {
    && (forall who :: holder == Some(who) <==>
          SignedBy(crypto, call, who) && SignedNow(clock, crypto, call, now)
          && NonceKey(who, call.headers.nonce.value) !in before.nonces)
    && after == if holder.None? then before
       else before.(nonces := before.nonces[NonceKey(holder.value, call.headers.nonce.value) := now])
  }

  lemma AdmittedIsSigned(db: Tables, clock: Nonces.Clock, crypto: Crypto, call: Call, now: Instant)
    requires clock.Valid()
    ensures LetsIn(db, Spent(db, clock, crypto, call, now), clock, crypto, call, now,
                   Admitted(db, clock, crypto, call, now))
  {
    var proof := ProofOf(crypto, call);
    forall who ensures proof.Some? && proof.value.key.holder == who <==>
                       SignedBy(crypto, call, who) && crypto.instantOf(call.headers.timestamp.value).Some?
    {
      if call.headers.Complete() {
        Signing.FieldsInFull(crypto.sha, SignedPart(call));
      }
    }
    if proof.Some? {
      Nonces.FreshWithinReach(clock, now, proof.value.signedAt);
      WithinReach(clock, now - proof.value.signedAt);
    }
  }

  lemma WithinReach(clock: Nonces.Clock, apart: int)
    ensures -clock.Reach() <= apart <= clock.Reach() <==>
            -(clock.skew + 1) * clock.resolution < apart < (clock.skew + 1) * clock.resolution
  {
    assert (clock.skew + 1) * clock.resolution == clock.skew * clock.resolution + clock.resolution;
    assert -(clock.skew + 1) * clock.resolution == -((clock.skew + 1) * clock.resolution);
  }

  /** A request that does not verify or is not fresh costs nothing; one that is spends its
      nonce, and is let through only if the nonce was unspent. */
  method Authenticate(store: Store, clock: Nonces.Clock, crypto: Crypto, call: Call, now: Instant)
    returns (holder: Option<Holder>)
    requires clock.Valid()
    modifies store
    ensures LetsIn(old(store.db), store.db, clock, crypto, call, now, holder)
    ensures holder == Admitted(old(store.db), clock, crypto, call, now)
    ensures store.db == Spent(old(store.db), clock, crypto, call, now)
  {
    AdmittedIsSigned(store.db, clock, crypto, call, now);
    var h := call.headers;
    if h.holder.None? || h.timestamp.None? || h.nonce.None? || h.signature.None? {
      return None;
    }
    var signedAt := crypto.instantOf(h.timestamp.value);
    if signedAt.None? || !Nonces.Fresh(clock, now, signedAt.value) {
      return None;
    }
    var who := crypto.holderOf(h.holder.value);
    if who.None? {
      return None;
    }
    var bytes := Signing.BuildSigningBytes(crypto.sha, SignedPart(call));
    if !crypto.verifies(h.holder.value, bytes, h.signature.value) {
      return None;
    }
    var isNew := store.RecordNonce(NonceKey(who.value, h.nonce.value), now);
    return if isNew then who else None;
  }

  /** The signed bytes fix the proof: whoever presents them again, whatever else about the
      request differs, presents the same holder, nonce and timestamp. So retention that makes
      proofs single-use makes signatures single-use. */
  lemma SignedBytesFixTheProof(crypto: Crypto, a: Call, b: Call)
    requires ProofOf(crypto, a).Some? && ProofOf(crypto, b).Some?
    requires Signing.Framable(Signing.Fields(crypto.sha, SignedPart(a))) &&
             Signing.Framable(Signing.Fields(crypto.sha, SignedPart(b)))
    requires Signing.SigningBytes(crypto.sha, SignedPart(a)) == Signing.SigningBytes(crypto.sha, SignedPart(b))
    ensures ProofOf(crypto, a) == ProofOf(crypto, b)
    ensures a.path == b.path && Signing.Upper(a.verb) == Signing.Upper(b.verb) &&
            crypto.sha(a.body) == crypto.sha(b.body)
  {
    Signing.PayloadIsInjective(crypto.sha, SignedPart(a), SignedPart(b));
  }
}
