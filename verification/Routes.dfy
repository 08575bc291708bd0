/** Three routes from the first header to the answer: authentication, gate, request, work. */
module Routes {
  import opened Types
  import opened Tables
  import opened Stores
  import opened Blobs
  import Auth
  import Erasures
  import Lapse
  import Nonces
  import Preflight
  import Receipts
  import Uploads

  /** Everything a route can be refused with before it does its own work. */
  datatype Answer<+A> = SignatureInvalid | PaymentRequired | InvalidEntitlement | BadRequest | Answered(answer: A)

  /** The request as it arrives: when, signed how, and paid how. */
  datatype Arrival = Arrival(clock: Nonces.Clock, crypto: Auth.Crypto, call: Auth.Call, payment: Uploads.Payment,
                             now: Instant)
  {
    ghost predicate Valid() { clock.Valid() }

    ghost function Caller(db: Tables): Option<Holder>
      requires Valid()
    {
      Auth.Admitted(db, clock, crypto, call, now)
    }

    /** The tables once the request is authenticated, and once the gate has seen it. */
    ghost function Spent(db: Tables): Tables
      requires Valid()
    {
      Auth.Spent(db, clock, crypto, call, now)
    }

    ghost function Gated(db: Tables, caller: Holder, operation: Lapse.Operation): Tables
      requires Valid()
    {
      payment.Registered(Spent(db), caller, operation)
    }

    ghost function Verdict(db: Tables, caller: Holder, operation: Lapse.Operation): Lapse.Verdict
      requires Valid()
    {
      payment.Verdict(Spent(db), caller, operation, now)
    }
  }

  function Refusal<A>(verdict: Lapse.Verdict): Answer<A>
    requires !verdict.Lets?
  {
    if verdict.PaymentRequired? then PaymentRequired else InvalidEntitlement
  }

  /** Authentication and the gate, in the order every gated route has them. */
  method Enter(store: Store, a: Arrival, operation: Lapse.Operation)
    returns (caller: Option<Holder>, verdict: Lapse.Verdict)
    requires a.Valid()
    modifies store
    ensures caller == a.Caller(old(store.db))
    ensures caller.None? ==> store.db == a.Spent(old(store.db))
    ensures caller.Some? ==> verdict == a.Verdict(old(store.db), caller.value, operation)
                             && store.db == a.Gated(old(store.db), caller.value, operation)
  {
    verdict := Lapse.Lets;
    caller := Auth.Authenticate(store, a.clock, a.crypto, a.call, a.now);
    if caller.Some? {
      verdict := Uploads.AskGate(store, a.payment, caller.value, operation, a.now);
    }
  }

  // ---- POST /v1/erasures --------------------------------------------------------------------

  /** The body, if it parses; the scope, if it is `all` or a well-formed digest. */
  datatype EraseBody = EraseBody(operation: OperationId, scope: Option<Scope>)

  method EraseRoute(store: Store, blobs: Blobs, a: Arrival, body: Option<EraseBody>, nextId: nat -> ReceiptId)
    returns (answer: Answer<Erasures.Answer>)
    requires a.Valid() && forall i, j :: i != j ==> nextId(i) != nextId(j)
    modifies store, blobs
    ensures match a.Caller(old(store.db))
            case None => answer == SignatureInvalid && store.db == a.Spent(old(store.db)) &&
              blobs.disk == old(blobs.disk)
            case Some(caller) =>
              var gated := a.Gated(old(store.db), caller, Lapse.Erase);
              match a.Verdict(old(store.db), caller, Lapse.Erase)
              case PaymentRequired => answer == PaymentRequired && store.db == gated && blobs.disk == old(blobs.disk)
              case InvalidEntitlement =>
                answer == InvalidEntitlement && store.db == gated && blobs.disk == old(blobs.disk)
              case Lets =>
                if body.None? || Receipts.Blank(body.value.operation) || body.value.scope.None? then
                  answer == BadRequest && store.db == gated && blobs.disk == old(blobs.disk)
                else
                  answer.Answered? &&
                  Erasures.Decides(gated, store.db, caller, body.value.scope.value, body.value.operation, a.now,
                                   nextId, answer.answer) &&
                  Erasures.Unlinks(gated.snapshots, old(blobs.disk), blobs.disk, caller, body.value.scope.value,
                                   answer.answer)
  {
    var caller, verdict := Enter(store, a, Lapse.Erase);
    if caller.None? {
      return SignatureInvalid;
    }
    if !verdict.Lets? {
      return Refusal(verdict);
    }
    if body.None? || Receipts.Blank(body.value.operation) || body.value.scope.None? {
      return BadRequest;
    }
    var decided := Erasures.Erase(store, blobs, caller.value, body.value.scope.value, body.value.operation, a.now,
                                  nextId);
    return Answered(decided);
  }

  // ---- GET /v1/snapshots/<digest> ---------------------------------------------------------------

  method DownloadRoute(store: Store, blobs: Blobs, a: Arrival, digest: Option<Digest>)
    returns (answer: Answer<Uploads.DownloadAnswer>)
    requires a.Valid()
    modifies store
    ensures match a.Caller(old(store.db))
            case None => answer == SignatureInvalid && store.db == a.Spent(old(store.db))
            case Some(caller) =>
              var gated := a.Gated(old(store.db), caller, Lapse.Download);
              match a.Verdict(old(store.db), caller, Lapse.Download)
              case PaymentRequired => answer == PaymentRequired && store.db == gated
              case InvalidEntitlement => answer == InvalidEntitlement && store.db == gated
              case Lets =>
                if digest.None? then answer == BadRequest && store.db == gated
                else
                  answer.Answered? &&
                  Uploads.DownloadEffect(gated, blobs.disk, store.db, caller, digest.value, a.now, answer.answer)
  {
    var caller, verdict := Enter(store, a, Lapse.Download);
    if caller.None? {
      return SignatureInvalid;
    }
    if !verdict.Lets? {
      return Refusal(verdict);
    }
    if digest.None? {
      return BadRequest;
    }
    var served := Uploads.Download(store, blobs, caller.value, digest.value, a.now);
    return Answered(served);
  }

  // ---- POST /v1/preflight -----------------------------------------------------------------------

  /** The body, if it parses and its digests are well formed; the holder is the caller. */
  datatype PreflightBody = PreflightBody(operation: OperationId, digest: Digest, size: int, acceptedTerms: TermsId,
                                         supersedes: Option<Digest>)

  /** The gate comes late here: a grant that is open is resumed before it. */
  method PreflightRoute(store: Store, blobs: Blobs, a: Arrival, limits: Preflight.Limits, currentTerms: TermsId,
                        body: Option<PreflightBody>, uploadId: UploadId)
    returns (answer: Answer<Preflight.Answer>, missing: seq<(nat, nat)>, ghost open: Option<UploadId>)
    requires a.Valid() && 0 < limits.chunkBytes && uploadId !in store.db.uploads && uploadId !in blobs.disk.incoming
    modifies store, blobs
    ensures match a.Caller(old(store.db))
            case None => answer == SignatureInvalid && store.db == a.Spent(old(store.db)) &&
              blobs.disk == old(blobs.disk)
            case Some(caller) =>
              if body.None? then answer == BadRequest && store.db == a.Spent(old(store.db)) &&
                blobs.disk == old(blobs.disk)
              else
                var request := Preflight.Request(Key(caller, body.value.digest), body.value.operation, body.value.size,
                                                 body.value.acceptedTerms, body.value.supersedes);
                && answer.Answered?
                && Uploads.PreflightEffect(a.Spent(old(store.db)), old(blobs.disk), store.db, blobs.disk, limits,
                                           currentTerms, a.payment, request, uploadId, a.now, open, answer.answer,
                                           missing)
  {
    missing, open := [], None;
    var caller := Auth.Authenticate(store, a.clock, a.crypto, a.call, a.now);
    if caller.None? {
      return SignatureInvalid, [], None;
    }
    if body.None? {
      return BadRequest, [], None;
    }
    var request := Preflight.Request(Key(caller.value, body.value.digest), body.value.operation, body.value.size,
                                     body.value.acceptedTerms, body.value.supersedes);
    var decided;
    decided, missing, open := Uploads.RunPreflight(store, blobs, limits, currentTerms, a.payment, request, uploadId,
                                                   a.now);
    return Answered(decided), missing, open;
  }
}
