/** Names shared by every part of the model.

    Handles and most ids are opaque strings in the operator and opaque types here;
    digests, terms ids and receipt ids are naturals, because the operator sorts
    by them. Instants and durations are whole seconds unless a module says otherwise.
  */
module Types {
  datatype Option<+T> = None | Some(value: T)

  type Holder(==, !new)
  type UploadId(==, !new)
  type EntitlementId(==, !new)
  type OperationId = string
  type Digest = nat
  type TermsId = nat
  type ReceiptId = nat
  type Instant = int

  type Byte = b: int | 0 <= b < 256

  const I64_MAX: int := 0x7FFF_FFFF_FFFF_FFFF

  /** A snapshot is the pair (holder, digest): storage is partitioned by holder. */
  datatype Key = Key(holder: Holder, digest: Digest)

  /** Where this is mentioned, a predicate that is kept folded may be unfolded. */
  predicate Unfolded(n: nat) { true }

  ghost function Pick<X>(s: set<X>): (x: X)
    requires s != {}
    ensures x in s
  {
    var x :| x in s;
    x
  }

  ghost predicate IsMax(s: set<Instant>, m: Instant) {
    m in s && forall x :: x in s ==> x <= m
  }

  /** The largest element of a finite set of instants. */
  ghost function MaxOf(s: set<Instant>): (r: Option<Instant>)
    ensures r.None? <==> s == {}
    ensures r.Some? ==> IsMax(s, r.value)
  {
    if s == {} then None
    else
      var m := Pick(s);
      var rest := s - {m};
      assert forall x :: x in s ==> x == m || x in rest;
      match MaxOf(rest)
      case None => Some(m)
      case Some(n) => Some(if n < m then m else n)
  }
}
