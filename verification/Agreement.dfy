/** What the request path and the sweep's expiry path owe each other (lapse.rs). */
module Agreement {
  import opened Types
  import opened Tables
  import opened Lapse

  /** For a holder with a horizon who is not entitled, the live snapshots with a
      readable window split in two: those listed as due, and those grace is granted for. */
  lemma RequestAndSweepAgree(db: Tables, holder: Holder, revoked: set<EntitlementId>, now: Instant)
    requires !Evaluate(db, holder, revoked, now).Entitled? && LifecycleHorizon(db, holder, revoked).Some?
    ensures var rows := LiveRows(db.snapshots, holder);
            var protected := Protected(db.terms, rows, LifecycleHorizon(db, holder, revoked).value);
            var due := PostGraceDue(db, holder, revoked, now).Keys;
            && due <= protected
            && Evaluate(db, holder, revoked, now) ==
                 if protected == due then Lapsed else Grace(Promised(db.terms, rows, protected - due))
  {
    var lapsedAt := LifecycleHorizon(db, holder, revoked).value;
    var rows := LiveRows(db.snapshots, holder);
    var due := PostGraceDue(db, holder, revoked, now).Keys;
    var protected, kept := Protected(db.terms, rows, lapsedAt), InGrace(db.terms, rows, lapsedAt, now);
    if now < lapsedAt {
      assert due == {};
      forall d | d in protected ensures d in kept {}
    } else {
      assert due == DueFrom(db.terms, rows, lapsedAt, now).Keys;
    }
    forall d ensures d in due ==> d in protected && d !in kept {}
    forall d ensures d in protected && d !in due ==> d in kept {}
    assert kept == protected - due;
    assert Evaluate(db, holder, revoked, now) == GraceFrom(db.terms, rows, lapsedAt, now);
    assert kept == {} <==> protected == due;
  }

  /** A holder a stored record entitles has nothing due, whatever their terms say. */
  lemma EntitledHasNothingDue(db: Tables, holder: Holder, revoked: set<EntitlementId>, now: Instant)
    requires Evaluate(db, holder, revoked, now).Entitled?
    ensures PostGraceDue(db, holder, revoked, now) == map[]
  {
    var access := MaxOf(Expiries(db.entitlements, holder, revoked)).value;
    assert access in Expiries(db.entitlements, holder, {});
  }

  /** Revocation moves access and never the horizon: what is due does not depend on it,
      and a request refused under fewer revocations is refused under more. */
  lemma RevocationOnlyRefuses(db: Tables, charges: bool, holder: Holder, operation: Operation,
                              fewer: set<EntitlementId>, more: set<EntitlementId>, now: Instant)
    requires fewer <= more
    ensures LifecycleHorizon(db, holder, fewer) == LifecycleHorizon(db, holder, more)
    ensures PostGraceDue(db, holder, fewer, now) == PostGraceDue(db, holder, more, now)
    ensures Require(db, charges, holder, operation, more, now) ==> Require(db, charges, holder, operation, fewer, now)
  {
    var some, all := Expiries(db.entitlements, holder, more), Expiries(db.entitlements, holder, fewer);
    assert some <= all <= Expiries(db.entitlements, holder, {});
    if Evaluate(db, holder, more, now).Entitled? {
      assert MaxOf(some).value in all;
    }
  }

  /** Step (0) lists what is due and marks it in a later lock section without asking
      again, so a renewal that lands in between is expired all the same: after it the
      holder is entitled, nothing is due, and the mark still takes the snapshot. */
  lemma RenewalBetweenListAndMark(db: Tables, holder: Holder, digest: Digest, revoked: set<EntitlementId>,
                                  id: EntitlementId, expiresAt: Instant, now: Instant)
    requires digest in PostGraceDue(db, holder, revoked, now)
    requires now < expiresAt && id !in revoked
    ensures var renewed := RegisterEntitlement(db, holder, id, expiresAt);
            && Evaluate(renewed, holder, revoked, now) == Entitled
            && PostGraceDue(renewed, holder, revoked, now) == map[]
            && LiveAt(renewed.snapshots, Key(holder, digest))
            && !LiveAt(MarkUnavailable(renewed.snapshots, Key(holder, digest), now), Key(holder, digest))
  {
    var renewed := RegisterEntitlement(db, holder, id, expiresAt);
    assert renewed.entitlements[id].expiresAt in Expiries(renewed.entitlements, holder, revoked);
    assert renewed.entitlements[id].expiresAt in Expiries(renewed.entitlements, holder, {});
    EntitledHasNothingDue(renewed, holder, revoked, now);
  }
}
