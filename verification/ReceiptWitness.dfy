/** A history from a new operator in which an outcome outlives the receipts it names. */
module ReceiptWitness {
  import opened Types
  import opened Tables
  import opened Receipts
  import opened ReceiptRuns

  lemma Then(terms: map<TermsId, TermsDocument>, log: seq<Event>, event: Event)
    requires Run(terms, log) && May(After(terms, log), event)
    ensures Run(terms, log + [event]) && After(terms, log + [event]) == Apply(After(terms, log), event)
  {
    assert (log + [event])[..|log|] == log;
  }

  /** For any snapshot and terms under which an erasure composes: it is kept, erased, the
      erasure is retried, and a sweep's floor falls between the erasure and the retry. */
  lemma AnOutcomeOutlivesItsReceipts(terms: map<TermsId, TermsDocument>, grant: Grant, operation: OperationId,
                                     again: OperationId, id: ReceiptId, kept: Instant, erased: Instant,
                                     retried: Instant, floor: Instant)
    returns (log: seq<Event>)
    requires grant.termsId in terms && Compose(terms[grant.termsId], erased).Some? && erased < floor <= retried
    ensures Run(terms, log)
    ensures var db, key := After(terms, log).db, OutcomeKey(grant.holder, again);
            key in db.outcomes && id in db.outcomes[key].receiptIds && id !in db.receipts
  {
    var h, scope := grant.holder, One(grant.digest);
    var keep := Event.Retained(grant, kept);
    var erase := Erased(h, scope, operation, [MintOf(terms, grant, id, erased)], erased);
    var retry, sweep := Event.Replayed(h, scope, again, retried), ReceiptsSwept(floor, floor);
    Then(terms, [], keep);
    OneTarget(terms, grant, kept, id, erased);
    Then(terms, [] + [keep], erase);
    var s := After(terms, [] + [keep] + [erase]);
    OneReceipt(terms, grant, kept, operation, id, erased);
    Then(terms, [] + [keep] + [erase], retry);
    Then(terms, [] + [keep] + [erase] + [retry], sweep);
    log := [] + [keep] + [erase] + [retry] + [sweep];
    ReplayOutcomeOutlivesItsReceipts(s, h, scope, again, retried, floor, floor, id);
  }

  /** The one receipt an erasure of this snapshot mints. */
  function MintOf(terms: map<TermsId, TermsDocument>, grant: Grant, id: ReceiptId, at: Instant): Mint
    requires grant.termsId in terms && Compose(terms[grant.termsId], at).Some?
  {
    Mint(id, grant.termsId, {grant.digest}, Compose(terms[grant.termsId], at).value)
  }

  function KeptRow(grant: Grant, kept: Instant): Row {
    Row(grant.size, grant.chunkCount, grant.termsId, grant.supersedes, kept, None, None)
  }

  lemma OneTarget(terms: map<TermsId, TermsDocument>, grant: Grant, kept: Instant, id: ReceiptId, at: Instant)
    requires grant.termsId in terms && Compose(terms[grant.termsId], at).Some?
    ensures var rows := TargetRows(Retain(map[], grant, kept), grant.holder, One(grant.digest));
            && rows == map[grant.digest := KeptRow(grant, kept)]
            && MintedFor([MintOf(terms, grant, id, at)], terms, rows, at)
  {
    var rows := TargetRows(Retain(map[], grant, kept), grant.holder, One(grant.digest));
    assert rows == map[grant.digest := KeptRow(grant, kept)];
    var minted := [MintOf(terms, grant, id, at)];
    assert minted[0].termsId == rows[grant.digest].termsId;
    assert Under(rows, grant.termsId) == {grant.digest};
  }

  /** What a new operator holds once that snapshot is erased, and what a retry finds. */
  lemma OneReceipt(terms: map<TermsId, TermsDocument>, grant: Grant, kept: Instant, operation: OperationId,
                   id: ReceiptId, at: Instant)
    requires grant.termsId in terms && Compose(terms[grant.termsId], at).Some?
    ensures var s := Apply(Apply(Opened(terms), Event.Retained(grant, kept)),
                           Erased(grant.holder, One(grant.digest), operation, [MintOf(terms, grant, id, at)], at));
            && s.db.receipts == map[id := Receipt(grant.holder, One(grant.digest), grant.termsId, at)]
            && Replays(s.db, grant.holder, One(grant.digest))
            && id in Latest(s.db, grant.holder, One(grant.digest),
                            ErasedDigests(s.db.snapshots, grant.holder, One(grant.digest)))
  {
    var s := Apply(Apply(Opened(terms), Event.Retained(grant, kept)),
                   Erased(grant.holder, One(grant.digest), operation, [MintOf(terms, grant, id, at)], at));
    ErasedOnce(terms, grant, kept, operation, id, at);
    FoundAgain(s.db, grant, KeptRow(grant, kept).(erasedAt := Some(at)), id, at);
  }

  lemma ErasedOnce(terms: map<TermsId, TermsDocument>, grant: Grant, kept: Instant, operation: OperationId,
                   id: ReceiptId, at: Instant)
    requires grant.termsId in terms && Compose(terms[grant.termsId], at).Some?
    ensures var s := Apply(Apply(Opened(terms), Event.Retained(grant, kept)),
                           Erased(grant.holder, One(grant.digest), operation, [MintOf(terms, grant, id, at)], at));
            && s.db.snapshots == map[grant.Target() := KeptRow(grant, kept).(erasedAt := Some(at))]
            && s.db.receipts == map[id := Receipt(grant.holder, One(grant.digest), grant.termsId, at)]
  {
    OneTarget(terms, grant, kept, id, at);
    OnlyReceipt(grant, MintOf(terms, grant, id, at), at);
  }

  lemma OnlyReceipt(grant: Grant, mint: Mint, at: Instant)
    ensures NewReceipts(grant.holder, One(grant.digest), [mint], at) ==
            map[mint.id := Receipt(grant.holder, One(grant.digest), mint.termsId, at)]
  {
    assert [mint][..0] == [] && NewReceipts(grant.holder, One(grant.digest), [], at) == map[];
  }

  /** A retry of the only erasure there has been finds its receipt. */
  lemma FoundAgain(db: Tables, grant: Grant, row: Row, id: ReceiptId, at: Instant)
    requires db.snapshots == map[grant.Target() := row] && row.erasedAt.Some?
    requires db.receipts == map[id := Receipt(grant.holder, One(grant.digest), grant.termsId, at)]
    ensures Replays(db, grant.holder, One(grant.digest))
    ensures id in Latest(db, grant.holder, One(grant.digest),
                         ErasedDigests(db.snapshots, grant.holder, One(grant.digest)))
  {
    assert TargetRows(db.snapshots, grant.holder, One(grant.digest)) == map[];
    assert id in Latest(db, grant.holder, One(grant.digest),
                        ErasedDigests(db.snapshots, grant.holder, One(grant.digest)));
  }
}
