# Verified model of the backup operator's bookkeeping

The operator keeps sealed snapshots for holders. What it claims about them lives in
SQLite rows; the bytes live in a directory tree; the two move in separate writes, and an
hourly sweep brings them back together. A holder who stops paying is owed the notice and
grace their snapshot's own terms declared. An erasure is answered with signed receipts.
This project models those parts in Dafny and proves what the code's comments argue for.

`dafny verify dfyconfig.toml` checks everything.

| modules | what they model |
|---|---|
| `Types`, `Tables`, `Stores` | names, the tables as maps, the store as an object with one method per statement |
| `Framing`, `Blobs` | chunk framing; `incoming/<upload>` and `<holder>/<digest>` directories |
| `Preflight`, `Uploads`, `Erasures`, `Auth`, `Gate`, `Routes` | the routes and the payment gate, one request at a time |
| `AuthRuns` | whole runs of authenticated calls and nonce sweeps |
| `Lifecycle`, `LifecycleSafety`, `LifecycleSteps`, `LifecycleRuns` | the same routes and the sweep as an interleaved step system with two locks and crashes, its invariant and its safety theorems |
| `LifecycleHazards`, `LifecycleMarks`, `LifecycleRoundTrip`, `LifecycleMoves`, `LifecycleWitness` | when a live snapshot keeps its bytes, when a mark tells the truth, what a download serves, and whole runs from an empty operator in which these fail |
| `CommitRefinement`, `RouteRefinement`, `SweepRefinement` | each route as one request does it, and one uninterrupted sweep, refined by runs of single steps |
| `Lapse`, `Owed`, `Agreement`, `Handover` | lapse horizons, notice and grace, what a holder is owed read straight off tables and terms, the hand-over from entitlement record to derived row |
| `LapseRuns`, `LapseMarks`, `LapseAdoptions`, `LapseStranding` | whole runs of these, crashes inside a registration and gaps inside a sweep included: when a horizon moves back, when an expiry is early, when an adoption is out of date, and runs in which each happens |
| `Sweeps`, `SweepTables`, `SweepSteps`, `SweepLapse`, `SweepResults`, `SweepWitness` | `reconcile` as a function, what it leaves table by table, the loops the operator runs, and what one complete pass guarantees |
| `Receipts`, `ReceiptRuns`, `ReceiptSweeps`, `ReceiptWitness` | composing and partitioning receipts, replay, histories of erase, re-upload, replay and sweep, and retries after a sweep |
| `Nonces` | freshness window, nonce table and its retention |
| `Durations`, `Signing`, `Buffers`, `Canonical`, `CanonicalForm`, `Documents` | the encoders: declared durations, the signed request payload, canonical JSON, folding a signature in |

Conventions. Instants and durations are whole seconds, except in `Nonces`, which counts
clock ticks because its result turns on them. SHA-256 is an arbitrary function passed as a
parameter, as are Ed25519 signatures and digests of documents. Handles, upload ids,
operation ids and entitlement ids are opaque; digests, terms ids and receipt ids are
numbers because the operator orders by them. Rust strings that reach an encoder are their
UTF-8 bytes. A charging operator, the revoked set, the clock and new ids are parameters.

Where the code and what is said about it part ways, the model follows the code:

* A comment and the profile's own wording (operator/src/store.rs:1270-1275) have erasure
  outcomes neither predecease nor outlive the receipts they name. The replay branch
  stamps its outcome later than the receipts; `ReceiptRuns.ReplayOutcomeOutlivesItsReceipts`
  gives the exact sweep floors under which it does outlive them, and
  `ReceiptWitness.AnOutcomeOutlivesItsReceipts` a history that gets there.
* Twice the skew (operator/src/main.rs:239-249) is the retention of a nonce. Freshness
  truncates to whole seconds, so a proof is live for almost two seconds longer.
  `Nonces.TwiceTheSkew`: enough exactly when stamps are whole seconds and in order.
* A number left open before `T` in a duration runs into the next one:
  `Durations.DigitsRunAcrossT`.
* If an erase request is dropped while its unlink runs on the blocking pool, its lock goes
  with it and a revival can lose its bytes: `LifecycleWitness.DetachedUnlinkLosesARevival`.
  `LifecycleHazards.CommitKeepsBytesExactlyWhen` gives the exact guard: a commit's row keeps
  its bytes if and only if no unlink of that snapshot is pending as they are placed. That
  the runtime can drop a request there is an assumption about the web framework.
* A download marks a row without the blob lock, after reading and probing in sections of
  their own: `LifecycleWitness.SlowDownloadUnlistsARevival`. The mark is wrong if and only if
  the row came back to life since the download read it:
  `LifecycleMarks.MarkIsWrongExactlyWhenRevived`.
* The sweep inspects a directory with the framing it listed, which a revival may have
  changed: `LifecycleWitness.StaleListingUnlistsARevival` and, exactly,
  `LifecycleMarks.InspectionIsWrongExactlyWhenReframed`.
* Step (0) of the sweep lists and marks in two lock sections: `LapseMarks.AnEarlyMark`, and
  exactly, `LapseMarks.MarkIsEarlyExactlyWhen`. Step (3c) likewise lists and adopts:
  `LapseAdoptions.AdoptionAgreesExactlyWhenUnrenewed`.
* A registration is two statements without a transaction (operator/src/store.rs:593-615), so a
  crash can leave an older derived row beside a record, and a late adoption can write one. Step
  (3b) deletes the record and keeps that row when nothing is left to derive from
  (operator/src/sweep.rs:294-317). The horizon then falls back:
  `LapseStranding.CrashInRegistrationStrands`, `LapseStranding.LateAdoptionStrands`. It does so if
  and only if (3b) meets such a row with nothing protected, which it could ask before it deletes:
  `Handover.HandOverMovesBackExactlyWhen` and, over runs,
  `LapseRuns.HorizonNeverMovesBackExactlyWhen`.
* The erasure's deadline reader takes a plus sign that the duration reader refuses, so terms
  with a deadline of `P+5D` can be acknowledged but do not read as a duration:
  `Receipts.ReadersDisagreeOnAPlus`.
* A second sweep is not always a no-op: `SweepResults.SecondSweepChangesNothing` gives the two
  exact exceptions, a snapshot adopted under terms of zero duration and an older row uncovered at
  the far end of the clock's range. `SweepWitness` shows both.

## Model

| member | source | states |
|---|---|---|
| `LifecycleRuns.LiveSnapshotsAreComplete` | operator/src/uploads.rs:399-500 | in every reachable state of commits, erasures, dropped requests, downloads, sweeps and crashes, a live row has exactly its chunks on disk, of the declared size, hashing to its digest, and no unlink of it is pending; except a key placed while an unlink of that very key was pending |
| `LifecycleHazards.KeepsItsBytesExactlyWhen` | operator/src/erasures.rs:214-236 | in every reachable state a live snapshot keeps its bytes, whatever follows, if and only if they are complete and no unlink of it is pending |
| `LifecycleHazards.CommitKeepsBytesExactlyWhen` | operator/src/uploads.rs:447-500 | the row a commit records keeps its bytes, whatever is interleaved before and after, if and only if no unlink of it is pending as they are placed |
| `LifecycleSteps.StepKeeps` | operator/src/sweep.rs:199-233 | every lock section and file operation of any thread keeps locking, grants, live bytes, quota and single open grants |
| `LifecycleRuns.EveryStateIsSound` | operator/src/erasures.rs:65-236 | the invariant holds in every state any run reaches from an empty operator |
| `LifecycleRuns.QuotaHoldsThroughout` | operator/src/uploads.rs:447-490 | no interleaving, revival or late commit takes a holder's live snapshots past the limit |
| `LifecycleRuns.NothingMissingMeansFullSize` | operator/src/uploads.rs:336-421 | if only accepted chunk writes happened and none is missing, the directory is whole and has the granted size |
| `LifecycleRuns.OneOpenGrantThroughout` | operator/src/uploads.rs:143-186 | two unexpired grants for one holder and digest never coexist |
| `LifecycleRuns.GrantIsResumedAsMinted` | operator/src/uploads.rs:143-186 | a retry gets the grant as first minted, whatever terms or payment state it comes with |
| `LifecycleRuns.IssuedForever` | operator/src/store.rs:427-453 | what an upload id was issued with never changes |
| `LifecycleWitness.DetachedUnlinkLosesARevival` | operator/src/erasures.rs:214-236 | a run from the empty operator in which an unlink that outlived its request removes the bytes of a revived row, for every framing, bytes and digest |
| `LifecycleMarks.MarkIsWrongExactlyWhenRevived` | operator/src/uploads.rs:593-671 | over every run, a mark takes a snapshot whose directory serves it out of the live set if and only if it was revived since the download read its row |
| `LifecycleMarks.MarkIsRightUnlessPlaced` | operator/src/uploads.rs:593-671 | for every key, unless a commit placed bytes under it since the download read its row, nothing serves what is marked |
| `LifecycleMarks.RefusedExactlyWhenReframed` | operator/src/sweep.rs:199-233 | an older row of a complete live snapshot is refused exactly when its framing is no longer the live one |
| `LifecycleMarks.InspectionIsWrongExactlyWhenReframed` | operator/src/sweep.rs:199-233 | over every run, the inspection takes a live, complete snapshot out if and only if the listed framing is no longer the live one, which needs a revival after the listing |
| `LifecycleWitness.SlowDownloadUnlistsARevival` | operator/src/uploads.rs:641-658 | a run from the empty operator in which a late mark takes a whole, re-uploaded snapshot out of the live set |
| `LifecycleWitness.StaleListingUnlistsARevival` | operator/src/sweep.rs:199-233 | a run from the empty operator, restarted once with another chunk size, in which the inspection takes out a whole snapshot that was re-uploaded under the new framing |
| `LifecycleRoundTrip.UploadedBytesAreServed` | operator/src/uploads.rs:593-671 | if only the chunks of one cut were accepted for a grant, in any order and with any retries, and its commit placed them, every later download that is served gets the sealed bytes |
| `CommitRefinement.CommitIsARunOfSteps` | operator/src/uploads.rs:368-516 | every answer of the one-piece commit refines the interleaved system: some run of single steps of one thread ends in the same rows, grants and directories |
| `RouteRefinement.EraseIsARunOfSteps` | operator/src/erasures.rs:53-238 | every answer of the erase route does, unlinks included |
| `RouteRefinement.DownloadIsARunOfSteps` | operator/src/uploads.rs:593-671 | every answer of the download route does, the mark included |
| `RouteRefinement.ChunkIsARunOfSteps` | operator/src/uploads.rs:295-357 | every answer of a chunk write does |
| `RouteRefinement.MintIsARunOfSteps` | operator/src/uploads.rs:188-275 | a grant the preflight route mints does |
| `SweepRefinement.SweepIsARunOfSteps` | operator/src/sweep.rs:65-569 | so does one complete sweep: a run of single lock sections and file operations ends in the rows, grants and directories the pass computes |
| `Preflight.MintedOnlyWithRoom` | operator/src/uploads.rs:188-275 | a new grant only for a snapshot not live, without an open grant, within the quota counted with open grants, framed exactly |
| `Preflight.DecidesAsDue` | operator/src/uploads.rs:99-275 | for every request and every state of the tables, each answer if and only if its condition, read off request, rows and grants, is the first to hold; the minted grant field by field |
| `LifecycleRuns.PreflightMintsAsTheSystemMay` | operator/src/uploads.rs:188-275 | a grant the route mints meets the interleaved system's guard for minting |
| `Uploads.RunPreflight` | operator/src/uploads.rs:87-287 | every answer with exactly the requests and tables it goes to: badly formed or resumed when a grant is open; then terms, payment with its refused credentials, duplicates, size and quota in that order, each refusal if and only if it is the first to apply; minted if and only if none does, and then the grant says what was asked for, until now plus the upload expiry; and the exact effect on rows and directories |
| `Uploads.PreflightLeaves` | operator/src/uploads.rs:188-287 | a new grant is written with an empty directory, nothing else is but a credential the gate let through, and a resumed one is told its own gaps |
| `Routes.PreflightRoute` | operator/src/uploads.rs:87-287 | signature, then a readable body with a digest, then the preflight above; what each refusal leaves in store and directories |
| `Uploads.OpenGrantFor` | operator/src/store.rs:1320-1349 | an unexpired grant for the digest that runs longest, exactly when there is one |
| `Uploads.PutChunk` | operator/src/uploads.rs:295-357 | an id that is absent or another holder's, a grant that ran out, an index or length the framing does not give, a directory that is gone, other bytes at the index: each its own refusal, with nothing changed; otherwise the chunk lands there, or is there already |
| `Uploads.Commit` | operator/src/uploads.rs:368-516 | an id that is absent or another holder's, or a grant that ran out, is refused with nothing changed; otherwise kept exactly with all bytes arrived, hashing right, room in the quota and nothing else in place, with directory, row, grant and outcome named field by field; incomplete uploads untouched with their gaps named; mismatches and refusals drop bytes and grant only |
| `Uploads.RetainedExactlyWhen` | operator/src/uploads.rs:380-498 | a commit keeps the snapshot if and only if it is the caller's, in time, whole, of the granted size and digest, has room, and finds the same bytes or none in place; it is called incomplete if and only if an index is absent |
| `Uploads.Abandon` | operator/src/uploads.rs:531-534 | the directory and the row go, nothing else |
| `Uploads.Download` | operator/src/uploads.rs:593-671 | bytes are served exactly for a live row whose chunks are contiguous and of the declared size; a live row without them becomes unavailable as of now; no row for an erased or unknown digest, and one already unavailable stays as it is |
| `Routes.DownloadRoute` | operator/src/uploads.rs:593-671 | signature, gate, digest, then the lookup, each refusal with what it leaves in the store |
| `Framing.FramingIsExact` | operator/src/uploads.rs:255-256 | any positive size is cut into chunks of 1 to chunk_bytes bytes that add up to it |
| `Framing.CutIsFramed` | operator/src/uploads.rs:336-348 | a client's cut has the granted number of chunks, each of the only length accepted at its index |
| `Framing.CutRejoins` | operator/src/blobs.rs:130-139 | the chunks of a cut rejoin to the original bytes |
| `Framing.UploadReadsBack` | operator/src/blobs.rs:220-274 | a directory of a client's chunks is whole and reads back as the sealed bytes |
| `Framing.AcceptedBytesAddUp` | operator/src/uploads.rs:336-348 | chunks of the accepted lengths total the granted size, whatever their bytes |
| `Framing.HeldIsFilled` | operator/src/blobs.rs:105-123 | what is held of an upload is what its content would be with the gaps empty |
| `Blobs.Blobs.BeginUpload` | operator/src/blobs.rs:51-59 | a new empty directory, or the one already there untouched |
| `Blobs.Blobs.WriteChunk` | operator/src/blobs.rs:69-103 | the same bytes again change nothing, different bytes are refused, an absent index is filled |
| `Blobs.Blobs.Arrival` | operator/src/blobs.rs:105-123 | ascending, disjoint, non-adjacent inclusive ranges covering exactly the absent indices; the bytes of the chunks that are there, which are the content when none is missing |
| `Blobs.Blobs.DigestOf` | operator/src/blobs.rs:130-139 | the hash of the chunks in index order, or failure exactly when one is absent |
| `Blobs.Blobs.ChunkPaths` | operator/src/blobs.rs:220-274 | succeeds exactly for indices 0 to count with no extra, totalling the declared size |
| `Blobs.Blobs.Commit` | operator/src/blobs.rs:149-197 | an existing destination is adopted only if it verifies, otherwise the upload directory is renamed into place |
| `Blobs.DiscardUndoesAnUpload` | operator/src/blobs.rs:199-207 | discarding an upload, whatever was written into it, restores the disk to before it began, and a commit of it can then only adopt what is in place |
| `Blobs.ErasureMakesRoom` | operator/src/blobs.rs:350-361 | where a directory stood that no commit would adopt, after an erasure the next upload goes into place, and erasing that leaves every other directory as it was |
| `Stores.Store.RecordNonce` | operator/src/store.rs:346-352 | new exactly when unseen; a seen nonce keeps its first stamp |
| `Stores.Store.SweepNonces` | operator/src/store.rs:355-360 | only nonces older than the floor go |
| `Stores.Store.Snapshots` | operator/src/store.rs:363-407 | the holder's live rows, each once, newest first |
| `Stores.Store.Retain` | operator/src/store.rs:501-528 | a live row is left alone, any other is revived with what the new upload pinned |
| `Stores.Store.MarkUnavailable` | operator/src/store.rs:1024-1031 | only a live row changes, and the caller is told whether it did |
| `Stores.Store.RegisterEntitlement` | operator/src/store.rs:585-616 | the record replaces by id, then the holder's derived row is cleared; the state between the two statements, which a crash leaves, is named |
| `Stores.Store.EntitlementHorizon` | operator/src/store.rs:625-655 | one walk finds the latest expiry of all records and the latest of the unrevoked ones |
| `Stores.Store.HolderLosingEntitlements` | operator/src/store.rs:697-711 | true exactly when there are records and all are below the floor |
| `Handover.SweepSparesOthers` | operator/src/store.rs:880-887 | no other holder gains or loses a record or an expiry |
| `Handover.HandOverEmpties` | operator/src/store.rs:880-887 | a holder losing every record has none left |
| `SweepLapse.AllAgedGone` | operator/src/store.rs:738-748 | with every losing holder handed over, superseding leaves exactly the records not below the floor |
| `Stores.Store.CommitErasure` | operator/src/store.rs:1071-1118 | rows, receipts, coverage and outcome change together, as one transaction; the outcome carries the stamp and names exactly the minted receipts, each stored under its id with holder, scope, terms and stamp |
| `Stores.Store.LatestReceipts` | operator/src/store.rs:1131-1180 | exactly the relevant receipts of the newest stamp, by terms id then id |
| `Stores.Store.SweepOutcomesAndReceipts` | operator/src/store.rs:1280-1309 | upload outcomes by one floor, erase outcomes, coverage and receipts by the other |
| `Stores.Store.SweepErasedReferences` | operator/src/store.rs:1260-1267 | a row stays on record if and only if it is not erased or was erased no earlier than the floor, and unchanged |
| `Gate.LifecycleHorizonOf` | operator/src/lapse.rs:403-418 | the record's horizon while there is a record, then the derived row's |
| `Gate.GraceFrom` | operator/src/lapse.rs:251-279 | the union of what the terms of the snapshots still in their window promise, or a lapse when none is |
| `Gate.Evaluate` | operator/src/lapse.rs:184-248 | a presented credential is believed and registered or refused outright; otherwise stored records, then the horizon, decide |
| `Gate.Require` | operator/src/lapse.rs:557-588 | for every operation and state of the tables, who passes: everyone where nothing is charged; for the six operations that are always open; with a credential that verifies; without one, whoever has an unrevoked record that runs past now, and for a download or an erasure whoever has a live snapshot in an open window that promises it; all others get payment required, or invalid for a refused credential; nothing is written but a credential let through |
| `Gate.AnswerIsWhoPasses` | operator/src/lapse.rs:80-145 | the gate's answer is that table of operations, for every holder, credential, revoked set and instant |
| `Owed.HorizonIsTheLapse` | operator/src/lapse.rs:403-418 | the horizon is the holder's latest expiry on record, revoked or not, and without a record what the lapse row keeps |
| `Owed.WindowIsWhatTheTermsSay` | operator/src/lapse.rs:305-349 | a window ends notice and then grace after the lapse, as the snapshot's own terms declare them, or not at all where they do not read or leave the clock's range; what is promised and what follows, erasure by default, is theirs too |
| `Owed.GraceIsWhatIsPromised` | operator/src/lapse.rs:251-279 | without a running record an operation is allowed in grace if and only if the terms of some live snapshot whose window is open promise it |
| `Owed.DueIsToErase` | operator/src/lapse.rs:361-392 | the sweep erases a snapshot if and only if it is live, its own window counted from the lapse is over, and its terms then have it erased |
| `Owed.StateIsTold` | operator/src/lapse.rs:490-523 | a lapse row holds the latest window end over the holder's live snapshots and the action of the snapshot it belongs to, the newest and then the least digest where several end together; no row exactly where no window is told |
| `Gate.PostGraceDue` | operator/src/lapse.rs:361-392 | exactly the live snapshots whose own window, from the horizon, has closed, with their declared action |
| `Gate.LapseStateAt` | operator/src/lapse.rs:490-523 | the latest window end over the live snapshots and the action of the first-listed one that carries it |
| `Gate.UnrecordedLapsedHolders` | operator/src/lapse.rs:543-551 | exactly the holders with live snapshots and no horizon |
| `Lapse.GraceFollowsNotice` | operator/src/lapse.rs:290-296 | protection ends where grace ends when it starts at the end of notice, has no end exactly when one of the two leaves the clock's range, and moves with the lapse |
| `Agreement.RequestAndSweepAgree` | operator/src/lapse.rs:361-392 | the snapshots with a readable window split exactly into those due and those grace is granted for |
| `Agreement.EntitledHasNothingDue` | operator/src/lapse.rs:184-248 | a holder a stored record entitles has nothing due |
| `Agreement.RevocationOnlyRefuses` | operator/src/store.rs:625-655 | the horizon does not depend on the revoked set, and access only shrinks as it grows |
| `Agreement.RenewalBetweenListAndMark` | operator/src/sweep.rs:115-146 | a renewal between listing and marking is expired although nothing is due any more |
| `Handover.HandOverUnobservable` | operator/src/sweep.rs:272-334 | from any tables, for any list of holders: for every operation, revoked set and time from the sweep on, the gate and the expiry pass answer a holder the same before and after records are deleted, if and only if no older row of theirs with windows to tell is uncovered |
| `Handover.HorizonCarriedOver` | operator/src/lapse.rs:460-469 | a holder losing every record keeps the same horizon while anything is protected, and otherwise has what an older row tells, or none |
| `Handover.HandOverMovesBackExactlyWhen` | operator/src/sweep.rs:282-317 | from any tables, a hand-over moves a horizon back if and only if all records are below the floor, an older row lies beside them and nothing is protected |
| `Handover.NothingOwedSameAnswers` | operator/src/lapse.rs:184-248 | `Lapsed` turning into `Unpaid` refuses and expires the same |
| `Handover.SupersedeKeepsTheLatest` | operator/src/store.rs:738-748 | superseding keeps every holder's latest record |
| `Handover.RetiredExactlyWhenNothingIsOwed` | operator/src/sweep.rs:392-489 | with no record, a lapse row is forgotten exactly when no live snapshot has a readable window left |
| `Handover.NothingIsOrphaned` | operator/src/sweep.rs:336-489 | on a charging operator a holder with a readable live snapshot has a horizon after adoption and refresh |
| `LapseRuns.StepForward` | operator/src/sweep.rs:235-489 | each statement of a registration, row change and sweep step moves a horizon forward or drops one already past, if and only if it does not strand the holder |
| `LapseRuns.HorizonNeverMovesBackExactlyWhen` | operator/src/lapse.rs:403-418 | over every run, crashes inside a registration and late adoptions included: a holder's horizon never moves back, and honours every expiry registered, if and only if no hand-over of the run strands them |
| `LapseStranding.OlderRowsComeFrom` | operator/src/store.rs:593-615 | an older row appears only by a registration whose second statement has not run, or an adoption written after a registration |
| `LapseStranding.CrashInRegistrationStrands` | operator/src/store.rs:593-615 | a run from a fresh store, for any terms and times, in which a crash between the two statements ends in a horizon moved back and a snapshot due too soon |
| `LapseStranding.LateAdoptionStrands` | operator/src/sweep.rs:361-389 | the same through the gap between listing and adopting in (3c) |
| `LapseMarks.MarkIsEarlyExactlyWhen` | operator/src/sweep.rs:114-147 | over every run, listing and marking apart: marking a row that was listed is early if and only if its holder renewed in between with an expiry under which the window is open, and no stranding since has closed it |
| `LapseMarks.NothingExpiresEarly` | operator/src/sweep.rs:114-147 | an unrevived row is never marked before its own notice and grace have passed since every expiry its holder had registered when it was listed, unless they were stranded since that registration |
| `LapseMarks.AnEarlyMark` | operator/src/sweep.rs:115-146 | a run from a fresh store, for any terms and times, in which a renewal between listing and marking makes the mark early |
| `LapseAdoptions.AdoptionAgreesExactlyWhenUnrenewed` | operator/src/sweep.rs:361-389 | over every run, listing and adopting apart within one sweep: the adopted row tells the holder's horizon if and only if they did not in between register a credential that runs past the sweep's instant; if they did, it is an older row |
| `LapseRuns.FreeOperatorNeverExpires` | operator/src/sweep.rs:352-361 | in no run of an operator that never charged does step (0) list anything |
| `SweepLapse.Reconcile` | operator/src/sweep.rs:65-569 | a pass with nothing failing and nothing else running computes the composed sweep function, and leaves in every table and directory exactly what `SweepTables.SweepLeaves` says |
| `SweepTables.SweepLeaves` | operator/src/sweep.rs:65-569 | from any state, table by table and key by key: an erased reference is forgotten if and only if it was erased before its floor, an outcome, receipt with its coverage, nonce or record if and only if it is older than its own floor, a grant if and only if it ran out; a live row stays live if and only if its window is not over and its directory intact; what stays is unchanged, directories go with their rows and grants, and every lapse row tells what the live snapshots tell |
| `SweepSteps.ExpirePostGrace` | operator/src/sweep.rs:114-147 | exactly the live snapshots due with `erase` are marked, each holder by their own horizon |
| `SweepSteps.ExpireHolder` | operator/src/sweep.rs:115-146 | a declared action other than `erase` keeps the snapshot |
| `SweepSteps.DropExpiredGrants` | operator/src/sweep.rs:149-169 | exactly the expired grants and their directories go |
| `SweepSteps.DropUngranted` | operator/src/sweep.rs:171-187 | exactly the directories without a grant go |
| `SweepSteps.MarkIncompleteRows` | operator/src/sweep.rs:189-233 | exactly the live rows whose bytes are absent or incomplete are marked |
| `SweepLapse.HandOverHolder` | operator/src/sweep.rs:282-317 | for a holder still losing every record, what their live snapshots tell from the moment payment ended goes into the row, if anything, and then the records go; for any other nothing changes |
| `SweepLapse.DerivedIsHandedOn` | operator/src/sweep.rs:282-317 | the row a hand-over leaves, read off records, live rows and terms |
| `SweepLapse.HandOverRecords` | operator/src/sweep.rs:272-334 | afterwards no record is below the floor, and each holder has the row derived from their own state |
| `SweepLapse.AdoptUnrecorded` | operator/src/sweep.rs:361-389 | exactly the holders without a horizon and with a readable snapshot get one, at now |
| `SweepLapse.AdoptedTakesUp` | operator/src/sweep.rs:361-389 | adoption gives a holder of whom nothing says when payment ended what their live snapshots tell from now, and any other the row they had |
| `SweepLapse.RefreshHolder` | operator/src/sweep.rs:416-489 | the row is re-derived from the snapshots as they are and retired once closed with nothing due |
| `SweepLapse.RefreshedKeepsCurrent` | operator/src/sweep.rs:416-489 | a refreshed row tells what the live snapshots tell from the lapse it keeps, and goes if and only if that is nothing, or is over, was to end in erasure, and no live snapshot's window counted from the end of payment is over |
| `SweepLapse.RefreshLapseRows` | operator/src/sweep.rs:407-489 | every lapse row is refreshed from its own holder's state alone |
| `SweepLapse.EveryRowKeptCurrent` | operator/src/sweep.rs:407-489 | (3d) does so for every holder with a row, and adds none |
| `SweepSteps.DropUnlisted` | operator/src/sweep.rs:491-532 | exactly the directories without a live row go |
| `SweepResults.LiveAfterSweep` | operator/src/sweep.rs:96-233 | a row is live after a sweep exactly when it was, is not due for erasure, and has its bytes |
| `SweepResults.DiskIsTheLiveRows` | operator/src/sweep.rs:491-532 | from any state, after one sweep the directories are exactly the live rows, each whole |
| `SweepResults.UploadsHaveOpenGrants` | operator/src/sweep.rs:149-187 | after one sweep every upload directory has a grant and every grant is unexpired |
| `SweepResults.HorizonAfterSweep` | operator/src/sweep.rs:235-489 | from any tables: an uninterrupted sweep keeps a holder's horizon, starts one at now, or drops it, and retires an uncovered row that protects nothing; on a charging operator whoever has something readable to protect has one; it goes back only to an older row with windows to tell |
| `SweepResults.SecondSweepChangesNothing` | operator/src/sweep.rs:336-489 | from any tables, a second sweep with the same arguments changes nothing if and only if the first adopted no snapshot with a zero-length window and uncovered no older row that makes one due |
| `SweepResults.PositiveWindowsSettleAtOnce` | operator/src/sweep.rs:65-569 | with positive windows a second sweep changes nothing if and only if no uncovered row makes a snapshot due |
| `SweepWitness.ASecondSweepExpires` | operator/src/sweep.rs:336-389 | for any snapshot and time, a world in which terms of no duration make the second sweep expire what the first adopted |
| `SweepWitness.AnOlderRowIsShown` | operator/src/sweep.rs:282-317 | for any notice, a world at the end of the clock's range in which an uncovered row makes the second sweep expire a snapshot |
| `Receipts.ReceiptCommitsToItsTerms` | operator/src/erasures.rs:252-303 | for every document, a receipt commits to the declared deadline counted from the acknowledgement, and is refused exactly when the terms name no scope, no exclusion, or no positive whole-day deadline in range |
| `Receipts.DeadlineMeansWhatTheTermsSay` | operator/src/erasures.rs:311-330 | for every string, the deadline reader gives what the duration reader gives once a plus sign is dropped, and accepts exactly the positive whole-day forms |
| `Receipts.ReadersDisagreeOnAPlus` | operator/src/erasures.rs:311-330 | a deadline with a plus sign is read here and refused there |
| `Receipts.SpacesAreWhiteSpace` | operator/src/erasures.rs:262-271 | blank means nothing but the 25 characters Unicode calls white space |
| `Receipts.ReceiptsPartitionTargets` | operator/src/erasures.rs:150-181 | receipts are non-empty, disjoint, cover all targets, and each target is under the terms it pinned |
| `Receipts.PinnedTerms` | operator/src/erasures.rs:150-155 | the targets' terms ids, ascending, each once |
| `Receipts.MintPerTerms` | operator/src/erasures.rs:157-181 | succeeds exactly when every pinned document is there and composes, and then mints one receipt per terms id |
| `Erasures.Erase` | operator/src/erasures.rs:53-238 | every answer with exactly the rows and receipts it is given for: the erasure commits or its terms refuse it while anything in scope is live; then retention expired, replay of the newest relevant receipts in terms order, receipt expired, never held; with the exact tables, outcome and directories each leaves |
| `Erasures.DecidesAsDue` | operator/src/erasures.rs:53-212 | for every state of the tables the answer is the one due by rows, receipts and coverage on record |
| `Erasures.UnlinksItsScope` | operator/src/erasures.rs:214-236 | of the directories, exactly those of what the erasure took out of the live set go |
| `Routes.EraseRoute` | operator/src/erasures.rs:53-238 | signature, gate, readable body with an operation id and a scope, then the erasure above; what each refusal leaves in store and directories |
| `Erasures.EraseNothingLive` | operator/src/erasures.rs:98-141 | retention expired, replay, receipt expired or never held, decided in that order |
| `Erasures.CommitsExactlyWhenEverythingComposes` | operator/src/erasures.rs:142-196 | an erasure commits exactly when something is live in scope and every pinned document composes; a refused one changes nothing |
| `Receipts.CommitErasesItsScope` | operator/src/store.rs:1071-1090 | every live row in scope becomes erased at the stamp, every other row stays as it was |
| `Receipts.CommitRecordsTheErasure` | operator/src/store.rs:1071-1118 | a committed erasure puts its receipts and what they cover on record beside what is there, and gives its operation an acknowledged outcome with its stamp that names exactly them |
| `ReceiptRuns.ErasureRouteIsAnEvent` | operator/src/erasures.rs:53-238 | whatever the erase route answers is an event of the histories below, or changes nothing |
| `ReceiptRuns.KeptUploadIsTwoEvents` | operator/src/uploads.rs:470-500 | an upload that is kept is two events of the histories below: the row, then the operation's outcome |
| `ReceiptRuns.StepKeeps` | operator/src/store.rs:1071-1309 | every upload, erasure, replay and sweep keeps the receipt invariant |
| `ReceiptRuns.ReceiptsStandBehindTheirRecords` | operator/src/store.rs:1280-1309 | in every history coverage has its receipt, and an outcome an erasure wrote names exactly the receipts on record with its holder and stamp, at least one: it never outlives a receipt and never leaves one out |
| `ReceiptRuns.ReplayReturnsThePresentErasure` | operator/src/store.rs:1131-1180 | replaying an erased reference returns the one receipt of the erasure that set its present stamp, or nothing once aged out, never an earlier life's |
| `ReceiptSweeps.RetryAfterSweep` | operator/src/store.rs:1260-1267 | in every history and through any sweep: a reference erased no earlier than the sweep's floor is still answered, with the one receipt of the erasure that set its stamp while that is within its window, and otherwise that the receipt has expired |
| `ReceiptRuns.ReplayOfAllIsTheLastErasure` | operator/src/store.rs:1131-1180 | over every history, replaying the erasure of everything returns all receipts of the holder's last erasure if and only if one of them is relevant now, and otherwise none of them |
| `ReceiptRuns.ReplayOfAllWhileRemembered` | operator/src/store.rs:1131-1180 | while a reference of the last erasure is on record and not aged out, the replay returns that erasure and covers the reference |
| `ReceiptRuns.ReplayOutcomeOutlivesItsReceipts` | operator/src/erasures.rs:114-127 | an outcome written by a replay outlives its receipts exactly when a floor falls between the two stamps |
| `ReceiptWitness.AnOutcomeOutlivesItsReceipts` | operator/src/erasures.rs:114-127 | a history from a new operator in which it does, for any snapshot whose terms compose |
| `Auth.Authenticate` | operator/src/auth.rs:33-85 | let through as a holder if and only if all four headers are there, the key named is that holder's, the signature verifies over the seven framed fields of this very request with its body digest, the timestamp is within the skew to the second, and the nonce is not on record; exactly then the nonce goes on record, and otherwise nothing changes |
| `Auth.AdmittedIsSigned` | operator/src/payload.rs:110-149 | the proofs that runs of calls are about are exactly the signed, timely, unspent calls |
| `Auth.SignedBytesFixTheProof` | operator/src/payload.rs:24-44 | two requests that verify over the same bytes carry the same holder, nonce and timestamp, so single-use proofs are single-use signatures |
| `AuthRuns.SignaturesAreSingleUseExactlyWhen` | operator/src/auth.rs:33-85 | over every run of authenticated calls and nonce sweeps, no two calls with the same signed bytes are let through if and only if nonces are kept for twice the window's reach plus the clock lag |
| `Nonces.FreshWithinReach` | operator/src/payload.rs:123-129 | the truncated two-sided test as an exact interval |
| `Nonces.StaysOnRecord` | operator/src/store.rs:346-360 | a spent nonce is still on record at every moment its proof could pass again |
| `Nonces.SingleUseExactlyWhenRetainedLongEnough` | operator/src/main.rs:239-249 | no run accepts a proof twice if and only if nonces are kept for twice the window's reach plus the clock lag |
| `Nonces.TwiceTheSkew` | operator/src/main.rs:239-249 | twice the skew is enough if and only if stamps are whole seconds and in order |
| `Durations.ReadDuration` | operator/src/documents.rs:285-327 | the scanning loop computes the reader function; no overflow, no negative result |
| `Durations.ReadsTheSumOfItsParts` | operator/src/documents.rs:285-327 | parts of digits and a unit, leading zeros and repeated `T` included, read as their sum and are refused exactly when that leaves 64 bits |
| `Durations.EverythingReadIsParts` | operator/src/documents.rs:285-327 | nothing else is read, besides `none` |
| `Durations.PrinterRoundTrip` | operator/src/documents.rs:261-283 | reading a printed duration gives it back if and only if it is not negative |
| `Durations.DigitsRunAcrossT` | operator/src/documents.rs:297-313 | a number left open before `T` joins the number after it |
| `Durations.UnitsAreWorth` | operator/src/documents.rs:310-319 | any number of years, months, weeks, days, hours, minutes or seconds reads as that many times 31536000, 2592000, 604800, 86400, 3600, 60 or 1, or is refused past 64 bits |
| `Durations.OnlyTheseUnits` | operator/src/documents.rs:310-319 | there are no other units |
| `Durations.DigitsAreDecimal` | operator/src/documents.rs:303-307 | digits count in tens |
| `Durations.OneDigit` | operator/src/documents.rs:303-307 | and each stands for its own value |
| `Durations.PrintsInTheLargestUnit` | operator/src/documents.rs:261-271 | days, then hours, then minutes, then seconds, whichever first leaves no remainder |
| `Signing.Append` | operator/src/payload.rs:46-54 | the length prefix, then the field |
| `Signing.BuildSigningBytes` | operator/src/payload.rs:24-44 | the buffer holds the seven framed fields in order |
| `Signing.FieldsInFull` | operator/src/payload.rs:32-43 | the version string, the upper-cased method, path, holder, timestamp, nonce and the digest of the body, in that order |
| `Signing.LengthComesFirst` | operator/src/payload.rs:46-54 | each field behind its length in four bytes, most significant first |
| `Signing.UpperOfTheAlphabet` | operator/src/payload.rs:34 | upper-casing takes the 26 letters to theirs |
| `Signing.OthersStay` | operator/src/payload.rs:34 | and leaves every other byte alone |
| `Signing.FieldReadsBack` | operator/src/payload.rs:46-54 | a framed field reads back if and only if it is shorter than four gigabytes |
| `Signing.PayloadReadsBack` | operator/src/payload.rs:24-44 | a decoder recovers all seven fields |
| `Signing.PayloadIsInjective` | operator/src/payload.rs:24-44 | equal signing bytes if and only if equal upper-cased method, path, holder, timestamp, nonce and body digest |
| `Signing.LongFieldsCollide` | operator/src/payload.rs:46-54 | past the prefix's range a field boundary can move without changing the bytes |
| `Documents.WriteJsonString` | operator/src/documents.rs:96-117 | the quoted, escaped string is appended |
| `Documents.WriteCanonical` | operator/src/documents.rs:52-92 | refused exactly when a float occurs anywhere, otherwise the canonical bytes are appended |
| `Documents.CanonicalBytes` | operator/src/documents.rs:40-50 | the named fields are dropped at the top level, then the rest is written |
| `Documents.SignDocument` | operator/src/documents.rs:172-185 | signature, and for terms the digest, are put back into the document they were computed over |
| `Documents.SignedDocumentVerifies` | operator/src/documents.rs:172-185 | any reading of the signed document, without the named fields, has exactly the signed bytes, which its signature and terms id are about |
| `Documents.NamesAsText` | operator/src/documents.rs:172-185 | the two fields put back are `signature` and `termsId` |
| `Canonical.EscapeReadsBack` | operator/src/documents.rs:96-117 | each escape is one that section 7 of RFC 8259 lists and stands for the byte it replaced |
| `Canonical.EscapesAsText` | operator/src/documents.rs:94-117 | exactly quote, backslash and control characters are escaped: seven by themselves or a letter, the others as `\u00` and two lower-case hexadecimal digits |
| `Canonical.StringReadsBack` | operator/src/documents.rs:96-117 | a reader that accepts only section 7 strings recovers the text |
| `Canonical.SortSorts` | operator/src/documents.rs:55-56 | keys come out in strictly ascending byte order |
| `Canonical.LessIsByteOrder` | operator/src/documents.rs:55-56 | by the first byte that differs, a prefix first |
| `Canonical.ReadsBack` | operator/src/documents.rs:52-92 | a reader takes off exactly the written bytes and returns the value |
| `Canonical.ScalarsAsText` | operator/src/documents.rs:76-90 | the literals, plain decimals, text between quotes |
| `Canonical.ItemsAsText` | operator/src/documents.rs:68-75 | items between brackets with commas and nothing else between them |
| `Canonical.FieldsAsText` | operator/src/documents.rs:54-67 | fields between braces with commas and nothing else between them |
| `Canonical.FieldAsText` | operator/src/documents.rs:62-64 | a quoted key, a colon, the value |
| `CanonicalForm.CanonicalReadsBack` | operator/src/documents.rs:52-92 | canonical bytes read back as the value with every object's keys in byte order |
| `CanonicalForm.SameCanonically` | operator/src/documents.rs:52-92 | equal canonical bytes if and only if the same JSON value, key order aside |

## Left out

- Stores.Store.Snapshots: rows with equal stamps are listed by digest; SQLite leaves their order open, and the action kept in a lapse row on a tie depends on it.
- Stores.Store.RegisterEntitlement: replaces by id whoever the id belonged to, as the code does; `LapseRuns` assumes that an id stays with one holder and that a re-issue does not shorten it.
- AuthRuns.SignaturesAreSingleUseExactlyWhen: is about fields shorter than four gigabytes, as `Signing.PayloadIsInjective` is.
- LifecycleRuns.LiveSnapshotsAreComplete: makes the one exception the code makes, a key placed under a pending unlink of that key; `LifecycleHazards` states when that is fatal, in both directions.
- LapseMarks.MarkIsEarlyExactlyWhen: is about a row that was not revived after it was listed; of a revived one it says the same from its revival on, not from the listing.
- ReceiptRuns.ReceiptsStandBehindTheirRecords: is stated for outcomes an erasure wrote, not for those a replay wrote.
- ReceiptRuns.ReplayReturnsThePresentErasure: assumes that a holder's erasures carry strictly increasing stamps and that receipt ids are fresh.
- SweepResults.SecondSweepChangesNothing: assumes that no derived horizon lies ahead of the clock, which `LapseRuns` proves of every run.
- SweepLapse.Reconcile: has no failing statement or file operation, and does not model the counters, which are only logged.
- Auth.Authenticate: takes the parsing of each header value and the Ed25519 check as parameters, and the holder handle as given.
- Canonical.StringReadsBack: has no UTF-8 decoding; the reader leaves out escapes past U+007F, which the writer never produces.
- Uploads.RunPreflight: does not model the fields of refusals or 64-bit overflow of sums of sizes.
- Lapse.GraceFollowsNotice: is about lapses in the clock's range, the only ones there are; only the upper end of it can be left.
- SQL text, migrations, write-ahead logging, fsync and power loss; each statement or transaction is one step and does not fail.
- Stored terms or stamps that do not parse, including the restart of an unreadable lapse row at now.
- RFC 3339 text and the precision of `julianday`; instants are integers.
- SHA-256, Ed25519, base64 and hex; they are function parameters or absent.
- Verification of entitlement credentials and polling of revocations; a registered credential is one not yet expired, and the revoked set is arbitrary.
- Axum routing, request decoding, status codes, error bodies, configuration, boot, health, export and receipt listing: plumbing or plain lookups.
- `list` and the lookup of one receipt or outcome: single queries without a property of their own.
