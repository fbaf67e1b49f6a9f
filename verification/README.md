# Verification model of the RAG service core

A Dafny model of the parts of this repository that have to be right whatever the network,
the data and the crashes do: the index dispatch protocol, the wiki compile and fact workers,
the sparse and token-row lanes against brute force, the content-addressed manifest and its
codecs, the caches, the splitter, the deterministic compile stages, source coverage, and
rank fusion. `dafny verify dfyconfig.toml` checks all of it.

## How the model is laid out

**Protocols.** `index_world.dfy`, `wiki_world.dfy` and `fact_world.dfy` hold the authorities
as state machines (RTW builds and compiles, DC jobs and event log, the PG store, the object
store) and the wire between them and any number of workers. A request once on the wire stays
there: an authority may serve it never, once or many times, at once or long after its sender
gave up. This covers lost requests, lost replies, late commits, duplicates, competing
attempts, and a crash between any two calls. Every clock reading is arbitrary. A request may
be put on the wire only when it is *justified* (`Justified`); what a justified request rests
on is never taken back, and the theorems hold in every world of every run. `index_worker.dfy`,
`wiki_worker.dfy` and `fact_worker.dfy` hold the workers as classes whose methods follow the
Go methods call by call against such a world, with arbitrary moves of everybody else before,
during and after each call; each method has to prove that what it sends is justified.

Every move of a run is recorded, those of the others too, in the order the wire's script
gives them (`Moves`); a worker can leave none of them out. `index_laws.dfy`, `wiki_laws.dfy` and
`fact_laws.dfy` say, field by field, which requests each authority takes and what they change.

**Recovery.** Safety alone would be met by a worker that does nothing. So each worker's contract
also says when work gets done: an undisturbed pass over work that nothing stands in the way of
succeeds. For the index dispatch this holds even if the replies of both authorities are lost and
whatever stage a row was deferred to (`DispatchReadyOnce`, `ProcessClaim`); for the compile it
ends in acceptance and completion; for the facts in commits and an acknowledgement.
`index_attempts.dfy`, `wiki_attempts.dfy` and `fact_laws.dfy` spell out ordinary work for which
that is so. `InterruptedDispatchStaysLive` says that a dispatch broken off anywhere can be taken
up again, `AttachReopens` that a new attempt reopens a deferred row, and `index_run.dfy` shows
runs: every prepared build has one that ends delivered, and so has every build whose dispatch was
deferred, from whatever happened before.

**Lanes.** `corpus.dfy` holds chunk manifests and lane indexes. `sparse_*.dfy` go from sorted
vectors and posting lists through shards, opening, building and resuming to queries;
`maxsim.dfy` and `token_*.dfy` do the same for the token-row lane, with the two budgets under
which candidates suffice; `maxsim_laws.dfy` says what the dense inner product is, and that it is
the sparse one. Addition and multiplication are arbitrary functions there, so equal
scores mean the same operations in the same order. `parity.dfy` holds the order-preserving
composite IDs and the comparison with the external scorer. `ranking.dfy` and `sorting.dfy`
are shared.

**Values and structures.** `manifest.dfy` prints the canonical JSON byte by byte and parses it
back, and `manifest_text.dfy` gives the text; `codec.dfy` and `impact.dfy` hold the two byte
codecs; `switcher.dfy` the manifest switcher with its in-place filters; `recency.dfy`, `lru.dfy`
and `tiered.dfy` the cache as a recency sequence, as map and list, and in two levels, and
`recency_laws.dfy` which keys such a cache holds; `splitter.dfy`, `splitter_theorems.dfy` and
`splitter_text.dfy` the chunk splitter, its packing, and its text; `compile_stages.dfy` and
`compile_claims.dfy` the four deterministic compile stages and the claims of what they write;
`coverage.dfy` the coverage contract; `rrf.dfy` rank fusion. `bytes.dfy`, `reals.dfy` and
`basics.dfy` hold vocabulary. Code that changes things step by step is a method or a class here
too, proved against a function that says what it computes; results are lemmas about that
function. The files named `_laws` and `_text` say what such a function means without its own
recursion: on unit rows, element by element, field by field, or as text.

## What is assumed

- RTW compares the whole fence atomically when it grants and accepts; DC completes by
  compare-and-set on the lease; READY and succeeded are terminal; the PG store updates the
  dispatch row by compare-and-set, as its own statements do.
- One build, compile or producer per world. Each claimed attempt is processed by one call.
- Digests and the JSON encodings other than the canonical manifest are functions given as
  parameters. No digest is assumed to be free of collisions. Where a result depends on one, it
  names the few texts that must not collide: the two canonical forms of `IdIdentifiesContent`,
  the manifests loaded in one run of the switcher (`CurrentIsRegistered`), the windows of one
  piece of evidence (`EvidenceBindsTheIndex`), and the objects put into one store
  (`ObjectStore.clashed`); where it fails otherwise, a lemma says so (`ClashReplaces`).
- Text is a sequence of bytes where its order matters, and of characters where runes do.
  White space, Han characters, lower case and the string order are parameters.
- The single-token budget needs that adding to zero changes nothing; the laws of the inner
  product name the laws of addition and multiplication they need.

## Where the code differs from its description

- The token rule in the comment of the curator (`service/async/rpc/internal/compile/executor.go`,
  lines 70 to 74) speaks of ASCII words and Han pairs. The code keeps one run for both and
  settles it by its first character: a run that starts with an ASCII character and goes on
  with Han characters is one lower-case token. The model follows the code.
- Quantizing a dequantized vector does not always give the identical payload: a non-zero vector
  whose largest element is below half a step, which takes a clamped scale, loses its scale.
  `Codec.RequantizeIsIdentity` gives the exact condition, and `Codec.RequantizeCanFail` an input.

## Model

| member | source | states |
|---|---|---|
| IndexWorld.DeliveredMeansBothReceipts | service/async/rpc/internal/app/index_worker_dispatch.go:41-156 | in every world of every run, a delivered dispatch has RTW READY with the committed manifest and its hash, and DC success with that manifest for the very attempt in the row |
| IndexWorld.NoSuccessBeforeReady | service/async/rpc/internal/app/index_worker_dispatch.go:108-151 | in no world of any run does DC hold an index success while RTW is not READY with that hash |
| IndexWorld.ReceiptsStay | service/async/rpc/internal/app/index_worker_dispatch.go:16-35 | once DC holds a success, that job, RTW's record and the local result stay as they are through every later move |
| IndexWorld.FenceIsTheGrant | service/async/rpc/internal/app/build_fence.go:38-54 | a returned fence names the caller's attempt and the epoch RTW recorded for that attempt |
| IndexWorld.FenceFollowsGrant | service/async/rpc/internal/app/build_fence.go:33-54 | a fence taken from a read of RTW has an epoch no smaller than any grant before that read, and a larger one than any other attempt's |
| IndexWorld.FencesAreDistinctAndIncrease | service/async/rpc/internal/app/build_fence.go:20-54 | two fences of one run, for distinct attempts, carry distinct epochs, each as RTW recorded it; if one was complete before the other's read, its epoch is the smaller one |
| IndexWorld.LostGrantIsRecoveredOrRefused | service/async/rpc/internal/app/build_fence.go:38-54 | after a lost ClaimBuild reply, reading the build back at any later point gives exactly the granted fence or none |
| IndexWorld.EveryWorldIsSafe | service/async/rpc/internal/app/index_worker_dispatch.go:41-156 | the invariant (epochs recorded, successes and deliveries backed, every request on the wire justified) holds in every world of every run |
| IndexWorld.ExecKeepsInv | service/async/rpc/internal/app/index_worker_dispatch.go:41-156 | an authority serving a justified request, at any time and any number of times, keeps the invariant |
| IndexWorld.LaterWorldsEvolve | service/async/rpc/internal/content/index_dispatch.go:39-234 | closed builds, READY results, granted epochs and index successes are never taken back between any two worlds of a run |
| IndexWorld.PgServeKeepsBacking | service/async/rpc/internal/content/index_dispatch.go:167-234 | no row update of the store makes a delivery without a DC success behind it |
| IndexWorld.InterruptedDispatchStaysLive | service/async/rpc/internal/app/index_worker_dispatch.go:41-156 | a dispatch broken off anywhere leaves its row live or delivered, whichever of its requests are served, in any order and any number of times |
| IndexWorld.LiveRowIsClaimed | service/async/rpc/internal/content/index_dispatch.go:128-165 | a live row without a standing claim is leased by the next claim, with its fences and result |
| IndexWorld.AttachReopens | service/async/rpc/internal/content/index_dispatch.go:39-126 | an accepted attach leaves a row for exactly the job, worker, attempt and fence asked for; a new attempt, or a larger fence epoch, leaves it pending, unclaimed, undelivered and under a larger claim epoch, whatever its stage was; a refused one changes nothing |
| IndexWorld.AttachAnswered | service/async/rpc/internal/content/index_dispatch.go:39-126 | a READY build does accept the attach of a new attempt whose fence may follow the row's, and so reopens the row, deferred or not |
| IndexLaws.WhatIsAttached | service/async/rpc/internal/content/index_dispatch.go:39-126 | an attach is taken exactly if it names a live attempt whose fences follow those of the row; a build not READY takes another attempt only under a later epoch |
| IndexLaws.WhatIsClaimed | service/async/rpc/internal/content/index_dispatch.go:128-165 | a claim takes exactly the pending row of a READY build that nobody holds, for thirty seconds and under the next claim epoch |
| IndexLaws.WhatIsDeferred | service/async/rpc/internal/content/index_dispatch.go:167-204 | a deferral is taken exactly from the dispatch that holds the claim in time, and changes the stage and the claim only |
| IndexLaws.WhatIsDelivered | service/async/rpc/internal/content/index_dispatch.go:205-234 | a delivery is taken exactly from the dispatch that holds the claim in time, after RTW's acceptance was noted, and once |
| IndexLaws.WhatIsCommitted | service/async/rpc/internal/content/store.go:341-373 | a result is committed exactly to a prepared build, in time and under a fence that follows the build's; a READY build takes only the same result again |
| IndexRun.BuildBecomesDeliverable | service/async/rpc/internal/app/index_worker_dispatch.go:41-156 | from a prepared build there are moves that grant, commit and attach it, to a deliverable row |
| IndexRun.EveryPreparedBuildCanBeDelivered | service/async/rpc/internal/app/index_worker_dispatch.go:41-156 | every prepared build has a run of the protocol that ends delivered, so the safety results are not about runs in which nothing happens |
| IndexRun.DeferredIsReopened | service/async/rpc/internal/content/index_dispatch.go:88-126 | from a READY build whose row was deferred, a lease, a grant and an attach lead to a deliverable row |
| IndexRun.EveryDeferredBuildCanBeDelivered | service/async/rpc/internal/app/index_worker_dispatch.go:41-156 | whatever happened before, a READY build whose dispatch was deferred can be delivered once DC leases its job to a new attempt |
| IndexWorker.IndexWorker.ClaimAllocatedRTWBuildFence | service/async/rpc/internal/app/build_fence.go:20-54 | a returned fence is what the check makes of a build RTW showed during this call, and is the caller's own recorded grant; undisturbed, a new attempt gets the next epoch, even if the grant's reply is lost |
| IndexWorker.IndexWorker.AcceptOnce | service/async/rpc/internal/app/index_worker_dispatch.go:82-116 | success means RTW is READY with the claimed result; a deferral leaves the row waiting for a new attempt, or for a person exactly when RTW closed with something else; undisturbed, a stale claim and a build closed otherwise are so deferred |
| IndexWorker.IndexWorker.CompleteOnce | service/async/rpc/internal/app/index_worker_dispatch.go:122-151 | success means DC holds success of the claim's own attempt and result; a deferral leaves the row for a person if the job is over, else for a new attempt; undisturbed, an attempt DC no longer runs is so deferred |
| IndexWorker.IndexWorker.Dispatch | service/async/rpc/internal/app/index_worker_dispatch.go:75-155 | success means delivered, with both receipts; an undisturbed dispatch of a claimed live row does succeed, even if the replies of both authorities are lost |
| IndexWorker.IndexWorker.DispatchReadyOnce | service/async/rpc/internal/app/index_worker_dispatch.go:41-156 | one dispatch is entered; work without error means delivered, and work with an error that a deferral was asked for; undisturbed, a live row whose leases have time left is delivered, whichever replies of the two authorities are lost, and nothing pending is no work and no error |
| IndexWorker.IndexWorker.AcquireFence | service/async/rpc/internal/app/index_worker.go:206-234 | the build runs under a fence RTW recorded: its own if it already holds the local result, else a fresh grant |
| IndexWorker.IndexWorker.ConfirmBuilt | service/async/rpc/internal/app/index_worker.go:271-331 | success means the READY content is the claimed build, the stored manifest describes it lane by lane, and RTW still builds under the fence or holds the result |
| IndexWorker.IndexWorker.BuildOnce | service/async/rpc/internal/app/index_worker.go:195-331 | success also means the dispatch row was attached, during this call, to this job attempt under a fence RTW granted, and reopened by it; undisturbed, a new attempt of a READY build leaves a deliverable row, whatever stage it was deferred to |
| IndexWorker.CommittedIsSound | service/async/rpc/internal/app/index_worker.go:271-323 | a receipt that matches the store and the stored manifest makes the committed content sound, whether committed now or earlier |
| IndexWorker.IndexWorker.ProcessClaim | service/async/rpc/internal/app/index_worker.go:168-343 | one claimed job reports a failure or enters a dispatch, never both; a job that does not decode does neither, and a failed attempt whose caller is still there is reported once if its lease has time left; success means delivered and nothing reported; undisturbed, a new attempt of a READY build delivers |
| IndexWorker.IndexWorker.ReportFailure | service/async/rpc/internal/app/index_worker.go:345-360 | exactly one report, under the job's own lease, if the lease has more than 250 ms left by the worker's clock; else none; undisturbed, DC queues the job again if the cause can be retried and fails it otherwise |
| IndexWorker.ReportTakesEffect | service/async/rpc/internal/app/index_worker.go:345-371 | what a report does to the job DC still leases to this attempt: queued again exactly for the causes that can be retried, else failed, with the code of the cause |
| IndexAttempts.WhatDecodes | service/async/rpc/internal/app/index_worker.go:42-75 | exactly a running index job of this worker and profile with a whole lease and a sound input decodes, to that input and fence; a lapsed lease is a conflict, anything else invalid |
| IndexAttempts.AcceptedBuildCanBeDelivered | service/async/rpc/internal/app/index_worker.go:168-343 | spelled out: where RTW holds the result, a new attempt of a committed build meets all that an undisturbed pass needs to deliver |
| IndexAttempts.BuildingBuildCanBeDelivered | service/async/rpc/internal/app/index_worker.go:168-343 | and where RTW still builds, with a run that hands back what was committed |
| IndexWorker.IndexWorker.RunOnce | service/async/rpc/internal/app/index_worker.go:130-150 | work without error means that some dispatch was delivered; no work without error means that there was neither a pending dispatch nor a job |
| IndexWorker.DecodeIndexClaim | service/async/rpc/internal/app/index_worker.go:42-75 | an accepted claim gives the fence of the job's own attempt, epoch and cancel version, still in time |
| WikiWorld.AtMostOneResult | service/async/rpc/internal/app/wiki_compile_worker.go:284-305 | however often accept requests are served, RTW commits at most one result, whose bytes the store holds under their hash |
| WikiWorld.AcceptedBytesAreReadable | service/async/rpc/internal/app/wiki_compile_worker.go:598-619 | bytes named by an accept request are readable under their hash before it is sent and unchanged ever after |
| WikiWorld.SuccessFollowsAcceptance | service/async/rpc/internal/app/wiki_compile_worker.go:400-451 | a completion is sent, and DC success exists, only for the attempt, epoch and cancel version RTW accepted |
| WikiWorld.CancelExcludesSuccess | service/async/rpc/internal/app/wiki_compile_worker.go:158-223 | once DC has requested or confirmed a cancellation, the job never succeeds, whatever is still on the wire |
| WikiWorld.EveryWorldIsSafe | service/async/rpc/internal/app/wiki_compile_worker.go:484-630 | the invariant of the wiki world holds in every world of every run |
| WikiWorker.WikiCompileWorker.CurrentJob | service/async/rpc/internal/app/wiki_compile_worker.go:158-185 | no error means DC was seen running this attempt, with time left, during the call; a confirmed cancellation means DC holds it; at most one acknowledgement, only of a cancellation seen requested of this attempt in time, and then an error; undisturbed, a requested cancellation is acknowledged and a running attempt passes |
| WikiWorker.WikiCompileWorker.AckCancellation | service/async/rpc/internal/app/wiki_compile_worker.go:198-223 | one acknowledgement; it is confirmed only if DC holds this attempt as cancelled, at this version and without a result, and given up only if DC was seen past that |
| WikiWorker.WikiCompileWorker.CurrentCompile | service/async/rpc/internal/app/wiki_compile_worker.go:225-235 | yes only if RTW was seen building this ticket under this attempt's own lease |
| WikiWorker.WikiCompileWorker.LoadSources | service/async/rpc/internal/app/wiki_compile_worker.go:237-264 | a loaded pack holds the ticket's sources in order, each live and with the bytes of its hash |
| WikiWorker.WikiCompileWorker.AcceptWithRecovery | service/async/rpc/internal/app/wiki_compile_worker.go:284-305 | at most two requests, each exactly the candidate's title, references and hashes under the job's attempt, epoch and cancel version; success means RTW's record is the acceptance of this ticket and attempt |
| WikiWorker.WikiCompileWorker.CheckSources | service/async/rpc/internal/app/wiki_compile_worker.go:334-350 | yes only if each source was seen unwithdrawn and unchanged since the pack was loaded |
| WikiWorker.WikiCompileWorker.ReadAcceptedEvidence | service/async/rpc/internal/app/wiki_compile_worker.go:310-357 | evidence means: the attempt seen running, RTW holding the same result, all sources unchanged, and the references agreeing |
| WikiWorker.WikiCompileWorker.VerifyManifestRef | service/async/rpc/internal/app/wiki_compile_worker.go:362-386 | a reference passes only if the store holds exactly the canonical manifest of this evidence under it |
| WikiWorker.WikiCompileWorker.CompleteTechnical | service/async/rpc/internal/app/wiki_compile_worker.go:400-451 | at most one completion or one acknowledgement; success means DC holds success of this attempt with a readable result, and RTW its acceptance |
| WikiWorker.WikiCompileWorker.StoreCandidate | service/async/rpc/internal/app/wiki_compile_worker.go:598-607 | success means the store holds the candidate's markdown under its hash |
| WikiWorker.WikiCompileWorker.OpenCompile | service/async/rpc/internal/app/wiki_compile_worker.go:510-527 | success means the attempt was seen running, and RTW building its ticket under no later lease; an acceptance of this attempt is handed back as pending; undisturbed, a claimable compile passes |
| WikiWorker.WikiCompileWorker.RunCompile | service/async/rpc/internal/app/wiki_compile_worker.go:510-588 | success means one candidate for this ticket and attempt, a loaded pack, and the compile claimed while the attempt was running |
| WikiWorker.WikiCompileWorker.Prepare | service/async/rpc/internal/app/wiki_compile_worker.go:510-588 | a prepared run has its compile claimed, its sources loaded and one candidate, asked for in this attempt's name only |
| WikiWorker.WikiCompileWorker.StoreFor | service/async/rpc/internal/app/wiki_compile_worker.go:589-614 | the candidate's bytes are stored and read back before the last look at job and compile |
| WikiWorker.WikiCompileWorker.ProcessClaim | service/async/rpc/internal/app/wiki_compile_worker.go:484-630 | what it puts on the wire belongs to this attempt, in order: one claim, at most two acceptances of exactly its candidate, then one completion or one acknowledgement; success means accepted and completed; undisturbed, a compile that can finish does |
| WikiAttempts.WhatDecodes | service/async/rpc/internal/app/wiki_compile_worker_claim.go:118-134 | exactly a running job of this worker with a whole lease, no cancellation and time left decodes, and to its own ticket; the formats of request and ticket stand behind one field |
| WikiAttempts.OrdinaryCompileCanFinish | service/async/rpc/internal/app/wiki_compile_worker.go:484-630 | spelled out: an attempt whose sources are live, whose candidate is its own and whose result is there meets all that an undisturbed pass needs to finish |
| FactWorld.CursorNeverPassesUncommitted | service/async/rpc/internal/app/fact_worker.go:179-231 | in every run, every offset up to the cursor is accepted with its Outbox row, as the fact of its own event with its own time, and stays so |
| FactWorld.AtMostOneVersion | service/async/rpc/internal/app/fact_worker.go:310-341 | however often an event is appended or a batch replayed, its key is accepted as one version with one Outbox row |
| FactWorld.PendingBlocksTheCursor | service/async/rpc/internal/app/fact_worker.go:310-341 | while an event is missing or only pending, the cursor is before it |
| FactWorld.EveryWorldIsSafe | service/async/rpc/internal/app/fact_worker.go:179-231 | the invariant of the fact world holds in every world of every run |
| FactWorker.FactWorker.ProcessItem | service/async/rpc/internal/app/fact_worker.go:259-342 | success means the event is accepted, with its Outbox row, under its own key, position and input hash, with its own time, the time DC received it, and the meaning the binder gave it in this call |
| FactWorker.FactWorker.CommitAll | service/async/rpc/internal/app/fact_worker.go:203-221 | the items of a batch are committed in order, one after the other, up to the first that is pending or fails; undisturbed, all that can be are |
| FactWorker.FactWorker.RunOnce | service/async/rpc/internal/app/fact_worker.go:179-252 | at most one acknowledgement, none on a pending item or an empty batch, and only of the batch read; success means the cursor reached its end with every offset up to it delivered; undisturbed, a batch whose items all can be committed is committed and acknowledged |
| FactLaws.FreshBatchCanBeDelivered | service/async/rpc/internal/app/fact_worker.go:179-252 | spelled out: received events in their order, bound and new to the store, meet all that an undisturbed pass needs to deliver them |
| Corpus.ValidateManifest | service/common/retrieval/sparse/sparse.go:212-243 | accepts exactly the manifests with sound distinct inputs, sound distinct chunks, and the declared count of chunks for each input |
| Corpus.ChunkHasItsInput | service/common/retrieval/sparse/sparse.go:212-243 | every chunk of a valid manifest is sound and agrees with one of its inputs in revision, content, kind and original |
| Corpus.ChunkCountsAddUp | service/common/retrieval/sparse/sparse.go:212-243 | the declared chunk counts of a valid manifest add up to the number of its chunks |
| Corpus.EveryChunkListed | service/common/retrieval/sparse/sparse.go:408-410 | as many distinct listed chunks as there are chunks are all of them, so comparing the two counts is enough |
| SparseVectors.Merge | service/common/retrieval/sparse/inverted.go:23-44 | merging the sorted vectors is the inner product by lookup, with the same additions in the same order, for any add and multiply |
| SparseVectors.ValidateVector | service/common/retrieval/sparse/sparse.go:170-191 | accepts exactly the non-empty vectors with increasing indices in range, positive weights, at most the allowed number of them, and the norm the contract asks |
| SparseVectors.Dot | service/common/retrieval/sparse/inverted.go:12-45 | empty and unordered vectors give their errors; otherwise the inner product |
| SparseVectors.NoMeetingIsZero | service/common/retrieval/sparse/inverted.go:23-44 | vectors without a common token have inner product zero, for any add and multiply |
| SparseLaws.ValidVectorSays | service/common/retrieval/sparse/sparse.go:170-191 | a vector is valid exactly if it is sorted, of allowed size and range, and its inner product with itself is not zero, or within 0.0001 of one |
| SparseSearch.AddToken | service/common/retrieval/sparse/inverted.go:55-66 | one posting list adds one query token to exactly the allowed chunks it names |
| SparseSearch.PositiveIsExact | service/common/retrieval/sparse/inverted.go:67-80 | the positive accumulated scores are the positive exact scores, including for chunks no list touches |
| SparseSearch.Search | service/common/retrieval/sparse/inverted.go:51-81 | posting-list search returns exactly the k best allowed chunks with positive inner product, each with that score |
| SparsePostings.Postings | service/common/retrieval/sparse/sparse.go:192-211 | the stored postings list every token once, in order, with the sorted entries of its rows |
| SparsePostings.PostingsUnique | service/common/retrieval/sparse/sparse.go:192-211 | the rows of a shard have one list of postings, so comparing stored with recomputed ones is exact |
| SparsePostings.EntriesInvert | service/common/retrieval/sparse/sparse.go:192-211 | the entries of a token name exactly the rows that have it, each once with its weight |
| SparseIndex.Open | service/common/retrieval/sparse/sparse.go:364-412 | opens exactly the acceptable indexes, whatever the sharding, and then holds their rows and lists that invert them |
| SparseIndex.LoadShard | service/common/retrieval/sparse/sparse.go:377-407 | a shard is taken exactly if it is stored, new, fitting and repeats no chunk; rows, lists and usage then cover it too |
| SparseIndex.ListsGrow | service/common/retrieval/sparse/sparse.go:402-404 | appending a shard's stored lists keeps every list right for all rows so far |
| SparseIndex.EveryChunkHasItsRow | service/common/retrieval/sparse/sparse.go:408-411 | an acceptable index has exactly one row for each manifest chunk |
| SparseLaws.OpenedShardMatches | service/common/retrieval/sparse/sparse.go:377-407 | each shard of an opened index was stored for this very build and model, with the declared chunks in order, sound usage, and every vector valid and under its own hash |
| SparseLaws.UsageIsSound | service/common/retrieval/sparse/sparse.go:404-407 | the usage of an opened index is sound, and no shard's is larger |
| SparseService.BuiltRowsFollowTheManifest | service/common/retrieval/sparse/sparse.go:300-329 | row k of a build is chunk k of the manifest, for every batch size |
| SparseService.Service.BuildBatch | service/common/retrieval/sparse/sparse.go:300-329 | a batch is stored exactly if the encoder's answer fits it, and adds its rows behind those built |
| SparseService.Service.BuildFresh | service/common/retrieval/sparse/sparse.go:273-341 | without a digest collision in the store, a fresh build succeeds exactly if every batch is encoded soundly, and what it stored opens with those rows and usage; in any case what it returns opens, and every batch was encoded |
| SparseService.Service.Resume | service/common/retrieval/sparse/sparse.go:285-297 | resuming succeeds exactly on an index that opens and is the one asked for, and encodes nothing |
| SparseService.Service.Build | service/common/retrieval/sparse/sparse.go:273-341 | refused requests change nothing; otherwise as resuming or, without a digest collision in the store, as a fresh build |
| SparseService.ResumeAfterBuild | service/common/retrieval/sparse/sparse.go:285-297 | resuming from a fresh build gives the same index, zero new usage, and stored usage equal to the original |
| SparseService.ResumeSucceeds | service/common/retrieval/sparse/sparse.go:285-297 | that resume does succeed, whatever else was stored in between |
| SparseLaws.FreshBuildSays | service/common/retrieval/sparse/sparse.go:273-341 | a fresh build stores an index under the request's own header, counts every chunk as encoded, and reports sound usage |
| SparseQuery.Rescore | service/common/retrieval/sparse/sparse.go:485-512 | exact re-scoring accepts every hit of this backend and changes no score |
| SparseQuery.VerifyAnswer | service/common/retrieval/sparse/sparse.go:513-535 | the verify branch never turns this backend down |
| SparseQuery.SearchSnapshot | service/common/retrieval/sparse/sparse.go:450-540 | a query is refused exactly if it does not fit, and otherwise answered by the k best allowed chunks with positive inner product, ranked from 1 |
| SparseLaws.AnswersAreListed | service/common/retrieval/sparse/sparse.go:450-540 | every answer is the chunk of a listed revision with its own positive inner product, by falling score and rising ID |
| SparseLaws.NothingIsLeftOut | service/common/retrieval/sparse/sparse.go:450-540 | every chunk of a listed revision with a positive inner product is answered unless topK better ones are |
| Ranking.TopIsUnique | service/common/retrieval/sparse/inverted.go:67-80 | there is one answer to 'the k best by score descending, ID ascending' |
| Ranking.TopBeatsTheRest | service/common/retrieval/sparse/inverted.go:67-80 | whatever is left out of a full answer is beaten by everything in it |
| Ranking.TopOfSome | service/common/retrieval/multivector/multivector.go:611-643 | if the k best are among some candidates, the k best of those candidates are the k best of all |
| Ranking.CompareBoundary | service/common/retrieval/multivector/multivector.go:687-711 | the comparison with the truth accepts exactly the answers within the boundary |
| Ranking.ExactIsWithinBoundary | service/common/retrieval/multivector/multivector.go:687-711 | the exact answer is within its own boundary, for every tolerance |
| Ranking.WrongAnswersAreRejected | service/common/retrieval/multivector/multivector.go:687-711 | an answer is turned down exactly if it has another length, misses an exact hit clearly above the boundary, or has a score clearly below it |
| Ranking.ZeroToleranceIsExact | service/common/retrieval/multivector/multivector.go:687-711 | without tolerance an accepted answer has as many hits as the exact one, all those above its last score and none below it |
| MaxSimScore.ValidateMatrix | service/common/retrieval/multivector/maxsim.go:15-48 | accepts exactly the matrices of the right shape with a valid row, zero masked rows, and norms as the contract asks |
| MaxSimLaws.ValidMatrixSays | service/common/retrieval/multivector/maxsim.go:15-48 | a matrix is valid exactly if its shape is that of values and mask, some row is valid, masked rows are zero, and the inner product of a valid row with itself is not zero, or within 0.0001 of one |
| MaxSimScore.MaxSim | service/common/retrieval/multivector/maxsim.go:66-103 | the sum (or mean), over valid query rows, of the largest inner product with a valid document row; None exactly for invalid matrices |
| MaxSimScore.BestIsUnique | service/common/retrieval/multivector/maxsim.go:66-103 | what the largest inner product with a valid row is has one answer |
| MaxSimScore.SingleTokenScore | service/common/retrieval/multivector/maxsim.go:66-103 | a query with one valid token scores a document by that token's best row |
| MaxSimLaws.DotWithUnit | service/common/retrieval/multivector/maxsim.go:50-60 | the inner product with the j-th unit row is the j-th entry |
| MaxSimLaws.DotIsSymmetric | service/common/retrieval/multivector/maxsim.go:50-60 | the inner product is symmetric for a commutative multiplication |
| MaxSimLaws.DotIsLinear | service/common/retrieval/multivector/maxsim.go:50-60 | over the reals, the inner product is additive and homogeneous in its second argument |
| MaxSimLaws.DenseIsSparse | service/common/retrieval/multivector/maxsim.go:50-60 | the inner product of two rows is that of the sparse vectors of their non-zero entries |
| MaxSimLaws.MeanOfSum | service/common/retrieval/multivector/maxsim.go:66-103 | under the mean the score is the sum divided by the number of valid query rows |
| MaxSimLaws.ScoresAddUp | service/common/retrieval/multivector/maxsim.go:66-103 | over the reals, the score of two queries one after the other is the sum of their scores |
| TokenIndex.TokenRows | service/common/retrieval/multivector/multivector.go:139-149 | lists the valid rows in row and position order |
| TokenIndex.TokenRowsSay | service/common/retrieval/multivector/multivector.go:139-149 | the list names exactly the valid rows, each once if chunk IDs are distinct |
| TokenIndex.TokensGrow | service/common/retrieval/multivector/multivector.go:505-507 | looking a further shard's token rows up keeps the snapshot's tokens exactly the valid rows of all its matrices |
| TokenIndex.LoadShard | service/common/retrieval/multivector/multivector.go:476-510 | a shard is taken exactly if it is stored, new, fitting and repeats no chunk |
| TokenIndex.Open | service/common/retrieval/multivector/multivector.go:463-515 | opens exactly the acceptable indexes, whatever the sharding, and then holds their matrices and lists their valid rows |
| TokenIndex.EveryChunkHasItsRow | service/common/retrieval/multivector/multivector.go:511-513 | an acceptable index has exactly one matrix for each manifest chunk |
| TokenLaws.OpenedShardMatches | service/common/retrieval/multivector/multivector.go:476-510 | each shard of an opened index was stored for this very build and model, with the declared chunks in order, every matrix valid and under its own hash, and exactly its valid rows listed |
| TokenSearch.CollectBest | service/common/retrieval/multivector/exact.go:24-60 | the best map holds, for each chunk, the best of the rows the query's tokens keep; all allowed rows are observed once per token |
| TokenSearch.ExactSearch | service/common/retrieval/multivector/exact.go:18-72 | the candidates are exactly the chunks with a kept row, ranked by their best kept score |
| TokenSearch.EveryChunkIsCandidate | service/common/retrieval/multivector/exact.go:18-72 | with a budget of all allowed rows every allowed chunk is a candidate |
| TokenQuery.ManyRowsManyChunks | service/common/retrieval/multivector/exact.go:36-60 | n rows with at most M of any chunk name at least n/M chunks |
| TokenQuery.KeptChunkIsBetter | service/common/retrieval/multivector/exact.go:36-60 | for one valid token, a chunk without a kept row is beaten by every chunk that has one |
| TokenQuery.SingleTokenBestAreCandidates | service/common/retrieval/multivector/multivector.go:611-643 | for one valid token a budget of (k-1)*M+1 rows makes each of the k best chunks a candidate |
| TokenQuery.BestAreCandidates | service/common/retrieval/multivector/multivector.go:611-643 | under either sufficient budget each of the k best chunks is a candidate |
| TokenService.ExactTop | service/common/retrieval/multivector/multivector.go:667-686 | the full-corpus truth is the k best allowed chunks by complete late interaction |
| TokenService.SufficientBudgetIsExact | service/common/retrieval/multivector/multivector.go:611-643 | under a sufficient budget the answer over candidates is the full-corpus answer |
| TokenService.SortedCandidates | service/common/retrieval/multivector/multivector.go:631-643 | sorting candidates is sorting their hits |
| TokenService.ExactPasses | service/common/retrieval/multivector/multivector.go:644-657 | an exact answer passes the comparison with the truth |
| TokenService.SearchTokens | service/common/retrieval/multivector/multivector.go:564-657 | every answer is exact over its candidates, each with its backend score; under a sufficient budget it is exact over all allowed chunks; with verification an answer is given exactly if it is within the boundary of the full-corpus truth |
| TokenLaws.AnswersAreListed | service/common/retrieval/multivector/multivector.go:564-657 | every answer is the chunk of a listed revision, as the snapshot holds it |
| TokenLaws.ExactAnswerSays | service/common/retrieval/multivector/multivector.go:564-657 | an exact answer gives every chunk its complete score, and leaves a chunk of a listed revision out only for k better ones |
| Parity.Composite | service/common/retrieval/three_lane_parity/adapter.go:26-44 | gives an ID exactly for non-empty tuples of non-empty segments within the length limit |
| Parity.SegmentOrder | service/common/retrieval/three_lane_parity/adapter.go:26-44 | one encoded segment and what follows: the segments decide unless they are equal |
| Parity.CompositeOrder | service/common/retrieval/three_lane_parity/adapter.go:26-44 | byte order of the encodings is lexicographic order of the tuples |
| Parity.CompositeInjective | service/common/retrieval/three_lane_parity/adapter.go:26-44 | different tuples have different encodings |
| Parity.SameOrder | service/common/retrieval/three_lane_parity/score.go:156-167 | the scorer's order of rows is the lane's order of their composite hits |
| Parity.ReportOrderRanks | service/common/retrieval/three_lane_parity/score.go:131-150 | a report whose neighbours are in order and whose chunks differ is strictly ranked |
| Parity.RankingsAgree | service/common/retrieval/three_lane_parity/score.go:178-241 | a lane that ranks the expected rows by composite ID returns them in report order |
| Parity.EqualScoresAgree | service/common/retrieval/three_lane_parity/score.go:178-241 | equal scores agree under any pattern of ties, without any difference |
| Parity.CompareRanks | service/common/retrieval/three_lane_parity/score.go:218-240 | passes exactly if the keys are the expected ones in order, and reports whether the scorer's own top list agrees |
| Parity.CompareLane | service/common/retrieval/three_lane_parity/score.go:178-241 | accepts exactly if known distinct hits agree row by row within the tolerance and in the report's order; equal scores are always accepted |
| Parity.MapHits | service/common/retrieval/three_lane_parity/adapter.go:279-311 | hits map back to rows exactly if every ID is known |
| Parity.CompareExactLane | service/common/retrieval/three_lane_parity/score.go:178-241 | an exact lane with the report's scores is accepted with zero difference whatever its ties |
| ParityLaws.KeyOfRow | service/common/retrieval/three_lane_parity/score.go:169-176 | a hit on a row's document, revision and chunk is given that row's key, and any other hit none, for IDs without a NUL byte |
| ParityLaws.AgreesWithin | service/common/retrieval/three_lane_parity/score.go:203-214 | a row agrees exactly if the lane's score is within the tolerance on both sides, or a zero row is left out of the sparse lane |
| ParityLaws.LargestDelta | service/common/retrieval/three_lane_parity/score.go:203-214 | the reported difference bounds those of all rows and is one of them |
| ParityLaws.ZeroesCounted | service/common/retrieval/three_lane_parity/score.go:203-214 | the rows with score zero that the sparse lane left out are counted |
| ParityLaws.SameTopSays | service/common/retrieval/three_lane_parity/score.go:226-240 | the scorer's top list agrees exactly if the lane has no fewer keys and the first k of both are the same |
| Manifest.CanonicalJSON | service/common/wholeindex/manifest.go:78-125 | writes the specified bytes: fixed members in fixed order, ID left out |
| Manifest.AppendString | service/common/wholeindex/manifest.go:151-177 | appends the quoted string escaped as in section 7 of RFC 8259 |
| Manifest.BodyReads | service/common/wholeindex/manifest.go:151-177 | unescaping undoes escaping exactly for every byte string, whatever follows |
| Manifest.NumberReads | service/common/wholeindex/manifest.go:109-119 | a decimal number reads back if no digit follows it |
| Manifest.MembersRead | service/common/wholeindex/manifest.go:78-125 | the members of an object read back as their values, none taken for another |
| Manifest.DocsRead | service/common/wholeindex/manifest.go:88-122 | a list of documents reads back in full, up to its closing bracket |
| Manifest.CanonicalReads | service/common/wholeindex/manifest.go:78-125 | a parser for the grammar recovers every field of every document |
| Manifest.CanonicalInjective | service/common/wholeindex/manifest.go:78-125 | two manifests print alike exactly if they differ in nothing but the ID, and no canonical form is a proper prefix of another |
| ManifestText.CanonicalText | service/common/wholeindex/manifest.go:78-125 | the canonical form as text: the named members in their order, documents in theirs with commas between them |
| ManifestText.DocIsText | service/common/wholeindex/manifest.go:92-120 | one document as text: its nine named members in their order |
| ManifestText.LongEscapes | service/common/wholeindex/manifest.go:151-177 | a control character without a short escape is written as six characters, and everything else as it is |
| ManifestText.NumberText | service/common/wholeindex/manifest.go:109-119 | numbers have no leading zero, and a sign only if negative |
| Manifest.Validate | service/common/wholeindex/manifest.go:47-63 | accepts exactly the manifests with documents, each with a sound token count, budget and encoder |
| Manifest.IdIdentifiesContent | service/common/wholeindex/manifest.go:130-133 | two manifests have one ID exactly if they have the same content or the digest collides at their own canonical forms; the stored ID does not matter |
| Manifest.ManifestCell.AssignID | service/common/wholeindex/manifest.go:137-139 | only the ID changes, and the result carries the ID of its own content, for any digest of at least 16 bytes |
| Recency.AfterIsGood | service/common/cache/lru.go:70-124 | every operation keeps one entry per key and at most capacity entries |
| Recency.RunIsGood | service/common/cache/lru.go:70-124 | so does every sequence of operations from empty |
| Recency.RunsNest | service/common/cache/lru.go:70-124 | under common operations the cache of capacity c is, in order, inside that of c+1, which has at most one entry more |
| Recency.Inclusion | service/common/cache/lru.go:70-124 | the same for any two capacities |
| Recency.HitsAreIncluded | service/common/cache/lru.go:70-124 | a hit in the smaller cache is a hit with the same value in the larger |
| RecencyLaws.PresentIfRecent | service/common/cache/lru.go:70-124 | a key last written or found is found again, with its value, exactly as long as fewer than the capacity of other keys have been used since, under any operations on those |
| RecencyLaws.DeletedIsGone | service/common/cache/lru.go:114-124 | a deleted key, or one never written, is not found whatever is done with others |
| Lru.IndexedHas | service/common/cache/lru.go:70-82 | with map and list in bijection, the map has a key exactly if the list does |
| Lru.LRUCache.constructor | service/common/cache/lru.go:56-65 | empty, with capacity at least 1 |
| Lru.LRUCache.Get | service/common/cache/lru.go:70-82 | the value of the recency sequence, and its entry moved to the front |
| Lru.LRUCache.Set | service/common/cache/lru.go:88-109 | the entry at the front, at most one entry evicted, from the back |
| Lru.LRUCache.Delete | service/common/cache/lru.go:114-124 | that key gone from map and list, the others in order |
| Lru.LRUCache.Len | service/common/cache/lru.go:127-134 | the number of entries, at most the capacity |
| Tiered.SetStaysCoherent | service/common/cache/cache.go:111-125 | writing a non-empty string keeps both levels on the values last written |
| Tiered.GetStaysCoherent | service/common/cache/cache.go:78-106 | so does reading |
| Tiered.TieredCache.Get | service/common/cache/cache.go:78-106 | the value last written, whatever was evicted; each call counts as one of L1 hit, L2 hit and miss, which add up to the total |
| Tiered.TieredCache.Set | service/common/cache/cache.go:111-125 | both levels written, the second only with strings |
| Tiered.TieredCache.Delete | service/common/cache/cache.go:128-139 | the key is gone from both levels |
| Switcher.EveryStateIsGood | service/async/rpc/internal/artifact/switcher.go:52-147 | in every run, under any IDs, the current ID is registered and not retained, and retained IDs are distinct and registered |
| Switcher.CurrentIsRegistered | service/async/rpc/internal/artifact/switcher.go:52-147 | if no two manifests loaded in the run differ under one ID, the current and retained manifests are the registered ones themselves |
| Switcher.ClashReplaces | service/async/rpc/internal/artifact/switcher.go:52-91 | any two loaded manifests that do differ under one ID break this: the second replaces the registered first while the first stays current |
| Switcher.ClashIsCollision | service/async/rpc/internal/artifact/switcher.go:52-64 | for content-addressed IDs such a clash is a collision of the digest at the two manifests' own canonical forms |
| Switcher.KeepIsStable | service/async/rpc/internal/artifact/switcher.go:139-147 | filtering keeps order and distinctness |
| Switcher.RetainedByExpiry | service/async/rpc/internal/artifact/switcher.go:71-91 | under a clock that does not go back, the retained list is ordered by expiry |
| Switcher.ExpireRemovesAPrefix | service/async/rpc/internal/artifact/switcher.go:121-135 | so expiring removes a front of the list |
| Switcher.DemotionRetains | service/async/rpc/internal/artifact/switcher.go:71-91 | a demoted manifest is retained for the full period |
| Switcher.RetainedUntilTakenAway | service/async/rpc/internal/artifact/switcher.go:71-135 | and stays through every sequence of operations that neither reactivates it nor expires at or past its time |
| Switcher.TakenAwayAtOnce | service/async/rpc/internal/artifact/switcher.go:71-135 | either of those takes it away at once, a reactivation by making it current |
| Switcher.Switcher.LoadManifest | service/async/rpc/internal/artifact/switcher.go:52-64 | registers exactly valid manifests under their recomputed ID |
| Switcher.Switcher.ActivateManifest | service/async/rpc/internal/artifact/switcher.go:71-91 | succeeds exactly for registered IDs and takes the specified step |
| Switcher.Switcher.DropRetained | service/async/rpc/internal/artifact/switcher.go:139-147 | the in-place filter leaves exactly the others, in order |
| Switcher.Switcher.ExpireRetained | service/async/rpc/internal/artifact/switcher.go:121-135 | the in-place filter leaves exactly the unexpired, in order, and counts the rest |
| Switcher.Switcher.Visible | service/async/rpc/internal/artifact/switcher.go:106-117 | the unexpired retained manifests, in order of demotion |
| Splitter.SplitByTokenBudget | service/common/chunk/article.go:309-371 | the loop computes the specified packing for every budget and overlap |
| Splitter.AddParagraph | service/common/chunk/article.go:333-355 | one paragraph goes into the current chunk if it fits, else into a new one, or in pieces |
| Splitter.SplitLongLine | service/common/chunk/article.go:373-396 | the pieces are the windows of the text; the loop ends |
| Splitter.WindowsTile | service/common/chunk/article.go:373-396 | windows run from start to end, advance by the step, and each but the last is full |
| Splitter.WindowsOverlapExactly | service/common/chunk/article.go:373-396 | neighbours share exactly the requested overlap, and none lies in the one before |
| Splitter.WindowsCover | service/common/chunk/article.go:373-396 | every character is in some window |
| Splitter.PiecesAreWindows | service/common/chunk/article.go:373-396 | the pieces are the text at the windows |
| Splitter.LongPiecesJoin | service/common/chunk/article.go:373-396 | without overlap the pieces join to the text |
| SplitterTheorems.SplitLosesNothing | service/common/chunk/article.go:309-371 | without overlap the chunks hold the characters of all trimmed non-blank paragraphs in order, at most the budget in each |
| SplitterTheorems.PackIsGreedy | service/common/chunk/article.go:309-371 | packing paragraphs within the budget is greedy grouping |
| SplitterTheorems.GreedyIsNeverBehind | service/common/chunk/article.go:309-371 | greedy grouping has no more groups than any grouping, and if as many, its last is no fuller |
| SplitterTheorems.SplitIsMinimal | service/common/chunk/article.go:309-371 | no contiguous grouping within the budget has fewer groups than there are chunks |
| SplitterText.LinesJoin | service/common/chunk/article.go:318-325 | the lines of a text, joined by newlines, are the text |
| SplitterText.LinesAreUnique | service/common/chunk/article.go:318-325 | nothing else without a newline in any part joins to it |
| SplitterText.TrimCuts | service/common/chunk/article.go:318-325 | trimming cuts nothing but white space, and all of it at both ends |
| SplitterText.ParagraphsKeepTheText | service/common/chunk/article.go:318-325 | the paragraphs without white space are the text without white space |
| SplitterText.SplitKeepsTheText | service/common/chunk/article.go:309-371 | without overlap the chunks without white space are the text without white space, in order |
| SplitterText.TailIsTheEnd | service/common/chunk/article.go:398-409 | the carried-over text is the end of the chunk, of that many runes or all of it |
| SplitterText.OverlapCarriesTheEnd | service/common/chunk/article.go:333-355 | with overlap every chunk is, white space aside, the end of the packed chunk before it and then its own text; there are as many as without |
| SplitterText.ChunksAreSmall | service/common/chunk/article.go:309-371 | no chunk has more non-newline runes than the budget, and with overlap than budget and overlap together |
| Codec.QuantizeF32 | service/common/wholeindex/codec.go:19-37 | the array holds the specified block: scale and one signed byte for each element |
| Codec.DequantizeI8 | service/common/wholeindex/codec.go:42-55 | gives values exactly if the length is the dimension |
| Codec.SignedBytesSurvive | service/common/wholeindex/codec.go:33-36 | two's complement is undone both ways |
| Codec.StepError | service/common/wholeindex/codec.go:27-36 | rounding loses at most half a step |
| Codec.RoundTripError | service/common/wholeindex/codec.go:19-55 | every element returns within half a step, which is the largest absolute value/254 when the scale was not clamped |
| Codec.RequantizeIsIdentity | service/common/wholeindex/codec.go:19-119 | quantizing a dequantized block gives the identical block exactly if the largest absolute value is zero or reaches half a step; always when the scale was not clamped |
| Codec.HasCodeIfVisible | service/common/wholeindex/codec.go:19-37 | a block has a non-zero code exactly if its largest element reaches half a step |
| Codec.RequantizeCanFail | service/common/wholeindex/codec.go:19-119 | a concrete vector whose scale does not survive: one element of 1/(4 * 10^39) |
| Codec.QuantizeMulti | service/common/wholeindex/codec.go:57-66 | a matrix of whole rows becomes one block under one scale; anything else none |
| Codec.DequantizeMulti | service/common/wholeindex/codec.go:71-80 | gives values exactly if the length is rows times dimension, for any rows and dimension |
| Impact.EncodeImpact | service/common/wholeindex/sparse.go:40-49 | writes five bytes for each term |
| Impact.ImpactWeight | service/common/wholeindex/sparse.go:24-35 | a weight between 0 and 255 |
| Impact.WeightsKeepOrder | service/common/wholeindex/sparse.go:24-35 | a larger weight never quantizes to a smaller one |
| Impact.WeightIsNearest | service/common/wholeindex/sparse.go:24-35 | between 0 and the largest weight the result is the nearest whole step |
| Impact.DecodeImpact | service/common/wholeindex/sparse.go:53-65 | reads exactly the payloads of whole records |
| Impact.EncodeDecode | service/common/wholeindex/sparse.go:40-65 | decoding undoes encoding on every term list |
| Impact.DecodeEncode | service/common/wholeindex/sparse.go:40-65 | encoding undoes decoding on every payload of whole records |
| Rrf.Fuse | service/common/retrieval/rrf/rrf.go:33-71 | each listed key once, with its total, strictly ranked; nothing exactly if nothing is listed |
| Rrf.FusionIsUnique | service/common/retrieval/rrf/rrf.go:33-71 | given lists have one fusion |
| Rrf.EntryOrderDoesNotMatter | service/common/retrieval/rrf/rrf.go:74-83 | the entries of a list in another order rank the same |
| Rrf.OrderDoesNotMatter | service/common/retrieval/rrf/rrf.go:33-83 | fusion depends neither on the order of the lists nor on that of the entries |
| Rrf.Dominance | service/common/retrieval/rrf/rrf.go:33-71 | a key ahead of another in every list that has the other is fused ahead of it |
| RrfLaws.GainByRank | service/common/retrieval/rrf/rrf.go:33-50 | a list gives a key one over the smoothing constant plus its rank |
| RrfLaws.OneMoreList | service/common/retrieval/rrf/rrf.go:33-50 | a further list adds its gain to a key's total |
| RrfLaws.ListWithoutKey | service/common/retrieval/rrf/rrf.go:33-50 | a list without the key adds nothing |
| RrfLaws.RankedIsNormalized | service/common/retrieval/rrf/rrf.go:74-83 | a list in ranking order is taken as it is |
| Coverage.EventIndexJSONL | service/common/sourcecoverage/contract.go:130-148 | accepts exactly the complete prefixes 1 to W of one producer |
| CoverageLaws.CompleteSays | service/common/sourcecoverage/contract.go:105-148 | a complete prefix field by field: offset i in canonical decimal at place i, one producer, no part empty, and two equal hashes |
| CoverageLaws.HexIsHash | service/common/sourcecoverage/contract.go:100-108 | a hash is exactly what 32 bytes are written as in lower-case hexadecimal |
| Coverage.JsonlReads | service/common/sourcecoverage/contract.go:130-148 | splitting the written index at its newlines gives the rows back, one newline behind each |
| Coverage.BatchEvidence | service/common/sourcecoverage/contract.go:175-199 | accepts exactly consecutive windows over 1 to W |
| Coverage.WindowsCover | service/common/sourcecoverage/contract.go:175-199 | every offset is in some accepted window |
| Coverage.WindowsAreDisjoint | service/common/sourcecoverage/contract.go:175-199 | and in no other |
| Coverage.BatchHash | service/common/sourcecoverage/contract.go:204-228 | gives a hash exactly for up to 128 valid consecutive rows |
| Coverage.VerifyBatchEvidence | service/common/sourcecoverage/contract.go:233-249 | accepts exactly complete prefixes with windows whose hashes are those of their rows |
| Coverage.EvidenceBindsTheIndex | service/common/sourcecoverage/contract.go:233-249 | of the complete prefixes of a producer, exactly those with the same event at every offset verify against the evidence of one of them, unless the digest collides in one of these windows; another length never verifies |
| Coverage.SameItemsVerify | service/common/sourcecoverage/contract.go:233-249 | evidence of one index verifies for every index with the same events, with no assumption on the digest |
| Coverage.AnyWindowingVerifies | service/common/sourcecoverage/contract.go:204-249 | whatever window sizes up to 128 a publisher uses, its evidence verifies against the same index |
| Coverage.SubjectIndexJSONL | service/common/sourcecoverage/contract.go:152-171 | a subject's slice, its digest and its count, exactly for valid subjects |
| Coverage.SliceCountsAddUp | service/common/sourcecoverage/contract.go:152-171 | the slices of all subjects count every row once |
| Coverage.SlicesMergeToTheIndex | service/common/sourcecoverage/contract.go:152-171 | merging the slices by offset gives the index back |
| Coverage.DecimalOfOffset | service/common/sourcecoverage/contract.go:87-90 | a canonical decimal offset reads back |
| CompileStages.Tokenize | service/async/rpc/internal/compile/executor.go:100-140 | cuts the text as specified, with a run settled by its first character |
| CompileStages.TokensAround | service/async/rpc/internal/compile/executor.go:100-140 | the texts on both sides of any separator are tokenized on their own |
| CompileStages.TokensOfWord | service/async/rpc/internal/compile/executor.go:100-140 | a run of word characters is settled whole |
| CompileLaws.AsciiRun | service/async/rpc/internal/compile/executor.go:100-140 | a run that starts with an ASCII character is one token, in lower case |
| CompileLaws.PairsOfRun | service/async/rpc/internal/compile/executor.go:100-140 | any other run gives its neighbouring pairs, in order and as they are |
| CompileStages.Curate | service/async/rpc/internal/compile/executor.go:78-96 | points exist exactly if some summary has a token, and are its most frequent tokens in order, at most eight |
| CompileStages.PointsAreBest | service/async/rpc/internal/compile/executor.go:148-167 | points are distinct tokens and none is less frequent than one left out |
| CompileLaws.PointsAreRanked | service/async/rpc/internal/compile/executor.go:148-167 | points come by falling frequency and then in string order, and a token is left out only behind eight such points |
| CompileStages.Outline | service/async/rpc/internal/compile/executor.go:183-213 | deals 0 to n-1 into min(5,n) consecutive non-empty chapters whose sizes differ by at most one |
| CompileStages.WriteArticle | service/async/rpc/internal/compile/executor.go:229-274 | accepts exactly outlines whose span is strictly increasing within the points, for trees of any depth |
| CompileStages.Polish | service/async/rpc/internal/compile/executor.go:291-312 | fails exactly without sections and else only closes the last one with the declaration |
| CompileStages.DealtOutlineFits | service/async/rpc/internal/compile/stage.go:223-251 | a dealt outline is never rejected by the writer |
| CompileStages.CitedEvenly | service/async/rpc/internal/compile/executor.go:229-274 | rotating markers cite every source equally often up to one |
| CompileLaws.CitationOfSource | service/async/rpc/internal/compile/executor.go:229-274 | citation j, counted from 1, names the document and revision of source j |
| CompileClaims.SplitSentences | service/async/rpc/internal/compile/claim.go:104-126 | the sentences as specified, trimmed, none blank |
| CompileClaims.SentencesOfLines | service/async/rpc/internal/compile/claim.go:104-126 | the sentences of joined clean lines are those lines |
| CompileClaims.ExtractClaims | service/async/rpc/internal/compile/claim.go:82-100 | one claim for each sentence, with its first marker |
| CompileClaims.MarkerReads | service/async/rpc/internal/compile/claim.go:82-100 | a written marker below 10000 reads back as its number |
| CompileLaws.MarkerIsTheFirst | service/async/rpc/internal/compile/claim.go:82-100 | the marker of a sentence is the first place where one stands, and no earlier place has one |
| CompileLaws.NoMarkerAtAll | service/async/rpc/internal/compile/claim.go:82-100 | a sentence has none exactly if none stands anywhere in it |
| CompileLaws.ClaimOfMarked | service/async/rpc/internal/compile/claim.go:82-100 | a claim has the source of its marker as evidence exactly if there is that source |
| CompileLaws.ClaimOfUnmarked | service/async/rpc/internal/compile/claim.go:82-100 | without a marker there is no evidence |
| CompileClaims.UnevidencedClaims | service/async/rpc/internal/compile/claim.go:131-139 | the claims without evidence, in order |
| CompileClaims.DraftClaims | service/async/rpc/internal/compile/executor.go:229-274 | the sections of a flat outline claim exactly its points in order, each with the source of its marker as evidence |
| CompileClaims.PolishAddsOneClaim | service/async/rpc/internal/compile/executor.go:291-312 | polishing adds exactly one claim, the last: the declaration |
| CompileClaims.OneOpenClaim | service/async/rpc/internal/compile/claim.go:131-139 | of a finished article's claims only the declaration is without evidence |
| CompileClaims.SourcesCitedEvenly | service/async/rpc/internal/compile/executor.go:229-274 | a finished article's claims cite every source equally often up to one |
| CompileClaims.Compile | service/async/rpc/internal/compile/executor.go:78-312 | if any summary has a token no stage fails, for any number of sources, and the article claims each point once in order, then the declaration |

## Left out

- Index worker: a call that the store refuses and one whose reply is lost give the same error here; the code keeps the conflict code of a refusal, which changes only the reported failure code.
- Epochs, versions, offsets and counters are unbounded integers; their 64-bit limits are not modelled.
- Progress is stated for undisturbed passes only. For a build that the store still holds as BUILDING it is shown by a run of the protocol (`EveryPreparedBuildCanBeDelivered`) and not by one call, as the runtime commits the result while the call waits.
- Wiki compile: the revision that an acceptance names appears by RTW's own move; an undisturbed completion finds it there already.
- Wiki worker: the agreement of candidate, revision and source references, and the canonical bytes of the result manifest, are parameters; the model session that produces a candidate is one arbitrary outcome.
- The runtime behind an index build: its receipt is arbitrary input, and nothing about it is trusted.
- Poll loops, outcome names, telemetry, logging, configuration and handlers.
- The dense lane and the prepare worker, which have the shape of the modelled lane and worker.
- Milvus, object store, Redis, Kafka, Postgres and HTTP clients: network errors and contexts appear as missing answers, missing objects or not at all.
- Floating point: rounding, NaN, infinities and the finiteness checks; lanes use arbitrary operations on reals, the codec and rank fusion exact reals.
- Token-row lane: Build and resume, which have the shape of the sparse lane; usage totals of a snapshot; the cost counters other than observed rows.
- SparseService.Service.Build: which rows a fresh build holds is promised only while no two different objects put into the store have one digest; after such a collision only that the result opens and that every batch was encoded.
- VerifyAndProbe of both lanes, which runs opened snapshots over fixed probes.
- Codec: the header is a real scale and not its four bytes, so a payload shorter than its header is not modelled; RoundTripMaxErr, whose bound is `Codec.RoundTripError`.
- SHA-256 and base64 themselves, and the canonical JSON library.
- Tiered.TieredCache.Get: the value last written is promised only while non-empty strings were written, as empty strings read as misses of the second level and other values never reach it; store errors and expiry are not modelled.
- HitRate, the prompt cache, and the mutexes of cache and switcher.
- Lru: the library's doubly linked list is the sequence of its elements, so the links between list elements are not modelled.
- Switcher: copies handed out and taken in are values; aliasing between them is not modelled.
- Splitter: invalid UTF-8.
- Coverage: formats of single fields stand behind one flag of a row; the global and subject receipt hashes.
- Parity: metadata checks of the scorer report, and the run over frozen files.
- Compile: the orchestration over stages, perspectives, and the stages backed by a language model.
