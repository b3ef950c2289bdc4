# SemBlend vLLM connector: a verified model

The connector lends the KV cache of finished requests (donors) to later prompts. A donor's
prompt is captured chunk by chunk and layer by layer, written by a background thread to a
bounded store, and made discoverable by one record. A later prompt is aligned against donors,
a block-aligned span of it is planned, and the worker copies the donors' cells into the
request's paged cache, turning each key to its new position. Blocks filled this way are kept
out of the engine's own exact prefix cache.

This project models that logic in Dafny 4.11 and proves what it is for. `dafny verify
dfyconfig.toml` checks all of it.

| module | what it models |
|---|---|
| `Blocks`, `StableSort`, `TextOrder`, `LastWord` | block arithmetic; Python's stable sort; its order of strings; what holds since some event |
| `SemanticSpan` | span alignment, the greedy multi-donor chain, trimming |
| `Segments` | alignment maps grouped into contiguous runs |
| `Rope` | rotary positions as exact integer powers of unit pairs over the reals |
| `PagedKv` | slot mapping, and the three paged tensor layouts written in place |
| `LoadPlan` | the match hook's decisions, for all three materialising modes and mid-prefill |
| `LoadRun` | allocation, one load per piece, the worker's layer loop |
| `SegmentedPrefill` | compute limits alternating with mid-prefill loads |
| `CaptureSchedule` | which prefix the scheduler role tells the worker to store, step by step |
| `CaptureNotes` | what the finish hook reads about a capture |
| `CapturePipeline` | forward thread, writer thread, store, eviction and publication |
| `CaptureHandover` | the scheduler role's stores as the worker's saves |
| `CaptureHonesty` | which records are backed, over whole runs |
| `CaptureRecency` | which donor the memory tier's cap takes, over whole runs |
| `CaptureCleanup` | failure reports, and what a finished request leaves behind |
| `CaptureFaults` | runs in which a donor comes to harm |
| `CaptureWriter` | the bounded queue with join accounting, a sentinel and a deadline close |
| `FillTracking` | decontaminating the prefix cache, and the two-arm ledger |
| `DeferredRegistration` | holding a finished donor until its record appears |
| `DonorReuse` | the pipeline joined to planning and loading |

Code that changes fields in place is modelled by classes and loops (`PagedLayer`, `Planner`,
`LoadQueue`, `Worker`, `CaptureScheduler`, `CaptureWorker`, `Writer`, `FillTracker`,
`DonorRegistry`), each proved equal to a specification function; the theorems are about those
functions, over every run of them.

## Setting

What the model takes from the engine and the configuration:

- one KV-cache group, page size equal to block size; from a load's window on a request's
  blocks are its own, each once in its table, while null blocks before it may repeat;
- a request id names one capture, and a finished request sends no more stores, so a request
  id stands for its storage key;
- an engine step saves every layer of every store it carries and then waits for the save;
  a finish hook follows, it does not interleave with saves;
- the cells a forward pass has filled hold the KV of the prompt's own positions (`Computed`);
- a layer write that fails leaves the previous copy in the memory tier, and on disk when it
  fails before its file is open; when it fails later the file is truncated, and what is in it
  cannot be read;
- token floors are at least 1 (`Sane`); segment positions are non-negative where a theorem
  needs it (`NonNegative`);
- the pool drops a block's hash when it reallocates the block, hashes a block for the request
  that holds it and at most once per admission, and does not reallocate the blocks of a
  running request's tracked table.

Clocks, I/O and the provider enter as parameters or as nondeterministic actions: a write ends
in one of three ways, a retraction or an eviction may fail, a timed put may find no room, a
record may be seen or not by each hook.

## Where the code falls short of the promise

The code is modelled as it is. Where a promise fails, a lemma names the exact condition and,
where one input shows it, that input:

- The finish hook drops a capture that is still open and queues no finalize for it, and on the
  engine it runs before the id is reported finished. A capture has its one closure exactly
  when no hook met it open (`CaptureRunIsOrdered`); a prompt aborted after its first chunk has
  none (`AbortedCaptureIsNeverClosed`). Only the worker's own finish step can still publish it
  (`FinishIsTakenUp`).
- An eviction whose `os.remove` fails leaves the evicted donor's record behind
  (`FailedRetractionLeavesAStaleRecord`). A record is stale exactly from such an eviction until
  the donor is evicted or published again (`StaleIffLastRetractionFailed`).
- A write to disk that fails part-way truncates a layer the donor may have published
  (`TornWriteBreaksARecord`), exactly until the layer lands again (`TornIffLastWriteTore`).
  `RecordsAreHonest` says of every record of every run exactly when it is backed in full.
- A span load over a donor that is short in some layers writes the others and reports no
  failure (`ShortLayerIsSkippedQuietly`); the pipeline can leave such a donor behind
  (`ShortDonorIsReachable`). The load fails exactly when a layer is gone or none holds the
  window, so it is partial and quiet exactly when every layer is there, some hold the window
  and some do not (`SpanLoadFailsIffGoneOrNowhereWhole`).
- A close that gives up while the writer thread waits for a job leaves it waiting for ever
  (`DeadlineCanStrandTheThread`), exactly when nothing is queued and no submit is on its way
  (`AbandonedThreadStopsIffNotStarved`).
- A failing eviction splits the two arms' ledgers until a later pass counts what it missed
  (`FailedPassSplitsTheLedgers`, `ArmsKeepOneLedger`).
- The exact-prefix path sizes its load from the provider's answer and never from the donor's
  record (`ExactPrefixWindow`, `ExactPrefixCanOutrunItsDonor`).
- `get_prefill_compute_limit` promises a position from which the segment floor can be cleared;
  a floor that is not a multiple of the block size can be advertised and then declined
  (`FloorServedIffBlockMultiple`).
- A K/V tensor laid out blocks first with exactly two blocks is addressed as K/V-first
  (`LayoutIsRead`).
- A finish deferred under an id that is still held drops the held donor without an outcome
  (`LostIffIdReusedWhileHeld`).
- A close from a second thread, between a submit's check and its put, can strand that job
  (`ForeignCloseStrandsAJob`): exactly when the put comes after close has put its sentinel or
  finished handing the queue back, and the thread is not still waiting for it
  (`PutStrandsIffLate`). Every other job is settled (`CloseStrandsOnlyLatePuts`).
- `CaptureWriter.join` is documented to return once every job has been written. On an open
  writer it returns with every job settled, and all are written exactly when no write failed
  (`JoinMeansWrittenIffNothingFailed`, `JoinCanLeaveAJobUnwritten`); on a closed one, as the
  same document says, it does not wait.

## Model

| member | source | states |
|---|---|---|
| `SemanticSpan.BlockAlignSpans` | src/semblend_vllm_connector/semantic_span.py:27-58 | the loop over sorted runs computes the span plan: each run cut to its block-aligned interior past the cursor, dropped when shorter than the floor |
| `SemanticSpan.AlignedSpansAreSound` | src/semblend_vllm_connector/semantic_span.py:27-58 | the plan is sorted, disjoint, block-aligned, long enough, and every span is the whole aligned interior of a raw run, at that run's donor-target delta |
| `SemanticSpan.AlignedSpansAreComplete` | src/semblend_vllm_connector/semantic_span.py:27-58 | a raw run whose aligned interior is long enough is served by it, unless it starts below zero or a span of an earlier-starting run reaches past its first block edge |
| `SemanticSpan.FindBest` | src/semblend_vllm_connector/semantic_span.py:99-116 | the scan for the next piece returns a covering run of maximal end, first among equals, and nothing exactly when the position is uncovered |
| `SemanticSpan.ChainAtBoundary` | src/semblend_vllm_connector/semantic_span.py:88-126 | the greedy loop terminates and returns the chain from the aligned boundary cut back to a whole number of blocks |
| `SemanticSpan.Trim` | src/semblend_vllm_connector/semantic_span.py:129-136 | cuts a list of pieces to what lies before an end, shortening at most the piece that crosses it |
| `SemanticSpan.ReachIsFirstGap` | src/semblend_vllm_connector/semantic_span.py:88-126 | before trimming the chain ends at the first position from the aligned boundary that no run covers |
| `SemanticSpan.NoChainReachesFurther` | src/semblend_vllm_connector/semantic_span.py:88-126 | no back-to-back chain of pieces drawn from the runs goes past that position |
| `SemanticSpan.ChainTiles` | src/semblend_vllm_connector/semantic_span.py:88-136 | the trimmed chain covers its aligned window with no gap or overlap, and each piece is cut from one run at that run's delta |
| `SemanticSpan.ChainIsShortest` | src/semblend_vllm_connector/semantic_span.py:88-126 | after trimming no chain to the same end from the same runs has fewer pieces |
| `SemanticSpan.ChainIsLongest` | src/semblend_vllm_connector/semantic_span.py:88-136 | no chain of the runs that ends on a block edge goes past the end of the trimmed chain |
| `SemanticSpan.ChainServesAtLeastSpan` | src/semblend_vllm_connector/semantic_span.py:27-136 | on the same runs and boundary the chain never serves fewer tokens than span alignment followed by the boundary supply |
| `Segments.FromPositionMap` | src/semblend_vllm_connector/providers/semblend.py:16-48 | a position map becomes runs that expand to exactly its pairs and no two of which could be merged; none exactly for an absent, empty or ragged map |
| `Segments.FromMultiDonorMap` | src/semblend_vllm_connector/providers/semblend.py:51-118 | a multi-donor map becomes a maximal run encoding of exactly the served pairs; none exactly when nothing is served |
| `Segments.ServedIsExact` | src/semblend_vllm_connector/providers/semblend.py:76-109 | the served pairs are the token-identical ones, each as often as it occurs, by ascending target, and those at one target in the map's own order |
| `Segments.MaximalIsCanonical` | src/semblend_vllm_connector/providers/semblend.py:35-118 | two maximal encodings of the same pairs are equal, so the builders' answer is the only one |
| `Rope.RerotateMovesKeys` | src/semblend_vllm_connector/semantic_span.py:139-181 | re-rotating keys cached from donor_start gives, position by position, the keys for target_start, for every frequency and sign of the delta; what a rotation is on columns, `PositionsTurn` says |
| `Rope.PositionsTurn` | src/semblend_vllm_connector/semantic_span.py:151-181 | on columns, without naming the rotation: n positions turn the two halves of each frequency's pair by the n-th power of its (cos, sin) |
| `Rope.OnePositionTurns` | src/semblend_vllm_connector/semantic_span.py:176-180 | one position turns them by (cos, sin) itself: x1 * c - x2 * s and x2 * c + x1 * s |
| `Rope.RerotateUndoes` | src/semblend_vllm_connector/semantic_span.py:151-181 | moving a window and moving it back restores every cached key |
| `Rope.PowerAdds` | src/semblend_vllm_connector/semantic_span.py:139-181 | rotations by m and n positions compose to one by m + n, for negative positions too |
| `PagedKv.RefusesExactlyShortTables` | src/semblend_vllm_connector/connector.py:1025-1076 | for a positive count the slot mapping is refused exactly when there is not one block table or it does not cover the window |
| `PagedKv.MapsPointwise` | src/semblend_vllm_connector/connector.py:1025-1076 | otherwise it lists, in order, table[p / bs] * bs + p % bs for every position p of the window |
| `PagedKv.MappingIsInjective` | src/semblend_vllm_connector/connector.py:1025-1076 | distinct blocks in the window give distinct slots, whatever the rest of the table repeats |
| `PagedKv.OwnSlotIsNobodyElses` | src/semblend_vllm_connector/connector.py:1025-1076 | a slot of a block that is the request's own from the window on is the slot of no other position of its table, null blocks before the window repeated or not |
| `PagedKv.DestinationsAreTheSlotsBlocks` | src/semblend_vllm_connector/connector.py:1011-1018 | the blocks handed back for recompute are exactly the blocks of the slots the load would write |
| `PagedKv.DestinationsHoldTheWindow` | src/semblend_vllm_connector/connector.py:1011-1018 | so far as the table goes they are the blocks some position of the window lies in, covered window or not |
| `PagedKv.PagedLayer.ShapeIsAccountedFor` | src/semblend_vllm_connector/connector.py:1230-1309 | under each layout blocks, block size, heads and head width account for every dimension of the tensor |
| `PagedKv.PagedLayer.Inject` | src/semblend_vllm_connector/connector.py:1230-1268 | in place, for each of the three layouts, the mapped slots get the given rows and no other cell of the tensor changes |
| `PagedKv.PagedLayer.Extract` | src/semblend_vllm_connector/connector.py:1270-1309 | gathers the rows of the given slots under each layout |
| `PagedKv.WritesLand` | src/semblend_vllm_connector/connector.py:1230-1268 | over duplicate-free slots each written row is found at its slot and every other cell is as before |
| `PagedKv.ReadsBack` | src/semblend_vllm_connector/connector.py:1230-1309 | extract after inject returns the injected rows |
| `PagedKv.LayoutIsRead` | src/semblend_vllm_connector/connector.py:1230-1309 | a tensor built in a layout is addressed in that layout, except a blocks-first one of two blocks, which is taken for K/V-first |
| `LoadPlan.Planner.GetNumNewMatchedTokens` | src/semblend_vllm_connector/connector.py:1403-2069 | the match hook: past the gates, each stated from the inputs, it advertises the largest number of tokens that may be served and records the plan for it; 0 and no plan when none may; the lookup is memoised |
| `LoadPlan.Planner.GetNumNewMatchedTokensMidPrefill` | src/semblend_vllm_connector/connector.py:2096-2150 | the running-prefill hook plans from the memoised lookup, at least the floor, and records what it returns |
| `LoadPlan.LoadPromise` | src/semblend_vllm_connector/connector.py:1710-2043 | every positive count is whole blocks, tiles [B, B + N), stays below the prompt's end and clears the span floor; the plan is attributed to the lookup's donors, segments and offsets; request-only windows, and span windows of segments at non-negative positions, draw on published donor tokens only |
| `LoadPlan.DecisionServesMost` | src/semblend_vllm_connector/connector.py:1710-2043 | in every mode the decided count may be served and nothing larger may, and a decision declines only when nothing may: from the inputs, whole blocks that leave a token to compute, inside floor, budget and supply (one aligned span, every position of several donors' segments, the agreeing prefix, or the matched blocks) |
| `LoadPlan.ServedTokensAgree` | src/semblend_vllm_connector/providers/semblend.py:51-118 | when the segments stand for token-identical positions, every position a span plan serves holds its donor's own token |
| `LoadPlan.GatedUnlessWorthAsking` | src/semblend_vllm_connector/connector.py:1429-1555 | the exits above the lookup let a request through exactly when its prompt is long enough, less than the configured share of it is computed, the boundary clears the floor and a span still fits |
| `LoadPlan.ShortTailServesNothing` | src/semblend_vllm_connector/connector.py:1522-1560 | behind the last of those exits no lookup could have ended in a load, so it declines nothing that could be served |
| `LoadPlan.MidPrefillPromise` | src/semblend_vllm_connector/connector.py:2096-2150 | the same promise and attribution for a load in the middle of a prefill, with its own floor |
| `LoadPlan.MidPrefillServesMost` | src/semblend_vllm_connector/connector.py:2096-2150 | a running prefill's load is the largest that may be served from its position, and there is none only when nothing may |
| `LoadPlan.ChainPromise` | src/semblend_vllm_connector/connector.py:2175-2266 | a chain plan exists exactly when the chain, cut to the budget and the headroom, clears the floor |
| `LoadPlan.RequestOnlyIsIdentical` | src/semblend_vllm_connector/connector.py:1876-1924 | under the strict policy a request-only load covers only a prefix on which donor and prompt tokens agree |
| `LoadPlan.ExactPrefixWindow` | src/semblend_vllm_connector/connector.py:1969-2043 | from an aligned boundary with room in the budget the exact-prefix window is inside the donor's published length exactly when the servable end is; in general exactly when that end, cut to the budget, is; the path never checks it |
| `LoadPlan.VouchedIsPublished` | src/semblend_vllm_connector/connector.py:1710-2043 | segments at non-negative positions, or an exact match ending inside the record, put every window of the decided plan inside its donor's published length; on the exact-prefix path only then |
| `LoadPlan.ExactPrefixCanOutrunItsDonor` | src/semblend_vllm_connector/connector.py:1969-2043 | a concrete exact-prefix answer that advertises tokens no record vouches for |
| `LoadRun.LoadQueue.UpdateStateAfterAlloc` | src/semblend_vllm_connector/connector.py:2580-2683 | the allocation hook retires the plan in every case, and turns it into a pending load exactly when tokens were credited, a plan was there and blocks were handed over |
| `LoadRun.LoadQueue.BuildLoads` | src/semblend_vllm_connector/connector.py:3043-3087 | the step hook ships the loads of every pending entry, entry by entry in order and nothing else, and forgets what was pending |
| `LoadRun.Worker.StartLoadKv` | src/semblend_vllm_connector/connector.py:3255-3475 | the loop over loads and layers equals the run of the loads: a span failure stops the step, a missing donor of another kind hands its blocks back |
| `LoadRun.LoadsFollowPlan` | src/semblend_vllm_connector/connector.py:3043-3087 | the emitted loads are the recorded plan's pieces, in order, under the pending request's name and block tables |
| `LoadRun.EveryPendingLoadShips` | src/semblend_vllm_connector/connector.py:3043-3087 | a step's loads split, in order, into the own loads of each pending request |
| `LoadRun.PendingKeepsPlaces` | src/semblend_vllm_connector/connector.py:2640-2683 | a request allocated again before the step keeps its place among the pending, with its newest load |
| `LoadRun.PlanIsServedExactly` | src/semblend_vllm_connector/connector.py:3255-3475 | a promised plan over stored donors is served without failure in exactly the slots of [B, B + N), each position from its donor position; positions before B, other requests' cells and other layers keep their cells |
| `LoadRun.GoneDonorIsReported` | src/semblend_vllm_connector/connector.py:3340-3444 | a plan with a donor that has lost a layer when its loads run never passes for served by a span, which fails loudly; any other load of a donor that is gone writes nothing and hands back exactly the blocks its window lies in |
| `LoadRun.SpanLoadWritesWhereWindowsAreWhole` | src/semblend_vllm_connector/connector.py:3331-3430 | a span load that reports no failure wrote some layer; each layer is written exactly when the donor holds the whole window in it, and is left as it was otherwise |
| `LoadRun.SpanLoadFailsIffGoneOrNowhereWhole` | src/semblend_vllm_connector/connector.py:3331-3430 | from the inputs: a span load fails exactly when a layer of its donor is gone or no layer holds the whole window, and leaves layers unwritten without failing exactly when every layer is there and some hold it and some do not |
| `LoadRun.CopyLandsWholeOrIsReported` | src/semblend_vllm_connector/connector.py:3331-3444 | a load of another kind lands in every layer when the donor holds the window in every layer; otherwise it fails, or a layer is gone and the window's blocks are handed back |
| `LoadRun.ShortLayerIsSkippedQuietly` | src/semblend_vllm_connector/connector.py:3355-3430 | a concrete span load over a donor short in its second layer, which reports no failure and leaves that layer unwritten |
| `LoadRun.ServedKeyIsInPlace` | src/semblend_vllm_connector/connector.py:3205-3238 | a served position holds the key its donor's raw key has at that position, and the donor's value |
| `SegmentedPrefill.GetPrefillComputeLimit` | src/semblend_vllm_connector/connector.py:2152-2173 | the limit is the distance to the nearest reusable edge, none when there is no such edge |
| `SegmentedPrefill.LimitIsNearest` | src/semblend_vllm_connector/connector.py:2071-2173 | from the inputs: the limit is the smallest block edge ahead that is a segment's first and from which that segment serves the floor's worth of published tokens |
| `SegmentedPrefill.WalkAdvances` | src/semblend_vllm_connector/connector.py:2071-2173 | alternating limits and mid-prefill loads terminates; limits strictly advance, loads are disjoint, ordered, whole blocks, at least the floor and inside the prompt |
| `SegmentedPrefill.AlignedFloorIsServed` | src/semblend_vllm_connector/connector.py:2096-2173 | with a floor of whole blocks that fits the cacheable prefix, the load at a limit is at least the floor |
| `SegmentedPrefill.FloorServedIffBlockMultiple` | src/semblend_vllm_connector/connector.py:2096-2173 | that holds at every limit exactly when the configured floor is a multiple of the block size |
| `CaptureSchedule.CaptureScheduler.AdvanceCapture` | src/semblend_vllm_connector/connector.py:2987-3041 | one advance of a capture: new state, skip reason and store, if any |
| `CaptureSchedule.CaptureScheduler.BuildStoreMetadata` | src/semblend_vllm_connector/connector.py:2723-2882 | one step: finished requests close their captures, new requests open them, running ones extend or close theirs, and the stores come out in that order |
| `CaptureSchedule.CaptureScheduler.RequestFinishes` | src/semblend_vllm_connector/connector.py:4188-4219 | the finish hook drops the request's capture, its start mark, its skip reason and its boundaries, and queues nothing |
| `CaptureSchedule.EndIsLargestStorable` | src/semblend_vllm_connector/connector.py:3001-3016 | the end aimed at is the largest block multiple that the cacheable prefix, the table and the forward pass all cover |
| `CaptureSchedule.CaptureRunIsOrdered` | src/semblend_vllm_connector/connector.py:2743-3041 | over every run, finish hooks in any order included, one capture's ends strictly increase, are block multiples within the prefix, the engine's own table and what the engine says it has computed, and a store is final exactly at the prefix with none after it; the capture is open or was closed by exactly one of a final store, an abandoned row or a queued finalize, exactly when no finish hook met it open, and by none of them otherwise |
| `CaptureSchedule.HookFirstLeavesNothingToFinalize` | src/semblend_vllm_connector/connector.py:2726-2742 | a finish hook that runs before its request reaches the finished ids leaves the step loop nothing to queue |
| `CaptureSchedule.AbortedCaptureIsNeverClosed` | src/semblend_vllm_connector/connector.py:4188-4219 | a concrete run, a prompt aborted after its first chunk: one non-final store, and the scheduler role never closes the capture |
| `CaptureSchedule.RowCapturesAllItMay` | src/semblend_vllm_connector/connector.py:2864-2881 | after a request's row in a step its capture reaches everything that the prompt, the engine's table and what the engine has computed allow |
| `CaptureSchedule.OpenedUnlessTurnedAway` | src/semblend_vllm_connector/connector.py:2744-2822 | over every run a capture is opened exactly when no gate turns it away, and otherwise the first gate that does is what is noted: prompt length, a committed load not yet spent, policy, block ids, less than one storable block |
| `CaptureSchedule.AbandonedIffLoadedWhileOpen` | src/semblend_vllm_connector/connector.py:2838-2848 | over every run a capture is abandoned exactly when a load was committed for its request while it was open and such requests are not captured |
| `CaptureNotes.KeptIffStored` | src/semblend_vllm_connector/connector.py:3022-3027 | over every run a namespace is kept for the finish hook exactly when a store was emitted for the request since it was last over |
| `CaptureNotes.KeptIsTheCapturesOwn` | src/semblend_vllm_connector/connector.py:3022-3027 | and it is the capture's own |
| `CaptureNotes.SkippedIffLastWord` | src/semblend_vllm_connector/connector.py:2700-2741 | over every run a skip reason is in force exactly when the capture was turned away and since then no store was emitted for the request and it was not over |
| `CaptureSchedule.StepIsARun` | src/semblend_vllm_connector/connector.py:2723-2882 | a step of the code is a run of the events the theorems speak of, and the stores it returns are the ones the traces gain, each in its own request's and in order |
| `CaptureHandover.EmittedStoreMayBeSaved` | src/semblend_vllm_connector/connector.py:2987-3577 | every store emitted over any run meets what the worker's save asks, once the forward pass it was planned for has filled its slots |
| `CaptureHandover.EmittedStoreExtendsCapture` | src/semblend_vllm_connector/connector.py:2987-3577 | saved on a layer that got no further than the store before it, an emitted store queues exactly the one-shot capture up to its own end |
| `CapturePipeline.CaptureWorker.CaptureLayer` | src/semblend_vllm_connector/connector.py:3518-3577 | one layer of one store: start at the layer's progress, append to the staged or stored copy or restart from 0, stage, queue and record the new progress |
| `CapturePipeline.CaptureWorker.CopyOfLayer` | src/semblend_vllm_connector/connector.py:3711-3747 | the staged copy, else the stored one, none after a failed write |
| `CapturePipeline.CaptureWorker.Finalize` | src/semblend_vllm_connector/connector.py:3905-3927 | a donor is marked for publication unless a write failed, nothing was captured, or its shortest layer is what was last published |
| `CapturePipeline.CaptureWorker.AfterFirstJoin` | src/semblend_vllm_connector/connector.py:3964-3997 | once the first join is over the finishing donors are marked too, in whatever order, the writer's reports are taken in, and the donors marked are up for submission |
| `CapturePipeline.CaptureWorker.SubmitPendingFinalizes` | src/semblend_vllm_connector/connector.py:3929-3962 | the marked donors are visited once each in sorted order; each whole, non-failed one is marked finalized at its shortest layer and gets one record job |
| `TextOrder.SortedAscends` | src/semblend_vllm_connector/connector.py:3936-3938 | the sorted order of a set of ids: each comes before those after it and none is repeated |
| `TextOrder.BeforeIsLexicographic` | src/semblend_vllm_connector/connector.py:3936-3938 | the order meant: where two ids part, the shorter one or the one with the smaller character comes first |
| `CapturePipeline.FinishIsTakenUp` | src/semblend_vllm_connector/connector.py:4138-4152 | the worker's backstop: a finishing capture that holds anything, with no failure or eviction behind it, is up for submission or already published at its length |
| `CapturePipeline.CaptureWorker.RunNextJob` | src/semblend_vllm_connector/connector.py:3806-3903 | the writer's job: land a layer, opening the donor's entry and evicting over the cap, or write a record after checking its layers, or fail and report, on disk with the layer's file truncated when the write fails part-way |
| `CapturePipeline.CaptureWorker.SaveTensor` | src/semblend_vllm_connector/connector.py:3839-3850 | a layer that lands replaces the copy there was; a write to disk that fails part-way leaves nothing readable of it |
| `CapturePipeline.CaptureWorker.OpenMemoryEntry` | src/semblend_vllm_connector/connector.py:3822-3837 | the entry is created or moved to the young end, and the oldest donors go while the tier is over its cap; which donor that is, `CaptureRecency` says over whole runs |
| `CapturePipeline.CaptureWorker.DrainWriterReports` | src/semblend_vllm_connector/connector.py:4079-4097 | failures become known and evicted captures forget progress and publication |
| `CapturePipeline.CaptureWorker.AfterSecondJoin` | src/semblend_vllm_connector/connector.py:4138-4169 | after the joins a finish hook deletes unpublished disk captures and forgets the finished requests |
| `CapturePipeline.PublishedIsStored` | src/semblend_vllm_connector/connector.py:3813-4125 | in every reachable state, whatever the interleaving, failing writes and evictions, a donor with a record that is not stale is resident and every model layer, but for one whose file a later write truncated, is stored with at least the record's tokens, all of them the prompt's own KV |
| `CaptureHonesty.StaleIffLastRetractionFailed` | src/semblend_vllm_connector/connector.py:4099-4125 | over every run and at every point of it, a record is stale exactly when some eviction of its donor failed to retract it and the donor was neither evicted nor published since |
| `CaptureHonesty.TornIffLastWriteTore` | src/semblend_vllm_connector/connector.py:3711-3747 | over every run and at every point of it, a layer's file is truncated exactly when some write of it failed part-way and none has landed it since |
| `CaptureHonesty.RecordsAreHonest` | src/semblend_vllm_connector/connector.py:3711-4125 | exactly, over every run, when a record is backed in full: after an eviction that could not retract it, when every layer was landed again since with at least its tokens; otherwise when no layer's last write failed part-way |
| `CaptureHonesty.ReadableStaysPublished` | src/semblend_vllm_connector/connector.py:3813-4125 | a donor honestly published at one point of a run, and resident and untruncated from there on, keeps its record, and never a shorter one |
| `CapturePipeline.MemoryStaysWithinCap` | src/semblend_vllm_connector/connector.py:3822-3837 | the memory tier never holds more donors than max(1, cap) |
| `CaptureRecency.OrderIsByLastUse` | src/semblend_vllm_connector/connector.py:3322-3330 | over every run the memory tier's donors stand in the order of their last use, a load that read them or a write of a layer |
| `CaptureRecency.EvictionTakesTheLeastRecent` | src/semblend_vllm_connector/connector.py:3822-3837 | over every run a step evicts a donor exactly when it writes one the tier does not hold while the tier is at max(1, cap), and then it evicts the one whose last use is longest ago |
| `CaptureCleanup.ReportedIffItsWriteFailed` | src/semblend_vllm_connector/connector.py:3806-3903 | over every run a job reports its donor as failed exactly when its own write or record fails |
| `CaptureCleanup.FinishedLeaveOnlyPublished` | src/semblend_vllm_connector/connector.py:4422-4468 | over every run of the disk tier what is left of a finished request has a record, or is what could not be deleted |
| `CaptureCleanup.PublishedStayOnDisk` | src/semblend_vllm_connector/connector.py:4422-4468 | the deletion touches no donor with a record and none that is not finishing |
| `CaptureCleanup.FinishedAreForgotten` | src/semblend_vllm_connector/connector.py:4153-4169 | over every run the worker's per-request maps hold nothing of a finished request |
| `CapturePipeline.CaptureIsChunkIndependent` | src/semblend_vllm_connector/connector.py:3518-3577 | whatever the chunks, replaced tables, evictions and restarts, a layer with progress n and no failure or eviction behind it is held as exactly the KV of [0, n) |
| `CapturePipeline.ChunkCompletesOneShot` | src/semblend_vllm_connector/connector.py:3538-3565 | in every reachable state the base a chunk is appended to has exactly the layer's progress as its length, and the queued payload is the one-shot capture up to the chunk's end |
| `CapturePipeline.JoinMeansPublished` | src/semblend_vllm_connector/connector.py:3964-3997 | after the second join every donor marked finalized has its record at that length, unless a write of its capture failed |
| `CapturePipeline.RecordFindsItsLayers` | src/semblend_vllm_connector/connector.py:3854-3903 | the writer's last check never fires: a record's donor is resident with every layer in full when the record is written |
| `CapturePipeline.OpeningEvictsTheOldest` | src/semblend_vllm_connector/connector.py:3822-3837 | opening an entry keeps the order list exact and costs at most the oldest donor, never the one being written |
| `CapturePipeline.EvictionIsHonestIffRetracted` | src/semblend_vllm_connector/connector.py:4099-4125 | when a write evicts a published donor, that donor's record is honest afterwards exactly when its retraction succeeded |
| `CaptureFaults.FailedRetractionLeavesAStaleRecord` | src/semblend_vllm_connector/connector.py:4099-4125 | a concrete run in which a failed retraction leaves a record with no layer behind it |
| `CaptureFaults.TornWriteBreaksARecord` | src/semblend_vllm_connector/connector.py:3711-3850 | a concrete run on disk in which a published donor is extended by a chunk whose write fails part-way, and its record is left with no layer behind it |
| `CaptureFaults.FailedWriteLeavesAShortLayer` | src/semblend_vllm_connector/connector.py:3518-3850 | a concrete run of two chunks over two layers, the last write failing, that leaves the donor a token short in one layer |
| `CapturePipeline.StepKeepsInv` | src/semblend_vllm_connector/connector.py:3480-4169 | every step of the forward thread, the writer and the loader keeps the pipeline's invariant |
| `CaptureWriter.EachJobIsInOnePlace` | src/semblend_vllm_connector/capture_writer.py:144-286 | over every interleaving of any number of submits with the close and the thread, each accepted job is in exactly one of written, failed, queued or in flight |
| `CaptureWriter.WritesFollowSubmission` | src/semblend_vllm_connector/capture_writer.py:144-286 | written jobs are in submission order, no outcome is reported twice, the queue stays within its bound and has room up to it |
| `CaptureWriter.JoinMeansSettled` | src/semblend_vllm_connector/capture_writer.py:169-180 | on an open writer join returns only when every earlier job is settled, failed writes included |
| `CaptureWriter.JoinMeansWrittenIffNothingFailed` | src/semblend_vllm_connector/capture_writer.py:169-180 | when join returns on an open writer the jobs written are exactly those whose write did not fail, and all are exactly when none failed |
| `CaptureWriter.JoinCanLeaveAJobUnwritten` | src/semblend_vllm_connector/capture_writer.py:169-180 | a run with one failing write after which join returns with its job unwritten |
| `CaptureWriter.OpenWriterMoves` | src/semblend_vllm_connector/capture_writer.py:268-286 | an open writer with work outstanding always has a move to make |
| `CaptureWriter.CloseStrandsOnlyLatePuts` | src/semblend_vllm_connector/capture_writer.py:182-251 | over every run, overlapping closes included: once a close is over and the thread has stopped, a job is settled exactly when it was put in time; right after a close that abandons, exactly those put in time were written, handed back, are held by the wedged thread or are the one it waits for |
| `CaptureWriter.CloseBetweenSubmitsStrandsNothing` | src/semblend_vllm_connector/capture_writer.py:182-251 | when no close begins while a submit waits for room, nothing is stranded |
| `CaptureWriter.PutStrandsIffLate` | src/semblend_vllm_connector/capture_writer.py:144-225 | the exact condition, read off the writer before a put: the job can still be written or failed exactly when the put does not come after both of close's attempts, or the thread still waits for it |
| `CaptureWriter.LatePutIsStranded` | src/semblend_vllm_connector/capture_writer.py:144-225 | a job put late stays queued in every continuation; one put at any other time is settled in every continuation that ends with the close over and the thread stopped |
| `CaptureWriter.AbandonedThreadStopsIffNotStarved` | src/semblend_vllm_connector/capture_writer.py:182-286 | after a close that hands the queue back, the thread can still stop exactly when it is not waiting for a job with none queued and no submit on its way; otherwise it waits for ever |
| `CaptureWriter.DeadlineCanStrandTheThread` | src/semblend_vllm_connector/capture_writer.py:182-286 | a run whose close ends with the thread waiting on an empty queue that nothing will fill |
| `CaptureWriter.SentinelComesLast` | src/semblend_vllm_connector/capture_writer.py:182-286 | when the thread takes the sentinel every job put in time has been written or failed, and no late one ever is |
| `CaptureWriter.OfferingIsARun` | src/semblend_vllm_connector/capture_writer.py:203-251 | what the close does at its deadline, sentinel or hand-back, is a run of the actions the theorems speak of |
| `CaptureWriter.ForeignCloseStrandsAJob` | src/semblend_vllm_connector/capture_writer.py:144-225 | a run in which a close comes between a submit's check and its put and the job is stranded |
| `CaptureWriter.Writer.EnsureThread` | src/semblend_vllm_connector/capture_writer.py:253-266 | a submit on a closed writer is refused and changes nothing; otherwise the thread exists from then on |
| `CaptureWriter.Writer.MayReturnFromJoin` | src/semblend_vllm_connector/capture_writer.py:169-180 | join returns at once without a thread or on a closed writer, otherwise when nothing is unfinished |
| `CaptureWriter.Writer.Enqueue` | src/semblend_vllm_connector/capture_writer.py:144-167 | a put with room accepts the job at the end of the queue and counts it unfinished |
| `CaptureWriter.Writer.Execute` | src/semblend_vllm_connector/capture_writer.py:268-281 | a job's write ends written or reported as failed, and either way the thread goes on to mark it done |
| `CaptureWriter.Writer.Settle` | src/semblend_vllm_connector/capture_writer.py:268-286 | the queue is told of every job taken, and the sentinel ends the thread |
| `CaptureWriter.Writer.TakeNext` | src/semblend_vllm_connector/capture_writer.py:268-286 | the thread takes the head of the queue, a job or the sentinel |
| `CaptureWriter.Writer.LoopTest` | src/semblend_vllm_connector/capture_writer.py:268-286 | after a job the thread stops when the stop flag is set and waits for the next one otherwise |
| `CaptureWriter.Writer.Shut` | src/semblend_vllm_connector/capture_writer.py:182-196 | a second close changes nothing; the first marks the writer closed and, without a thread, is over at once |
| `CaptureWriter.Writer.OfferSentinel` | src/semblend_vllm_connector/capture_writer.py:203-216 | the sentinel goes in when there is room; otherwise the stop flag is set and the whole queue is handed back |
| `CaptureWriter.Writer.AbandonQueued` | src/semblend_vllm_connector/capture_writer.py:227-251 | hands back everything still queued as failed and leaves the queue empty |
| `FillTracking.FillTracker.CachedFillBlocks` | src/semblend_vllm_connector/connector.py:2376-2396 | the scan returns exactly the non-null, unsettled blocks from the cursor on that the hash table names |
| `FillTracking.FillTracker.SettleBlocks` | src/semblend_vllm_connector/connector.py:2398-2405 | settles the handled blocks and moves the cursor past the contiguous settled run |
| `FillTracking.FillTracker.TrackFilledBlocks` | src/semblend_vllm_connector/connector.py:2420-2578 | one pass: evict or leave cached what the scan found, settle and count it; nothing changes when nothing is found or the eviction fails |
| `FillTracking.FillTracker.UpdateStateAfterAlloc` | src/semblend_vllm_connector/connector.py:2580-2683 | the allocation hook drops the old tracker, keeps the ledger, and starts a new tracker with a first pass when a load is committed |
| `FillTracking.FillTracker.TrackRunningFills` | src/semblend_vllm_connector/connector.py:3089-3145 | retires finished requests, then extends or replaces each tracked table of the step's diff and runs a pass over it |
| `FillTracking.PassDecontaminates` | src/semblend_vllm_connector/connector.py:2499-2578 | over every run a pass takes out of the hash table exactly the non-null blocks of the engine's own table at or past the start of the fill, when the knob is on, the request is not a stage and the eviction goes through; otherwise nothing |
| `FillTracking.TrackersFollowTables` | src/semblend_vllm_connector/connector.py:3120-3145 | over every run the trackers are those of the requests a load was committed for, and each holds the block table as the engine admitted, appended to or replaced it, from the load's first block on |
| `FillTracking.PassHandsOverFreshFill` | src/semblend_vllm_connector/connector.py:2376-2578 | what any pass, at admission or on a row, hands to evict_blocks is cached, non-null, at or past the fill and at no earlier index, and was not evicted before while the table was kept |
| `FillTracking.PassedAtMostOnce` | src/semblend_vllm_connector/connector.py:2376-2578 | over any run a block is evicted at most once while one table is kept, and exactly the settled blocks were |
| `FillTracking.ArmsKeepOneLedger` | src/semblend_vllm_connector/connector.py:2407-2578 | over one engine history, failing evictions included, the control arm's distinct-block ledger of a request is the evicting arm's and what its failed passes found, so the two agree exactly when those were counted since, and always when no eviction failed; all that the control arm has cached beyond the other is in the ledger of its last holder or that request is over |
| `FillTracking.FailedPassSplitsTheLedgers` | src/semblend_vllm_connector/connector.py:2499-2578 | a history with one failing eviction after which the two arms' ledgers differ |
| `FillTracking.PassSetsDiffer` | src/semblend_vllm_connector/connector.py:2437-2578 | a history after which the two arms' next passes find different blocks |
| `FillTracking.StepKeepsInv` | src/semblend_vllm_connector/connector.py:2376-3145 | every engine event keeps the tracker invariant |
| `FillTracking.ArmRunFollowsRun` | src/semblend_vllm_connector/connector.py:3089-3145 | the passes the code makes in a step are the run the theorems speak of |
| `DeferredRegistration.DonorRegistry.RetryDeferredRegistrations` | src/semblend_vllm_connector/connector.py:4374-4399 | the loop hands every held donor whose record is there to the provider, which registers it or raises, and declines those out of budget, or all others on the last pass |
| `DeferredRegistration.DonorRegistry.RequestFinished` | src/semblend_vllm_connector/connector.py:4188-4336 | the finish hook retries the held donors, then skips, hands to the provider, defers or declines its own; a donor the provider raises on is refused, not registered |
| `DeferredRegistration.EachFinishResolvedOnce` | src/semblend_vllm_connector/connector.py:4221-4399 | over every run each finish has exactly one outcome: registered, refused by the provider, declined, skipped, held, or displaced by a reuse of its id |
| `DeferredRegistration.WaitsUnderBudget` | src/semblend_vllm_connector/connector.py:4374-4399 | after every hook a held donor has waited fewer steps than the budget, however many finishes ran in one step |
| `DeferredRegistration.DeclinedIffOutOfTime` | src/semblend_vllm_connector/connector.py:4338-4399 | neither early nor late: over every run a hook declines a donor exactly when it was held, no record is to be seen, and it is the last pass or at least the budget's number of steps were built since its finish; or it is the finish's own with no budget to wait |
| `DeferredRegistration.OffersAreFinishes` | src/semblend_vllm_connector/connector.py:4221-4336 | the offers are the finishes' own, each opened at the step its finish ran in, counted off the events |
| `DeferredRegistration.ShutdownHoldsNobody` | src/semblend_vllm_connector/connector.py:4541-4543 | the final pass leaves no donor held |
| `DeferredRegistration.RegisteredOnlyOnRecord` | src/semblend_vllm_connector/connector.py:4325-4399 | over every run a donor becomes registered in a hook exactly when it was held and that hook's retry saw its record under its capture's namespace, or it is the finish's own and had no store or its record at the finish's own check, and the provider did not raise there |
| `DeferredRegistration.PublishedInTimeIsRegistered` | src/semblend_vllm_connector/connector.py:4374-4399 | a held donor whose record is there to see is handed to the provider, not declined, even when its budget runs out; it is registered exactly when the provider does not raise |
| `DeferredRegistration.LostIffIdReusedWhileHeld` | src/semblend_vllm_connector/connector.py:4338-4372 | a held donor is dropped unresolved exactly when a finish under its id is deferred while it is held |
| `DeferredRegistration.DistinctIdsLoseNobody` | src/semblend_vllm_connector/connector.py:4338-4372 | with every request id finishing once no donor is ever dropped |
| `DeferredRegistration.ReusedIdLosesADonor` | src/semblend_vllm_connector/connector.py:4338-4372 | two deferred finishes under one id drop the first donor |
| `DonorReuse.PublicationBacksLoads` | src/semblend_vllm_connector/connector.py:3813-4125 | every reachable state of the pipeline backs, in every layer, the length of every record that is not stale, of donors with no file truncated |
| `DonorReuse.CapturedKvIsServedInPlace` | src/semblend_vllm_connector/connector.py:3205-3475 | from capture to reuse: a plan decided by either hook from the records of any reachable state, its loads run in any later one, writes exactly [B, B + N) and leaves in each position the donor token's key rotated to that position and its value, when the plan's donors were honestly published and stayed resident and untruncated in between |
| `DonorReuse.LostDonorIsReported` | src/semblend_vllm_connector/connector.py:3340-3444 | and when one of them has lost a layer, a span fails loudly; any other load of a donor that is gone writes nothing and hands back exactly the blocks its window lies in |
| `DonorReuse.ShortDonorIsReachable` | src/semblend_vllm_connector/connector.py:3518-3850 | the donor of the quiet partial load is what the capture pipeline leaves in a concrete run |

## Left out

- Audit rows, counters, logging, timings and the join key; of the reporting state only the distinct-block ledger is modelled.
- Configuration parsing, namespace and tenant digests, routing metadata, hints and sampling: a policy's verdict is a parameter.
- Prompt text, tokenizers, embedding and the SemBlend pipeline: lookups and alignment maps are inputs.
- The startup compatibility gate, rope-config inspection, page-width refusal and the unbound block pool: taken to have passed.
- The MLA layout and CUDA streams: a device copy is a value that is there when it is read.
- The scheduler-side shortcut that reads a donor's length from the in-process memory store: published lengths come from records.
- File I/O below one write: a layer write lands, fails before its file is open, or truncates it; a record, written through a temporary file, lands or does not; a deletion that fails removes nothing.
- Configuration exits of the hooks (materialisation off, registration off, no provider, an incompatible engine): each returns at once.
- Publication during shutdown, which queues records without the first join: it would need every queued write to succeed.
- Wall-clock timeouts: a timed wait ends with room or without it.
- Several loads committed by one request under one first index: the decontamination theorems are per committed load.
- LocalSemanticProvider and the ranking of candidates: filters and a bounded map.
- CapturePipeline.PublishedIsStored: says nothing of a stale record, nor of a layer whose file a failed write truncated, for which the code does not keep the promise; `CaptureHonesty` states over all runs when that is.
- CaptureCleanup.FinishedLeaveOnlyPublished: does not cover files a failed write truncated in a capture with nothing readable left; the model notes them apart from the store and does not clear the note when the directory goes, after which nothing reads it.
- DonorReuse.CapturedKvIsServedInPlace: says nothing of a donor evicted and captured anew, short of the planned window, before the load runs; its load then fails or is partial as `SpanLoadFailsIffGoneOrNowhereWhole` says.
