# Verified model of the algorithms and protocols of Lance-C

Lance-C is a C interface to the Lance data format. Most of it forwards calls, but six parts of it
hold protocols and algorithms of their own. This project models those parts in Dafny and proves
what they promise: callback retirement, exactly-once completion, panic containment, segment-scoped
filtering, bounded index selection, multi-vector scoring, prepared full-text plans and the rules
shared by the scanner's setters.

| module | models |
|---|---|
| `Common` | options and results, machine bounds, checked arithmetic |
| `WakerRegistry` | poll wakers, their registry and the retirement on close (`src/scanner.rs`) |
| `ProgressGate` | the lock-free gate of the index-build progress callback (`src/index_segment.rs`) |
| `BuilderRun` | the life of one index segment builder around that gate (`src/index_segment.rs`) |
| `AsyncScan` | completions of asynchronous scans (`src/scanner.rs`) and their dispatcher (`src/async_dispatcher.rs`) |
| `StreamGuard` | exported streams that contain panics (`src/stream_guard.rs`) and the poison flag (`src/scanner.rs`) |
| `ScalarExpression` | index expressions under three-valued logic, restricted to one index (`src/scalar_segment.rs`) |
| `PageEstimate` | page estimates from minimum, maximum and null counts (`src/scalar_index_selection.rs`) |
| `KeyOrder` | the order of alternatives by name and UUID |
| `SegmentChoice` | cost estimates, budgets, cache and the choice (`src/scalar_index_selection.rs`) |
| `ScalarSegment` | a scalar segment as an accelerator of a scoped scan (`src/scalar_segment.rs`) |
| `MultiVector` | candidate scores and exact row distances (`src/multivector.rs`) |
| `ResultWindow` | the offset/limit window below strict batching (`src/multivector.rs`) |
| `PreparedFts` | segment coverage (`src/fts_query.rs`) and the plan rewrite (`src/scanner.rs`) |
| `ScannerBuilder` | the setters of one scanner and the guards of a build (`src/scanner.rs`) |

`dafny verify dfyconfig.toml` verifies everything.

## How the code is modelled

Objects whose fields the code updates are classes (`CWakerContext`, `PollWakerRegistry`,
`LanceIndexSegmentBuilder`, `Dispatcher`, `GuardedReader`, `ProbeBudget`, `LookupCache`, `Reader`,
`LanceScanner`); loops are loops; recursion over expressions and plans is recursion. Concurrency is
a state machine: one step is one critical section, one sequentially consistent atomic access, one
reference-count update, or one entry to or return from a callback, by any number of threads, and
the theorems quantify over all sequences of steps.

Facts about Lance, DataFusion and Tokio are explicit assumptions on abstract functions:

- `ScalarSegment.PlannerSound`: the planner's index query is TRUE wherever the filter is TRUE, for
  filters over stored columns without a truth test.
- `ScalarSegment.SearchSound`: an exact search of a segment misses no matching row of a fragment
  that the segment covers; `ScalarSegment.RowIdsAgree` and `ScalarSegment.IdsIdentify`: without
  stable row ids a row id is the row's address, and UUIDs and field ids are unique.
- `PageEstimate.Describes`: the page statistics are right and a page holds at most `rowsPerPage`
  rows.
- `KeyOrder.KeysIdentify` and `PreparedFts.DistinctUuids`: an index lists no segment twice.
- `MultiVector.Commutes`: addition of scores commutes. Associativity is not assumed.
- `ResultWindow.Yields`: what the coalescing, sorting, limiting and rechunking nodes do.
- `PreparedFts.Engine`: the result of a plan node is a function of its parameters and inputs.
- `SegmentChoice.LookupCache.Coherent`: a cached lookup is what its immutable file decodes to; the
  file need not be readable any more.
- `AsyncScan`: the runtime is not shut down before a spawned body has ended, the dispatcher thread
  lives as long as its channel, and logging, error slots and the destructors of panic payloads do not panic.

## Where the code and its promises part

- `validate_batch_candidates` says that the product of queries, k and refine factor must lie in
  1..=100000, but accepts a product of 0 when the refine factor is positive
  (`ScannerBuilder.ZeroCandidatesAreAccepted`). `ScannerBuilder.BatchCandidatesAreExact` says when
  the lower bound holds: exactly for a positive number of queries and a positive k, both of which
  the setter rejects on its own, so no reachable configuration has a product of 0.
- An asynchronous scan promises one completion. A destructor that panics breaks that in two ways. The
  error to report is dropped inside the panic guard after its completion was dispatched, so a second
  completion follows (`AsyncScan.PanickingDestructorCompletesTwice`). A destructor that panics while
  another panic unwinds, of the error being formatted, of the built scanner or of the opened stream,
  aborts the process without a completion (`AsyncScan.PanickingStreamNeverCompletes`).
  `AsyncScan.CompletesExactlyOnce` says which calls complete once, twice and never.
- At the entry of a callback the error slot is promised to hold the completion's error. Its text is
  stored with each NUL escaped, so it is the carried text if and only if that has no NUL
  (`AsyncScan.SlotIsThisCompletions`).
- The estimated cost is meant as an upper bound on the matching rows. The product saturates at the
  largest 64-bit integer, so it is one exactly as long as the number of matching rows fits 64 bits
  (`PageEstimate.CostIsUpperBound`).
- The choice of a segment should not depend on what a session has cached. A lookup whose file can no
  longer be read is still answered from a warm cache, while a fresh session has no estimate
  (`SegmentChoice.UnreadableLookupSplitsSessions`). `SegmentChoice.CacheIsInvisibleIff` says for which
  lookups the cache makes no difference, `SegmentChoice.SelectionIsDetermined` carries that to whole
  selections, and `SegmentChoice.UnreadableGroupingIff` says when two sessions agree although the
  grouping lookup is at hand in one of them only.
- An empty list of segment UUIDs clears the selection: the worker then searches every segment
  (`PreparedFts.Searches`). A split among workers is a split only if no part is empty.

## Model

| member | source | states |
|---|---|---|
| `WakerRegistry.StepKeeps` | src/scanner.rs:2579-2711 | every critical section, reference-count update and callback entry or exit keeps the protocol's invariant, for any number of threads, contexts and handles |
| `WakerRegistry.RunKeeps` | src/scanner.rs:2579-2711 | the invariant holds after every interleaving |
| `WakerRegistry.CallbackAtMostOnce` | src/scanner.rs:2621-2642 | in no interleaving is a context's callback entered twice, and it was entered once exactly when the context has fired |
| `WakerRegistry.NoWakeIsLost` | src/scanner.rs:2621-2634 | in every run, until close is called a wake enters the callback exactly when its context has not fired yet |
| `WakerRegistry.HandlesAreCounted` | src/scanner.rs:2593-2617 | a clone adds one reference and keeps the other, a drop and a wake by value take one away, a wake by reference takes none |
| `WakerRegistry.LateRegistrationsAreCancelled` | src/scanner.rs:2666-2685 | once close has returned, every waker that can still be used is cancelled, including one whose registration raced with retirement or came after it |
| `WakerRegistry.DeadEntriesAreInert` | src/scanner.rs:2694-2697 | in every run, a weak entry that fails to upgrade belongs to a context that no thread is in: nothing to cancel, nothing to wait for |
| `WakerRegistry.QuietWhenClosed` | src/scanner.rs:2687-2710 | when retirement has returned no thread is inside a callback |
| `WakerRegistry.RunEntersNothing` | src/scanner.rs:2687-2710 | after retirement no run enters a callback, of old contexts or new ones |
| `WakerRegistry.CloseIsTheBoundary` | src/scanner.rs:1982-1990 | over whole runs from a fresh registry: after close nothing is running and nothing is ever entered again, including wakers created or registered later |
| `WakerRegistry.CloseWaitsOnlyForARunningCallback` | src/scanner.rs:2651-2663 | close can always go on, or the thread inside the callback it waits for can: no deadlock of the protocol's own making |
| `WakerRegistry.CWakerContext.BeginWake` | src/scanner.rs:2622-2632 | admits a wake exactly when the context is neither fired nor cancelled, then marks it fired and active, and changes no other mark |
| `WakerRegistry.FinishReleasesClose` | src/scanner.rs:2636-2663 | the second critical section of a wake is what close waits for: just before it close cannot pass the context, just after it close can |
| `WakerRegistry.CWakerContext.WakeOnce` | src/scanner.rs:2621-2642 | a whole wake enters the callback exactly when the context is neither fired nor cancelled, and afterwards the context admits no other; the flags are those of the steps in `WakeAlone` |
| `WakerRegistry.WakeAlone` | src/scanner.rs:2621-2642 | the steps of an undisturbed wake enter the callback once or not at all and leave the flags that `WakeOnce` promises |
| `WakerRegistry.CWakerContext.MarkCancelled` | src/scanner.rs:2644-2649 | sets the cancelled mark and nothing else |
| `WakerRegistry.PollWakerRegistry.Register` | src/scanner.rs:2666-2685 | drops dead entries, and appends the new one or, when retired, cancels it |
| `WakerRegistry.LivePicks` | src/scanner.rs:2672-2674 | what is kept of a list are the live entries, where they stood, none lost and none repeated |
| `WakerRegistry.CancelAll` | src/scanner.rs:2701-2706 | cancels every context of the list and no flag besides |
| `WakerRegistry.RetirementAlone` | src/scanner.rs:2687-2706 | the steps of an undisturbed retirement cancel exactly the registrations that still upgrade and leave the registry as `RetireAndCancel` promises |
| `WakerRegistry.PollWakerRegistry.RetireAndCancel` | src/scanner.rs:2687-2706 | drains the list and cancels exactly the entries that still upgrade, before any wait |
| `ProgressGate.StepKeeps` | src/index_segment.rs:184-214 | every atomic step of any worker or of the retiring thread keeps the counter equal to the workers inside |
| `ProgressGate.CounterIsExact` | src/index_segment.rs:191-202 | in every run the counter is the number of workers between increment and decrement, so it never underflows |
| `ProgressGate.AdmittedUntilRetire` | src/index_segment.rs:191-198 | in every run, until retire is called each worker that enters is admitted |
| `ProgressGate.EnterAndLeaveAlone` | src/index_segment.rs:191-202 | an undisturbed enter admits exactly when the gate is not retired, and leaving restores the gate |
| `ProgressGate.RetireIsTheBoundary` | src/index_segment.rs:204-213 | once retire has returned no worker is admitted, and none ever becomes admitted |
| `ProgressGate.DrainWaitsForAWorker` | src/index_segment.rs:208-213 | while the drain loop goes round, some counted worker can take a step |
| `ProgressGate.DrainReturnsWhenEmpty` | src/index_segment.rs:208-213 | the drain loop ends at a look that finds no worker inside, and at no other |
| `BuilderRun.LanceIndexSegmentBuilder.SetProgressCallback` | src/index_segment.rs:1276-1301 | installs the callback with a fresh gate, unless it is null or the builder was executed; a rejected call changes nothing |
| `BuilderRun.LanceIndexSegmentBuilder.BeginExecute` | src/index_segment.rs:1157-1177 | admits one call only, even when that call fails on its outputs, and arms the gate of the installed callback |
| `BuilderRun.StepKeeps` | src/index_segment.rs:1149-1231 | every step of caller, build and workers keeps the invariant that ties phases, gates and detached workers together |
| `BuilderRun.RunKeeps` | src/index_segment.rs:1149-1231 | so does every run, with callbacks replaced, the build ending in success, error or panic, and workers going on afterwards |
| `BuilderRun.InstalledIsLastSet` | src/index_segment.rs:1276-1301 | the installed callback is the last one set before the first execute, read off the calls alone |
| `BuilderRun.ExecutedFreezes` | src/index_segment.rs:1157-1163 | after an execute nothing changes the builder's protocol fields any more |
| `BuilderRun.CallbackOnlyDuringExecute` | src/index_segment.rs:216-224 | a running callback implies that execute is in progress, and it is the one last set |
| `BuilderRun.ProgressIsDelivered` | src/index_segment.rs:1174-1180 | in every run, while the build is running a worker that enters the installed gate is admitted |
| `BuilderRun.ExecuteIsNeverStuck` | src/index_segment.rs:1174-1231 | until it has returned, execute always has a next step: the end of the build, the retirement, a look at the counter or the return |
| `BuilderRun.SecondCallsAreRejected` | src/index_segment.rs:1158-1162 | after one execute every later execute and every later set is rejected and changes nothing |
| `AsyncScan.CompletesExactlyOnce` | src/scanner.rs:2220-2407 | a scan completes exactly once, whatever fails or panics, if and only if no destructor panics, neither of the error it has to report nor of a value that a panic unwinds over; it completes twice or not at all exactly in the two remaining families, and reports success exactly when nothing failed |
| `AsyncScan.CompletionsTell` | src/scanner.rs:2240-2407 | every completion has status 0 without an error or -1 with one; it carries the code and text of the error to report, InvalidArgument for a null scanner, and the panic code for a poisoned one or after a panic, with the panic's text |
| `AsyncScan.FirstFailureIsReported` | src/scanner.rs:2266-2407 | past validation, what is reported is the first thing that goes wrong among build, runtime, opening and export |
| `AsyncScan.PanickingDestructorCompletesTwice` | src/scanner.rs:2364-2403 | a concrete call whose error panics in its destructor completes twice |
| `AsyncScan.PanickingStreamNeverCompletes` | src/stream_guard.rs:121-145 | a concrete call whose export panics while it owns a stream with a panicking destructor aborts without a completion |
| `AsyncScan.Dispatcher.Send` | src/async_dispatcher.rs:61-63 | queues the message, or hands it back when the channel has no receiver |
| `AsyncScan.Dispatcher.Deliver` | src/async_dispatcher.rs:70-88 | one callback entry, seen as the steps of an undisturbed delivery show it, with the NULs of the error text escaped; an unwinding callback is contained |
| `AsyncScan.SlotIsFaithful` | src/error.rs:58-67 | the slot has the code of the carried error and a text without NUL, and is the carried error itself if and only if that has no NUL |
| `AsyncScan.Dispatcher.Drain` | src/async_dispatcher.rs:45-59 | the receive loop delivers every queued message once, in order, whatever callbacks leave behind |
| `AsyncScan.DispatchMessage` | src/async_dispatcher.rs:90-101 | a message is queued or delivered on the calling thread, never both and never neither |
| `AsyncScan.StepKeeps` | src/scanner.rs:2220-2407 | with any number of scans, threads and nested callbacks interleaved, every step keeps each completion in exactly one place: to be produced or reported, to be dispatched, queued, in a thread's hands or delivered |
| `AsyncScan.RunKeeps` | src/scanner.rs:2220-2407 | so does every run |
| `AsyncScan.StepKeepsSlots` | src/async_dispatcher.rs:70-88 | no step of any thread disturbs a slot between its writing and the entry of the callback it is meant for |
| `AsyncScan.SlotIsThisCompletions` | src/async_dispatcher.rs:66-81 | in every run, at the entry of a callback the invoking thread's slot holds exactly this completion's error, NULs escaped, although writing the slot, entry and return are separate steps, deliveries nest, hosts make failing calls inside callbacks and other threads act at any time; it equals the carried error if and only if that has no NUL |
| `AsyncScan.PoisonPrecedesReport` | src/scanner.rs:2236-2258 | in every run, when the callback of a caught panic is entered the scan's handle is already poisoned |
| `AsyncScan.StepKeepsPoison` | src/scanner.rs:2395-2405 | every step keeps each report of a panic, wherever it is, behind the poisoning of its handle |
| `AsyncScan.DeliveredExactly` | src/async_dispatcher.rs:90-132 | a settled scan has delivered exactly its completions, as a multiset; that is one completion if and only if its reported error drops cleanly; before that it has delivered no other |
| `AsyncScan.EntriesTell` | src/async_dispatcher.rs:17-22 | in every run each callback entry is one of its scan's own completions, with status 0 exactly when it carries no error and -1 otherwise |
| `AsyncScan.UnsettledCanMove` | src/async_dispatcher.rs:45-101 | unless the process has aborted, a scan that is not settled is never stuck: it, a delivery, the receive loop or the dispatcher's callback has a step |
| `AsyncScan.HelpReduces` | src/async_dispatcher.rs:45-101 | each such step brings the scan nearer to being settled |
| `AsyncScan.HelpingRunsAreShort` | src/async_dispatcher.rs:45-101 | however such steps are scheduled, their number is bounded by what is under way |
| `AsyncScan.AlwaysCanSettle` | src/scanner.rs:2185-2192 | from every reachable state finitely many such steps settle the scan, and its host has then seen exactly its completions, unless the scan's own fate is to abort the process |
| `AsyncScan.DrainAlone` | src/async_dispatcher.rs:45-59 | the steps of an undisturbed receive loop deliver the queue once, in order, each message with its own error, NULs escaped |
| `StreamGuard.ItemsAreNulFree` | src/stream_guard.rs:69-71 | no error text given to the consumer holds a NUL, whatever the inner stream says |
| `StreamGuard.GuardedReader.Next` | src/stream_guard.rs:153-196 | one call: a batch is that batch, an error that error with NULs escaped, only an end is an end; a panic is one error, after which nothing is polled; the scanner's flag is set exactly by the call that catches a panic |
| `StreamGuard.GuardedReader.Drop` | src/stream_guard.rs:208-221 | takes the inner stream out before its cleanup runs; a cleanup panic is logged and poisons nothing |
| `StreamGuard.GuardedRecordBatchReader.Next` | src/stream_guard.rs:241-264 | the same answers and the same fuse, without a scanner and with its own panic text |
| `StreamGuard.TransparentUntilPanic` | src/stream_guard.rs:153-196 | until the first panic the consumer gets exactly the inner stream's batches, errors and ends, in order, one poll a call, past an end of stream too; an error's text is its own if and only if that has no NUL |
| `StreamGuard.FusedAfterPanic` | src/stream_guard.rs:153-196 | at the first panic exactly one error, with the panic's text, then end of stream for good, without another poll |
| `StreamGuard.PoisonedYieldsNothing` | src/stream_guard.rs:154-156 | a fused or dropped reader yields nothing and does not change |
| `StreamGuard.PoisonIsExactAndSticky` | src/scanner.rs:1053-1083 | the scanner is poisoned exactly when one of its streams or calls has caught a panic; from then on each checked call fails, and before that none does that does not panic itself |
| `StreamGuard.RunKeepsFlag` | src/scanner.rs:1053-1083 | the flag is exact after every run and never cleared |
| `StreamGuard.StreamsAreIndependent` | src/stream_guard.rs:87-103 | whatever happens to the scanner and to other streams, a stream delivers what it would deliver alone |
| `ScalarExpression.CompleteKeepsEverything` | src/scalar_segment.rs:51-91 | under require_complete a subtree survives unchanged or, if it has a foreign leaf, not at all; so a NOT never negates a pruned child |
| `ScalarExpression.DropsExactlyTheForeign` | src/scalar_segment.rs:51-91 | the result is the input with each foreign leaf, and each NOT above one, replaced by TRUE and simplified; nothing is left exactly when that simplifies to TRUE |
| `ScalarExpression.ScopedIsSuperset` | src/scalar_segment.rs:43-92 | every row that makes the input TRUE makes the result TRUE |
| `ScalarExpression.ReplaceWeakens` | src/scalar_segment.rs:62-91 | replacing foreign parts by TRUE loses no TRUE row, in Kleene logic |
| `ScalarExpression.ReplaceIsExact` | src/scalar_segment.rs:62-91 | outside of negations the replacement has the value of the input with its foreign leaves TRUE, and a negation becomes TRUE exactly when it has a foreign leaf |
| `ScalarExpression.ScopedIsExact` | src/scalar_segment.rs:43-92 | where no negation has a foreign leaf, the result is worth on every row what the input is worth with its foreign leaves TRUE |
| `ScalarExpression.ScopedNamesOnlyTheTarget` | src/scalar_segment.rs:63-71 | every leaf of the result names the selected index and column |
| `ScalarExpression.ScopedFollowsPreorder` | src/scalar_segment.rs:51-91 | the recursion with its shared budget fails exactly at the first fault of one preorder scan, with that fault |
| `ScalarExpression.ScopedSucceedsIff` | src/scalar_segment.rs:51-61 | it succeeds if and only if no leaf has the wrong field, the nodes fit the budget and the height fits the depth limit; a success consumes one unit a node |
| `PageEstimate.EstimatePages` | src/scalar_index_selection.rs:201-217 | the counting loop: there is an estimate exactly within the page, column and work limits with every page decided, and it is the number of matching pages |
| `PageEstimate.PageNotMissed` | src/scalar_index_selection.rs:106-179 | a page that holds a selected row is never ruled out, for any nesting of AND and OR and despite short-circuits and unknowns |
| `PageEstimate.OverlapsIsTight` | src/scalar_index_selection.rs:106-155 | a decided page overlaps a query if and only if it can hold a match: some key within its statistics satisfies it, for a range each of the bounds |
| `PageEstimate.DecidableIsDecided` | src/scalar_index_selection.rs:106-155 | a query on comparable values within the list limit is decided |
| `PageEstimate.MatchesPageIsKleene` | src/scalar_index_selection.rs:157-179 | a decided page has the Kleene value of its leaves, and without NOT it is decided when they are |
| `PageEstimate.CountIsTheNumber` | src/scalar_index_selection.rs:209-216 | the count is the number of positions whose page matches |
| `PageEstimate.MatchingPageIsCounted` | src/scalar_index_selection.rs:157-217 | every page with a matching row is among the counted ones |
| `PageEstimate.CountBoundsRows` | src/scalar_index_selection.rs:201-217 | counted pages times rows per page bound the matching rows |
| `PageEstimate.CostIsUpperBound` | src/scalar_index_selection.rs:286-289 | the cost bounds the matching rows if and only if their number fits 64 bits |
| `PageEstimate.ChecksBounded` | src/scalar_index_selection.rs:181-199 | comparisons_per_page bounds the predicate checks that one page costs |
| `PageEstimate.ComparisonsAreExact` | src/scalar_index_selection.rs:181-199 | the work per page is one check a leaf, or one a member of its list, and unknown exactly with a NOT, an unknown query, a long list or an overflow |
| `PageEstimate.EstimateWorkBounded` | src/scalar_index_selection.rs:201-208 | an estimate makes at most 1,000,000 predicate checks |
| `SegmentChoice.DecodedBytesExact` | src/scalar_index_selection.rs:68-77 | the checked sum is the true unbounded sum, or None exactly when a width is unknown or the sum overflows |
| `SegmentChoice.TrueBytesClosed` | src/scalar_index_selection.rs:68-77 | the true size is the rows times the widths, plus a validity bitmap and 1024 bytes a column |
| `SegmentChoice.DecodedLookupMeans` | src/scalar_index_selection.rs:250-282 | a lookup is there exactly when its file is readable, has at most 65,536 pages, decodes within 64 bits and has a positive page size, which is the parsed one or, where there is none, the default |
| `SegmentChoice.LookupCache.GetOrLoad` | src/scalar_index_selection.rs:245-284 | a lookup comes from the cache or from a file that can be read, whatever the cache admits or evicts; a refusal means that there is neither, or that it does not fit the budget |
| `SegmentChoice.EstimateCost` | src/scalar_index_selection.rs:219-290 | estimate and remaining budget are those of a computation that knows of the cache only which lookups it makes available |
| `SegmentChoice.EstimatedCostMeans` | src/scalar_index_selection.rs:219-290 | what is charged and when, when there is an estimate, and that its cost is the saturated product of pages and page size |
| `SegmentChoice.Consider` | src/scalar_index_selection.rs:321-366 | one turn of the minimising loop, whichever way an alternative is passed over |
| `SegmentChoice.ProbeAlternatives` | src/scalar_index_selection.rs:318-366 | the loop ends with the leader of the first seven eligible alternatives |
| `SegmentChoice.EligibleAreTheFirst` | src/scalar_index_selection.rs:320-357 | the candidates are the first of all eligible alternatives, up to the limit |
| `SegmentChoice.EligibleIsAFilter` | src/scalar_index_selection.rs:324-355 | the eligible alternatives are those with a top-level key field, coverage of every fragment and a BTree restriction of the query, in their order, none lost |
| `SegmentChoice.Choose` | src/scalar_index_selection.rs:298-387 | the answer is the cheapest of all probes, the first of several such, or a full scan when that costs as much as the domain; an unknown grouping estimate keeps the grouping segment |
| `SegmentChoice.SelectionMeans` | src/scalar_index_selection.rs:374-386 | a full scan is chosen exactly when no probe is cheaper than the rows of the domain, and otherwise the first of the cheapest probes |
| `SegmentChoice.TheProbesAre` | src/scalar_index_selection.rs:307-357 | with a grouping estimate, it and the first seven eligible alternatives are probed; without one, it alone |
| `SegmentChoice.ProbesShareTheBudget` | src/scalar_index_selection.rs:303-311 | each candidate is probed with what the earlier ones have left of the budget |
| `SegmentChoice.ProbeOrderAndCoverage` | src/scalar_index_selection.rs:318-349 | probes come in the order grouping segment, then name and UUID, so ties fall that way; every alternative covers every fragment of the domain |
| `KeyOrder.NameLeqIsLexicographic` | src/scalar_index_selection.rs:318-319 | names are compared at their first difference, and a prefix comes first |
| `SegmentChoice.SelectionWithinBudget` | src/scalar_index_selection.rs:320-357 | one preparation probes at most 8 segments, and the serialized and decoded bytes charged each sum to at most 8 MiB |
| `SegmentChoice.ListingOrderIsIrrelevant` | src/scalar_index_selection.rs:318-319 | permuting the index list changes no probe |
| `SegmentChoice.SelectionIsDetermined` | src/scalar_index_selection.rs:298-387 | two selections agree for every permutation of the index list and any two caches, as long as storage can give the lookups on which the caches differ |
| `SegmentChoice.CacheIsInvisibleIff` | src/scalar_index_selection.rs:245-284 | a probe gets the same lookup for all cache contents if and only if its file can be read or would not decode anyway |
| `SegmentChoice.UnreadableGroupingIff` | src/scalar_index_selection.rs:298-317 | for every index list, query, domain and other cache content: when the grouping lookup can no longer be read, a session that has it and one that has not agree if and only if the warm one keeps the grouping segment |
| `SegmentChoice.UnreadableLookupSplitsSessions` | src/scalar_index_selection.rs:245-284 | a concrete dataset, with a grouping segment that covers the domain and whose lookup file can no longer be read: a warm session plans a full scan, a fresh one keeps the segment |
| `SegmentChoice.SelectionIsSuitable` | src/scalar_index_selection.rs:320-366 | a selected segment is the grouping one or an eligible alternative that covers the domain |
| `ScalarSegment.PassingRowIsSelected` | src/scalar_segment.rs:286-380 | an installed mask selects every row of the scope whose full filter is TRUE |
| `ScalarSegment.PhysicalRowsAre` | src/scalar_segment.rs:309-314 | the rows of the domain are the saturated sum over its fragments and no other |
| `ScalarSegment.AcceleratorIsTransparent` | src/scalar_segment.rs:186-395 | filtering through the mask and filtering without it give the same rows in the same order |
| `ScalarSegment.SelectSegment` | src/scalar_segment.rs:304-334 | the named segment, or with automatic selection exactly what the cost selection picks |
| `ScalarSegment.SelectedAnswers` | src/scalar_segment.rs:304-334 | what is selected covers the read domain and answers a restriction of the index query |
| `ScalarSegment.SearchSegment` | src/scalar_segment.rs:335-379 | the first obstacle of the search, or the mask of an exact search in the row-id domain; the search never meets a leaf outside the segment |
| `ScalarSegment.ConfigureCandidates` | src/scalar_segment.rs:181-395 | the result names the first obstacle in the order of precedence, fallback or error, or there is none and the mask is installed; every other return leaves the reader alone |
| `ScalarSegment.NoObstacleIff` | src/scalar_segment.rs:181-395 | in both modes there is no obstacle if and only if the guards hold, the named segment answers the query and the selected one gives an exact mask |
| `ScalarSegment.Configure` | src/scalar_segment.rs:120-179 | on every return path the reader yields exactly the rows, order and window of the plain scoped scan, because it may not search indices on its own and its mask misses nothing; the recorded fallback is the first obstacle, and there is none exactly when a mask was installed |
| `MultiVector.CandidatesAreOffered` | src/multivector.rs:354-381 | the candidates of a query are what its batches offer, however the stream cuts or orders them |
| `MultiVector.NearestIsTheMinimum` | src/multivector.rs:375-378 | a row's entry is the minimum over all of its occurrences |
| `MultiVector.FarthestIsTheMaximum` | src/multivector.rs:374 | a query's maximum is over all of its candidates |
| `MultiVector.ScoreIsALeftSum` | src/multivector.rs:382-392 | a score is reached from zero by adding one term a query from left to right: the row's own minimum, else the query's maximum, else 1.0 |
| `MultiVector.FaultsAre` | src/multivector.rs:358-373 | which item is at fault and with which error, in the order of the checks |
| `MultiVector.MissedIsTheScoreOfUnseenRows` | src/multivector.rs:382-392 | the running total is the score, up to now, of every row that no query has found |
| `MultiVector.ReduceQuery` | src/multivector.rs:354-381 | a stream is reduced once across its batches; it fails exactly on a missing column, an input error or an invalid candidate, with the first one's error |
| `MultiVector.AddToKnown` | src/multivector.rs:385-387 | every known row gets its own distance or the query's penalty, in any order of the keys |
| `MultiVector.InsertNew` | src/multivector.rs:388-390 | only new rows are entered, each with its distance plus the running total |
| `MultiVector.IndexedBatch` | src/multivector.rs:348-412 | the ids are exactly those that some query offers, without repetition, and each score is the narrowed left-to-right sum over queries of the row's minimum, else the query's maximum, else 1.0, using only commutativity |
| `MultiVector.BatchingIsIrrelevant` | src/multivector.rs:352-381 | two runs that found the same candidates query by query return the same multiset of scored rows |
| `MultiVector.RebatchedStreamsHaveSameSets` | src/multivector.rs:352-353 | streams that offer the same candidates, cut and ordered differently, are such runs |
| `MultiVector.BestIsTheMinimum` | src/multivector.rs:233-241 | the best match is the least defined distance, and undefined exactly when all are |
| `MultiVector.ChunksAreSlices` | src/multivector.rs:232-236 | a matrix is cut into its whole slices of the dimension, counted from the start |
| `MultiVector.SumIsDefined` | src/multivector.rs:232-244 | a row has a distance if and only if each query vector has a defined match |
| `MultiVector.SumIgnoresStoredOrder` | src/multivector.rs:232-246 | a row's distance depends on the set of its subvectors only |
| `MultiVector.IndexedAgreesWithExact` | src/multivector.rs:232-246 | where each query found the row at its true distance, indexed and exact score are the same value |
| `MultiVector.RowDistance` | src/multivector.rs:200-252 | type and finiteness errors first; then None exactly when some query slice has no defined distance to a stored slice; then the narrowed left-to-right sum, over the query's slices, of the least defined distance to the stored slices, unless it is not finite |
| `MultiVector.ExactBatch` | src/multivector.rs:284-346 | an empty batch is not examined; otherwise the first faulty row's error, or exactly the rows with a score, in order, next to their own row distances; a row without id, vector or match has none |
| `ResultWindow.WindowKeepsTheStack` | src/multivector.rs:73-105 | it fails exactly without a distance column, and otherwise puts the window right below the unchanged stack of strict-batch nodes |
| `ResultWindow.WindowIsExact` | src/multivector.rs:73-105 | every execution yields, in one partition, the offset/limit slice of a distance-ordered permutation of the original plan's rows; under a strict-batch node every batch but the last has the exact size |
| `ResultWindow.StrictIsChop` | src/multivector.rs:82-90 | strict batches are the only way to cut their rows, so the batch boundaries follow from the rows |
| `ResultWindow.MergeKeepsRows` | src/multivector.rs:98-103 | coalescing partitions in any interleaving loses and repeats no row |
| `ResultWindow.WindowSeparates` | src/multivector.rs:91-104 | the window is the slice after the offset, of exact size; skipped rows are no farther, and cut-off rows no nearer, than any row that is kept |
| `ResultWindow.WindowRuns` | src/multivector.rs:73-105 | the rewritten plan has an execution for every source |
| `PreparedFts.ParseSegmentUuids` | src/fts_query.rs:459-487 | the UUIDs are the 16-byte pieces in order; it fails exactly on a null address with a length, an unaddressable length, whatever memory comes with it, or a duplicate |
| `PreparedFts.UuidsRoundTrip` | src/fts_query.rs:471-478 | the wire form of UUIDs is read back as these UUIDs |
| `PreparedFts.PrepareCoverage` | src/fts_query.rs:138-204 | succeeds if and only if the segments agree on their fields, coverage is known, ids fit 32 bits and, in STRICT mode, every current fragment is covered; returns the uncovered ones |
| `PreparedFts.SelectFtsSegments` | src/scanner.rs:756-786 | the chosen segments in the order of the UUIDs; it fails exactly on an unknown UUID or an empty subset |
| `PreparedFts.SelectedCurrentFtsFragments` | src/scanner.rs:788-816 | the current fragments that the segments cover, at their places in the dataset, none lost and none repeated |
| `PreparedFts.WorkerFragments` | src/scanner.rs:3637-3642 | from setter to fragments: a worker searches exactly the current fragments covered by the segments it was given, or by all segments when it was given none |
| `PreparedFts.WorkersLoseNothing` | src/fts_query.rs:164-204 | when every segment is assigned, the workers together search exactly the indexed current fragments: all current fragments in STRICT mode |
| `PreparedFts.WorkersOverlap` | src/scanner.rs:788-816 | two workers share a fragment exactly when segments of both cover it, so none when coverage is disjoint |
| `PreparedFts.RewritePlan` | src/scanner.rs:824-913 | the counting recursion succeeds if and only if every visible search is of the prepared kind, or the selection has no current fragments; its counts are the numbers of positions in the tree that lead to a search of either kind, and to a flat node, with no flat node above |
| `PreparedFts.CountsArePositions` | src/scanner.rs:824-913 | for every plan the counts are the cardinalities of these sets of positions |
| `PreparedFts.KindsArePositions` | src/scanner.rs:896-912 | the kinds that matter are those of the searches at these positions |
| `PreparedFts.RewriteKeepsTheTree` | src/scanner.rs:824-913 | no flat node is left and every search is bound to exactly the selection, scorer and mask; flat nodes, and searches over a selection without current fragments, become empty nodes with their schema, and every other node keeps its operator, schema, query and number of children |
| `PreparedFts.RewritePreservesMeaning` | src/scanner.rs:824-913 | for any engine, running the rewritten tree is running the planned tree with flat searches empty and indexed searches scoped |
| `PreparedFts.PreparePlan` | src/scanner.rs:713-744 | accepts exactly the plans with at most one position of a search and one of a flat node, at least one of them, and one of a search when there are current fragments |
| `PreparedFts.AcceptedPlanSearchesOnce` | src/scanner.rs:735-744 | in an accepted and rewritten plan exactly one position leads to a search, bound to the selection, when that has current fragments, and none otherwise; no position leads to a flat node |
| `ScannerBuilder.ValueCountIsExact` | src/scanner.rs:164-181 | the checked products accept exactly the matrices whose true byte size is within 64 MiB, and report overflow exactly when the true size overflows |
| `ScannerBuilder.BatchCandidatesAreExact` | src/scanner.rs:183-198 | the check agrees with the true product, and its lower bound holds exactly for positive queries and k |
| `ScannerBuilder.ZeroCandidatesAreAccepted` | src/scanner.rs:183-198 | a product of 0 passes, against the message |
| `ScannerBuilder.DivisionBoundsTheProduct` | src/scanner.rs:3433-3435 | the check by division is exact for the product |
| `ScannerBuilder.BoundsAreExact` | src/scanner.rs:215-271 | a new nprobes bound is accepted exactly when it is positive and leaves the range nonempty, and then the range holds exactly the numbers within both bounds |
| `ScannerBuilder.AcceptedExactlyWhenSound` | src/scanner.rs:1175-1220 | from a sound configuration a setter accepts an applicable call if and only if its effect keeps all constraints across fields |
| `ScannerBuilder.StepKeeps` | src/scanner.rs:1175-1220 | every call, accepted or rejected, every build and every panic keeps the constraints |
| `ScannerBuilder.ReachableIsSound` | src/scanner.rs:2742-2916 | every configuration reachable by any sequence of calls, builds and panics is sound: one kind of query at most, batch mode without window and within the true product, ordered bounds on single queries, a nonempty nprobes range, no strict batching with a byte limit |
| `ScannerBuilder.LastAcceptedCallHolds` | src/scanner.rs:1175-1220 | after any run each setting is that of the last accepted call that decides it: a nearest query is stored as given, with the bounds set after it or none |
| `ScannerBuilder.UndecidedStays` | src/scanner.rs:1175-1220 | a setting that no accepted call decides stays what it was |
| `ScannerBuilder.PoisonIsFinal` | src/scanner.rs:1053-1064 | a poisoned handle changes no more |
| `ScannerBuilder.RechecksNeverFail` | src/scanner.rs:451-458 | in no reachable state does the batch or the identity check of a build fail; the multi-vector check fails exactly when the true refined count is out of range |
| `ScannerBuilder.LanceScanner.SetLimit` | src/scanner.rs:1175-1193 | outside batch mode only; on acceptance the field holds the argument, otherwise nothing changes |
| `ScannerBuilder.LanceScanner.SetOffset` | src/scanner.rs:1203-1221 | outside batch mode only; on acceptance the field holds the argument, otherwise nothing changes |
| `ScannerBuilder.LanceScanner.SetBatchSizeBytes` | src/scanner.rs:1259-1285 | positive, before the scan, and not with strict batching; on acceptance the field holds the argument, otherwise nothing changes |
| `ScannerBuilder.LanceScanner.SetStrictBatchSize` | src/scanner.rs:1507-1528 | before the scan, and not with a byte limit; on acceptance the field holds the argument, otherwise nothing changes |
| `ScannerBuilder.LanceScanner.SetRefineFactor` | src/scanner.rs:2742-2769 | in batch mode only before the scan and within the true product; on acceptance the field holds the argument, otherwise nothing changes |
| `ScannerBuilder.LanceScanner.SetDistanceRange` | src/scanner.rs:2784-2828 | before the scan, on a single-vector query, with finite bounds in order; on acceptance the field holds the argument, otherwise nothing changes |
| `ScannerBuilder.LanceScanner.SetNprobes` | src/scanner.rs:2843-2855 | sets both bounds to a positive number; on acceptance the field holds the argument, otherwise nothing changes |
| `ScannerBuilder.LanceScanner.SetMinimumNprobes` | src/scanner.rs:2871-2886 | sets the minimum unless it exceeds the maximum; on acceptance the field holds the argument, otherwise nothing changes |
| `ScannerBuilder.LanceScanner.SetMaximumNprobes` | src/scanner.rs:2902-2917 | sets the maximum unless it is below the minimum; on acceptance the field holds the argument, otherwise nothing changes |
| `ScannerBuilder.LanceScanner.Nearest` | src/scanner.rs:3144-3182 | excludes full-text search; on acceptance the query is the one given, with no bounds, otherwise nothing changes |
| `ScannerBuilder.LanceScanner.NearestBatch` | src/scanner.rs:3208-3328 | accepts exactly the batches within all limits, on a matching column, without a window; then the query is the given matrix, with no bounds, otherwise nothing changes |
| `ScannerBuilder.LanceScanner.NearestMultivector` | src/scanner.rs:3413-3496 | accepts exactly the finite matrices within 128 vectors and 100000 vector-candidates on a matching list column; then the query is the given matrix, with no bounds, otherwise nothing changes |
| `ScannerBuilder.LanceScanner.FullTextSearch` | src/scanner.rs:3526-3565 | excludes nearest and a query context; on acceptance the field holds the argument, otherwise nothing changes |
| `ScannerBuilder.LanceScanner.SetFtsQueryContext` | src/scanner.rs:3586-3611 | excludes nearest and a query, and takes a context of the scanner's own snapshot only; on acceptance the field holds the argument, otherwise nothing changes |
| `ScannerBuilder.LanceScanner.BuildScanner` | src/scanner.rs:436-458 | starts the scan whether or not its checks pass, and reports the batch and multi-vector checks in terms of true products |

## Left out

- Floating point: distances are positions in a total order, with NaN and non-finite values as explicit cases; addition and rounding are abstract functions. The two zeros count as one position.
- The gate's `enter`, `exit` and `retire` are steps of `ProgressGate`, not methods of a class: other threads act between the two atomic accesses of one `enter`, which a method contract would hide.
- Weak memory: sequentially consistent accesses are single steps. That the gate's drain loop and the registry's wait end needs a fair scheduler and callbacks that return; only the absence of other obstacles is proved.
- Whatever lies behind Lance, DataFusion, Arrow and Tokio: planning, index search, storage, caching policy and failures of plan-node constructors.
- The thin wrappers for columns, updates, deletes, merges, compaction, versions, writers, sessions and statistics: argument checks around one upstream call.
- Addresses, alignment, C strings, ownership of Arrow C structures, NULL handles and callbacks, and error texts, except where a text is part of a property. Strings are compared character by character, not byte by byte.
- Setters without a constraint across fields (batch size, readahead, parallelism, projection, filters, fragment ids, ef, metric), and the build-time checks on them.
- The scan statistics beyond the fallback and the search that a preparation records, and the times.
- PreparedFts.PrepareCoverage: starts from the loaded segments; finding the logical index and building the shared scorer are not part of the model.
- Putting the multi-vector scoring nodes into the plan: a node-for-node substitution.
- During one preparation the set of readable lookup files does not change, and the cache evicts no lookup that storage could not give again.
- A process abort ends a run; nothing is said about what comes after it.
- MultiVector.IndexedBatch: on failure it promises the first error of some query, because the code reads the query streams concurrently and does not fix which error wins.
- MultiVector.RowDistance: requires a positive dimension; the planner admits no other, and the code would panic.
