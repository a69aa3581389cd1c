# The patched scheduler and the resume planner, verified

This project models two programs and proves properties of the models.

**The scheduler** (`results/scheduler-r18-patched.py`): a continuous-batching scheduler with a starvation
guard.  Steps are scheduled ahead of the outputs that come back for them, so requests are preempted,
aborted, finished and resumed while shares of theirs are still in flight, and blocks are freed while a step
that may write them has not been processed.

**The resume planner** (`scripts/r26/agent_workload_recheck.py`): a workload run over a grid of scenarios
that writes a receipt after every scenario, may be cut off anywhere, and is resumed from its receipt.

## How it is built

The scheduler is modelled twice, and the two are tied together.

* `Machine` is a state machine over values.  A state holds the request table, the three queues, the FIFO of
  scheduled and unprocessed steps (each with its shares, and with the blocks the step may write), the locals
  of a `schedule()` pass, the transfer sets and the block pool (`Ledger`).  Twenty events are the decisions
  of the scheduler and the answers of its environment.  `Counters`, `Queues`, `Budgets`, `Transfers` and
  `Fences` each prove one part of the invariant kept by every event, and `Runs` states what holds after every
  run: any number of steps in flight, any environment.  `Histories` says what a request's fields are in terms of
  the events so far.
* `Scheduling.Scheduler` is the imperative program: `Request` objects updated in place (`Requests`), the
  request dictionary and the deferred-free queue (`Tables`), and methods with the source's loops.
  `Is(s)` says that the fields are the machine state `s` and that a run ends in `s`; every method takes the
  object from one such state to another, says which, and says that events of the machine lead there (`Follows`).
  So any sequence of calls is one run (`Runs.FollowingExtendsRuns`), and what `Runs` proves of states and of
  histories holds of it.  The methods are proved against relations on values: `Passes` (the RUNNING loop),
  `Admissions` and `Intake` (the WAITING loop), `FullPass` (all of `schedule()`), `Commits`, `Returns`
  and `LoadFailures` (`update_from_output`) and `Departures` (aborts, resets, transfer reports).

`ChunkSplit` and `ChunkLaws` are the prefill splitter, for one call and for whole prefills; `Offers` and
`Fairness` are what a request is offered and the guard's service bound; `SpecDecode` is speculative decoding
against decoding token by token; `KvRecovery` is the recovery from failed KV loads.

The planner is in `Resume` (grid, cells, receipts), `Sessions` (the session loop, with a cut-off after any
scenario) and `Closure` (what holds over histories of sessions).

The KV cache manager, the connector, the request queues of the PRIORITY policy and the model runner are not
part of the repository.  They are environments with contracts: an allocation fails or yields blocks nothing
references; the FCFS queue is a sequence; outputs come back once per step, in order, with at most one token
more than drafts; the connector reports each transfer it was asked for at most once, and does not start
sending the blocks of a request whose load is still under way.

Where a property is false of the code, the code is kept and the exact condition is proved:

* A lookahead of two or more can stop a prefill for ever: exactly when no more tokens than the lookahead
  remain and a mandatory position lies among them (`ChunkLaws.StuckIff`, `ChunkLaws.LookaheadOfTwoCanStall`); a
  position that is mandatory throughout keeps it out of the window for good (`ChunkLaws.NeverEntersLookahead`).
  With a lookahead of at most one a prefill finishes if at each turn both budgets are enough for it to move and
  the guard's chunk, if the guard is on and chunks are aligned, is at least a block (`Fairness.PrefillFinishes`).
* A chunk smaller than a block that fits the limit can be rounded to nothing (`ChunkLaws.SplitIsZeroIff`).
* A padded speculative admission keeps its width exactly when neither the threshold nor a mandatory chunk end
  cuts it (`SpecDecode.PaddedAdmissionIsWholeIff`); a cut one leaves the computed count wrong
  (`SpecDecode.ShortenedPaddingDesynchronizes`).
* A request whose scanned blocks are valid keeps the step's own share unscanned; its prefix is sound exactly
  when the blocks beyond the scan are valid or recomputed by others (`KvRecovery.PrefixSoundIff`).
* An affected load keeps all it had before the step exactly when earlier loads have marked all its invalid blocks
  (`KvRecovery.TruncatedIffMarks`; `KvRecovery.SharedLoadKeepsAll` is an instance).  Recovery is then not a step
  of the machine (`LoadFailures.RecoveryIsEnabledIff`), and if the load was whole its promotion leaves no token
  to compute (`LoadFailures.PromotionLeavesWorkIff`).
* A receipt written over a grid with a repeated key cannot be resumed
  (`Closure.FreshReceiptIsAcceptableIff`, `Closure.GridIsDistinctIff`).

The comment in `_drain_deferred_frees` (lines 2676-2678) says that a satisfied entry behind a pending one is
"merely freed later"; `Ledger.FenceReleasedInTime` bounds how much later: by one non-empty step.

## Model

| member | source | states |
|---|---|---|
| Runs.EveryRunKeepsInv | results/scheduler-r18-patched.py:571-2749 | after every run the counters, queue, budget, transfer and fence invariants hold together |
| Runs.FollowingExtendsRuns | results/scheduler-r18-patched.py:571-2749 | a state that follows another extends any run that led there, so the calls made on the scheduler form one run |
| Runs.CountersAreSums | results/scheduler-r18-patched.py:1511-1522 | in every run `num_in_flight_tokens` is the sum of a request's unprocessed shares, `num_stale_output_tokens` the sum of those scheduled before its latest preemption |
| Runs.StaleMeansPreempted | results/scheduler-r18-patched.py:1952-1962 | an output is treated as stale exactly when its step predates the latest preemption, and the `>= 0` assert never fires |
| Runs.DroppedForEver | results/scheduler-r18-patched.py:1976-1978 | a share in flight at a drop-mode preemption is never delivered, whatever happens in between |
| Runs.StaleDeliveryPrecedesResampling | results/scheduler-r18-patched.py:902-911 | a running request with stale output drops it; deliverable stale output is outstanding only while the request waits to resume, and all of it was scheduled since the preemption before the latest |
| Runs.DeliveredIsNotResampled | results/scheduler-r18-patched.py:1976-2050 | whenever an output is delivered, every other share of its request in flight was scheduled between the same two preemptions, so nothing of the request was scheduled again since: no position is both delivered and sampled again |
| Runs.WrittenBlocksAreNotFree | results/scheduler-r18-patched.py:2647-2660 | with deferred freeing, no block that an unprocessed step may write is free |
| Runs.FreshBlocksAreNotWritten | results/scheduler-r18-patched.py:754-762 | so no newly allocated block is still written by an older step |
| Runs.PoolPartition | results/scheduler-r18-patched.py:2647-2686 | free, held and deferred partition the pool: the reference count of a block is its holds plus its deferred listings |
| Runs.DeferredFreesAreTimely | results/scheduler-r18-patched.py:2673-2686 | in every run fence f is released once `processed_step_seq` reaches f + 1, and an earlier entry's fence exceeds a later one's by at most one |
| Ledger.FenceReleasedInTime | results/scheduler-r18-patched.py:2673-2686 | an entry that is due and still queued waits behind a copy retention for the very next step |
| Ledger.DrainMeaning | results/scheduler-r18-patched.py:2680-2686 | draining removes the longest prefix of reached fences and nothing else |
| Ledger.FreeNowConserves | results/scheduler-r18-patched.py:2651-2657 | freeing returns exactly the request's own references, which are all there |
| Ledger.ReleaseConserves | results/scheduler-r18-patched.py:2647-2660 | freeing or deferring moves references and neither loses nor invents one |
| Ledger.ReleaseProtects | results/scheduler-r18-patched.py:2647-2660 | releasing any request keeps every block of a pending step away from the free pool |
| Ledger.ProcessProtects | results/scheduler-r18-patched.py:1902-1904 | processing a step frees no block that a later step may write |
| Fences.CopyReleaseIsAlwaysDeferred | results/scheduler-r18-patched.py:2662-2671 | the copy retention's fence is always ahead of the processed steps, so with deferral on it never takes the immediate branch |
| Fences.FencesKept | results/scheduler-r18-patched.py:1460-1463 | every event keeps the fences ordered, the steps numbered consecutively and the blocks of unprocessed steps protected |
| Runs.QueuePartition | results/scheduler-r18-patched.py:872-1289 | between calls an unfinished request is in exactly one queue, in `running` exactly with status RUNNING; finished and unknown ones are in none |
| Queues.QueuesKept | results/scheduler-r18-patched.py:2243-2249 | every event keeps the partition, also in the middle of a pass |
| Runs.AdmissionStatusIsValid | results/scheduler-r18-patched.py:1247-1252 | the "Invalid request status" branch is unreachable, and what is admitted has a token to compute |
| Runs.ScheduleAssertsHold | results/scheduler-r18-patched.py:1296-1308 | both budgets plus their charges are constant and never overdrawn, and every assert at the end of a pass holds in every run |
| Budgets.PassAssertsHold | results/scheduler-r18-patched.py:1296-1308 | the scheduled ids are exactly those of the reported lists, which repeat none, and all are running |
| Budgets.RestoreKeepsBudgets | results/scheduler-r18-patched.py:781-789 | a PRIORITY victim already scheduled gives back exactly what it was charged |
| Runs.FirstComeFirstServed | results/scheduler-r18-patched.py:800-801 | in FCFS runs in which nothing is skipped, `running ++ waiting` is the arrival order with departures deleted |
| Queues.OrderStep | results/scheduler-r18-patched.py:1527-1528 | preemption, admission and forced resets leave `running ++ waiting` the same sequence |
| Runs.ReceiveSetsAreSound | results/scheduler-r18-patched.py:3034-3047 | the receive sets name only requests waiting for remote KVs, and promotion leaves them a token to compute |
| Runs.ReportsFindTheirRequest | results/scheduler-r18-patched.py:3037-3047 | the asserts on transfer reports hold: a reported request is known, and waiting or finished |
| Runs.AbortedLoadKeepsBlocks | results/scheduler-r18-patched.py:2592-2601 | a request aborted mid-load keeps its blocks through every event but its load's report |
| Runs.AbortedLoadFreedOnce | results/scheduler-r18-patched.py:3042-3043 | that report frees the blocks and forgets the request, so they are freed exactly once |
| Histories.TokensAreDelivered | results/scheduler-r18-patched.py:2046-2049 | in every run a request's tokens are its prompt and what was kept of every output delivered to it, stale ones included |
| Histories.ComputedIsBacked | results/scheduler-r18-patched.py:1507-1508 | in every run whoever runs or loads has a block table, and whoever has lost its table has nothing computed |
| Histories.ComputedIsAccounted | results/scheduler-r18-patched.py:1541-1544 | in every run a request's computed tokens are what was found at its last admission plus the shares booked since, less rejected drafts and what failed loads took away |
| Histories.WaitingIsNew | results/scheduler-r18-patched.py:2996-2999 | in every run a request has status WAITING exactly until it is first preempted, and only known requests have block tables |
| Histories.PromotionKeepsBlocksIff | results/scheduler-r18-patched.py:2953-2982 | a failed load keeps its blocks exactly if something valid is left in them |
| Histories.FreedAtOnce | results/scheduler-r18-patched.py:2647-2660 | in every run a request's blocks are deferred only while an unprocessed step may write them |
| Histories.DeliveredAfterAll | results/scheduler-r18-patched.py:1511-1521 | every share in flight at a preemption that drops nothing is delivered when it returns, whatever happens in between, unless the request has finished or older output was being dropped |
| Histories.DraftsAreProposed | results/scheduler-r18-patched.py:1509-1523 | in every run a request's drafts are those proposed since it was last scheduled or preempted, and its preemption count is how often it was |
| Histories.PlaceholdersAreOfTheRunning | results/scheduler-r18-patched.py:1522-1522 | in every run a waiting request has no output placeholders |
| ChunkSplit.MambaBlockAlignedSplit | results/scheduler-r18-patched.py:429-536 | the splitter's loop-free steps compute the function `Split`, whose meaning the next rows prove |
| ChunkSplit.PickEarliestStop | results/scheduler-r18-patched.py:535-535 | the minimum over the stops inside the chunk, or its end |
| ChunkLaws.SplitMeaning | results/scheduler-r18-patched.py:498-536 | a chunk ends at the first mandatory position after its start, or at its aligned end |
| ChunkLaws.ChunkEndClassified | results/scheduler-r18-patched.py:479-536 | an aligned nonzero chunk ends at a block multiple, a retention boundary, the tail hash boundary, or inside its own too-wide block |
| ChunkLaws.RoundedOrFree | results/scheduler-r18-patched.py:464-536 | exactly which chunks are rounded; the others end where they are offered or at a mandatory position |
| ChunkLaws.ReplayIsPrefill | results/scheduler-r18-patched.py:444-452 | prompt tokens and the outputs that a resumed request replays, all but the newest, are split; nothing else is |
| ChunkLaws.LastCachePositionIsGreatest | results/scheduler-r18-patched.py:461-470 | the last cacheable position is the greatest block boundary within the tokens, a whole block short of it if the cache drops the last |
| ChunkLaws.TailBoundaryIsGreatest | results/scheduler-r18-patched.py:507-511 | the tail boundary is the greatest hash boundary within the prompt |
| ChunkLaws.SharedStopOvertaken | results/scheduler-r18-patched.py:527-533 | the shared-prefix stop is never chosen from a misaligned start |
| ChunkLaws.BoundariesMaterialized | results/scheduler-r18-patched.py:498-536 | however budgets fragment a prefill, each boundary mandatory throughout that it reaches is some chunk's end |
| ChunkLaws.SplitIsZeroIff | results/scheduler-r18-patched.py:479-496 | exactly when a positive offer is rounded to nothing |
| ChunkLaws.SplitAdvances | results/scheduler-r18-patched.py:444-496 | an offer of a block, to the end, or under a too-wide block always advances |
| ChunkLaws.ReserveIsZeroIff | results/scheduler-r18-patched.py:566-569 | exactly when the lookahead reservation leaves nothing; otherwise no chunk ends inside the window |
| ChunkLaws.StuckInLookahead | results/scheduler-r18-patched.py:498-569 | a position mandatory for every chunk stops a prefill in the lookahead window, whatever it is offered |
| ChunkLaws.StuckIff | results/scheduler-r18-patched.py:498-569 | exactly when no offer can move a prefill again: at most `lookahead` tokens remain and a mandatory position lies among them |
| ChunkLaws.NeverEntersLookahead | results/scheduler-r18-patched.py:498-569 | a position mandatory throughout inside the lookahead window keeps a prefill out of it whatever list of offers it gets |
| ChunkLaws.LookaheadOfTwoCanStall | results/scheduler-r18-patched.py:566-569 | a concrete prefill that stalls with a lookahead of two |
| ChunkLaws.PrefillTerminates | results/scheduler-r18-patched.py:444-569 | with a lookahead of at most one, enough offers finish any prefill, each being adequate where it is made |
| ChunkLaws.SmallChunkStalls | results/scheduler-r18-patched.py:494-496 | a guard chunk below a block that fits the limit never advances from a block boundary |
| Offers.OfferFits | results/scheduler-r18-patched.py:660-729 | an offer is never negative and never exceeds either budget |
| Offers.OfferIsLeast | results/scheduler-r18-patched.py:660-729 | an offer is the least of what is left to compute (drafts and placeholders included), the threshold, both budgets, the model length and, where it applies, the guard, then split and kept out of the lookahead window |
| Offers.DecodeOfferIsLeast | results/scheduler-r18-patched.py:660-690 | for a request past its prefill it is just that least, or nothing if a limit is exhausted |
| Offers.UnalignedOfferIsLeast | results/scheduler-r18-patched.py:660-690 | and for any request without alignment and with a lookahead of at most one |
| Offers.DraftsFillTheShare | results/scheduler-r18-patched.py:827-843 | the drafts of an offered share are exactly its tokens beyond the known ones: all of them when nothing cuts the demand |
| Offers.PassesOverIff | results/scheduler-r18-patched.py:632-658 | a decode is passed over exactly when the step in flight reaches its token limit even with all drafts rejected, or where the pass says so |
| Offers.NotPassedOver | results/scheduler-r18-patched.py:632-658 | without output outstanding, only where the pass says so |
| Fairness.EveryDecodeServed | results/scheduler-r18-patched.py:626-690 | when the budgets cover the guard chunks and decodes up to a ready decode, it gets the least of its own limits, its drafts filling the share, whatever the other running requests are |
| Fairness.UnguardedPrefillTakesAll | results/scheduler-r18-patched.py:671-690 | with the guard off, one prefill in front takes the whole budget |
| Fairness.GuardKeepsProgress | results/scheduler-r18-patched.py:671-690 | a guard chunk that fits does not cost a prefill its progress |
| Fairness.OfferAdvances | results/scheduler-r18-patched.py:660-729 | budgets that are enough for the splitter give a running prefill a positive offer through threshold, guard, model length, split and reservation |
| Fairness.PrefillFinishes | results/scheduler-r18-patched.py:660-729 | so a prefill finishes in as many turns as it has tokens left, whatever else runs and however the budgets vary |
| Fairness.BlockBudgetsSuffice | results/scheduler-r18-patched.py:479-496 | budgets of a block at every turn are always enough; of one token, if chunks are not aligned |
| Fairness.TruncationLeavesPrefillFlag | results/scheduler-r18-patched.py:3126-3126 | truncating a load leaves `is_prefill_chunk` stale |
| FullPass.ScheduleServesDecodes | results/scheduler-r18-patched.py:571-858 | the service bound for the step that a whole call of `schedule()` emits, if nothing had to be preempted |
| Scheduling.Scheduler.OfferFor | results/scheduler-r18-patched.py:660-729 | the reassigned `num_new_tokens` is the offer |
| Scheduling.Scheduler.ConsiderOffer | results/scheduler-r18-patched.py:632-731 | which requests are passed over, and what the others are offered |
| Scheduling.Scheduler.VictimIndex | results/scheduler-r18-patched.py:766-801 | the last running request, or the first with a greatest key |
| Scheduling.Scheduler.PreemptVictim | results/scheduler-r18-patched.py:764-808 | one preemption: the cursor stays on its request unless that is the victim, nothing ahead is lost, budgets only grow, and in FCFS the victim was not scheduled |
| Scheduling.Scheduler.AllocateOrPreempt | results/scheduler-r18-patched.py:753-843 | preempts, once for each refused allocation, until the request is scheduled with its offer or has itself been preempted; no other share changes; terminates |
| Scheduling.Scheduler.ScheduleRunning | results/scheduler-r18-patched.py:626-858 | one visit after another: each request is passed over, or served with the offer of that moment, or preempted; none twice; one preemption for each refused allocation; and why it stopped |
| Passes.NoneSkippedSilently | results/scheduler-r18-patched.py:626-858 | whatever is preempted before or after it, a considered request was passed over or offered nothing, or ends with exactly its offer, or is preempted |
| Passes.VictimEffect | results/scheduler-r18-patched.py:764-808 | deleting the victim from the list being walked keeps cursor, order and shares right |
| Passes.VictimIsLeastUrgent | results/scheduler-r18-patched.py:766-801 | no running request is less urgent than the PRIORITY victim, by priority and then by arrival |
| Passes.FcfsVictimIsAhead | results/scheduler-r18-patched.py:800-801 | in FCFS the victim is never one already scheduled |
| Passes.FcfsVictimMovesOver | results/scheduler-r18-patched.py:1527-1528 | in FCFS a preemption leaves `running ++ waiting` the same sequence |
| Passes.ScanServes | results/scheduler-r18-patched.py:753-825 | one served request keeps the RUNNING loop's account of who was considered |
| Passes.ScanSkips | results/scheduler-r18-patched.py:632-749 | so does one that is passed over |
| Passes.RunningKnown | results/scheduler-r18-patched.py:1501-1503 | running requests are distinct, known and have status RUNNING, so the preemption assert holds |
| Scheduling.Scheduler.PreemptRequest | results/scheduler-r18-patched.py:1488-1529 | takes one request out of `running` and preempts it as the machine does |
| Requests.Request.MarkPreempted | results/scheduler-r18-patched.py:1507-1523 | the request's own fields at a preemption |
| Requests.Request.AdvanceComputed | results/scheduler-r18-patched.py:1543-1551 | the request's own fields when its share is booked |
| Requests.Request.DrainOutput | results/scheduler-r18-patched.py:1955-1962 | the two counters when a share returns |
| Requests.Request.AcceptOutput | results/scheduler-r18-patched.py:1985-2007 | the roll-back of rejected drafts and the append of kept tokens |
| Requests.Request.TakeDrafts | results/scheduler-r18-patched.py:827-843 | the drafts of a share, truncated to what fits, then cleared |
| Admissions.Reconcile | results/scheduler-r18-patched.py:944-1006 | the longer of the local and the remote hit wins, with its blocks; a local one that nothing backs is cut back |
| Admissions.AdmissionOffer | results/scheduler-r18-patched.py:1045-1130 | the share of an admitted request, or that the loop stops there |
| Admissions.AdmissionIsLeast | results/scheduler-r18-patched.py:1045-1130 | that share is the least of the demand or padded width, the threshold and both budgets, split and kept out of the lookahead window; and exactly when there is none |
| Admissions.ChunkedAdmissionIsLeast | results/scheduler-r18-patched.py:1045-1094 | a chunked admission without alignment, padding or deferral always exists and is just that least |
| Admissions.AdmissionFits | results/scheduler-r18-patched.py:1049-1130 | that share is positive, within both budgets, and exceeds what is missing only by padding |
| Admissions.UnchunkedAdmissionIsWhole | results/scheduler-r18-patched.py:1083-1092 | without chunked prefill an admission is all or nothing, up to the threshold |
| Admissions.LookUp | results/scheduler-r18-patched.py:934-1007 | what the two answers make of a request: its cached prefix and blocks; the assert on the total holds, and a token is left to compute unless it is loaded asynchronously |
| Scheduling.Scheduler.TryPromote | results/scheduler-r18-patched.py:2984-2999 | promotes exactly the loads reported done |
| Scheduling.Scheduler.UpdateWaitingForRemoteKv | results/scheduler-r18-patched.py:2941-2982 | failed loads lose their blocks if nothing is left, whole ones recompute the last token |
| Scheduling.Scheduler.ReadyHead | results/scheduler-r18-patched.py:886-912 | a head is held back exactly if its load is not done or deliverable stale output is in flight |
| Scheduling.Scheduler.ServeHead | results/scheduler-r18-patched.py:883-1263 | one iteration of the WAITING loop: held exactly if blocked, else loaded or admitted with the prefix found for it and the share it is due, or put aside for an answer of the connector that was undetermined; or the loop stops, for a refused allocation or for want of a share |
| Scheduling.Scheduler.ScheduleWaiting | results/scheduler-r18-patched.py:870-1289 | the WAITING loop is such iterations, and terminates; what it takes goes to `running` and the report in order, the rest back in front of the skipped queue; it stops only at an exhausted limit, an allocation really refused, or a head with no share |
| Intake.OnlyBlockedAreHeld | results/scheduler-r18-patched.py:886-977 | without a connector only blocked requests are put aside |
| Intake.BlockedIff | results/scheduler-r18-patched.py:886-912 | a head is blocked exactly if it cannot be admitted in this pass, not even after its load's promotion |
| Intake.IntakeStep | results/scheduler-r18-patched.py:874-899 | in FCFS the loop pops a prefix of the skipped queue followed by the waiting queue |
| Intake.IntakeEnds | results/scheduler-r18-patched.py:1287-1289 | putting the held requests back loses none |
| Intake.NothingHeldKeepsOrder | results/scheduler-r18-patched.py:1209-1242 | an FCFS pass that holds nothing leaves the order of all requests as it was |
| Scheduling.Scheduler.Schedule | results/scheduler-r18-patched.py:571-1467 | a whole call: the visits of both loops in order, the second only without preemption and unpaused; the asserts hold; one step is appended with exactly the chosen shares and the blocks they may write; each preemption answers a refused allocation |
| FullPass.RunningDone | results/scheduler-r18-patched.py:625-858 | without preemption the RUNNING loop hands out the shares of the undisturbed pass |
| FullPass.PassCloses | results/scheduler-r18-patched.py:1296-1308 | the closing asserts, and the step that is booked |
| Scheduling.Scheduler.UpdateAfterSchedule | results/scheduler-r18-patched.py:1460-1551 | books every share and the fence of the new step |
| Tables.BookOne | results/scheduler-r18-patched.py:1541-1551 | booking one more share, in any order, books exactly that request |
| Tables.RequestTable.AdvanceAll | results/scheduler-r18-patched.py:1541-1551 | the loop of `_update_after_schedule`: every share once, in an arbitrary order |
| Tables.BlockFence.FreeRequestBlocks | results/scheduler-r18-patched.py:2647-2660 | frees at once or defers behind the current step |
| Tables.BlockFence.FreeCowRetainedBlocks | results/scheduler-r18-patched.py:2662-2671 | frees the copies' blocks at once or defers them behind the next step |
| Tables.BlockFence.DrainDeferredFrees | results/scheduler-r18-patched.py:2673-2686 | the draining loop |
| Tables.BlockFence.StepProcessed | results/scheduler-r18-patched.py:1902-1904 | counts a processed step, then drains |
| Scheduling.Scheduler.TakeOutput | results/scheduler-r18-patched.py:1952-2048 | one returned share: drained, then dropped, delivered, or delivered and stopped |
| Scheduling.Scheduler.StopRequest | results/scheduler-r18-patched.py:2145-2156 | a stopped request is freed at once and leaves its queue after the loop |
| Scheduling.Scheduler.UpdateFromOutput | results/scheduler-r18-patched.py:1885-2249 | recovers from failed loads, then takes in each output of the oldest step once, skipping those recovery names; removing the stopped requests only at the end comes to the same |
| Returns.StopRetires | results/scheduler-r18-patched.py:2243-2249 | a stopped request is in no queue but the one its status names |
| Returns.DeliveredIsNotLoading | results/scheduler-r18-patched.py:1976-1978 | an output is never delivered to a request that waits for remote KVs |
| Returns.RemoveAll | results/scheduler-r18-patched.py:2244-2245 | `remove_all` keeps the order and the others |
| Scheduling.Scheduler.AddRequest | results/scheduler-r18-patched.py:2514-2540 | a new request at the end of the FCFS queue |
| Scheduling.Scheduler.ResetPrefixCache | results/scheduler-r18-patched.py:2740-2749 | every running request is preempted in drop mode; in FCFS the order is kept |
| Departures.ResetStep | results/scheduler-r18-patched.py:2745-2749 | one step of that loop |
| Scheduling.Scheduler.FinishRequests | results/scheduler-r18-patched.py:2542-2603 | finishes exactly the named unfinished requests; taking all of them out of the queues first comes to the same as one by one |
| Departures.RetireFacts | results/scheduler-r18-patched.py:2589-2601 | what finishing one request changes, and when its blocks stay |
| Departures.FinishesFinish | results/scheduler-r18-patched.py:2575-2603 | after finishing some requests each is finished or gone, every other is as it was, the queues lack just those and keep their order |
| Departures.NamedAreFinished | results/scheduler-r18-patched.py:2558-2573 | a call finishes every known request that it names and no other |
| Scheduling.Scheduler.UpdateFromKvXferFinished | results/scheduler-r18-patched.py:3020-3047 | the reports one after another; the asserts that the requests are known hold |
| Scheduling.Scheduler.UpdateDraftTokenIds | results/scheduler-r18-patched.py:2447-2467 | proposals are kept except for finished requests and those in the middle of their prefill |
| SpecDecode.SpecRequest.Schedule | results/scheduler-r18-patched.py:828-843 | the scheduled drafts are the proposal's prefix that the share holds |
| SpecDecode.SpecRequest.Update | results/scheduler-r18-patched.py:1985-2007 | after the roll-back the cache holds all but the newest token, the output is that of plain decoding, and the step is not lost |
| SpecDecode.Generate | results/scheduler-r18-patched.py:827-843 | any number of steps, with any drafts and limits, outputs what decoding token by token outputs |
| SpecDecode.SampledIsPlain | results/scheduler-r18-patched.py:1985-1994 | accepted drafts are what token-by-token decoding produces |
| SpecDecode.RollbackIsExact | results/scheduler-r18-patched.py:2000-2007 | the machine's counters do the same, the roll-back takes no more than the share added, and the request counts as a decode from then on |
| SpecDecode.PartialPrefillStays | results/scheduler-r18-patched.py:1541-1551 | a share that stops short of the newest token leaves the request mid-prefill and is kept whole |
| SpecDecode.MidPrefillMeansMoreToCompute | results/scheduler-r18-patched.py:1549-1551 | a booked share leaves a request mid-prefill exactly when it has something left to compute, drafts aside |
| SpecDecode.AsyncShareKeepsPace | results/scheduler-r18-patched.py:660-664 | with placeholders, scheduling keeps all computed but the newest token had or under way |
| SpecDecode.AsyncOutputKeepsPace | results/scheduler-r18-patched.py:2000-2007 | so does each output, however many drafts are rejected, with any number of steps in flight |
| SpecDecode.PaddedAdmissionIsWholeIff | results/scheduler-r18-patched.py:1058-1104 | exactly when a padded admission keeps its uniform width |
| SpecDecode.ShortenedPaddingDesynchronizes | results/scheduler-r18-patched.py:1264-1267 | a cut one leaves the computed count short by what was cut off |
| SpecDecode.PaddingCanBeCut | results/scheduler-r18-patched.py:1097-1105 | a concrete cut admission |
| KvRecovery.ScanRequest | results/scheduler-r18-patched.py:3087-3148 | one request's scan: what it keeps, loses, marks and evicts |
| KvRecovery.UpdateRequestsWithInvalidBlocks | results/scheduler-r18-patched.py:3080-3150 | the scan over all requests, given by what earlier requests have marked |
| KvRecovery.MarkedByExactlyOne | results/scheduler-r18-patched.py:3105-3122 | each invalid block in a computed prefix is recomputed by exactly one request |
| KvRecovery.MarkerRestartsBefore | results/scheduler-r18-patched.py:3126-3126 | whoever marks a block restarts at or before it |
| KvRecovery.KeepsUpToItsFirstMark | results/scheduler-r18-patched.py:3119-3126 | a marking request keeps everything before the first block that it marks |
| KvRecovery.KeptBlocksAreSound | results/scheduler-r18-patched.py:3105-3126 | every scanned block left in a computed prefix is valid or recomputed by an earlier request |
| KvRecovery.PrefixSoundIff | results/scheduler-r18-patched.py:3098-3146 | every block left in a computed prefix is valid or recomputed by an earlier request, exactly when the request is affected or the blocks beyond its scan are |
| KvRecovery.UnscannedBlockIsKept | results/scheduler-r18-patched.py:3095-3104 | a concrete request whose only block lies beyond the scan, is invalid, and is kept |
| KvRecovery.AffectedKeepsScanned | results/scheduler-r18-patched.py:3137-3146 | an affected request keeps only what was scanned |
| KvRecovery.LostIsWhatIsGivenUp | results/scheduler-r18-patched.py:3127-3146 | what the affected-token total counts |
| KvRecovery.MarkedIsEvicted | results/scheduler-r18-patched.py:3132-3134 | when evicting, marked blocks and all that depend on them are evicted |
| KvRecovery.EvictedIsDownstream | results/scheduler-r18-patched.py:3132-3134 | and nothing else is evicted |
| KvRecovery.AffectedIff | results/scheduler-r18-patched.py:3095-3108 | affected are exactly the requests with an invalid block for tokens computed before the step |
| KvRecovery.HandleInvalidBlocks | results/scheduler-r18-patched.py:3152-3221 | both kinds of loads, under both failure policies |
| KvRecovery.UnsharedLoadIsTruncated | results/scheduler-r18-patched.py:3105-3126 | an affected load that shares no invalid block is truncated below what it had; valid ones it may share |
| KvRecovery.TruncatedIffMarks | results/scheduler-r18-patched.py:3105-3146 | an affected request is truncated below what it had exactly when it has an invalid block that no earlier one has |
| KvRecovery.RecoveryIsAnEvent | results/scheduler-r18-patched.py:3166-3190 | recovery is a step of the state machine exactly when each affected load marks a block or had a share in the step |
| LoadFailures.RecoveryIsEnabledIff | results/scheduler-r18-patched.py:3152-3221 | the same condition for the loads and running requests of a state |
| LoadFailures.RecoveryReaches | results/scheduler-r18-patched.py:3152-3221 | then recovery over the requests of a reachable state leads to a reachable state |
| LoadFailures.RecoveryMarks | results/scheduler-r18-patched.py:3216-3219 | the loads newly marked failed are exactly the affected ones |
| LoadFailures.MarkedFailedIff | results/scheduler-r18-patched.py:3216-3219 | exactly the loads with such a block are newly marked failed |
| LoadFailures.SkippedIff | results/scheduler-r18-patched.py:3195-3221 | no output computed from an invalid block is taken in: the skipped ids are exactly those with such a block |
| LoadFailures.ScannedLists | results/scheduler-r18-patched.py:3163-3184 | the scanned loads and running requests are distinct and disjoint |
| Tables.RequestTable.RecoverLoads | results/scheduler-r18-patched.py:3152-3221 | the requests after recovery are the state's, truncated to what the scan leaves the affected ones |
| Scheduling.Scheduler.HandleInvalidBlocks | results/scheduler-r18-patched.py:3152-3221 | the in-place recovery truncates as the machine's event does in every case, is that event exactly when each affected load loses something, and says which outputs this step skips |
| KvRecovery.PromotionLeavesWork | results/scheduler-r18-patched.py:2953-2982 | exactly when promotion leaves a token to compute |
| LoadFailures.PromotionLeavesWorkIff | results/scheduler-r18-patched.py:2953-3219 | after recovery a failed load that was whole is promoted with a token to compute exactly when it lost something |
| KvRecovery.SharedLoadKeepsAll | results/scheduler-r18-patched.py:3109-3115 | what sharing can bring about |
| Resume.ResumeMetadataMismatches | scripts/r26/agent_workload_recheck.py:1163-1176 | exactly the compared fields that differ |
| Resume.SameRequestIff | scripts/r26/agent_workload_recheck.py:1098-1118 | two invocations record matching configurations exactly when they ask for the same measurement: every argument but the output path, the resume switch and the parsed policies |
| Resume.ScanCells | scripts/r26/agent_workload_recheck.py:1213-1243 | exactly the problem cells, and otherwise exactly the terminal cells |
| Resume.LoadResumeState | scripts/r26/agent_workload_recheck.py:1179-1271 | accepts exactly the acceptable receipts, and plans the rest of the grid |
| Resume.PlanMissing | scripts/r26/agent_workload_recheck.py:1246-1246 | the grid's keys without a terminal cell, in order |
| Closure.OutsideKeeps | scripts/r26/agent_workload_recheck.py:1246-1246 | the plan lists exactly the grid's keys without a terminal cell, each once |
| Resume.SoundMeansNoProblem | scripts/r26/agent_workload_recheck.py:1218-1245 | no problem is reported exactly when all cells are distinct grid cells |
| Sessions.Harness.RunScenario | scripts/r26/agent_workload_recheck.py:1307-1349 | one scenario: recorded, and the snapshot rewritten |
| Sessions.Harness.AsyncMain | scripts/r26/agent_workload_recheck.py:1292-1355 | a session cut off anywhere has visited a prefix of the grid and left the snapshot of it |
| Sessions.Invoke | scripts/r26/agent_workload_recheck.py:1292-1355 | a refused resume leaves the receipt untouched |
| Sessions.PrefixSoFar | scripts/r26/agent_workload_recheck.py:1300-1303 | the nested loops walk `scenario_grid` in order |
| Sessions.ErrorCellIsNotTerminal | scripts/r26/agent_workload_recheck.py:1311-1330 | a scenario that raised is identified and will be run again |
| Sessions.TerminalMeansMeasured | scripts/r26/agent_workload_recheck.py:676-723 | a measured scenario is reused whether its gates passed or not; one not measured is run again |
| Sessions.OtherCellsRunAgain | scripts/r26/agent_workload_recheck.py:1136-1151 | a cell with another status, or without a trace hash, gates, summary or requests is run again |
| Closure.SnapshotsAreAcceptable | scripts/r26/agent_workload_recheck.py:1331-1348 | every snapshot is itself an acceptable receipt |
| Closure.TerminalCellsSurvive | scripts/r26/agent_workload_recheck.py:1274-1285 | terminal cells survive a resumed session verbatim and are not executed again |
| Closure.CompletedListsGrid | scripts/r26/agent_workload_recheck.py:1350-1355 | a completed session lists each key of the grid once, in grid order |
| Closure.ResumeClosure | scripts/r26/agent_workload_recheck.py:1292-1355 | any history of cut-off and resumed sessions ends in that grid, with every terminal cell of any earlier receipt |
| Closure.TerminalCellsAreNotExecutedAgain | scripts/r26/agent_workload_recheck.py:1300-1303 | a cell terminal after some session of a history is not executed by any later one |
| Closure.InterruptionsDoNotMatter | scripts/r26/agent_workload_recheck.py:1292-1355 | with reproducible scenarios the result is that of one uninterrupted run |
| Closure.FreshReceiptIsAcceptableIff | scripts/r26/agent_workload_recheck.py:1226-1231 | a fresh receipt can be resumed exactly when the grid repeats no key |
| Closure.GridIsDistinctIff | scripts/r26/agent_workload_recheck.py:1154-1160 | that is, when neither argument list repeats an entry |
| Closure.SameRequestSameAcceptance | scripts/r26/agent_workload_recheck.py:1163-1176 | matching metadata means the same grid and the same accepted receipts |
| Closure.ReceiptIsForItsMeasurement | scripts/r26/agent_workload_recheck.py:1179-1207 | what a session wrote can be resumed exactly by an invocation that asks for the same measurement |

## Left out

- Runs.QueuePartition: for non-resumable requests; a streaming session stopped while preempted is put back in a queue and then removed from it (lines 2389-2392, 2246-2249), and streaming sessions are not modelled.
- Fairness.EveryDecodeServed: for a decode past its prefill in every sense; `is_prefill_chunk` alone does not say so after a truncated load (`Fairness.TruncationLeavesPrefillFlag`).
- Fairness.PrefillFinishes: for a request without asynchronous placeholders whose prefill the model length can hold; a longer one is cut off by `max_model_len`.
- Runs.ReceiveSetsAreSound: for runs in which each affected load loses something, as it does if loads share no invalid block, the source's assumption (lines 3112-3114); otherwise recovery is no event (`LoadFailures.RecoveryIsEnabledIff`).
- Closure.ResumeClosure: for grids that repeat no key; others cannot be resumed at all (`Closure.FreshReceiptIsAcceptableIff`).
- Scheduling.Scheduler.UpdateFromOutput: for steps in which each affected load loses something, as above; it ends where the stopped requests leave the queues: failing the requests whose loads failed under the failure policy (lines 2251-2261) and the transfer reports (line 2275) are the calls `FinishRequests` and `UpdateFromKvXferFinished` that follow it, and evicting blocks from the prefix cache is not modelled.
- Scheduling.Scheduler.ScheduleWaiting: the order in which held requests go back in front of the skipped queue is any order, since `prepend_requests` is not shown.
- Admissions.Reconcile: a truncated list of cached blocks keeps one block for each full block of tokens; how the cache lays out blocks of several groups is not modelled.
- Scheduling.Scheduler.SelectQueue: under PRIORITY either nonempty queue, and a queue position chosen freely on arrival and preemption; the heap order is not modelled.
- Requests.KvCacheManager.AllocateSlots: fails or succeeds freely; block counts, caching, watermarks and `_inflight_prefills` reservations are not modelled.
- The id of a request is not reused while a step with it is in flight.
- Which drafts are proposed, which tokens are sampled, where `check_stop` cuts them, and the asynchronous subclass's `num_output_placeholders`, are the environment's.
- `defer_prefills` and pipeline-parallel eligibility are inputs of a pass; `prefill_capacity_bound` and the cadence that set them are not modelled.
- Multimodal encoder inputs, LoRA limits, structured-output grammars, pooling, routed experts, log probabilities, statistics, events and tracing.
- `finished_req_ids`, `reset_preempted_req_ids`, the connector's metadata, and the assembly of `SchedulerOutput` beyond the shares and drafts of a step.
- Paused streaming sessions in `num_running`, and requests waiting for a grammar.
- The planner's scenarios themselves, its provenance block beyond its presence, and time stamps; of the metadata, the three fields that are constants of the program.
- `int()` of a numeric string and `str()` of a number or container in `cell_identity`: the model refuses such a cell.
- Reading and writing the receipt: writes are atomic, and what is written reads back as it was.
