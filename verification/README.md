# Verification of the eventsourcing library

A Dafny 4.11 model of the concurrent and stateful core of the Go library `terraskye/eventsourcing`, with proofs of
what it promises. Run `dafny verify dfyconfig.toml` to check everything.

Three forms are used. Code that several goroutines or instances run at once is a transition system, whose steps are
single store calls, single turns under a lock, or single channel operations, and whose theorems are about every run.
Code that one caller runs step by step is a class or a method with loops, proved against functions over values. The
functions are shared: the transition systems step by the same functions the classes are proved to compute.

## The parts

**Projections.** Several runners compete for the segments of a projection through a store with leases fenced by
epochs. `projection_rows.dfy` says what each store call does to a segment's row, `memory_projection_store.dfy` proves
the in-memory store computes it, and `projection_protocol.dfy` is the transition system: claims, expiry, takeover,
batches, single-event commits, dead letters, stream replays, resets, crashes, and store calls that fail. A commit is
one unit of work, as the SQL stores make it. `projection_ledger.dfy` and `projection_safety.dfy` hold the invariant,
`projection_theorems.dfy` the results, `projection_conditions.dfy` the exact conditions of those that can fail, and
`projection_counterexamples.dfy` runs in which they do. `segment_worker.dfy` is one runner's event loop as imperative code over a
deterministic handler. `membership.dfy` and `rebalancing.dfy` are the quota computation and the moves it drives.
`status_agreement.dfy` follows what an instance keeps in memory while its goroutines commit, claim and rebuild,
`retired_lease.dfy` a lease that a rebuild retires, and `replay_queue.dfy` the replay requests that one goroutine
polls and others serve between two batches.

**Event store and command handler.** `event_store.dfy` is the in-memory log with its index per stream,
`command_handler.dfy` the load-evolve-decide-save loop, `serializability.dfy` many such loops and other writers on one
store, `backwards_paging.dfy` the dashboard's search for the newest events over a reader that only reads forwards.

**Command bus.** `command_bus.dfy` is the dispatch and shutdown protocol, one lock, counter or channel action at a
time, for any number of dispatchers, shards and Stop calls; `command_bus_theorems.dfy` its safety and its termination.

**Automation.** `batch_dispatch.dfy` runs one batch with ordering keys, `lease_allocator.dfy` and
`lease_fairness.dfy` are the fair lease store, `lease_order.dfy` compares its order with the one its contract names,
and `claim_scheduler.dfy` and `claim_runs.dfy` are the scheduler that holds, claims for and gives back segments.

`basics.dfy` and `sums.dfy` hold definitions that several of these share.

## Where the code does less than its comments say

Each of these is modelled as the code is. The exact condition, and the input or run that goes wrong, are lemmas.

- A rebuild claims its segment again after the reset (`projection/segment.go:353-357`) without the checks a first
  claim goes through. If another instance took the segment over in between and gave it back, the runner works on
  without its dead letters or its event-type check: a parked stream can skip ahead, and an event can end up neither
  applied nor recorded. `HonestIff`: a run keeps its checkpoints honest, however it goes on from any of its states,
  exactly when every such claim kept the old one or found nothing processed or the runner's own event types.
  `InOrderIff`: with one set of event types, it keeps every stream in order exactly when every such claim kept the old
  one or found no dead letters. `SkipsAhead` and `LosesAnEvent` are runs that go wrong.
- BatchSize is said to set how much is read and committed at once (`projection/projection.go:244-246`). Under
  SkipWhenLive it also decides what stalls, because being live is computed per read (`projection/segment.go:239-242`):
  a page short of the head stalls on a failure that a page up to the head skips. `PagesMatterIff` is the exact
  condition, `SmallPagesStall` an input on which the smaller page stalls.
- The resetting window (`projection/runner.go:461-487`) is one flag. When two segments of one instance rebuild at
  once, the one that fails clears it inside the other's window. `AgreesIff`: memory and store agree outside the window
  in every run exactly when there is one segment or the Version is 0; `SomeRunDisagrees` is a run in which they do not.
- Serving replays ends by asking for one more poll, and only then forgets what was queued
  (`projection/replay.go:209-214`). A poll in between finds a request still queued and clears the flag, so that a
  request whose outcome could not be recorded, said to be queued again by the next poll, may not be. `InSightIff`: a
  run keeps every pending request in sight exactly when no goroutine forgets one, still pending, after a poll has
  cleared the flag it set. `ForgetsNoneIff`: that is so in every run exactly when recording an outcome fails for a
  lost claim only. `SomeRunForgets` is a run that leaves one behind.
- A lease retired by a rebuild is said to cost one ErrClaimLost and a claim (`projection/segment.go:344-348`).
  `SomeLeaseIsRetired` is a run that retires one claimed after the reset, and `RetiredLeaseWaits`: from there every
  claim is refused, this instance's own included, until the ttl has passed.
- A pinned Revision(N) is checked at the save only (`command_handler.go:160-177`). `PinnedSaveIsSerialIff`: the save
  is the one a full load would have made, for every handler, exactly when N events had been loaded.
  `PinnedRunIsNotSerial` is a run in which fewer were.
- The Store contract orders candidates group by group (`automation/store.go:20-28`); the code deals the groups out in
  turn, every group's first key before any group's second. `GroupByGroupIff`: the two orders are one exactly when
  every group but the last in turn has one candidate; `SecondGroupServed` is an input on which they grant differently.

One comment differs in wording only: `next` is said to pick the oldest-waiting queue
(`automation/automation.go:685-687`), and picks by first appearance in the batch, as the model does.

## Model

| member | source | states |
|---|---|---|
| `ProjectionTheorems.ExactlyOnceAlways` | projection/segment.go:151-284 | in every state of every run with one set of event types, the events applied since the last reset and the dead letters are the segment's matching events up to the checkpoint, each once |
| `ProjectionTheorems.HonestCheckpoint` | projection/segment.go:167-181 | across deployments: at a position above 0 the fingerprint is set, every commit since the reset came from that event-type set, and the ledger is exact for it, while reclaims are clean |
| `ProjectionConditions.HonestIff` | projection/segment.go:353-371 | checkpoints stay honest in every continuation without further reclaims, from every state of a run, if and only if each reclaim in the run kept its claim, or found nothing processed or its own event types |
| `ProjectionConditions.GoOn` | projection/segment.go:357-370 | from a reclaim that found something processed, three steps of the loop commit one more event without a check |
| `ProjectionTheorems.ParkedNeverSkipsAhead` | projection/segment.go:430-451 | what is applied of each stream is a log-order prefix of the segment's events of it, while reclaims are clean; for any mix of deployments |
| `ProjectionConditions.InOrderIff` | projection/segment.go:353-371 | with one set of event types: every stream stays a prefix in every continuation without further reclaims, from every state of a run, if and only if each reclaim in the run kept its claim or found no dead letters |
| `ProjectionTheorems.ParkedKnownIff` | projection/segment.go:303-371 | the holder knows its parked streams in every state of a run if and only if every reclaim kept its claim or found no dead letters |
| `ProjectionTheorems.TypesKnownIff` | projection/segment.go:167-181 | the holder's event types are the stored ones in every state of a run if and only if every reclaim kept its claim, or found nothing processed or its own types |
| `ProjectionTheorems.OneDeploymentIsClean` | projection/segment.go:226-238 | with one set of event types the exactness invariant needs no condition on reclaims |
| `ProjectionTheorems.TakeoversRaiseEpoch` | memory/projection_store.go:148-167 | along any run a later takeover of a segment has a higher epoch, so an epoch is granted once |
| `ProjectionTheorems.HolderIsCurrent` | projection/segment.go:183-238 | between two batches the holder's local checkpoint is the stored one; nobody else's lease is current |
| `ProjectionTheorems.Grows` | memory/projection_store.go:225-229 | epochs, grants, the replay boundary and the history only grow along a run |
| `ProjectionTheorems.HandlingIsTruthful` | projection/segment.go:471-478 | one commit: what it handles joins the history, and an event handled before sees IsReplaying |
| `ProjectionTheorems.IsReplayingIsTruthful` | projection/context.go:20-34 | an event whose handling is committed a second time sees IsReplaying, across any resets, takeovers and replays |
| `ProjectionCounterexamples.SkipsAhead` | projection/segment.go:353-357 | a run in which a stream's second event is applied while its first is a dead letter |
| `ProjectionCounterexamples.LosesAnEvent` | projection/segment.go:357-370 | a run whose checkpoint passes an event that is neither applied nor a dead letter |
| `ProjectionSafety.StepKeeps` | projection/segment.go:151-284 | every step of the protocol keeps the ledger, the fence and every worker's local state |
| `ProjectionSafety.WipeKeeps` | sqlite/projection_store.go:155-196 | a reset leaves every segment's ledger empty and true, and only the caller's claim |
| `ProjectionLedger.CommitReplay` | projection/segment.go:542-583 | applying a dead letter and deleting it keeps the segment's account, at the same checkpoint |
| `ProjectionRows.InsertLetterOrdered` | memory/projection_store.go:357-369 | a dead letter goes in by position: the letters stay ordered |
| `MemoryProjectionStore.ProjectionStore.Declare` | memory/projection_store.go:106-125 | creates the segments once; a different count is refused |
| `MemoryProjectionStore.ProjectionStore.Claim` | memory/projection_store.go:148-167 | grants under the fence or the ttl test, raising the epoch unless the claim was current |
| `MemoryProjectionStore.ProjectionStore.FinishCommit` | memory/projection_store.go:188-198 | writes the checkpoint only under the current lease; otherwise nothing changes |
| `MemoryProjectionStore.ProjectionStore.FinishReset` | memory/projection_store.go:217-244 | rewinds every segment, drops letters and replays, serves rebuild requests, releases all claims but its own |
| `MemoryProjectionStore.ProjectionStore.Release` | memory/projection_store.go:247-258 | frees the segment under its current lease only |
| `MemoryProjectionStore.ProjectionStore.SaveStatus` | memory/projection_store.go:261-275 | refreshes the heartbeat under the current lease; progress does not move |
| `MemoryProjectionStore.ProjectionStore.RequestRebuild` | memory/projection_store.go:310-319 | a new request number, above every one served; refused for a projection not declared |
| `MemoryProjectionStore.ProjectionStore.FailRebuild` | memory/projection_store.go:332-342 | records the latest failed request under the current lease only |
| `MemoryProjectionStore.ProjectionStore.SaveDeadLetter` | memory/projection_store.go:357-369 | inserts the letter at its position |
| `MemoryProjectionStore.ProjectionStore.DeleteDeadLetter` | memory/projection_store.go:383-394 | removes exactly the letters of a position |
| `MemoryProjectionStore.ProjectionStore.RequestReplay` | memory/projection_store.go:449-471 | asks exactly the segments that have letters of the stream |
| `MemoryProjectionStore.ProjectionStore.FinishReplay` | memory/projection_store.go:496-519 | marks the segment, and forgets the requests a success settles, no others |
| `MemoryProjectionStore.ProjectionStore.ReplayResult` | memory/projection_store.go:542-564 | counts the segments still to try, and returns the errors of those that failed in segment order |
| `SegmentWorker.FastRefinesSlow` | projection/segment.go:389-466 | the batch path ends with the read model, letters, parked set and checkpoint of the event-by-event path, stalls and trailing events included |
| `SegmentWorker.PagesMatterIff` | projection/segment.go:212-264 | a stretch of the log read as one page or as two, each with its own live flag, ends the same if and only if no event not seen before fails on a page whose flag differs under SkipWhenLive |
| `SegmentWorker.SmallPagesStall` | projection/segment.go:239-242 | an input on which a page of one stalls and a page of two goes on |
| `SegmentWorker.ParkedOnlyRecorded` | projection/segment.go:430-435 | events of parked streams become dead letters, and the handler never sees them |
| `SegmentWorker.StallStays` | projection/segment.go:446-454 | once an event stalls, no later event of the page is applied, recorded or passed |
| `SegmentWorker.Worker.ApplyBatch` | projection/segment.go:389-414 | the imperative batch path computes the fast form |
| `SegmentWorker.Worker.ApplyOneByOne` | projection/segment.go:418-466 | the imperative loop computes the slow form |
| `SegmentWorker.OwnEvents` | projection/segment.go:375-383 | the in-place filter keeps exactly the segment's events, in order |
| `Membership.QuotasBalanced` | projection/instances.go:114-142 | quotas of the instances on the highest Version add up to the segments and differ by at most one; the others get none |
| `Membership.QuotasMinimal` | projection/instances.go:119-122 | no balanced allotment needs fewer segments to move |
| `Rebalancing.MoveProgress` | projection/instances.go:144-192 | every shed lowers the excess over quota, every claim the unclaimed segments without raising it, quotas recomputed each time |
| `Rebalancing.AtRest` | projection/instances.go:144-192 | with no move left, every segment is claimed and every instance holds its quota |
| `Rebalancing.BalancedIsOwnQuota` | projection/instances.go:119-122 | a balanced distribution is its own quota, and nothing moves |
| `Rebalancing.RunsEnd` | projection/instances.go:144-192 | no run of moves is longer than its first team's rank |
| `Rebalancing.Shares.Heartbeat` | projection/instances.go:63-86 | quota and stability after a heartbeat; a failed one keeps both |
| `Rebalancing.Shares.Reserve` | projection/instances.go:149-162 | never reserves past the quota, and held stays the number of reservations |
| `Rebalancing.Shares.Unreserve` | projection/instances.go:166-173 | gives one reservation back |
| `Rebalancing.Shares.ShouldShed` | projection/instances.go:180-192 | true for exactly one segment, the highest held and 0 last |
| `Rebalancing.SomeFirstToGo` | projection/instances.go:175-192 | an instance over its quota always has a segment to shed, and only one |
| `StatusAgreement.MemoryNeverAhead` | projection/segment.go:321-371 | with this instance's rebuilds one at a time, no position in memory is ahead of the store outside the resetting window, in any interleaving |
| `StatusAgreement.HolderKnowsItsPosition` | projection/status.go:135-152 | a goroutine whose lease is the store's knows the stored position |
| `RetiredLease.RetiredLeaseWaits` | projection/segment.go:340-348 | in every run, from a retired lease on, every claim of the segment is refused and its row stays until the claim in the store has run out |
| `RetiredLease.SomeLeaseIsRetired` | projection/segment.go:340-348 | a run in which a rebuild retires a lease claimed after its reset |
| `StatusWindow.SomeRunDisagrees` | projection/runner.go:470-487 | with two segments and a Version above 0 there is a run whose memory is ahead outside the window |
| `StatusWindow.AgreesIff` | projection/runner.go:461-487 | memory and store agree in every run if and only if there is one segment or the Version is 0 |
| `ReplayQueue.Replays.QueueFound` | projection/replay.go:179-188 | each request found is queued once, for segments processed here only |
| `ReplayQueue.Replays.SetActive` | projection/replay.go:270-282 | a segment claimed asks for a poll; one given up leaves nothing queued |
| `ReplayQueue.Replays.ReplaysWanted` | projection/replay.go:149-153 | whether the regular poll reads: the flag, or an active segment with parked streams |
| `ReplayQueue.QueuedOnce` | projection/replay.go:167-282 | in every run a request is queued at most once: held by its segment's goroutine or waiting for it, never both, never twice |
| `ReplayQueue.InfallibleForgetsNone` | projection/replay.go:142-153 | a request pending for a segment between two batches is in its queue, or the next poll reads, when outcomes are always recorded |
| `ReplayQueue.SomeRunForgets` | projection/replay.go:204-245 | a run that leaves a pending request neither queued nor polled for |
| `ReplayQueue.InSightIff` | projection/replay.go:204-245 | a run keeps every pending request queued, about to be seen or polled for if and only if no goroutine in it forgets a pending one after a poll has cleared the flag |
| `ReplayQueue.ForgetsNoneIff` | projection/replay.go:204-245 | no run leaves a request behind if and only if recording an outcome fails for a lost claim only |
| `EventLog.EventStore.Save` | memory/eventstore.go:142-243 | appends the whole batch or nothing; each refusal for its own reason, in the code's order |
| `EventLog.EventStore.AppendEach` | memory/eventstore.go:229-235 | the loop numbers the batch on in its stream and in the log |
| `EventLog.AppendNumbered` | memory/eventstore.go:229-235 | positions stay indices plus one, versions 1..n per stream, and no other stream changes |
| `EventLog.EventStore.ReadAll` | memory/eventstore.go:67-100 | a page is everything matching in a stretch of the log that ends at the head or with the event that filled it |
| `EventLog.EventStore.LoadStreamFrom` | memory/eventstore.go:261-313 | the stream from its start or strictly after a revision, with each state's refusals |
| `EventLog.EventStore.LoadCorrelation` | memory/eventstore.go:318-345 | exactly the chain's events in log order; the empty ID is refused |
| `EventLog.BetweenPositions` | memory/eventstore.go:64-117 | a stretch holds exactly the matching events with a position in it, in order |
| `EventLog.FollowingSeesAll` | memory/eventstore.go:67-100 | following Next from 0 with any limits and appends in between visits every match once, in order |
| `EventLog.FollowingProgress` | memory/eventstore.go:98-99 | a read either ends at the head having seen every match, or brings it closer |
| `CommandHandling.Handle` | command_handler.go:179-312 | the retry loop with its kept fold has the outcome and leaves the log of the handler that starts over on each attempt |
| `CommandHandling.Try` | command_handler.go:193-308 | one attempt, from whatever was kept, is one attempt with a full load |
| `CommandHandling.LoadAndEvolve` | command_handler.go:195-219 | an incremental load ends in the fold of the whole stream |
| `CommandHandling.Persist` | command_handler.go:268-308 | the save against the loaded version or the caller's pin, conflicts told from other failures |
| `Serializability.RunsAreSerial` | command_handler.go:192-308 | every run of many handlers and writers leaves the log that its successful calls leave when made alone, one at a time, each once |
| `Serializability.SavesDecideOnTheWholeStream` | command_handler.go:268-308 | a save appends exactly what decide says of the fold of the whole stream just before it; the carried fold is a full fold |
| `Serializability.HandleIsSerial` | command_handler.go:192-308 | a call that succeeds takes effect at one point of the log, as if alone |
| `Serializability.PinnedSaveIsSerialIff` | command_handler.go:160-177 | of a stream at N, calls pinned to N save what they would alone, for every handler, if and only if N events were loaded |
| `Serializability.PinnedRunIsNotSerial` | command_handler.go:160-177 | a run whose pinned call loads too little, saves, and leaves a log that no serial replay of its calls leaves |
| `BackwardsPaging.ReadRange` | dashboard/events.go:166-186 | exactly the matches in (after, end], oldest first |
| `BackwardsPaging.WidenWindow` | dashboard/events.go:131-156 | the widening search ends, with what one pass over the widest window finds |
| `BackwardsPaging.ReadBackwards` | dashboard/events.go:117-162 | the page is the one-pass page |
| `BackwardsPaging.PageHolds` | dashboard/events.go:59-71 | a page holds every match from older up to its end, newest first, at most limit; short only at the log's start or the scan cap |
| `BackwardsPaging.FollowingOlderShowsAll` | dashboard/events.go:59-71 | following Older to 0 shows every match of the first log once, newest first, even while the log grows, and Older always falls |
| `CommandBus.StepKeeps` | command_bus.go:99-229 | every action keeps the locks, the wait-group counts and each shard's line |
| `CommandBusTheorems.NoSendAfterDrain` | command_bus.go:99-143 | no send after drainCh closes; no wait group grows after stopCh closes |
| `CommandBusTheorems.OneAnswerEachInOrder` | command_bus.go:156-229 | per shard, what was sent is what was answered, then what the worker holds, then the queue, without repetition |
| `CommandBusTheorems.AggregateInOrder` | command_bus.go:241-249 | an aggregate's commands are handled one at a time in the order they were sent |
| `CommandBusTheorems.ExitIsFinal` | command_bus.go:156-175 | a worker exits with an empty queue and all it was sent answered, for good |
| `CommandBusTheorems.StopWaitsForDispatches` | command_bus.go:294-311 | once a Stop has returned no Dispatch is in flight, then or later |
| `CommandBusTheorems.OutcomesAreTrue` | command_bus.go:93-98 | a command refused as closed was never sent or handled; one with a result had its answer |
| `CommandBusTheorems.EveryStopReturns` | command_bus.go:287-311 | runs are bounded and never deadlock: at the end every call and every Stop has returned and every command sent is answered |
| `BatchDispatch.BatchRun.constructor` | automation/automation.go:627-637 | the loop builds one queue per ordering key, in claim order |
| `BatchDispatch.BatchRun.Next` | automation/automation.go:688-702 | takes the head of the first free key by first appearance, or nothing when stopped or full |
| `BatchDispatch.BatchRun.Start` | automation/automation.go:641-654 | what it picks is in use and counted |
| `BatchDispatch.BatchRun.Finish` | automation/automation.go:656-680 | the outcome's effect on the batch |
| `BatchDispatch.DispatchKeepsOrder` | automation/automation.go:622-626 | at most Concurrency at once, never two of a key, and nothing starts before every earlier item of its key is done |
| `BatchDispatch.NothingAfterDeferral` | automation/automation.go:661-676 | nothing starts after a deferral or the end of the run |
| `BatchDispatch.DispatchEnds` | automation/automation.go:639-683 | at most two steps per item; at the end whatever has not run waits behind a failure of its key or a stop |
| `BatchDispatch.SummaryIsTrue` | automation/automation.go:664-676 | the summary counts the items by outcome and has the soonest deferral |
| `LeaseAllocator.AutomationStore.Acquire` | memory/automation_store.go:80-190 | records candidates, then grants the first max eligible in the fair order; Active and Eligible are true counts |
| `LeaseAllocator.AutomationStore.GroupTurns` | memory/automation_store.go:109-131 | each group's last service, or else first sight |
| `LeaseAllocator.AutomationStore.Ranks` | memory/automation_store.go:132-144 | each key's place in its group by wait |
| `LeaseAllocator.AutomationStore.Sorted` | memory/automation_store.go:145-168 | the sort by computed ranks and turns is the fair order |
| `LeaseAllocator.WalkGrantsFirst` | memory/automation_store.go:170-188 | the granting walk takes the first max of those waiting and counts the rest |
| `LeaseAllocator.AutomationStore.Renew` | memory/automation_store.go:193-207 | extends exactly the live leases and returns the others |
| `LeaseAllocator.AutomationStore.Release` | memory/automation_store.go:210-234 | frees under the current lease only, with its pause and its turn; returns the lost ones |
| `LeaseAllocator.AutomationStore.Defer` | memory/automation_store.go:237-246 | pauses a key, never shortening a pause |
| `LeaseFairness.FirstAreGranted` | memory/automation_store.go:145-189 | whoever eligible is left out is preceded by all that were granted, and max were |
| `LeaseFairness.GroupsTakeTurns` | memory/automation_store.go:103-108 | no group gets a key of a higher rank while an eligible key of a lower rank waits |
| `LeaseOrder.GroupByGroupIff` | automation/store.go:20-28 | the order of grants is group by group, as the contract has it, if and only if every group but the last in turn has one candidate |
| `LeaseOrder.SecondGroupServed` | memory/automation_store.go:103-108 | an input on which the second grant goes to another group than group by group |
| `LeaseFairness.RankFollowsWait` | memory/automation_store.go:132-144 | within a group the ranks are the order of waiting |
| `LeaseFairness.GrantsRaiseEpoch` | memory/automation_store.go:180-185 | in every run each grant of a key has a higher epoch than the one before |
| `LeaseFairness.LiveLeaseIsKept` | memory/automation_store.go:77-190 | a live lease its holder does not release stays its holder's, whatever anybody asks |
| `LeaseFairness.RivalServedOnce` | memory/automation_store.go:68-75 | with a strictly advancing clock, another key of the group is served at most once between two turns of a key eligible all along |
| `ClaimScheduling.ClaimScheduler.NextSegmented` | automation/claim_scheduler.go:136-239 | keeps within maxSegments, leaves a busy segment alone, hands out batches only for free ones, and one per segment; all it then holds is leased to it, nothing else is if nothing else was, and a segment it lets go is free in the store, paused for a poll unless its term was over |
| `ClaimScheduling.ClaimScheduler.RenewHeld` | automation/claim_scheduler.go:139-162 | keeps what is still its own and stores the pauses of what it lost |
| `ClaimScheduling.ClaimScheduler.Rotate` | automation/claim_scheduler.go:164-180 | gives back the segment held longest past its term, only at the cap with others waiting, never a busy one; its row is freed with its turn counted, and no other row changes |
| `ClaimScheduling.ClaimScheduler.HandOut` | automation/claim_scheduler.go:214-237 | a free segment with a batch becomes busy; one without is freed in the store and paused for a poll, and no other row changes |
| `ClaimScheduling.ClaimScheduler.Done` | automation/claim_scheduler.go:285-313 | notes the latest deferral, or stores it for a segment no longer held |
| `ClaimScheduling.ClaimScheduler.Drained` | automation/claim_scheduler.go:320-340 | gives a deferred segment back, keeps any other |
| `ClaimScheduling.ClaimScheduler.Close` | automation/claim_scheduler.go:344-364 | gives back every segment, with its pause |
| `ClaimScheduling.DrainPauses` | automation/claim_scheduler.go:335-339 | the release of a deferred segment pauses it to the later of its deferral and its item leases |
| `ClaimRuns.HoldsWhatItShould` | automation/claim_scheduler.go:38-57 | in every run without lost leases: within maxSegments, busy exactly while a batch runs, no pause waiting otherwise |
| `ClaimRuns.BusyIsLeftAlone` | automation/claim_scheduler.go:17-19 | a busy segment is not claimed for, rotated, released as idle or changed by a Next |
| `ClaimRuns.DeferralIsStored` | automation/claim_scheduler.go:315-340 | a deferral of a running batch is in the store once it drains, at least to its time and to the end of the item leases |

## Left out

- HonestCheckpoint: holds for runs whose reclaims are clean; HonestIff says that this is exact, and LosesAnEvent shows the failure.
- ParkedNeverSkipsAhead: holds for runs whose reclaims are clean in both ways. For one set of event types InOrderIff is exact. For several it stays one-way: a reclaim under other event types changes which events the prefix is of, so it can break the order or leave it alone depending on those types and on which events the log holds.
- InOrderIff: one set of event types, as above.
- RunsAreSerial: a call that pins a Revision(N) has to have loaded N events; PinnedSaveIsSerialIff says why that is exact.
- MemoryNeverAhead: rebuilds of one instance one at a time; AgreesIff says which instances that is for certain. Store calls fail with ErrClaimLost only, and nobody else resets.
- HoldsWhatItShould: runs in which no lease is lost while its batch runs; the source states no guarantee for the others.
- BusyIsLeftAlone: the same runs.
- DeferralIsStored: the same runs.
- EveryStopReturns: every handler call returns; a handler that never does keeps its worker, and the Stops that wait for it, for ever.
- RivalServedOnce: a strictly advancing clock, and both keys in one group whenever both are candidates.
- A segment store without dead letters, and several projections in one store: the protocol is modelled for one projection whose store keeps dead letters.
- SQL text, drivers and transactions; the SQL stores enter by their stated semantics, an atomic Commit and Reset and conditional updates. The KurrentDB client is not part of this model.
- Failures with an unknown outcome: a store call that fails changed nothing.
- Hashes: the segment and shard hash are arbitrary functions, the event-type fingerprint is the set of names itself.
- Time: clocks are natural numbers; in the projection protocol, the command handler and the bus they only decide which step comes next, so the steps come in any order. Backoff, jitter, tickers and nudges likewise.
- Retired leases in the projection protocol: a first claim may carry a retired lease, whichever rebuild retired it; the claim after a reset always carries the lease it was granted, so that another rebuild of the same instance retiring it in between is left to StatusAgreement and RetiredLease, which model that link.
- Heartbeats and quotas in the convergence proof are recomputed from current counts at every move; stale counts of several instances at once are not modelled.
- The waits of Rebuild, ReplayStream and WaitUntil with the errors they pass on, and the phases and messages of a status.
- Go's map iteration: where the code ranges over a map the model takes any order.
- Keys, groups and owners of the lease store are integers in the order of the strings they stand for; events carry one integer of data.
- sort.SliceStable and slices.SortFunc are library calls, modelled as insertion sorts.
- Every Save and every store call is atomic, as the mutex makes it; encoding, metadata, decoding and correlation IDs of new chains are reduced to whether an event can be encoded and which chain it joins.
- The unsegmented claim scheduler, pausing an automation, published statuses and the automation's outer loop.
- Query bus, middleware, event registry, iterators, telemetry, logging and the rest of the dashboard: lookups and wrappers.
- EventStore.Close, which discards the log.
