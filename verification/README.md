# Gateway and candidate state machines, verified

This project models the crash-sensitive and concurrent parts of the Kiwoom gateway and the table
machines behind the candidate services, and proves what they keep over every run.
`dafny verify dfyconfig.toml` checks all of it.

Every stateful component is a class whose fields are the original object's fields. Each method
states its whole new state, or its effects, as a function of the old one. The theorems are about
those functions: a `Step` type lists what can happen, `Next` says what a step does, `Enabled` what
the surroundings guarantee, and lemmas by induction say what every sequence of steps keeps.

- **Event posting** (`CoreIoEvents`, `CoreIoBuffer`, `CoreIoSelection`, `CoreIoRuns`,
  `CoreIoPlacement`, `CoreIoService`). One buffer between the Qt thread and the posting thread, with
  priority insertion, merging, a cap that spares protected classes and a four-pass batch selection. A
  post is a step that selects, then a step that removes or backs off, with any arrivals between them.
  Where an arrival goes, what the cap costs and which group is served are told by classes of events.
- **Orders** (`SlidingWindows`, `RateLimit`, `RateDecisions`, `OrderJournal`, `OrderCommands`,
  `OrderProtocol`, `OrderOutcomes`, `OrderRates`, `PendingOrders`, `PendingLedger`). The rate governor
  against the full call history; the write-ahead protocol of send and cancel for any answers of Core,
  broker and disk, with the exact condition of every effect; recovery of a run cut between any two
  steps; the three indexes of pending orders against the ledger of what came in.
- **Realtime subscriptions** (`ConditionAdmission`, `AdmissionDecisions`, `RealtimeRuntime`,
  `RealtimeSteps`). Admission of condition hits, decided by the admissions so far, and one cap on
  registered codes over all the ways in.
- **Broker snapshots** (`TrRunner`, `TrTimeouts`, `BrokerSnapshot`, `SnapshotFlow`,
  `SnapshotRequests`). Pending transaction requests under data, cancel and timer callbacks; which
  request a timer ends; the paged collection, alone and run over the requests.
- **Candidate tables** (`CandidateStore`, `CandidateRuns`, `CandidateSteps`, `CandidateLog`). Episodes
  and source rows over all runs, for any decisions of the state machine; the transition log and when
  it keeps up.
- **Maintained views** (`WireTimes`, `ConditionFusion`, `FusionMeaning`, `FusionRefinement`,
  `MarketContext`). Times in the order of their texts; every field of a fusion from its events; the
  per-code fusion as a refinement of the full rebuild; the two market pointers.
- **Campaign evidence** (`CampaignBinding`, `CampaignEvidence`, `CampaignErrors`). Bindings, the target
  manifest and the chain of links, with the error of whatever is refused. The digest is any function
  into SHA-256 texts; instead of assuming it injective, the lemmas say that equal digests mean equal
  documents or name two that collide.

## What turned out to be conditional

- A command type heavier than a limit is let through an empty window, so the rate bound holds in
  every run exactly when no type outweighs a limit (`RateLimit.BoundedIffWeightsFit`).
- The start event of an order is published before the broker call only where immediate publishing
  is configured, as the runtime does at gateway/kiwoom_runtime.py:267-274
  (`OrderProtocol.WriteAhead`, `OrderProtocol.StartHeldBack`).
- The two events of a chejan callback can carry different command ids;
  `PendingOrders.ExecutionIdAgreesIff` says exactly when, `PendingOrders.IdsCanDiffer` shows it.
- A terminal callback removes one broker number of a record; others that were mapped to it still
  find it. It also removes the record's whole signature bucket, other orders in it included
  (`PendingOrders.TerminalForgets`).
- A timer knows only its key. Timeouts end their own requests only exactly when no request is
  submitted under a key with a timer outstanding (`TrTimeouts.TimeoutsOwnIffClean`), which a caller
  ensures by waiting a whole timeout after the last one scheduled under the key
  (`TrTimeouts.GuardKeepsTimeoutsOwn`). The pages of a snapshot section share one key and do not
  wait, so the first page's timer can fail a later page (`SnapshotRequests.SecondPageLost`).
- A snapshot request answered with errors inside its own submit call is reported as failed twice;
  the number of terminal reports is one for the flow and one for every refusal
  (`BrokerSnapshot.TerminalCount`).
- Two equal transitions of one candidate at one time share an identity and the second is not
  recorded (`CandidateLog.ClashLosesTransition`). The log keeps up exactly in the runs without such
  a clash (`CandidateLog.LogKeepsUpIffFresh`); a clock that moves on between two refreshes of one
  candidate is enough (`CandidateLog.RisingClockKeepsLog`). Numbering, counts and stored events do
  not need it.
- Times are compared as texts. Within one second a text without a fraction comes after those with
  one, so there the order can differ from time (`WireTimes.TextOrderIsTimeOrderUnless`): the newest
  event of a fusion is the one with the last text, and a market pointer can go back, or stay behind
  a newer snapshot, within that second (`MarketContext.PointerInTime`).

## What the surroundings are taken to guarantee

- Each event object reaches the worker once, one thread posts one batch at a time, and enqueue,
  select and remove are atomic under the worker's lock.
- A journal append writes one whole row or raises and writes nothing. Each command id is handled
  once, and acknowledged once, with a non-empty id.
- Clocks of the rate governor and of condition hits do not run back. The market snapshots need no
  such clock.
- Client registrations return or raise within a callback and call nothing back. Re-entrant TR
  callbacks are covered, since an entry leaves the dictionary before its callback runs.
- A TR completion callback does not raise. Only for the timeout guard, a timer fires when it is due.
- Rebuilds of market snapshots write one at a time.
- Canonical JSON texts of different documents differ.

## Model

| member | source | states |
|---|---|---|
| `CoreIoBuffer.CoreIoWorker.constructor` | gateway/core_io_worker.py:49-99 | a worker starts with nothing queued, counted or backing off |
| `CoreIoBuffer.CoreIoWorker.EnqueueEvent` | gateway/core_io_worker.py:119-139 | an event takes the critical, the priority, the merging or the plain way in, and the whole new worker state is the one the specification gives |
| `CoreIoBuffer.CoreIoWorker.EnforceBufferLimit` | gateway/core_io_worker.py:141-159 | while over the limit the first droppable event goes, else the first unprotected one, else nothing; each loss is counted |
| `CoreIoBuffer.CoreIoWorker.CoalesceEvent` | gateway/core_io_worker.py:222-231 | the first queued event of the same key is replaced where it stands, and only then is the event merged |
| `CoreIoBuffer.CoreIoWorker.EnqueuePriorityEvent` | gateway/core_io_worker.py:403-411 | an older event of the same key leaves before the new one is inserted behind the critical ones |
| `CoreIoBuffer.CoreIoWorker.InsertAfterCommandCritical` | gateway/core_io_worker.py:416-421 | the event is inserted one past the last command-critical event |
| `CoreIoBuffer.CoreIoWorker.SelectEventBatch` | gateway/core_io_worker.py:290-325 | the four passes choose exactly the specified batch, leaving the buffer as it is |
| `CoreIoBuffer.CoreIoWorker.AddMatchingEvents` | gateway/core_io_worker.py:298-312 | one pass appends matching events of the group that are not selected yet, up to its own limit and the batch's |
| `CoreIoBuffer.CoreIoWorker.SelectBatchFastGroup` | gateway/core_io_worker.py:327-355 | critical events decide the group first, then alternation, then what is present |
| `CoreIoBuffer.CoreIoWorker.BeginPost` | gateway/core_io_worker.py:251-258 | nothing is selected while the back-off lasts |
| `CoreIoBuffer.CoreIoWorker.FinishPost` | gateway/core_io_worker.py:270-288 | the posted events leave by identity, even if superseded meanwhile, and all counters follow |
| `CoreIoBuffer.CoreIoWorker.FailPost` | gateway/core_io_worker.py:259-266 | the events stay queued, the error count rises and the next attempt waits the computed delay |
| `CoreIoBuffer.CoreIoWorker.RemoveEventByIdentity` | gateway/core_io_worker.py:357-361 | the event leaves if it is still queued |
| `CoreIoSelection.PassIsShare` | gateway/core_io_worker.py:298-312 | a selection pass is the oldest candidates of its class, as many as share and batch leave room for |
| `CoreIoSelection.SelectionShape` | gateway/core_io_worker.py:314-325 | a batch is the shares of the four passes in order, each the oldest of its class |
| `CoreIoSelection.SelectionExact` | gateway/core_io_worker.py:290-325 | a batch is exactly min(batch size, group size) distinct queued events of one group |
| `CoreIoSelection.SelectionCriticals` | gateway/core_io_worker.py:314-325 | the oldest critical events of the group lead the batch and no other critical event is in it |
| `CoreIoSelection.SelectBatchExact` | gateway/core_io_worker.py:290-355 | a non-empty buffer always gives a non-empty batch of one group, and says which |
| `CoreIoSelection.PostTakesOneBatch` | gateway/core_io_worker.py:251-289 | a successful post takes one batch off the work left, whichever group it serves |
| `CoreIoSelection.DrainsExactly` | gateway/core_io_worker.py:233-289 | without arrivals the buffer is empty after exactly the predicted number of successful posts |
| `CoreIoRuns.EnqueueTakes` | gateway/core_io_worker.py:119-159 | an enqueue loses nothing protected, keeps critical order and takes the event in or merges it |
| `CoreIoRuns.EveryRun` | gateway/core_io_worker.py:119-421 | every interleaving of enqueues with select, post and remove steps, failures included, keeps the invariant |
| `CoreIoRuns.CriticalDelivery` | gateway/core_io_worker.py:251-325 | critical events are a prefix of the buffer in arrival order, and those acknowledged are exactly a prefix of those enqueued: none lost, reordered or acknowledged twice |
| `CoreIoRuns.BufferDiscipline` | gateway/core_io_worker.py:141-159 | the buffer is within its limit or holds only protected events, protected events are never dropped, and arrivals = queued + merged + dropped + removed |
| `CoreIoRuns.NewestPerKey` | gateway/core_io_worker.py:403-411 | at most one heartbeat per source and index tick per key is queued, and it is the newest accepted |
| `CoreIoRuns.BatchesAlternate` | gateway/core_io_worker.py:327-355 | after a successful batch the next one serves the other group when both wait and nothing critical does, whatever happens in between |
| `CoreIoRuns.DelayGrows` | gateway/core_io_worker.py:396-401 | retry delays never shrink with consecutive errors and stay between 0.05 and 5 seconds |
| `CoreIoRuns.BackoffHolds` | gateway/core_io_worker.py:251-267 | after a failure nothing is posted before its delay is over |
| `CoreIoPlacement.ClassesPartition` | gateway/core_io_worker.py:478-558 | every event type is critical, a TR response, droppable or one of two others, and how the classes overlap |
| `CoreIoPlacement.KeysAgree` | gateway/core_io_worker.py:464-475 | two events share a key exactly when they are heartbeats of one source, ticks of one kind and code or index ticks of one index |
| `CoreIoPlacement.LimitCosts` | gateway/core_io_worker.py:141-159 | the limit costs exactly the oldest droppable events, then the oldest unprotected others, as many as are too many, and moves nothing else |
| `CoreIoPlacement.EnqueuePlaces` | gateway/core_io_worker.py:119-139 | where an arrival ends up: behind the critical events, in place of its key's oldest, or last, with its exact counts |
| `CoreIoPlacement.ArrivalsPlaced` | gateway/core_io_worker.py:119-159 | and so in every run |
| `CoreIoService.CriticalsServedFirst` | gateway/core_io_worker.py:290-344 | while a critical event waits, a batch is of the other group and begins with the oldest critical events, as many as it has room for |
| `CoreIoService.FirstBatchGroup` | gateway/core_io_worker.py:345-355 | with no critical event and no batch before, the oldest priority event decides the group, else the oldest market event, else the head |
| `CoreIoService.AttemptPosts` | gateway/core_io_worker.py:251-258 | an attempt posts exactly when the back-off is over and something waits |
| `CoreIoService.NextCriticalFirst` | gateway/core_io_worker.py:251-344 | in every run an attempt made while a critical event waits posts the first unacknowledged one first and nothing of the fast group |
| `CoreIoService.OutcomesCounted` | gateway/core_io_worker.py:259-288 | consecutive errors, batches and rejected events are counted as they come, over any run |
| `CoreIoService.LastBatchOnRecord` | gateway/core_io_worker.py:274-278 | the batch on record is the last one acknowledged, by size and group |
| `CoreIoService.DelayDoubles` | gateway/core_io_worker.py:396-401 | delays double with each consecutive error, up to five seconds and ten doublings |
| `RateLimit.KiwoomRateLimitGovernor.constructor` | gateway/kiwoom_command_handlers.py:65-101 | a governor starts with no calls remembered |
| `RateLimit.KiwoomRateLimitGovernor.TrimCalls` | gateway/kiwoom_command_handlers.py:144-148 | exactly the entries that are a whole window old leave the front |
| `RateLimit.KiwoomRateLimitGovernor.Check` | gateway/kiwoom_command_handlers.py:103-131 | both queues are trimmed and the decision carries the longest wait any rule asks for |
| `RateLimit.KiwoomRateLimitGovernor.Record` | gateway/kiwoom_command_handlers.py:133-142 | the call is appended to both queues and becomes the type's last |
| `SlidingWindows.WithinTrimmed` | gateway/kiwoom_command_handlers.py:144-148 | a window that starts after the cutoff weighs no more than the trimmed queue |
| `SlidingWindows.AppendKeepsBound` | gateway/kiwoom_command_handlers.py:103-148 | an entry that fits beside the trimmed queue keeps every window of the whole history bounded |
| `SlidingWindows.TrimIsWithin` | gateway/kiwoom_command_handlers.py:144-148 | the trimmed queue of an ordered history is what lies in the window that ends now |
| `RateLimit.DecideMeans` | gateway/kiwoom_command_handlers.py:103-131 | a check is allowed exactly when both windows and the interval have room |
| `RateLimit.RunKeeps` | gateway/kiwoom_command_handlers.py:103-148 | every sequence of checks and records keeps the queues equal to the trimmed history, and the history bounded |
| `RateLimit.HistoryBounded` | gateway/kiwoom_command_handlers.py:103-148 | over the whole history every second and every hour stays within its limit and calls of one type stay their interval apart |
| `RateLimit.HeavyTypeBreaksBound` | gateway/kiwoom_command_handlers.py:117-127 | a type heavier than a limit is let through an empty window and breaks the bound |
| `RateLimit.BoundedIffWeightsFit` | gateway/kiwoom_command_handlers.py:103-148 | the bound holds in every run exactly when no type outweighs a limit |
| `RateLimit.RejectedAgainShrinks` | gateway/kiwoom_command_handlers.py:111-131 | a second rejection after the reported wait means a window has lost an entry |
| `RateLimit.WaitingEnds` | gateway/kiwoom_command_handlers.py:111-131 | waiting as told ends in an allowed check within one round more than the windows hold entries, for any weights |
| `RateDecisions.RunDecides` | gateway/kiwoom_command_handlers.py:103-131 | in every run a check answers by the whole call history: allowed exactly when no rule asks to wait, else with the longest wait asked for, at least a millisecond, and the rule that asked, the first on a tie |
| `RateDecisions.WeightGivenOrDefault` | gateway/kiwoom_command_handlers.py:77-98 | weights are those given, never below zero, over the defaults |
| `RateDecisions.IntervalGivenOrDefault` | gateway/kiwoom_command_handlers.py:77-98 | intervals are those given, never below zero, over the defaults |
| `RateDecisions.DefaultsFit` | gateway/kiwoom_command_handlers.py:65-101 | with the default weights the bound holds in every run |
| `OrderJournal.OrderPreAckJournal.Append` | gateway/order_pre_ack_journal.py:121-140 | a row is appended whole, or the write raises and the log is unchanged |
| `OrderJournal.OrderPreAckJournal.PendingRecords` | gateway/order_pre_ack_journal.py:93-101 | the loop over the log returns exactly the specified pending rows |
| `OrderJournal.OrderPreAckJournal.PutLatest` | gateway/order_pre_ack_journal.py:93-101 | the newest row of a command replaces the older one |
| `OrderJournal.LatestFacts` | gateway/order_pre_ack_journal.py:93-101 | the table built from a log holds each command's latest row once |
| `OrderJournal.RecoveryIsLatestPending` | gateway/order_pre_ack_journal.py:93-119 | recovery returns each command whose latest row is PRE_ACK or BROKER_ACCEPTED, once, and no other |
| `OrderJournal.RecoveryInFirstOrder` | gateway/order_pre_ack_journal.py:93-101 | recovered commands come in the order in which the journal first names them |
| `OrderCommands.KiwoomGatewayCommandHandler.HandleCommand` | gateway/kiwoom_runtime.py:531-560 | one round of the command loop leaves exactly the specified effects on trace, journal and governor, exceptions included |
| `OrderCommands.KiwoomGatewayCommandHandler.HandleChecked` | gateway/kiwoom_command_handlers.py:201-219 | the rate check comes first, and its answer decides between the limited and the full path |
| `OrderCommands.KiwoomGatewayCommandHandler.HandleNonOrder` | gateway/kiwoom_command_handlers.py:207-219 | a command that is no order is recorded against the rate unless its handler raised, whatever it returned |
| `OrderCommands.KiwoomGatewayCommandHandler.HandleOrder` | gateway/kiwoom_command_handlers.py:518-562 | the start event, then the PRE_ACK row, then the broker, in that order |
| `OrderCommands.KiwoomGatewayCommandHandler.SubmitOrder` | gateway/kiwoom_command_handlers.py:729-763 | the PRE_ACK row is written before Core is asked |
| `OrderCommands.KiwoomGatewayCommandHandler.AskCore` | gateway/kiwoom_command_handlers.py:751-763 | only an accepted and recorded answer lets the call go ahead |
| `OrderCommands.KiwoomGatewayCommandHandler.MarkFailed` | gateway/kiwoom_command_handlers.py:554-564 | an order without a durable pre-ack is journalled as SEND_FAILED and never sent |
| `OrderCommands.KiwoomGatewayCommandHandler.CallBroker` | gateway/kiwoom_command_handlers.py:565-574 | a call that raises is unconfirmed and not recorded against the rate |
| `OrderCommands.KiwoomGatewayCommandHandler.RecordResult` | gateway/kiwoom_command_handlers.py:565-609 | the broker's answer becomes one outcome row and one event |
| `OrderCommands.KiwoomGatewayCommandHandler.MarkUnconfirmed` | gateway/kiwoom_command_handlers.py:570-574 | an unknown outcome is journalled as UNCONFIRMED |
| `OrderCommands.KiwoomGatewayCommandHandler.RecordCall` | gateway/kiwoom_command_handlers.py:726-727 | a call is recorded in the governor and the trace |
| `OrderProtocol.HandleIsLegal` | gateway/kiwoom_command_handlers.py:506-607 | for any answers one command follows the write-ahead order, calls the broker at most once, exactly when every gate is open, and then writes exactly one outcome row if one can be written |
| `OrderProtocol.RunIsLegal` | gateway/kiwoom_command_handlers.py:176-727 | every run of the handler is legal at every step |
| `OrderProtocol.WriteAhead` | gateway/kiwoom_command_handlers.py:506-763 | every broker call of every run is preceded by its published start, its PRE_ACK row and its confirmed durable pre-ack, in that order, and happens once |
| `OrderProtocol.StartHeldBack` | gateway/kiwoom_command_handlers.py:788-796 | without immediate publishing the start event goes out only after the call |
| `OrderProtocol.CrashRecovery` | gateway/order_pre_ack_journal.py:93-164 | cut anywhere, the journal recovers every command whose call began without an outcome row, exactly once, and no SEND_FAILED command reached the broker |
| `OrderProtocol.SendFailedIsFinal` | gateway/kiwoom_command_handlers.py:554-564 | after SEND_FAILED nothing is journalled and no broker is called |
| `OrderOutcomes.OrderEffects` | gateway/kiwoom_command_handlers.py:506-763 | a tried order has exactly the effects its answers call for: checks, records, rows, requests, calls and events, each with its exact condition |
| `OrderOutcomes.AnswerIff` | gateway/kiwoom_command_handlers.py:506-711 | an order is acknowledged exactly when the broker was reached, accepted it, the row was written and a send's callback did not raise; unconfirmed exactly when the broker was called and no answer is on record; rate-limited or failed exactly otherwise |
| `OrderOutcomes.TurnedAway` | gateway/kiwoom_command_handlers.py:176-203 | a forbidden command, an expired order and an unsafe one fail at once and do nothing else |
| `OrderOutcomes.NonOrderEffects` | gateway/kiwoom_command_handlers.py:207-219 | a command that is no order is answered by what its handler made of it, under its own type's rate |
| `OrderOutcomes.OneAnswerLast` | gateway/kiwoom_command_handlers.py:176-711 | every command gets exactly one answer, after everything else it does |
| `OrderOutcomes.EffectsInPlace` | gateway/kiwoom_command_handlers.py:506-763 | no effect happens twice and each has its place: check, start, PRE_ACK, Core, broker, record, outcome row, answer |
| `OrderOutcomes.AckedAfterAccepted` | gateway/kiwoom_command_handlers.py:565-609 | in every run with a journal an order's acknowledgement follows its BROKER_ACCEPTED row |
| `OrderRates.HandleOps` | gateway/kiwoom_command_handlers.py:201-219 | a command checks the rate at most once and records only after its own granted check |
| `OrderRates.RunAdmissible` | gateway/kiwoom_command_handlers.py:201-607 | the handler never records without a granted check before and no record in between |
| `OrderRates.HandlerKeepsRates` | gateway/kiwoom_command_handlers.py:103-607 | so over every run of the handler the recorded calls keep every window bounded and every interval |
| `PendingOrders.PendingOrderRegistry.RecordAck` | gateway/kiwoom_runtime.py:108-138 | an accepted order enters all three indexes, once per bucket |
| `PendingOrders.PendingOrderRegistry.MatchPayload` | gateway/kiwoom_runtime.py:212-228 | command id, then broker number, then a bucket of one |
| `PendingOrders.PendingOrderRegistry.EnrichChejanPayload` | gateway/kiwoom_runtime.py:140-153 | a matched payload gets the order's ids and its number is remembered |
| `PendingOrders.PendingOrderRegistry.ApplyChejanPayload` | gateway/kiwoom_runtime.py:166-183 | a terminal payload takes the record out of all indexes it is found by |
| `PendingOrders.PendingOrderRegistry.OnChejanResult` | gateway/kiwoom_runtime.py:1395-1415 | the ids of the two events one callback emits |
| `PendingOrders.EveryRun` | gateway/kiwoom_runtime.py:108-183 | every sequence of acks and callbacks keeps the indexes consistent |
| `PendingLedger.FoundByLedger` | gateway/kiwoom_runtime.py:108-228 | in every run a payload finds exactly the order that the acknowledgements and callbacks so far name, and each index holds just these |
| `PendingLedger.AcknowledgedIsFound` | gateway/kiwoom_runtime.py:130-228 | an acknowledged order is found by its command id exactly until a callback ends it, and by its number as long as nothing takes the number |
| `PendingLedger.CallbackIds` | gateway/kiwoom_runtime.py:1395-1415 | the ids a callback's two events carry, by the orders found before and after it |
| `PendingOrders.IndexesAgree` | gateway/kiwoom_runtime.py:108-183 | each bucket record is the one its command id maps to, sits under its own signature and stands there once |
| `PendingOrders.TerminalForgets` | gateway/kiwoom_runtime.py:166-183 | after a terminal callback in any run the record, its command id and its whole signature bucket are gone, and it is found exactly through another broker number that was mapped to it |
| `PendingOrders.ExecutionIdAgreesIff` | gateway/kiwoom_runtime.py:1395-1415 | in any run the two events of a callback carry different command ids exactly when the chejan event matched nothing or removed its record and the execution's signature singles out another order |
| `PendingOrders.IdsCanDiffer` | gateway/kiwoom_runtime.py:1395-1415 | an order acknowledged, a callback of an unknown number and an execution with the order's signature give two different ids |
| `PendingOrders.OwnSignatureAgrees` | gateway/kiwoom_runtime.py:1395-1415 | they agree when the broker reports the order's own account, code and side |
| `ConditionAdmission.GatewayConditionAdmissionController.DecideHit` | gateway/condition_admission.py:88-189 | the decision and the whole new state are those the specification gives, for every gate in its order |
| `ConditionAdmission.GatewayConditionAdmissionController.WithinRealtimeRate` | gateway/condition_admission.py:228-234 | entries a minute old leave the queue, and there is room exactly when fewer than the limit stay |
| `ConditionAdmission.GatewayConditionAdmissionController.RecordEnter` | gateway/condition_admission.py:168-171 | an admission joins the queue and, from a TR callback, the initial count |
| `ConditionAdmission.GatewayConditionAdmissionController.RecordMetric` | gateway/condition_admission.py:203-226 | each hit is counted once, as subscribed or as skipped |
| `ConditionAdmission.AdaptiveCap` | gateway/condition_admission.py:239-269 | the cap is never above the configured total, nor below zero, and zero for a blocking role |
| `ConditionAdmission.RealAmongAll` | gateway/condition_admission.py:120-189 | the queue that gates realtime hits holds at least the realtime admissions of its window |
| `ConditionAdmission.RunKeeps` | gateway/condition_admission.py:88-237 | every run of hits in time order keeps queues, counts and metrics true to the history |
| `ConditionAdmission.AdmissionBounds` | gateway/condition_admission.py:88-237 | realtime admissions of a profile never exceed its rate in any minute, initial admissions never its maximum, and hits = subscribed + skipped over the run |
| `AdmissionDecisions.QualityMeans` | gateway/condition_admission.py:272-292 | which trouble makes which quality, exactly |
| `AdmissionDecisions.CapMeans` | gateway/condition_admission.py:239-306 | the cap is the role's allowance for that quality and session, or the configured total where that is less |
| `AdmissionDecisions.RunDecides` | gateway/condition_admission.py:104-189 | in every run a hit is registered at once, or batched, exactly when every gate is open by the admissions so far and its policy says so; a refused hit names the first gate that is shut |
| `AdmissionDecisions.ActionsTally` | gateway/condition_admission.py:203-226 | entries and exits are counted as they come |
| `RealtimeRuntime.KiwoomGatewayRuntime.constructor` | gateway/kiwoom_runtime.py:323-323 | a runtime starts with no code registered |
| `RealtimeRuntime.KiwoomGatewayRuntime.OrderedUniqueCodes` | gateway/kiwoom_runtime.py:2351-2361 | blank and repeated codes are left out, order kept |
| `RealtimeRuntime.KiwoomGatewayRuntime.ChooseCodes` | gateway/kiwoom_runtime.py:1239-1273 | the first fresh codes that fit the room left, with skips and duplicates counted |
| `RealtimeRuntime.KiwoomGatewayRuntime.RegisterRealtimeCodes` | gateway/kiwoom_runtime.py:1239-1304 | the registered set grows by the chosen codes, unless the client raises |
| `RealtimeRuntime.KiwoomGatewayRuntime.HandleRealtimeCommand` | gateway/kiwoom_runtime.py:1306-1338 | a register command over the cap is refused before handling; an acknowledged one is tracked |
| `RealtimeRuntime.KiwoomGatewayRuntime.OnConditionEvent` | gateway/kiwoom_runtime.py:1005-1053 | a hit is judged by the present counts and an immediate admission registered at once |
| `RealtimeRuntime.KiwoomGatewayRuntime.OnConditionTrReceived` | gateway/kiwoom_runtime.py:1055-1083 | the callback's loop and its closing registration, an exception ending both |
| `RealtimeRuntime.RegistrationExact` | gateway/kiwoom_runtime.py:1239-1304 | a plain registration adds the first fresh codes as room allows, leaves one out only at the cap, and counts exactly those left out |
| `RealtimeRuntime.CommandFitsIffNothingSkipped` | gateway/kiwoom_runtime.py:1306-1318 | a command is let through exactly when a plain registration of its codes would skip none |
| `RealtimeRuntime.ForcedAddsNothing` | gateway/kiwoom_runtime.py:1340-1362 | re-registering what is registered changes nothing |
| `RealtimeRuntime.LoopWithinCap` | gateway/kiwoom_runtime.py:1055-1083 | throughout a TR callback registered codes and planned batch fit the cap together |
| `RealtimeRuntime.AdmittedAreRegistered` | gateway/kiwoom_runtime.py:1055-1083 | so no admitted code is lost to the cap: nothing is skipped and every subscribed code ends registered |
| `RealtimeRuntime.CapKept` | gateway/kiwoom_runtime.py:1239-1362 | however registration, recovery, reconnect, commands and callbacks are mixed, the set never outgrows the configured total |
| `RealtimeSteps.ChosenInOrder` | gateway/kiwoom_runtime.py:1239-1273 | codes are asked for in the order of the request, all of them when forced |
| `RealtimeSteps.RegistrationCounts` | gateway/kiwoom_runtime.py:1239-1304 | codes registered already are counted, and a call that raises registers none |
| `RealtimeSteps.StepRegisters` | gateway/kiwoom_runtime.py:1005-1362 | a code is registered after a step exactly when it was and was not removed, or the step asked for it and was let through |
| `RealtimeSteps.TrRegisters` | gateway/kiwoom_runtime.py:1055-1083 | a TR callback registers exactly the codes its decisions admitted, or leaves out those still planned when it raises |
| `RealtimeSteps.CommandSkips` | gateway/kiwoom_runtime.py:1306-1318 | a refused command counts its new codes as skipped |
| `TrRunner.KiwoomTrRunner.Insert` | gateway/kiwoom_tr.py:172-185 | a submission is stored under its key before the broker library is called, in place of an older one |
| `TrRunner.KiwoomTrRunner.FinishSubmit` | gateway/kiwoom_tr.py:186-214 | a refused request leaves again, one answered meanwhile is complete, any other gets its timer |
| `TrRunner.KiwoomTrRunner.Cancel` | gateway/kiwoom_tr.py:216-217 | the entry under the key leaves |
| `TrRunner.KiwoomTrRunner.FindPendingKey` | gateway/kiwoom_tr.py:250-257 | the exact key, else the oldest entry of that request name |
| `TrRunner.KiwoomTrRunner.HandleTrData` | gateway/kiwoom_tr.py:219-248 | data completes the entry it is matched to, which has left before the callback runs |
| `TrRunner.KiwoomTrRunner.TimeoutRequest` | gateway/kiwoom_tr.py:267-275 | a timer completes whatever is pending under its key when it fires |
| `TrRunner.FindKeyMeans` | gateway/kiwoom_tr.py:250-257 | nothing is found only when no request of that name is pending, and an exact match always wins |
| `TrRunner.PutMeans` | gateway/kiwoom_tr.py:172-185 | storing keeps every key in its place and every other entry as it is |
| `TrRunner.PopMeans` | gateway/kiwoom_tr.py:216-248 | a pop takes out the entry under the key and leaves the others in their order |
| `TrRunner.RunKeeps` | gateway/kiwoom_tr.py:137-275 | every interleaving conserves submissions and keeps a live timer for every timed request |
| `TrRunner.CompletesAtMostOnce` | gateway/kiwoom_tr.py:137-275 | a submission completes at most once, and never after it was cancelled, refused or overwritten |
| `TrRunner.NothingLost` | gateway/kiwoom_tr.py:137-275 | a submission is pending, completed or discarded, exactly one of these |
| `TrRunner.ArmedRequestEnds` | gateway/kiwoom_tr.py:259-275 | a pending request with a timeout always has its own timer left, which ends it |
| `TrTimeouts.StaleTimerEndsNewer` | gateway/kiwoom_tr.py:172-275 | in any run, a timer outstanding for a key when a request is submitted under it would end that request |
| `TrTimeouts.EndableIffKeyTimed` | gateway/kiwoom_tr.py:172-275 | in any run, a request just submitted can be ended by a timer not its own exactly when a timer is outstanding for its key |
| `TrTimeouts.TimeoutsOwnIffClean` | gateway/kiwoom_tr.py:172-275 | timeouts end their own requests only, at every point of a run and whatever follows, exactly when no submission of the run used a key with a timer outstanding |
| `TrTimeouts.OutstandingIffRecent` | gateway/kiwoom_tr.py:259-265 | a timer is outstanding for a key when, and at the due moment at most, one was scheduled less than a timeout ago |
| `TrTimeouts.GuardKeepsTimeoutsOwn` | gateway/kiwoom_tr.py:186-275 | submitting under a key only when nothing was scheduled under it for a whole timeout keeps every timeout to its own request |
| `TrTimeouts.UnguardedIsExposed` | gateway/kiwoom_tr.py:186-275 | and a request submitted earlier than that is exposed to the older timer |
| `BrokerSnapshot.KiwoomBrokerSnapshotCollector.constructor` | gateway/kiwoom_broker_snapshot.py:41-68 | a collection starts empty with one to fifty pages a section |
| `BrokerSnapshot.KiwoomBrokerSnapshotCollector.AppendRows` | gateway/kiwoom_broker_snapshot.py:175-186 | rows join the list of their own section |
| `BrokerSnapshot.KiwoomBrokerSnapshotCollector.OnResult` | gateway/kiwoom_broker_snapshot.py:88-144 | a result is recorded and leads to failure, the next page, the page limit, the next section or completion |
| `BrokerSnapshot.KiwoomBrokerSnapshotCollector.OnRefused` | gateway/kiwoom_broker_snapshot.py:146-173 | a submit call that raised or was not accepted adds at least one error and reports failure |
| `BrokerSnapshot.RunKeeps` | gateway/kiwoom_broker_snapshot.py:70-186 | every sequence of results and refusals keeps pages, rows, sections and terminal reports in step |
| `BrokerSnapshot.PagesWithoutGaps` | gateway/kiwoom_broker_snapshot.py:70-144 | requests go through the sections page by page without a gap and never exceed sections times pages |
| `BrokerSnapshot.RowsAddUp` | gateway/kiwoom_broker_snapshot.py:100-117 | a section's rows are those its pages brought, in order, and the lineage's counts add up to them |
| `BrokerSnapshot.CompleteExactly` | gateway/kiwoom_broker_snapshot.py:79-144 | COMPLETE is reported exactly when all sections were completed in order, with everything collected |
| `BrokerSnapshot.CompleteIsClean` | gateway/kiwoom_broker_snapshot.py:79-173 | the completing result reports no error exactly when no submit call was refused before |
| `BrokerSnapshot.TerminalCount` | gateway/kiwoom_broker_snapshot.py:70-173 | terminal reports are one for the flow and one for every refusal |
| `BrokerSnapshot.EndsAtMostOnce` | gateway/kiwoom_broker_snapshot.py:70-173 | when no request is both answered and refused there is at most one |
| `BrokerSnapshot.EndedOnceIff` | gateway/kiwoom_broker_snapshot.py:70-173 | an ended flow is reported once exactly when no submit call was refused |
| `BrokerSnapshot.RefusedAfterDelivery` | gateway/kiwoom_broker_snapshot.py:118-173 | a request answered with errors inside its own submit call is reported as failed twice |
| `SnapshotFlow.GoesOnOrEnds` | gateway/kiwoom_broker_snapshot.py:79-144 | in every run the collection waits for another page exactly while every result led onward; the first that does not ends it as failed, incomplete or complete |
| `SnapshotFlow.FaultsAddUp` | gateway/kiwoom_broker_snapshot.py:116-173 | the errors are those of the results, the page limit and the refusals, in the order they came |
| `SnapshotRequests.CompletionIsAwaited` | gateway/kiwoom_broker_snapshot.py:79-173 | over the request runner, every completion finds the collection waiting for just that request |
| `SnapshotRequests.CollectorRuns` | gateway/kiwoom_broker_snapshot.py:70-173 | every run over the runner, with data, timers and refusals, is a run of the collection, so each result is taken at most once |
| `SnapshotRequests.SnapshotOverRunner` | gateway/kiwoom_broker_snapshot.py:70-173 | so over the runner pages are bounded, terminal reports counted and COMPLETE exact |
| `SnapshotRequests.PagesOverRunner` | gateway/kiwoom_broker_snapshot.py:70-144 | over the runner requests go page by page without a gap |
| `SnapshotRequests.RowsOverRunner` | gateway/kiwoom_broker_snapshot.py:100-117 | over the runner a section's rows are those its pages brought, and the lineage's counts add up to them |
| `SnapshotRequests.TimerFailsIff` | gateway/kiwoom_broker_snapshot.py:146-158 | a timer ends the collection exactly when it is under the key of the section whose page is pending, whichever page it was for |
| `SnapshotRequests.SecondPageLost` | gateway/kiwoom_broker_snapshot.py:146-158 | the first page's timer can fail the section while the second page is pending |
| `CandidateStore.CandidateService.CreateOrMergeFromSource` | services/candidate_service.py:353-424 | a source event is ignored when known or disabled, exits, or is merged into the open or a new episode |
| `CandidateStore.CandidateService.CreateCandidate` | services/candidate_service.py:371-404 | a new episode takes the next generation and its first two transitions |
| `CandidateStore.CandidateService.ApplyExit` | services/candidate_service.py:844-901 | an exit is stored, its source switched off, counts synced and the episode refreshed, or all of it taken back |
| `CandidateStore.CandidateService.RefreshContext` | services/candidate_service.py:457-599 | a refresh writes the counts and moves to the decided state, unless closed, missing or failing |
| `CandidateStore.CandidateService.ApplyStateTransition` | services/candidate_service.py:1291-1338 | a change of state is written and recorded |
| `CandidateStore.CandidateService.RecordTransition` | services/candidate_service.py:1341-1393 | a transition whose identity is stored is ignored |
| `CandidateStore.CandidateService.SyncSourceCounts` | services/candidate_service.py:1187-1211 | the counts are taken from the tables |
| `CandidateRuns.FindActiveMeans` | services/candidate_service.py:1773-1790 | the episode found is the only open one of its stock; none is found only when all are closed |
| `CandidateRuns.MaxIsCount` | services/candidate_service.py:1873-1882 | the highest generation is the number of episodes |
| `CandidateRuns.UpsertKeeps` | services/candidate_service.py:1140-1184 | moving a source row to the open episode leaves every other open episode's count true, since rows come only from closed ones |
| `CandidateRuns.RunKeeps` | services/candidate_service.py:353-1393 | every sequence of ingested events and refreshes, for any decisions at any times, keeps numbering, counts and links |
| `CandidateRuns.GenerationsExact` | services/candidate_service.py:1773-1886 | a stock's generations are exactly 1 to n, each once, and only the n-th can be open |
| `CandidateRuns.CountsStayTrue` | services/candidate_service.py:1187-1288 | an open episode's active source count is the number of active source rows that point to it |
| `CandidateRuns.RunExtends` | services/candidate_service.py:353-1393 | closed is final, episodes keep their place, the log only grows and stored events remain |
| `CandidateRuns.OffUntilEntered` | services/candidate_service.py:844-901 | a source that left the open episode stays off, in any run, until an entry of it is ingested |
| `CandidateRuns.MergeJoins` | services/candidate_service.py:405-417 | a source event joins the open episode: stored for it, its source row active and pointing there |
| `CandidateRuns.MergeOpens` | services/candidate_service.py:371-417 | when none is open, a source event opens the next generation and is stored and linked there |
| `CandidateSteps.RefreshMeans` | services/candidate_service.py:457-599 | a refresh writes the decided state, both counts and the transition of its row, and nothing else |
| `CandidateSteps.ExitMeans` | services/candidate_service.py:844-901 | what an exit writes with no open episode, with one, and when its refresh fails |
| `CandidateSteps.EntriesInRuns` | services/candidate_service.py:353-424 | after any run an event that is no exit joins the open episode, whose counts are taken again, or opens the next one with its first two transitions |
| `CandidateRuns.ReingestChangesNothing` | services/candidate_service.py:361-363 | events once stored can be ingested again at any later point without changing anything |
| `CandidateRuns.IngestedOnce` | services/candidate_service.py:361-447 | an event ingested once is ignored at any later point, unless it was an exit whose failed refresh took it back |
| `CandidateLog.RefreshLogged` | services/candidate_service.py:457-599 | a refresh keeps every candidate's path exactly when the transition it makes, if any, is new |
| `CandidateLog.LogLeadsToState` | services/candidate_service.py:1291-1393 | with new transition identities each candidate's transitions lead from nothing, step by step, to its present state |
| `CandidateLog.PathKeptIffFresh` | services/candidate_service.py:1354-1393 | a refresh that moves a candidate keeps its path exactly when the transition is new |
| `CandidateLog.LogKeepsUpIffFresh` | services/candidate_service.py:1341-1393 | the log leads every candidate to its state at every point of a run exactly when no step makes a transition whose identity is stored |
| `CandidateLog.RisingClockKeepsLog` | services/candidate_service.py:1354-1393 | when each candidate's refreshes go strictly forward in time, the log leads every candidate to its state at every point of the run |
| `CandidateLog.ClashLosesTransition` | services/candidate_service.py:1354-1393 | a candidate moved there, back and there again at one time loses the last transition |
| `WireTimes.RankIsTextOrder` | domain/broker/utils.py:79-81 | the order used for stored times is the order of their texts |
| `WireTimes.TextOrderIsTimeOrderUnless` | domain/broker/utils.py:79-81 | text order is time order exactly unless, within one second, one text has a fraction and the other none |
| `WireTimes.BoundsAreTheDate` | services/condition_fusion.py:739-766 | a stored time text lies within the bound texts of a date exactly when its time is of that date |
| `ConditionFusion.ConditionFusionTables.LatestProfileEvents` | services/condition_fusion.py:524-527 | the dictionary loop leaves the last event of every profile, in the order profiles first came |
| `ConditionFusion.ConditionFusionTables.ActiveEvents` | services/condition_fusion.py:528-544 | entries that are not expired, and the priority they add up to |
| `ConditionFusion.ConditionFusionTables.Evidence` | services/condition_fusion.py:537-577 | score and reasons follow from the active roles |
| `ConditionFusion.ConditionFusionTables.FuseCodeEvents` | services/condition_fusion.py:516-593 | one fusion from a code's events |
| `ConditionFusion.ConditionFusionTables.EventsByCode` | services/condition_fusion.py:89-99 | signals are grouped by code, order kept |
| `ConditionFusion.ConditionFusionTables.RebuildAll` | services/condition_fusion.py:67-114 | the full rebuild writes a row for every code with events and leaves the others |
| `ConditionFusion.ConditionFusionTables.CodeEvents` | services/condition_fusion.py:125-146 | the signals of one code, order kept |
| `ConditionFusion.ConditionFusionTables.RebuildForCode` | services/condition_fusion.py:117-163 | the rebuild of one code writes at most that code's row |
| `FusionRefinement.ActiveMeans` | services/condition_fusion.py:524-532 | an event is active exactly when it is its profile's last, an entry and not expired |
| `FusionRefinement.PromotionMeans` | services/condition_fusion.py:533-579 | promotion is allowed, and the score positive, exactly when some profile is active and none blocks; discovery alone stays at 25, a leader with a pullback or breakout reaches 500 exactly when promotion is allowed |
| `FusionRefinement.NewestMeans` | services/condition_fusion.py:534-534 | the newest event is the first of those whose time text no other's is after |
| `FusionMeaning.EventsMean` | services/condition_fusion.py:89-99 | the events of a code are those of its profile signals of the date, in order |
| `FusionMeaning.ActiveIff` | services/condition_fusion.py:524-532 | an event is active exactly when it is the last of its profile, an entry, and its time to live is not over |
| `FusionMeaning.ActiveByProfile` | services/condition_fusion.py:524-532 | active events stand in the order in which their profiles were first named |
| `FusionMeaning.FieldsMean` | services/condition_fusion.py:523-593 | roles, conditions, hits, last hit, name and subscription of a fusion, from its events |
| `FusionMeaning.RoleScoreMeans` | services/condition_fusion.py:35-43 | each role brings its own weight once |
| `FusionMeaning.PriorityMeans` | services/condition_fusion.py:538-542 | each active event that does not block brings its own priority, unless negative |
| `FusionMeaning.ScoreExact` | services/condition_fusion.py:537-577 | the priority score is the tenfold weights plus the priorities, capped for discovery alone, lifted for a leader with company, zero without leave |
| `FusionMeaning.ReasonsMean` | services/condition_fusion.py:544-577 | a reason is given exactly when its condition holds, once, in a fixed order |
| `FusionRefinement.ForCodeIsOneRow` | services/condition_fusion.py:117-163 | the per-code rebuild writes the row the full rebuild would write now, and no other |
| `FusionRefinement.ForCodeAfterFull` | services/condition_fusion.py:67-163 | rebuilding one code of a fully rebuilt table changes nothing |
| `FusionRefinement.ArrivalKeepsUp` | services/condition_fusion.py:67-163 | after one more signal, anywhere in time order, rebuilding its code gives the full rebuild |
| `FusionRefinement.IncrementalIsFull` | services/condition_fusion.py:67-163 | signals arriving one by one, each followed by its code's rebuild, leave the table of one full rebuild |
| `MarketContext.MarketContextService.UpsertLatest` | services/market_context_service.py:585-612 | the pointer moves only to a snapshot whose time text is not before |
| `MarketContext.MarketContextService.PersistMarket` | services/market_context_service.py:186-278 | a market's snapshot is the one found, the one stored meanwhile or a new one, and is pointed at |
| `MarketContext.MarketContextService.PersistSnapshots` | services/market_context_service.py:168-283 | both markets in one transaction, taken back when it fails |
| `MarketContext.PersistSettles` | services/market_context_service.py:168-283 | whatever was read before the transaction, both markets end at the stored or the new snapshot of one time |
| `MarketContext.RunKeeps` | services/market_context_service.py:35-283 | every sequence of rebuilds keeps snapshots paired and pointers coherent |
| `MarketContext.PointersCoherent` | services/market_context_service.py:168-283 | for any clocks both pointers carry one watermark and one time and point to the stored snapshots with the last time text |
| `MarketContext.NeverBack` | services/market_context_service.py:585-612 | snapshots are never rewritten and the time texts pointed at never go back |
| `MarketContext.SnapshotsWritten` | services/market_context_service.py:186-278 | in every run a snapshot is stored exactly when some rebuild of its watermark did not fail, and it is the one the first such rebuild made |
| `MarketContext.PointsToNewest` | services/market_context_service.py:585-612 | a rebuild moves a market's pointer exactly when its snapshot's time text is not before the present one's, and then to that snapshot |
| `MarketContext.PointerInTime` | services/market_context_service.py:585-612 | in time a pointer goes back, or stays behind a newer snapshot, exactly between a fraction and no fraction within one second |
| `MarketContext.CreatesBothOrNone` | services/market_context_service.py:266-276 | with unused ids a rebuild reports both snapshots created or none, and none exactly when the watermark was there |
| `CampaignBinding.AliasRoundTrip` | services/incremental_dead_letter_campaign.py:502-507 | aliases U01 to U38 and ordinals determine each other |
| `CampaignBinding.TextForms` | services/incremental_dead_letter_campaign.py:454-519 | what a SHA-256 text and an identifier are made of |
| `CampaignBinding.AtMostMeans` | services/incremental_dead_letter_campaign.py:198-200 | identifiers are ordered by their characters, up to the first place where two differ |
| `CampaignBinding.BuildMeans` | services/incremental_dead_letter_campaign.py:249-303 | a build succeeds exactly for a well-formed target, the predecessor its place asks for and well-formed inputs in time order, and then says just what it was given |
| `CampaignEvidence.ValidateMeans` | services/incremental_dead_letter_campaign.py:306-389 | validation accepts exactly a well-formed binding of the expected target, in time, under its own digest, and returns it unchanged |
| `CampaignErrors.FirstRuleDecides` | services/incremental_dead_letter_campaign.py:306-389 | a presented binding is accepted exactly when it breaks no rule, and else refused with the error of the first rule it breaks |
| `CampaignErrors.BuildFails` | services/incremental_dead_letter_campaign.py:249-303 | a build fails for its target, then its predecessor, then what else it is given, with the first fault's error |
| `CampaignEvidence.ValidateIffBuilt` | services/incremental_dead_letter_campaign.py:249-389 | a binding is accepted exactly when building it from the expected target and its own statements gives that very binding, in time |
| `CampaignEvidence.BuiltIsAccepted` | services/incremental_dead_letter_campaign.py:249-389 | every built binding is accepted for its target exactly until its own time bound |
| `CampaignEvidence.ApprovalPinsBinding` | services/incremental_dead_letter_campaign.py:306-389 | two accepted bindings under one approval digest are the same, or two documents collide |
| `CampaignEvidence.ValidateManifest` | services/incremental_dead_letter_campaign.py:171-231 | a manifest is accepted exactly when it has 38 well-formed targets in alias order, no identifier twice, sorted, under the expected digest |
| `CampaignEvidence.ManifestAliases` | services/incremental_dead_letter_campaign.py:185-196 | an accepted manifest holds every alias once, at its own place |
| `CampaignEvidence.EqualChainsEqualHistories` | services/incremental_dead_letter_campaign.py:397-433 | equal chain digests mean equal histories of any length, unless two of their links collide |
| `CampaignEvidence.ChainIff` | services/incremental_dead_letter_campaign.py:397-433 | a chain can be built exactly over well-formed steps of which the first one, and no other, is U01 |
| `CampaignEvidence.FirstStepFirst` | services/incremental_dead_letter_campaign.py:407-416 | a chain starts with U01 and has it only there |

## Left out

- HTTP, Qt, ActiveX, threads and SQL text: steps and parameters stand for them, tables are maps and sequences.
- Floating-point rounding: times, weights and delays are reals.
- Text classification: event types and command types are given as stripped, lower-cased values or kinds; order-like forbidden types are one kind.
- Without a batch endpoint the worker removes a posted event that is no longer first by equality (gateway/core_io_worker.py:383-389); the model removes by identity there too, which is the same while queued events differ, as their event ids do.
- Command polling, heartbeats, log events and status snapshots of the worker and the runtime: plumbing or display.
- Safety validation of order commands, expiry and the server environment check: yes-or-no answers of the surroundings.
- Payload building, account and code normalisation and exchange codes of orders.
- TR and snapshot commands inside the handler: a command that is no order succeeds or fails as a whole.
- Dead-man cancels and calls that raised: neither is recorded by the governor, so the rate bound is about recorded calls.
- Recovery of UNCONFIRMED commands: the journal does not list them as pending.
- Skip-reason summaries and the last budget of the admission controller.
- Market-index registrations and the health figures of realtime subscriptions: the latter are inputs of the admission decision.
- Row extraction from TR data and field normalisation of snapshot rows: a result is a list of rows.
- Other users of the request runner during a collection, and their requests.
- TR keys are triples: the original joins screen, request name and code with a bar, so names with bars could clash.
- The decision of the candidate state machine, readiness and theme contexts: any decision is allowed.
- Candidate name, theme and time columns, the context table and projection errors.
- `source_count` of candidates: written as the code does, but no lemma gives it one meaning, since sync counts events and refresh counts rows.
- Trade-date zones whose offset from UTC changes: a date's zone has one offset, as Seoul's has. The part of a time text down to the second is of fixed width and stands for its second.
- The runtime fence that can stop a full fusion rebuild between two chunks of ten rows.
- Reading of profile metadata into an event, and fusion listings and profile metrics.
- Regime evaluation, parser confidence and readiness in market snapshots: one opaque content.
- Stable reading of JSON documents, exact key sets and JSON types: a malformed binding is one of two given values, a manifest is a list of targets.
- Candidates of a chain may skip ordinals: the original checks the alias and the predecessor of each link, not that ordinals rise by one.
