# Verified model of the execution core, the signal lifecycle and three trading algorithms

This project models, in Dafny, the parts of the trading platform whose correctness depends on state, on
interleavings or on arithmetic, and proves what they promise for all inputs and all runs.
`dafny verify dfyconfig.toml` checks everything.

## What is modelled

**The v2 execution core** is a durable command queue. A dispatcher plans one order for every customer, executor and
account, reserves an idempotency key and then inserts a command. Workers lease commands by rank with a compare-and-set,
call an adapter, and complete, retry or dead-letter the command. Expired leases are recovered.

- `StoreModel`, `QueueModel` describe each repository and queue call as a function on the store; `Repository`, `Queue`,
  `Worker`, `Manager` are the classes whose methods change fields in place and are proved equal to those functions.
- `Protocol` is the state machine over single store calls. Any number of dispatchers, workers and recoverers interleave;
  workers crash or go on after their lease ran out; a dispatcher may die between reserving a key and inserting. A `Job`
  is a worker's private memory of a lease it was granted, so it can be stale. `QueueProperties`, `Worker` and
  `DispatchRun` show that a lease call, an enqueue, the two halves of processing a command and a whole dispatch are runs
  of this machine.
- `ProtocolInvariants` and `ProtocolBudget` hold the invariants; `ProtocolSafety` the theorems for every run;
  `ProtocolDiscipline` those for runs in which workers check their lease before they act, or also never outlive it;
  `ProtocolStaleWorker` runs that show what happens otherwise.
- `Idempotency`, `Planner`, `Events` model the key, the planning gates and the event log.

**The signal lifecycle** of the worker application: `OutcomeMachine` is one price tick of an outcome (open, first target,
five terminal states, R accounting), `OutcomeProperties` what holds over every price path, `Admission` the
one-per-symbol walk, `SignalCycle` the table of outcomes over all cycles, `Diversification` the splice-in-place reorder.

**Three algorithms:** the governed equity simulation (`Capital`, `CapitalProperties`, `PropProfiles`), the capped candle
cache (`CandleCache`) and candle aggregation (`Aggregation`).

## Where the code falls short of what one would expect

Each of these is a theorem that says exactly when the expected property holds.

- An idempotency key names one entry if and only if none of its four identifiers holds a `|`
  (`Idempotency.KeyIdentifiesIffClean`); otherwise a different entry shares the key and is refused as a duplicate.
- Marks do not check the lease holder, and releasing a lease does not check the status. Without lease discipline a stale
  worker reopens a completed command and the adapter is called again (`ProtocolStaleWorker.StaleWorkerReopensCompleted`),
  and two workers are in flight on one command, even if both check their lease (`ProtocolStaleWorker.TwoWorkersInFlight`).
  `ProtocolDiscipline.CompletedSurvivesIff` and `ProtocolDiscipline.OneActingSurvivesIff` list exactly the steps that
  break either property. Checking the lease before every working step is enough for completion to be final
  (`ProtocolDiscipline.CompletedIsFinal`), but not for one worker in flight: that also needs work to end before its lease
  does (`ProtocolDiscipline.AtMostOneInFlight`).
- The documents of the core (for example v2/docs/STATE_MACHINES.md) promise monotonic event numbers. `publish` numbers by
  the current length and `cleanup` drops old events, so after a clean-up an up-to-date reader sees the next event if and
  only if nothing was dropped (`Events.NextEventIsSeenIff`, with an instance in `Events.NextEventCanBeMissed`). Nothing
  under v2 calls `cleanup`, so this takes a caller from outside.
- A price that jumps past both targets at once pays only the remaining share at the second target; the partial share is
  lost (`OutcomeProperties.GapLosesTheShare`). The second target pays the blend exactly when some price took the first
  target before anything else happened, or the share is worth nothing (`OutcomeProperties.SecondTargetPaysBlendIff`).
- The consecutive-loss lock resets the counter the report is taken from. The reported losing streak is the real one cut
  off at the configured maximum, so it is exact if and only if no run of losses is longer than that
  (`CapitalProperties.ReportedStreak`, with an instance in `PropProfiles.ReportedStreakCanFallShort`).
- The three prop profiles survive every list of trades that lose at most `m` times their risk exactly when
  0.94 (1 - 0.004 m), 0.97 (1 - 0.0035 m) and 0.98 (1 - 0.0025 m), in the order of the source, is at least 0.85
  (`PropProfiles.ProfileSurvivesIff`).

## Model

| member | source | states |
|---|---|---|
| Idempotency.SplitInvertsJoin | v2/src/execution-core/idempotency.ts:3 | cutting a joined key at its bars gives back the parts iff no part holds a bar |
| Idempotency.UncleanEntryCollides | v2/src/execution-core/idempotency.ts:2-4 | every entry with a bar in an identifier shares its key with a different entry, which is constructed |
| Idempotency.KeyIdentifiesIffClean | v2/src/execution-core/idempotency.ts:2-4 | a key belongs to one entry only iff the four identifiers are free of bars |
| Idempotency.KeyText | v2/src/execution-core/idempotency.ts:3 | the text of a key, field by field |
| StoreModel.UpdateKeepsCores | v2/src/execution-core/repositories.ts:12-13 | no update touches ids, keys, payload or order of the commands |
| StoreModel.RecoverRequeuesExactlyStranded | v2/src/execution-core/repositories.ts:19 | a command is requeued iff it is leased, started or sent and its lease ran out; order, retries, identity and the rest of the store stay |
| StoreModel.RecoverIsIdempotent | v2/src/execution-core/repositories.ts:19 | recovering again at the same instant recovers nothing and changes nothing |
| Repository.ExecutionRepository.constructor | v2/src/execution-core/storage.ts:4-5 | a new store is empty |
| Repository.ExecutionRepository.ReserveKey | v2/src/execution-core/repositories.ts:10 | reserves iff there is no unexpired record; the whole new store, with the duplicate counter and dispatch history |
| Repository.ExecutionRepository.Insert | v2/src/execution-core/repositories.ts:11 | appends iff no live command has the id or the key |
| Repository.ExecutionRepository.Find | v2/src/execution-core/repositories.ts:12-15 | the index of the first command with the id, or the number of commands |
| Repository.ExecutionRepository.Update | v2/src/execution-core/repositories.ts:12 | patches the first command with the id and no other; returns the patched command, or nothing if there is none |
| Repository.ExecutionRepository.CompareAndSetCommand | v2/src/execution-core/repositories.ts:13 | patches iff the stored command meets the expectation, and says whether it did |
| Repository.ExecutionRepository.Bury | v2/src/execution-core/repositories.ts:15 | moves the command from the queue to the end of the dead letters |
| Repository.ExecutionRepository.RecoverStranded | v2/src/execution-core/repositories.ts:19 | requeues the stranded commands in a loop, returns their number and adds it to the counter |
| Repository.ExecutionRepository.PublishEvent | v2/src/execution-core/events.ts:5 | appends one event numbered by the current length plus one |
| Queue.CommandQueue.constructor | v2/src/execution-core/queue.ts:3 | a queue works on the given repository with the given timeout and retry limit |
| Queue.CommandQueue.Enqueue | v2/src/execution-core/queue.ts:4 | reserves then inserts; succeeds iff the key was free and the command insertable; a refused offer returns the stored command with that key |
| Queue.CommandQueue.Lease | v2/src/execution-core/queue.ts:6 | leases exactly the first due commands in rank order, returns their leased forms in that order, changes no other command |
| Queue.CommandQueue.RenewLeaseOf | v2/src/execution-core/queue.ts:7 | extends the lease iff the worker holds it |
| Queue.CommandQueue.ReleaseLeaseOf | v2/src/execution-core/queue.ts:8 | requeues the command iff the worker is named as holder, whatever its status |
| Queue.CommandQueue.MarkStatus | v2/src/execution-core/queue.ts:9-12 | sets the status without looking at the holder |
| Queue.CommandQueue.RetryLater | v2/src/execution-core/queue.ts:13 | counts the failure, then dead-letters on a fatal category or a spent budget, else reschedules after a growing delay and clears the lease |
| QueueProperties.LeaseTakesTheBest | v2/src/execution-core/queue.ts:6 | at most a batch of queued or rescheduled commands whose retry time has come, by falling priority and then age; none is left behind unless the batch is full, and none that is left is more urgent or, at the same priority, older |
| QueueProperties.TiesKeepQueueOrder | v2/src/execution-core/queue.ts:6 | commands of equal rank are leased in queue order |
| QueueProperties.LeaseTouchesOnlyChosen | v2/src/execution-core/queue.ts:6 | each taken command is held until now plus timeout, every other command is unchanged |
| QueueProperties.LeaseIsAProtocolRun | v2/src/execution-core/queue.ts:6 | a whole lease call is a run of single grants of the state machine |
| QueueProperties.EnqueueTwice | v2/src/execution-core/queue.ts:4 | offering a key again at any later time only counts a duplicate |
| QueueProperties.EnqueueIsAProtocolRun | v2/src/execution-core/queue.ts:4 | an enqueue is the machine's reservation followed by its insertion |
| QueueProperties.ExistingIsFirst | v2/src/execution-core/queue.ts:4 | a refused offer is answered with the first stored command that has the key |
| QueueProperties.ReservationLasts | v2/src/execution-core/repositories.ts:10 | a reservation holds until its time to live is over, or for good without one |
| QueueProperties.InsertedIff | v2/src/execution-core/repositories.ts:11 | a command is taken in iff neither its id nor its key is among the live ones |
| QueueProperties.HolderOperations | v2/src/execution-core/queue.ts:7-8 | renewing and releasing in the command's fields, and nothing for anyone but the holder |
| QueueProperties.MarkInFields | v2/src/execution-core/queue.ts:10 | a mark writes status and time of the first command with the id and nothing else |
| QueueProperties.FailureIsCounted | v2/src/execution-core/queue.ts:13 | a failure is counted; burial iff the count exceeds the limit or the category is one of four, otherwise a retry at the given time or a second later per failure |
| ProtocolBudget.InvStep | v2/src/execution-core/repositories.ts:10-19 | every step of every actor keeps identity, origin, command shape, known ids, grant budget and call budget |
| ProtocolBudget.InvRun | v2/src/execution-core/repositories.ts:10-19 | so does every run, crashes and stale workers included |
| ProtocolSafety.KeysNeverRepeat | v2/src/execution-core/repositories.ts:10-15 | over all runs no key and no id occurs twice among commands and dead letters together |
| ProtocolSafety.OneCommandPerEntry | v2/src/execution-core/queue.ts:4 | a signal, customer, executor, account and adapter together get at most one OpenPosition command ever |
| ProtocolSafety.RecordsAreReservations | v2/src/execution-core/repositories.ts:10 | the keys on record are exactly those some dispatcher tried to reserve |
| ProtocolSafety.RefusedIffTriedBefore | v2/src/execution-core/repositories.ts:10 | no false duplicates: with clean identifiers a reservation is refused iff one for that very entry was attempted before |
| ProtocolSafety.AcceptedAreConserved | v2/src/execution-core/repositories.ts:11-15 | every accepted command is in exactly one of commands and dead letters, unchanged in identity, and nothing else is there |
| ProtocolSafety.DeadLettersOnlyGrow | v2/src/execution-core/repositories.ts:15 | dead letters and acceptance are append-only and their entries never change |
| ProtocolSafety.LeasesAreBounded | v2/src/execution-core/queue.ts:6-13 | leases of a live command never exceed 1 + retries + recoveries + releases, and its retries stay within the limit |
| ProtocolSafety.AdapterCallsAreBounded | v2/src/execution-core/worker.ts:5-6 | adapter calls of a command never exceed retry limit + 1 + recoveries + releases, even with stale workers |
| ProtocolSafety.RecoveredAreDue | v2/src/execution-core/repositories.ts:19 | in every reachable state a recovered command can be leased at once |
| ProtocolDiscipline.AtMostOneInFlight | v2/src/execution-core/worker.ts:5-6 | if workers check their lease and never outlive it, at most one acts on a command, it holds the live lease, and the stored status is the one of its phase |
| ProtocolDiscipline.OneActingSurvivesIff | v2/src/execution-core/worker.ts:5-6 | without discipline, a step keeps at most one acting job per command iff it is not a worker beginning a command another job is acting on |
| ProtocolDiscipline.CompletedIsFinal | v2/src/execution-core/queue.ts:6-13 | if workers only check their lease before every working step and no completed command is released, a completed command stays completed, is never leased and never sent again; adapter calls may outlast their lease |
| ProtocolDiscipline.CompletedSurvivesIff | v2/src/execution-core/queue.ts:8-13 | without discipline, a step leaves a completed command completed iff it is not a mark, a failure or a holder's release of it |
| ProtocolStaleWorker.TwoWorkersInFlight | v2/src/execution-core/worker.ts:6 | for any planned order a reachable state in which two workers act on its command at once, both having checked their lease before every step |
| ProtocolStaleWorker.StaleWorkerReopensCompleted | v2/src/execution-core/queue.ts:10-13 | for any planned order a reachable run in which a stale worker reopens the completed command and the adapter is called once more |
| Worker.ExecutionWorker.constructor | v2/src/execution-core/worker.ts:3 | a worker has its id and shares the queue's repository |
| Worker.ExecutionWorker.FailCommand | v2/src/execution-core/worker.ts:6 | a failure is announced, retried or dead-lettered, and announced again |
| Worker.ExecutionWorker.BeginProcess | v2/src/execution-core/worker.ts:6 | the store up to the adapter call, or after the missing adapter was handled as a transient failure |
| Worker.ExecutionWorker.FinishProcess | v2/src/execution-core/worker.ts:6 | the store after any answer: acknowledged or not, verified or not, or thrown |
| Worker.BeginIsAProtocolRun | v2/src/execution-core/worker.ts:6 | what happens before the adapter call is a run of the job's steps |
| Worker.FinishIsAProtocolRun | v2/src/execution-core/worker.ts:6 | what happens after it is a run of the job's steps, whatever the call came to |
| Worker.BeginOutcome | v2/src/execution-core/worker.ts:6 | up to the call the command is sent; without an adapter it fails as a transient failure |
| Worker.BeginAnnounces | v2/src/execution-core/worker.ts:6 | the events before the call, or of the missing adapter |
| Worker.FinishOutcome | v2/src/execution-core/worker.ts:6 | the command ends completed iff the call answered and did not say unverified; a failure carries the thrown category and message, or the verification category and its reason; every other command and key record stays |
| Worker.FinishAnnounces | v2/src/execution-core/worker.ts:6 | the events after the call, by the answer's own fields |
| Planner.ApprovedIff | v2/src/execution-core/planner.ts:9-41 | a plan is approved iff no gate refuses and the entry is new, and exactly then carries one command, the planned one |
| Planner.VerdictIff | v2/src/execution-core/planner.ts:10-41 | approved iff eligible, ready and new; deferred iff a passing condition stands in the way before any other does; rejected otherwise |
| Planner.ReasonIsJustified | v2/src/execution-core/planner.ts:10-38 | the reason given applies, and the plan is deferred iff it is one of the four that pass |
| Planner.ReasonIsFirst | v2/src/execution-core/planner.ts:10-38 | if any reason applies the plan is refused, for that reason or one that ranks before it |
| Planner.ApprovedPlanIsSafe | v2/src/execution-core/planner.ts:25-41 | an approved plan respects every limit on the account's own fields, its leverage is the lower cap, and its command carries the sized order |
| Planner.ApprovedPlanRisksTheAmount | v2/src/execution-core/planner.ts:35 | a hundred times size times distance to the stop is equity times risk percent, with one percent of the entry for a missing stop and no size without a distance |
| Planner.CommandIsAddressed | v2/src/execution-core/planner.ts:37-41 | every other field of an approved plan's command |
| Planner.LoweringLimitsNeverApproves | v2/src/execution-core/planner.ts:25-36 | lowering any of six limits never approves a refused plan and never changes one that stays approved |
| Manager.ExecutionManager.constructor | v2/src/execution-core/manager.ts:8 | a manager plans for the given profiles over the shared repository |
| Manager.ExecutionManager.RecoverLeases | v2/src/execution-core/manager.ts:9 | recovers, returns the count, and announces it iff it is not zero |
| Manager.ExecutionManager.Announce | v2/src/execution-core/manager.ts:11 | queues a command and announces whether it was queued or a duplicate |
| Manager.ExecutionManager.Settle | v2/src/execution-core/manager.ts:11 | announces a plan's verdict and queues its commands in order |
| Manager.ExecutionManager.PlanAccount | v2/src/execution-core/manager.ts:11 | plans one account against the store its predecessors left and settles the plan |
| Manager.ExecutionManager.DispatchExecutor | v2/src/execution-core/manager.ts:11 | the innermost loop plans every account of an executor in order |
| Manager.ExecutionManager.DispatchCustomer | v2/src/execution-core/manager.ts:11 | the middle loop plans every executor of a customer in order |
| Manager.ExecutionManager.Dispatch | v2/src/execution-core/manager.ts:10-12 | the nested loops equal one pass over all customer, executor and account triples, and the report is computed from its plans |
| ManagerProperties.DispatchAccounting | v2/src/execution-core/manager.ts:10-12 | each count is the number of plans with that verdict and together they are the triples; approved = queued = commands appended, which are the planned ones in order |
| ManagerProperties.DispatchMakesKnown | v2/src/execution-core/manager.ts:8-11 | a key becomes known iff it belongs to a slot whose gates were open; nothing known is forgotten |
| ManagerProperties.NothingApprovedIff | v2/src/execution-core/manager.ts:8-11 | a dispatch approves nothing iff every slot is shut by a gate or its key is already known, and then no command is added |
| ManagerProperties.SecondDispatchApprovesNothing | v2/src/execution-core/manager.ts:8-12 | dispatching the same signal again approves nothing and adds no command |
| ManagerProperties.KnownIff | v2/src/execution-core/manager.ts:8 | a key is a duplicate iff a live command has it, it was dispatched, or it is on record |
| ManagerProperties.SlotsAreTheAccounts | v2/src/execution-core/manager.ts:11 | the slots are exactly the accounts of the executors of the customers |
| ManagerProperties.SettleAnnounces | v2/src/execution-core/manager.ts:11 | the events of a plan by its verdict, and whether its command was queued |
| ManagerProperties.DispatchIsFramed | v2/src/execution-core/manager.ts:9-12 | the event log is extended, first by a recovery event iff leases were stranded and a start event, and last by the completion event |
| DispatchRun.DispatchIsAProtocolRun | v2/src/execution-core/manager.ts:10-12 | a whole dispatch is a run of the state machine that disturbs no other dispatcher's reservation, so the theorems about all runs hold of what dispatchers do |
| Events.PublishKeepsNumbering | v2/src/execution-core/events.ts:5 | without clean-up the n-th event has number n and old events stay |
| Events.ReplayIsTheRest | v2/src/execution-core/events.ts:6 | without clean-up replay after k is exactly the suffix from k on |
| Events.NextEventIsSeenIff | v2/src/execution-core/repositories.ts:18 | after a clean-up an up-to-date reader is shown the next event iff nothing was dropped |
| Events.NextEventCanBeMissed | v2/src/execution-core/repositories.ts:18 | a numbered log, a retention time and an instant at which the next event is numbered as an old one and not shown |
| Events.CleanUpKeepsReservations | v2/src/execution-core/repositories.ts:18 | clean-up forgets exactly the keys whose time to live is over, so none the queue reserved |
| OutcomeMachine.ReactToPrice | apps/worker/src/index.ts:4927-4999 | stop before second target before first target, with the new status, times, protected stop and R of each branch |
| OutcomeMachine.ProcessTick | apps/worker/src/index.ts:4918-5030 | a whole tick: excursions and age, the reaction, then expiry of what is unresolved |
| OutcomeProperties.TickKeepsBooks | apps/worker/src/index.ts:4918-5012 | a tick keeps the books of an outcome, and a tick past the maximum age always resolves it |
| OutcomeProperties.TickInPrices | apps/worker/src/index.ts:4927-5012 | where a tick leads from either active status, by price, levels and age alone: the stop in force, then the second target, then the first, then expiry |
| OutcomeProperties.ProtectedTickInPrices | apps/worker/src/index.ts:4961-5012 | from the first target: break-even, partial win, expired or unchanged, each iff |
| OutcomeProperties.TickRecords | apps/worker/src/index.ts:4925-4999 | age in whole seconds, the times of first events, and the armed stop in prices |
| OutcomeProperties.FollowKeepsBooks | apps/worker/src/index.ts:4884-5012 | over every price path: terminal iff resolvedAt iff finalResolvedR, and each terminal state pays exactly what it stands for |
| OutcomeProperties.StopAfterFirstTargetPays | apps/worker/src/index.ts:4961-4974 | a stop after the first target pays exactly the partial share at the first target plus the rest at the protection, with the matching status |
| OutcomeProperties.FinalRBounds | apps/worker/src/index.ts:4961-5012 | final R is at least -1, negative only on the initial stop, at least the partial share once the first target was taken, and at most the best exit |
| OutcomeProperties.FinalRInMoney | apps/worker/src/index.ts:1897-1921 | times the initial risk, a final R is the money the levels and the share say, over every price path |
| OutcomeProperties.FirstEventDecides | apps/worker/src/index.ts:4961-5012 | a loss is booked iff the stop is the first thing that happens on the price path, the first target is recorded iff it is |
| OutcomeProperties.SecondTargetPaysBlendIff | apps/worker/src/index.ts:4980-4992 | the second target pays the blend of both targets iff some price took the first target before anything else happened, or the share is worth nothing |
| OutcomeProperties.GapLosesTheShare | apps/worker/src/index.ts:4980-4992 | one price past both targets pays 1 R where the blend is 1.5 R |
| OutcomeProperties.ExcursionsAreExtremes | apps/worker/src/index.ts:1879-1895 | mfe and mae are the running extremes of the prices processed |
| OutcomeProperties.MaxFavorableIsMax | apps/worker/src/index.ts:4923 | that extreme is never negative, bounds every processed price and is attained or zero |
| OutcomeProperties.MaxAdverseIsMax | apps/worker/src/index.ts:4924 | likewise for adverse moves |
| OutcomeProperties.LossIffStoppedFirst | apps/worker/src/index.ts:4961-5012 | a loss is booked iff the first price at which anything happens is at or beyond the stop |
| Admission.AdmitIndependent | apps/worker/src/index.ts:3888-3920 | admission walks the candidates by score and keeps the first of every symbol |
| Admission.LockSymbols | apps/worker/src/index.ts:4001-4043 | the lock pass keeps, by score, the first candidate of every symbol that is not locked |
| Admission.WalkKeepsFirst | apps/worker/src/index.ts:3895-3907 | the first member with a free key is kept |
| Admission.AdmissionIsBestPerSymbol | apps/worker/src/index.ts:3889-3920 | exactly one candidate for every upper-cased symbol that has one, scoring at least as high as any other, and nothing else |
| Admission.AdmissionPrefersEarlier | apps/worker/src/index.ts:3889-3907 | among the best of a symbol the one generated first is admitted |
| Common.ToUpperByLetter | apps/worker/src/index.ts:3896 | small letters become the capitals at the same place of the alphabet, nothing else changes |
| SignalCycle.SignalTable.constructor | apps/worker/src/index.ts:4147-4165 | the table starts empty |
| SignalCycle.SignalTable.CreateOutcomes | apps/worker/src/index.ts:3981-4165 | the A+ candidates that pass the symbol lock are appended as fresh open rows |
| SignalCycle.SignalTable.UpdateOutcomes | apps/worker/src/index.ts:4884-5030 | the first 500 open rows with a price take one tick, all other rows stay |
| SignalCycle.CyclesKeepOneActivePerSymbol | apps/worker/src/index.ts:3981-4043 | over all cycles at most one row per upper-cased symbol is open or at its first target, and every row's books are in order |
| SignalCycle.TickedRow | apps/worker/src/index.ts:4884-4894 | a row is ticked iff it is open and fewer than 500 open rows stand before it |
| SignalCycle.OldRowsAreResolved | apps/worker/src/index.ts:5001-5012 | the first cycle that reaches an open row past the maximum age resolves it |
| SignalCycle.LateRowsWait | apps/worker/src/index.ts:4884-4892 | a row with 500 open rows before it is not touched by the cycle |
| SignalCycle.ResolvedRowsAreFrozen | apps/worker/src/index.ts:4884-4892 | a resolved row is never touched again |
| SignalCycle.CreatedAreUnlockedAPlus | apps/worker/src/index.ts:3981-4165 | old rows stay; every new row is fresh, carries a selected A+ candidate's own levels, and its symbol had no open trade and no active row |
| SignalCycle.UnlockedAPlusIsCreated | apps/worker/src/index.ts:3981-4165 | every A+ candidate whose symbol has no open trade and no active row gets a row for its symbol, of a candidate scoring at least as high |
| Diversification.ApplySimpleCryptoDiversification | apps/worker/src/index.ts:1020-1066 | the splice loop equals one step per position on the ranking |
| Diversification.DiversifiedIsPermutation | apps/worker/src/index.ts:1038-1065 | the result is a permutation with the head unchanged |
| Diversification.InversionsAreNearTies | apps/worker/src/index.ts:1038-1065 | from descending scores every inversion of the result is at most two points |
| Diversification.MoveKeepsCursor | apps/worker/src/index.ts:1052-1062 | an element just moved up cannot clash with its successor, and the tail behind it is in order |
| Diversification.ClashByName | apps/worker/src/index.ts:1013-1058 | what makes two candidates clash and what may be moved up, by market, side, score and symbol |
| Diversification.FirstAlternativeMovesUp | apps/worker/src/index.ts:1052-1062 | before a clash the first alternative behind it moves up, and nothing does without one |
| Diversification.NoClashLeftBehind | apps/worker/src/index.ts:1043-1062 | behind rivals of one kind left side by side there is no rival of another kind that could have been moved up |
| Diversification.UnchangedIff | apps/worker/src/index.ts:1034-1065 | the ranking comes back as it was iff no two rivals of one kind stand before a rival of another kind |
| Capital.MaxDD | scripts/validate-breakout-capital.ts:60-68 | the loop computes the worst drop from the running peak |
| Capital.Streak | scripts/validate-breakout-capital.ts:70-80 | the loop computes the worst run of losses |
| Capital.BookTrade | scripts/validate-breakout-capital.ts:142-156 | equity, curve, day total, counters, streak and peak after a trade that is taken |
| Capital.Simulate | scripts/validate-breakout-capital.ts:86-182 | the loop with its skips and three locks equals the step function over all trades, and the report is read off its final state |
| CapitalProperties.WorstRunIsLongest | scripts/validate-breakout-capital.ts:70-80 | the streak is at least n iff n consecutive losses occur |
| CapitalProperties.WorstDropIsLeastBound | scripts/validate-breakout-capital.ts:60-68 | the drawdown bounds every drop from the running peak and is attained or zero |
| CapitalProperties.EquityIsConserved | scripts/validate-breakout-capital.ts:138-157 | equity minus start is the sum of the trades' results, the curve is its running total, the peak its top, and wins are the results that are not negative |
| CapitalProperties.ReportedStreak | scripts/validate-breakout-capital.ts:134-155 | the reported streak is the longest run of losses cut off at the configured maximum; it is the real one iff there is no governance or no run is longer |
| CapitalProperties.StreakIsCapped | scripts/validate-breakout-capital.ts:134-155 | under governance no counted streak is longer than the configured maximum |
| CapitalProperties.DrawdownLockIsAbsorbing | scripts/validate-breakout-capital.ts:128-132 | once the trailing-drawdown lock holds, no later trade changes equity, peak, curve or results |
| CapitalProperties.TradeIsTaken | scripts/validate-breakout-capital.ts:141-156 | outside a lock period and with no lock that applies, the whole new state in the trade's fields |
| CapitalProperties.LockedTrade | scripts/validate-breakout-capital.ts:122-139 | the first lock that applies turns the trade away, counts it and locks from its exit on |
| CapitalProperties.DailyLockIff | scripts/validate-breakout-capital.ts:122-126 | the daily lock turns a trade away iff the day's loss has reached the limit |
| CapitalProperties.FirstTrade | scripts/validate-breakout-capital.ts:97-116 | a run starts unlocked at time zero with nothing booked |
| CapitalProperties.LockedTradesLeaveNoTrace | scripts/validate-breakout-capital.ts:116 | trades that enter during a lock are skipped and the rest is played as if they were not there |
| CapitalProperties.EveryDayIsBounded | scripts/validate-breakout-capital.ts:118-126 | a hundred times any day's result exceeds minus the peak times the daily limit plus one full loss, in percent |
| CapitalProperties.SafeTradesKeepFloor | scripts/validate-breakout-capital.ts:115-157 | if no trade, in whatever state it may be taken, leaves less than a share of the peak, neither does any point of the run |
| CapitalProperties.EquityStaysAboveFloor | scripts/validate-breakout-capital.ts:115-157 | at every point equity exceeds peak x (1 - limit) x (1 - worst loss of one trade), and the reported drawdown is below the complement, for every trade list |
| PropProfiles.ProfileSurvives | scripts/validate-breakout-capital.ts:175-180 | a profile whose deepest loss leaves 85 percent of the peak, counting its lower risk in drawdown, survives every trade list, and its drawdown is below the same figure |
| PropProfiles.AllProfilesSurvive | scripts/validate-breakout-capital.ts:261-288 | all three profiles survive every trade list whose losses stay within 20 times the risk, so in particular whenever no trade loses more than its risk |
| PropProfiles.ProfileSurvivesIff | scripts/validate-breakout-capital.ts:261-288 | for each profile the exact size of single losses up to which it survives all lists |
| PropProfiles.ProfileLocksIff | scripts/validate-breakout-capital.ts:261-288 | each profile turns a trade away iff its own daily, drawdown or streak limit is reached, and then for its own number of hours |
| PropProfiles.ReportedStreakCanFallShort | scripts/validate-breakout-capital.ts:134-139 | four losing signals in a row of which three are taken are reported as a streak of two |
| CandleCache.BinanceSpotProvider.constructor | packages/core/src/providers.ts:37 | the cache starts empty |
| CandleCache.BinanceSpotProvider.UpsertClosedCandle | packages/core/src/providers.ts:68-75 | one key's list is filtered, extended, sorted and capped; every other key is untouched |
| CandleCache.BinanceSpotProvider.CachedCandles | packages/core/src/providers.ts:166-168 | a request is answered with the last entries of the key's list, or all of them for a limit of zero or less |
| CandleCache.UpsertTracks | packages/core/src/providers.ts:68-75 | an upsert of the list is a write to the plain map: the list goes on holding its newest 1200 entries, ascending |
| CandleCache.CacheIsNewestOfMap | packages/core/src/providers.ts:68-75 | for every sequence of candles over any keys a key's list is the newest 1200 entries of the plain map of its candles; unmentioned keys keep theirs |
| CandleCache.CutIsNewest | packages/core/src/providers.ts:166-168 | the last m of the newest n entries are the newest m |
| CandleCache.CachedIff | packages/core/src/providers.ts:74 | a candle is cached iff it was written and fewer than n written candles are newer |
| CandleCache.CacheKeyIdentifies | packages/core/src/providers.ts:43-45 | two symbols and timeframes share a key only if the upper-cased symbols and the timeframes agree |
| Aggregation.Aggregate | scripts/validate-phase-e2z-b-engine2-integration.ts:11-27 | the stepping loop equals the recursive grouping, dropped tail included |
| Aggregation.AggComposes | scripts/validate-phase-e2z-b-engine2-integration.ts:11-27 | aggregating by a and then by b is aggregating by a times b, for all lists and positive factors |
| Aggregation.FourHoursAgree | scripts/validate-arbitration-eth.ts:117-118 | 15-minute candles give the same 4-hour candles through the hour as directly |
| Aggregation.AggAt | scripts/validate-phase-e2z-b-engine2-integration.ts:13-24 | candle k opens with the first and closes with the last of exactly the factor candles from k times factor on |
| Aggregation.VolumeAddsUp | scripts/validate-phase-e2z-b-engine2-integration.ts:22 | the volume is added up candle by candle |
| Aggregation.AggLength | scripts/validate-phase-e2z-b-engine2-integration.ts:13 | there are as many aggregated candles as full spans |
| Aggregation.AggOfPrefixIsPrefix | scripts/validate-phase-e2z-b-engine2-integration.ts:11-32 | aggregated candles never change as more candles arrive |
| Aggregation.VolumeIsPreserved | scripts/validate-phase-e2z-b-engine2-integration.ts:22 | total volume is that of the prefix that full spans cover, which misses less than one span |
| Aggregation.MergeBounds | scripts/validate-phase-e2z-b-engine2-integration.ts:19-20 | the high is the highest high and the low the lowest low |
| Aggregation.ShapeIsPreserved | scripts/validate-phase-e2z-b-engine2-integration.ts:11-27 | if every candle holds its open and close in its range, so does every aggregated one |
| Aggregation.ContextAgrees | scripts/validate-phase-e2z-b-engine2-integration.ts:29-33 | the latest price is the close at `idx`, the 15-minute list the last 221 candles up to it, the 4-hour list the 1-hour list of the same past aggregated again, and both higher lists are final parts of unchanged history |

## Left out

- The JSON file behind the store: a locked call is one atomic step, and a crash inside the write is not part of this model.
- Clocks and identifiers: instants are inputs, one instant for each store call, each plan and each tick, and command ids are drawn fresh.
- Textual timestamps: instants are integer milliseconds; parsing and malformed dates are not part of this model.
- Floating-point rounding: prices, percentages, R and money are reals.
- The adapter: its call may come to any answer or any thrown category; how `classifyFailure` reads an error text is not part of this model.
- `runOnce` as a loop: a worker takes the commands it leased one after the other, which the state machine contains as one job each.
- Heartbeats, worker state, verification history, telemetry, profiles and runtime records of the repository: no operation modelled here reads them.
- Clearing the store, and clean-up as a step of the state machine: `Events` says what clean-up does to numbering and to reservations.
- Orders other than the initial entry: the planner makes no others.
- The reason texts, event payloads, notes and rejection counters: logging only.
- Selection modes other than the independent multi-engine one, and the scoring that feeds them: heuristics without a stated law.
- Trades already open in the trade table: they enter the symbol lock as an input.
- `toUpperCase` beyond the ASCII letters: symbols are ASCII.
- The per-price REST lookup of the outcome loop: a missing price skips the row, a found one is an input.
- The share fields of the simulation report (CAGR, trades per day, win rate, profit factor, expectancy, total return, hold time) and the personal variants: quotients of modelled figures, and instances of the simulation without governance.
- `dayKey` for years beyond 9999: the day is the number of the UTC day.
- A REST refresh of the candle cache: it replaces a list, and the theorem starts again from any list with distinct times.
- Candle aggregation with a factor of zero or less: the source uses 4 and 16; with zero its loop does not end.
