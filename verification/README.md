# DisburseProof, verified

DisburseProof pays a batch of student entitlements from a fixed budget while its message queue
delivers some payment instructions twice. A *protected* processor commits each payment in one
transaction; a *vulnerable* one debits, pays and records in separate requests; a *naive* one, used in
the Race Lab, reads before it writes. A workflow injects the deliveries in two phases, waits until they
are recorded, evaluates the ledger and writes a receipt.

This project models that system in Dafny and proves what it is for. `dafny verify dfyconfig.toml`
checks everything.

## The model

- **Storage** (`Storage`, `Tables`, `SequentialStore`). The tables of one run and every request a
  processor can make. One request or transaction is one atomic step; the database may let it proceed,
  cancel it with a list of reasons, or answer with a transient error. `SequentialStore` is the simple
  store of the unit tests; the transactional one refines it.
- **Workers** (`Machine`). What one worker does with one delivery, one request at a time. `Retrying`,
  `Processors` and `CallEffects` hold the retry loop and the three `process` methods as objects, prove
  each call to be such a worker, and say what a call leaves behind.
- **The protocol** (`Protocol`, `Workflow`, `WorkflowService`). A transition system over the tables, any
  number of workers, the messages sent so far, and the workflow with its retries and its catch-all
  failure path. Any sent message may be received any number of times, by several workers at once; a
  worker may vanish between any two requests; a task attempt may fail before or after it took effect; and
  the API call that started the workflow may return, or raise, at any moment.
- **Runs** (`Invariants`, `Evidence`, `Lifecycle`, `StartFailure`, `ProtectedRun`, `VulnerableRun`,
  `VulnerableCounts`, `VulnerableVerdict`, `NaiveRace`, `RaceFaults`, `RaceStart`). What holds in every
  reachable state, and what a finished run has done.
- **Reachability** (`Reach`, `Completion`, `Progress`, `LostRun`, `DoomedRun`, `Waves`, `RetryWave`,
  `EarlyUnpaid`, `PassingRun`). What can still be reached from any state, which states can still
  complete, and the runs that show that a bound or a condition is exact.
- **Readers** (`Evaluator`, `StudentState`, `Replay`, `Inspector`, `ReplayAgreement`). The programs that
  read the rows back, and why they agree.
- **The workload** (`BatchImport`, `Keys`, `Decimal`, `Experiment`, `Injection`, `Workload`). From the
  rows of a CSV file to the two plans. `Workload` joins it to the protocol, so the headline results hold
  for every accepted batch, every seed and every number of duplicates.
- `Accounts` and `Sorting` hold the sums and orders the rest is built on; `UnequalAmounts` shows a
  file the import accepts on which two documented promises fail.

## Assumptions

- One DynamoDB request or transaction is atomic; a conflict changes nothing; reads are consistent.
- Cancellation lists are *sound*: they report no failed condition that in fact holds. They need not be
  complete. Exact outcome labels, where claimed, are for complete lists (`Setup.complete`).
- Version 5 UUIDs (section 5.5 of RFC 9562) are injective, and effect ids are fresh.
- SHA-256, jitter, letters and the actions of other workers are parameters: the results hold for all.
- The starting budget is the sum of the owed amounts (`FullBudget`) where a theorem says so; safety,
  conservation and the student states hold for any starting budget.
- Exact counts of the vulnerable processor are for *careful* runs: no worker is lost between its debit
  and its row, and no two attempts on one delivery overlap. Order, redelivery, conflicts and all other
  crashes stay arbitrary. Conservation, the victim identity and the FAIL verdict do not need this.
- The *retry wave fits* when twice the duplicated amounts are within the budget
  (`VulnerableRun.RetryWaveFits`). For equal amounts that is D <= N / 2, which every experiment satisfies.

## Where the documentation and the code differ

- "A vulnerable processor then always pays 2D times in Phase A" (backend/src/domain/experiment.py:15)
  holds exactly when the retry wave fits the budget (`VulnerableCounts.TwiceIffFits`), so for equal
  amounts always. `UnequalAmounts.UnequalBatch` gives a file the import accepts, for any seed and hash, on
  which it fails. `PassingRun.PassIffDear` says exactly when a run of the vulnerable processor can even end with
  PASS; with equal amounts none does, careful or not (`VulnerableVerdict.EqualAmountsAlwaysFail`).
- "`unpaid` is only shown when it is certain" (backend/src/domain/student_state.py:7) holds for every
  protected run. For the vulnerable processor it holds for careful runs exactly when the retry wave fits
  (`EarlyUnpaid.EarlyUnpaidIff`), so for equal amounts always (`Workload.AnyEqualBatchIsCertain`); without
  care overlapping attempts break it in every experiment (`EarlyUnpaid.OverlapWitness`). For any processor
  and any moment, `StudentState.EarlyUnpaidCertainIff` says which UNPAID can still change.
- Terminal run states are final with one exception: the API's start-failure update
  (backend/src/services/run_service.py:121) looks at no status, and when starting the workflow raises
  although the execution was accepted it turns even a COMPLETED run into a FAILED one.
  `Lifecycle.TerminalIsFinal` and `StartFailure.CompletedIsFinalIff` say that this is the only way,
  `StartFailure.CompletedThenFailed` that it happens. The payments and the receipt stay as they were.
- With incomplete cancellation lists a duplicate may be labelled BUDGET_EXHAUSTED
  (`SequentialStore.IncompleteListMislabels`): exactly when the list does not name the item that decided
  (`SequentialStore.SequentialIffNamed`). Nobody loses money by it (`ProtectedRun.RefusedIsPaidElsewhere`).
- The receipt task recomputes the verdict and refuses to issue when it is not the stored one
  (backend/src/services/workflow_service.py:174). In a protected run it never refuses
  (`Lifecycle.ReceiptNeverMismatches`). A vulnerable run can store FAIL while a payment is still on its
  way and see its ledger pass afterwards; then it can only fail. `DoomedRun.DoomedIffDear` says exactly
  which experiments have such a run, `LostRun.CompletesIff` that nothing else keeps an unfailed run of any
  processor from completing.

## Model

| member | source | states |
|---|---|---|
| `Storage.CancelledNeverApplies` | backend/src/adapters/dynamodb/disbursement_store.py:83-120 | no cancellation list is ever read as a transaction that happened |
| `Storage.SoundCommitAnswer` | backend/src/adapters/dynamodb/disbursement_store.py:83-111 | for any sound list, complete or not: a commit is answered as applied exactly when all four conditions held and it ran, and each refusal names a state that is true |
| `Storage.SoundRecordAnswer` | backend/src/adapters/dynamodb/disbursement_store.py:114-120 | the same for the two-item transaction that records an outcome |
| `Storage.TrueReasons` | backend/src/adapters/dynamodb/disbursement_store.py:28-37 | the list reported without contention is sound and complete, entry by entry |
| `Storage.ContendedCommit` | backend/src/adapters/dynamodb/disbursement_store.py:40-111 | a commit list on which no condition failed is answered with a write conflict if and only if some entry carries TransactionConflict, ThrottlingError, ProvisionedThroughputExceeded or RequestLimitExceeded, and otherwise as an unexpected cancellation |
| `Storage.ContendedRecord` | backend/src/adapters/dynamodb/disbursement_store.py:40-120 | the same for the transaction that records an outcome |
| `Storage.MissingRunStops` | backend/src/adapters/dynamodb/disbursement_store.py:103-107 | a failed budget condition without a Run item is neither a refusal nor contention |
| `Storage.CommitPaysInFull` | backend/src/adapters/dynamodb/disbursement_store.py:143-190 | whatever the reply, the tables are unchanged or hold the whole payment, item by item: a ledger entry and a COMMITTED row that name key, beneficiary, installment, amount, logical event and delivery of this message, the claim, the debit and the counters |
| `Storage.DebitExact` | backend/src/adapters/dynamodb/disbursement_store.py:235-259 | what a debit answers and leaves, for every reply, budget and missing run |
| `SequentialStore.AnswersSequentially` | backend/tests/unit/fakes.py:54-71 | the transaction with its cancellation classification answers exactly what the sequential store answers: delivery first, then claim, then budget |
| `SequentialStore.CompleteListIsSequential` | backend/src/adapters/dynamodb/disbursement_store.py:86-95 | every complete list, in whatever combination conditions fail, is classified as the sequential answer; where none failed, as a write conflict exactly when one of the four transient codes is on it |
| `SequentialStore.SequentialIffNamed` | backend/src/adapters/dynamodb/disbursement_store.py:83-111 | for any sound list, however incomplete: nothing is applied that would be refused, a request that could be applied is at most contended, and a refusal carries the sequential label if and only if the list names the item that decided it (delivery, else claim, else budget) |
| `SequentialStore.IncompleteListMislabels` | backend/src/adapters/dynamodb/disbursement_store.py:103-111 | a concrete incomplete list on which a duplicate is reported as a budget refusal |
| `SequentialStore.InMemoryLedgerStore.CommitPayment` | backend/tests/unit/fakes.py:54-71 | the dictionaries of all runs show, for this run, exactly the tables after the four writes or the refusal, and no other run is touched |
| `SequentialStore.InMemoryLedgerStore.RecordOutcome` | backend/tests/unit/fakes.py:73-79 | the same for recording an outcome |
| `SequentialStore.InMemoryLedgerStore.DebitBudget` | backend/tests/unit/fakes.py:86-95 | the same for the conditional debit |
| `SequentialStore.InMemoryLedgerStore.PutEffect` | backend/tests/unit/fakes.py:97-99 | the payment appears in its own run only |
| `SequentialStore.InMemoryLedgerStore.PutClaimUnconditionally` | backend/tests/unit/fakes.py:106-108 | the claim appears in its own run only, whatever was claimed before |
| `Tables.DynamoDisbursementStore.CommitPayment` | backend/src/adapters/dynamodb/disbursement_store.py:143-190 | all four writes together, each field of the ledger entry and the row being that of the message, or none and a typed outcome, against the tables as they are when the request arrives |
| `Tables.DynamoDisbursementStore.RecordOutcome` | backend/src/adapters/dynamodb/disbursement_store.py:194-222 | the row and its counters together, or neither |
| `Tables.DynamoDisbursementStore.DebitBudget` | backend/src/adapters/dynamodb/disbursement_store.py:235-259 | accepted and subtracted, refused with the budget it saw, or contended and unchanged |
| `Tables.DynamoDisbursementStore.PutEffect` | backend/src/adapters/dynamodb/disbursement_store.py:261-262 | the payment is appended, or the request conflicts and changes nothing |
| `Retrying.ConflictRetrier.Run` | backend/src/processors/retry.py:63-78 | retries conflicts only, at most the allowed number of times, numbering every attempt; returns the first other answer or gives up; sleeps no more than the capped sum |
| `Retrying.ContendedIsRetried` | backend/src/processors/retry.py:63-78 | while attempts are left, a cancelled transaction on which no condition failed is tried again if and only if some entry carries one of the four transient codes; any other one ends the operation at once as an unexpected cancellation |
| `Retrying.ConflictRetrier.BackOff` | backend/src/processors/retry.py:58-61 | one delay is the random draw times the exponential ceiling, capped, so between zero and that |
| `Retrying.CappedSumBounded` | backend/src/processors/retry.py:58-61 | the total sleep is below the plain geometric sum and below the cap times the number of delays |
| `Retrying.DefaultBackoff` | backend/src/processors/retry.py:27-29 | with the default settings one operation sleeps at most 1.55 seconds |
| `Processors.ProtectedProcessor.Process` | backend/src/processors/protected.py:64-128 | one call makes at most twice the allowed attempts, counts each, and is request by request the protected worker of the protocol; a message with a wrong key makes no request |
| `Processors.VulnerableProcessor.Process` | backend/src/processors/vulnerable.py:50-107 | one call is request by request the vulnerable worker: check, debit, pay, record |
| `Processors.NaiveProcessor.Process` | backend/src/processors/naive.py:54-91 | one call is request by request the naive worker: two reads, then debit, pay, claim, record |
| `Processors.RecordDelivery` | backend/src/processors/protected.py:101-128 | the last transaction, shared by all: the outcome is recorded, was recorded before, or the call raises |
| `Processors.RetriedFold` | backend/src/processors/retry.py:63-78 | the retrier loop around an operation is the same run of worker steps as the worker retrying by itself |
| `CallEffects.AllOrNothing` | backend/src/processors/protected.py:64-128 | whatever the replies and the interference, a protected call writes the whole payment field by field, or one row that is not a payment, with its last request, or nothing at all; errors leave no trace |
| `CallEffects.DecidedRow` | backend/src/processors/vulnerable.py:78-107 | any processor: a call that reports an outcome has written, with its last request, one row that names this delivery field by field, that outcome, the reported number of attempts, and the payment if there is one |
| `CallEffects.StatusTellsWrites` | backend/src/processors/vulnerable.py:72-107 | what the other processors report tells what they wrote, except that an already-recorded delivery may hide a payment and an error may strand a debit |
| `CallEffects.WrittenSoFar` | backend/src/processors/vulnerable.py:64-78 | a call without the transaction that stops has made exactly the writes that lead up to where it stopped |
| `Invariants.RunInv` | backend/src/adapters/dynamodb/disbursement_store.py:154-171 | in every reachable state of every processor, crashes and redeliveries included: rows and payments come from sent messages, no delivery has two rows, the counters equal the rows, budget = remaining + payments + debited but unwritten, remaining is not negative, and later phases begin only after full recording |
| `Invariants.RequestConserves` | backend/src/adapters/dynamodb/disbursement_store.py:235-259 | each single request keeps the conservation of money |
| `Evidence.RunEvident` | backend/src/domain/models.py:236-317 | in every reachable state of every processor, crashes and overlaps included: each payment and each claim carries key, beneficiary, installment, amount, logical event and delivery of one sent message; so does each row, with phase, copy and repeat mark; a COMMITTED row refers to a payment in the ledger, a BUDGET_EXHAUSTED one holds a budget that was too small; no two payments share an effect id |
| `Invariants.DrainSound` | backend/src/services/workflow_service.py:110-128 | rows never outnumber the messages, and when the counter reaches the target every planned delivery is recorded, however often injection was retried |
| `Invariants.ResetIsIdentity` | backend/src/adapters/dynamodb/runs_repo.py:111-132 | a first or retried start never resets counters that have already counted something |
| `Invariants.VictimIdentity` | backend/src/domain/evaluator.py:56-64 | what the unpaid are owed = misallocated money + budget left + debits never written, in every reachable state and for unequal amounts |
| `Invariants.BudgetGuardHolds` | backend/src/domain/evaluator.py:106-111 | the third invariant of the evaluator cannot fail, whichever processor ran |
| `Invariants.PassIsFinal` | backend/src/domain/evaluator.py:113-114 | with a full budget, once the ledger evaluates to PASS no later request, of any processor, can change a payment or the budget |
| `Invariants.PlanSizes` | backend/src/domain/experiment.py:129-131 | 2D messages in the first phase, N - D in the second |
| `Invariants.RowsAreThePlan` | backend/src/services/workflow_service.py:136-139 | with all recorded there is exactly one row per planned delivery, so the count check of the evaluation cannot fail |
| `ProtectedRun.RunSafe` | backend/src/processors/protected.py:85-128 | in every reachable state, for sound lists and any budget: claims, payments and COMMITTED rows correspond one to one, nobody has two payments, and a suppressed row names an entitlement another delivery paid |
| `ProtectedRun.PaidIffClaimed` | backend/src/processors/protected.py:14-18 | no key is claimed but unpaid or paid but unclaimed |
| `ProtectedRun.RemainingIsUnclaimed` | backend/src/adapters/dynamodb/disbursement_store.py:154-171 | the remaining budget always equals what unclaimed entitlements are owed |
| `ProtectedRun.NeverStarved` | backend/src/processors/protected.py:91-99 | no unclaimed entitlement can be refused for lack of budget |
| `ProtectedRun.RunNotExhausted` | backend/src/processors/protected.py:91-99 | with complete lists no protected delivery is ever labelled BUDGET_EXHAUSTED |
| `ProtectedRun.RefusedIsPaidElsewhere` | backend/src/processors/protected.py:91-128 | with any sound lists, in every reachable state: each delivery that did not pay, BUDGET_EXHAUSTED ones included, names an entitlement that another delivery has paid and recorded |
| `ProtectedRun.EveryonePaidOnce` | backend/src/domain/evaluator.py:54-56 | once all deliveries are recorded everybody is paid exactly once and the budget is zero |
| `ProtectedRun.ProtectedHeadline` | backend/src/domain/evaluator.py:39-114 | the full report then: N payments, D deliveries that did not pay, nothing misallocated, all three invariants passed, PASS |
| `ProtectedRun.Quiescent` | backend/src/services/workflow_service.py:164-178 | after the drain no late, repeated or half-finished worker changes anything in the tables |
| `Lifecycle.TerminalIsFinal` | backend/src/adapters/dynamodb/runs_repo.py:68-109 | a step keeps a terminal status if and only if it is not the API's start-failure update meeting a COMPLETED run; a COMPLETED record changes in no other way, no step changes the stored report or receipt of a terminal run, and the update names START_FAILED |
| `StartFailure.CompletedIsFinalIff` | backend/src/services/run_service.py:121-133 | over whole runs: a COMPLETED run stays COMPLETED, with the same record, exactly as long as the API does not declare its start failed |
| `StartFailure.CompletedThenFailed` | backend/src/services/run_service.py:121-133 | and it can: every valid experiment has a run in which that update turns a COMPLETED run with its receipt (PASS, for the protected processor) into FAILED |
| `StartFailure.FailedRefuses` | backend/src/services/workflow_service.py:82-204 | every task request that would write a FAILED run refuses and leads to the failure task, the record is untouched, and only the failure task replaces the reason, by its own |
| `StartFailure.FailedNeverCompletes` | backend/src/services/workflow_service.py:147-204 | a run that is FAILED before its workflow completed never completes: nothing more is stored and it ends FAILED |
| `Lifecycle.CompletedHasEvidence` | backend/src/services/workflow_service.py:164-204 | in every run of every processor a COMPLETED run has a verdict, an agreeing receipt and exactly N + D recorded deliveries, and no run fails for inconsistent deliveries |
| `Lifecycle.WorkflowTerminates` | backend/statemachine/run_workflow.asl.json:83-285 | whatever is retried or fails, the number of task attempts is bounded by a lexicographic measure of stage and remaining work |
| `Lifecycle.FailsBecause` | backend/src/services/workflow_service.py:82-204 | a task gives up with DRAIN_TIMEOUT exactly in a drain that used its last iteration below its target, with INCONSISTENT_DELIVERIES exactly when the rows it read are not as many as planned, else with TASK_ERROR |
| `Lifecycle.NeverStuck` | backend/statemachine/run_workflow.asl.json:43-82 | in every reachable state before the end a task can go on, or a planned message of its phase is still to be sent |
| `Lifecycle.ReceiptNeverMismatches` | backend/src/services/workflow_service.py:174-178 | in protected runs what the receipt task recomputes is the stored report, so it fails only when the API has declared the run FAILED |
| `Lifecycle.ProtectedRunPasses` | backend/src/services/workflow_service.py:147-204 | whatever a protected run stores as its report or receipt is the full PASS headline |
| `Reach.RedeliveryRecords` | backend/src/processors/retry.py:9-13 | for every processor and every reachable state, whatever crashed, conflicted or overlaps: one redelivery of a sent message that is left alone records it, and the workflow has not moved |
| `Reach.CarefulRedeliveryRecords` | backend/src/processors/vulnerable.py:50-107 | for careful runs by careful steps only: what is in flight is finished first |
| `Progress.ProtectedCanComplete` | backend/statemachine/run_workflow.asl.json:4-400 | from every reachable state whose workflow has not failed some continuation completes with PASS on the receipt |
| `Progress.VulnerableCanComplete` | backend/statemachine/run_workflow.asl.json:4-400 | from every such state of a careful vulnerable run, with deliveries in flight or not, some careful continuation completes with everything recorded |
| `LostRun.CompletesIff` | backend/statemachine/run_workflow.asl.json:4-400 | every processor, from every reachable state: some continuation completes if and only if the run is not lost, that is neither failed nor bound to store FAIL on a ledger that passes by now; and whatever completes has every delivery recorded and a receipt |
| `LostRun.PassingIsAll` | backend/src/domain/evaluator.py:86-114 | a prefix of the ledger that passes is the whole ledger: a stored PASS can never be overtaken |
| `DoomedRun.CompletesUnlessFailed` | backend/src/services/workflow_service.py:164-204 | so protected runs, and vulnerable ones unless every duplicated amount exceeds all that the second phase pays, can complete from every reachable state that has not failed, crashes and overlapping attempts included |
| `DoomedRun.DoomedIffDear` | backend/src/services/workflow_service.py:174-178 | and that condition is exact: some vulnerable run stores FAIL and then sees its ledger pass, so that no continuation completes, if and only if every duplicated amount is that dear |
| `VulnerableRun.RunOrderly` | backend/src/processors/vulnerable.py:50-107 | in every careful run each accepted debit has at most one payment and has reached, or is on its way to, one COMMITTED row, and every refusal was and stays true |
| `VulnerableRun.RunNoRefusal` | backend/src/domain/experiment.py:13-19 | while the retry wave fits the budget no delivery of the first phase is ever refused |
| `VulnerableCounts.SameDeliveries` | backend/src/processors/vulnerable.py:64-107 | after the drain debits, payments and COMMITTED rows are the same deliveries |
| `VulnerableCounts.HalfIsEnough` | backend/src/domain/experiment.py:57-68 | for equal amounts the retry wave fits exactly when D <= N / 2 |
| `VulnerableCounts.EqualCounts` | backend/src/domain/experiment.py:7-19 | equal amounts: N payments, exactly the D duplicated students paid twice, D unpaid, D refusals, D amounts misallocated, the first two invariants failed and the budget guard passed, FAIL |
| `VulnerableCounts.VulnerableRunFails` | backend/src/domain/experiment.py:13-19 | the same for whatever report or receipt a careful run stores, in any order of arrival |
| `VulnerableCounts.VulnerableRunFailsUnequal` | backend/src/domain/experiment.py:7-19 | for unequal amounts whose retry wave fits, whatever report or receipt a careful run stores says FAIL: the duplicated are exactly the double-paid, and the victims' need is the misallocated money plus the budget left |
| `VulnerableCounts.TwiceIffFits` | backend/src/domain/experiment.py:15-16 | a careful, fully recorded run pays every duplicated student twice if and only if twice their amounts fit the budget |
| `VulnerableVerdict.AnyRunNeedsDear` | backend/src/processors/vulnerable.py:50-107 | every run, crashes and overlapping attempts included: no fully recorded ledger, stored verdict or receipt says PASS unless each duplicated amount exceeds everything the second phase pays |
| `VulnerableVerdict.EqualAmountsAlwaysFail` | backend/src/domain/experiment.py:57-68 | so with equal amounts and 1 <= D < N no run of any kind stores a PASS |
| `PassingRun.PassIffDear` | backend/src/domain/evaluator.py:113-114 | some run of the vulnerable processor ends with PASS on its receipt if and only if every duplicated amount is that dear, and then a careful one does |
| `UnequalAmounts.UnequalBatch` | backend/src/domain/experiment.py:15-16 | for every scheme, year and run id the API accepts, every seed and every hash there is a file of two rows, owed 5 and 1, that the import accepts; its experiment never pays the duplicated student twice in a careful run, has careful runs that pay a student after showing UNPAID, and has careful runs that end with PASS |
| `NaiveRace.RaceBound` | backend/statemachine/race_workflow.asl.json:5-8 | with at most c copies in flight and no failure any number of copies makes between 1 and c payments |
| `NaiveRace.BoundReached` | backend/src/processors/naive.py:54-91 | for every count from 1 to the number of copies and c some race finishes with exactly that many payments |
| `NaiveRace.SequentialPaysOnce` | backend/src/processors/naive.py:60-70 | strictly sequential copies pay exactly once |
| `NaiveRace.RaceOverpays` | backend/src/services/workflow_service.py:206-236 | the overpayment a finished race reports is the money spent beyond the one payment owed, and PASS means none |
| `NaiveRace.RaceRefuses` | backend/src/services/workflow_service.py:206-236 | in the report of a finished race every copy that did not pay was refused as a duplicate, and every payment but one is extra |
| `RaceFaults.FaultyRaceConserves` | backend/statemachine/race_workflow.asl.json:20-37 | any processor, copies lost and invoked again at any point, attempts overlapping: remaining + payments + debited but unwritten = copies x amount, never more payments than copies, no delivery with two rows |
| `RaceFaults.FaultyBoundReached` | backend/src/processors/naive.py:54-91 | and that bound is exact: one attempt at a time and no copy invoked twice, every copy that is lost between its payment and its claim is paid |
| `RaceFaults.ProtectedRacePaysOnce` | backend/src/processors/protected.py:64-128 | a protected race of any number of copies with the same faults: at most one payment always, exactly one once any copy is recorded, and then PASS with nothing overpaid |
| `RaceStart.RaceIsValid` | backend/src/services/race_service.py:96-145 | every race the service starts has distinct delivery ids, one key and a budget for every copy; each copy carries the fixed demo fields, its own number, and the repeat mark from the second on |
| `RaceStart.RaceOutcome` | backend/src/services/race_service.py:96-145 | so every started race ends with between one and six payments, all copies recorded |
| `RaceStart.AnyRaceOutcome` | backend/src/services/race_service.py:96-145 | whatever fails or is invoked again, every started race of any processor keeps copies x amount = remaining + payments + debited but unwritten, with at most one payment per copy |
| `RaceStart.ProtectedRaceOutcome` | backend/src/services/race_service.py:96-145 | so every protected race the service starts pays once |
| `Evaluator.ReportedKeys` | backend/src/domain/evaluator.py:54-58 | the listed keys are exactly the eligible keys paid more than once and never, and the three counts partition the batch |
| `Evaluator.SummarySays` | backend/src/domain/evaluator.py:60-82 | the plain figures of the summary are those of the batch, the rows, the ledger and the budget, and each key is listed once, in increasing order |
| `Evaluator.VerdictByKey` | backend/src/domain/evaluator.py:86-114 | each invariant of the report says what its title says: no eligible key has two payments, each has one, the total is within the budget; PASS is all three |
| `Evaluator.PassIffPermutation` | backend/src/domain/evaluator.py:54-114 | when the budget is the sum owed, PASS if and only if the ledger keys are a permutation of the eligible keys: no foreign payment is hidden |
| `Evaluator.ReportIgnoresOrder` | backend/src/domain/evaluator.py:39-53 | the whole report is the same for any order of payments and rows |
| `StudentState.DeriveStudentViews` | backend/src/domain/student_state.py:38-68 | the loop over the rows and the sorted views are those of the specification |
| `StudentState.ViewsInOrder` | backend/src/domain/student_state.py:54-68 | one view per entitlement, ordered by beneficiary and then by installment |
| `StudentState.ViewSays` | backend/src/domain/student_state.py:28-66 | a view shows the fields of its entitlement, counts its payments and its deliveries, and its state follows from the payments and from a budget refusal |
| `StudentState.GridMatchesReport` | backend/src/domain/student_state.py:28-36 | the grid of an evaluated run counts what the evaluator counts |
| `StudentState.EarlyUnpaidCertainIff` | backend/src/domain/student_state.py:7-11 | any processor: a student shown UNPAID before evaluation can still be paid if and only if a debit of that entitlement is in flight |
| `EarlyUnpaid.CarefulUnpaidIsCertain` | backend/src/domain/student_state.py:7-11 | careful vulnerable runs whose retry wave fits the budget keep the promise: an early UNPAID is final |
| `EarlyUnpaid.EarlyUnpaidIff` | backend/src/domain/student_state.py:7-11 | some careful vulnerable run shows a student UNPAID early and pays them later if and only if the retry wave does not fit the budget, a condition known before the run |
| `EarlyUnpaid.OverlapWitness` | backend/src/processors/vulnerable.py:50-107 | with overlapping attempts every experiment has a run that breaks the promise |
| `StudentState.NeverBackwards` | backend/src/domain/student_state.py:28-36 | protected, any budget: PAID_TWICE is unreachable, PAID_ONCE and an early UNPAID are final |
| `StudentState.GridIsFinalAfterDrain` | backend/src/domain/student_state.py:38-68 | protected, after the drain: nobody is pending and the live grid is already the evaluated one |
| `Replay.DeriveTheater` | frontend/src/features/theater/replay.ts:56-128 | for any cursor, also negative or beyond the end: totals, tiles, counts and the newest twelve lines are those of the shown rows |
| `Replay.FeedSays` | frontend/src/features/theater/replay.ts:84-107 | the feed shows at most twelve lines, newest first, each with its delivery, and announces a repeat exactly when an earlier row paid the same entitlement |
| `Replay.RateSays` | frontend/src/features/theater/replay.ts:61-78 | a row is charged at its own amount, else at that of the last tile with its key, else at nothing |
| `Inspector.Inspect` | frontend/src/features/theater/replay.ts:162-198 | the grouped totals, the first row that paid a student who was paid more than once, with all that student was paid, and the first refusal of somebody never paid |
| `Inspector.InspectorMatchesReplay` | frontend/src/features/theater/replay.ts:171-184 | grouping the paying rows and reading them one by one give the same repeat payments and the same money |
| `ReplayAgreement.TheaterIsLiveGrid` | frontend/src/features/theater/replay.ts:107-112 | at the full cursor the theater tiles are the live grid of the backend |
| `ReplayAgreement.ThreeReadingsAgree` | frontend/src/features/theater/replay.ts:56-198 | replay, inspector and evaluator agree on spent, misallocated, double-paid and unpaid whenever COMMITTED rows match the ledger |
| `ReplayAgreement.ProtectedReadings` | frontend/src/features/theater/replay.ts:56-198 | so they do in every reachable state of a protected run, whatever the order of the rows |
| `ReplayAgreement.VulnerableReadings` | frontend/src/features/theater/replay.ts:180-196 | and after the drain of a careful vulnerable run, where the victims' need is the repeat spend plus the budget left |
| `Keys.KeyRoundTrip` | backend/src/domain/idempotency.py:28-52 | a key is built exactly for valid fields, and splitting it at the separator gives back all four, the installment as a number; an error names a field that is invalid |
| `Keys.KeyInjective` | backend/src/domain/idempotency.py:28-52 | two payments share a key only when all four fields are equal |
| `Keys.RunScopedInjective` | backend/src/domain/idempotency.py:67-68 | a run-scoped key gives back its run and its key, so claims of different runs never meet |
| `Keys.KeyMapOfBatch` | backend/src/domain/idempotency.py:71-81 | one entry per row in canonical order, no key twice, amounts adding up to the budget; an error exactly when some row cannot be keyed |
| `Keys.CanonicalIgnoresOrder` | backend/src/domain/fingerprint.py:53-56 | the hashed order of a batch with distinct rows does not depend on the order in which they come |
| `Keys.CanonicalInOrder` | backend/src/domain/fingerprint.py:53-56 | it is the batch itself, by beneficiary and then by installment, smallest first |
| `Experiment.LogicalIdsIncrease` | backend/src/domain/experiment.py:36-39 | logical ids increase strictly as strings for batches of any size |
| `Experiment.LogicalIdSays` | backend/src/domain/experiment.py:36-39 | the i-th id is "EVT-" and the number i, padded to the width of the largest and to at least three digits |
| `Experiment.SeedInCodes` | backend/src/domain/experiment.py:33-54 | a seed is accepted exactly for 1 to 64 ASCII letters, digits and four marks, not starting with a mark |
| `Experiment.SelectionExact` | backend/src/domain/experiment.py:71-82 | a selection exists exactly for 1 <= D <= N / 2, has D members in increasing order, and each of them has a lower hash than any event left out, or the same hash and a lower id |
| `Experiment.SelectionIgnoresOrder` | backend/src/domain/experiment.py:71-82 | the selection ignores the order of its input |
| `Experiment.PhasesPartition` | backend/src/domain/experiment.py:85-95 | unknown events are refused, otherwise the two phases partition all events |
| `Experiment.DefinitionSplits` | backend/src/domain/experiment.py:98-131 | a definition exists exactly for a valid seed and D, holds them and the hash of the batch, and its targets are what its phases send; the first phase is the D events of lowest hash |
| `Injection.PlanPhase` | backend/src/domain/injection.py:58-105 | a changed batch and nothing else is refused as changed; a plan lists the first copies and then the second ones, or one copy each in the second phase, every message with the run, scheme, year, phase, delivery id, repeat mark and key of its copy and the beneficiary, installment and amount of the row at the position of its logical event |
| `Injection.DeliveryIdInjective` | backend/src/domain/injection.py:38-43 | in one run a delivery id belongs to one phase, event and copy |
| `Injection.KeysFollowCopies` | backend/src/domain/injection.py:76-80 | a key is delivered as often as its logical event is copied |
| `Workload.WorkloadIsValid` | backend/src/domain/injection.py:58-105 | for every accepted batch, seed and D: N + D distinct delivery ids, each duplicated entitlement twice in the first phase and each other once in the second, in send order, with every field of every message as planned and keys that pass the worker's check |
| `Workload.AnyBatchPasses` | backend/src/services/workflow_service.py:82-204 | end to end, protected: for every batch, seed and D any stored report says N paid once, D not paying, budget spent exactly, all invariants passed, PASS |
| `Workload.AnyPaymentIsOwed` | backend/src/domain/models.py:301-317 | end to end, any processor, whatever crashes or overlaps: each payment in the ledger names the beneficiary and installment of a row of the batch, pays its amount, and has the key built from exactly these fields |
| `Workload.AnyEqualBatchFails` | backend/src/domain/experiment.py:7-19 | end to end, vulnerable: for every batch of equal amounts, seed and D any report of a careful run says N payments, D twice, D unpaid, the first two invariants failed, FAIL |
| `Workload.AnyEqualRunFails` | backend/src/domain/experiment.py:57-68 | end to end, vulnerable, without any care: no run of an experiment with equal amounts stores PASS |
| `Workload.AnyEqualBatchIsCertain` | backend/src/domain/student_state.py:7-11 | end to end, vulnerable and careful: for every batch of equal amounts, seed and D an early UNPAID stays UNPAID |
| `BatchImport.ParseEntitlements` | backend/src/domain/batch_import.py:101-171 | the report is valid exactly for a good header and 1 to 500 readable rows naming distinct payments, and then lists every row; any other report says what is wrong: an empty file, a bad header, or, for each of the first 500 rows, its own problems or the first line that names the same payment |
| `BatchImport.ReadRows` | backend/src/domain/batch_import.py:132-171 | the loop reports every problem of every row, the first line of each duplicate, and stops after the five-hundredth row |
| `BatchImport.RowReads` | backend/src/domain/batch_import.py:57-98 | a row of a well-formed file gives the entitlement in its cells, or every problem of its cells in column order: the id, the name, the amount, the installment, each exactly when the cell breaks its rule |
| `BatchImport.ImportedReports` | backend/src/domain/batch_import.py:132-171 | an error is listed exactly when a row has it, with that row's line, or when there are no rows, or at the five-hundred-and-first |
| `BatchImport.CleanIffNoErrors` | backend/src/domain/batch_import.py:132-171 | no error is reported exactly when every row reads and no two name the same payment |
| `BatchImport.AcceptedBatchIsGood` | backend/src/domain/batch_import.py:57-98 | an accepted batch satisfies all that keys, experiment and injection rely on |
| `WorkflowService.RunsRepository.Update` | backend/src/adapters/dynamodb/runs_repo.py:68-109 | the guards decide before anything is written, and a refused update changes nothing |
| `WorkflowService.RunsRepository.Start` | backend/src/adapters/dynamodb/runs_repo.py:111-132 | QUEUED to RUNNING with fresh counters, and no change for a retry that finds the run RUNNING |
| `WorkflowService.WorkflowService.InjectPhase` | backend/src/services/workflow_service.py:88-108 | marks the phase, then the sent messages are the earlier ones and this plan; publishing again adds nothing |
| `WorkflowService.WorkflowService.CheckDrain` | backend/src/services/workflow_service.py:110-128 | drained exactly when the counter has reached the target, which in every reachable state means exactly that each planned delivery of the phase is recorded; drained wins over timed out; the stage that follows |
| `WorkflowService.WorkflowService.Evaluate` | backend/src/services/workflow_service.py:147-162 | stores the report of the two lists it read, and only while the run is RUNNING; the stages it ends in are those of one task attempt of the protocol |
| `WorkflowService.WorkflowService.GenerateReceipt` | backend/src/services/workflow_service.py:164-204 | completes the run only if the recomputed verdict is the stored one, a retried task changes nothing; one task attempt of the protocol |
| `WorkflowService.WorkflowService.FinishRace` | backend/src/services/workflow_service.py:206-236 | the race result is counted from the ledger and the rows it read |
| `WorkflowService.WorkflowService.MarkFailed` | backend/src/services/workflow_service.py:238-268 | DRAIN_TIMEOUT and INCONSISTENT_DELIVERIES are recorded exactly for the errors of those names, TASK_ERROR for any other, and a COMPLETED run is never overwritten |

## Left out

- AWS clients, item serialisation, expression strings, pagination, queue depths and metrics: foreign calls. A list is read in one consistent request; the order of its rows is arbitrary (`Evaluator.ReportIgnoresOrder`, `ReplayAgreement.MatchedReadings`).
- The SDK's own retries of a request whose reply was lost: a debit repeated that way would be a second accepted debit of one attempt.
- Timestamps, request ids and the `phase` display of a run beyond the values the tasks write; rows sorted by time appear as arbitrary permutations.
- The beneficiary id lists and the texts of the evaluation summary, the texts of the replay feed, and the contents of the receipt beyond the report it repeats.
- The internals of SHA-256, version 5 UUIDs, JSON printing, the csv tokeniser and the regular-expression engine; header cells arrive stripped and in lower case.
- HTTP routing, rate limits, the start of a run by the API (except what its return does to the run), the seed data and React components.
- Overlapping attempts and mid-delivery crashes of the vulnerable processor: conservation, the victim identity, the barrier, the lifecycle and the FAIL verdict are proved for them, but no exact counts, which depend on what was lost.
- NaiveRace.RaceBound: assumes that no copy fails, because a copy that is lost and invoked again may pay once more; `RaceFaults.FaultyRaceConserves` and `RaceFaults.FaultyBoundReached` give the exact bound with failures.
- The number of retries Step Functions gives a failed copy of a race: the bounds of `RaceFaults` hold for any number of invocations of a copy, and the run that reaches them invokes each copy once.
- Replay.DeriveTheater: feed lines carry the delivery and the tone, not the formatted text.
- BatchImport.ParseEntitlements: reports each problem and its line, not the message texts, and takes cells that are already stripped.
- WorkflowService.WorkflowService.InjectPhase: publishing is one loop that cannot fail halfway; in the protocol messages are sent one by one and a task may fail in between.
- SequentialStore.InMemoryLedgerStore.CommitPayment: the deliveries dictionary is a list without repeated ids, which keeps the insertion order.
- WorkflowService.WorkflowService.Evaluate: between the requests of one task call nobody else writes the Run record; in the protocol the API may (`Protocol.StartReturns`).
