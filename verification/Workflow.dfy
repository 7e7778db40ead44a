/**
 The Run record and the workflow tasks that change it
 (backend/src/services/workflow_service.py, backend/src/adapters/dynamodb/runs_repo.py).
 */
module Workflow {
  import opened Domain
  import opened Evaluator

  datatype RunStatus = Queued | Running | Completed | Failed

  datatype RunPhase = AtQueue | AtPhaseA | AtPhaseB | Evaluating | AtComplete | AtFailed

  datatype FailureReason = DrainTimeout | TaskError | StartFailed | InconsistentDeliveries

  /** `report` is the stored summary, invariants and verdict; `receipt` is what S3 holds. */
  datatype Run = Run(
    status: RunStatus, phase: RunPhase,
    report: Option<Report>, receipt: Option<Report>, failure: Option<FailureReason>)

  const QUEUED_RUN := Run(Queued, AtQueue, None, None, None)

  /** `RunsRepository.update`: the status guards decide before anything is written. */
  predicate Guarded(run: Run, require: Option<RunStatus>, forbid: Option<RunStatus>) {
    && (require.Some? ==> run.status == require.value)
    && (forbid.Some? ==> run.status != forbid.value)
  }

  function Update(run: Run, next: Run, require: Option<RunStatus>, forbid: Option<RunStatus>)
    : Result<Run, FailureReason>
  {
    if Guarded(run, require, forbid) then Ok(next) else Err(TaskError)
  }

  /** `RunsRepository.start`: QUEUED to RUNNING, or the same run when a retry finds it RUNNING. */
  function StartRun(run: Run): Result<Run, FailureReason> {
    match Update(run, run.(status := Running, phase := AtQueue), Some(Queued), None)
    case Ok(next) => Ok(next)
    case Err(e) => if run.status == Running then Ok(run) else Err(e)
  }

  function EnterPhase(run: Run, phase: RunPhase): Result<Run, FailureReason> {
    Update(run, run.(phase := phase), Some(Running), None)
  }

  datatype Drain = Drain(iteration: nat, delivered: nat, target: nat, drained: bool, timedOut: bool)

  function CheckDrain(delivered: nat, target: nat, iteration: nat, maxIterations: nat): Drain {
    var drained := delivered >= target;
    Drain(iteration + 1, delivered, target, drained, !drained && iteration + 1 >= maxIterations)
  }

  /** `_evaluate`: fail closed when the recorded deliveries are not the expected ones. */
  function Recompute(eligible: seq<Entry>, effects: seq<Effect>, rows: seq<Delivery>, budget: int, expected: nat)
    : Result<Report, FailureReason>
  {
    if |rows| != expected then Err(InconsistentDeliveries)
    else Ok(EvaluateRun(eligible, effects, rows, budget))
  }

  function StoreReport(run: Run, recomputed: Result<Report, FailureReason>): Result<Run, FailureReason> {
    match recomputed
    case Err(e) => Err(e)
    case Ok(report) => Update(run, run.(report := Some(report)), Some(Running), None)
  }

  /** A retried receipt task finds the run already completed. */
  predicate ReceiptWritten(run: Run) {
    run.status == Completed && run.receipt.Some?
  }

  function StoreReceipt(run: Run, recomputed: Result<Report, FailureReason>): Result<Run, FailureReason> {
    match recomputed
    case Err(e) => Err(e)
    case Ok(report) =>
      if run.report.None? || run.report.value.verdict != report.verdict then Err(TaskError)
      else Update(run, run.(status := Completed, phase := AtComplete, receipt := Some(report)), Some(Running), None)
  }

  /** `mark_failed`: never overwrites a COMPLETED run; the conflict is swallowed. */
  function FailRun(run: Run, reason: FailureReason): Run {
    match Update(run, run.(status := Failed, phase := AtFailed, failure := Some(reason)), None, Some(Completed))
    case Ok(next) => next
    case Err(_) => run
  }

  /** The API's own update when starting the workflow raised: it carries no guard at all. */
  function StartFailure(run: Run): Run {
    match Update(run, run.(status := Failed, phase := AtFailed, failure := Some(StartFailed)), None, None)
    case Ok(next) => next
    case Err(_) => run
  }
}
