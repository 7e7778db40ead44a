/**
 One run as a transition system: the tables, any number of workers, the messages sent
 so far, and the Step Functions workflow (backend/statemachine/run_workflow.asl.json).

 Workers are never removed: one that is done or has vanished stays in the list. The
 environment may deliver any sent message any number of times, to several workers at
 once, and may make any worker vanish between two requests.
 */
module Protocol {
  import opened Domain
  import opened Accounts
  import opened Storage
  import opened Machine
  import opened Workflow

  /**
   What is fixed before a run starts. `complete` restricts cancellation lists to
   complete ones; without it any sound list may come back.
   */
  datatype Setup = Setup(
    processor: Processor, eligible: seq<Entry>, planA: seq<Event>, planB: seq<Event>,
    budget: int, maxAttempts: nat, maxDrain: nat, complete: bool)

  /** Where a task that reads the tables has got to. */
  datatype Progress = Begin | SawEffects(effects: seq<Effect>) | SawRows(effects: seq<Effect>, rows: seq<Delivery>)

  datatype Stage =
    | InitRun | InjectA(marked: bool) | DrainA(iteration: nat) | InjectB(marked: bool) | DrainB(iteration: nat)
    | Evaluate(at: Progress) | GenerateReceipt(at: Progress) | Complete
    | MarkFailed(reason: FailureReason) | RunFailed

  /**
   `debits` is a history variable: every delivery whose debit was accepted, in order.
   `starting` says that the API call that started the workflow has not returned yet.
   */
  datatype State = State(
    store: Store, workers: seq<Worker>, debits: seq<Event>,
    sent: set<Event>, openA: bool, openB: bool,
    stage: Stage, retries: nat, run: Run, starting: bool)

  /** A task attempt goes on, is retried, or is caught; a failed attempt may or may not have taken effect. */
  datatype Move = Advance | Retry(applied: bool) | Catch(applied: bool)

  datatype Label =
    | Receive(event: Event)
    | Request(worker: nat, reply: Reply)
    | Crash(worker: nat)
    | Send(event: Event)
    | Task(move: Move)
    | StartReturns(raised: bool)

  const TASK_RETRIES: nat := 3

  function Plan(cfg: Setup): seq<Event> {
    cfg.planA + cfg.planB
  }

  function Init(cfg: Setup): State {
    State(Fresh(cfg.budget), [], [], {}, false, false, InitRun, TASK_RETRIES, QUEUED_RUN, true)
  }

  // --- The workflow --------------------------------------------------------------

  function Enter(st: State, stage: Stage): State {
    st.(stage := stage, retries := TASK_RETRIES)
  }

  /** A task either stores its new Run record and enters the next stage, or fails with a reason. */
  function Finish(st: State, r: Result<Run, FailureReason>, next: Stage): State {
    match r
    case Ok(run) => Enter(st.(run := run), next)
    case Err(reason) => Enter(st, MarkFailed(reason))
  }

  /** InitRun writes the budget and zeroes the counters, only when it finds the run QUEUED. */
  function ResetCounters(cfg: Setup, st: State): State {
    if st.run.status == Queued
    then
      st.(store := st.store.(remaining := cfg.budget,
                             delivered := 0, committed := 0, suppressed := 0, exhausted := 0))
    else st
  }

  /** InjectPhase marks the phase on the run first; its messages are `Send` labels. */
  function DoInject(st: State, phase: RunPhase): State {
    match EnterPhase(st.run, phase)
    case Ok(run) =>
      if phase == AtPhaseA then st.(run := run, openA := true, stage := InjectA(true))
      else st.(run := run, openB := true, stage := InjectB(true))
    case Err(reason) => Enter(st, MarkFailed(reason))
  }

  function DoDrain(cfg: Setup, st: State, target: nat, iteration: nat, drained: Stage, again: Stage): State {
    var d := CheckDrain(st.store.delivered, target, iteration, cfg.maxDrain);
    Enter(st, if d.drained then drained else if d.timedOut then MarkFailed(DrainTimeout) else again)
  }

  function DoEvaluate(cfg: Setup, st: State, at: Progress): State {
    match at
    case Begin =>
      (match EnterPhase(st.run, Evaluating)
       case Ok(run) => st.(run := run, stage := Evaluate(SawEffects(st.store.effects)))
       case Err(reason) => Enter(st, MarkFailed(reason)))
    case SawEffects(effects) => st.(stage := Evaluate(SawRows(effects, st.store.rows)))
    case SawRows(effects, rows) =>
      Finish(st, StoreReport(st.run, Recompute(cfg.eligible, effects, rows, cfg.budget, |Plan(cfg)|)),
        GenerateReceipt(Begin))
  }

  function DoReceipt(cfg: Setup, st: State, at: Progress): State {
    match at
    case Begin =>
      if ReceiptWritten(st.run) then Enter(st, Complete)
      else st.(stage := GenerateReceipt(SawEffects(st.store.effects)))
    case SawEffects(effects) => st.(stage := GenerateReceipt(SawRows(effects, st.store.rows)))
    case SawRows(effects, rows) =>
      Finish(st, StoreReceipt(st.run, Recompute(cfg.eligible, effects, rows, cfg.budget, |Plan(cfg)|)), Complete)
  }

  /** The current request of the current task, when it gets through. */
  function Do(cfg: Setup, st: State): State {
    match st.stage
    case InitRun => Finish(ResetCounters(cfg, st), StartRun(st.run), InjectA(false))
    case InjectA(marked) => if marked then Enter(st, DrainA(0)) else DoInject(st, AtPhaseA)
    case DrainA(i) => DoDrain(cfg, st, |cfg.planA|, i, InjectB(false), DrainA(i + 1))
    case InjectB(marked) => if marked then Enter(st, DrainB(0)) else DoInject(st, AtPhaseB)
    case DrainB(i) => DoDrain(cfg, st, |Plan(cfg)|, i, Evaluate(Begin), DrainB(i + 1))
    case Evaluate(at) => DoEvaluate(cfg, st, at)
    case GenerateReceipt(at) => DoReceipt(cfg, st, at)
    case MarkFailed(reason) => Enter(st.(run := FailRun(st.run, reason)), RunFailed)
    case Complete => st
    case RunFailed => st
  }

  predicate Terminal(stage: Stage) {
    stage.Complete? || stage.RunFailed?
  }

  /** An injection task reports success only after every message of its phase was sent. */
  predicate Ready(cfg: Setup, st: State) {
    && (st.stage == InjectA(true) ==> forall e :: e in cfg.planA ==> e in st.sent)
    && (st.stage == InjectB(true) ==> forall e :: e in cfg.planB ==> e in st.sent)
  }

  /** Step Functions starts a failed task again from its first request. */
  function Restart(stage: Stage): Stage {
    match stage
    case InjectA(_) => InjectA(false)
    case InjectB(_) => InjectB(false)
    case Evaluate(_) => Evaluate(Begin)
    case GenerateReceipt(_) => GenerateReceipt(Begin)
    case _ => stage
  }

  function Caught(stage: Stage): Stage {
    if stage.MarkFailed? then RunFailed else MarkFailed(TaskError)
  }

  predicate CanMove(cfg: Setup, st: State, m: Move) {
    && !Terminal(st.stage)
    && (m.Advance? ==> Ready(cfg, st))
    && (m.Retry? ==> st.retries > 0)
  }

  function Moved(cfg: Setup, st: State, m: Move): State {
    match m
    case Advance => Do(cfg, st)
    case Retry(applied) =>
      (if applied then Do(cfg, st) else st)
        .(stage := Restart(st.stage), retries := if st.retries > 0 then st.retries - 1 else 0)
    case Catch(applied) => Enter(if applied then Do(cfg, st) else st, Caught(st.stage))
  }

  // --- Everything that can happen ----------------------------------------------------

  predicate Enabled(cfg: Setup, st: State, l: Label) {
    match l
    case Receive(e) => e in st.sent
    case Request(i, r) =>
      i < |st.workers| && Live(st.workers[i]) && Possible(st.store, st.workers[i], r, cfg.complete)
    case Crash(i) => i < |st.workers| && Live(st.workers[i])
    case Send(e) => (e in cfg.planA && st.openA) || (e in cfg.planB && st.openB)
    case Task(m) => CanMove(cfg, st, m)
    case StartReturns(_) => st.starting
  }

  /** The debit a request makes, if it makes one. */
  function DebitOf(w: Worker, write: Write): seq<Event> {
    if write == Payment || write == Debit then [w.event] else []
  }

  function Requested(cfg: Setup, st: State, i: nat, r: Reply): State
    requires i < |st.workers|
  {
    var w := st.workers[i];
    st.(store := StoreAfter(st.store, w, r),
        workers := st.workers[i := WorkerAfter(cfg.maxAttempts, cfg.processor, st.store, w, r)],
        debits := st.debits + DebitOf(w, WriteOf(st.store, w, r)))
  }

  function Step(cfg: Setup, st: State, l: Label): State
    requires Enabled(cfg, st, l)
  {
    match l
    case Receive(e) => st.(workers := st.workers + [Start(cfg.processor, e, |st.workers|)])
    case Request(i, r) => Requested(cfg, st, i, r)
    case Crash(i) => st.(workers := st.workers[i := Vanish(st.workers[i])])
    case Send(e) => st.(sent := st.sent + {e})
    case Task(m) => Moved(cfg, st, m)
    case StartReturns(raised) => st.(starting := false, run := if raised then StartFailure(st.run) else st.run)
  }

  /** A stretch of a run, from any state: `states` is its history, `labels` what happened. */
  ghost predicate Continues(cfg: Setup, states: seq<State>, labels: seq<Label>) {
    && |states| == |labels| + 1
    && forall i :: 0 <= i < |labels| ==>
         Enabled(cfg, states[i], labels[i]) && states[i + 1] == Step(cfg, states[i], labels[i])
  }

  ghost predicate IsRun(cfg: Setup, states: seq<State>, labels: seq<Label>) {
    Continues(cfg, states, labels) && states[0] == Init(cfg)
  }

  // --- The workload --------------------------------------------------------------

  function KeyCount(events: seq<Event>, k: Key): nat {
    multiset(EventKeys(events))[k]
  }

  /**
   What the experiment and injection code establish: distinct delivery IDs, amounts as
   owed, and every entitlement delivered twice in Phase A or once in Phase B.
   */
  ghost predicate ValidSetup(cfg: Setup) {
    && DistinctKeys(cfg.eligible)
    && PositiveAmounts(cfg.eligible)
    && DistinctIds(Plan(cfg))
    && (forall i :: 0 <= i < |Plan(cfg)| ==> OwedEvent(cfg.eligible, Plan(cfg)[i]))
    && (forall i :: 0 <= i < |cfg.eligible| ==> Covered(cfg, cfg.eligible[i].key))
    && cfg.budget >= 0
    && cfg.maxAttempts >= 1
  }

  ghost predicate DistinctIds(events: seq<Event>) {
    forall i, j :: 0 <= i < j < |events| ==> events[i].deliveryId != events[j].deliveryId
  }

  ghost predicate OwedEvent(eligible: seq<Entry>, e: Event) {
    Eligible(eligible, e.key) && e.amount == Due(eligible, e.key)
  }

  ghost predicate Covered(cfg: Setup, k: Key) {
    || (KeyCount(cfg.planA, k) == 2 && KeyCount(cfg.planB, k) == 0)
    || (KeyCount(cfg.planA, k) == 0 && KeyCount(cfg.planB, k) == 1)
  }

  /** The budget the batch service computes: exactly what is owed. */
  ghost predicate FullBudget(cfg: Setup) {
    cfg.budget == Owed(cfg.eligible)
  }
}
