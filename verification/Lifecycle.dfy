/**
 The workflow of one run (backend/statemachine/run_workflow.asl.json): terminal states
 are final, a completed run has its evidence, and every workflow ends.
 */
module Lifecycle {
  import opened Domain
  import opened Evaluator
  import opened Workflow
  import opened Protocol
  import opened Invariants
  import P = ProtectedRun

  // --- Terminal states --------------------------------------------------------------------

  predicate IsTerminal(status: RunStatus) {
    status == Completed || status == Failed
  }

  /** What was evaluated and put on the receipt is as it was. */
  predicate SameEvidence(run: Run, run': Run) {
    run'.report == run.report && run'.receipt == run.receipt
  }

  lemma DoStatus(cfg: Setup, st: State)
    ensures IsTerminal(st.run.status) ==> Do(cfg, st).run.status == st.run.status
    ensures st.run.status == Completed ==> Do(cfg, st).run == st.run
    ensures IsTerminal(st.run.status) ==> SameEvidence(st.run, Do(cfg, st).run)
  {
    match st.stage
    case Evaluate(at) => if at.SawRows? {
      StoredOnlyRunning(st.run, Recompute(cfg.eligible, at.effects, at.rows, cfg.budget, |Plan(cfg)|));
    }
    case GenerateReceipt(at) => if at.SawRows? {
      ReceiptOnlyRunning(st.run, Recompute(cfg.eligible, at.effects, at.rows, cfg.budget, |Plan(cfg)|));
    }
    case _ =>
  }

  lemma ReceiptOnlyRunning(run: Run, recomputed: Result<Report, FailureReason>)
    ensures StoreReceipt(run, recomputed).Ok? ==> run.status == Running
  {
  }

  /** The API call that started the run raises after all: its update is not guarded by a status. */
  predicate StartFails(l: Label) {
    l == StartReturns(true)
  }

  /**
   Exactly when a terminal status survives a step: always, unless the step is the
   start-failure update and the run is COMPLETED. A COMPLETED record changes in no other way, and
   what was stored before stays stored.
   */
  lemma TerminalIsFinal(cfg: Setup, st: State, l: Label)
    requires Enabled(cfg, st, l) && IsTerminal(st.run.status)
    ensures Step(cfg, st, l).run.status == st.run.status <==> !(StartFails(l) && st.run.status == Completed)
    ensures st.run.status == Completed ==> (Step(cfg, st, l).run == st.run <==> !StartFails(l))
    ensures IsTerminal(Step(cfg, st, l).run.status)
    ensures SameEvidence(st.run, Step(cfg, st, l).run)
    ensures StartFails(l) ==> Step(cfg, st, l).run.failure == Some(StartFailed)
  {
    if l.Task? {
      MoveKeepsTerminal(cfg, st, l.move);
    }
  }

  lemma MoveKeepsTerminal(cfg: Setup, st: State, m: Move)
    requires IsTerminal(st.run.status)
    ensures Moved(cfg, st, m).run.status == st.run.status && SameEvidence(st.run, Moved(cfg, st, m).run)
    ensures st.run.status == Completed ==> Moved(cfg, st, m).run == st.run
  {
    DoStatus(cfg, st);
  }

  // --- What each stage knows ------------------------------------------------------------------

  ghost predicate Reads(cfg: Setup, at: Progress) {
    at.SawRows? ==> |at.rows| == |Plan(cfg)|
  }

  /** Between InitRun and the end a run is RUNNING, unless the API has declared its start failed. */
  predicate Going(run: Run) {
    run.status == Running || run.status == Failed
  }

  ghost predicate StageStatus(cfg: Setup, st: State) {
    match st.stage
    case InitRun => st.run.status == Queued || st.run.status == Running || st.run.status == Failed
    case Evaluate(at) => Going(st.run) && Reads(cfg, at)
    case GenerateReceipt(at) =>
      && (Going(st.run) || (at == Begin && st.run.status == Completed))
      && st.run.report.Some? && Reads(cfg, at)
    case Complete => IsTerminal(st.run.status)
    case MarkFailed(reason) => reason == DrainTimeout || reason == TaskError
    case RunFailed => true
    case _ => Going(st.run)
  }

  /** A COMPLETED run has a verdict and a receipt, and they agree. */
  ghost predicate Evidence(cfg: Setup, run: Run) {
    && (run.status == Completed ==> run.report.Some? && run.receipt.Some?)
    && (run.receipt.Some? ==>
          && run.report.Some? && run.receipt.value.verdict == run.report.value.verdict
          && run.receipt.value.summary.deliveries == |Plan(cfg)|)
    && (run.failure.Some? ==> run.failure.value != InconsistentDeliveries)
    && (run.receipt.Some? ==> IsTerminal(run.status))
    && (run.status == Queued ==> run.report.None?)
  }

  ghost predicate LifeInv(cfg: Setup, st: State) {
    StageStatus(cfg, st) && Evidence(cfg, st.run) && st.retries <= TASK_RETRIES
  }

  lemma EvaluateLife(cfg: Setup, st: State)
    requires LifeInv(cfg, st) && st.stage.Evaluate? && |st.store.rows| == |Plan(cfg)|
    ensures LifeInv(cfg, Do(cfg, st))
    ensures st.run.status == Running ==> !Do(cfg, st).stage.MarkFailed?
  {
    var at := st.stage.at;
    if at.SawRows? {
      StoredOnlyRunning(st.run, Recompute(cfg.eligible, at.effects, at.rows, cfg.budget, |Plan(cfg)|));
    }
  }

  lemma ReceiptLife(cfg: Setup, st: State)
    requires LifeInv(cfg, st) && st.stage.GenerateReceipt? && |st.store.rows| == |Plan(cfg)|
    ensures LifeInv(cfg, Do(cfg, st))
    ensures Do(cfg, st).stage.MarkFailed? && st.run.status != Failed ==>
              && st.stage.at.SawRows?
              && EvaluateRun(cfg.eligible, st.stage.at.effects, st.stage.at.rows, cfg.budget).verdict
                 != st.run.report.value.verdict
  {
    var at := st.stage.at;
    if at.SawRows? {
      var recomputed := Recompute(cfg.eligible, at.effects, at.rows, cfg.budget, |Plan(cfg)|);
      assert recomputed == Ok(EvaluateRun(cfg.eligible, at.effects, at.rows, cfg.budget));
      assert recomputed.value.summary.deliveries == |at.rows|;
      StoredOnlyRunning(st.run, recomputed);
    }
  }

  lemma TaskStatus(cfg: Setup, st: State)
    requires LifeInv(cfg, st) && !st.stage.Evaluate? && !st.stage.GenerateReceipt?
    ensures StageStatus(cfg, Do(cfg, st)) && Do(cfg, st).retries <= TASK_RETRIES
    ensures Do(cfg, st).stage.MarkFailed? && !st.stage.MarkFailed? && st.run.status != Failed ==>
              (st.stage.DrainA? || st.stage.DrainB?) && Do(cfg, st).stage.reason == DrainTimeout
  {
    if Injects(st.stage) {
      InjectTask(cfg, st);
    } else if Drains(st.stage) {
      DrainTask(cfg, st);
    } else {
      OtherTask(cfg, st);
    }
  }

  lemma TaskEvidence(cfg: Setup, st: State)
    requires LifeInv(cfg, st) && !st.stage.Evaluate? && !st.stage.GenerateReceipt?
    ensures Evidence(cfg, Do(cfg, st).run)
  {
    if Injects(st.stage) {
      InjectTask(cfg, st);
    } else if Drains(st.stage) {
      DrainTask(cfg, st);
    } else {
      OtherTask(cfg, st);
    }
  }

  lemma TaskLife(cfg: Setup, st: State)
    requires LifeInv(cfg, st) && !st.stage.Evaluate? && !st.stage.GenerateReceipt?
    ensures LifeInv(cfg, Do(cfg, st))
    ensures Do(cfg, st).stage.MarkFailed? && !st.stage.MarkFailed? && st.run.status != Failed ==>
              (st.stage.DrainA? || st.stage.DrainB?) && Do(cfg, st).stage.reason == DrainTimeout
  {
    TaskStatus(cfg, st);
    TaskEvidence(cfg, st);
  }

  lemma DoLife(cfg: Setup, st: State)
    requires ValidSetup(cfg) && Inv(cfg, st) && LifeInv(cfg, st)
    ensures LifeInv(cfg, Do(cfg, st))
  {
    if PastB(st.stage) {
      RowsAreThePlan(cfg, st);
    }
    if st.stage.Evaluate? {
      EvaluateLife(cfg, st);
    } else if st.stage.GenerateReceipt? {
      ReceiptLife(cfg, st);
    } else {
      TaskLife(cfg, st);
    }
  }

  /** A task that has begun leaves the run where a retry of it can start again. */
  lemma RetryStatus(cfg: Setup, st: State)
    requires LifeInv(cfg, st) && !Terminal(st.stage) && !st.stage.GenerateReceipt?
    ensures Do(cfg, st).run.status == st.run.status || Do(cfg, st).run.status == Running || st.stage.MarkFailed?
    ensures st.stage.InitRun? || st.stage.MarkFailed? || Do(cfg, st).run.status == st.run.status
  {
    if Injects(st.stage) {
      InjectTask(cfg, st);
    } else if Drains(st.stage) {
      DrainTask(cfg, st);
    } else if st.stage.Evaluate? {
      EvaluateStatus(cfg, st);
    } else {
      OtherTask(cfg, st);
    }
  }

  lemma EvaluateStatus(cfg: Setup, st: State)
    requires st.stage.Evaluate?
    ensures Do(cfg, st).run.status == st.run.status
  {
  }

  lemma RestartLife(cfg: Setup, st: State, applied: bool)
    requires LifeInv(cfg, st) && LifeInv(cfg, Do(cfg, st)) && !Terminal(st.stage)
    ensures var retries := if st.retries > 0 then st.retries - 1 else 0;
            LifeInv(cfg, (if applied then Do(cfg, st) else st).(stage := Restart(st.stage), retries := retries))
  {
    if !st.stage.GenerateReceipt? {
      RetryStatus(cfg, st);
    } else {
      ReceiptStatus(cfg, st);
    }
  }

  lemma ReceiptStatus(cfg: Setup, st: State)
    requires LifeInv(cfg, st) && st.stage.GenerateReceipt?
    ensures Do(cfg, st).run.report == st.run.report
    ensures Do(cfg, st).run.status == st.run.status || Do(cfg, st).run.status == Completed
  {
  }

  lemma CaughtLife(cfg: Setup, st: State, at: Stage)
    requires Evidence(cfg, st.run)
    ensures LifeInv(cfg, Enter(st, Caught(at)))
  {
  }

  lemma MoveLife(cfg: Setup, st: State, m: Move)
    requires ValidSetup(cfg) && Inv(cfg, st) && LifeInv(cfg, st) && CanMove(cfg, st, m)
    ensures LifeInv(cfg, Moved(cfg, st, m))
  {
    DoLife(cfg, st);
    match m
    case Advance =>
    case Retry(applied) => RestartLife(cfg, st, applied);
    case Catch(applied) => CaughtLife(cfg, if applied then Do(cfg, st) else st, st.stage);
  }

  ghost predicate SameTask(st: State, st': State) {
    && st'.stage == st.stage && st'.retries == st.retries && st'.run == st.run
    && st'.openA == st.openA && st'.openB == st.openB && st'.starting == st.starting
  }

  /** Messages and workers: everything but the workflow and the API. */
  predicate FromOutside(l: Label) {
    !l.Task? && !l.StartReturns?
  }

  /** Only the workflow's own tasks and the API touch the Run record and the stage. */
  lemma WorkersLeaveTask(cfg: Setup, st: State, l: Label)
    requires Enabled(cfg, st, l) && FromOutside(l)
    ensures SameTask(st, Step(cfg, st, l))
  {
  }

  lemma StartReturnsLife(cfg: Setup, st: State, raised: bool)
    requires LifeInv(cfg, st) && st.starting
    ensures LifeInv(cfg, Step(cfg, st, StartReturns(raised)))
  {
  }

  lemma StepLife(cfg: Setup, st: State, l: Label)
    requires ValidSetup(cfg) && Inv(cfg, st) && LifeInv(cfg, st) && Enabled(cfg, st, l)
    ensures LifeInv(cfg, Step(cfg, st, l))
  {
    match l
    case Task(m) => MoveLife(cfg, st, m);
    case StartReturns(raised) => StartReturnsLife(cfg, st, raised);
    case _ => WorkersLeaveTask(cfg, st, l);
  }

  lemma {:induction false} RunLife(cfg: Setup, states: seq<State>, labels: seq<Label>, n: nat)
    requires ValidSetup(cfg) && IsRun(cfg, states, labels) && n < |states|
    ensures Inv(cfg, states[n]) && LifeInv(cfg, states[n])
  {
    RunInv(cfg, states, labels, n);
    if n > 0 {
      RunLife(cfg, states, labels, n - 1);
      StepLife(cfg, states[n - 1], labels[n - 1]);
    }
  }

  /**
   In every run of every processor: a COMPLETED run stores a verdict and a receipt that
   agree, exactly N + D deliveries are recorded, and no run ever fails for inconsistent
   deliveries.
   */
  lemma CompletedHasEvidence(cfg: Setup, states: seq<State>, labels: seq<Label>, n: nat)
    requires ValidSetup(cfg) && IsRun(cfg, states, labels) && n < |states|
    ensures var st := states[n];
            && (st.run.status == Completed ==>
                  && st.run.report.Some? && st.run.receipt.Some?
                  && st.run.receipt.value.verdict == st.run.report.value.verdict
                  && AllRecorded(st.store, Plan(cfg))
                  && |st.store.rows| == st.store.delivered == |cfg.eligible| + DuplicateCount(cfg))
            && st.run.failure != Some(InconsistentDeliveries)
            && st.stage != MarkFailed(InconsistentDeliveries)
  {
    RunLife(cfg, states, labels, n);
    if states[n].run.status == Completed {
      RowsAreThePlan(cfg, states[n]);
    }
  }

  // --- Termination ------------------------------------------------------------------------------

  function StageRank(stage: Stage): nat {
    match stage
    case InitRun => 8
    case InjectA(_) => 7
    case DrainA(_) => 6
    case InjectB(_) => 5
    case DrainB(_) => 4
    case Evaluate(_) => 3
    case GenerateReceipt(_) => 2
    case MarkFailed(_) => 1
    case Complete => 0
    case RunFailed => 0
  }

  function ReadsLeft(at: Progress): nat {
    match at
    case Begin => 2
    case SawEffects(_) => 1
    case SawRows(_, _) => 0
  }

  function ChecksLeft(maxDrain: nat, iteration: nat): nat {
    if iteration < maxDrain then maxDrain - iteration else 0
  }

  /** Work left inside the current stage, counting the retries it may still use. */
  function StageWork(cfg: Setup, st: State): nat {
    match st.stage
    case InjectA(marked) => 2 * st.retries + (if marked then 0 else 1)
    case InjectB(marked) => 2 * st.retries + (if marked then 0 else 1)
    case DrainA(i) => 4 * ChecksLeft(cfg.maxDrain, i) + st.retries
    case DrainB(i) => 4 * ChecksLeft(cfg.maxDrain, i) + st.retries
    case Evaluate(at) => 3 * st.retries + ReadsLeft(at)
    case GenerateReceipt(at) => 3 * st.retries + ReadsLeft(at)
    case _ => st.retries
  }

  function StageBound(cfg: Setup): nat {
    4 * cfg.maxDrain + 12
  }

  /** Lexicographic: the stage first, the work left inside it second. */
  function WorkLeft(cfg: Setup, st: State): nat {
    StageRank(st.stage) * StageBound(cfg) + StageWork(cfg, st)
  }

  lemma WorkBounded(cfg: Setup, st: State)
    requires st.retries <= TASK_RETRIES
    ensures StageWork(cfg, st) < StageBound(cfg)
  {
  }

  lemma LowerRank(cfg: Setup, st: State, st': State)
    requires st'.retries <= TASK_RETRIES && StageRank(st'.stage) < StageRank(st.stage)
    ensures WorkLeft(cfg, st') < WorkLeft(cfg, st)
  {
    WorkBounded(cfg, st');
    var b := StageBound(cfg);
    assert StageRank(st'.stage) * b + b <= StageRank(st.stage) * b by {
      assert (StageRank(st.stage) - StageRank(st'.stage)) * b >= b;
    }
  }

  /** Entering a later stage, or finding the drain not done yet, leaves less to do. */
  lemma DrainProgress(cfg: Setup, st: State)
    requires st.retries <= TASK_RETRIES && (st.stage.DrainA? || st.stage.DrainB?)
    ensures WorkLeft(cfg, Do(cfg, st)) < WorkLeft(cfg, st)
  {
    var st' := Do(cfg, st);
    if StageRank(st'.stage) < StageRank(st.stage) {
      LowerRank(cfg, st, st');
    } else {
      assert st'.stage.DrainA? == st.stage.DrainA? && st'.stage.iteration == st.stage.iteration + 1;
      assert st.stage.iteration + 1 < cfg.maxDrain;
    }
  }

  /** A task result either enters the next stage or the failure stage. */
  lemma FinishEnters(st: State, r: Result<Run, FailureReason>, next: Stage)
    ensures Finish(st, r, next).stage == next || Finish(st, r, next).stage.MarkFailed?
    ensures Finish(st, r, next).retries == TASK_RETRIES
  {
  }

  lemma EvaluateProgress(cfg: Setup, st: State)
    requires st.retries <= TASK_RETRIES && st.stage.Evaluate?
    ensures WorkLeft(cfg, Do(cfg, st)) < WorkLeft(cfg, st)
  {
    var at, st' := st.stage.at, Do(cfg, st);
    if at.SawRows? {
      FinishEnters(st, StoreReport(st.run, Recompute(cfg.eligible, at.effects, at.rows, cfg.budget, |Plan(cfg)|)),
        GenerateReceipt(Begin));
      LowerRank(cfg, st, st');
    } else if st'.stage.MarkFailed? {
      LowerRank(cfg, st, st');
    } else {
      assert st'.retries == st.retries && ReadsLeft(st'.stage.at) < ReadsLeft(at);
    }
  }

  lemma ReceiptProgress(cfg: Setup, st: State)
    requires st.retries <= TASK_RETRIES && st.stage.GenerateReceipt?
    ensures WorkLeft(cfg, Do(cfg, st)) < WorkLeft(cfg, st)
  {
    var at, st' := st.stage.at, Do(cfg, st);
    if at.SawRows? {
      FinishEnters(st, StoreReceipt(st.run, Recompute(cfg.eligible, at.effects, at.rows, cfg.budget, |Plan(cfg)|)),
        Complete);
      LowerRank(cfg, st, st');
    } else if st'.stage.Complete? {
      LowerRank(cfg, st, st');
    } else {
      assert st'.retries == st.retries && ReadsLeft(st'.stage.at) < ReadsLeft(at);
    }
  }

  lemma OtherProgress(cfg: Setup, st: State)
    requires st.retries <= TASK_RETRIES && !Terminal(st.stage)
    requires !st.stage.DrainA? && !st.stage.DrainB? && !st.stage.Evaluate? && !st.stage.GenerateReceipt?
    ensures WorkLeft(cfg, Do(cfg, st)) < WorkLeft(cfg, st)
  {
    var st' := Do(cfg, st);
    if StageRank(st'.stage) < StageRank(st.stage) {
      LowerRank(cfg, st, st');
    } else {
      assert st'.retries == st.retries && StageRank(st'.stage) == StageRank(st.stage);
      assert StageWork(cfg, st') < StageWork(cfg, st);
    }
  }

  lemma DoProgress(cfg: Setup, st: State)
    requires st.retries <= TASK_RETRIES && !Terminal(st.stage)
    ensures WorkLeft(cfg, Do(cfg, st)) < WorkLeft(cfg, st)
  {
    if st.stage.DrainA? || st.stage.DrainB? {
      DrainProgress(cfg, st);
    } else if st.stage.Evaluate? {
      EvaluateProgress(cfg, st);
    } else if st.stage.GenerateReceipt? {
      ReceiptProgress(cfg, st);
    } else {
      OtherProgress(cfg, st);
    }
  }

  lemma MoveProgress(cfg: Setup, st: State, m: Move)
    requires st.retries <= TASK_RETRIES && CanMove(cfg, st, m)
    ensures WorkLeft(cfg, Moved(cfg, st, m)) < WorkLeft(cfg, st)
  {
    match m
    case Advance => DoProgress(cfg, st);
    case Retry(applied) =>
      var st' := Moved(cfg, st, m);
      assert StageRank(st'.stage) == StageRank(st.stage);
      assert StageWork(cfg, st') < StageWork(cfg, st);
    case Catch(applied) => LowerRank(cfg, st, Moved(cfg, st, m));
  }

  function TaskCount(labels: seq<Label>): nat {
    if labels == [] then 0
    else TaskCount(labels[..|labels| - 1]) + (if labels[|labels| - 1].Task? then 1 else 0)
  }

  lemma StepProgress(cfg: Setup, st: State, l: Label)
    requires st.retries <= TASK_RETRIES && Enabled(cfg, st, l)
    ensures WorkLeft(cfg, Step(cfg, st, l)) + (if l.Task? then 1 else 0) <= WorkLeft(cfg, st)
  {
    match l
    case Task(m) => MoveProgress(cfg, st, m);
    case StartReturns(_) =>
    case _ => WorkersLeaveTask(cfg, st, l);
  }

  /** Whatever is retried or fails, a workflow makes a bounded number of task attempts. */
  lemma {:induction false} WorkflowTerminates(cfg: Setup, states: seq<State>, labels: seq<Label>, n: nat)
    requires ValidSetup(cfg) && IsRun(cfg, states, labels) && n < |states|
    ensures TaskCount(labels[..n]) + WorkLeft(cfg, states[n]) <= 8 * StageBound(cfg) + TASK_RETRIES
  {
    if n > 0 {
      WorkflowTerminates(cfg, states, labels, n - 1);
      assert states[n - 1].retries <= TASK_RETRIES by {
        RunLife(cfg, states, labels, n - 1);
      }
      assert labels[..n][..n - 1] == labels[..n - 1];
      StepProgress(cfg, states[n - 1], labels[n - 1]);
    }
  }

  /** Injection tasks mark their phase before any later stage is entered. */
  ghost predicate Opened(st: State) {
    && (st.stage == InjectA(true) || st.stage.DrainA? || PastA(st.stage) ==> st.openA)
    && (st.stage == InjectB(true) || st.stage.DrainB? || PastB(st.stage) ==> st.openB)
  }

  lemma DoOpened(cfg: Setup, st: State)
    requires Opened(st)
    ensures Opened(Do(cfg, st))
  {
  }

  lemma MoveOpened(cfg: Setup, st: State, m: Move)
    requires Inv(cfg, st) && Opened(st)
    ensures Opened(Moved(cfg, st, m))
  {
    DoOpened(cfg, st);
    ResetIsIdentity(cfg, st);
    DoFrame(cfg, st);
  }

  lemma StepOpened(cfg: Setup, st: State, l: Label)
    requires Inv(cfg, st) && Opened(st) && Enabled(cfg, st, l)
    ensures Opened(Step(cfg, st, l))
  {
    match l
    case Task(m) => MoveOpened(cfg, st, m);
    case StartReturns(_) =>
    case _ => WorkersLeaveTask(cfg, st, l);
  }

  lemma {:induction false} RunOpened(cfg: Setup, states: seq<State>, labels: seq<Label>, n: nat)
    requires ValidSetup(cfg) && IsRun(cfg, states, labels) && n < |states|
    ensures Opened(states[n])
  {
    if n > 0 {
      RunOpened(cfg, states, labels, n - 1);
      RunInv(cfg, states, labels, n - 1);
      StepOpened(cfg, states[n - 1], labels[n - 1]);
    }
  }

  /** And it is never stuck: a task can go on, or its injection has a planned message left to send. */
  lemma NeverStuck(cfg: Setup, states: seq<State>, labels: seq<Label>, n: nat)
    requires ValidSetup(cfg) && IsRun(cfg, states, labels) && n < |states| && !Terminal(states[n].stage)
    ensures CanMove(cfg, states[n], Advance)
            || exists e :: e in Plan(cfg) && e !in states[n].sent && Enabled(cfg, states[n], Send(e))
  {
    var st := states[n];
    RunOpened(cfg, states, labels, n);
    if !Ready(cfg, st) {
      var events := if st.stage.InjectA? then cfg.planA else cfg.planB;
      var e :| e in events && e !in st.sent;
      assert e in Plan(cfg) && Enabled(cfg, st, Send(e));
    }
  }

  // --- Protected runs end well ----------------------------------------------------------------------

  ghost predicate Fresh(st: State, at: Progress) {
    && (at.SawEffects? ==> at.effects == st.store.effects)
    && (at.SawRows? ==> at.effects == st.store.effects && at.rows == st.store.rows)
  }

  /** Everything evaluated so far equals what evaluation would say now. */
  ghost predicate Settled(cfg: Setup, st: State) {
    SettledTo(st, EvaluateRun(cfg.eligible, st.store.effects, st.store.rows, cfg.budget))
  }

  ghost predicate SettledTo(st: State, now: Report) {
    && (st.stage.Evaluate? || st.stage.GenerateReceipt? ==> Fresh(st, st.stage.at))
    && (st.run.report.Some? ==> st.run.report.value == now)
    && (st.run.receipt.Some? ==> st.run.receipt.value == now)
  }

  lemma EvaluateSettled(cfg: Setup, st: State, now: Report)
    requires SettledTo(st, now) && st.stage.Evaluate?
    requires st.stage.at.SawRows? ==>
               var r := Recompute(cfg.eligible, st.stage.at.effects, st.stage.at.rows, cfg.budget, |Plan(cfg)|);
               r.Ok? ==> r.value == now
    ensures SettledTo(DoEvaluate(cfg, st, st.stage.at), now)
  {
    var at := st.stage.at;
    if at.SawRows? {
      StoredReports(st.run, Recompute(cfg.eligible, at.effects, at.rows, cfg.budget, |Plan(cfg)|));
    }
  }

  lemma ReceiptSettled(cfg: Setup, st: State, now: Report)
    requires SettledTo(st, now) && st.stage.GenerateReceipt?
    requires st.stage.at.SawRows? ==>
               var r := Recompute(cfg.eligible, st.stage.at.effects, st.stage.at.rows, cfg.budget, |Plan(cfg)|);
               r.Ok? ==> r.value == now
    ensures SettledTo(DoReceipt(cfg, st, st.stage.at), now)
  {
    var at := st.stage.at;
    if at.SawRows? {
      StoredReports(st.run, Recompute(cfg.eligible, at.effects, at.rows, cfg.budget, |Plan(cfg)|));
    }
  }

  lemma ReadSettled(cfg: Setup, st: State)
    requires Settled(cfg, st) && (st.stage.Evaluate? || st.stage.GenerateReceipt?)
    requires ResetCounters(cfg, st) == st
    ensures Settled(cfg, Do(cfg, st))
  {
    var now := EvaluateRun(cfg.eligible, st.store.effects, st.store.rows, cfg.budget);
    DoFrame(cfg, st);
    if st.stage.Evaluate? {
      EvaluateSettled(cfg, st, now);
    } else {
      ReceiptSettled(cfg, st, now);
    }
  }

  lemma StoredReports(run: Run, recomputed: Result<Report, FailureReason>)
    ensures StoreReport(run, recomputed).Ok? ==>
              recomputed.Ok? && StoreReport(run, recomputed).value == run.(report := Some(recomputed.value))
    ensures StoreReceipt(run, recomputed).Ok? ==>
              && recomputed.Ok?
              && StoreReceipt(run, recomputed).value.report == run.report
              && StoreReceipt(run, recomputed).value.receipt == Some(recomputed.value)
  {
  }

  /** Tasks that do not evaluate leave the stored reports alone. */
  lemma TaskReports(cfg: Setup, st: State)
    requires !st.stage.Evaluate? && !st.stage.GenerateReceipt?
    ensures var st' := Do(cfg, st);
            && st'.run.report == st.run.report && st'.run.receipt == st.run.receipt
            && (st'.stage.Evaluate? ==> st'.stage == Evaluate(Begin)) && !st'.stage.GenerateReceipt?
  {
    if Injects(st.stage) {
      InjectTask(cfg, st);
    } else if Drains(st.stage) {
      DrainTask(cfg, st);
    } else {
      OtherTask(cfg, st);
    }
  }

  lemma TaskSettled(cfg: Setup, st: State, now: Report)
    requires SettledTo(st, now) && !st.stage.Evaluate? && !st.stage.GenerateReceipt?
    ensures SettledTo(Do(cfg, st), now)
  {
    TaskReports(cfg, st);
  }

  lemma DoSettled(cfg: Setup, st: State)
    requires Settled(cfg, st) && ResetCounters(cfg, st) == st
    ensures Settled(cfg, Do(cfg, st)) && Do(cfg, st).store == st.store
  {
    DoFrame(cfg, st);
    if st.stage.Evaluate? || st.stage.GenerateReceipt? {
      ReadSettled(cfg, st);
    } else {
      TaskSettled(cfg, st, EvaluateRun(cfg.eligible, st.store.effects, st.store.rows, cfg.budget));
    }
  }

  /** Starting a task again, or giving it up, keeps what is stored. */
  lemma RestartSettled(st: State, stage: Stage, retries: nat, now: Report)
    requires SettledTo(st, now)
    ensures SettledTo(st.(stage := Restart(stage), retries := retries), now)
    ensures SettledTo(Enter(st, Caught(stage)), now)
  {
  }

  lemma MovedSettled(cfg: Setup, st: State, m: Move, now: Report)
    requires SettledTo(st, now) && SettledTo(Do(cfg, st), now) && Do(cfg, st).store == st.store
    ensures SettledTo(Moved(cfg, st, m), now) && Moved(cfg, st, m).store == st.store
  {
    var retries := if st.retries > 0 then st.retries - 1 else 0;
    RestartSettled(st, st.stage, retries, now);
    RestartSettled(Do(cfg, st), st.stage, retries, now);
  }

  lemma MoveSettled(cfg: Setup, st: State, m: Move)
    requires Inv(cfg, st) && Settled(cfg, st)
    ensures Settled(cfg, Moved(cfg, st, m))
  {
    ResetIsIdentity(cfg, st);
    DoSettled(cfg, st);
    MovedSettled(cfg, st, m, EvaluateRun(cfg.eligible, st.store.effects, st.store.rows, cfg.budget));
  }

  lemma SettledSame(cfg: Setup, st: State, st': State)
    requires Settled(cfg, st) && SameTask(st, st')
    requires st'.store == st.store
             || (!st.stage.Evaluate? && !st.stage.GenerateReceipt? && st.run.report.None? && st.run.receipt.None?)
    ensures Settled(cfg, st')
  {
  }

  /** What was evaluated stays true as long as nothing moves after the drain. */
  lemma StepSettled(cfg: Setup, st: State, l: Label)
    requires Inv(cfg, st) && LifeInv(cfg, st) && Settled(cfg, st) && Enabled(cfg, st, l)
    requires !l.Task? && AllRecorded(st.store, Plan(cfg)) ==> Step(cfg, st, l).store == st.store
    ensures Settled(cfg, Step(cfg, st, l))
  {
    match l
    case Task(m) => MoveSettled(cfg, st, m);
    case StartReturns(raised) => StartReturnsSettled(cfg, st, raised);
    case _ =>
      WorkersLeaveTask(cfg, st, l);
      SettledSame(cfg, st, Step(cfg, st, l));
  }

  lemma StartReturnsSettled(cfg: Setup, st: State, raised: bool)
    requires Settled(cfg, st) && st.starting
    ensures Settled(cfg, Step(cfg, st, StartReturns(raised)))
  {
    StartReturnsKeeps(cfg, st, raised);
  }

  lemma StartReturnsKeeps(cfg: Setup, st: State, raised: bool)
    requires st.starting
    ensures var st' := Step(cfg, st, StartReturns(raised));
            && st'.store == st.store && st'.stage == st.stage
            && st'.run.report == st.run.report && st'.run.receipt == st.run.receipt
  {
  }

  lemma ProtectedStepSettled(cfg: Setup, st: State, l: Label)
    requires ValidSetup(cfg) && cfg.processor == Protected
    requires Inv(cfg, st) && P.Safe(cfg, st) && LifeInv(cfg, st) && Settled(cfg, st) && Enabled(cfg, st, l)
    ensures Settled(cfg, Step(cfg, st, l))
  {
    if AllRecorded(st.store, Plan(cfg)) {
      P.Quiescent(cfg, st, l);
    }
    StepSettled(cfg, st, l);
  }

  /** All that is known of a state of a protected run. */
  ghost predicate Known(cfg: Setup, st: State) {
    Inv(cfg, st) && P.Safe(cfg, st) && LifeInv(cfg, st)
  }

  lemma KnownAt(cfg: Setup, states: seq<State>, labels: seq<Label>, n: nat)
    requires ValidSetup(cfg) && cfg.processor == Protected && IsRun(cfg, states, labels) && n < |states|
    ensures Known(cfg, states[n])
  {
    P.RunSafe(cfg, states, labels, n);
    RunLife(cfg, states, labels, n);
  }

  lemma SettledNext(cfg: Setup, st: State, l: Label, st': State)
    requires ValidSetup(cfg) && cfg.processor == Protected && Known(cfg, st) && Settled(cfg, st)
    requires Enabled(cfg, st, l) && st' == Step(cfg, st, l)
    ensures Settled(cfg, st')
  {
    ProtectedStepSettled(cfg, st, l);
  }

  lemma {:induction false} RunSettled(cfg: Setup, states: seq<State>, labels: seq<Label>, n: nat)
    requires ValidSetup(cfg) && cfg.processor == Protected
    requires IsRun(cfg, states, labels) && n < |states|
    ensures Settled(cfg, states[n])
  {
    if n > 0 {
      RunSettled(cfg, states, labels, n - 1);
      KnownAt(cfg, states, labels, n - 1);
      SettledNext(cfg, states[n - 1], labels[n - 1], states[n]);
    }
  }

  /**
   Evaluate and GenerateReceipt of a protected run see the same rows: the receipt task
   never finds a verdict different from the stored one.
   */
  lemma ReceiptNeverMismatches(cfg: Setup, states: seq<State>, labels: seq<Label>, n: nat)
    requires ValidSetup(cfg) && cfg.processor == Protected
    requires IsRun(cfg, states, labels) && n < |states| && states[n].stage.GenerateReceipt?
    ensures Do(cfg, states[n]).stage.MarkFailed? ==> states[n].run.status == Failed
    ensures states[n].stage.at.SawRows? ==>
              var at := states[n].stage.at;
              states[n].run.report == Some(EvaluateRun(cfg.eligible, at.effects, at.rows, cfg.budget))
  {
    RunSettled(cfg, states, labels, n);
    RunLife(cfg, states, labels, n);
    RowsAreThePlan(cfg, states[n]);
    ReceiptLife(cfg, states[n]);
  }

  /**
   The promise of the protected processor, end to end: in every run, whatever the order,
   redeliveries, crashes, conflicts and task retries, whatever was evaluated or put on
   the receipt says that N students were paid once each, and PASS.
   */
  lemma ProtectedRunPasses(cfg: Setup, states: seq<State>, labels: seq<Label>, n: nat)
    requires ValidSetup(cfg) && FullBudget(cfg) && cfg.processor == Protected
    requires IsRun(cfg, states, labels) && n < |states|
    ensures states[n].run.report.Some? ==> P.Headline(cfg, states[n].run.report.value)
    ensures states[n].run.receipt.Some? ==> P.Headline(cfg, states[n].run.receipt.value)
    ensures states[n].run.status == Completed ==> states[n].run.receipt.Some?
  {
    RunSettled(cfg, states, labels, n);
    RunLife(cfg, states, labels, n);
    P.RunSafe(cfg, states, labels, n);
    if states[n].run.report.Some? {
      if cfg.complete {
        P.RunNotExhausted(cfg, states, labels, n);
      }
      P.ProtectedHeadline(cfg, states[n]);
    }
  }

  /** Why a task gives up: each reason says what was found. */
  lemma FailsBecause(cfg: Setup, st: State)
    requires !st.stage.MarkFailed? && Do(cfg, st).stage.MarkFailed?
    ensures HasCause(cfg, st, Do(cfg, st).stage.reason)
  {
    if Injects(st.stage) {
      InjectTask(cfg, st);
    } else if Drains(st.stage) {
      DrainFails(cfg, st);
    } else if st.stage.Evaluate? {
      EvaluateFails(cfg, st);
    } else if st.stage.GenerateReceipt? {
      ReceiptFails(cfg, st);
    } else {
      OtherTask(cfg, st);
    }
  }

  ghost predicate HasCause(cfg: Setup, st: State, reason: FailureReason) {
    && (reason == DrainTimeout <==> st.stage.DrainA? || st.stage.DrainB?)
    && (st.stage.DrainA? ==> st.store.delivered < |cfg.planA| && st.stage.iteration + 1 >= cfg.maxDrain)
    && (st.stage.DrainB? ==> st.store.delivered < |Plan(cfg)| && st.stage.iteration + 1 >= cfg.maxDrain)
    && (reason == InconsistentDeliveries <==>
          && (st.stage.Evaluate? || st.stage.GenerateReceipt?) && st.stage.at.SawRows?
          && |st.stage.at.rows| != |Plan(cfg)|)
    && reason != StartFailed
  }

  lemma DrainFails(cfg: Setup, st: State)
    requires Drains(st.stage) && Do(cfg, st).stage.MarkFailed?
    ensures HasCause(cfg, st, Do(cfg, st).stage.reason)
  {
  }

  lemma EvaluateFails(cfg: Setup, st: State)
    requires st.stage.Evaluate? && Do(cfg, st).stage.MarkFailed?
    ensures HasCause(cfg, st, Do(cfg, st).stage.reason)
  {
  }

  lemma ReceiptFails(cfg: Setup, st: State)
    requires st.stage.GenerateReceipt? && Do(cfg, st).stage.MarkFailed?
    ensures HasCause(cfg, st, Do(cfg, st).stage.reason)
  {
    match st.stage.at
    case Begin =>
    case SawEffects(_) =>
    case SawRows(effects, rows) =>
      var recomputed := Recompute(cfg.eligible, effects, rows, cfg.budget, |Plan(cfg)|);
      assert Do(cfg, st) == Finish(st, StoreReceipt(st.run, recomputed), Complete);
      ReceiptRefuses(st.run, recomputed);
  }

  lemma ReceiptRefuses(run: Run, recomputed: Result<Report, FailureReason>)
    ensures StoreReceipt(run, recomputed).Err? ==>
              StoreReceipt(run, recomputed).error == if recomputed.Err? then recomputed.error else TaskError
  {
  }
}
