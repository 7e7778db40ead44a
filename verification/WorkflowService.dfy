/**
 The workflow tasks as methods on the Run item and the tables
 (backend/src/services/workflow_service.py, backend/src/adapters/dynamodb/runs_repo.py).
 */
module WorkflowService {
  import opened Domain
  import opened Storage
  import opened Evaluator
  import opened Workflow
  import opened Protocol
  import opened Tables
  import opened Invariants
  import opened NaiveRace

  /** The status fields of one Run item; its budget and counters are part of the tables. */
  class RunsRepository {
    var run: Run
    const tables: DynamoDisbursementStore

    constructor (tables: DynamoDisbursementStore)
      ensures run == QUEUED_RUN && this.tables == tables
    {
      run := QUEUED_RUN;
      this.tables := tables;
    }

    /** The guard decides first; a refused update changes nothing. */
    method Update(next: Run, require: Option<RunStatus>, forbid: Option<RunStatus>)
      returns (r: Result<Run, FailureReason>)
      modifies this`run
      ensures r == Workflow.Update(old(run), next, require, forbid)
      ensures run == if r.Ok? then next else old(run)
    {
      if require.Some? && run.status != require.value {
        return Err(TaskError);
      }
      if forbid.Some? && run.status == forbid.value {
        return Err(TaskError);
      }
      run := next;
      return Ok(run);
    }

    /** QUEUED to RUNNING with fresh counters; a retry that finds the run RUNNING changes nothing. */
    method Start(budget: int) returns (r: Result<Run, FailureReason>)
      modifies this`run, tables`tables
      ensures r == StartRun(old(run))
      ensures run == if r.Ok? then r.value else old(run)
      ensures r.Ok? <==> old(run.status) == Queued || old(run.status) == Running
      ensures run == if old(run.status) == Queued then old(run).(status := Running, phase := AtQueue) else old(run)
      ensures tables.tables == if old(run.status) == Queued then Reset(old(tables.tables), budget)
              else old(tables.tables)
      ensures old(run.status) == Queued ==>
                && tables.tables.remaining == budget && tables.tables.delivered == tables.tables.committed == 0
                && tables.tables.suppressed == tables.tables.exhausted == 0
                && tables.tables.claims == old(tables.tables.claims) && tables.tables.rows == old(tables.tables.rows)
                && tables.tables.effects == old(tables.tables.effects)
    {
      var started := Update(run.(status := Running, phase := AtQueue), Some(Queued), None);
      if started.Ok? {
        tables.tables := Reset(tables.tables, budget);
        return started;
      }
      if run.status == Running {
        return Ok(run);
      }
      return started;
    }
  }

  function Reset(s: Store, budget: int): Store {
    s.(remaining := budget, delivered := 0, committed := 0, suppressed := 0, exhausted := 0)
  }

  /** `evaluate`: mark the phase, read both tables, store the report. */
  function EvaluateTask(cfg: Setup, run: Run, effects: seq<Effect>, rows: seq<Delivery>): Result<Run, FailureReason> {
    match EnterPhase(run, Evaluating)
    case Err(e) => Err(e)
    case Ok(marked) => StoreReport(marked, Recompute(cfg.eligible, effects, rows, cfg.budget, |Plan(cfg)|))
  }

  function ReceiptTask(cfg: Setup, run: Run, effects: seq<Effect>, rows: seq<Delivery>): Result<Run, FailureReason> {
    if ReceiptWritten(run) then Ok(run)
    else StoreReceipt(run, Recompute(cfg.eligible, effects, rows, cfg.budget, |Plan(cfg)|))
  }

  function PlanOf(cfg: Setup, phase: Phase): seq<Event> {
    if phase == PhaseA then cfg.planA else cfg.planB
  }

  /** The error a task failed with, by name. */
  datatype TaskFailure = Named(name: string)

  const DRAIN_TIMEOUT_ERROR := "DRAIN_TIMEOUT"
  const INCONSISTENT_ERROR := "InconsistentDeliveriesError"

  function ReasonFor(error: TaskFailure): FailureReason {
    if error.name == DRAIN_TIMEOUT_ERROR then DrainTimeout
    else if error.name == INCONSISTENT_ERROR then InconsistentDeliveries
    else TaskError
  }

  class WorkflowService {
    const cfg: Setup
    const runs: RunsRepository
    const tables: DynamoDisbursementStore
    var sent: set<Event>

    constructor (cfg: Setup, runs: RunsRepository, tables: DynamoDisbursementStore)
      requires runs.tables == tables
      ensures Valid() && this.cfg == cfg && this.runs == runs && sent == {}
    {
      this.cfg, this.runs, this.tables, sent := cfg, runs, tables, {};
    }

    ghost predicate Valid()
      reads this
    {
      runs.tables == tables
    }

    /** The run and the tables are those of a state of the protocol. */
    ghost predicate Shows(st: State)
      reads this, runs, tables
    {
      st.run == runs.run && st.store == tables.tables
    }

    /** `st` is the state of the protocol this task runs in; the stage does what the task does. */
    method InitRun(ghost st: State) returns (r: Result<Run, FailureReason>)
      requires Valid()
      modifies runs`run, tables`tables
      ensures r == StartRun(old(runs.run)) && runs.run == if r.Ok? then r.value else old(runs.run)
      ensures tables.tables
              == if old(runs.run.status) == Queued then Reset(old(tables.tables), cfg.budget) else old(tables.tables)
      ensures old(Shows(st)) && st.stage == Stage.InitRun ==>
                Shows(Do(cfg, st)) && (r.Ok? <==> Do(cfg, st).stage == InjectA(false))
    {
      TasksAreStages(cfg, st);
      r := runs.Start(cfg.budget);
    }

    /** Marks the phase, then publishes every planned message; publishing again adds nothing new. */
    method InjectPhase(phase: Phase, ghost st: State) returns (r: Result<Run, FailureReason>)
      requires Valid()
      modifies runs`run, this`sent
      ensures r == EnterPhase(old(runs.run), if phase == PhaseA then AtPhaseA else AtPhaseB)
      ensures runs.run == if r.Ok? then r.value else old(runs.run)
      ensures r.Ok? <==> old(runs.run.status) == Running
      ensures r.Ok? ==> runs.run == old(runs.run).(phase := if phase == PhaseA then AtPhaseA else AtPhaseB)
      ensures forall e :: e in sent <==> e in old(sent) || (r.Ok? && e in PlanOf(cfg, phase))
      ensures old(Shows(st)) && st.stage == Injecting(phase, false) ==>
                && Shows(Do(cfg, st)) && (r.Ok? <==> Do(cfg, st).stage == Injecting(phase, true))
                && forall e :: e in sent && e !in old(sent) ==> Enabled(cfg, Do(cfg, st), Send(e))
    {
      TasksAreStages(cfg, st);
      var events := PlanOf(cfg, phase);
      r := runs.Update(runs.run.(phase := if phase == PhaseA then AtPhaseA else AtPhaseB), Some(Running), None);
      if r.Err? {
        return;
      }
      ghost var before := sent;
      for n := 0 to |events|
        invariant forall e :: e in sent <==> e in before || e in events[..n]
        modifies this`sent
      {
        sent := sent + {events[n]};
        assert events[..n + 1] == events[..n] + [events[n]];
      }
      assert events[..|events|] == events;
    }

    /**
     One look at the counter. `drained` is the counter having reached its target, which in every
     reachable state means that each planned delivery of the phase has its row; it wins over the
     time-out, which needs the last allowed iteration.
     */
    method CheckDrain(phase: Phase, iteration: nat, ghost st: State) returns (d: Drain)
      ensures d.iteration == iteration + 1 && d.delivered == tables.tables.delivered
      ensures d.target == |PlannedBy(cfg, phase)|
      ensures d.drained <==> d.delivered >= d.target
      ensures d.timedOut <==> !d.drained && d.iteration >= cfg.maxDrain
      ensures ValidSetup(cfg) && Inv(cfg, st) && st.store == tables.tables ==>
                && d.delivered == |st.store.rows|
                && (d.drained <==> AllRecorded(st.store, PlannedBy(cfg, phase)))
      ensures st.store == tables.tables && st.stage == Draining(phase, iteration) ==>
                Do(cfg, st).stage == AfterDrain(phase, d)
    {
      var target := if phase == PhaseA then |cfg.planA| else |Plan(cfg)|;
      var delivered := tables.tables.delivered;
      var drained := delivered >= target;
      d := Drain(iteration + 1, delivered, target, drained, !drained && iteration + 1 >= cfg.maxDrain);
      if ValidSetup(cfg) && Inv(cfg, st) && st.store == tables.tables {
        DrainedIffRecorded(cfg, st);
      }
      DrainStage(cfg, st, phase, iteration, d);
    }

    /** Two reads, with others at work in between, then the recount. */
    method Recount() returns (r: Result<Report, FailureReason>, ghost effects: seq<Effect>, ghost rows: seq<Delivery>)
      requires tables.Valid()
      modifies tables`tables, tables`requests, tables`trace
      ensures tables.Valid() && |tables.trace| == |old(tables.trace)| + 2
      ensures effects == tables.trace[|old(tables.trace)|].seen.effects
      ensures rows == tables.trace[|old(tables.trace)| + 1].seen.rows
      ensures r == Recompute(cfg.eligible, effects, rows, cfg.budget, |Plan(cfg)|)
    {
      var read := tables.ListEffects();
      effects := read;
      var listed := tables.ListDeliveries();
      rows := listed;
      if |listed| != |Plan(cfg)| {
        return Err(InconsistentDeliveries), effects, rows;
      }
      return Ok(EvaluateRun(cfg.eligible, read, listed, cfg.budget)), effects, rows;
    }

    /**
     The two lists are those of two moments, with others at work in between. In the protocol the task
     begins in `first`, reads the rows in `second` and stores its report in `third`.
     */
    method Evaluate(ghost first: State, ghost second: State, ghost third: State)
      returns (r: Result<Run, FailureReason>, ghost effects: seq<Effect>, ghost rows: seq<Delivery>)
      requires Valid() && tables.Valid()
      modifies runs`run, tables`tables, tables`requests, tables`trace
      ensures r == EvaluateTask(cfg, old(runs.run), effects, rows)
      ensures OneAttempt(cfg, Stage.Evaluate(Begin), first, second, third)
                && old(runs.run) == first.run ==>
                if first.run.status != Running then EndsAs(cfg, first, r, Stage.GenerateReceipt(Begin))
                else effects == first.store.effects && rows == second.store.rows ==>
                  EndsAs(cfg, third, r, Stage.GenerateReceipt(Begin))
      ensures r.Ok? <==> old(runs.run.status) == Running && |rows| == |Plan(cfg)|
      ensures r.Ok? ==>
              runs.run == old(runs.run).(
                phase := Evaluating, report := Some(EvaluateRun(cfg.eligible, effects, rows, cfg.budget)))
      ensures r == Err(InconsistentDeliveries) <==> old(runs.run.status) == Running && |rows| != |Plan(cfg)|
      ensures r.Ok? ==> runs.run == r.value
      ensures r.Err? ==>
              runs.run == if old(runs.run.status) == Running then old(runs.run).(phase := Evaluating) else old(runs.run)
    {
      effects, rows := [], [];
      if OneAttempt(cfg, Stage.Evaluate(Begin), first, second, third) {
        EvaluateIsTask(cfg, first, second, third);
      }
      var marked := runs.Update(runs.run.(phase := Evaluating), Some(Running), None);
      if marked.Err? {
        return marked, effects, rows;
      }
      var recounted;
      recounted, effects, rows := Recount();
      if recounted.Err? {
        return Err(recounted.error), effects, rows;
      }
      r := runs.Update(runs.run.(report := Some(recounted.value)), Some(Running), None);
    }

    /** A retried task that finds the receipt written returns it without recomputing anything. */
    method GenerateReceipt(ghost first: State, ghost second: State, ghost third: State)
      returns (r: Result<Run, FailureReason>, ghost effects: seq<Effect>, ghost rows: seq<Delivery>)
      requires Valid() && tables.Valid()
      modifies runs`run, tables`tables, tables`requests, tables`trace
      ensures r == ReceiptTask(cfg, old(runs.run), effects, rows)
      ensures OneAttempt(cfg, Stage.GenerateReceipt(Begin), first, second, third)
                && old(runs.run) == first.run ==>
                if ReceiptWritten(first.run) then EndsAs(cfg, first, r, Stage.Complete)
                else effects == first.store.effects && rows == second.store.rows ==>
                  EndsAs(cfg, third, r, Stage.Complete)
      ensures runs.run == if r.Ok? then r.value else old(runs.run)
      ensures var was, report := old(runs.run), EvaluateRun(cfg.eligible, effects, rows, cfg.budget);
              if was.status == Completed && was.receipt.Some? then r == Ok(was)
              else
                && (r.Ok? <==>
                      && was.status == Running && |rows| == |Plan(cfg)|
                      && was.report.Some? && was.report.value.verdict == report.verdict)
                && (r.Ok? ==> runs.run == was.(status := Completed, phase := AtComplete, receipt := Some(report)))
      ensures ReceiptWritten(old(runs.run)) ==> tables.tables == old(tables.tables)
    {
      effects, rows := [], [];
      if OneAttempt(cfg, Stage.GenerateReceipt(Begin), first, second, third) {
        ReceiptIsTask(cfg, first, second, third);
      }
      if ReceiptWritten(runs.run) {
        return Ok(runs.run), effects, rows;
      }
      var recounted;
      recounted, effects, rows := Recount();
      if recounted.Err? {
        return Err(recounted.error), effects, rows;
      }
      if runs.run.report.None? || runs.run.report.value.verdict != recounted.value.verdict {
        return Err(TaskError), effects, rows;
      }
      r := runs.Update(runs.run.(status := Completed, phase := AtComplete, receipt := Some(recounted.value)),
        Some(Running), None);
    }

    /** The Race Lab's last step counts what the copies did, from the ledger and the rows. */
    method FinishRace(copies: nat, amount: int) returns (result: RaceResult)
      requires tables.Valid()
      modifies tables`tables, tables`requests, tables`trace
      ensures tables.Valid() && |tables.trace| == |old(tables.trace)| + 2
      ensures var t, n := tables.trace, |old(tables.trace)|;
              result == NaiveRace.FinishRace(copies, amount, t[n].seen.effects, t[n + 1].seen.rows)
    {
      var effects := tables.ListEffects();
      var rows := tables.ListDeliveries();
      var suppressed := 0;
      for n := 0 to |rows|
        invariant suppressed == CountOutcome(rows[..n], DuplicateSuppressed)
      {
        assert rows[..n + 1][..n] == rows[..n];
        if rows[n].outcome == DuplicateSuppressed {
          suppressed := suppressed + 1;
        }
      }
      assert rows[..|rows|] == rows;
      var payments := |effects|;
      var extra := if payments > 1 then payments - 1 else 0;
      result := RaceResult(copies, |rows|, payments, suppressed, extra, extra * amount, if payments == 1 then Pass
        else Fail);
    }

    /** Records why the workflow stopped, unless the run is COMPLETED. */
    method MarkFailed(error: TaskFailure, ghost st: State) returns (recorded: bool)
      requires Valid()
      modifies runs`run
      ensures old(Shows(st)) && st.stage == Stage.MarkFailed(ReasonFor(error)) ==> Shows(Do(cfg, st))
      ensures runs.run == FailRun(old(runs.run), ReasonFor(error))
      ensures recorded <==> old(runs.run.status) != Completed
      ensures recorded ==> runs.run.status == Failed && runs.run.phase == AtFailed
      ensures recorded ==>
                match runs.run.failure
                case Some(DrainTimeout) => error.name == "DRAIN_TIMEOUT"
                case Some(InconsistentDeliveries) => error.name == "InconsistentDeliveriesError"
                case Some(TaskError) => error.name != "DRAIN_TIMEOUT" && error.name != "InconsistentDeliveriesError"
                case _ => false
      ensures !recorded ==> runs.run == old(runs.run)
    {
      TasksAreStages(cfg, st);
      var reason := ReasonFor(error);
      var r := runs.Update(runs.run.(status := Failed, phase := AtFailed, failure := Some(reason)), None,
        Some(Completed));
      recorded := r.Ok?;
    }
  }

  // --- The tasks are the transitions -------------------------------------------------------------------

  /** Three states in which the requests of one task attempt meet the protocol; between them only others act. */
  ghost predicate OneAttempt(cfg: Setup, begin: Stage, first: State, second: State, third: State) {
    && first.stage == begin
    && second.stage == Do(cfg, first).stage && second.run == Do(cfg, first).run
    && third.stage == Do(cfg, second).stage && third.run == second.run
  }

  /** How a task that was begun in `first` leaves the protocol. */
  ghost predicate EndsAs(cfg: Setup, st: State, task: Result<Run, FailureReason>, next: Stage) {
    && (task.Ok? ==> Do(cfg, st).run == task.value && Do(cfg, st).stage == next)
    && (task.Err? ==> Do(cfg, st).run == st.run && Do(cfg, st).stage == Stage.MarkFailed(task.error))
  }

  /** The three requests of Evaluate, with anything happening to the tables in between, are the task. */
  lemma EvaluateIsTask(cfg: Setup, first: State, second: State, third: State)
    requires OneAttempt(cfg, Stage.Evaluate(Begin), first, second, third)
    ensures first.run.status == Running ==>
              EndsAs(cfg, third, EvaluateTask(cfg, first.run, first.store.effects, second.store.rows),
                     Stage.GenerateReceipt(Begin))
    ensures first.run.status != Running ==>
              EndsAs(cfg, first, EvaluateTask(cfg, first.run, [], []), Stage.GenerateReceipt(Begin))
  {
  }

  lemma ReceiptIsTask(cfg: Setup, first: State, second: State, third: State)
    requires OneAttempt(cfg, Stage.GenerateReceipt(Begin), first, second, third)
    ensures !ReceiptWritten(first.run) ==>
              EndsAs(cfg, third, ReceiptTask(cfg, first.run, first.store.effects, second.store.rows), Stage.Complete)
    ensures ReceiptWritten(first.run) ==>
              EndsAs(cfg, first, ReceiptTask(cfg, first.run, [], []), Stage.Complete)
  {
  }

  /** InitRun, InjectPhase and MarkFailed do what their stages do. */
  lemma TasksAreStages(cfg: Setup, st: State)
    ensures st.stage == Stage.InitRun ==>
              && Do(cfg, st).run == (if StartRun(st.run).Ok? then StartRun(st.run).value else st.run)
              && Do(cfg, st).store == (if st.run.status == Queued then Reset(st.store, cfg.budget) else st.store)
              && (StartRun(st.run).Ok? <==> Do(cfg, st).stage == InjectA(false))
    ensures forall phase :: st.stage == Injecting(phase, false) ==> InjectionMarks(cfg, st, phase)
    ensures st.stage.MarkFailed? ==>
              Do(cfg, st).run == FailRun(st.run, st.stage.reason) && Do(cfg, st).store == st.store
  {
    forall phase | st.stage == Injecting(phase, false) ensures InjectionMarks(cfg, st, phase) {
      assert phase == PhaseA || phase == PhaseB;
    }
  }

  ghost predicate InjectionMarks(cfg: Setup, st: State, phase: Phase) {
    var r := EnterPhase(st.run, if phase == PhaseA then AtPhaseA else AtPhaseB);
    && Do(cfg, st).run == (if r.Ok? then r.value else st.run) && Do(cfg, st).store == st.store
    && (r.Ok? <==> Do(cfg, st).stage == Injecting(phase, true))
    && (r.Ok? ==> if phase == PhaseA then Do(cfg, st).openA else Do(cfg, st).openB)
  }

  function Injecting(phase: Phase, marked: bool): Stage {
    if phase == PhaseA then InjectA(marked) else InjectB(marked)
  }

  function Draining(phase: Phase, iteration: nat): Stage {
    if phase == PhaseA then DrainA(iteration) else DrainB(iteration)
  }

  /** The next phase, the failure task, or another look. */
  function AfterDrain(phase: Phase, d: Drain): Stage {
    if d.drained then (if phase == PhaseA then InjectB(false) else Stage.Evaluate(Begin))
    else if d.timedOut then Stage.MarkFailed(DrainTimeout)
    else Draining(phase, d.iteration)
  }

  lemma DrainStage(cfg: Setup, st: State, phase: Phase, iteration: nat, d: Drain)
    requires d == Workflow.CheckDrain(d.delivered, |PlannedBy(cfg, phase)|, iteration, cfg.maxDrain)
    ensures st.store.delivered == d.delivered && st.stage == Draining(phase, iteration) ==>
              Do(cfg, st).stage == AfterDrain(phase, d)
  {
  }

  /** What must be recorded before a phase is drained. */
  function PlannedBy(cfg: Setup, phase: Phase): seq<Event> {
    if phase == PhaseA then cfg.planA else Plan(cfg)
  }

  /** The counter has reached a target exactly when every planned delivery up to it is recorded. */
  lemma DrainedIffRecorded(cfg: Setup, st: State)
    requires ValidSetup(cfg) && Inv(cfg, st)
    ensures st.store.delivered >= |cfg.planA| <==> AllRecorded(st.store, cfg.planA)
    ensures st.store.delivered >= |Plan(cfg)| <==> AllRecorded(st.store, Plan(cfg))
    ensures st.store.delivered == |st.store.rows|
  {
    if st.store.delivered >= |cfg.planA| {
      DrainedA(cfg, st);
    }
    DrainedB(cfg, st);
    PlanADistinct(cfg);
    if AllRecorded(st.store, cfg.planA) {
      AllRecordedCounts(st, cfg.planA);
    }
    if AllRecorded(st.store, Plan(cfg)) {
      AllRecordedCounts(st, Plan(cfg));
    }
  }
}
