/**
 How a workflow goes on to its end when nobody gets in its way: for every processor, from every state
 whose stored and seen verdicts fit each other.
 */
module Completion {
  import opened Domain
  import opened Accounts
  import opened Storage
  import opened Evaluator
  import opened Workflow
  import opened Protocol
  import opened Invariants
  import opened Reach
  import L = Lifecycle

  // --- Verdicts --------------------------------------------------------------------------------------

  /** What a PASS says of a ledger, without its rows. */
  ghost predicate Passes(cfg: Setup, effects: seq<Effect>) {
    && (forall i :: 0 <= i < |cfg.eligible| ==> Payments(effects)[cfg.eligible[i].key] == 1)
    && Spent(effects) <= cfg.budget
  }

  lemma PassesIsVerdict(cfg: Setup, effects: seq<Effect>, rows: seq<Delivery>)
    ensures EvaluateRun(cfg.eligible, effects, rows, cfg.budget).verdict == Pass <==> Passes(cfg, effects)
  {
    VerdictByKey(cfg.eligible, effects, rows, cfg.budget);
  }

  /** The payments a task has read so far. */
  function Seen(at: Progress): Option<seq<Effect>> {
    match at
    case Begin => None
    case SawEffects(effects) => Some(effects)
    case SawRows(effects, _) => Some(effects)
  }

  /** The stored report says PASS. */
  predicate Reported(run: Run) {
    run.report.Some? && run.report.value.verdict == Pass
  }

  // --- All that is known of a reachable state, whatever the processor ----------------------------------

  ghost predicate Sound(cfg: Setup, st: State) {
    Inv(cfg, st) && L.LifeInv(cfg, st) && L.Opened(st)
  }

  lemma StepSound(cfg: Setup, st: State, l: Label)
    requires ValidSetup(cfg) && Sound(cfg, st) && Enabled(cfg, st, l)
    ensures Sound(cfg, Step(cfg, st, l))
  {
    StepInv(cfg, st, l);
    L.StepLife(cfg, st, l);
    L.StepOpened(cfg, st, l);
  }

  lemma RunSound(cfg: Setup, states: seq<State>, labels: seq<Label>, n: nat)
    requires ValidSetup(cfg) && IsRun(cfg, states, labels) && n < |states|
    ensures Sound(cfg, states[n])
  {
    L.RunLife(cfg, states, labels, n);
    L.RunOpened(cfg, states, labels, n);
  }

  lemma {:induction false} PathSound(cfg: Setup, careful: bool, st: State, labels: seq<Label>, end: State)
    requires ValidSetup(cfg) && Sound(cfg, st) && Path(cfg, careful, st, labels, end)
    ensures Sound(cfg, end)
    decreases |labels|
  {
    if labels != [] {
      StepSound(cfg, st, labels[0]);
      PathSound(cfg, careful, Step(cfg, st, labels[0]), labels[1..], end);
    }
  }

  ghost predicate SoundStart(cfg: Setup, start: State) {
    ValidSetup(cfg) && Sound(cfg, start)
  }

  lemma SoundAt(cfg: Setup, careful: bool, start: State, st: State)
    requires SoundStart(cfg, start) && CanReach(cfg, careful, start, st)
    ensures Sound(cfg, st)
  {
    var labels :| Path(cfg, careful, start, labels, st);
    PathSound(cfg, careful, start, labels, st);
  }

  // --- Preparing a stage ---------------------------------------------------------------------------------

  predicate NotFailed(st: State) {
    !st.stage.MarkFailed? && !st.stage.RunFailed? && st.run.status != Failed
  }

  /** What the current stage waits for has happened. */
  ghost predicate Prepared(cfg: Setup, st: State) {
    && Ready(cfg, st)
    && (st.stage.DrainA? ==> st.store.delivered >= |cfg.planA|)
    && (st.stage.DrainB? ==> st.store.delivered >= |Plan(cfg)|)
  }

  lemma BothRecorded(cfg: Setup, s: Store)
    requires AllRecorded(s, cfg.planA) && AllRecorded(s, cfg.planB)
    ensures AllRecorded(s, Plan(cfg))
  {
    forall i | 0 <= i < |Plan(cfg)| ensures Recorded(s, Plan(cfg)[i].deliveryId) {
      assert Plan(cfg)[i] == if i < |cfg.planA| then cfg.planA[i] else cfg.planB[i - |cfg.planA|];
    }
  }

  /** Sending and delivering everything of one phase drains it. */
  lemma Drained(cfg: Setup, st: State)
    requires ValidSetup(cfg) && Inv(cfg, st)
    ensures st.stage.DrainA? && AllRecorded(st.store, cfg.planA) ==> st.store.delivered >= |cfg.planA|
    ensures st.stage.DrainB? && AllRecorded(st.store, cfg.planB) ==> st.store.delivered >= |Plan(cfg)|
  {
    if st.stage.DrainA? && AllRecorded(st.store, cfg.planA) {
      PlanADistinct(cfg);
      AllRecordedCounts(st, cfg.planA);
    }
    if st.stage.DrainB? && AllRecorded(st.store, cfg.planB) {
      BothRecorded(cfg, st.store);
      AllRecordedCounts(st, Plan(cfg));
    }
  }

  function PhaseEvents(cfg: Setup, stage: Stage): seq<Event> {
    match stage
    case InjectA(_) => cfg.planA
    case DrainA(_) => cfg.planA
    case InjectB(_) => cfg.planB
    case DrainB(_) => cfg.planB
    case _ => []
  }

  ghost predicate PhaseOpen(st: State) {
    && (st.stage.InjectA? || st.stage.DrainA? ==> st.openA)
    && (st.stage.InjectB? || st.stage.DrainB? ==> st.openB)
  }

  lemma SendPhase(cfg: Setup, careful: bool, start: State, st: State) returns (st': State)
    requires CanReach(cfg, careful, start, st) && Idle(careful, st) && PhaseOpen(st)
    ensures CanReach(cfg, careful, start, st') && Idle(careful, st') && L.SameTask(st, st')
    ensures forall e :: e in PhaseEvents(cfg, st.stage) ==> e in st'.sent
  {
    st' := st;
    if st.stage.InjectA? || st.stage.DrainA? || st.stage.InjectB? || st.stage.DrainB? {
      st' := SendAll(cfg, careful, start, st, PhaseEvents(cfg, st.stage));
    }
  }

  lemma Prepare(cfg: Setup, careful: bool, start: State, st: State) returns (st': State)
    requires SoundStart(cfg, start) && CanReach(cfg, careful, start, st) && Idle(careful, st) && PhaseOpen(st)
    ensures CanReach(cfg, careful, start, st') && Idle(careful, st') && L.SameTask(st, st') && Prepared(cfg, st')
  {
    var sent := SendPhase(cfg, careful, start, st);
    st' := RedeliverAll(cfg, careful, start, sent, PhaseEvents(cfg, st.stage));
    SoundAt(cfg, careful, start, st');
    Drained(cfg, st');
  }

  // --- The tasks that evaluate -----------------------------------------------------------------------------

  /** Each request of Evaluate, once all is recorded. */
  lemma EvaluateStep(cfg: Setup, st: State)
    requires L.LifeInv(cfg, st) && st.stage.Evaluate? && st.run.status == Running
    ensures var st', at := Do(cfg, st), st.stage.at;
            && st'.store == st.store
            && (at == Begin ==>
                  && st'.stage == Evaluate(SawEffects(st.store.effects)) && st'.retries == st.retries
                  && st'.run == st.run.(phase := Evaluating))
            && (at.SawEffects? ==> st' == st.(stage := Evaluate(SawRows(at.effects, st.store.rows))))
            && (at.SawRows? ==>
                  && st'.stage == GenerateReceipt(Begin) && st'.run.status == Running
                  && st'.run.receipt == st.run.receipt
                  && st'.run.report == Some(EvaluateRun(cfg.eligible, at.effects, at.rows, cfg.budget)))
  {
  }

  /** Each request of GenerateReceipt, on a run that is not completed yet. */
  lemma ReceiptStep(cfg: Setup, st: State)
    requires L.LifeInv(cfg, st) && st.stage.GenerateReceipt? && st.run.status == Running
    ensures var st', at := Do(cfg, st), st.stage.at;
            && st'.store == st.store
            && (at == Begin ==> st' == st.(stage := GenerateReceipt(SawEffects(st.store.effects))))
            && (at.SawEffects? ==> st' == st.(stage := GenerateReceipt(SawRows(at.effects, st.store.rows))))
            && (at.SawRows? ==>
                  var r := EvaluateRun(cfg.eligible, at.effects, at.rows, cfg.budget);
                  if r.verdict == st.run.report.value.verdict then st'.stage == Complete && st'.run.status == Completed
                  else st'.stage == MarkFailed(TaskError) && st'.run == st.run)
  {
  }

  /** Stored and seen verdicts are those of the ledger as it is; a finished reading fits what is stored. */
  ghost predicate Fits(cfg: Setup, st: State) {
    && (st.stage.Evaluate? && st.stage.at != Begin ==>
          (Passes(cfg, Seen(st.stage.at).value) <==> Passes(cfg, st.store.effects)))
    && (st.stage.GenerateReceipt? && st.run.status == Running ==>
          (Reported(st.run) <==>
             Passes(cfg, if st.stage.at == Begin then st.store.effects else Seen(st.stage.at).value)))
  }

  /** Reading and storing keeps the fit, and does not fail. */
  lemma EvaluateFits(cfg: Setup, st: State)
    requires L.LifeInv(cfg, st) && st.stage.Evaluate? && NotFailed(st) && Fits(cfg, st)
    requires |st.store.rows| == |Plan(cfg)|
    ensures NotFailed(Do(cfg, st)) && Fits(cfg, Do(cfg, st))
  {
    var at := st.stage.at;
    EvaluateStep(cfg, st);
    if at.SawRows? {
      PassesIsVerdict(cfg, at.effects, at.rows);
    }
  }

  lemma ReceiptFits(cfg: Setup, st: State)
    requires L.LifeInv(cfg, st) && st.stage.GenerateReceipt? && NotFailed(st) && Fits(cfg, st)
    requires |st.store.rows| == |Plan(cfg)|
    ensures NotFailed(Do(cfg, st)) && Fits(cfg, Do(cfg, st))
  {
    var at := st.stage.at;
    if st.run.status == Running {
      ReceiptStep(cfg, st);
      if at.SawRows? {
        PassesIsVerdict(cfg, at.effects, at.rows);
      }
    } else {
      L.ReceiptLife(cfg, st);
    }
  }

  lemma TaskSucceeds(cfg: Setup, st: State)
    requires L.LifeInv(cfg, st) && Prepared(cfg, st) && NotFailed(st)
    requires !st.stage.Evaluate? && !st.stage.GenerateReceipt? && !st.stage.Complete?
    ensures NotFailed(Do(cfg, st)) && Fits(cfg, Do(cfg, st))
  {
    L.TaskReports(cfg, st);
    TaskUnfailed(cfg, st);
  }

  lemma TaskUnfailed(cfg: Setup, st: State)
    requires L.LifeInv(cfg, st) && Prepared(cfg, st) && NotFailed(st)
    requires !st.stage.Evaluate? && !st.stage.GenerateReceipt? && !st.stage.Complete?
    ensures NotFailed(Do(cfg, st))
  {
    if Injects(st.stage) {
      InjectTask(cfg, st);
    } else if !Drains(st.stage) {
      OtherTask(cfg, st);
    }
  }

  /** A prepared stage does not fail. */
  lemma PreparedSucceeds(cfg: Setup, st: State)
    requires ValidSetup(cfg) && Inv(cfg, st) && L.LifeInv(cfg, st)
    requires NotFailed(st) && Fits(cfg, st) && Prepared(cfg, st) && !st.stage.Complete?
    ensures NotFailed(Do(cfg, st)) && Fits(cfg, Do(cfg, st))
  {
    if PastB(st.stage) {
      RowsAreThePlan(cfg, st);
    }
    if st.stage.Evaluate? {
      EvaluateFits(cfg, st);
    } else if st.stage.GenerateReceipt? {
      ReceiptFits(cfg, st);
    } else {
      TaskSucceeds(cfg, st);
    }
  }

  // --- To the end --------------------------------------------------------------------------------------------

  /** One step of the workflow, after everything it waits for. */
  lemma Onward(cfg: Setup, careful: bool, start: State, st: State) returns (st': State)
    requires SoundStart(cfg, start) && CanReach(cfg, careful, start, st) && Idle(careful, st)
    requires NotFailed(st) && Fits(cfg, st) && !st.stage.Complete?
    ensures CanReach(cfg, careful, start, st') && Idle(careful, st') && st'.starting == st.starting
    ensures NotFailed(st') && Fits(cfg, st') && L.WorkLeft(cfg, st') < L.WorkLeft(cfg, st)
  {
    SoundAt(cfg, careful, start, st);
    if PhaseOpen(st) && !PastB(st.stage) {
      var mid := Prepare(cfg, careful, start, st);
      st' := AdvanceTask(cfg, careful, start, mid);
    } else {
      st' := AdvanceTask(cfg, careful, start, st);
    }
  }

  lemma TaskKeepsIdle(cfg: Setup, careful: bool, st: State)
    requires Inv(cfg, st) && Idle(careful, st) && CanMove(cfg, st, Advance)
    ensures Idle(careful, Step(cfg, st, Task(Advance))) && Step(cfg, st, Task(Advance)).starting == st.starting
  {
    TaskFrame(cfg, st, Advance);
  }

  lemma AdvanceTask(cfg: Setup, careful: bool, start: State, st: State) returns (st': State)
    requires SoundStart(cfg, start) && CanReach(cfg, careful, start, st) && Idle(careful, st)
    requires NotFailed(st) && Fits(cfg, st) && !st.stage.Complete? && Prepared(cfg, st)
    ensures CanReach(cfg, careful, start, st') && Idle(careful, st') && st'.starting == st.starting
    ensures NotFailed(st') && Fits(cfg, st') && L.WorkLeft(cfg, st') < L.WorkLeft(cfg, st)
  {
    SoundAt(cfg, careful, start, st);
    PreparedSucceeds(cfg, st);
    TaskKeepsIdle(cfg, careful, st);
    L.StepProgress(cfg, st, Task(Advance));
    st' := Go(cfg, careful, start, st, Task(Advance));
  }

  /** From a state that fits, the workflow completes. */
  lemma {:induction false} CompleteFrom(cfg: Setup, careful: bool, start: State, st: State) returns (end: State)
    requires SoundStart(cfg, start) && CanReach(cfg, careful, start, st) && Idle(careful, st)
    requires NotFailed(st) && Fits(cfg, st)
    ensures CanReach(cfg, careful, start, end) && end.stage.Complete? && NotFailed(end) && end.starting == st.starting
    decreases L.WorkLeft(cfg, st)
  {
    if st.stage.Complete? {
      end := st;
    } else {
      var next := Onward(cfg, careful, start, st);
      end := CompleteFrom(cfg, careful, start, next);
    }
  }
}
