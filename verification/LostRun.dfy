/**
 Exactly which reachable states can no longer complete, for every processor: those whose workflow has
 failed, and those that have stored, or are bound to store, a FAIL on a ledger that passes by now.
 */
module LostRun {
  import opened Domain
  import opened Accounts
  import opened Storage
  import opened Machine
  import opened Evaluator
  import opened Workflow
  import opened Protocol
  import opened Invariants
  import opened Reach
  import opened Completion
  import L = Lifecycle

  /**
   The receipt task will recompute PASS, which is final, but the stored verdict is FAIL, or will be:
   the evaluation is on its last attempt and has read a ledger that did not pass yet.
   */
  ghost predicate Doomed(cfg: Setup, st: State) {
    && st.run.status == Running && Passes(cfg, st.store.effects)
    && match st.stage
       case Evaluate(at) => st.retries == 0 && at != Begin && !Passes(cfg, Seen(at).value)
       case GenerateReceipt(at) => !Reported(st.run) && (at == Begin || Passes(cfg, Seen(at).value))
       case _ => false
  }

  /** Not completed, and failed or doomed. */
  ghost predicate Lost(cfg: Setup, st: State) {
    st.run.status != Completed && (!NotFailed(st) || Doomed(cfg, st))
  }

  // --- A ledger that passes does not grow --------------------------------------------------------------

  lemma PassingIsFull(cfg: Setup, st: State, effects: seq<Effect>)
    requires ValidSetup(cfg) && FullBudget(cfg) && Provenance(cfg, st)
    requires effects <= st.store.effects && Passes(cfg, effects)
    ensures Spent(effects) >= cfg.budget
    ensures forall i :: 0 <= i < |st.store.effects| ==> st.store.effects[i].amount >= 1
  {
    LedgerIsOwed(cfg, st);
    assert HonestLedger(cfg.eligible, effects);
    LedgerByKey(cfg.eligible, effects);
    PaidOnceIsOwed(cfg.eligible, Payments(effects));
  }

  lemma {:induction false} LongerSpendsMore(xs: seq<Effect>, ys: seq<Effect>)
    requires xs <= ys && forall i :: 0 <= i < |ys| ==> ys[i].amount >= 1
    ensures Spent(xs) <= Spent(ys) && (Spent(xs) == Spent(ys) ==> xs == ys)
    decreases |ys|
  {
    if |xs| == |ys| {
      assert xs == ys;
    } else {
      var n := |ys| - 1;
      assert forall i :: 0 <= i < n ==> ys[..n][i] == ys[i];
      LongerSpendsMore(xs, ys[..n]);
      SpentAppend(ys[..n], ys[n]);
      assert ys == ys[..n] + [ys[n]];
    }
  }

  /** What passed is all there is: the whole budget is in it. */
  lemma PassingIsAll(cfg: Setup, st: State, effects: seq<Effect>)
    requires ValidSetup(cfg) && FullBudget(cfg) && Inv(cfg, st)
    requires effects <= st.store.effects && Passes(cfg, effects)
    ensures effects == st.store.effects
  {
    PassingIsFull(cfg, st, effects);
    LongerSpendsMore(effects, st.store.effects);
    UnwrittenNonNegative(cfg, st);
  }

  // --- What was read and stored ---------------------------------------------------------------------------

  predicate Reads(stage: Stage) {
    stage.Evaluate? || stage.GenerateReceipt?
  }

  /** While a run is RUNNING: what was read is a part of the ledger, and a PASS that was stored or read is still one. */
  ghost predicate Traced(cfg: Setup, st: State) {
    st.run.status == Running ==>
      && (Reads(st.stage) && st.stage.at != Begin ==> Seen(st.stage.at).value <= st.store.effects)
      && (Reported(st.run) ==> Passes(cfg, st.store.effects))
      && (st.stage.GenerateReceipt? && st.stage.at != Begin && Reported(st.run) ==>
            Passes(cfg, Seen(st.stage.at).value))
  }

  lemma EffectsGrow(s: Store, w: Worker, r: Reply)
    ensures s.effects <= StoreAfter(s, w, r).effects
  {
  }

  lemma WorkersTraced(cfg: Setup, st: State, st': State)
    requires ValidSetup(cfg) && FullBudget(cfg) && Inv(cfg, st') && Traced(cfg, st)
    requires L.SameTask(st, st') && st.store.effects <= st'.store.effects
    ensures Traced(cfg, st')
  {
    if Passes(cfg, st.store.effects) {
      PassingIsAll(cfg, st', st.store.effects);
    }
  }

  lemma EvaluateTraced(cfg: Setup, st: State)
    requires ValidSetup(cfg) && FullBudget(cfg) && Sound(cfg, st) && Traced(cfg, st)
    requires st.stage.Evaluate? && st.run.status == Running
    ensures Traced(cfg, Do(cfg, st)) && Do(cfg, st).store == st.store
  {
    var at := st.stage.at;
    EvaluateStep(cfg, st);
    if at.SawRows? {
      PassesIsVerdict(cfg, at.effects, at.rows);
      if Passes(cfg, at.effects) {
        PassingIsAll(cfg, st, at.effects);
      }
    }
  }

  lemma ReceiptTraced(cfg: Setup, st: State)
    requires L.LifeInv(cfg, st) && Traced(cfg, st) && st.stage.GenerateReceipt? && st.run.status == Running
    ensures Traced(cfg, Do(cfg, st)) && Do(cfg, st).store == st.store
  {
    ReceiptStep(cfg, st);
  }

  lemma TaskTraced(cfg: Setup, st: State)
    requires Inv(cfg, st) && L.LifeInv(cfg, st) && Traced(cfg, st) && !Reads(st.stage)
    ensures Traced(cfg, Do(cfg, st)) && Do(cfg, st).store == st.store
  {
    ResetIsIdentity(cfg, st);
    DoFrame(cfg, st);
    L.TaskReports(cfg, st);
    L.DoStatus(cfg, st);
  }

  lemma DoTraced(cfg: Setup, st: State)
    requires ValidSetup(cfg) && FullBudget(cfg) && Sound(cfg, st) && Traced(cfg, st)
    ensures Traced(cfg, Do(cfg, st)) && Do(cfg, st).store == st.store
  {
    if !Reads(st.stage) {
      TaskTraced(cfg, st);
    } else if st.run.status != Running {
      ReadTask(cfg, st);
      L.DoStatus(cfg, st);
    } else if st.stage.Evaluate? {
      EvaluateTraced(cfg, st);
    } else {
      ReceiptTraced(cfg, st);
    }
  }

  lemma MoveTraced(cfg: Setup, st: State, m: Move)
    requires Traced(cfg, st) && Traced(cfg, Do(cfg, st)) && Do(cfg, st).store == st.store
    ensures Traced(cfg, Moved(cfg, st, m))
  {
    match m
    case Advance =>
    case Retry(applied) => LaterTraced(cfg, if applied then Do(cfg, st) else st, Moved(cfg, st, m));
    case Catch(applied) => LaterTraced(cfg, if applied then Do(cfg, st) else st, Moved(cfg, st, m));
  }

  /** A task that starts again, or is given up, has read nothing yet. */
  lemma LaterTraced(cfg: Setup, st: State, st': State)
    requires Traced(cfg, st) && st' == st.(stage := st'.stage, retries := st'.retries)
    requires Reads(st'.stage) ==> st'.stage.at == Begin
    ensures Traced(cfg, st')
  {
  }

  lemma StepTraced(cfg: Setup, st: State, l: Label)
    requires ValidSetup(cfg) && FullBudget(cfg) && Sound(cfg, st) && Traced(cfg, st) && Enabled(cfg, st, l)
    ensures Traced(cfg, Step(cfg, st, l))
  {
    match l
    case Task(m) => DoTraced(cfg, st); MoveTraced(cfg, st, m);
    case StartReturns(_) =>
    case Request(i, r) =>
      RequestInv(cfg, st, i, r);
      EffectsGrow(st.store, st.workers[i], r);
      WorkersTraced(cfg, st, Requested(cfg, st, i, r));
    case _ => L.WorkersLeaveTask(cfg, st, l);
  }

  lemma {:induction false} RunTraced(cfg: Setup, states: seq<State>, labels: seq<Label>, n: nat)
    requires ValidSetup(cfg) && FullBudget(cfg) && IsRun(cfg, states, labels) && n < |states|
    ensures Traced(cfg, states[n])
  {
    if n > 0 {
      RunTraced(cfg, states, labels, n - 1);
      RunSound(cfg, states, labels, n - 1);
      StepTraced(cfg, states[n - 1], labels[n - 1]);
    }
  }

  // --- Lost for good --------------------------------------------------------------------------------------------

  lemma EvaluateStaysDoomed(cfg: Setup, st: State)
    requires L.LifeInv(cfg, st) && Doomed(cfg, st) && st.stage.Evaluate?
    ensures Lost(cfg, Do(cfg, st))
  {
    var at := st.stage.at;
    EvaluateStep(cfg, st);
    if at.SawRows? {
      PassesIsVerdict(cfg, at.effects, at.rows);
    }
  }

  lemma ReceiptStaysDoomed(cfg: Setup, st: State)
    requires L.LifeInv(cfg, st) && Doomed(cfg, st) && st.stage.GenerateReceipt?
    ensures Lost(cfg, Do(cfg, st)) && Do(cfg, st).run == st.run && Do(cfg, st).store == st.store
  {
    var at := st.stage.at;
    ReceiptStep(cfg, st);
    if at.SawRows? {
      PassesIsVerdict(cfg, at.effects, at.rows);
    }
  }

  lemma MoveStaysLost(cfg: Setup, st: State, m: Move)
    requires L.LifeInv(cfg, st) && Lost(cfg, st) && CanMove(cfg, st, m)
    ensures Lost(cfg, Moved(cfg, st, m))
  {
    if !NotFailed(st) {
      FailedStays(cfg, st, m);
    } else if st.stage.Evaluate? {
      EvaluateStaysDoomed(cfg, st);
      CaughtStays(cfg, st, m);
    } else {
      ReceiptStaysDoomed(cfg, st);
      CaughtStays(cfg, st, m);
    }
  }

  /** A failed workflow, or a FAILED run, does not complete any more. */
  lemma FailedStays(cfg: Setup, st: State, m: Move)
    requires CanMove(cfg, st, m) && !NotFailed(st) && st.run.status != Completed
    ensures !NotFailed(Moved(cfg, st, m)) && Moved(cfg, st, m).run.status != Completed
  {
    L.DoStatus(cfg, st);
    if st.stage.MarkFailed? {
      OtherTask(cfg, st);
    }
  }

  /** What a doomed task does with its retries. */
  lemma CaughtStays(cfg: Setup, st: State, m: Move)
    requires Doomed(cfg, st) && CanMove(cfg, st, m) && Lost(cfg, Do(cfg, st))
    requires st.stage.GenerateReceipt? ==> Do(cfg, st).run == st.run && Do(cfg, st).store == st.store
    ensures Lost(cfg, Moved(cfg, st, m))
  {
  }

  lemma StepStaysLost(cfg: Setup, st: State, l: Label)
    requires ValidSetup(cfg) && FullBudget(cfg) && Sound(cfg, st) && Lost(cfg, st) && Enabled(cfg, st, l)
    ensures Lost(cfg, Step(cfg, st, l))
  {
    match l
    case Task(m) => MoveStaysLost(cfg, st, m);
    case StartReturns(_) =>
    case _ =>
      L.WorkersLeaveTask(cfg, st, l);
      if Doomed(cfg, st) {
        PassesIsVerdict(cfg, st.store.effects, []);
        PassIsFinal(cfg, st, [], l);
      }
  }

  lemma {:induction false} PathStaysLost(cfg: Setup, st: State, labels: seq<Label>, end: State)
    requires ValidSetup(cfg) && FullBudget(cfg) && Sound(cfg, st) && Lost(cfg, st)
    requires Path(cfg, false, st, labels, end)
    ensures Lost(cfg, end)
    decreases |labels|
  {
    if labels != [] {
      StepSound(cfg, st, labels[0]);
      StepStaysLost(cfg, st, labels[0]);
      PathStaysLost(cfg, Step(cfg, st, labels[0]), labels[1..], end);
    }
  }

  // --- Everything else completes ----------------------------------------------------------------------------------

  /** An evaluation that has read too early can start again, as long as it has a retry left. */
  lemma ReadAgain(cfg: Setup, st: State) returns (st': State)
    requires SoundStart(cfg, st) && NotFailed(st) && st.stage.Evaluate? && st.retries > 0
    ensures CanReach(cfg, false, st, st') && NotFailed(st') && Fits(cfg, st')
  {
    ReachItself(cfg, false, st);
    st' := Go(cfg, false, st, st, Task(Retry(false)));
  }

  lemma FitsOrRetries(cfg: Setup, st: State)
    requires ValidSetup(cfg) && FullBudget(cfg) && Sound(cfg, st) && Traced(cfg, st)
    requires NotFailed(st) && !Doomed(cfg, st)
    ensures Fits(cfg, st) || (st.stage.Evaluate? && st.retries > 0)
  {
    if Reads(st.stage) && st.stage.at != Begin && st.run.status == Running && Passes(cfg, Seen(st.stage.at).value) {
      PassingIsAll(cfg, st, Seen(st.stage.at).value);
    }
  }

  lemma FindEnd(cfg: Setup, st: State) returns (end: State)
    requires ValidSetup(cfg) && FullBudget(cfg) && Sound(cfg, st) && Traced(cfg, st) && !Lost(cfg, st)
    ensures CanReach(cfg, false, st, end) && end.run.status == Completed
  {
    if st.run.status == Completed {
      ReachItself(cfg, false, st);
      end := st;
    } else {
      var from := FindFit(cfg, st);
      end := CompleteFrom(cfg, false, st, from);
      SoundAt(cfg, false, st, end);
    }
  }

  lemma FindFit(cfg: Setup, st: State) returns (from: State)
    requires ValidSetup(cfg) && FullBudget(cfg) && Sound(cfg, st) && Traced(cfg, st)
    requires NotFailed(st) && !Doomed(cfg, st)
    ensures CanReach(cfg, false, st, from) && NotFailed(from) && Fits(cfg, from)
  {
    FitsOrRetries(cfg, st);
    if Fits(cfg, st) {
      ReachItself(cfg, false, st);
      from := st;
    } else {
      from := ReadAgain(cfg, st);
    }
  }

  /**
   Exactly when a run can still complete, for every processor and every reachable state, whatever
   crashed, conflicted or overlaps: when it is not lost. A completed run has everything recorded.
   */
  lemma CompletesIff(cfg: Setup, states: seq<State>, labels: seq<Label>, n: nat)
    requires ValidSetup(cfg) && FullBudget(cfg) && IsRun(cfg, states, labels) && n < |states|
    ensures (exists end :: CanReach(cfg, false, states[n], end) && end.run.status == Completed)
            <==> !Lost(cfg, states[n])
    ensures forall end :: CanReach(cfg, false, states[n], end) && end.run.status == Completed ==>
              AllRecorded(end.store, Plan(cfg)) && end.run.receipt.Some?
  {
    RunSound(cfg, states, labels, n);
    RunTraced(cfg, states, labels, n);
    if !Lost(cfg, states[n]) {
      var end := FindEnd(cfg, states[n]);
    }
    forall end | CanReach(cfg, false, states[n], end) && end.run.status == Completed
      ensures !Lost(cfg, states[n]) && AllRecorded(end.store, Plan(cfg)) && end.run.receipt.Some?
    {
      SoundAt(cfg, false, states[n], end);
      if Lost(cfg, states[n]) {
        NeverFromLost(cfg, states[n], end);
      }
    }
  }

  lemma NeverFromLost(cfg: Setup, st: State, end: State)
    requires ValidSetup(cfg) && FullBudget(cfg) && Sound(cfg, st) && Lost(cfg, st) && CanReach(cfg, false, st, end)
    ensures end.run.status != Completed
  {
    var path :| Path(cfg, false, st, path, end);
    PathStaysLost(cfg, st, path, end);
  }
}
