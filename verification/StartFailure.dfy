/**
 The API call that starts a run (backend/src/services/run_service.py): when starting the
 workflow raises although the execution was accepted, the API marks the run FAILED without
 looking at its status. What that does to a run, and what the workflow does afterwards.
 */
module StartFailure {
  import opened Domain
  import opened Workflow
  import opened Protocol
  import opened Invariants
  import opened Reach
  import L = Lifecycle
  import Prog = Progress

  // --- Exactly when COMPLETED is final ---------------------------------------------------------

  ghost predicate StartFailsBetween(labels: seq<Label>, m: nat, n: nat)
    requires m <= n <= |labels|
  {
    exists i :: m <= i < n && L.StartFails(labels[i])
  }

  lemma BetweenGrows(labels: seq<Label>, m: nat, n: nat)
    requires m < n <= |labels|
    ensures StartFailsBetween(labels, m, n) <==> StartFailsBetween(labels, m, n - 1) || L.StartFails(labels[n - 1])
  {
  }

  /** What one step does to a terminal run. */
  predicate KeepsTerminal(run: Run, run': Run, l: Label) {
    && (run.status == Completed ==>
          (run'.status == Completed <==> !L.StartFails(l)) && (run' == run <==> !L.StartFails(l)))
    && (run.status == Failed ==> run'.status == Failed)
    && (L.IsTerminal(run.status) ==> L.IsTerminal(run'.status))
  }

  lemma TerminalStep(cfg: Setup, states: seq<State>, labels: seq<Label>, n: nat)
    requires IsRun(cfg, states, labels) && n < |labels|
    ensures KeepsTerminal(states[n].run, states[n + 1].run, labels[n])
  {
    if L.IsTerminal(states[n].run.status) {
      L.TerminalIsFinal(cfg, states[n], labels[n]);
    }
  }

  lemma {:induction false} TerminalChain(states: seq<State>, labels: seq<Label>, m: nat, n: nat)
    requires |states| == |labels| + 1 && m <= n < |states| && states[m].run.status == Completed
    requires forall i :: 0 <= i < |labels| ==> KeepsTerminal(states[i].run, states[i + 1].run, labels[i])
    ensures states[n].run.status == Completed <==> !StartFailsBetween(labels, m, n)
    ensures !StartFailsBetween(labels, m, n) ==> states[n].run == states[m].run
    ensures L.IsTerminal(states[n].run.status)
  {
    if m < n {
      TerminalChain(states, labels, m, n - 1);
      BetweenGrows(labels, m, n);
      assert KeepsTerminal(states[n - 1].run, states[n - 1 + 1].run, labels[n - 1]);
    }
  }

  /** A COMPLETED run stays COMPLETED, with the very same record, exactly as long as the API does not give up on it. */
  lemma CompletedIsFinalIff(cfg: Setup, states: seq<State>, labels: seq<Label>, m: nat, n: nat)
    requires IsRun(cfg, states, labels) && m <= n < |states| && states[m].run.status == Completed
    ensures states[n].run.status == Completed <==> !StartFailsBetween(labels, m, n)
    ensures !StartFailsBetween(labels, m, n) ==> states[n].run == states[m].run
    ensures L.IsTerminal(states[n].run.status)
  {
    forall i | 0 <= i < |labels| ensures KeepsTerminal(states[i].run, states[i + 1].run, labels[i]) {
      TerminalStep(cfg, states, labels, i);
    }
    TerminalChain(states, labels, m, n);
  }

  /**
   And the API can give up on it: every valid protected experiment, and every careful vulnerable
   one, has a run in which the update turns a COMPLETED run with its receipt into a FAILED one.
   */
  lemma CompletedThenFailed(cfg: Setup) returns (states: seq<State>, labels: seq<Label>, n: nat)
    requires ValidSetup(cfg) && FullBudget(cfg) && cfg.processor != Naive
    ensures IsRun(cfg, states, labels) && n + 1 == |labels| && L.StartFails(labels[n])
    ensures states[n].run.status == Completed && states[n].run.receipt.Some?
    ensures cfg.processor == Protected ==> states[n].run.receipt.value.verdict == Pass
    ensures states[n + 1].run == states[n].run.(status := Failed, phase := AtFailed, failure := Some(StartFailed))
  {
    var end := CanEnd(cfg);
    states, labels := RunTo(cfg, cfg.processor == Vulnerable, [Init(cfg)], [], end);
    n := |labels|;
    var l := StartReturns(true);
    states, labels := states + [Step(cfg, end, l)], labels + [l];
  }

  lemma CanEnd(cfg: Setup) returns (end: State)
    requires ValidSetup(cfg) && FullBudget(cfg) && cfg.processor != Naive
    ensures CanReach(cfg, cfg.processor == Vulnerable, Init(cfg), end) && end.starting
    ensures end.run.status == Completed && end.run.receipt.Some?
    ensures cfg.processor == Protected ==> end.run.receipt.value.verdict == Pass
  {
    if cfg.processor == Protected {
      end := Prog.ProtectedCanComplete(cfg, [Init(cfg)], [], 0);
    } else {
      end := Prog.VulnerableCanComplete(cfg, [Init(cfg)], [], 0);
    }
  }

  // --- What the workflow does with a FAILED run ---------------------------------------------------

  /** The next request writes the Run record, so it is guarded by QUEUED or RUNNING. */
  predicate WritesRun(stage: Stage) {
    || stage.InitRun? || stage == InjectA(false) || stage == InjectB(false)
    || (stage.Evaluate? && !stage.at.SawEffects?)
    || (stage.GenerateReceipt? && stage.at.SawRows?)
  }

  /**
   Such a request refuses, and the workflow turns to `mark_failed`; the record is untouched until then.
   That task replaces START_FAILED by its own reason.
   */
  lemma FailedRefuses(cfg: Setup, st: State)
    requires st.run.status == Failed
    ensures !st.stage.MarkFailed? ==> Do(cfg, st).run == st.run
    ensures WritesRun(st.stage) ==> Do(cfg, st).stage.MarkFailed?
    ensures Do(cfg, st).stage.Complete? ==> st.stage.Complete?
    ensures st.stage.MarkFailed? ==>
              && Do(cfg, st).run == st.run.(phase := AtFailed, failure := Some(st.stage.reason))
              && Do(cfg, st).stage == RunFailed
  {
    if Injects(st.stage) {
      InjectTask(cfg, st);
      assert st.stage == InjectA(false) || st.stage == InjectB(false) ==> Do(cfg, st).run == st.run;
    } else if Drains(st.stage) {
      DrainTask(cfg, st);
    } else if st.stage.Evaluate? {
      FailedEvaluate(cfg, st);
    } else if st.stage.GenerateReceipt? {
      FailedReceipt(cfg, st);
    } else {
      OtherTask(cfg, st);
    }
  }

  lemma FailedEvaluate(cfg: Setup, st: State)
    requires st.run.status == Failed && st.stage.Evaluate?
    ensures Do(cfg, st).run == st.run && !Do(cfg, st).stage.Complete?
    ensures !st.stage.at.SawEffects? ==> Do(cfg, st).stage.MarkFailed?
  {
    var at := st.stage.at;
    if at.SawRows? {
      StoredOnlyRunning(st.run, Recompute(cfg.eligible, at.effects, at.rows, cfg.budget, |Plan(cfg)|));
    }
  }

  lemma FailedReceipt(cfg: Setup, st: State)
    requires st.run.status == Failed && st.stage.GenerateReceipt?
    ensures Do(cfg, st).run == st.run && !Do(cfg, st).stage.Complete?
    ensures st.stage.at.SawRows? ==> Do(cfg, st).stage.MarkFailed?
  {
    var at := st.stage.at;
    if at.SawRows? {
      L.ReceiptOnlyRunning(st.run, Recompute(cfg.eligible, at.effects, at.rows, cfg.budget, |Plan(cfg)|));
    }
  }

  /** FAILED, not completed, and with what was evaluated before. */
  ghost predicate FailedWith(st: State, before: Run) {
    && st.run.status == Failed && !st.stage.Complete?
    && st.run.report == before.report && st.run.receipt == before.receipt
  }

  lemma MoveStaysFailed(cfg: Setup, st: State, m: Move, before: Run)
    requires FailedWith(st, before) && CanMove(cfg, st, m)
    ensures FailedWith(Moved(cfg, st, m), before)
  {
    FailedRefuses(cfg, st);
    DoStaysFailed(cfg, st, m, before);
  }

  lemma DoStaysFailed(cfg: Setup, st: State, m: Move, before: Run)
    requires FailedWith(st, before) && FailedWith(Do(cfg, st), before) && !Terminal(st.stage)
    ensures FailedWith(Moved(cfg, st, m), before)
  {
  }

  lemma StepStaysFailed(cfg: Setup, st: State, l: Label, before: Run)
    requires FailedWith(st, before) && Enabled(cfg, st, l)
    ensures FailedWith(Step(cfg, st, l), before)
  {
    match l
    case Task(m) => MoveStaysFailed(cfg, st, m, before);
    case StartReturns(_) =>
    case _ => L.WorkersLeaveTask(cfg, st, l);
  }

  /**
   A run that is FAILED before its workflow has completed never completes: nothing more is
   evaluated, no receipt is written, and it ends FAILED.
   */
  lemma FailedNeverCompletes(cfg: Setup, states: seq<State>, labels: seq<Label>, m: nat, n: nat)
    requires IsRun(cfg, states, labels) && m <= n < |states|
    requires states[m].run.status == Failed && !states[m].stage.Complete?
    ensures states[n].run.status == Failed && !states[n].stage.Complete?
    ensures states[n].run.report == states[m].run.report && states[n].run.receipt == states[m].run.receipt
  {
    StaysFailed(cfg, states, labels, m, n);
  }

  lemma {:induction false} StaysFailed(cfg: Setup, states: seq<State>, labels: seq<Label>, m: nat, n: nat)
    requires IsRun(cfg, states, labels) && m <= n < |states| && FailedWith(states[m], states[m].run)
    ensures FailedWith(states[n], states[m].run)
  {
    if m < n {
      StaysFailed(cfg, states, labels, m, n - 1);
      StepStaysFailed(cfg, states[n - 1], labels[n - 1], states[m].run);
    }
  }
}
