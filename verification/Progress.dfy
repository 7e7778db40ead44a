/**
 A workflow that has not failed can still complete, from every reachable state of a protected
 run and of a careful vulnerable one.
 */
module Progress {
  import opened Domain
  import opened Accounts
  import opened Evaluator
  import opened Workflow
  import opened Protocol
  import opened Invariants
  import opened Reach
  import opened Completion
  import L = Lifecycle
  import V = VulnerableRun
  import P = ProtectedRun
  import C = VulnerableCounts

  // --- Moves that keep everything known ------------------------------------------------------------

  /** All that is known of a reachable state of a protected run, or of a careful vulnerable one. */
  ghost predicate Good(cfg: Setup, st: State) {
    && Inv(cfg, st) && L.LifeInv(cfg, st) && L.Settled(cfg, st) && L.Opened(st)
    && (cfg.processor == Protected ==> P.Safe(cfg, st))
    && (cfg.processor == Vulnerable ==> V.Orderly(cfg, st))
  }

  /** Protected runs are known by all their labels, vulnerable ones by careful labels. */
  predicate Followed(cfg: Setup, careful: bool) {
    cfg.processor == Protected || (cfg.processor == Vulnerable && careful)
  }

  lemma QuietAfterDrain(cfg: Setup, careful: bool, st: State, l: Label)
    requires ValidSetup(cfg) && Followed(cfg, careful) && Good(cfg, st) && Allowed(cfg, careful, st, l)
    requires !l.Task? && AllRecorded(st.store, Plan(cfg))
    ensures Step(cfg, st, l).store == st.store
  {
    if cfg.processor == Protected {
      P.Quiescent(cfg, st, l);
    } else {
      C.Quiescent(cfg, st, l);
    }
  }

  lemma StepGood(cfg: Setup, careful: bool, st: State, l: Label)
    requires ValidSetup(cfg) && Followed(cfg, careful) && Good(cfg, st) && Allowed(cfg, careful, st, l)
    ensures Good(cfg, Step(cfg, st, l))
  {
    StepInv(cfg, st, l);
    L.StepLife(cfg, st, l);
    L.StepOpened(cfg, st, l);
    if !l.Task? && AllRecorded(st.store, Plan(cfg)) {
      QuietAfterDrain(cfg, careful, st, l);
    }
    L.StepSettled(cfg, st, l);
    if cfg.processor == Protected {
      P.StepSafe(cfg, st, l);
    } else {
      V.StepOrderly(cfg, st, l);
    }
  }

  lemma {:induction false} InitGood(cfg: Setup)
    requires ValidSetup(cfg)
    ensures Good(cfg, Init(cfg))
  {
    InitInv(cfg);
  }

  lemma {:induction false} PathGood(cfg: Setup, careful: bool, st: State, labels: seq<Label>, end: State)
    requires ValidSetup(cfg) && Followed(cfg, careful) && Good(cfg, st) && Path(cfg, careful, st, labels, end)
    ensures Good(cfg, end)
    decreases |labels|
  {
    if labels != [] {
      StepGood(cfg, careful, st, labels[0]);
      PathGood(cfg, careful, Step(cfg, st, labels[0]), labels[1..], end);
    }
  }

  /** What is known of a state is known of everything reached from it. */
  lemma GoodAt(cfg: Setup, careful: bool, start: State, st: State)
    requires GoodStart(cfg, careful, start) && CanReach(cfg, careful, start, st)
    ensures Good(cfg, st)
  {
    var labels :| Path(cfg, careful, start, labels, st);
    PathGood(cfg, careful, start, labels, st);
  }

  ghost predicate GoodStart(cfg: Setup, careful: bool, start: State) {
    ValidSetup(cfg) && Followed(cfg, careful) && Good(cfg, start)
  }

  lemma {:induction false} PathQuiet(cfg: Setup, careful: bool, st: State, labels: seq<Label>, end: State)
    requires ValidSetup(cfg) && Followed(cfg, careful) && Good(cfg, st) && Path(cfg, careful, st, labels, end)
    requires AllRecorded(st.store, Plan(cfg))
    ensures end.store == st.store
    decreases |labels|
  {
    if labels != [] {
      StepGood(cfg, careful, st, labels[0]);
      StepQuiet(cfg, careful, st, labels[0]);
      PathQuiet(cfg, careful, Step(cfg, st, labels[0]), labels[1..], end);
    }
  }

  lemma StepQuiet(cfg: Setup, careful: bool, st: State, l: Label)
    requires ValidSetup(cfg) && Followed(cfg, careful) && Good(cfg, st) && Allowed(cfg, careful, st, l)
    requires AllRecorded(st.store, Plan(cfg))
    ensures Step(cfg, st, l).store == st.store
  {
    if l.Task? {
      TaskFrame(cfg, st, l.move);
    } else {
      QuietAfterDrain(cfg, careful, st, l);
    }
  }

  // --- A workflow that has not failed can complete ---------------------------------------------------

  /** What was seen and stored is what evaluation would say now, so it fits. */
  lemma SettledFits(cfg: Setup, st: State)
    requires L.Settled(cfg, st) && L.LifeInv(cfg, st)
    ensures Fits(cfg, st)
  {
    PassesIsVerdict(cfg, st.store.effects, st.store.rows);
  }

  lemma CompleteGood(cfg: Setup, careful: bool, start: State, st: State) returns (end: State)
    requires GoodStart(cfg, careful, start) && CanReach(cfg, careful, start, st) && Idle(careful, st) && NotFailed(st)
    ensures CanReach(cfg, careful, start, end) && end.starting == st.starting
    ensures Good(cfg, end) && end.stage.Complete? && NotFailed(end)
  {
    GoodAt(cfg, careful, start, st);
    SettledFits(cfg, st);
    end := CompleteFrom(cfg, careful, start, st);
    GoodAt(cfg, careful, start, end);
  }

  lemma RunGood(cfg: Setup, states: seq<State>, labels: seq<Label>, n: nat)
    requires ValidSetup(cfg) && cfg.processor != Naive && IsRun(cfg, states, labels) && n < |states|
    requires cfg.processor == Vulnerable ==> V.IsCarefulRun(cfg, states, labels)
    ensures Good(cfg, states[n])
  {
    L.RunLife(cfg, states, labels, n);
    L.RunOpened(cfg, states, labels, n);
    if cfg.processor == Protected {
      P.RunSafe(cfg, states, labels, n);
      L.RunSettled(cfg, states, labels, n);
    } else {
      V.RunOrderly(cfg, states, labels, n);
      C.RunSettled(cfg, states, labels, n);
    }
  }

  lemma CompleteIsPaid(cfg: Setup, end: State)
    requires ValidSetup(cfg) && FullBudget(cfg) && Inv(cfg, end) && P.Safe(cfg, end)
    requires AllRecorded(end.store, Plan(cfg))
    requires end.run.receipt == Some(EvaluateRun(cfg.eligible, end.store.effects, end.store.rows, cfg.budget))
    ensures end.run.receipt.value.verdict == Pass
  {
    P.EveryonePaidOnce(cfg, end);
    PaidOncePasses(cfg, end);
  }

  /** What a completed run has: its receipt, over a ledger that is final. */
  lemma CompleteHasReceipt(cfg: Setup, end: State)
    requires Good(cfg, end) && end.stage.Complete? && NotFailed(end)
    ensures end.run.status == Completed && AllRecorded(end.store, Plan(cfg))
    ensures end.run.receipt == Some(EvaluateRun(cfg.eligible, end.store.effects, end.store.rows, cfg.budget))
  {
  }

  lemma PaidOncePasses(cfg: Setup, st: State)
    requires forall i :: 0 <= i < |cfg.eligible| ==> Payments(st.store.effects)[cfg.eligible[i].key] == 1
    requires Spent(st.store.effects) <= cfg.budget
    ensures EvaluateRun(cfg.eligible, st.store.effects, st.store.rows, cfg.budget).verdict == Pass
  {
    VerdictByKey(cfg.eligible, st.store.effects, st.store.rows, cfg.budget);
  }

  /**
   A protected run never paints itself into a corner: from every reachable state whose
   workflow has not failed, whatever crashed or conflicted so far, some continuation
   completes with a PASS on the receipt.
   */
  lemma ProtectedCanComplete(cfg: Setup, states: seq<State>, labels: seq<Label>, n: nat) returns (end: State)
    requires ValidSetup(cfg) && FullBudget(cfg) && cfg.processor == Protected
    requires IsRun(cfg, states, labels) && n < |states| && NotFailed(states[n])
    ensures CanReach(cfg, false, states[n], end) && end.starting == states[n].starting
    ensures end.run.status == Completed && end.run.receipt.Some? && end.run.receipt.value.verdict == Pass
  {
    RunGood(cfg, states, labels, n);
    ReachItself(cfg, false, states[n]);
    end := CompleteGood(cfg, false, states[n], states[n]);
    CompleteHasReceipt(cfg, end);
    CompleteIsPaid(cfg, end);
  }

  /** Careful vulnerable runs complete as well, by careful labels; deliveries in flight are finished first. */
  lemma VulnerableCanComplete(cfg: Setup, states: seq<State>, labels: seq<Label>, n: nat) returns (end: State)
    requires ValidSetup(cfg) && cfg.processor == Vulnerable
    requires V.IsCarefulRun(cfg, states, labels) && n < |states| && NotFailed(states[n])
    ensures CanReach(cfg, true, states[n], end) && end.starting == states[n].starting
    ensures end.run.status == Completed && end.run.receipt.Some? && AllRecorded(end.store, Plan(cfg))
  {
    RunGood(cfg, states, labels, n);
    ReachItself(cfg, true, states[n]);
    var quiet := Quieten(cfg, true, states[n], states[n]);
    end := CompleteGood(cfg, true, states[n], quiet);
    CompleteHasReceipt(cfg, end);
  }
}
