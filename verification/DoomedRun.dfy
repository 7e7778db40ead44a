/**
 When a run of an experiment can be doomed: only with the vulnerable processor, and only when every
 duplicated entitlement owes more than all of Phase B. Otherwise a run completes unless it has failed.
 */
module DoomedRun {
  import opened Domain
  import opened Accounts
  import opened Workflow
  import opened Protocol
  import opened Invariants
  import opened Reach
  import opened Completion
  import opened LostRun
  import opened RetryWave
  import opened Waves
  import opened VulnerableVerdict
  import opened PassingRun
  import V = VulnerableRun
  import L = Lifecycle
  import Prog = Progress

  // --- Never -------------------------------------------------------------------------------------------

  lemma FittingIsNotDoomed(cfg: Setup, st: State)
    requires Fits(cfg, st)
    ensures !Doomed(cfg, st)
  {
  }

  lemma ProtectedNotDoomed(cfg: Setup, states: seq<State>, labels: seq<Label>, n: nat)
    requires ValidSetup(cfg) && cfg.processor == Protected && IsRun(cfg, states, labels) && n < |states|
    ensures !Doomed(cfg, states[n])
  {
    L.RunSettled(cfg, states, labels, n);
    L.RunLife(cfg, states, labels, n);
    Prog.SettledFits(cfg, states[n]);
    FittingIsNotDoomed(cfg, states[n]);
  }

  lemma DoomedNeedsDear(cfg: Setup, states: seq<State>, labels: seq<Label>, n: nat)
    requires ValidSetup(cfg) && cfg.processor == Vulnerable && IsRun(cfg, states, labels) && n < |states|
    requires Doomed(cfg, states[n])
    ensures AllDear(cfg)
  {
    RunInv(cfg, states, labels, n);
    AnyRunNeedsDear(cfg, states, labels, n);
  }

  /**
   With the protected processor, and with the vulnerable one wherever some duplicated entitlement owes
   no more than Phase B: from every reachable state that has not failed some continuation completes.
   */
  lemma CompletesUnlessFailed(cfg: Setup, states: seq<State>, labels: seq<Label>, n: nat)
    requires ValidSetup(cfg) && FullBudget(cfg) && IsRun(cfg, states, labels) && n < |states|
    requires cfg.processor == Protected || (cfg.processor == Vulnerable && !AllDear(cfg))
    ensures (exists end :: CanReach(cfg, false, states[n], end) && end.run.status == Completed)
            <==> states[n].run.status == Completed || NotFailed(states[n])
  {
    CompletesIff(cfg, states, labels, n);
    if Doomed(cfg, states[n]) {
      if cfg.processor == Protected {
        ProtectedNotDoomed(cfg, states, labels, n);
      } else {
        DoomedNeedsDear(cfg, states, labels, n);
      }
    }
  }

  // --- How it happens ------------------------------------------------------------------------------------

  lemma {:induction false} LoosePath(cfg: Setup, st: State, labels: seq<Label>, end: State)
    requires Path(cfg, true, st, labels, end)
    ensures Path(cfg, false, st, labels, end)
    decreases |labels|
  {
    if labels != [] {
      LoosePath(cfg, Step(cfg, st, labels[0]), labels[1..], end);
    }
  }

  lemma ReachLoosely(cfg: Setup, st: State, end: State)
    requires CanReach(cfg, true, st, end)
    ensures CanReach(cfg, false, st, end)
  {
    var labels :| Path(cfg, true, st, labels, end);
    LoosePath(cfg, st, labels, end);
  }

  /** All of Phase A and all of Phase B but its last delivery, which the budget covers exactly. */
  lemma AllButLast(cfg: Setup) returns (st: State, done: seq<Event>, paid: seq<Event>, e: Event)
    requires ValidSetup(cfg) && FullBudget(cfg) && cfg.processor == Vulnerable && AllDear(cfg) && cfg.planB != []
    ensures CanReach(cfg, true, Init(cfg), st) && Handled(cfg, st, done, paid)
    ensures st.stage == InjectB(true) && st.run.status == Running && forall x :: x in cfg.planB ==> x in st.sent
    ensures e in cfg.planB && DistinctIds(done + [e]) && |done| + 1 == |Plan(cfg)|
    ensures paid + [e] == Firsts(cfg.planA) + cfg.planB && st.store.remaining == e.amount
  {
    var order, firsts, n := Firsts(cfg.planA) + Seconds(cfg.planA), Firsts(cfg.planA), |cfg.planB| - 1;
    var front := cfg.planB[..n];
    e := cfg.planB[n];
    var a := PayFirsts(cfg);
    WavesAreA(cfg);
    var b := IntoPhaseB(cfg, a, order, firsts);
    OneMoreEvent(order, cfg.planB);
    OneMoreEvent(firsts, cfg.planB);
    FrontDistinct(order + front, [e]);
    LastCosts(cfg, firsts, front, e);
    InitInv(cfg);
    st := DeliverAll(cfg, true, Init(cfg), b, front, order, firsts);
    done, paid := order + front, firsts + front;
  }

  lemma LastCosts(cfg: Setup, firsts: seq<Event>, front: seq<Event>, e: Event)
    requires ValidSetup(cfg) && FullBudget(cfg) && firsts == Firsts(cfg.planA) && cfg.planB == front + [e]
    ensures cfg.budget - Sum(EventAmounts(firsts + front)) == e.amount >= 1
    ensures Sum(EventAmounts(front)) <= cfg.budget - Sum(EventAmounts(firsts))
  {
    WaveSums(cfg);
    V.PlanSums(cfg);
    DebitedAppend(front, e);
    V.EventsConcat(firsts, front);
    assert Plan(cfg)[|Plan(cfg)| - 1] == e;
    V.OwedIsPositive(cfg, |Plan(cfg)| - 1);
  }

  /** One attempt on it has debited; an overlapping one is refused, and recorded. */
  lemma OverlapLast(cfg: Setup, st: State, done: seq<Event>, paid: seq<Event>, e: Event) returns (st': State)
    requires ValidSetup(cfg) && cfg.processor == Vulnerable && CanReach(cfg, false, Init(cfg), st)
    requires Handled(cfg, st, done, paid) && e in st.sent && e.amount >= 1 && st.store.remaining == e.amount
    requires DistinctIds(done + [e])
    ensures CanReach(cfg, false, Init(cfg), st') && Waits(st, st')
    ensures st'.store.effects == st.store.effects && st'.store.delivered == st.store.delivered + 1
    ensures |st.workers| < |st'.workers| && st'.workers[|st.workers|] == Holder(e, |st.workers|)
  {
    InitInv(cfg);
    NotYetRecorded(st, done, e);
    var debited := DebitOne(cfg, false, Init(cfg), st, e);
    st' := RefuseOne(cfg, false, Init(cfg), debited, e);
    assert st'.workers[|st.workers|] == st'.workers[..|debited.workers|][|st.workers|];
  }

  /** With everything recorded the workflow evaluates the ledger as it is. */
  lemma ToReceipt(cfg: Setup, st: State) returns (st': State)
    requires ValidSetup(cfg) && CanReach(cfg, false, Init(cfg), st) && st.store.delivered == |Plan(cfg)|
    requires st.stage == InjectB(true) && st.run.status == Running && forall e :: e in cfg.planB ==> e in st.sent
    ensures CanReach(cfg, false, Init(cfg), st') && st'.store == st.store && st'.workers == st.workers
    ensures st'.stage == GenerateReceipt(Begin) && st'.run.status == Running
    ensures Reported(st'.run) <==> Passes(cfg, st.store.effects)
  {
    var drained := LeavePhaseB(cfg, st);
    st' := EvaluateAll(cfg, drained);
  }

  lemma LeavePhaseB(cfg: Setup, st: State) returns (st': State)
    requires CanReach(cfg, false, Init(cfg), st) && st.store.delivered == |Plan(cfg)|
    requires st.stage == InjectB(true) && st.run.status == Running && forall e :: e in cfg.planB ==> e in st.sent
    ensures CanReach(cfg, false, Init(cfg), st') && OnlyStage(st, st')
    ensures st'.stage == Evaluate(Begin) && st'.run == st.run
  {
    var draining := Go(cfg, false, Init(cfg), st, Task(Advance));
    st' := Go(cfg, false, Init(cfg), draining, Task(Advance));
  }

  lemma AdvanceEvaluate(cfg: Setup, st: State) returns (st': State)
    requires ValidSetup(cfg) && CanReach(cfg, false, Init(cfg), st) && st.stage.Evaluate? && st.run.status == Running
    ensures CanReach(cfg, false, Init(cfg), st') && st' == Do(cfg, st) && st'.workers == st.workers
    ensures L.LifeInv(cfg, st)
  {
    RunSoundAt(cfg, st);
    TaskFrame(cfg, st, Advance);
    st' := Go(cfg, false, Init(cfg), st, Task(Advance));
  }

  lemma RunSoundAt(cfg: Setup, st: State)
    requires ValidSetup(cfg) && CanReach(cfg, false, Init(cfg), st)
    ensures Sound(cfg, st)
  {
    InitInv(cfg);
    SoundAt(cfg, false, Init(cfg), st);
  }

  lemma EvaluateAll(cfg: Setup, st: State) returns (st': State)
    requires ValidSetup(cfg) && CanReach(cfg, false, Init(cfg), st)
    requires st.stage == Evaluate(Begin) && st.run.status == Running
    ensures CanReach(cfg, false, Init(cfg), st') && st'.store == st.store && st'.workers == st.workers
    ensures st'.stage == GenerateReceipt(Begin) && st'.run.status == Running
    ensures Reported(st'.run) <==> Passes(cfg, st.store.effects)
  {
    var a := AdvanceEvaluate(cfg, st);
    EvaluateStep(cfg, st);
    var b := AdvanceEvaluate(cfg, a);
    EvaluateStep(cfg, a);
    st' := AdvanceEvaluate(cfg, b);
    EvaluateStep(cfg, b);
    PassesIsVerdict(cfg, st.store.effects, st.store.rows);
  }

  /** Without the last payment its student is unpaid; with it everybody is paid once. */
  lemma LastDecides(cfg: Setup, before: seq<Effect>, after: seq<Effect>, paid: seq<Event>, e: Event)
    requires ValidSetup(cfg) && e in cfg.planB && paid + [e] == Firsts(cfg.planA) + cfg.planB
    requires EffectKeys(before) == EventKeys(paid) && EffectKeys(after) == EventKeys(paid + [e])
    requires Spent(after) <= cfg.budget
    ensures !Passes(cfg, before) && Passes(cfg, after)
  {
    FirstsAndBCover(cfg);
    KeyCountAppend(paid, e, e.key);
    V.PlansOwed(cfg);
    var b :| 0 <= b < |cfg.planB| && cfg.planB[b] == e;
    assert OwedEvent(cfg.eligible, cfg.planB[b]);
    var i :| 0 <= i < |cfg.eligible| && cfg.eligible[i].key == e.key;
    assert Payments(before)[cfg.eligible[i].key] == 0;
  }

  /** The stored verdict is FAIL, and then the delayed payment makes the ledger pass. */
  lemma DoomedState(cfg: Setup) returns (st: State)
    requires ValidSetup(cfg) && FullBudget(cfg) && cfg.processor == Vulnerable && AllDear(cfg) && cfg.planB != []
    ensures CanReach(cfg, false, Init(cfg), st) && Doomed(cfg, st)
  {
    var last, done, paid, e := AllButLast(cfg);
    ReachLoosely(cfg, Init(cfg), last);
    RunSoundAt(cfg, last);
    HandledCount(cfg, last, done, paid);
    WavesAreA(cfg);
    LastIsPositive(cfg, e);
    var recorded := OverlapLast(cfg, last, done, paid, e);
    var stored := ToReceipt(cfg, recorded);
    InitInv(cfg);
    st := PayOne(cfg, false, Init(cfg), stored, |last.workers|);
    RunSoundAt(cfg, st);
    UnwrittenNonNegative(cfg, st);
    EffectKeysAppend(last.store.effects, EffectFor(e, |last.workers|), paid, e);
    LastDecides(cfg, last.store.effects, st.store.effects, paid, e);
  }

  lemma LastIsPositive(cfg: Setup, e: Event)
    requires ValidSetup(cfg) && e in cfg.planB
    ensures e.amount >= 1
  {
    var b :| 0 <= b < |cfg.planB| && cfg.planB[b] == e;
    assert Plan(cfg)[|cfg.planA| + b] == e;
    V.OwedIsPositive(cfg, |cfg.planA| + b);
  }

  /**
   With somebody in Phase B, the vulnerable processor can doom a run exactly when the duplicated
   amounts are that dear.
   */
  lemma DoomedIffDear(cfg: Setup)
    requires ValidSetup(cfg) && FullBudget(cfg) && cfg.processor == Vulnerable && DuplicateCount(cfg) < |cfg.eligible|
    ensures (exists states: seq<State>, labels: seq<Label>, n: nat ::
               IsRun(cfg, states, labels) && n < |states| && Doomed(cfg, states[n]))
            <==> AllDear(cfg)
  {
    if AllDear(cfg) {
      PlanSizes(cfg);
      var st := DoomedState(cfg);
      var states, labels := RunTo(cfg, false, [Init(cfg)], [], st);
      assert IsRun(cfg, states, labels) && Doomed(cfg, states[|labels|]);
    }
    forall states: seq<State>, labels: seq<Label>, n: nat
      | IsRun(cfg, states, labels) && n < |states| && Doomed(cfg, states[n])
      ensures AllDear(cfg)
    {
      DoomedNeedsDear(cfg, states, labels, n);
    }
  }
}
