/**
 Exactly when a vulnerable run can end with a PASS: when every duplicated entitlement owes more than
 all of Phase B together. The order that does it pays all first copies, refuses all second ones,
 and then pays Phase B.
 */
module PassingRun {
  import opened Domain
  import opened Accounts
  import opened Storage
  import opened Evaluator
  import opened Workflow
  import opened Protocol
  import opened Invariants
  import opened Reach
  import opened Completion
  import opened RetryWave
  import opened Waves
  import opened VulnerableVerdict
  import V = VulnerableRun
  import Prog = Progress

  ghost predicate ReceiptPasses(run: Run) {
    run.receipt.Some? && run.receipt.value.verdict == Pass
  }

  // --- The two phases ------------------------------------------------------------------------------

  lemma SecondsAreDear(cfg: Setup, e: Event)
    requires ValidSetup(cfg) && AllDear(cfg) && e in cfg.planA
    ensures e.amount > Owed(cfg.eligible) - V.DuplicatedOwed(cfg)
  {
    var j :| 0 <= j < |cfg.planA| && cfg.planA[j] == e;
    assert Plan(cfg)[j] == e && OwedEvent(cfg.eligible, Plan(cfg)[j]);
    var i :| 0 <= i < |cfg.eligible| && cfg.eligible[i].key == e.key;
    assert Covered(cfg, e.key);
    assert EventKeys(cfg.planA)[j] == e.key;
    DueAt(cfg.eligible, i);
  }

  /** Phase A: all first copies are paid, all second ones refused. */
  lemma PayFirsts(cfg: Setup) returns (st: State)
    requires ValidSetup(cfg) && FullBudget(cfg) && cfg.processor == Vulnerable && AllDear(cfg)
    ensures CanReach(cfg, true, Init(cfg), st)
    ensures Handled(cfg, st, Firsts(cfg.planA) + Seconds(cfg.planA), Firsts(cfg.planA))
    ensures st.stage == InjectA(true) && st.run.status == Running && forall e :: e in cfg.planA ==> e in st.sent
  {
    var init, firsts, seconds := Init(cfg), Firsts(cfg.planA), Seconds(cfg.planA);
    InitInv(cfg);
    var wave := OpenPhaseA(cfg, true);
    WavesOfPlan(cfg);
    WaveSums(cfg);
    FirstsFit(cfg);
    NothingHandled(cfg, wave);
    assert [] + firsts == firsts && forall e :: e in firsts ==> e in firsts + seconds;
    FrontDistinct(firsts, seconds);
    var paid := DeliverAll(cfg, true, init, wave, firsts, [], []);
    forall e | e in seconds ensures e in paid.sent && e.amount > paid.store.remaining {
      assert e in firsts + seconds;
      SecondsAreDear(cfg, e);
    }
    st := RefuseAll(cfg, true, init, paid, seconds, firsts, firsts);
  }

  lemma NothingHandled(cfg: Setup, wave: State)
    requires PhaseASent(cfg, wave)
    ensures Handled(cfg, wave, [], [])
  {
    assert RowIds([]) == EventIds([]) == [] && EffectKeys([]) == EventKeys([]) == [] && EventAmounts([]) == [];
  }

  lemma HandledCount(cfg: Setup, st: State, done: seq<Event>, paid: seq<Event>)
    requires Inv(cfg, st) && Handled(cfg, st, done, paid)
    ensures st.store.delivered == |done|
  {
    assert |RowIds(st.store.rows)| == |EventIds(done)|;
  }

  /** The same tables and workers: only the workflow has moved on. */
  ghost predicate OnlyStage(st: State, st': State) {
    st'.store == st.store && st'.workers == st.workers && st'.sent == st.sent
  }

  /** With the phase sent and its rows counted, the workflow leaves it after one look. */
  lemma LeavePhaseA(cfg: Setup, st: State) returns (st': State)
    requires CanReach(cfg, true, Init(cfg), st) && st.stage == InjectA(true) && st.run.status == Running
    requires st.store.delivered == |cfg.planA| && forall e :: e in cfg.planA ==> e in st.sent
    ensures CanReach(cfg, true, Init(cfg), st') && OnlyStage(st, st')
    ensures st'.stage == InjectB(false) && st'.run == st.run
  {
    var draining := Go(cfg, true, Init(cfg), st, Task(Advance));
    st' := Go(cfg, true, Init(cfg), draining, Task(Advance));
  }

  /** And opens the next one. */
  lemma OpenPhaseB(cfg: Setup, st: State) returns (st': State)
    requires CanReach(cfg, true, Init(cfg), st) && st.stage == InjectB(false) && st.run.status == Running
    ensures CanReach(cfg, true, Init(cfg), st') && OnlyStage(st, st'.(sent := st.sent))
    ensures st'.stage == InjectB(true) && st'.run.status == Running && forall e :: e in cfg.planB ==> e in st'.sent
  {
    var ready := Go(cfg, true, Init(cfg), st, Task(Advance));
    st' := SendAll(cfg, true, Init(cfg), ready, cfg.planB);
  }

  lemma IntoPhaseB(cfg: Setup, st: State, done: seq<Event>, paid: seq<Event>) returns (st': State)
    requires ValidSetup(cfg) && CanReach(cfg, true, Init(cfg), st) && Handled(cfg, st, done, paid)
    requires |done| == |cfg.planA| && st.stage == InjectA(true) && st.run.status == Running
    requires forall e :: e in cfg.planA ==> e in st.sent
    ensures CanReach(cfg, true, Init(cfg), st') && Handled(cfg, st', done, paid)
    ensures st'.stage == InjectB(true) && st'.run.status == Running && forall e :: e in cfg.planB ==> e in st'.sent
  {
    InitInv(cfg);
    InvAt(cfg, true, Init(cfg), st);
    HandledCount(cfg, st, done, paid);
    var drained := LeavePhaseA(cfg, st);
    st' := OpenPhaseB(cfg, drained);
  }

  lemma WavesAreA(cfg: Setup)
    requires ValidSetup(cfg)
    ensures |Firsts(cfg.planA) + Seconds(cfg.planA)| == |cfg.planA|
    ensures DistinctIds(Firsts(cfg.planA) + Seconds(cfg.planA) + cfg.planB)
    ensures forall e :: e in cfg.planB ==> e.amount >= 0
  {
    var order := Firsts(cfg.planA) + Seconds(cfg.planA);
    WavesOfPlan(cfg);
    WavesLength(cfg.planA);
    forall e | e in cfg.planB ensures e.amount >= 0 {
      var b :| 0 <= b < |cfg.planB| && cfg.planB[b] == e;
      V.OwedIsPositive(cfg, |cfg.planA| + b);
    }
    PlanBDistinct(cfg);
    forall i, j | 0 <= i < |order| && 0 <= j < |cfg.planB| ensures order[i].deliveryId != cfg.planB[j].deliveryId {
      assert order[i] in cfg.planA;
      V.PlansDisjoint(cfg, order[i], cfg.planB[j]);
    }
    ConcatDistinct(order, cfg.planB);
  }

  lemma {:induction false} WavesLength(events: seq<Event>)
    ensures |Firsts(events)| + |Seconds(events)| == |events|
  {
    if events != [] {
      WavesLength(events[..|events| - 1]);
    }
  }

  /** Phase B: what is left buys exactly all of it. */
  lemma PayAll(cfg: Setup) returns (st: State)
    requires ValidSetup(cfg) && FullBudget(cfg) && cfg.processor == Vulnerable && AllDear(cfg)
    ensures CanReach(cfg, true, Init(cfg), st) && NotFailed(st)
    ensures Handled(cfg, st, Firsts(cfg.planA) + Seconds(cfg.planA) + cfg.planB, Firsts(cfg.planA) + cfg.planB)
  {
    var order := Firsts(cfg.planA) + Seconds(cfg.planA);
    var a := PayFirsts(cfg);
    WavesAreA(cfg);
    var b := IntoPhaseB(cfg, a, order, Firsts(cfg.planA));
    WaveSums(cfg);
    V.PlanSums(cfg);
    InitInv(cfg);
    st := DeliverAll(cfg, true, Init(cfg), b, cfg.planB, order, Firsts(cfg.planA));
  }

  // --- The verdict --------------------------------------------------------------------------------------------

  lemma HandledIsRecorded(cfg: Setup, st: State, done: seq<Event>, paid: seq<Event>, events: seq<Event>)
    requires Handled(cfg, st, done, paid) && forall e :: e in events ==> e in done
    ensures AllRecorded(st.store, events)
  {
    forall i | 0 <= i < |events| ensures Recorded(st.store, events[i].deliveryId) {
      assert events[i] in done;
      var j :| 0 <= j < |done| && done[j] == events[i];
      assert RowIds(st.store.rows)[j] == EventIds(done)[j];
      assert st.store.rows[j].deliveryId == events[i].deliveryId;
    }
  }

  lemma FirstsAndBCover(cfg: Setup)
    requires ValidSetup(cfg)
    ensures forall i :: 0 <= i < |cfg.eligible| ==> KeyCount(Firsts(cfg.planA) + cfg.planB, cfg.eligible[i].key) == 1
  {
    var firsts := Firsts(cfg.planA);
    assert EventKeys(firsts + cfg.planB) == EventKeys(firsts) + EventKeys(cfg.planB);
    forall i | 0 <= i < |cfg.eligible| ensures KeyCount(firsts + cfg.planB, cfg.eligible[i].key) == 1 {
      FirstsCover(cfg, i);
    }
  }

  lemma HandledPasses(cfg: Setup, st: State, done: seq<Event>)
    requires ValidSetup(cfg) && Inv(cfg, st) && Handled(cfg, st, done, Firsts(cfg.planA) + cfg.planB)
    ensures EvaluateRun(cfg.eligible, st.store.effects, st.store.rows, cfg.budget).verdict == Pass
  {
    FirstsAndBCover(cfg);
    BudgetGuardHolds(cfg, st, st.store.rows);
    VerdictByKey(cfg.eligible, st.store.effects, st.store.rows, cfg.budget);
  }

  /** From there the workflow completes, and no redelivery can change what it finds. */
  lemma PassingEnd(cfg: Setup) returns (mid: State, end: State)
    requires ValidSetup(cfg) && FullBudget(cfg) && cfg.processor == Vulnerable && AllDear(cfg)
    ensures CanReach(cfg, true, Init(cfg), mid) && CanReach(cfg, true, mid, end) && ReceiptPasses(end.run)
  {
    mid := PayAll(cfg);
    var done := Firsts(cfg.planA) + Seconds(cfg.planA) + cfg.planB;
    Prog.InitGood(cfg);
    Prog.GoodAt(cfg, true, Init(cfg), mid);
    HandledPasses(cfg, mid, done);
    WavesOfPlan(cfg);
    HandledIsRecorded(cfg, mid, done, Firsts(cfg.planA) + cfg.planB, Plan(cfg));
    ReachItself(cfg, true, mid);
    end := Prog.CompleteGood(cfg, true, mid, mid);
    Prog.CompleteHasReceipt(cfg, end);
    QuietAt(cfg, mid, end);
  }

  lemma QuietAt(cfg: Setup, mid: State, end: State)
    requires Prog.GoodStart(cfg, true, mid) && CanReach(cfg, true, mid, end) && AllRecorded(mid.store, Plan(cfg))
    ensures end.store == mid.store
  {
    var labels :| Path(cfg, true, mid, labels, end);
    Prog.PathQuiet(cfg, true, mid, labels, end);
  }

  lemma PassWitness(cfg: Setup) returns (states: seq<State>, labels: seq<Label>)
    requires ValidSetup(cfg) && FullBudget(cfg) && cfg.processor == Vulnerable && AllDear(cfg)
    ensures V.IsCarefulRun(cfg, states, labels) && ReceiptPasses(states[|labels|].run)
  {
    var mid, end := PassingEnd(cfg);
    states, labels := RunTo(cfg, true, [Init(cfg)], [], mid);
    states, labels := RunTo(cfg, true, states, labels, end);
  }

  /**
   Some run of the vulnerable processor ends with PASS exactly when every duplicated amount is that
   dear; if any run at all does, a careful one does.
   */
  lemma PassIffDear(cfg: Setup)
    requires ValidSetup(cfg) && FullBudget(cfg) && cfg.processor == Vulnerable
    ensures (exists states: seq<State>, labels: seq<Label>, n: nat ::
               IsRun(cfg, states, labels) && n < |states| && ReceiptPasses(states[n].run))
            <==> AllDear(cfg)
    ensures (exists states: seq<State>, labels: seq<Label>, n: nat ::
               V.IsCarefulRun(cfg, states, labels) && n < |states| && ReceiptPasses(states[n].run))
            <==> AllDear(cfg)
  {
    if AllDear(cfg) {
      var states, labels := PassWitness(cfg);
      assert V.IsCarefulRun(cfg, states, labels) && IsRun(cfg, states, labels) && ReceiptPasses(states[|labels|].run);
    }
    forall states: seq<State>, labels: seq<Label>, n: nat
      | IsRun(cfg, states, labels) && n < |states| && ReceiptPasses(states[n].run)
      ensures AllDear(cfg)
    {
      AnyRunNeedsDear(cfg, states, labels, n);
    }
  }
}
