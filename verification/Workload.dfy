/**
 From an accepted batch to the verdict: the experiment and injection code establish what the
 protocol theorems assume, so those hold for every batch, seed and number of duplicates.
 */
module Workload {
  import opened Domain
  import opened Accounts
  import opened Keys
  import opened Experiment
  import opened Injection
  import opened Invariants
  import opened Protocol
  import opened Evidence
  import L = Lifecycle
  import P = ProtectedRun
  import V = VulnerableRun
  import C = VulnerableCounts
  import W = VulnerableVerdict
  import S = StudentState
  import U = EarlyUnpaid

  /** The run of one experiment on one batch. */
  ghost predicate RunsExperiment(
      cfg: Setup, from: Origin, d: Definition, batch: seq<Entitlement>, sha: seq<Entitlement> -> string)
  {
    && KeyEntitlements(from.scheme, from.year, batch) == Ok(cfg.eligible)
    && Planned(from, PhaseA, d, batch, sha) == Ok(cfg.planA)
    && Planned(from, PhaseB, d, batch, sha) == Ok(cfg.planB)
    && cfg.budget == TotalBudget(batch) && cfg.maxAttempts >= 1
  }

  /** The experiment of this batch, seed and D, when there is one. */
  ghost predicate IsExperiment(
      d: Definition, batch: seq<Entitlement>, seed: string, rank: string -> string, duplicates: int,
      sha: seq<Entitlement> -> string)
  {
    BuildDefinition(sha(Canonical(batch)), |batch|, seed, rank, duplicates) == Ok(d)
  }

  lemma ExperimentPhases(
      d: Definition, batch: seq<Entitlement>, seed: string, rank: string -> string, duplicates: int,
      sha: seq<Entitlement> -> string)
    requires IsExperiment(d, batch, seed, rank, duplicates, sha)
    ensures PhasesOf(d, batch) && d.batchSha == sha(Canonical(batch)) && d.duplicateCount == duplicates
    ensures |d.phases.a| == duplicates && |d.phases.b| == |batch| - duplicates && 1 <= duplicates <= |batch| / 2
  {
    DefinitionSplits(sha(Canonical(batch)), |batch|, seed, rank, duplicates);
    DefinitionPhases(d, batch);
  }

  /** Planned events are those of the batch, and pass the worker's key check. */
  ghost predicate GoodEvents(entries: seq<Entry>, events: seq<Event>) {
    forall j :: 0 <= j < |events| ==> OwedEvent(entries, events[j]) && ConsistentKey(events[j])
  }

  lemma EventsAreGood(
      from: Origin, phase: Phase, d: Definition, batch: seq<Entitlement>, entries: seq<Entry>,
      events: seq<Event>)
    requires PhasePlan(from, phase, d, batch, entries, events) && DistinctKeys(entries)
    requires Keyed(from.scheme, from.year, Canonical(batch), entries)
    ensures GoodEvents(entries, events)
  {
    var ids, copies := LogicalIds(|batch|), Copies(phase, d.phases);
    forall j | 0 <= j < |events| ensures OwedEvent(entries, events[j]) && ConsistentKey(events[j]) {
      assert EventOfRow(from, phase, ids, entries, copies[j], events[j]);
      EventIsOwed(from, phase, ids, entries, copies[j], events[j]);
      var i :| 0 <= i < |ids| && copies[j].logicalId == ids[i]
               && events[j] == EventOf(from, phase, copies[j], entries[i].owed, entries[i].key);
      assert KeyOf(from.scheme, from.year, Canonical(batch)[i]) == Ok(entries[i].key);
    }
  }

  lemma PlansShareNoId(
      from: Origin, d: Definition, batch: seq<Entitlement>, entries: seq<Entry>, a: seq<Event>, b: seq<Event>)
    requires DistinctKeys(entries)
    requires PhasePlan(from, PhaseA, d, batch, entries, a) && PhasePlan(from, PhaseB, d, batch, entries, b)
    ensures DistinctIds(a + b)
  {
    var ids := LogicalIds(|batch|);
    forall i, j | 0 <= i < |a| && 0 <= j < |b| ensures a[i].deliveryId != b[j].deliveryId {
      var c, c' := Copies(PhaseA, d.phases)[i], Copies(PhaseB, d.phases)[j];
      EventIsOwed(from, PhaseA, ids, entries, c, a[i]);
      EventIsOwed(from, PhaseB, ids, entries, c', b[j]);
      if a[i].deliveryId == b[j].deliveryId {
        DeliveryIdInjective(from.runId, PhaseA, c, PhaseB, c');
      }
    }
  }

  lemma EveryoneCovered(cfg: Setup, from: Origin, d: Definition, batch: seq<Entitlement>, i: nat)
    requires PhasesOf(d, batch) && i < |cfg.eligible|
    requires PhasePlan(from, PhaseA, d, batch, cfg.eligible, cfg.planA)
    requires PhasePlan(from, PhaseB, d, batch, cfg.eligible, cfg.planB)
    ensures Covered(cfg, cfg.eligible[i].key)
  {
    var ids := LogicalIds(|batch|);
    CopiesKnown(d, batch, PhaseA);
    LogicalIdsDistinct(|batch|);
    DistinctCount(ids, ids[i]);
    assert multiset(ids)[ids[i]] == multiset(d.phases.a)[ids[i]] + multiset(d.phases.b)[ids[i]];
  }

  lemma GoodTogether(entries: seq<Entry>, a: seq<Event>, b: seq<Event>)
    requires GoodEvents(entries, a) && GoodEvents(entries, b)
    ensures GoodEvents(entries, a + b)
  {
  }

  lemma SetupFromPlans(cfg: Setup, from: Origin, d: Definition, batch: seq<Entitlement>)
    requires PhasesOf(d, batch) && DistinctKeys(cfg.eligible) && PositiveAmounts(cfg.eligible)
    requires PhasePlan(from, PhaseA, d, batch, cfg.eligible, cfg.planA)
    requires PhasePlan(from, PhaseB, d, batch, cfg.eligible, cfg.planB)
    requires GoodEvents(cfg.eligible, Plan(cfg)) && cfg.budget >= 0 && cfg.maxAttempts >= 1
    ensures ValidSetup(cfg)
  {
    PlansShareNoId(from, d, batch, cfg.eligible, cfg.planA, cfg.planB);
    forall i | 0 <= i < |cfg.eligible| ensures Covered(cfg, cfg.eligible[i].key) {
      EveryoneCovered(cfg, from, d, batch, i);
    }
  }

  /**
   For every batch with one row per beneficiary and installment, positive amounts and keyable
   fields, every valid seed and every 1 <= D <= N / 2, the two plans send exactly the expected
   2D and N + D deliveries, under distinct ids, each duplicated entitlement twice in Phase A and
   each other one once in Phase B, with the owed amounts and keys that pass the worker's check.
   */
  lemma WorkloadIsValid(
      cfg: Setup, from: Origin, batch: seq<Entitlement>, d: Definition,
      seed: string, rank: string -> string, duplicates: int, sha: seq<Entitlement> -> string)
    requires GoodBatch(from, batch) && IsExperiment(d, batch, seed, rank, duplicates, sha)
    requires RunsExperiment(cfg, from, d, batch, sha)
    ensures ValidSetup(cfg) && FullBudget(cfg)
    ensures |cfg.eligible| == |batch| && DuplicateCount(cfg) == duplicates
    ensures |cfg.planA| == ExpectedDeliveries(d).0 && |Plan(cfg)| == ExpectedDeliveries(d).1
    ensures GoodEvents(cfg.eligible, Plan(cfg))
    ensures InSendOrder(from, PhaseA, d.phases, batch, cfg.planA)
    ensures InSendOrder(from, PhaseB, d.phases, batch, cfg.planB)
  {
    PlannedInOrder(from, PhaseA, d, batch, sha);
    PlannedInOrder(from, PhaseB, d, batch, sha);
    ExperimentPhases(d, batch, seed, rank, duplicates, sha);
    KeyMapOfBatch(from.scheme, from.year, batch);
    BatchAligned(from, batch);
    PhasePlanned(from, PhaseA, d, batch, sha);
    PhasePlanned(from, PhaseB, d, batch, sha);
    EventsAreGood(from, PhaseA, d, batch, cfg.eligible, cfg.planA);
    EventsAreGood(from, PhaseB, d, batch, cfg.eligible, cfg.planB);
    GoodTogether(cfg.eligible, cfg.planA, cfg.planB);
    BudgetNotNegative(batch);
    SetupFromPlans(cfg, from, d, batch);
    CopiesKnown(d, batch, PhaseA);
    PlanSizes(cfg);
  }

  lemma {:induction false} BudgetNotNegative(batch: seq<Entitlement>)
    requires PositiveRows(batch)
    ensures TotalBudget(batch) >= 0
  {
    if batch != [] {
      BudgetNotNegative(batch[..|batch| - 1]);
    }
  }

  /**
   The protected processor, for every batch, seed and D: whatever the run evaluates or puts
   on the receipt says that all N students were paid once each, D deliveries did not pay,
   the budget is spent exactly, and PASS.
   */
  lemma AnyBatchPasses(
      cfg: Setup, from: Origin, batch: seq<Entitlement>, d: Definition,
      seed: string, rank: string -> string, duplicates: int, sha: seq<Entitlement> -> string,
      states: seq<State>, labels: seq<Label>, n: nat)
    requires GoodBatch(from, batch) && IsExperiment(d, batch, seed, rank, duplicates, sha)
    requires RunsExperiment(cfg, from, d, batch, sha) && cfg.processor == Protected
    requires IsRun(cfg, states, labels) && n < |states|
    ensures states[n].run.status == L.Workflow.Completed ==> states[n].run.receipt.Some?
    ensures states[n].run.report.Some? ==>
              var r := states[n].run.report.value;
              && r.verdict == Pass && r.onePayment && r.everyonePaid && r.budgetGuard
              && r.summary.paidOnce == r.summary.ledgerEffects == |batch| && r.summary.unpaid == 0
                 && r.summary.doublePaid == 0
              && r.summary.deliveries == |batch| + duplicates
              && r.summary.duplicatesSuppressed + r.summary.budgetExhausted == duplicates
              && r.summary.spent == TotalBudget(batch)
    ensures states[n].run.receipt.Some? ==> P.Headline(cfg, states[n].run.receipt.value)
  {
    WorkloadIsValid(cfg, from, batch, d, seed, rank, duplicates, sha);
    L.ProtectedRunPasses(cfg, states, labels, n);
  }

  /**
   The vulnerable processor, for every batch of equal amounts, every seed and every
   1 <= D <= N / 2: every careful run ends with N payments, D students paid twice, D unpaid,
   D refusals, D amounts misallocated, and FAIL.
   */
  lemma AnyEqualBatchFails(
      cfg: Setup, from: Origin, batch: seq<Entitlement>, d: Definition, amount: int,
      seed: string, rank: string -> string, duplicates: int, sha: seq<Entitlement> -> string,
      states: seq<State>, labels: seq<Label>, n: nat)
    requires GoodBatch(from, batch) && IsExperiment(d, batch, seed, rank, duplicates, sha)
    requires RunsExperiment(cfg, from, d, batch, sha) && cfg.processor == Vulnerable
    requires forall i :: 0 <= i < |batch| ==> batch[i].amount == amount
    requires V.IsCarefulRun(cfg, states, labels) && n < |states|
    ensures states[n].run.report.Some? ==>
              var r := states[n].run.report.value;
              && r.verdict == Fail && !r.onePayment && !r.everyonePaid && r.budgetGuard
              && r.summary.ledgerEffects == |batch| && r.summary.doublePaid == duplicates
                 && r.summary.unpaid == duplicates
              && r.summary.deliveries == |batch| + duplicates && r.summary.budgetExhausted == duplicates
              && r.summary.misallocated == duplicates * amount
  {
    WorkloadIsValid(cfg, from, batch, d, seed, rank, duplicates, sha);
    ExperimentPhases(d, batch, seed, rank, duplicates, sha);
    EqualEntries(cfg, from, batch, amount);
    assert batch[0].amount >= 1;
    C.VulnerableRunFails(cfg, amount, states, labels, n);
  }

  /**
   The same experiments without any care: whatever crashes or overlaps, no run of the vulnerable
   processor stores a PASS or puts one on a receipt.
   */
  lemma AnyEqualRunFails(
      cfg: Setup, from: Origin, batch: seq<Entitlement>, d: Definition, amount: int,
      seed: string, rank: string -> string, duplicates: int, sha: seq<Entitlement> -> string,
      states: seq<State>, labels: seq<Label>, n: nat)
    requires GoodBatch(from, batch) && IsExperiment(d, batch, seed, rank, duplicates, sha)
    requires RunsExperiment(cfg, from, d, batch, sha) && cfg.processor == Vulnerable
    requires forall i :: 0 <= i < |batch| ==> batch[i].amount == amount
    requires IsRun(cfg, states, labels) && n < |states|
    ensures W.NotPassed(states[n].run.report) && W.NotPassed(states[n].run.receipt)
  {
    WorkloadIsValid(cfg, from, batch, d, seed, rank, duplicates, sha);
    ExperimentPhases(d, batch, seed, rank, duplicates, sha);
    EqualEntries(cfg, from, batch, amount);
    assert batch[0].amount >= 1;
    W.EqualAmountsAlwaysFail(cfg, amount, states, labels, n);
  }

  /** And in their careful runs a student shown as UNPAID before the evaluation stays UNPAID. */
  lemma AnyEqualBatchIsCertain(
      cfg: Setup, from: Origin, batch: seq<Entitlement>, d: Definition, amount: int,
      seed: string, rank: string -> string, duplicates: int, sha: seq<Entitlement> -> string,
      states: seq<State>, labels: seq<Label>, m: nat, n: nat, k: Key)
    requires GoodBatch(from, batch) && IsExperiment(d, batch, seed, rank, duplicates, sha)
    requires RunsExperiment(cfg, from, d, batch, sha) && cfg.processor == Vulnerable
    requires forall i :: 0 <= i < |batch| ==> batch[i].amount == amount
    requires V.IsCarefulRun(cfg, states, labels) && m <= n < |states|
    requires S.StateOf(states[m].store.effects, states[m].store.rows, k, false) == S.Unpaid
    ensures S.StateOf(states[n].store.effects, states[n].store.rows, k, false) == S.Unpaid
  {
    WorkloadIsValid(cfg, from, batch, d, seed, rank, duplicates, sha);
    ExperimentPhases(d, batch, seed, rank, duplicates, sha);
    EqualEntries(cfg, from, batch, amount);
    assert batch[0].amount >= 1;
    C.HalfIsEnough(cfg, amount);
    U.CarefulUnpaidIsCertain(cfg, states, labels, m, n, k);
  }

  lemma EqualEntries(cfg: Setup, from: Origin, batch: seq<Entitlement>, amount: int)
    requires GoodBatch(from, batch) && KeyEntitlements(from.scheme, from.year, batch) == Ok(cfg.eligible)
    requires forall i :: 0 <= i < |batch| ==> batch[i].amount == amount
    ensures C.EqualAmounts(cfg.eligible, amount)
  {
    KeyMapOfBatch(from.scheme, from.year, batch);
    CanonicalKeeps(from.scheme, from.year, batch);
    var ordered := Canonical(batch);
    forall i | 0 <= i < |ordered| ensures ordered[i].amount == amount {
      assert ordered[i] in multiset(batch);
      var j :| 0 <= j < |batch| && batch[j] == ordered[i];
    }
  }

  /** The payment is to a student of the batch: this row, at its amount, under the key of its own fields. */
  ghost predicate ToRow(from: Origin, batch: seq<Entitlement>, x: Effect) {
    && BuildEntitlementKey(from.scheme, x.beneficiaryId, from.year, x.installment) == Ok(x.key)
    && exists i :: 0 <= i < |batch| && x.beneficiaryId == batch[i].beneficiaryId
                   && x.installment == batch[i].installment && x.amount == batch[i].amount
  }

  lemma EventToRow(from: Origin, phase: Phase, phases: Phases, batch: seq<Entitlement>, events: seq<Event>, e: Event)
    requires InSendOrder(from, phase, phases, batch, events) && e in events
    ensures e.runId == from.runId
    ensures BuildEntitlementKey(from.scheme, e.beneficiaryId, from.year, e.installment) == Ok(e.key)
    ensures exists i :: 0 <= i < |batch| && e.beneficiaryId == batch[i].beneficiaryId
                        && e.installment == batch[i].installment && e.amount == batch[i].amount
  {
    var j :| 0 <= j < |events| && events[j] == e;
    assert Carries(from, phase, batch, events[j]);
    var ordered := Canonical(batch);
    var i :| 0 <= i < |batch| && LogicalIds(|batch|)[i] == e.logicalId && e.beneficiaryId == ordered[i].beneficiaryId
             && e.installment == ordered[i].installment && e.amount == ordered[i].amount;
    CanonicalInOrder(batch);
    assert ordered[i] in multiset(ordered);
    var m :| 0 <= m < |batch| && batch[m] == ordered[i];
  }

  /**
   End to end, for every processor and whatever crashes or overlaps: each payment in the ledger is to a row
   of the batch, names that row's beneficiary and installment, pays its amount, and has the key of exactly
   these fields.
   */
  lemma AnyPaymentIsOwed(
      cfg: Setup, from: Origin, batch: seq<Entitlement>, d: Definition,
      seed: string, rank: string -> string, duplicates: int, sha: seq<Entitlement> -> string,
      states: seq<State>, labels: seq<Label>, n: nat, i: nat)
    requires GoodBatch(from, batch) && IsExperiment(d, batch, seed, rank, duplicates, sha)
    requires RunsExperiment(cfg, from, d, batch, sha)
    requires IsRun(cfg, states, labels) && n < |states| && i < |states[n].store.effects|
    ensures ToRow(from, batch, states[n].store.effects[i])
  {
    WorkloadIsValid(cfg, from, batch, d, seed, rank, duplicates, sha);
    PaymentHasEvent(cfg, states, labels, n, i);
    var x := states[n].store.effects[i];
    var e :| e in Plan(cfg) && PaymentOf(x, e);
    if e in cfg.planA {
      EventToRow(from, PhaseA, d.phases, batch, cfg.planA, e);
    } else {
      EventToRow(from, PhaseB, d.phases, batch, cfg.planB, e);
    }
  }

  lemma PaymentHasEvent(cfg: Setup, states: seq<State>, labels: seq<Label>, n: nat, i: nat)
    requires ValidSetup(cfg) && IsRun(cfg, states, labels) && n < |states| && i < |states[n].store.effects|
    ensures exists e :: e in Plan(cfg) && PaymentOf(states[n].store.effects[i], e)
  {
    RunInv(cfg, states, labels, n);
    RunEvident(cfg, states, labels, n);
    assert PaymentNamed(states[n].sent, states[n].store.effects[i]);
    var e :| e in states[n].sent && PaymentOf(states[n].store.effects[i], e);
    assert e in Plan(cfg);
  }
}
