/** What a careful vulnerable run has done once every planned delivery is recorded. */
module VulnerableCounts {
  import opened Domain
  import opened Accounts
  import opened Storage
  import opened Machine
  import opened Evaluator
  import opened Workflow
  import opened Protocol
  import opened Invariants
  import opened VulnerableRun
  import L = Lifecycle

  // --- Counting by tag -----------------------------------------------------------------------

  ghost function IdsFor<K>(tags: seq<K>, ids: seq<DeliveryId>, k: K): set<DeliveryId>
    requires |tags| == |ids|
  {
    set i | 0 <= i < |ids| && tags[i] == k :: ids[i]
  }

  /** With distinct identifiers, counting a tag is counting the identifiers that carry it. */
  lemma {:induction false} TagCount<K>(tags: seq<K>, ids: seq<DeliveryId>, k: K)
    requires |tags| == |ids| && Distinct(ids)
    ensures |IdsFor(tags, ids, k)| == multiset(tags)[k]
  {
    if ids != [] {
      var n := |ids| - 1;
      TagCount(tags[..n], ids[..n], k);
      assert tags == tags[..n] + [tags[n]];
      var front := IdsFor(tags[..n], ids[..n], k);
      if tags[n] == k {
        assert IdsFor(tags, ids, k) == front + {ids[n]};
        assert ids[n] !in front;
      } else {
        assert IdsFor(tags, ids, k) == front;
      }
    }
  }

  function Outcomes(rows: seq<Delivery>): seq<Outcome> {
    seq(|rows|, i requires 0 <= i < |rows| => rows[i].outcome)
  }

  lemma {:induction false} OutcomeTags(rows: seq<Delivery>, o: Outcome)
    ensures CountOutcome(rows, o) == multiset(Outcomes(rows))[o]
  {
    if rows != [] {
      var n := |rows| - 1;
      OutcomeTags(rows[..n], o);
      assert Outcomes(rows) == Outcomes(rows[..n]) + [rows[n].outcome];
    }
  }

  // --- After the drain --------------------------------------------------------------------------

  /** No attempt is left between its debit and its row. */
  lemma NothingInFlight(cfg: Setup, st: State)
    requires ValidSetup(cfg) && Inv(cfg, st) && Orderly(cfg, st) && AllRecorded(st.store, Plan(cfg))
    ensures forall i :: 0 <= i < |st.workers| && Live(st.workers[i]) ==> st.workers[i].pc.CheckDeliveryPc?
    ensures Unwritten(st.workers) == 0
  {
    forall i | 0 <= i < |st.workers|
      ensures Live(st.workers[i]) ==> st.workers[i].pc.CheckDeliveryPc?
      ensures Held(st.workers[i]) == 0
    {
      var w := st.workers[i];
      assert WorkerOk(cfg, st, w);
      assert w.event in Plan(cfg);
      var j :| 0 <= j < |Plan(cfg)| && Plan(cfg)[j] == w.event;
      assert Recorded(st.store, w.event.deliveryId);
    }
    HeldByNobody(st.workers);
  }

  lemma {:induction false} HeldByNobody(workers: seq<Worker>)
    requires forall i :: 0 <= i < |workers| ==> Held(workers[i]) == 0
    ensures Unwritten(workers) == 0
  {
    if workers != [] {
      var n := |workers| - 1;
      HeldByNobody(workers[..n]);
      UnwrittenAppend(workers[..n], workers[n]);
      assert workers == workers[..n] + [workers[n]];
    }
  }

  ghost function CommittedIds(rows: seq<Delivery>): set<DeliveryId> {
    IdsFor(Outcomes(rows), RowIds(rows), Committed)
  }

  lemma DebitsAreCommitted(st: State)
    requires DebitsOk(st)
    requires forall i :: 0 <= i < |st.workers| && Live(st.workers[i]) ==> st.workers[i].pc.CheckDeliveryPc?
    ensures DebitIds(st.debits) <= CommittedIds(st.store.rows)
  {
    var rows := st.store.rows;
    forall id | id in DebitIds(st.debits) ensures id in CommittedIds(rows) {
      assert Accounted(st, id);
      var i :| 0 <= i < |rows| && rows[i].deliveryId == id && rows[i].outcome == Committed;
      assert RowIds(rows)[i] == id && Outcomes(rows)[i] == Committed;
    }
  }

  /** Accepted debits, payments and COMMITTED rows are the same deliveries. */
  lemma SameDeliveries(cfg: Setup, st: State)
    requires ValidSetup(cfg) && Inv(cfg, st) && Orderly(cfg, st) && AllRecorded(st.store, Plan(cfg))
    ensures CommittedIds(st.store.rows) == DebitIds(st.debits) == PaidIds(st.store.effects)
  {
    NothingInFlight(cfg, st);
    DebitsAreCommitted(st);
    var rows := st.store.rows;
    forall id | id in CommittedIds(rows) ensures id in DebitIds(st.debits) && id in PaidIds(st.store.effects) {
      var i :| 0 <= i < |rows| && Outcomes(rows)[i] == Committed && RowIds(rows)[i] == id;
      assert RowOk(cfg, st, rows[i]);
    }
  }

  lemma EventIdsAreDebitIds(events: seq<Event>)
    requires DistinctIds(events)
    ensures |DebitIds(events)| == |events|
  {
    DistinctCard(EventIds(events));
    assert DebitIds(events) == set x | x in EventIds(events) by {
      forall id | id in DebitIds(events) ensures id in EventIds(events) {
        var i :| 0 <= i < |events| && events[i].deliveryId == id;
        assert EventIds(events)[i] == id;
      }
    }
  }

  lemma EffectIdsArePaidIds(effects: seq<Effect>)
    requires Distinct(EffectIds(effects))
    ensures |PaidIds(effects)| == |effects|
  {
    DistinctCard(EffectIds(effects));
    assert PaidIds(effects) == set x | x in EffectIds(effects) by {
      forall id | id in PaidIds(effects) ensures id in EffectIds(effects) {
        var i :| 0 <= i < |effects| && effects[i].deliveryId == id;
        assert EffectIds(effects)[i] == id;
      }
    }
  }

  /** Each row either paid or was refused, and the payments are the rows that paid. */
  lemma RowsBalance(cfg: Setup, st: State)
    requires ValidSetup(cfg) && Inv(cfg, st) && Orderly(cfg, st) && AllRecorded(st.store, Plan(cfg))
    ensures |st.store.effects| == |st.debits| == CountOutcome(st.store.rows, Committed)
    ensures CountOutcome(st.store.rows, DuplicateSuppressed) == 0
    ensures |st.debits| + CountOutcome(st.store.rows, BudgetExhausted) == |st.store.rows|
  {
    var rows := st.store.rows;
    SameDeliveries(cfg, st);
    EventIdsAreDebitIds(st.debits);
    EffectIdsArePaidIds(st.store.effects);
    OutcomeTags(rows, Committed);
    TagCount(Outcomes(rows), RowIds(rows), Committed);
    forall i | 0 <= i < |rows| ensures rows[i].outcome != DuplicateSuppressed {
      assert RowOk(cfg, st, rows[i]);
    }
    NoneCounted(rows, DuplicateSuppressed);
    OutcomesPartition(rows);
  }

  // --- Payments per entitlement --------------------------------------------------------------------

  ghost function PlannedFor(cfg: Setup, k: Key): set<DeliveryId> {
    IdsFor(EventKeys(Plan(cfg)), EventIds(Plan(cfg)), k)
  }

  ghost function PaidFor(st: State, k: Key): set<DeliveryId> {
    IdsFor(EffectKeys(st.store.effects), EffectIds(st.store.effects), k)
  }

  lemma PlannedForCount(cfg: Setup, k: Key)
    requires ValidSetup(cfg)
    ensures |PlannedFor(cfg, k)| == KeyCount(cfg.planA, k) + KeyCount(cfg.planB, k)
  {
    TagCount(EventKeys(Plan(cfg)), EventIds(Plan(cfg)), k);
    assert EventKeys(Plan(cfg)) == EventKeys(cfg.planA) + EventKeys(cfg.planB);
  }

  /** The effect of a planned delivery carries that delivery's key. */
  lemma EffectKeyIsPlanned(cfg: Setup, st: State, i: nat) returns (j: nat)
    requires ValidSetup(cfg) && Inv(cfg, st) && i < |st.store.effects|
    ensures j < |Plan(cfg)| && Plan(cfg)[j].deliveryId == st.store.effects[i].deliveryId
    ensures Plan(cfg)[j].key == st.store.effects[i].key
  {
    var x := st.store.effects[i];
    assert EffectFrom(st.sent, x);
    var e :| e in st.sent && e.deliveryId == x.deliveryId && e.key == x.key && e.amount == x.amount;
    assert e in Plan(cfg);
    j :| 0 <= j < |Plan(cfg)| && Plan(cfg)[j] == e;
  }

  /** Payments of `k` are exactly the planned deliveries of `k` that paid. */
  lemma PaymentsOfKey(cfg: Setup, st: State, k: Key)
    requires ValidSetup(cfg) && Inv(cfg, st) && EffectsOk(st)
    ensures Payments(st.store.effects)[k] == |PaidFor(st, k)|
    ensures PaidFor(st, k) == PlannedFor(cfg, k) * PaidIds(st.store.effects)
  {
    TagCount(EffectKeys(st.store.effects), EffectIds(st.store.effects), k);
    PaidForIsPlanned(cfg, st, k);
    PlannedPaidIsPaidFor(cfg, st, k);
  }

  lemma PaidForIsPlanned(cfg: Setup, st: State, k: Key)
    requires ValidSetup(cfg) && Inv(cfg, st) && EffectsOk(st)
    ensures PaidFor(st, k) <= PlannedFor(cfg, k) * PaidIds(st.store.effects)
  {
    var effects := st.store.effects;
    forall id | id in PaidFor(st, k) ensures id in PlannedFor(cfg, k) && id in PaidIds(effects) {
      var i :| 0 <= i < |effects| && EffectKeys(effects)[i] == k && EffectIds(effects)[i] == id;
      var j := EffectKeyIsPlanned(cfg, st, i);
      assert EventKeys(Plan(cfg))[j] == k && EventIds(Plan(cfg))[j] == id;
      assert effects[i] in effects;
    }
  }

  lemma PlannedPaidIsPaidFor(cfg: Setup, st: State, k: Key)
    requires ValidSetup(cfg) && Inv(cfg, st) && EffectsOk(st)
    ensures PlannedFor(cfg, k) * PaidIds(st.store.effects) <= PaidFor(st, k)
  {
    var effects := st.store.effects;
    forall id | id in PlannedFor(cfg, k) && id in PaidIds(effects) ensures id in PaidFor(st, k) {
      var i :| 0 <= i < |effects| && effects[i].deliveryId == id;
      var j := EffectKeyIsPlanned(cfg, st, i);
      var m :| 0 <= m < |Plan(cfg)| && EventKeys(Plan(cfg))[m] == k && EventIds(Plan(cfg))[m] == id;
      assert Plan(cfg)[m].deliveryId == Plan(cfg)[j].deliveryId;
      assert m == j;
      assert EffectKeys(effects)[i] == k && EffectIds(effects)[i] == id;
    }
  }

  /** A planned delivery that did not pay was refused, for a reason that still holds. */
  lemma UnpaidDeliveryRefused(cfg: Setup, st: State, j: nat)
    requires ValidSetup(cfg) && Inv(cfg, st) && Orderly(cfg, st) && AllRecorded(st.store, Plan(cfg))
    requires j < |Plan(cfg)| && Plan(cfg)[j].deliveryId !in PaidIds(st.store.effects)
    ensures TooDear(cfg, st, Plan(cfg)[j].deliveryId, Plan(cfg)[j].key)
    ensures NoRefusalInA(cfg, st) ==> IsPlannedB(cfg, Plan(cfg)[j].deliveryId)
  {
    assert Recorded(st.store, Plan(cfg)[j].deliveryId);
    var r := RowOfEvent(cfg, st, j);
    assert RowOk(cfg, st, st.store.rows[r]);
  }

  lemma PlannedInB(cfg: Setup, j: nat)
    requires ValidSetup(cfg) && j < |Plan(cfg)| && IsPlannedB(cfg, Plan(cfg)[j].deliveryId)
    ensures KeyCount(cfg.planB, Plan(cfg)[j].key) > 0
  {
    var e :| e in cfg.planB && e.deliveryId == Plan(cfg)[j].deliveryId;
    var b :| 0 <= b < |cfg.planB| && cfg.planB[b] == e;
    assert Plan(cfg)[|cfg.planA| + b] == e;
    assert j == |cfg.planA| + b;
    assert EventKeys(cfg.planB)[b] == e.key;
  }

  /** With no refusal in Phase A, a duplicated entitlement is paid exactly twice; nobody else is. */
  lemma DuplicatesPaidTwice(cfg: Setup, st: State, i: nat)
    requires ValidSetup(cfg) && Inv(cfg, st) && Orderly(cfg, st) && AllRecorded(st.store, Plan(cfg))
    requires i < |cfg.eligible|
    ensures var k := cfg.eligible[i].key;
            && (KeyCount(cfg.planA, k) == 0 ==> Payments(st.store.effects)[k] <= 1)
            && (KeyCount(cfg.planA, k) == 2 && NoRefusalInA(cfg, st) ==> Payments(st.store.effects)[k] == 2)
            && Payments(st.store.effects)[k] <= 2
  {
    var k := cfg.eligible[i].key;
    assert Covered(cfg, k);
    PlannedForCount(cfg, k);
    PaymentsOfKey(cfg, st, k);
    SubsetCard(PaidFor(st, k), PlannedFor(cfg, k));
    if KeyCount(cfg.planA, k) == 2 && NoRefusalInA(cfg, st) {
      AllPlannedPaid(cfg, st, k);
      assert PaidFor(st, k) == PlannedFor(cfg, k);
    }
  }

  lemma AllPlannedPaid(cfg: Setup, st: State, k: Key)
    requires ValidSetup(cfg) && Inv(cfg, st) && Orderly(cfg, st) && AllRecorded(st.store, Plan(cfg))
    requires KeyCount(cfg.planB, k) == 0 && NoRefusalInA(cfg, st)
    ensures PlannedFor(cfg, k) <= PaidIds(st.store.effects)
  {
    forall id | id in PlannedFor(cfg, k) ensures id in PaidIds(st.store.effects) {
      var j :| 0 <= j < |Plan(cfg)| && EventKeys(Plan(cfg))[j] == k && EventIds(Plan(cfg))[j] == id;
      if id !in PaidIds(st.store.effects) {
        UnpaidDeliveryRefused(cfg, st, j);
        PlannedInB(cfg, j);
      }
    }
  }

  lemma {:induction false} SameClasses(eligible: seq<Entry>, p: multiset<Key>, q: multiset<Key>)
    requires forall i :: 0 <= i < |eligible| ==>
               (q[eligible[i].key] == 2 && p[eligible[i].key] == 2)
                 || (q[eligible[i].key] == 0 && p[eligible[i].key] <= 1)
    ensures KeysIn(eligible, p, MoreThanOnce) == KeysIn(eligible, q, MoreThanOnce)
    ensures Misallocated(eligible, p) == Misallocated(eligible, q)
  {
    if eligible != [] {
      var n := |eligible| - 1;
      assert forall i :: 0 <= i < n ==> eligible[..n][i] == eligible[i];
      SameClasses(eligible[..n], p, q);
    }
  }

  // --- The headline -----------------------------------------------------------------------------------

  /** The counts of a vulnerable run whose retry wave fits the budget, for any amounts. */
  ghost predicate Headline(cfg: Setup, report: Report) {
    var s := report.summary;
    && report.verdict == Fail && !report.onePayment && !report.everyonePaid && report.budgetGuard
    && s.deliveries == |cfg.eligible| + DuplicateCount(cfg)
    && s.doublePaid == DuplicateCount(cfg)
    && s.misallocated == DuplicatedOwed(cfg)
    && s.duplicatesSuppressed == 0
    && s.ledgerEffects + s.budgetExhausted == s.deliveries
    && (forall k :: k in s.doublePaidKeys <==> Eligible(cfg.eligible, k) && KeyCount(cfg.planA, k) == 2)
    && (forall k :: k in s.unpaidKeys ==> KeyCount(cfg.planA, k) == 0)
  }

  lemma VulnerableHeadline(cfg: Setup, st: State)
    requires ValidSetup(cfg) && FullBudget(cfg) && DuplicateCount(cfg) >= 1
    requires Inv(cfg, st) && Orderly(cfg, st) && NoRefusalInA(cfg, st) && AllRecorded(st.store, Plan(cfg))
    ensures Headline(cfg, EvaluateRun(cfg.eligible, st.store.effects, st.store.rows, cfg.budget))
    ensures UnpaidNeed(cfg.eligible, Payments(st.store.effects)) == DuplicatedOwed(cfg) + st.store.remaining
  {
    DuplicatesDoubled(cfg, st);
    VictimIdentity(cfg, st);
    NothingInFlight(cfg, st);
    RowsBalance(cfg, st);
    RowsAreThePlan(cfg, st);
    BudgetGuardHolds(cfg, st, st.store.rows);
    ReportedDuplicates(cfg, st);
    DuplicatedIsPositive(cfg);
    SomebodyUnpaid(cfg, st);
  }

  lemma DuplicatesDoubled(cfg: Setup, st: State)
    requires ValidSetup(cfg)
    requires Inv(cfg, st) && Orderly(cfg, st) && NoRefusalInA(cfg, st) && AllRecorded(st.store, Plan(cfg))
    ensures forall i :: 0 <= i < |cfg.eligible| ==>
              var k := cfg.eligible[i].key;
              (KeyCount(cfg.planA, k) == 2 && Payments(st.store.effects)[k] == 2)
              || (KeyCount(cfg.planA, k) == 0 && Payments(st.store.effects)[k] <= 1)
    ensures var payments, a := Payments(st.store.effects), multiset(EventKeys(cfg.planA));
            && KeysIn(cfg.eligible, payments, MoreThanOnce) == KeysIn(cfg.eligible, a, MoreThanOnce)
            && Misallocated(cfg.eligible, payments) == Misallocated(cfg.eligible, a)
  {
    var payments, a := Payments(st.store.effects), multiset(EventKeys(cfg.planA));
    forall i | 0 <= i < |cfg.eligible|
      ensures (a[cfg.eligible[i].key] == 2 && payments[cfg.eligible[i].key] == 2)
              || (a[cfg.eligible[i].key] == 0 && payments[cfg.eligible[i].key] <= 1)
    {
      assert Covered(cfg, cfg.eligible[i].key);
      DuplicatesPaidTwice(cfg, st, i);
    }
    SameClasses(cfg.eligible, payments, a);
  }

  lemma {:induction false} MisallocatedAtLeast(eligible: seq<Entry>, payments: multiset<Key>)
    requires PositiveAmounts(eligible)
    ensures Misallocated(eligible, payments) >= |KeysIn(eligible, payments, MoreThanOnce)|
  {
    if eligible != [] {
      var n := |eligible| - 1;
      assert forall i :: 0 <= i < n ==> eligible[..n][i] == eligible[i];
      MisallocatedAtLeast(eligible[..n], payments);
      if payments[eligible[n].key] > 1 {
        Scale(eligible[n].owed.amount, 1, payments[eligible[n].key] - 1);
      }
    }
  }

  lemma DuplicatedIsPositive(cfg: Setup)
    requires ValidSetup(cfg)
    ensures DuplicatedOwed(cfg) >= DuplicateCount(cfg)
  {
    MisallocatedAtLeast(cfg.eligible, multiset(EventKeys(cfg.planA)));
  }

  /** The victims' need is positive, so somebody is unpaid. */
  lemma SomebodyUnpaid(cfg: Setup, st: State)
    requires UnpaidNeed(cfg.eligible, Payments(st.store.effects)) >= 1
    ensures !EvaluateRun(cfg.eligible, st.store.effects, st.store.rows, cfg.budget).everyonePaid
  {
    var payments := Payments(st.store.effects);
    VerdictByKey(cfg.eligible, st.store.effects, st.store.rows, cfg.budget);
    if forall i :: 0 <= i < |cfg.eligible| ==> payments[cfg.eligible[i].key] >= 1 {
      NobodyNeeds(cfg.eligible, payments);
    }
  }

  lemma {:induction false} NobodyNeeds(eligible: seq<Entry>, payments: multiset<Key>)
    requires forall i :: 0 <= i < |eligible| ==> payments[eligible[i].key] >= 1
    ensures UnpaidNeed(eligible, payments) == 0
  {
    if eligible != [] {
      var n := |eligible| - 1;
      assert forall i :: 0 <= i < n ==> eligible[..n][i] == eligible[i];
      NobodyNeeds(eligible[..n], payments);
    }
  }


  lemma ReportedDuplicates(cfg: Setup, st: State)
    requires ValidSetup(cfg) && DuplicateCount(cfg) >= 1
    requires forall i :: 0 <= i < |cfg.eligible| ==>
               var k := cfg.eligible[i].key;
               (KeyCount(cfg.planA, k) == 2 && Payments(st.store.effects)[k] == 2)
               || (KeyCount(cfg.planA, k) == 0 && Payments(st.store.effects)[k] <= 1)
    requires KeysIn(cfg.eligible, Payments(st.store.effects), MoreThanOnce)
             == KeysIn(cfg.eligible, multiset(EventKeys(cfg.planA)), MoreThanOnce)
    ensures var r := EvaluateRun(cfg.eligible, st.store.effects, st.store.rows, cfg.budget);
            && r.verdict == Fail && !r.onePayment && r.summary.doublePaid == DuplicateCount(cfg)
            && (forall k :: k in r.summary.doublePaidKeys <==> Eligible(cfg.eligible, k) && KeyCount(cfg.planA, k) == 2)
            && (forall k :: k in r.summary.unpaidKeys ==> KeyCount(cfg.planA, k) == 0)
  {
    var payments := Payments(st.store.effects);
    ReportedKeys(cfg.eligible, st.store.effects, st.store.rows, cfg.budget);
    SortedKeys(KeysIn(cfg.eligible, payments, MoreThanOnce));
    forall k | Eligible(cfg.eligible, k)
      ensures payments[k] > 1 <==> KeyCount(cfg.planA, k) == 2
      ensures payments[k] == 0 ==> KeyCount(cfg.planA, k) == 0
    {
      var i :| 0 <= i < |cfg.eligible| && cfg.eligible[i].key == k;
    }
  }

  // --- Equal amounts ---------------------------------------------------------------------------------------

  ghost predicate EqualAmounts(eligible: seq<Entry>, amount: int) {
    forall i :: 0 <= i < |eligible| ==> eligible[i].owed.amount == amount
  }

  lemma {:induction false} EqualSums(eligible: seq<Entry>, p: multiset<Key>, amount: int)
    requires EqualAmounts(eligible, amount)
    ensures Owed(eligible) == amount * |eligible|
    ensures UnpaidNeed(eligible, p) == amount * |KeysIn(eligible, p, Never)|
  {
    if eligible != [] {
      var n := |eligible| - 1;
      EqualSums(eligible[..n], p, amount);
      Distribute(amount, n);
      Distribute(amount, |KeysIn(eligible[..n], p, Never)|);
    }
  }

  lemma Distribute(amount: int, n: int)
    ensures amount * (n + 1) == amount * n + amount
  {
  }

  lemma {:induction false} EqualMisallocated(eligible: seq<Entry>, p: multiset<Key>, amount: int)
    requires EqualAmounts(eligible, amount)
    requires forall i :: 0 <= i < |eligible| ==> p[eligible[i].key] <= 2
    ensures Misallocated(eligible, p) == amount * |KeysIn(eligible, p, MoreThanOnce)|
  {
    if eligible != [] {
      var n := |eligible| - 1;
      assert forall i :: 0 <= i < n ==> eligible[..n][i] == eligible[i];
      EqualMisallocated(eligible[..n], p, amount);
      Distribute(amount, |KeysIn(eligible[..n], p, MoreThanOnce)|);
    }
  }

  lemma {:induction false} EqualDebits(debits: seq<Event>, amount: int)
    requires forall i :: 0 <= i < |debits| ==> debits[i].amount == amount
    ensures Sum(EventAmounts(debits)) == amount * |debits|
  {
    if debits != [] {
      var n := |debits| - 1;
      EqualDebits(debits[..n], amount);
      DebitedAppend(debits[..n], debits[n]);
      assert debits == debits[..n] + [debits[n]];
      Distribute(amount, n);
    }
  }

  lemma DuplicatedIsEqual(cfg: Setup, amount: int)
    requires ValidSetup(cfg) && EqualAmounts(cfg.eligible, amount)
    ensures DuplicatedOwed(cfg) == amount * DuplicateCount(cfg)
  {
    assert forall i :: 0 <= i < |cfg.eligible| ==> Covered(cfg, cfg.eligible[i].key);
    EqualMisallocated(cfg.eligible, multiset(EventKeys(cfg.planA)), amount);
  }

  /** D <= N / 2 is exactly what makes the retry wave fit when all amounts are equal. */
  lemma HalfIsEnough(cfg: Setup, amount: int)
    requires ValidSetup(cfg) && FullBudget(cfg) && amount >= 1 && EqualAmounts(cfg.eligible, amount)
    ensures RetryWaveFits(cfg) <==> 2 * DuplicateCount(cfg) <= |cfg.eligible|
  {
    DuplicatedIsEqual(cfg, amount);
    EqualSums(cfg.eligible, multiset{}, amount);
    var d, n := DuplicateCount(cfg), |cfg.eligible|;
    assert 2 * (amount * d) == amount * (2 * d);
    Scale(amount, 2 * d, n);
  }

  lemma {:induction false} ScaleUp(amount: int, d: nat)
    requires amount >= 1
    ensures amount * d >= d
  {
    if d > 0 {
      ScaleUp(amount, d - 1);
      Distribute(amount, d - 1);
    }
  }

  lemma Scale(amount: int, x: int, y: int)
    requires amount >= 1
    ensures amount * x <= amount * y <==> x <= y
  {
    assert amount * y - amount * x == amount * (y - x);
    assert amount * x - amount * y == amount * (x - y);
    if x <= y {
      ScaleUp(amount, y - x);
    } else {
      ScaleUp(amount, x - y);
    }
  }

  lemma PlanCostsTooMuch(cfg: Setup, st: State)
    requires ValidSetup(cfg) && FullBudget(cfg) && DuplicateCount(cfg) >= 1 && Inv(cfg, st) && DistinctIds(st.debits)
    ensures exists e :: e in Plan(cfg) && e !in st.debits
  {
    if forall e :: e in Plan(cfg) ==> e in st.debits {
      DebitsPositive(cfg, st);
      SubsetSum(Plan(cfg), st.debits);
      PlanSums(cfg);
      assert false;
    }
  }

  /** A delivery that paid was debited, as the very event that was planned. */
  lemma PaidWasDebited(cfg: Setup, st: State, e: Event)
    requires ValidSetup(cfg) && Inv(cfg, st) && EffectsOk(st) && e in Plan(cfg)
    requires e.deliveryId in PaidIds(st.store.effects)
    ensures e in st.debits
  {
    assert e.deliveryId in DebitIds(st.debits);
    var d :| d in st.debits && d.deliveryId == e.deliveryId;
    DebitsPositive(cfg, st);
    assert d in Plan(cfg);
    var i :| 0 <= i < |Plan(cfg)| && Plan(cfg)[i] == d;
    var j :| 0 <= j < |Plan(cfg)| && Plan(cfg)[j] == e;
    assert i == j;
  }

  /** Some delivery is always refused: both phases together ask for more than there is. */
  lemma SomeoneRefused(cfg: Setup, st: State) returns (j: nat)
    requires ValidSetup(cfg) && FullBudget(cfg) && DuplicateCount(cfg) >= 1
    requires Inv(cfg, st) && Orderly(cfg, st) && AllRecorded(st.store, Plan(cfg))
    ensures j < |Plan(cfg)| && Plan(cfg)[j].deliveryId !in PaidIds(st.store.effects)
  {
    PlanCostsTooMuch(cfg, st);
    var e :| e in Plan(cfg) && e !in st.debits;
    j :| 0 <= j < |Plan(cfg)| && Plan(cfg)[j] == e;
    if e.deliveryId in PaidIds(st.store.effects) {
      PaidWasDebited(cfg, st, e);
    }
  }

  lemma DebitsPositive(cfg: Setup, st: State)
    requires ValidSetup(cfg) && Inv(cfg, st)
    ensures forall i :: 0 <= i < |st.debits| ==>
              st.debits[i].amount >= 1 && OwedEvent(cfg.eligible, st.debits[i]) && st.debits[i] in Plan(cfg)
  {
    forall i | 0 <= i < |st.debits|
      ensures st.debits[i].amount >= 1 && OwedEvent(cfg.eligible, st.debits[i]) && st.debits[i] in Plan(cfg)
    {
      assert st.debits[i] in st.sent;
      PlannedIsOwed(cfg, st, st.debits[i]);
    }
  }

  lemma EqualDue(cfg: Setup, amount: int, e: Event)
    requires ValidSetup(cfg) && EqualAmounts(cfg.eligible, amount) && OwedEvent(cfg.eligible, e)
    ensures e.amount == Due(cfg.eligible, e.key) == amount
  {
    var i :| 0 <= i < |cfg.eligible| && cfg.eligible[i].key == e.key;
    DueAt(cfg.eligible, i);
  }

  /** A budget that is a multiple of the amount, with less than the amount left, is used up. */
  lemma AllTaken(remaining: int, amount: int, n: int, d: int)
    requires amount >= 1 && remaining == amount * n - amount * d && 0 <= remaining < amount
    ensures remaining == 0 && d == n
  {
    Scale(amount, d, n);
    Scale(amount, d + 1, n);
    assert amount * (d + 1) == amount * d + amount;
  }

  /** With equal amounts the budget buys exactly N payments, and all of them are made. */
  lemma BudgetSpentExactly(cfg: Setup, st: State, amount: int)
    requires ValidSetup(cfg) && FullBudget(cfg) && DuplicateCount(cfg) >= 1
    requires amount >= 1 && EqualAmounts(cfg.eligible, amount)
    requires Inv(cfg, st) && Orderly(cfg, st) && AllRecorded(st.store, Plan(cfg))
    ensures st.store.remaining == 0 && |st.debits| == |cfg.eligible|
  {
    var j := SomeoneRefused(cfg, st);
    UnpaidDeliveryRefused(cfg, st, j);
    EqualDue(cfg, amount, Plan(cfg)[j]);
    DebitsPositive(cfg, st);
    forall i | 0 <= i < |st.debits| ensures st.debits[i].amount == amount {
      EqualDue(cfg, amount, st.debits[i]);
    }
    EqualDebits(st.debits, amount);
    EqualSums(cfg.eligible, multiset{}, amount);
    AllTaken(st.store.remaining, amount, |cfg.eligible|, |st.debits|);
  }

  ghost predicate EqualHeadline(cfg: Setup, report: Report, amount: int) {
    var s := report.summary;
    && Headline(cfg, report)
    && s.ledgerEffects == |cfg.eligible|
    && s.doublePaid == s.unpaid == s.budgetExhausted == DuplicateCount(cfg)
    && s.misallocated == amount * DuplicateCount(cfg)
    && s.spent == cfg.budget
  }

  lemma EqualCounts(cfg: Setup, st: State, amount: int)
    requires ValidSetup(cfg) && FullBudget(cfg) && DuplicateCount(cfg) >= 1
    requires amount >= 1 && EqualAmounts(cfg.eligible, amount)
    requires Inv(cfg, st) && Orderly(cfg, st) && NoRefusalInA(cfg, st) && AllRecorded(st.store, Plan(cfg))
    ensures EqualHeadline(cfg, EvaluateRun(cfg.eligible, st.store.effects, st.store.rows, cfg.budget), amount)
  {
    VulnerableHeadline(cfg, st);
    BudgetSpentExactly(cfg, st, amount);
    DuplicatedIsEqual(cfg, amount);
    RowsBalance(cfg, st);
    RowsAreThePlan(cfg, st);
    NothingInFlight(cfg, st);
    var payments := Payments(st.store.effects);
    EqualSums(cfg.eligible, payments, amount);
    SortedKeys(KeysIn(cfg.eligible, payments, Never));
    var u, d := |KeysIn(cfg.eligible, payments, Never)|, DuplicateCount(cfg);
    assert amount * u == amount * d;
    Scale(amount, u, d);
    Scale(amount, d, u);
  }

  // --- Exactly when ----------------------------------------------------------------------------------------

  ghost predicate AllDuplicatesPaidTwice(cfg: Setup, st: State) {
    forall i :: 0 <= i < |cfg.eligible| && KeyCount(cfg.planA, cfg.eligible[i].key) == 2 ==>
      Payments(st.store.effects)[cfg.eligible[i].key] == 2
  }

  lemma {:induction false} PaidToMonotone(eligible: seq<Entry>, p: multiset<Key>, q: multiset<Key>)
    requires PositiveAmounts(eligible)
    requires forall i :: 0 <= i < |eligible| ==> p[eligible[i].key] <= q[eligible[i].key]
    ensures PaidTo(eligible, p) <= PaidTo(eligible, q)
  {
    if eligible != [] {
      var n := |eligible| - 1;
      assert forall i :: 0 <= i < n ==> eligible[..n][i] == eligible[i];
      PaidToMonotone(eligible[..n], p, q);
      var k := eligible[n].key;
      Scale(eligible[n].owed.amount, p[k], q[k]);
    }
  }

  /** If every duplicated entitlement was paid twice, the retry wave did fit the budget. */
  lemma TwiceOnlyIfFits(cfg: Setup, st: State)
    requires ValidSetup(cfg) && FullBudget(cfg) && Inv(cfg, st) && AllDuplicatesPaidTwice(cfg, st)
    ensures RetryWaveFits(cfg)
  {
    var payments, a := Payments(st.store.effects), multiset(EventKeys(cfg.planA));
    forall i | 0 <= i < |cfg.eligible| ensures a[cfg.eligible[i].key] <= payments[cfg.eligible[i].key] {
      assert Covered(cfg, cfg.eligible[i].key);
    }
    PaidToMonotone(cfg.eligible, a, payments);
    assert forall i :: 0 <= i < |cfg.eligible| ==> Covered(cfg, cfg.eligible[i].key);
    CoverageSums(cfg.eligible, a, multiset(EventKeys(cfg.planB)));
    LedgerIsOwed(cfg, st);
    UnwrittenNonNegative(cfg, st);
  }

  /**
   Exactly when a careful, fully recorded run pays every duplicated entitlement twice:
   when, and only when, the retry wave fits the budget. No order of arrival matters.
   */
  lemma TwiceIffFits(cfg: Setup, states: seq<State>, labels: seq<Label>, n: nat)
    requires ValidSetup(cfg) && FullBudget(cfg) && cfg.processor == Vulnerable
    requires IsCarefulRun(cfg, states, labels) && n < |states| && AllRecorded(states[n].store, Plan(cfg))
    ensures AllDuplicatesPaidTwice(cfg, states[n]) <==> RetryWaveFits(cfg)
  {
    var st := states[n];
    RunOrderly(cfg, states, labels, n);
    if RetryWaveFits(cfg) {
      RunNoRefusal(cfg, states, labels, n);
      forall i | 0 <= i < |cfg.eligible| && KeyCount(cfg.planA, cfg.eligible[i].key) == 2
        ensures Payments(st.store.effects)[cfg.eligible[i].key] == 2
      {
        DuplicatesPaidTwice(cfg, st, i);
      }
    }
    if AllDuplicatesPaidTwice(cfg, st) {
      TwiceOnlyIfFits(cfg, st);
    }
  }

  // --- End to end -------------------------------------------------------------------------------------------

  /** After the drain a careful run is quiet as well: late redeliveries find their row and stop. */
  lemma Quiescent(cfg: Setup, st: State, l: Label)
    requires ValidSetup(cfg) && cfg.processor == Vulnerable && !l.Task?
    requires Inv(cfg, st) && Orderly(cfg, st) && Enabled(cfg, st, l)
    requires AllRecorded(st.store, Plan(cfg))
    ensures Step(cfg, st, l).store == st.store
  {
    NothingInFlight(cfg, st);
  }

  lemma CarefulStepSettled(cfg: Setup, st: State, l: Label)
    requires ValidSetup(cfg) && cfg.processor == Vulnerable
    requires Inv(cfg, st) && Orderly(cfg, st) && L.LifeInv(cfg, st) && L.Settled(cfg, st) && Enabled(cfg, st, l)
    ensures L.Settled(cfg, Step(cfg, st, l))
  {
    if !l.Task? && AllRecorded(st.store, Plan(cfg)) {
      Quiescent(cfg, st, l);
    }
    L.StepSettled(cfg, st, l);
  }

  /** All that is known of a state of a careful run. */
  ghost predicate Known(cfg: Setup, st: State) {
    Inv(cfg, st) && Orderly(cfg, st) && L.LifeInv(cfg, st)
  }

  lemma KnownAt(cfg: Setup, states: seq<State>, labels: seq<Label>, n: nat)
    requires ValidSetup(cfg) && cfg.processor == Vulnerable && IsCarefulRun(cfg, states, labels) && n < |states|
    ensures Known(cfg, states[n])
  {
    RunOrderly(cfg, states, labels, n);
    L.RunLife(cfg, states, labels, n);
  }

  lemma SettledNext(cfg: Setup, st: State, l: Label, st': State)
    requires ValidSetup(cfg) && cfg.processor == Vulnerable && Known(cfg, st) && L.Settled(cfg, st)
    requires Enabled(cfg, st, l) && st' == Step(cfg, st, l)
    ensures L.Settled(cfg, st')
  {
    CarefulStepSettled(cfg, st, l);
  }

  lemma SettledKeeps(cfg: Setup, states: seq<State>, labels: seq<Label>, n: nat)
    requires ValidSetup(cfg) && cfg.processor == Vulnerable && IsCarefulRun(cfg, states, labels)
    requires n < |labels| && L.Settled(cfg, states[n])
    ensures L.Settled(cfg, states[n + 1])
  {
    KnownAt(cfg, states, labels, n);
    SettledNext(cfg, states[n], labels[n], states[n + 1]);
  }

  lemma {:induction false} RunSettled(cfg: Setup, states: seq<State>, labels: seq<Label>, n: nat)
    requires ValidSetup(cfg) && cfg.processor == Vulnerable
    requires IsCarefulRun(cfg, states, labels) && n < |states|
    ensures L.Settled(cfg, states[n])
  {
    if n > 0 {
      RunSettled(cfg, states, labels, n - 1);
      SettledKeeps(cfg, states, labels, n - 1);
    }
  }

  /**
   The headline of the unprotected processor, end to end: with equal amounts and
   1 <= D <= N / 2, in every careful run and every order of arrival, whatever was
   evaluated or put on the receipt says N payments, the D duplicated students paid twice,
   D others unpaid, D refusals, D amounts misallocated, and FAIL.
   */
  lemma VulnerableRunFails(cfg: Setup, amount: int, states: seq<State>, labels: seq<Label>, n: nat)
    requires ValidSetup(cfg) && FullBudget(cfg) && cfg.processor == Vulnerable
    requires 1 <= DuplicateCount(cfg) && 2 * DuplicateCount(cfg) <= |cfg.eligible|
    requires amount >= 1 && EqualAmounts(cfg.eligible, amount)
    requires IsCarefulRun(cfg, states, labels) && n < |states|
    ensures states[n].run.report.Some? ==> EqualHeadline(cfg, states[n].run.report.value, amount)
    ensures states[n].run.receipt.Some? ==> EqualHeadline(cfg, states[n].run.receipt.value, amount)
    ensures states[n].run.status == Completed ==> states[n].run.receipt.Some?
  {
    HalfIsEnough(cfg, amount);
    RunSettled(cfg, states, labels, n);
    L.RunLife(cfg, states, labels, n);
    RunOrderly(cfg, states, labels, n);
    if states[n].run.report.Some? {
      RunNoRefusal(cfg, states, labels, n);
      EqualCounts(cfg, states[n], amount);
    }
  }

  /** The same for unequal amounts, wherever the retry wave fits the budget. */
  lemma VulnerableRunFailsUnequal(cfg: Setup, states: seq<State>, labels: seq<Label>, n: nat)
    requires ValidSetup(cfg) && FullBudget(cfg) && cfg.processor == Vulnerable
    requires DuplicateCount(cfg) >= 1 && RetryWaveFits(cfg)
    requires IsCarefulRun(cfg, states, labels) && n < |states|
    ensures states[n].run.report.Some? ==> Headline(cfg, states[n].run.report.value)
    ensures states[n].run.receipt.Some? ==> Headline(cfg, states[n].run.receipt.value)
    ensures states[n].run.report.Some? ==>
              UnpaidNeed(cfg.eligible, Payments(states[n].store.effects))
                == DuplicatedOwed(cfg) + states[n].store.remaining
  {
    RunSettled(cfg, states, labels, n);
    L.RunLife(cfg, states, labels, n);
    RunOrderly(cfg, states, labels, n);
    if states[n].run.report.Some? {
      RunNoRefusal(cfg, states, labels, n);
      VulnerableHeadline(cfg, states[n]);
    }
  }
}
