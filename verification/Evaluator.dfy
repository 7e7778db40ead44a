/** The invariant evaluator (backend/src/domain/evaluator.py): from stored rows to a verdict. */
module Evaluator {
  import opened Domain
  import opened Accounts
  import opened Sorting

  datatype Summary = Summary(
    eligibleEntitlements: nat, deliveries: nat, ledgerEffects: nat,
    paidOnce: nat, doublePaid: nat, unpaid: nat,
    duplicatesSuppressed: nat, budgetExhausted: nat,
    budget: int, spent: int, misallocated: int,
    doublePaidKeys: seq<Key>, unpaidKeys: seq<Key>)

  datatype Report = Report(
    summary: Summary, onePayment: bool, everyonePaid: bool, budgetGuard: bool, verdict: Verdict)

  datatype Class = MoreThanOnce | ExactlyOnce | Never

  predicate InClass(payments: multiset<Key>, k: Key, c: Class) {
    match c
    case MoreThanOnce => payments[k] > 1
    case ExactlyOnce => payments[k] == 1
    case Never => payments[k] == 0
  }

  /** The eligible keys of one class, in batch order. */
  function KeysIn(eligible: seq<Entry>, payments: multiset<Key>, c: Class): seq<Key> {
    if eligible == [] then []
    else
      var last := eligible[|eligible| - 1].key;
      KeysIn(eligible[..|eligible| - 1], payments, c) + (if InClass(payments, last, c) then [last] else [])
  }

  function CountOutcome(rows: seq<Delivery>, o: Outcome): nat {
    if rows == [] then 0
    else CountOutcome(rows[..|rows| - 1], o) + (if rows[|rows| - 1].outcome == o then 1 else 0)
  }

  predicate KeyLessEq(a: Key, b: Key) {
    TextLessEq(a.text, b.text)
  }

  function EvaluateRun(eligible: seq<Entry>, effects: seq<Effect>, rows: seq<Delivery>, budget: int): Report {
    var payments := Payments(effects);
    var doublePaid := Sort(KeysIn(eligible, payments, MoreThanOnce), KeyLessEq);
    var unpaid := Sort(KeysIn(eligible, payments, Never), KeyLessEq);
    var summary := Summary(
      |eligible|, |rows|, |effects|,
      |KeysIn(eligible, payments, ExactlyOnce)|, |doublePaid|, |unpaid|,
      CountOutcome(rows, DuplicateSuppressed), CountOutcome(rows, BudgetExhausted),
      budget, Spent(effects), Misallocated(eligible, payments),
      doublePaid, unpaid);
    var one, everyone, guard := doublePaid == [], unpaid == [], Spent(effects) <= budget;
    Report(summary, one, everyone, guard, if one && everyone && guard then Pass else Fail)
  }

  // --- What the counts mean ---------------------------------------------------------

  lemma EligibleSplit(eligible: seq<Entry>, k: Key)
    requires eligible != []
    ensures Eligible(eligible, k) <==> Eligible(eligible[..|eligible| - 1], k) || k == eligible[|eligible| - 1].key
  {
    var n := |eligible| - 1;
    if Eligible(eligible, k) {
      var i :| 0 <= i < |eligible| && eligible[i].key == k;
      assert i == n || eligible[..n][i].key == k;
    }
    if Eligible(eligible[..n], k) {
      var i :| 0 <= i < n && eligible[..n][i].key == k;
      assert eligible[i].key == k;
    }
  }

  lemma {:induction false} KeysInExact(eligible: seq<Entry>, payments: multiset<Key>, c: Class)
    ensures forall k :: k in KeysIn(eligible, payments, c) <==> Eligible(eligible, k) && InClass(payments, k, c)
  {
    if eligible != [] {
      var n := |eligible| - 1;
      KeysInExact(eligible[..n], payments, c);
      forall k ensures Eligible(eligible, k) <==> Eligible(eligible[..n], k) || k == eligible[n].key {
        EligibleSplit(eligible, k);
      }
    }
  }

  /** The three classes partition the batch. */
  lemma {:induction false} ClassesPartition(eligible: seq<Entry>, payments: multiset<Key>)
    ensures |KeysIn(eligible, payments, MoreThanOnce)| + |KeysIn(eligible, payments, ExactlyOnce)|
            + |KeysIn(eligible, payments, Never)| == |eligible|
  {
    if eligible != [] {
      ClassesPartition(eligible[..|eligible| - 1], payments);
    }
  }

  lemma SortedKeys(keys: seq<Key>)
    ensures multiset(Sort(keys, KeyLessEq)) == multiset(keys)
    ensures |Sort(keys, KeyLessEq)| == |keys|
    ensures forall k :: k in Sort(keys, KeyLessEq) <==> k in keys
  {
    SortPermutes(keys, KeyLessEq);
    assert forall k :: k in Sort(keys, KeyLessEq) <==> k in multiset(Sort(keys, KeyLessEq));
    assert forall k :: k in keys <==> k in multiset(keys);
  }

  /** The reported key lists are exactly the keys paid more than once, and never. */
  lemma ReportedKeys(eligible: seq<Entry>, effects: seq<Effect>, rows: seq<Delivery>, budget: int)
    ensures var s := EvaluateRun(eligible, effects, rows, budget).summary;
            && (forall k :: k in s.doublePaidKeys <==> Eligible(eligible, k) && Payments(effects)[k] > 1)
            && (forall k :: k in s.unpaidKeys <==> Eligible(eligible, k) && Payments(effects)[k] == 0)
            && s.doublePaid + s.paidOnce + s.unpaid == s.eligibleEntitlements
  {
    var payments := Payments(effects);
    KeysInExact(eligible, payments, MoreThanOnce);
    KeysInExact(eligible, payments, Never);
    SortedKeys(KeysIn(eligible, payments, MoreThanOnce));
    SortedKeys(KeysIn(eligible, payments, Never));
    ClassesPartition(eligible, payments);
  }

  lemma {:induction false} KeysInOnce(eligible: seq<Entry>, payments: multiset<Key>, c: Class, k: Key)
    requires DistinctKeys(eligible)
    ensures multiset(KeysIn(eligible, payments, c))[k] <= 1
    ensures multiset(KeysIn(eligible, payments, c))[k] == 1 ==> Eligible(eligible, k)
  {
    if eligible != [] {
      var n := |eligible| - 1;
      KeysInOnce(eligible[..n], payments, c, k);
      EligibleSplit(eligible, k);
    }
  }

  lemma KeysRank()
    ensures Ranks(KeyLessEq)
  {
    TextOrder();
    assert forall a: Key, b: Key :: KeyLessEq(a, b) <==> TextLessEq(a.text, b.text);
  }

  lemma SortedOnce(keys: seq<Key>)
    requires forall k :: multiset(keys)[k] <= 1
    ensures InOrder(Sort(keys, KeyLessEq))
  {
    var sorted := Sort(keys, KeyLessEq);
    KeysRank();
    SortSorts(keys, KeyLessEq);
    SortPermutes(keys, KeyLessEq);
    forall i, j | 0 <= i < j < |sorted| ensures TextLess(sorted[i].text, sorted[j].text) {
      if sorted[i] == sorted[j] {
        Twice(sorted, i, j);
      }
      assert KeyLessEq(sorted[i], sorted[j]);
      TextTrichotomy(sorted[i].text, sorted[j].text);
    }
  }

  ghost predicate InOrder(keys: seq<Key>) {
    forall i, j :: 0 <= i < j < |keys| ==> TextLess(keys[i].text, keys[j].text)
  }

  lemma Twice<T>(xs: seq<T>, i: nat, j: nat)
    requires i < j < |xs| && xs[i] == xs[j]
    ensures multiset(xs)[xs[i]] >= 2
  {
    assert xs == xs[..i] + [xs[i]] + xs[i + 1..j] + [xs[j]] + xs[j + 1..];
  }

  /** The plain figures of the summary; each key is listed once, in increasing order. */
  lemma SummarySays(eligible: seq<Entry>, effects: seq<Effect>, rows: seq<Delivery>, budget: int)
    requires DistinctKeys(eligible)
    ensures var s := EvaluateRun(eligible, effects, rows, budget).summary;
            && s.eligibleEntitlements == |eligible| && s.deliveries == |rows| && s.ledgerEffects == |effects|
            && s.budget == budget && s.spent == Spent(effects)
            && s.duplicatesSuppressed == CountOutcome(rows, DuplicateSuppressed)
            && s.budgetExhausted == CountOutcome(rows, BudgetExhausted)
            && s.doublePaid == |s.doublePaidKeys| && s.unpaid == |s.unpaidKeys|
            && InOrder(s.doublePaidKeys) && InOrder(s.unpaidKeys)
  {
    var payments := Payments(effects);
    forall k ensures multiset(KeysIn(eligible, payments, MoreThanOnce))[k] <= 1 {
      KeysInOnce(eligible, payments, MoreThanOnce, k);
    }
    forall k ensures multiset(KeysIn(eligible, payments, Never))[k] <= 1 {
      KeysInOnce(eligible, payments, Never, k);
    }
    SortedOnce(KeysIn(eligible, payments, MoreThanOnce));
    SortedOnce(KeysIn(eligible, payments, Never));
  }

  // --- The verdict --------------------------------------------------------------------

  function BatchKeys(eligible: seq<Entry>): seq<Key> {
    seq(|eligible|, i requires 0 <= i < |eligible| => eligible[i].key)
  }

  lemma {:induction false} BatchKeysOccurOnce(eligible: seq<Entry>)
    requires DistinctKeys(eligible)
    ensures forall k :: multiset(BatchKeys(eligible))[k] == if Eligible(eligible, k) then 1 else 0
  {
    if eligible != [] {
      var n := |eligible| - 1;
      BatchKeysOccurOnce(eligible[..n]);
      assert BatchKeys(eligible) == BatchKeys(eligible[..n]) + [eligible[n].key];
      forall k ensures multiset(BatchKeys(eligible))[k] == if Eligible(eligible, k) then 1 else 0 {
        EligibleSplit(eligible, k);
      }
    }
  }

  /** What the evaluator may assume of the ledger: real payments, at the owed rate. */
  ghost predicate HonestLedger(eligible: seq<Entry>, effects: seq<Effect>) {
    forall i :: 0 <= i < |effects| ==>
      && effects[i].amount >= 1
      && (Eligible(eligible, effects[i].key) ==> effects[i].amount == Due(eligible, effects[i].key))
  }

  lemma LedgerByKey(eligible: seq<Entry>, effects: seq<Effect>)
    requires DistinctKeys(eligible) && HonestLedger(eligible, effects)
    ensures Spent(effects) == PaidTo(eligible, Payments(effects))
            + Foreign(eligible, EffectKeys(effects), EffectAmounts(effects))
    ensures Foreign(eligible, EffectKeys(effects), EffectAmounts(effects)) >= 0
    ensures Foreign(eligible, EffectKeys(effects), EffectAmounts(effects)) == 0
            <==> forall i :: 0 <= i < |effects| ==> Eligible(eligible, effects[i].key)
  {
    ChargesByKey(eligible, EffectKeys(effects), EffectAmounts(effects));
    ForeignNonNegative(eligible, EffectKeys(effects), EffectAmounts(effects));
    assert forall i :: 0 <= i < |effects| ==> EffectKeys(effects)[i] == effects[i].key;
  }

  /** What each of the three invariants of the report says, key by key; PASS is all three. */
  lemma VerdictByKey(eligible: seq<Entry>, effects: seq<Effect>, rows: seq<Delivery>, budget: int)
    ensures var r := EvaluateRun(eligible, effects, rows, budget);
            && (r.onePayment <==> forall i :: 0 <= i < |eligible| ==> Payments(effects)[eligible[i].key] <= 1)
            && (r.everyonePaid <==> forall i :: 0 <= i < |eligible| ==> Payments(effects)[eligible[i].key] >= 1)
            && (r.budgetGuard <==> Spent(effects) <= budget)
            && (r.verdict == Pass <==>
                  && (forall i :: 0 <= i < |eligible| ==> Payments(effects)[eligible[i].key] == 1)
                  && Spent(effects) <= budget)
  {
    var r := EvaluateRun(eligible, effects, rows, budget);
    ReportedKeys(eligible, effects, rows, budget);
    NoneListed(eligible, r.summary.doublePaidKeys);
    NoneListed(eligible, r.summary.unpaidKeys);
  }

  /** A list of eligible keys is empty exactly when no entry's key is on it. */
  lemma NoneListed(eligible: seq<Entry>, keys: seq<Key>)
    requires forall k :: k in keys ==> Eligible(eligible, k)
    ensures keys == [] <==> forall i :: 0 <= i < |eligible| ==> eligible[i].key !in keys
  {
    if keys != [] {
      assert keys[0] in keys;
      var i :| 0 <= i < |eligible| && eligible[i].key == keys[0];
    }
  }

  lemma OnlyEligiblePaid(eligible: seq<Entry>, effects: seq<Effect>)
    requires DistinctKeys(eligible) && HonestLedger(eligible, effects)
    requires PaidTo(eligible, Payments(effects)) == Owed(eligible) && Spent(effects) <= Owed(eligible)
    ensures forall k :: k in Payments(effects) ==> Eligible(eligible, k)
  {
    LedgerByKey(eligible, effects);
    forall k | k in Payments(effects) ensures Eligible(eligible, k) {
      var i :| 0 <= i < |effects| && EffectKeys(effects)[i] == k;
      assert effects[i].key == k;
    }
  }

  /** Paid once each within the budget: then there is nothing else in the ledger. */
  lemma NoForeignPayment(eligible: seq<Entry>, effects: seq<Effect>)
    requires DistinctKeys(eligible) && HonestLedger(eligible, effects)
    requires forall i :: 0 <= i < |eligible| ==> Payments(effects)[eligible[i].key] == 1
    requires Spent(effects) <= Owed(eligible)
    ensures Payments(effects) == multiset(BatchKeys(eligible))
  {
    var payments := Payments(effects);
    PaidOnceIsOwed(eligible, payments);
    OnlyEligiblePaid(eligible, effects);
    BatchKeysOccurOnce(eligible);
    forall k ensures payments[k] == multiset(BatchKeys(eligible))[k] {
      if Eligible(eligible, k) {
        var i :| 0 <= i < |eligible| && eligible[i].key == k;
      }
    }
  }

  lemma PermutationIsOwed(eligible: seq<Entry>, effects: seq<Effect>)
    requires DistinctKeys(eligible) && HonestLedger(eligible, effects)
    requires Payments(effects) == multiset(BatchKeys(eligible))
    ensures forall i :: 0 <= i < |eligible| ==> Payments(effects)[eligible[i].key] == 1
    ensures Spent(effects) == Owed(eligible)
  {
    var payments := Payments(effects);
    BatchKeysOccurOnce(eligible);
    forall i | 0 <= i < |eligible| ensures payments[eligible[i].key] == 1 {
      assert Eligible(eligible, eligible[i].key);
    }
    forall i | 0 <= i < |effects| ensures Eligible(eligible, effects[i].key) {
      assert EffectKeys(effects)[i] in payments;
    }
    PaidOnceIsOwed(eligible, payments);
    LedgerByKey(eligible, effects);
  }

  /**
   When the budget is exactly what is owed, PASS says the ledger is the batch: its keys
   are a permutation of the eligible keys, so no payment to anybody else is hidden in it.
   */
  lemma PassIffPermutation(eligible: seq<Entry>, effects: seq<Effect>, rows: seq<Delivery>)
    requires DistinctKeys(eligible) && HonestLedger(eligible, effects)
    ensures EvaluateRun(eligible, effects, rows, Owed(eligible)).verdict == Pass
            <==> multiset(EffectKeys(effects)) == multiset(BatchKeys(eligible))
  {
    VerdictByKey(eligible, effects, rows, Owed(eligible));
    if EvaluateRun(eligible, effects, rows, Owed(eligible)).verdict == Pass {
      NoForeignPayment(eligible, effects);
    }
    if multiset(EffectKeys(effects)) == multiset(BatchKeys(eligible)) {
      PermutationIsOwed(eligible, effects);
    }
  }

  lemma {:induction false} PaidOnceIsOwed(eligible: seq<Entry>, payments: multiset<Key>)
    requires forall i :: 0 <= i < |eligible| ==> payments[eligible[i].key] == 1
    ensures PaidTo(eligible, payments) == Owed(eligible)
    ensures Misallocated(eligible, payments) == 0
    ensures |KeysIn(eligible, payments, ExactlyOnce)| == |eligible|
  {
    if eligible != [] {
      var n := |eligible| - 1;
      assert forall i :: 0 <= i < n ==> eligible[..n][i] == eligible[i];
      PaidOnceIsOwed(eligible[..n], payments);
    }
  }

  // --- Order of the rows ---------------------------------------------------------------

  /** Where the last element of one arrangement sits in another, and what is left without it. */
  lemma MatchLast<T>(xs: seq<T>, ys: seq<T>) returns (i: nat)
    requires multiset(xs) == multiset(ys) && xs != []
    ensures i < |ys| && ys[i] == xs[|xs| - 1]
    ensures multiset(xs[..|xs| - 1]) == multiset(ys[..i] + ys[i + 1..])
  {
    var x := xs[|xs| - 1];
    assert x in multiset(ys);
    i :| 0 <= i < |ys| && ys[i] == x;
    WithoutLast(xs);
    assert ys == ys[..i] + ([ys[i]] + ys[i + 1..]);
  }

  lemma {:induction false} CountIgnoresOrder(xs: seq<Delivery>, ys: seq<Delivery>, o: Outcome)
    requires multiset(xs) == multiset(ys)
    ensures CountOutcome(xs, o) == CountOutcome(ys, o)
  {
    if xs == [] {
      assert |ys| == |multiset(ys)|;
    } else {
      var i := MatchLast(xs, ys);
      RowRemoved(ys, i, o);
      CountIgnoresOrder(xs[..|xs| - 1], ys[..i] + ys[i + 1..], o);
    }
  }

  lemma {:induction false} OutcomesPartition(rows: seq<Delivery>)
    ensures CountOutcome(rows, Committed) + CountOutcome(rows, DuplicateSuppressed)
            + CountOutcome(rows, BudgetExhausted) == |rows|
  {
    if rows != [] {
      OutcomesPartition(rows[..|rows| - 1]);
    }
  }

  lemma {:induction false} NoneCounted(rows: seq<Delivery>, o: Outcome)
    requires forall i :: 0 <= i < |rows| ==> rows[i].outcome != o
    ensures CountOutcome(rows, o) == 0
  {
    if rows != [] {
      NoneCounted(rows[..|rows| - 1], o);
    }
  }

  lemma {:induction false} CountConcat(xs: seq<Delivery>, ys: seq<Delivery>, o: Outcome)
    ensures CountOutcome(xs + ys, o) == CountOutcome(xs, o) + CountOutcome(ys, o)
    decreases |ys|
  {
    if ys == [] {
      assert xs + ys == xs;
    } else {
      assert (xs + ys)[..|xs + ys| - 1] == xs + ys[..|ys| - 1];
      CountConcat(xs, ys[..|ys| - 1], o);
    }
  }

  lemma RowRemoved(ys: seq<Delivery>, i: nat, o: Outcome)
    requires i < |ys|
    ensures CountOutcome(ys, o) == CountOutcome(ys[..i] + ys[i + 1..], o) + (if ys[i].outcome == o then 1 else 0)
  {
    assert ys == ys[..i] + ([ys[i]] + ys[i + 1..]);
    CountConcat(ys[..i], [ys[i]] + ys[i + 1..], o);
    CountConcat([ys[i]], ys[i + 1..], o);
    CountConcat(ys[..i], ys[i + 1..], o);
    assert [ys[i]][..0] == [];
  }

  lemma {:induction false} LedgerIgnoresOrder(xs: seq<Effect>, ys: seq<Effect>)
    requires multiset(xs) == multiset(ys)
    ensures Spent(xs) == Spent(ys) && Payments(xs) == Payments(ys) && |xs| == |ys|
  {
    assert |xs| == |multiset(xs)| == |multiset(ys)| == |ys|;
    if xs != [] {
      var n := |xs| - 1;
      var i := MatchLast(xs, ys);
      LedgerIgnoresOrder(xs[..n], ys[..i] + ys[i + 1..]);
      assert xs == xs[..n] + [xs[n]];
      SpentAppend(xs[..n], xs[n]);
      EffectMoved(ys, i);
    }
  }

  lemma EffectMoved(ys: seq<Effect>, i: nat)
    requires i < |ys|
    ensures Spent(ys) == Spent(ys[..i] + ys[i + 1..]) + ys[i].amount
    ensures Payments(ys) == Payments(ys[..i] + ys[i + 1..]) + multiset{ys[i].key}
  {
    var amounts, keys := EffectAmounts(ys), EffectKeys(ys);
    SumRemove(amounts, i);
    assert EffectAmounts(ys[..i] + ys[i + 1..]) == amounts[..i] + amounts[i + 1..];
    assert keys == keys[..i] + ([keys[i]] + keys[i + 1..]);
    assert EffectKeys(ys[..i] + ys[i + 1..]) == keys[..i] + keys[i + 1..];
  }

  /** The stored rows may be listed in any order: the whole report is the same. */
  lemma ReportIgnoresOrder(
      eligible: seq<Entry>, effects: seq<Effect>, effects': seq<Effect>,
      rows: seq<Delivery>, rows': seq<Delivery>, budget: int)
    requires multiset(effects) == multiset(effects') && multiset(rows) == multiset(rows')
    ensures EvaluateRun(eligible, effects, rows, budget) == EvaluateRun(eligible, effects', rows', budget)
  {
    LedgerIgnoresOrder(effects, effects');
    CountIgnoresOrder(rows, rows', DuplicateSuppressed);
    CountIgnoresOrder(rows, rows', BudgetExhausted);
    assert |rows| == |multiset(rows)| == |multiset(rows')| == |rows'|;
  }
}
