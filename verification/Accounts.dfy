/** Sums of money over the batch, the ledger and the plan, and the laws that connect them. */
module Accounts {
  import opened Domain

  function Sum(xs: seq<int>): int {
    if xs == [] then 0 else Sum(xs[..|xs| - 1]) + xs[|xs| - 1]
  }

  lemma SumAppend(xs: seq<int>, x: int)
    ensures Sum(xs + [x]) == Sum(xs) + x
  {
    assert (xs + [x])[..|xs|] == xs;
  }

  lemma {:induction false} SumConcat(xs: seq<int>, ys: seq<int>)
    ensures Sum(xs + ys) == Sum(xs) + Sum(ys)
    decreases |ys|
  {
    if ys == [] {
      assert xs + ys == xs;
    } else {
      var n := |ys| - 1;
      SumConcat(xs, ys[..n]);
      assert xs + ys == (xs + ys[..n]) + [ys[n]];
      SumAppend(xs + ys[..n], ys[n]);
    }
  }

  /** Changing one summand changes the sum by the difference. */
  lemma SumUpdate(xs: seq<int>, i: nat, x: int)
    requires i < |xs|
    ensures Sum(xs[i := x]) == Sum(xs) - xs[i] + x
  {
    var front, back := xs[..i], xs[i + 1..];
    assert xs == front + ([xs[i]] + back);
    assert xs[i := x] == front + ([x] + back);
    SumConcat(front, [xs[i]] + back);
    SumConcat(front, [x] + back);
    SumConcat([xs[i]], back);
    SumConcat([x], back);
    SumAppend([], xs[i]);
    SumAppend([], x);
  }

  lemma SumRemove(xs: seq<int>, i: nat)
    requires i < |xs|
    ensures Sum(xs) == Sum(xs[..i] + xs[i + 1..]) + xs[i]
  {
    SplitAround(xs, i);
    SumConcat(xs[..i] + [xs[i]], xs[i + 1..]);
    SumAppend(xs[..i], xs[i]);
    SumConcat(xs[..i], xs[i + 1..]);
  }

  lemma SplitAround(xs: seq<int>, i: nat)
    requires i < |xs|
    ensures xs == xs[..i] + [xs[i]] + xs[i + 1..]
  {
  }

  lemma {:induction false} SumNonNegative(xs: seq<int>)
    requires forall i :: 0 <= i < |xs| ==> xs[i] >= 0
    ensures Sum(xs) >= 0
    ensures forall i :: 0 <= i < |xs| ==> xs[i] <= Sum(xs)
  {
    if xs != [] {
      SumNonNegative(xs[..|xs| - 1]);
      assert forall i :: 0 <= i < |xs| - 1 ==> xs[i] == xs[..|xs| - 1][i];
    }
  }

  /** The spent total: every payment in the ledger, whoever received it. */
  function Spent(effects: seq<Effect>): int {
    Sum(EffectAmounts(effects))
  }

  lemma SpentAppend(effects: seq<Effect>, x: Effect)
    ensures Spent(effects + [x]) == Spent(effects) + x.amount
    ensures Payments(effects + [x]) == Payments(effects) + multiset{x.key}
  {
    assert EffectAmounts(effects + [x]) == EffectAmounts(effects) + [x.amount];
    SumAppend(EffectAmounts(effects), x.amount);
    assert EffectKeys(effects + [x]) == EffectKeys(effects) + [x.key];
  }

  // --- The batch -----------------------------------------------------------------

  ghost predicate DistinctKeys(eligible: seq<Entry>) {
    forall i, j :: 0 <= i < j < |eligible| ==> eligible[i].key != eligible[j].key
  }

  ghost predicate PositiveAmounts(eligible: seq<Entry>) {
    forall i :: 0 <= i < |eligible| ==> eligible[i].owed.amount >= 1
  }

  ghost predicate Eligible(eligible: seq<Entry>, k: Key) {
    exists i :: 0 <= i < |eligible| && eligible[i].key == k
  }

  /** What the batch owes to one key; zero when the key is not in the batch. */
  function Due(eligible: seq<Entry>, k: Key): int {
    if eligible == [] then 0
    else
      var n := |eligible| - 1;
      if eligible[n].key == k then eligible[n].owed.amount else Due(eligible[..n], k)
  }

  lemma {:induction false} DueAt(eligible: seq<Entry>, i: nat)
    requires DistinctKeys(eligible) && i < |eligible|
    ensures Due(eligible, eligible[i].key) == eligible[i].owed.amount
  {
    var n := |eligible| - 1;
    if i < n {
      DueAt(eligible[..n], i);
    }
  }

  lemma {:induction false} DueForeign(eligible: seq<Entry>, k: Key)
    requires !Eligible(eligible, k)
    ensures Due(eligible, k) == 0
  {
    if eligible != [] {
      var n := |eligible| - 1;
      assert eligible[n].key != k;
      assert forall i :: 0 <= i < n ==> eligible[..n][i] == eligible[i];
      DueForeign(eligible[..n], k);
    }
  }

  /** The batch budget: everything that is owed. */
  function Owed(eligible: seq<Entry>): int {
    if eligible == [] then 0
    else Owed(eligible[..|eligible| - 1]) + eligible[|eligible| - 1].owed.amount
  }

  /** Money that reached eligible keys, at the owed rate per payment. */
  function PaidTo(eligible: seq<Entry>, payments: multiset<Key>): int {
    if eligible == [] then 0
    else
      var last := eligible[|eligible| - 1];
      PaidTo(eligible[..|eligible| - 1], payments) + last.owed.amount * payments[last.key]
  }

  /** Money that went to second and later payments of an already-paid entitlement. */
  function Misallocated(eligible: seq<Entry>, payments: multiset<Key>): int {
    if eligible == [] then 0
    else
      var last := eligible[|eligible| - 1];
      Misallocated(eligible[..|eligible| - 1], payments)
      + (if payments[last.key] > 1 then last.owed.amount * (payments[last.key] - 1) else 0)
  }

  /** What the entitlements that received nothing were owed. */
  function UnpaidNeed(eligible: seq<Entry>, payments: multiset<Key>): int {
    if eligible == [] then 0
    else
      var last := eligible[|eligible| - 1];
      UnpaidNeed(eligible[..|eligible| - 1], payments)
      + (if payments[last.key] == 0 then last.owed.amount else 0)
  }

  /** Every repeat payment is matched by somebody's missing money, entry by entry. */
  lemma {:induction false} PaidBalance(eligible: seq<Entry>, payments: multiset<Key>)
    ensures PaidTo(eligible, payments) + UnpaidNeed(eligible, payments)
            == Owed(eligible) + Misallocated(eligible, payments)
  {
    if eligible != [] {
      var n := |eligible| - 1;
      PaidBalance(eligible[..n], payments);
      var p := payments[eligible[n].key];
      if p > 1 {
        assert eligible[n].owed.amount * p == eligible[n].owed.amount + eligible[n].owed.amount * (p - 1);
      }
    }
  }

  lemma {:induction false} PaidToNothing(eligible: seq<Entry>)
    ensures PaidTo(eligible, multiset{}) == 0
  {
    if eligible != [] {
      PaidToNothing(eligible[..|eligible| - 1]);
    }
  }

  /** One more payment of `k` moves exactly what `k` is due. */
  lemma {:induction false} PaidToAdd(eligible: seq<Entry>, payments: multiset<Key>, k: Key)
    requires DistinctKeys(eligible)
    ensures PaidTo(eligible, payments + multiset{k}) == PaidTo(eligible, payments) + Due(eligible, k)
  {
    if eligible != [] {
      var n := |eligible| - 1;
      PaidToAdd(eligible[..n], payments, k);
      var a, p := eligible[n].owed.amount, payments[eligible[n].key];
      if eligible[n].key == k {
        assert a * (p + 1) == a * p + a;
        assert !Eligible(eligible[..n], k);
        DueForeign(eligible[..n], k);
      }
    }
  }

  /** Amounts charged under keys that are not in the batch. */
  function Foreign(eligible: seq<Entry>, keys: seq<Key>, amounts: seq<int>): int
    requires |keys| == |amounts|
  {
    if keys == [] then 0
    else
      var n := |keys| - 1;
      Foreign(eligible, keys[..n], amounts[..n])
      + (if exists i | 0 <= i < |eligible| :: eligible[i].key == keys[n] then 0 else amounts[n])
  }

  /** A list of charges carries the owed amount wherever it names an eligible key. */
  ghost predicate OwedRates(eligible: seq<Entry>, keys: seq<Key>, amounts: seq<int>) {
    && |keys| == |amounts|
    && forall i :: 0 <= i < |keys| && Eligible(eligible, keys[i]) ==> amounts[i] == Due(eligible, keys[i])
  }

  /** Summing charge by charge equals summing entitlement by entitlement. */
  lemma {:induction false} ChargesByKey(eligible: seq<Entry>, keys: seq<Key>, amounts: seq<int>)
    requires DistinctKeys(eligible) && OwedRates(eligible, keys, amounts)
    ensures Sum(amounts) == PaidTo(eligible, multiset(keys)) + Foreign(eligible, keys, amounts)
  {
    if keys == [] {
      PaidToNothing(eligible);
    } else {
      var n := |keys| - 1;
      ChargesByKey(eligible, keys[..n], amounts[..n]);
      assert keys == keys[..n] + [keys[n]];
      assert multiset(keys) == multiset(keys[..n]) + multiset{keys[n]};
      PaidToAdd(eligible, multiset(keys[..n]), keys[n]);
      if !Eligible(eligible, keys[n]) {
        DueForeign(eligible, keys[n]);
      }
    }
  }

  lemma {:induction false} ForeignNonNegative(eligible: seq<Entry>, keys: seq<Key>, amounts: seq<int>)
    requires |keys| == |amounts|
    requires forall i :: 0 <= i < |amounts| ==> amounts[i] >= 1
    ensures Foreign(eligible, keys, amounts) >= 0
    ensures Foreign(eligible, keys, amounts) == 0 <==> forall i :: 0 <= i < |keys| ==> Eligible(eligible, keys[i])
  {
    if keys != [] {
      var n := |keys| - 1;
      ForeignNonNegative(eligible, keys[..n], amounts[..n]);
      AllEligibleSplit(eligible, keys);
    }
  }

  ghost predicate AllEligible(eligible: seq<Entry>, keys: seq<Key>) {
    forall i :: 0 <= i < |keys| ==> Eligible(eligible, keys[i])
  }

  lemma AllEligibleSplit(eligible: seq<Entry>, keys: seq<Key>)
    requires keys != []
    ensures var n := |keys| - 1;
            AllEligible(eligible, keys) <==> AllEligible(eligible, keys[..n]) && Eligible(eligible, keys[n])
  {
    var n := |keys| - 1;
    assert forall i :: 0 <= i < n ==> keys[..n][i] == keys[i];
    if AllEligible(eligible, keys[..n]) && Eligible(eligible, keys[n]) {
      forall i | 0 <= i < |keys| ensures Eligible(eligible, keys[i]) {
        assert i < n ==> Eligible(eligible, keys[..n][i]);
      }
    }
  }

  lemma {:induction false} UnpaidNeedAtLeast(eligible: seq<Entry>, payments: multiset<Key>, i: nat)
    requires PositiveAmounts(eligible) && i < |eligible| && payments[eligible[i].key] == 0
    ensures UnpaidNeed(eligible, payments) >= eligible[i].owed.amount
  {
    var n := |eligible| - 1;
    if i < n {
      UnpaidNeedAtLeast(eligible[..n], payments, i);
    } else {
      UnpaidNeedNonNegative(eligible[..n], payments);
    }
  }

  lemma {:induction false} UnpaidNeedNonNegative(eligible: seq<Entry>, payments: multiset<Key>)
    requires PositiveAmounts(eligible)
    ensures UnpaidNeed(eligible, payments) >= 0
    ensures UnpaidNeed(eligible, payments) == 0 <==> forall i :: 0 <= i < |eligible| ==> payments[eligible[i].key] > 0
  {
    if eligible != [] {
      var n := |eligible| - 1;
      UnpaidNeedNonNegative(eligible[..n], payments);
      assert forall i :: 0 <= i < n ==> eligible[..n][i] == eligible[i];
    }
  }

  lemma {:induction false} MisallocatedNonNegative(eligible: seq<Entry>, payments: multiset<Key>)
    requires PositiveAmounts(eligible)
    ensures Misallocated(eligible, payments) >= 0
    ensures Misallocated(eligible, payments) == 0 <==> forall i :: 0 <= i < |eligible| ==>
            payments[eligible[i].key] <= 1
  {
    if eligible != [] {
      var n := |eligible| - 1;
      MisallocatedNonNegative(eligible[..n], payments);
      assert forall i :: 0 <= i < n ==> eligible[..n][i] == eligible[i];
      var a, p := eligible[n].owed.amount, payments[eligible[n].key];
      if p > 1 {
        assert a * (p - 1) >= 1;
      }
    }
  }
}
