/**
 Bounded, jittered exponential backoff (backend/src/processors/retry.py). Real sleeping is the
 sum of the delays; the random draws are a parameter.
 */
module Retrying {
  import opened Domain
  import opened Storage
  import opened Tables

  const MAX_ATTEMPTS: nat := 6
  const BASE_DELAY_SECONDS: real := 0.05
  const MAX_DELAY_SECONDS: real := 1.0

  /** The storage requests that are retried. */
  datatype Operation =
    | Commit(event: Event, effectId: nat)
    | Debit(amount: int)
    | Record(event: Event, outcome: Outcome, recordedEffect: Option<nat>, seen: Option<int>)

  function AnswerTo(op: Operation, s: Store, r: Reply): Answer {
    match op
    case Commit(e, _) => CommitAnswer(s, e, r)
    case Debit(amount) => DebitAnswer(s, amount, r)
    case Record(e, _, _, _) => RecordAnswer(s, e.deliveryId, r)
  }

  function Performed(op: Operation, s: Store, attempt: nat, r: Reply): Store {
    match op
    case Commit(e, effectId) => Storage.CommitPayment(s, e, effectId, attempt, r)
    case Debit(amount) => Storage.DebitBudget(s, amount, r)
    case Record(e, outcome, effectId, seen) =>
      Storage.RecordOutcome(s, DeliveryFor(e, outcome, attempt, effectId, seen), r)
  }

  function Power2(n: nat): real {
    if n == 0 then 1.0 else 2.0 * Power2(n - 1)
  }

  function Least(a: real, b: real): real {
    if a < b then a else b
  }

  /** The longest delay after the `failures`-th conflict in a row. */
  function Ceiling(base: real, cap: real, failures: nat): real
    requires failures >= 1
  {
    Least(cap, base * Power2(failures - 1))
  }

  /** Full jitter: anything up to the ceiling. */
  function Jittered(draw: real, ceiling: real): real {
    draw * ceiling
  }

  /** The most that one retried operation can sleep after `n` conflicts. */
  function CappedSum(base: real, cap: real, n: nat): real {
    if n == 0 then 0.0 else CappedSum(base, cap, n - 1) + Ceiling(base, cap, n)
  }

  /** Every exchange performed the operation, each with the next attempt number. */
  ghost predicate AllPerformed(op: Operation, attempts: nat, exchanges: seq<Exchange>) {
    exchanges == [] ||
    var n := |exchanges| - 1;
    && AllPerformed(op, attempts, exchanges[..n])
    && exchanges[n].after == Performed(op, exchanges[n].seen, attempts + n + 1, exchanges[n].reply)
  }

  ghost predicate AllConflicts(op: Operation, exchanges: seq<Exchange>) {
    exchanges == [] ||
    var n := |exchanges| - 1;
    AllConflicts(op, exchanges[..n]) && AnswerTo(op, exchanges[n].seen, exchanges[n].reply) == WriteConflict
  }

  /** The exchanges of one retried operation: conflicts, then an answer or none. */
  ghost predicate Retried(op: Operation, attempts: nat, max: nat, exchanges: seq<Exchange>, answer: Option<Answer>) {
    && 1 <= |exchanges| <= max
    && AllPerformed(op, attempts, exchanges)
    && AllConflicts(op, exchanges[..|exchanges| - 1])
    && (var last := exchanges[|exchanges| - 1];
        match answer
        case Some(a) => a != WriteConflict && AnswerTo(op, last.seen, last.reply) == a
        case None => |exchanges| == max && AnswerTo(op, last.seen, last.reply) == WriteConflict)
  }

  /** One more exchange answers, gives up, or goes on. */
  lemma OneMoreExchange(op: Operation, attempts: nat, max: nat, made: seq<Exchange>, x: Exchange)
    requires AllPerformed(op, attempts, made) && AllConflicts(op, made) && |made| < max
    requires x.after == Performed(op, x.seen, attempts + |made| + 1, x.reply)
    ensures var a := AnswerTo(op, x.seen, x.reply);
            && (a != WriteConflict ==> Retried(op, attempts, max, made + [x], Some(a)))
            && (a == WriteConflict ==> AllPerformed(op, attempts, made + [x]) && AllConflicts(op, made + [x]))
            && (a == WriteConflict && |made| + 1 == max ==> Retried(op, attempts, max, made + [x], None))
  {
    assert (made + [x])[..|made|] == made;
  }

  lemma {:induction false} ConflictAt(op: Operation, exchanges: seq<Exchange>, k: nat)
    requires AllConflicts(op, exchanges) && k < |exchanges|
    ensures AnswerTo(op, exchanges[k].seen, exchanges[k].reply) == WriteConflict
  {
    var n := |exchanges| - 1;
    if k < n {
      ConflictAt(op, exchanges[..n], k);
      assert exchanges[..n][k] == exchanges[k];
    }
  }

  /**
   While attempts are left, a cancelled transaction on which no condition failed is tried again exactly
   when some entry carries a transient code; any other one ends the operation at once. Nothing is written.
   */
  lemma ContendedIsRetried(
      op: Operation, attempts: nat, max: nat, exchanges: seq<Exchange>, answer: Option<Answer>, k: nat)
    requires Retried(op, attempts, max, exchanges, answer) && k < |exchanges| && k + 1 < max
    requires (op.Commit? || op.Record?) && exchanges[k].reply.Cancel?
    requires var reasons := exchanges[k].reply.reasons;
             forall i :: 0 <= i < |reasons| && (i == 0 || (op.Commit? && (i == 1 || i == 3))) ==>
               reasons[i].code != ConditionFailed
    ensures k + 1 < |exchanges| <==>
            var reasons := exchanges[k].reply.reasons;
            exists i :: 0 <= i < |reasons| &&
              reasons[i].code in {TransactionConflict, ThrottlingError, ProvisionedThroughputExceeded,
                                  RequestLimitExceeded}
    ensures k + 1 == |exchanges| ==> answer == Some(UnexpectedCancellation)
    ensures AnswerTo(op, exchanges[k].seen, exchanges[k].reply) != Applied
  {
    var reasons := exchanges[k].reply.reasons;
    if op.Commit? {
      ContendedCommit(reasons);
    } else {
      ContendedRecord(reasons);
    }
    var n := |exchanges| - 1;
    if k < n {
      ConflictAt(op, exchanges[..n], k);
      assert exchanges[..n][k] == exchanges[k];
    }
  }

  lemma Appended<T>(before: seq<T>, made: seq<T>, x: T)
    ensures before + made + [x] == before + (made + [x])
    ensures (before + (made + [x]))[..|before|] == before && (before + (made + [x]))[|before|..] == made + [x]
  {
  }

  lemma JitteredBounded(draw: real, ceiling: real)
    requires 0.0 <= draw <= 1.0 && ceiling >= 0.0
    ensures 0.0 <= Jittered(draw, ceiling) <= ceiling
  {
    ProductNonNegative(draw, ceiling);
    ProductNonNegative(1.0 - draw, ceiling);
    assert draw * ceiling + (1.0 - draw) * ceiling == ceiling;
  }

  lemma ProductNonNegative(x: real, y: real)
    requires x >= 0.0 && y >= 0.0
    ensures x * y >= 0.0
  {
  }

  lemma CeilingNonNegative(base: real, cap: real, failures: nat)
    requires base >= 0.0 && cap >= 0.0 && failures >= 1
    ensures Ceiling(base, cap, failures) >= 0.0
  {
    PowerPositive(failures - 1);
  }

  class ConflictRetrier {
    var attempts: nat
    var slept: real
    const maxAttempts: nat
    const baseDelay: real
    const maxDelay: real
    const jitter: nat -> real

    ghost predicate Valid() {
      maxAttempts >= 1 && baseDelay >= 0.0 && maxDelay >= 0.0 && forall i :: 0.0 <= jitter(i) <= 1.0
    }

    constructor (maxAttempts: nat, baseDelay: real, maxDelay: real, jitter: nat -> real)
      requires maxAttempts >= 1 && baseDelay >= 0.0 && maxDelay >= 0.0
      requires forall i :: 0.0 <= jitter(i) <= 1.0
      ensures Valid() && attempts == 0 && slept == 0.0
      ensures this.maxAttempts == maxAttempts && this.baseDelay == baseDelay && this.maxDelay == maxDelay
    {
      attempts, slept := 0, 0.0;
      this.maxAttempts, this.baseDelay, this.maxDelay, this.jitter := maxAttempts, baseDelay, maxDelay, jitter;
    }

    /** Full-jitter delay after the `failures`-th consecutive conflict. */
    function BackoffSeconds(failures: nat, draw: nat): real
      requires failures >= 1
    {
      Jittered(jitter(draw), Ceiling(baseDelay, maxDelay, failures))
    }

    method Perform(store: DynamoDisbursementStore, op: Operation, attempt: nat) returns (answer: Answer)
      requires store.Valid()
      modifies store`tables, store`requests, store`trace
      ensures answer == AnswerTo(op, old(store.Met()), old(store.Reply()))
      ensures store.Exchanged(Performed(op, old(store.Met()), attempt, old(store.Reply())))
    {
      match op
      case Commit(e, effectId) => answer := store.CommitPayment(e, effectId, attempt);
      case Debit(amount) => answer := store.DebitBudget(amount);
      case Record(e, outcome, effectId, seen) =>
        answer := store.RecordOutcome(DeliveryFor(e, outcome, attempt, effectId, seen));
    }

    /** One counted attempt: `x` is its exchange. */
    method Attempt(store: DynamoDisbursementStore, op: Operation) returns (a: Answer, ghost x: Exchange)
      requires store.Valid()
      modifies this`attempts, store`tables, store`requests, store`trace
      ensures store.Valid() && attempts == old(attempts) + 1
      ensures store.trace == old(store.trace) + [x] && store.tables == x.after
      ensures a == AnswerTo(op, x.seen, x.reply) && x.after == Performed(op, x.seen, attempts, x.reply)
    {
      attempts := attempts + 1;
      a := Perform(store, op, attempts);
      x := store.trace[|store.trace| - 1];
    }

    /** One more attempt after `made`, all of which conflicted: it is answered, the last one allowed, or neither. */
    method AttemptNext(
        store: DynamoDisbursementStore, op: Operation, ghost before: seq<Exchange>, ghost made: seq<Exchange>)
      returns (a: Answer, ghost made': seq<Exchange>)
      requires store.Valid() && store.trace == before + made && |made| <= attempts && |made| < maxAttempts
      requires AllPerformed(op, attempts - |made|, made) && AllConflicts(op, made)
      modifies this`attempts, store`tables, store`requests, store`trace
      ensures store.Valid() && attempts == old(attempts) + 1 && |made'| == |made| + 1
      ensures store.trace == before + made' && store.trace[..|before|] == before && store.trace[|before|..] == made'
      ensures store.tables == store.trace[|store.trace| - 1].after
      ensures a != WriteConflict ==> Retried(op, old(attempts) - |made|, maxAttempts, made', Some(a))
      ensures a == WriteConflict ==> AllPerformed(op, old(attempts) - |made|, made') && AllConflicts(op, made')
      ensures a == WriteConflict && |made'| == maxAttempts ==>
                Retried(op, old(attempts) - |made|, maxAttempts, made', None)
    {
      var answer, x := Attempt(store, op);
      OneMoreExchange(op, old(attempts) - |made|, maxAttempts, made, x);
      Appended(before, made, x);
      a, made' := answer, made + [x];
    }

    /** Sleeps after the `failures`-th conflict in a row. */
    method BackOff(failures: nat)
      requires Valid() && failures >= 1
      modifies this`slept
      ensures old(slept) <= slept <= old(slept) + Ceiling(baseDelay, maxDelay, failures)
      ensures var plain := baseDelay * Power2(failures - 1);
              slept == old(slept) + jitter(attempts) * (if maxDelay < plain then maxDelay else plain)
    {
      CeilingNonNegative(baseDelay, maxDelay, failures);
      JitteredBounded(jitter(attempts), Ceiling(baseDelay, maxDelay, failures));
      slept := slept + BackoffSeconds(failures, attempts);
    }

    /** Performs the operation until it is answered, or conflicts `maxAttempts` times in a row. */
    method Run(store: DynamoDisbursementStore, op: Operation) returns (answer: Option<Answer>)
      requires Valid() && store.Valid()
      modifies this`attempts, this`slept, store`tables, store`requests, store`trace
      ensures Valid() && store.Valid() && |old(store.trace)| <= |store.trace|
      ensures store.trace[..|old(store.trace)|] == old(store.trace)
      ensures Retried(op, old(attempts), maxAttempts, store.trace[|old(store.trace)|..], answer)
      ensures attempts == old(attempts) + |store.trace| - |old(store.trace)|
      ensures store.tables == store.trace[|store.trace| - 1].after
      ensures old(slept) <= slept <= old(slept) + CappedSum(baseDelay, maxDelay, maxAttempts - 1)
    {
      ghost var before := store.trace;
      ghost var made: seq<Exchange> := [];
      var failures := 1;
      while failures <= maxAttempts
        invariant 1 <= failures <= maxAttempts && store.Valid() && store.trace == before + made
        invariant |made| == failures - 1 && attempts == old(attempts) + |made|
        invariant AllPerformed(op, old(attempts), made) && AllConflicts(op, made)
        invariant old(slept) <= slept <= old(slept) + CappedSum(baseDelay, maxDelay, failures - 1)
        decreases maxAttempts - failures
      {
        var a;
        a, made := AttemptNext(store, op, before, made);
        if a != WriteConflict {
          SumGrows(baseDelay, maxDelay, failures - 1, maxAttempts - 1);
          return Some(a);
        }
        if failures == maxAttempts {
          return None;
        }
        BackOff(failures);
        failures := failures + 1;
      }
    }
  }

  lemma {:induction false} PowerPositive(n: nat)
    ensures Power2(n) >= 1.0
  {
    if n > 0 {
      PowerPositive(n - 1);
    }
  }

  lemma {:induction false} SumGrows(base: real, cap: real, m: nat, n: nat)
    requires base >= 0.0 && cap >= 0.0 && m <= n
    ensures CappedSum(base, cap, m) <= CappedSum(base, cap, n)
  {
    if m < n {
      SumGrows(base, cap, m, n - 1);
      CeilingNonNegative(base, cap, n);
    }
  }

  /** The capped geometric sum never exceeds the plain one, nor the cap times the number of delays. */
  lemma {:induction false} CappedSumBounded(base: real, cap: real, n: nat)
    requires base >= 0.0 && cap >= 0.0
    ensures CappedSum(base, cap, n) <= base * (Power2(n) - 1.0)
    ensures CappedSum(base, cap, n) <= cap * n as real
  {
    BelowPlain(base, cap, n);
    PlainIsGeometric(base, n);
    BelowFlat(base, cap, n);
  }

  /** The sum of the delays without a cap. */
  function PlainSum(base: real, n: nat): real {
    if n == 0 then 0.0 else PlainSum(base, n - 1) + base * Power2(n - 1)
  }

  lemma {:induction false} BelowPlain(base: real, cap: real, n: nat)
    ensures CappedSum(base, cap, n) <= PlainSum(base, n)
  {
    if n > 0 {
      BelowPlain(base, cap, n - 1);
    }
  }

  lemma {:induction false} PlainIsGeometric(base: real, n: nat)
    ensures PlainSum(base, n) == base * (Power2(n) - 1.0)
  {
    if n == 0 {
      Single(base, Power2(0));
    } else {
      PlainIsGeometric(base, n - 1);
      Doubled(base, Power2(n - 1), Power2(n));
    }
  }

  lemma Single(base: real, power: real)
    requires power == 1.0
    ensures base * (power - 1.0) == 0.0
  {
  }

  lemma Doubled(base: real, power: real, next: real)
    requires next == 2.0 * power
    ensures base * (next - 1.0) == base * (power - 1.0) + base * power
  {
    assert base * (next - 1.0) == base * (2.0 * power - 1.0);
  }

  lemma {:induction false} BelowFlat(base: real, cap: real, n: nat)
    ensures CappedSum(base, cap, n) <= cap * n as real
  {
    if n > 0 {
      BelowFlat(base, cap, n - 1);
      OneMore(cap, (n - 1) as real, n as real);
    }
  }

  lemma OneMore(cap: real, delays: real, next: real)
    requires next == delays + 1.0
    ensures cap * next == cap * delays + cap
  {
    assert cap * next == cap * (delays + 1.0);
  }

  /** With the default settings one operation sleeps at most 1.55 seconds, the sixth conflict giving up. */
  lemma DefaultBackoff()
    ensures CappedSum(BASE_DELAY_SECONDS, MAX_DELAY_SECONDS, MAX_ATTEMPTS - 1) == 1.55
  {
    assert Power2(1) == 2.0 && Power2(2) == 4.0 && Power2(3) == 8.0 && Power2(4) == 16.0;
    assert CappedSum(BASE_DELAY_SECONDS, MAX_DELAY_SECONDS, 2) == 0.15;
    assert CappedSum(BASE_DELAY_SECONDS, MAX_DELAY_SECONDS, 4) == 0.75;
  }
}
