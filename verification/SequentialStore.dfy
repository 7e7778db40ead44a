/**
 The simple store of the tests (backend/tests/unit/fakes.py): one lock, conditions checked one
 after the other, plain dictionaries for all runs. The DynamoDB store of `Storage`, with its
 transactions and cancellation lists, behaves like it.
 */
module SequentialStore {
  import opened Domain
  import opened Keys
  import opened Storage

  datatype RunState = RunState(remaining: int, delivered: nat, committed: nat, suppressed: nat, exhausted: nat)

  datatype RunEffect = RunEffect(runId: string, effect: Effect)

  datatype RunRow = RunRow(runId: string, row: Delivery)

  function Count(run: RunState, o: Outcome): RunState {
    var counted := run.(delivered := run.delivered + 1);
    match o
    case Committed => counted.(committed := run.committed + 1)
    case DuplicateSuppressed => counted.(suppressed := run.suppressed + 1)
    case BudgetExhausted => counted.(exhausted := run.exhausted + 1)
  }

  function EffectsOf(effects: seq<RunEffect>, runId: string): seq<Effect> {
    if effects == [] then []
    else
      var n := |effects| - 1;
      EffectsOf(effects[..n], runId) + (if effects[n].runId == runId then [effects[n].effect] else [])
  }

  function RowsOf(rows: seq<RunRow>, runId: string): seq<Delivery> {
    if rows == [] then []
    else
      var n := |rows| - 1;
      RowsOf(rows[..n], runId) + (if rows[n].runId == runId then [rows[n].row] else [])
  }

  /** `IdempotencyKeyFor`, for a run id that has one. */
  function ClaimKey(runId: string, k: Key): string {
    runId + [KEY_SEPARATOR] + k.text
  }

  /** The tables of one run, read out of the dictionaries of all runs. */
  ghost predicate View(
      runs: map<string, RunState>, effects: seq<RunEffect>, deliveries: seq<RunRow>, claims: map<string, Effect>,
      runId: string, s: Store)
  {
    && runId in runs && s.runExists
    && runs[runId] == RunState(s.remaining, s.delivered, s.committed, s.suppressed, s.exhausted)
    && s.effects == EffectsOf(effects, runId)
    && s.rows == RowsOf(deliveries, runId)
    && ClaimsView(claims, runId, s.claims)
  }

  ghost predicate ClaimsView(claims: map<string, Effect>, runId: string, own: map<Key, Effect>) {
    forall k :: (k in own <==> ClaimKey(runId, k) in claims) && (k in own ==> own[k] == claims[ClaimKey(runId, k)])
  }

  lemma EffectsGrow(effects: seq<RunEffect>, x: RunEffect, runId: string)
    ensures EffectsOf(effects + [x], runId) == EffectsOf(effects, runId) + (if x.runId == runId then [x.effect] else [])
  {
    assert (effects + [x])[..|effects|] == effects;
  }

  lemma RowsGrow(rows: seq<RunRow>, x: RunRow, runId: string)
    ensures RowsOf(rows + [x], runId) == RowsOf(rows, runId) + (if x.runId == runId then [x.row] else [])
  {
    assert (rows + [x])[..|rows|] == rows;
  }

  /** One run's claim changes that run's view and no other's. */
  lemma ClaimsGrow(claims: map<string, Effect>, runId: string, k: Key, x: Effect)
    requires ValidComponent(runId)
    ensures forall own :: ClaimsView(claims, runId, own) ==>
            ClaimsView(claims[ClaimKey(runId, k) := x], runId, own[k := x])
    ensures forall other: string, own ::
              other != runId && ValidComponent(other) && ClaimsView(claims, other, own) ==>
                ClaimsView(claims[ClaimKey(runId, k) := x], other, own)
  {
    ClaimsApart(runId, k);
  }

  /** The views of all runs but this one are what they were. */
  ghost predicate OthersSee(
      runs: map<string, RunState>, effects: seq<RunEffect>, deliveries: seq<RunRow>, claims: map<string, Effect>,
      runs': map<string, RunState>, effects': seq<RunEffect>, deliveries': seq<RunRow>, claims': map<string, Effect>,
      runId: string)
  {
    forall other: string, s: Store ::
      other != runId && ValidComponent(other) && View(runs, effects, deliveries, claims, other, s) ==>
        View(runs', effects', deliveries', claims', other, s)
  }

  /** A payment of one run changes that run's view as the transaction does, and no other's. */
  lemma PaymentViewed(
      runs: map<string, RunState>, effects: seq<RunEffect>, deliveries: seq<RunRow>, claims: map<string, Effect>,
      runId: string, s: Store, e: Event, effectId: nat, attempt: nat)
    requires ValidComponent(runId) && runId in runs
    ensures var effect := EffectFor(e, effectId);
            var row := DeliveryFor(e, Committed, attempt, Some(effectId), None);
            var runs' := runs[runId := Count(runs[runId].(remaining := runs[runId].remaining - e.amount), Committed)];
            var effects', deliveries' := effects + [RunEffect(runId, effect)], deliveries + [RunRow(runId, row)];
            var claims' := claims[ClaimKey(runId, e.key) := effect];
            && (View(runs, effects, deliveries, claims, runId, s) ==>
                  View(runs', effects', deliveries', claims', runId, WithPayment(s, e, effectId, attempt)))
            && OthersSee(runs, effects, deliveries, claims, runs', effects', deliveries', claims', runId)
  {
    var effect, row := EffectFor(e, effectId), DeliveryFor(e, Committed, attempt, Some(effectId), None);
    ClaimsGrow(claims, runId, e.key, effect);
    forall other { EffectsGrow(effects, RunEffect(runId, effect), other); }
    forall other { RowsGrow(deliveries, RunRow(runId, row), other); }
  }

  lemma RowViewed(
      runs: map<string, RunState>, effects: seq<RunEffect>, deliveries: seq<RunRow>, claims: map<string, Effect>,
      runId: string, s: Store, row: Delivery)
    requires ValidComponent(runId) && runId in runs
    ensures var runs', deliveries' :=
              runs[runId := Count(runs[runId], row.outcome)], deliveries + [RunRow(runId, row)];
            && (View(runs, effects, deliveries, claims, runId, s) ==>
                  View(runs', effects, deliveries', claims, runId, WithRow(s, row)))
            && OthersSee(runs, effects, deliveries, claims, runs', effects, deliveries', claims, runId)
  {
    var runs', deliveries' := runs[runId := Count(runs[runId], row.outcome)], deliveries + [RunRow(runId, row)];
    RowsGrow(deliveries, RunRow(runId, row), runId);
    forall other: string, s: Store
      | other != runId && ValidComponent(other) && View(runs, effects, deliveries, claims, other, s)
      ensures View(runs', effects, deliveries', claims, other, s)
    {
      RowsGrow(deliveries, RunRow(runId, row), other);
    }
  }

  lemma OthersSeeTheSame(
      runs: map<string, RunState>, effects: seq<RunEffect>, deliveries: seq<RunRow>, claims: map<string, Effect>,
      runId: string)
    ensures OthersSee(runs, effects, deliveries, claims, runs, effects, deliveries, claims, runId)
  {
  }

  predicate RecordedIn(deliveries: seq<RunRow>, runId: string, id: DeliveryId) {
    Recorded(Fresh(0).(rows := RowsOf(deliveries, runId)), id)
  }

  /** What the dictionaries say to a commit: delivery first, then claim, then budget. */
  function Seen(
      runs: map<string, RunState>, deliveries: seq<RunRow>, claims: map<string, Effect>, runId: string, e: Event)
    : Answer
    requires runId in runs
  {
    if RecordedIn(deliveries, runId, e.deliveryId) then DeliveryAlreadyRecorded
    else if ClaimKey(runId, e.key) in claims then EntitlementAlreadyClaimed
    else if runs[runId].remaining < e.amount then InsufficientBudget(runs[runId].remaining)
    else Applied
  }

  lemma SeenAnswers(
      runs: map<string, RunState>, effects: seq<RunEffect>, deliveries: seq<RunRow>, claims: map<string, Effect>,
      runId: string, s: Store, e: Event, effectId: nat, attempt: nat)
    requires View(runs, effects, deliveries, claims, runId, s)
    ensures CommitAnswer(s, e, Proceed) == Seen(runs, deliveries, claims, runId, e)
    ensures Storage.CommitPayment(s, e, effectId, attempt, Proceed)
            == if Seen(runs, deliveries, claims, runId, e) == Applied then WithPayment(s, e, effectId, attempt) else s
  {
    AnswersSequentially(s, e);
    assert RecordedIn(deliveries, runId, e.deliveryId) == Recorded(s, e.deliveryId);
  }

  class InMemoryLedgerStore {
    var runs: map<string, RunState>
    var effects: seq<RunEffect>
    var deliveries: seq<RunRow>
    var claims: map<string, Effect>
    var conflictsLeft: nat
    var conflictsRaised: nat

    /** The tables of one run, as `Storage` sees them. */
    ghost predicate Shows(runId: string, s: Store)
      reads this
    {
      View(runs, effects, deliveries, claims, runId, s)
    }

    constructor (budgets: map<string, int>, conflictsBeforeSuccess: nat)
      ensures forall runId :: runId in budgets ==> Shows(runId, Fresh(budgets[runId]))
      ensures conflictsLeft == conflictsBeforeSuccess && conflictsRaised == 0
    {
      runs := map runId | runId in budgets :: RunState(budgets[runId], 0, 0, 0, 0);
      effects, deliveries, claims := [], [], map[];
      conflictsLeft, conflictsRaised := conflictsBeforeSuccess, 0;
    }

    predicate IsRecorded(runId: string, id: DeliveryId)
      reads this
    {
      RecordedIn(deliveries, runId, id)
    }

    /** An injected conflict changes nothing but its own counters. */
    method MaybeConflict() returns (conflict: bool)
      modifies this`conflictsLeft, this`conflictsRaised
      ensures conflict == (old(conflictsLeft) > 0)
      ensures conflictsLeft == (if conflict then old(conflictsLeft) - 1 else old(conflictsLeft))
      ensures conflictsRaised == old(conflictsRaised) + (if conflict then 1 else 0)
    {
      conflict := conflictsLeft > 0;
      if conflict {
        conflictsLeft := conflictsLeft - 1;
        conflictsRaised := conflictsRaised + 1;
      }
    }

    /** No other run's tables change: run ids without a separator keep the claims apart. */
    twostate predicate OthersKept(runId: string)
      reads this
    {
      OthersSee(old(runs), old(effects), old(deliveries), old(claims), runs, effects, deliveries, claims, runId)
    }

    method CommitPayment(runId: string, e: Event, effectId: nat, attempt: nat, ghost s: Store) returns (answer: Answer)
      requires ValidComponent(runId)
      modifies this
      ensures old(Shows(runId, s)) ==>
                var reply := if old(conflictsLeft) > 0 then Transient else Proceed;
                && answer == CommitAnswer(s, e, reply)
                && Shows(runId, Storage.CommitPayment(s, e, effectId, attempt, reply))
      ensures OthersKept(runId)
    {
      OthersSeeTheSame(runs, effects, deliveries, claims, runId);
      var conflict := MaybeConflict();
      if conflict {
        return WriteConflict;
      }
      if runId !in runs {
        return UnexpectedCancellation;
      }
      if Shows(runId, s) {
        SeenAnswers(runs, effects, deliveries, claims, runId, s, e, effectId, attempt);
      }
      var run := runs[runId];
      if IsRecorded(runId, e.deliveryId) {
        return DeliveryAlreadyRecorded;
      }
      if ClaimKey(runId, e.key) in claims {
        return EntitlementAlreadyClaimed;
      }
      if run.remaining < e.amount {
        return InsufficientBudget(run.remaining);
      }
      var effect := EffectFor(e, effectId);
      claims := claims[ClaimKey(runId, e.key) := effect];
      effects := effects + [RunEffect(runId, effect)];
      deliveries := deliveries + [RunRow(runId, DeliveryFor(e, Committed, attempt, Some(effectId), None))];
      runs := runs[runId := Count(run.(remaining := run.remaining - e.amount), Committed)];
      answer := Applied;
      PaymentViewed(old(runs), old(effects), old(deliveries), old(claims), runId, s, e, effectId, attempt);
    }

    method RecordOutcome(runId: string, row: Delivery, ghost s: Store) returns (answer: Answer)
      requires ValidComponent(runId)
      modifies this
      ensures old(Shows(runId, s)) ==>
                var reply := if old(conflictsLeft) > 0 then Transient else Proceed;
                && answer == RecordAnswer(s, row.deliveryId, reply)
                && Shows(runId, Storage.RecordOutcome(s, row, reply))
      ensures OthersKept(runId)
    {
      OthersSeeTheSame(runs, effects, deliveries, claims, runId);
      var conflict := MaybeConflict();
      if conflict {
        return WriteConflict;
      }
      if runId !in runs {
        return UnexpectedCancellation;
      }
      assert old(Shows(runId, s)) ==>
               RecordAnswer(s, row.deliveryId, Proceed)
               == (if IsRecorded(runId, row.deliveryId) then DeliveryAlreadyRecorded else Applied)
        by {
          if Shows(runId, s) {
            RecordsSequentially(s, row.deliveryId);
            assert IsRecorded(runId, row.deliveryId) == Recorded(s, row.deliveryId);
          }
        }
      if IsRecorded(runId, row.deliveryId) {
        return DeliveryAlreadyRecorded;
      }
      deliveries := deliveries + [RunRow(runId, row)];
      runs := runs[runId := Count(runs[runId], row.outcome)];
      answer := Applied;
      RowViewed(old(runs), old(effects), old(deliveries), old(claims), runId, s, row);
    }

    method DebitBudget(runId: string, amount: int, ghost s: Store) returns (answer: Answer)
      requires ValidComponent(runId)
      modifies this
      ensures old(Shows(runId, s)) ==>
                var reply := if old(conflictsLeft) > 0 then Transient else Proceed;
                && answer == DebitAnswer(s, amount, reply)
                && Shows(runId, Storage.DebitBudget(s, amount, reply))
      ensures OthersKept(runId)
    {
      var conflict := MaybeConflict();
      if conflict {
        return WriteConflict;
      }
      if runId !in runs {
        return UnexpectedCancellation;
      }
      var run := runs[runId];
      if run.remaining < amount {
        return InsufficientBudget(run.remaining);
      }
      runs := runs[runId := run.(remaining := run.remaining - amount)];
      answer := Applied;
    }

    method PutEffect(runId: string, effect: Effect, ghost s: Store)
      requires ValidComponent(runId)
      modifies this`effects
      ensures old(Shows(runId, s)) ==> Shows(runId, WithEffect(s, effect))
      ensures OthersKept(runId)
    {
      effects := effects + [RunEffect(runId, effect)];
      forall other { EffectsGrow(old(effects), RunEffect(runId, effect), other); }
    }

    method PutClaimUnconditionally(runId: string, effect: Effect, ghost s: Store)
      requires ValidComponent(runId)
      modifies this`claims
      ensures old(Shows(runId, s)) ==> Shows(runId, WithClaim(s, effect))
      ensures OthersKept(runId)
    {
      claims := claims[ClaimKey(runId, effect.key) := effect];
      ClaimsGrow(old(claims), runId, effect.key, effect);
    }
  }

  lemma ClaimsApart(runId: string, k: Key)
    requires ValidComponent(runId)
    ensures forall other: string, k': Key :: ValidComponent(other) && ClaimKey(other, k') == ClaimKey(runId, k) ==>
            other == runId && k' == k
  {
    forall other: string, k': Key | ValidComponent(other) && ClaimKey(other, k') == ClaimKey(runId, k)
      ensures other == runId && k' == k
    {
      RunScopedInjective(runId, k, other, k');
    }
  }

  // --- Why the cancellation lists say the same -----------------------------------------------------

  /** The sequential commit: delivery first, then claim, then budget. */
  function SequentialAnswer(s: Store, e: Event): Answer {
    if Recorded(s, e.deliveryId) then DeliveryAlreadyRecorded
    else if e.key in s.claims then EntitlementAlreadyClaimed
    else if s.remaining < e.amount then InsufficientBudget(s.remaining)
    else Applied
  }

  /** A complete list names every failed condition, so its classification is the sequential answer. */
  lemma CompleteListIsSequential(s: Store, e: Event, reasons: seq<Reason>)
    requires s.runExists && SoundCommitReasons(s, e, reasons) && CompleteCommitReasons(s, e, reasons)
    ensures SequentialAnswer(s, e) != Applied ==> ClassifyCommit(reasons) == SequentialAnswer(s, e)
    ensures SequentialAnswer(s, e) == Applied ==>
              ClassifyCommit(reasons)
              == if (exists i :: 0 <= i < 4 &&
                       reasons[i].code in {TransactionConflict, ThrottlingError, ProvisionedThroughputExceeded,
                                           RequestLimitExceeded})
                 then WriteConflict else UnexpectedCancellation
  {
    assert FailedAt(reasons, COMMIT_DELIVERY) <==> !CommitCondition(s, e, COMMIT_DELIVERY);
    assert FailedAt(reasons, COMMIT_IDEMPOTENCY) <==> !CommitCondition(s, e, COMMIT_IDEMPOTENCY);
    assert FailedAt(reasons, COMMIT_RUN_BUDGET) <==> !CommitCondition(s, e, COMMIT_RUN_BUDGET);
  }

  /** The transaction answers what the sequential commit answers. */
  lemma AnswersSequentially(s: Store, e: Event)
    requires s.runExists
    ensures CommitAnswer(s, e, Proceed) == SequentialAnswer(s, e)
  {
    TrueReasons(s, e);
    CompleteListIsSequential(s, e, CommitReasons(s, e));
    SoundCommitAnswer(s, e, Proceed);
  }

  lemma RecordsSequentially(s: Store, id: DeliveryId)
    requires s.runExists
    ensures RecordAnswer(s, id, Proceed) == if Recorded(s, id) then DeliveryAlreadyRecorded else Applied
  {
    if Recorded(s, id) {
      assert FailedAt(RecordReasons(s, id), RECORD_DELIVERY);
    }
  }

  /** The item whose condition the sequential commit finds false first. */
  function DecidingItem(s: Store, e: Event): nat {
    if Recorded(s, e.deliveryId) then COMMIT_DELIVERY
    else if e.key in s.claims then COMMIT_IDEMPOTENCY
    else COMMIT_RUN_BUDGET
  }

  /**
   What a sound list can say, however incomplete. A request the sequential commit would apply is never
   refused with a typed outcome; for one it would refuse, the label is the sequential answer exactly
   when the list names the item that decided it. Nothing is ever applied.
   */
  lemma SequentialIffNamed(s: Store, e: Event, reasons: seq<Reason>)
    requires s.runExists && SoundCommitReasons(s, e, reasons)
    ensures SequentialAnswer(s, e) != Applied ==>
              (ClassifyCommit(reasons) == SequentialAnswer(s, e) <==> FailedAt(reasons, DecidingItem(s, e)))
    ensures SequentialAnswer(s, e) == Applied ==>
              ClassifyCommit(reasons) == WriteConflict || ClassifyCommit(reasons) == UnexpectedCancellation
    ensures ClassifyCommit(reasons) != Applied
  {
    SoundCommitAnswer(s, e, Cancel(reasons));
    assert FailedAt(reasons, COMMIT_DELIVERY) ==> !CommitCondition(s, e, COMMIT_DELIVERY);
    assert FailedAt(reasons, COMMIT_IDEMPOTENCY) ==> !CommitCondition(s, e, COMMIT_IDEMPOTENCY);
  }

  /** And a list can miss it: a conflict that masks the claim turns a duplicate into a budget refusal. */
  lemma IncompleteListMislabels(e: Event, x: Effect) returns (s: Store, reasons: seq<Reason>)
    requires e.amount >= 1
    ensures SoundCommitReasons(s, e, reasons)
    ensures SequentialAnswer(s, e) == EntitlementAlreadyClaimed && ClassifyCommit(reasons) == InsufficientBudget(0)
  {
    s := Fresh(0).(claims := map[e.key := x]);
    reasons := [Reason(TransactionConflict, None), Reason(ConditionFailed, Some(0)), Reason(NoCode, None),
      Reason(NoCode, None)];
    assert !FailedAt(reasons, COMMIT_IDEMPOTENCY) && !FailedAt(reasons, COMMIT_DELIVERY);
  }
}
