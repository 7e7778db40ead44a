/**
 The tables one run writes, and every storage request a processor can make
 (backend/src/adapters/dynamodb/disbursement_store.py).

 Each request is one atomic step. DynamoDB's freedom is in the `Reply`: it may let
 the request proceed, cancel a transaction with a list of reasons, or answer with a
 transient error. A cancelled or transient request writes nothing.
 */
module Storage {
  import opened Domain

  datatype Store = Store(
    runExists: bool, remaining: int,
    delivered: nat, committed: nat, suppressed: nat, exhausted: nat,
    claims: map<Key, Effect>, effects: seq<Effect>, rows: seq<Delivery>)

  /** The Run item as the API creates it, and three empty tables. */
  function Fresh(budget: int): Store {
    Store(true, budget, 0, 0, 0, 0, map[], [], [])
  }

  predicate Recorded(s: Store, id: DeliveryId) {
    exists i | 0 <= i < |s.rows| :: s.rows[i].deliveryId == id
  }

  predicate CanDebit(s: Store, amount: int) {
    s.runExists && s.remaining >= amount
  }

  // --- Writes ------------------------------------------------------------------

  /** The four items of the protected transaction, together. */
  function WithPayment(s: Store, e: Event, effectId: nat, attempt: nat): Store {
    var effect := EffectFor(e, effectId);
    s.(claims := s.claims[e.key := effect],
       remaining := s.remaining - e.amount,
       delivered := s.delivered + 1,
       committed := s.committed + 1,
       effects := s.effects + [effect],
       rows := s.rows + [DeliveryFor(e, Committed, attempt, Some(effectId), None)])
  }

  /** The Deliveries row and its counters, together. */
  function WithRow(s: Store, row: Delivery): Store {
    s.(delivered := s.delivered + 1,
       committed := if row.outcome == Committed then s.committed + 1 else s.committed,
       suppressed := if row.outcome == DuplicateSuppressed then s.suppressed + 1 else s.suppressed,
       exhausted := if row.outcome == BudgetExhausted then s.exhausted + 1 else s.exhausted,
       rows := s.rows + [row])
  }

  function WithDebit(s: Store, amount: int): Store {
    s.(remaining := s.remaining - amount)
  }

  function WithEffect(s: Store, effect: Effect): Store {
    s.(effects := s.effects + [effect])
  }

  function WithClaim(s: Store, effect: Effect): Store {
    s.(claims := s.claims[effect.key := effect])
  }

  // --- Cancellation reasons ------------------------------------------------------

  datatype Code =
    | NoCode
    | ConditionFailed
    | TransactionConflict | ThrottlingError | ProvisionedThroughputExceeded | RequestLimitExceeded
    | OtherCode(text: string)

  predicate IsTransient(c: Code) {
    c.TransactionConflict? || c.ThrottlingError? || c.ProvisionedThroughputExceeded? || c.RequestLimitExceeded?
  }

  /** `remaining` is the budget in the returned Run item, absent when no item came back. */
  datatype Reason = Reason(code: Code, remaining: Option<int>)

  datatype Reply = Proceed | Cancel(reasons: seq<Reason>) | Transient

  /** The typed outcomes of backend/src/processors/base.py. */
  datatype Answer =
    | Applied
    | DeliveryAlreadyRecorded
    | EntitlementAlreadyClaimed
    | InsufficientBudget(remaining: int)
    | WriteConflict
    | UnexpectedCancellation

  const COMMIT_IDEMPOTENCY := 0
  const COMMIT_RUN_BUDGET := 1
  const COMMIT_LEDGER := 2
  const COMMIT_DELIVERY := 3

  const RECORD_DELIVERY := 0
  const RECORD_RUN_COUNTER := 1

  predicate FailedAt(reasons: seq<Reason>, index: nat) {
    index < |reasons| && reasons[index].code == ConditionFailed
  }

  predicate Contended(reasons: seq<Reason>) {
    exists i | 0 <= i < |reasons| :: IsTransient(reasons[i].code)
  }

  function ClassifyCommit(reasons: seq<Reason>): Answer {
    if FailedAt(reasons, COMMIT_DELIVERY) then DeliveryAlreadyRecorded
    else if FailedAt(reasons, COMMIT_IDEMPOTENCY) then EntitlementAlreadyClaimed
    else if FailedAt(reasons, COMMIT_RUN_BUDGET) then
      match reasons[COMMIT_RUN_BUDGET].remaining
      case None => UnexpectedCancellation
      case Some(remaining) => InsufficientBudget(remaining)
    else if Contended(reasons) then WriteConflict
    else UnexpectedCancellation
  }

  function ClassifyRecord(reasons: seq<Reason>): Answer {
    if FailedAt(reasons, RECORD_DELIVERY) then DeliveryAlreadyRecorded
    else if Contended(reasons) then WriteConflict
    else UnexpectedCancellation
  }

  /** Whether the condition on item `index` of the commit transaction holds. */
  predicate CommitCondition(s: Store, e: Event, index: nat) {
    if index == COMMIT_IDEMPOTENCY then e.key !in s.claims
    else if index == COMMIT_RUN_BUDGET then CanDebit(s, e.amount)
    else if index == COMMIT_DELIVERY then !Recorded(s, e.deliveryId)
    else true
  }

  predicate RecordCondition(s: Store, id: DeliveryId, index: nat) {
    if index == RECORD_DELIVERY then !Recorded(s, id)
    else if index == RECORD_RUN_COUNTER then s.runExists
    else true
  }

  predicate CommitAllowed(s: Store, e: Event) {
    && CommitCondition(s, e, COMMIT_IDEMPOTENCY)
    && CommitCondition(s, e, COMMIT_RUN_BUDGET)
    && CommitCondition(s, e, COMMIT_LEDGER)
    && CommitCondition(s, e, COMMIT_DELIVERY)
  }

  predicate RecordAllowed(s: Store, id: DeliveryId) {
    RecordCondition(s, id, RECORD_DELIVERY) && RecordCondition(s, id, RECORD_RUN_COUNTER)
  }

  /** With ALL_OLD, a failed budget condition returns the Run item as it was, if there is one. */
  function RunItem(s: Store): Option<int> {
    if s.runExists then Some(s.remaining) else None
  }

  /** A cancellation list never reports a failed condition that in fact holds. */
  predicate SoundCommitReasons(s: Store, e: Event, reasons: seq<Reason>) {
    && (forall i | 0 <= i < |reasons| && FailedAt(reasons, i) :: !CommitCondition(s, e, i))
    && (FailedAt(reasons, COMMIT_RUN_BUDGET) ==> reasons[COMMIT_RUN_BUDGET].remaining == RunItem(s))
  }

  /** A complete list has one entry per item and reports every failed condition. */
  predicate CompleteCommitReasons(s: Store, e: Event, reasons: seq<Reason>) {
    && |reasons| == 4
    && (forall i | 0 <= i < 4 :: FailedAt(reasons, i) <==> !CommitCondition(s, e, i))
  }

  predicate SoundRecordReasons(s: Store, id: DeliveryId, reasons: seq<Reason>) {
    forall i | 0 <= i < |reasons| && FailedAt(reasons, i) :: !RecordCondition(s, id, i)
  }

  predicate CompleteRecordReasons(s: Store, id: DeliveryId, reasons: seq<Reason>) {
    && |reasons| == 2
    && (forall i | 0 <= i < 2 :: FailedAt(reasons, i) <==> !RecordCondition(s, id, i))
  }

  /** The list DynamoDB reports for a transaction that met no contention. */
  function CommitReasons(s: Store, e: Event): seq<Reason> {
    seq(4, i requires 0 <= i < 4 =>
      if CommitCondition(s, e, i) then Reason(NoCode, None)
      else Reason(ConditionFailed, if i == COMMIT_RUN_BUDGET then RunItem(s) else None))
  }

  function RecordReasons(s: Store, id: DeliveryId): seq<Reason> {
    seq(2, i requires 0 <= i < 2 =>
      if RecordCondition(s, id, i) then Reason(NoCode, None) else Reason(ConditionFailed, None))
  }

  // --- Requests ------------------------------------------------------------------

  function CommitAnswer(s: Store, e: Event, r: Reply): Answer {
    match r
    case Proceed => if CommitAllowed(s, e) then Applied else ClassifyCommit(CommitReasons(s, e))
    case Cancel(reasons) => ClassifyCommit(reasons)
    case Transient => WriteConflict
  }

  function CommitPayment(s: Store, e: Event, effectId: nat, attempt: nat, r: Reply): Store {
    if CommitAnswer(s, e, r) == Applied then WithPayment(s, e, effectId, attempt) else s
  }

  function RecordAnswer(s: Store, id: DeliveryId, r: Reply): Answer {
    match r
    case Proceed => if RecordAllowed(s, id) then Applied else ClassifyRecord(RecordReasons(s, id))
    case Cancel(reasons) => ClassifyRecord(reasons)
    case Transient => WriteConflict
  }

  function RecordOutcome(s: Store, row: Delivery, r: Reply): Store {
    if RecordAnswer(s, row.deliveryId, r) == Applied then WithRow(s, row) else s
  }

  /** One conditional update: accepted, refused with the budget it saw, or contended. */
  function DebitAnswer(s: Store, amount: int, r: Reply): Answer {
    if r.Proceed? then
      if CanDebit(s, amount) then Applied
      else if s.runExists then InsufficientBudget(s.remaining)
      else UnexpectedCancellation
    else WriteConflict
  }

  function DebitBudget(s: Store, amount: int, r: Reply): Store {
    if DebitAnswer(s, amount, r) == Applied then WithDebit(s, amount) else s
  }

  /** Plain writes either happen or meet a transient error. */
  function PutAnswer(r: Reply): Answer {
    if r.Proceed? then Applied else WriteConflict
  }

  // --- Laws ----------------------------------------------------------------------

  /** A cancelled transaction never reads as applied. */
  lemma CancelledNeverApplies(reasons: seq<Reason>)
    ensures ClassifyCommit(reasons) != Applied && ClassifyRecord(reasons) != Applied
  {
  }

  /**
   A sound list, however incomplete, is never misread: each typed outcome implies
   the state it names, and `Applied` is answered exactly when the transaction ran.
   */
  lemma SoundCommitAnswer(s: Store, e: Event, r: Reply)
    requires r.Cancel? ==> SoundCommitReasons(s, e, r.reasons)
    ensures CommitAnswer(s, e, r) == Applied <==> r.Proceed? && CommitAllowed(s, e)
    ensures CommitAnswer(s, e, r) == DeliveryAlreadyRecorded ==> Recorded(s, e.deliveryId)
    ensures CommitAnswer(s, e, r) == EntitlementAlreadyClaimed ==> e.key in s.claims
    ensures CommitAnswer(s, e, r).InsufficientBudget? ==>
              s.remaining == CommitAnswer(s, e, r).remaining < e.amount
  {
    var reasons := if r.Cancel? then r.reasons else CommitReasons(s, e);
    assert FailedAt(reasons, COMMIT_DELIVERY) ==> !CommitCondition(s, e, COMMIT_DELIVERY);
    assert FailedAt(reasons, COMMIT_IDEMPOTENCY) ==> !CommitCondition(s, e, COMMIT_IDEMPOTENCY);
    assert FailedAt(reasons, COMMIT_RUN_BUDGET) ==> !CommitCondition(s, e, COMMIT_RUN_BUDGET);
  }

  lemma SoundRecordAnswer(s: Store, id: DeliveryId, r: Reply)
    requires r.Cancel? ==> SoundRecordReasons(s, id, r.reasons)
    ensures RecordAnswer(s, id, r) == Applied <==> r.Proceed? && RecordAllowed(s, id)
    ensures RecordAnswer(s, id, r) == DeliveryAlreadyRecorded ==> Recorded(s, id)
  {
    var reasons := if r.Cancel? then r.reasons else RecordReasons(s, id);
    assert FailedAt(reasons, RECORD_DELIVERY) ==> !RecordCondition(s, id, RECORD_DELIVERY);
  }

  /** The unobstructed list is both sound and complete. */
  lemma TrueReasons(s: Store, e: Event)
    ensures SoundCommitReasons(s, e, CommitReasons(s, e)) && CompleteCommitReasons(s, e, CommitReasons(s, e))
    ensures SoundRecordReasons(s, e.deliveryId, RecordReasons(s, e.deliveryId))
    ensures CompleteRecordReasons(s, e.deliveryId, RecordReasons(s, e.deliveryId))
  {
  }

  // --- What contention is ----------------------------------------------------------

  /**
   A commit list on which no condition failed is contention exactly when some entry carries one of the
   four transient codes; with any other list the caller must not try again.
   */
  lemma ContendedCommit(reasons: seq<Reason>)
    requires forall i :: 0 <= i < |reasons| && i != 2 && i < 4 ==> reasons[i].code != ConditionFailed
    ensures ClassifyCommit(reasons) == WriteConflict <==>
            exists i :: 0 <= i < |reasons| &&
              reasons[i].code in {TransactionConflict, ThrottlingError, ProvisionedThroughputExceeded,
                                  RequestLimitExceeded}
    ensures ClassifyCommit(reasons) == WriteConflict || ClassifyCommit(reasons) == UnexpectedCancellation
  {
  }

  /** Without a Run item a failed budget condition is neither a refusal nor contention. */
  lemma MissingRunStops(s: Store, e: Event, reasons: seq<Reason>)
    requires !s.runExists && SoundCommitReasons(s, e, reasons)
    requires |reasons| > 1 && reasons[1].code == ConditionFailed
    requires forall i :: 0 <= i < |reasons| && (i == 0 || i == 3) ==> reasons[i].code != ConditionFailed
    ensures ClassifyCommit(reasons) == UnexpectedCancellation
  {
    assert FailedAt(reasons, COMMIT_RUN_BUDGET);
  }

  lemma ContendedRecord(reasons: seq<Reason>)
    requires reasons == [] || reasons[0].code != ConditionFailed
    ensures ClassifyRecord(reasons) == WriteConflict <==>
            exists i :: 0 <= i < |reasons| &&
              reasons[i].code in {TransactionConflict, ThrottlingError, ProvisionedThroughputExceeded,
                                  RequestLimitExceeded}
    ensures ClassifyRecord(reasons) == WriteConflict || ClassifyRecord(reasons) == UnexpectedCancellation
  {
  }

  /** The debit: what it answers and what it leaves, whatever the reply. */
  lemma DebitExact(s: Store, amount: int, r: Reply)
    ensures r != Proceed ==> DebitAnswer(s, amount, r) == WriteConflict
    ensures r == Proceed && !s.runExists ==> DebitAnswer(s, amount, r) == UnexpectedCancellation
    ensures r == Proceed && s.runExists && s.remaining < amount ==>
              DebitAnswer(s, amount, r) == InsufficientBudget(s.remaining)
    ensures r == Proceed && s.runExists && s.remaining >= amount ==> DebitAnswer(s, amount, r) == Applied
    ensures DebitBudget(s, amount, r)
            == if DebitAnswer(s, amount, r) == Applied then s.(remaining := s.remaining - amount) else s
  {
  }

  // --- What the writes write ---------------------------------------------------------

  /** The four writes of one payment, item by item. */
  ghost predicate PaidInFull(s: Store, s': Store, e: Event, effectId: nat, attempt: nat) {
    && |s'.effects| == |s.effects| + 1 && s'.effects[..|s.effects|] == s.effects
    && |s'.rows| == |s.rows| + 1 && s'.rows[..|s.rows|] == s.rows
    && var x, row := s'.effects[|s.effects|], s'.rows[|s.rows|];
    && PaymentOf(x, e) && x.effectId == effectId
    && RecordOf(row, e) && row.outcome == Committed && row.effectId == Some(effectId)
    && row.attempt == attempt && row.seen == None
    && s'.claims == s.claims[e.key := x] && s'.remaining == s.remaining - e.amount
    && s'.delivered == s.delivered + 1 && s'.committed == s.committed + 1
    && s'.suppressed == s.suppressed && s'.exhausted == s.exhausted && s'.runExists == s.runExists
  }

  lemma PaymentIsWhole(s: Store, e: Event, effectId: nat, attempt: nat)
    ensures PaidInFull(s, WithPayment(s, e, effectId, attempt), e, effectId, attempt)
  {
  }

  /** Whatever the reply: the whole payment, or the tables as they were. */
  lemma CommitPaysInFull(s: Store, e: Event, effectId: nat, attempt: nat, r: Reply)
    ensures var s' := CommitPayment(s, e, effectId, attempt, r);
            if CommitAnswer(s, e, r) == Applied then PaidInFull(s, s', e, effectId, attempt) else s' == s
  {
  }
}
