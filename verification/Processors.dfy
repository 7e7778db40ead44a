/**
 The three processors as objects (backend/src/processors/{protected,vulnerable,naive}.py). Each
 `Process` call is proved to be a worker of `Machine`, request by request.
 */
module Processors {
  import opened Domain
  import opened Keys
  import opened Storage
  import opened Machine
  import opened Tables
  import opened Retrying

  // --- A call is a worker --------------------------------------------------------------------------

  /** The worker after a list of exchanges. */
  function WorkerOf(max: nat, p: Processor, w: Worker, exchanges: seq<Exchange>): Worker {
    if exchanges == [] then w
    else
      var last := exchanges[|exchanges| - 1];
      WorkerAfter(max, p, last.seen, WorkerOf(max, p, w, exchanges[..|exchanges| - 1]), last.reply)
  }

  /** Every exchange was made by the live worker, and left the tables as that worker's request does. */
  ghost predicate Worked(max: nat, p: Processor, w: Worker, exchanges: seq<Exchange>) {
    exchanges == [] ||
    var n := |exchanges| - 1;
    Worked(max, p, w, exchanges[..n]) && Requested(WorkerOf(max, p, w, exchanges[..n]), exchanges[n])
  }

  ghost predicate Requested(w: Worker, x: Exchange) {
    Live(w) && x.after == StoreAfter(x.seen, w, x.reply)
  }

  lemma WorkedOne(max: nat, p: Processor, w: Worker, exchanges: seq<Exchange>, x: Exchange)
    requires Worked(max, p, w, exchanges) && Requested(WorkerOf(max, p, w, exchanges), x)
    ensures Worked(max, p, w, exchanges + [x])
    ensures WorkerOf(max, p, w, exchanges + [x]) == WorkerAfter(max, p, x.seen, WorkerOf(max, p, w, exchanges), x.reply)
  {
    assert (exchanges + [x])[..|exchanges|] == exchanges;
  }

  lemma {:induction false} WorkedMore(max: nat, p: Processor, w: Worker, xs: seq<Exchange>, ys: seq<Exchange>)
    requires Worked(max, p, w, xs) && Worked(max, p, WorkerOf(max, p, w, xs), ys)
    ensures Worked(max, p, w, xs + ys)
    ensures WorkerOf(max, p, w, xs + ys) == WorkerOf(max, p, WorkerOf(max, p, w, xs), ys)
    decreases |ys|
  {
    if ys == [] {
      assert xs + ys == xs;
    } else {
      var n := |ys| - 1;
      WorkedMore(max, p, w, xs, ys[..n]);
      LastOfConcat(xs, ys);
    }
  }

  lemma LastOfConcat<T>(xs: seq<T>, ys: seq<T>)
    requires ys != []
    ensures var n := |xs + ys| - 1;
            (xs + ys)[..n] == xs + ys[..|ys| - 1] && (xs + ys)[n] == ys[|ys| - 1]
  {
  }

  /** The retried request a worker is about to make. */
  function OperationOf(w: Worker): Option<Operation> {
    match w.pc
    case CommitPc => Some(Commit(w.event, w.effectId))
    case DebitPc => Some(Operation.Debit(w.event.amount))
    case RecordPc(o, id, seen) => Some(Record(w.event, o, id, seen))
    case _ => None
  }

  function Answered(max: nat, w: Worker, a: Answer): Worker {
    match w.pc
    case CommitPc => AfterCommit(max, w, a)
    case DebitPc => AfterDebit(max, w, a)
    case RecordPc(_, _, _) => AfterRecord(max, w, a)
    case _ => w
  }

  /** A retried request does to the tables what the worker's request does. */
  lemma OperationIsRequest(w: Worker, op: Operation, x: Exchange)
    requires OperationOf(w) == Some(op) && x.after == Performed(op, x.seen, w.attempts + 1, x.reply)
    ensures Requested(w, x)
  {
  }

  lemma ConflictStep(max: nat, p: Processor, s: Store, w: Worker, op: Operation, r: Reply)
    requires OperationOf(w) == Some(op) && AnswerTo(op, s, r) == WriteConflict
    ensures WorkerAfter(max, p, s, w, r) == Backoff(max, w)
  {
  }

  lemma AnsweredStep(max: nat, p: Processor, s: Store, w: Worker, op: Operation, r: Reply)
    requires OperationOf(w) == Some(op)
    ensures WorkerAfter(max, p, s, w, r) == Answered(max, w, AnswerTo(op, s, r))
  {
  }

  lemma ConflictOne(max: nat, p: Processor, w: Worker, op: Operation, n: nat, x: Exchange)
    requires OperationOf(w) == Some(op) && n + 1 < max && AnswerTo(op, x.seen, x.reply) == WriteConflict
    requires x.after == Performed(op, x.seen, w.attempts + n + 1, x.reply)
    ensures Requested(Conflicted(w, n), x)
    ensures WorkerAfter(max, p, x.seen, Conflicted(w, n), x.reply) == Conflicted(w, n + 1)
  {
    OperationIsRequest(Conflicted(w, n), op, x);
    ConflictStep(max, p, x.seen, Conflicted(w, n), op, x.reply);
  }

  /** Conflicts only count: after `n` of them the worker stands where it stood. */
  lemma {:induction false} ConflictsFold(max: nat, p: Processor, w: Worker, op: Operation, exchanges: seq<Exchange>)
    requires OperationOf(w) == Some(op) && w.failures == 0 && |exchanges| < max
    requires AllPerformed(op, w.attempts, exchanges) && AllConflicts(op, exchanges)
    ensures Worked(max, p, w, exchanges)
    ensures WorkerOf(max, p, w, exchanges) == Conflicted(w, |exchanges|)
  {
    if exchanges != [] {
      var n := |exchanges| - 1;
      ConflictsFold(max, p, w, op, exchanges[..n]);
      ConflictOne(max, p, w, op, n, exchanges[n]);
      FoldLast(max, p, w, exchanges[..n], exchanges[n], Conflicted(w, n));
      FrontAndLast(exchanges);
    }
  }

  /** The retrier's loop is the worker's own retrying: answered after some conflicts, or given up. */
  lemma RetriedFold(max: nat, p: Processor, w: Worker, op: Operation, exchanges: seq<Exchange>, answer: Option<Answer>)
    requires OperationOf(w) == Some(op) && w.failures == 0
    requires Retried(op, w.attempts, max, exchanges, answer)
    ensures Worked(max, p, w, exchanges)
    ensures answer.Some? ==>
            WorkerOf(max, p, w, exchanges) == Answered(max, Conflicted(w, |exchanges| - 1), answer.value)
    ensures answer.None? ==> WorkerOf(max, p, w, exchanges) == Vanish(Conflicted(w, |exchanges|))
  {
    var n := |exchanges| - 1;
    FrontOfRetried(op, w.attempts, max, exchanges, answer, n);
    ConflictsFold(max, p, w, op, exchanges[..n]);
    FoldAnswered(max, p, w, op, n, exchanges[..n], exchanges[n], answer);
  }

  lemma FoldAnswered(
      max: nat, p: Processor, w: Worker, op: Operation, n: nat, front: seq<Exchange>, x: Exchange,
      answer: Option<Answer>)
    requires Worked(max, p, w, front) && WorkerOf(max, p, w, front) == Conflicted(w, n)
    requires OperationOf(w) == Some(op) && x.after == Performed(op, x.seen, w.attempts + n + 1, x.reply)
    requires answer.Some? ==> AnswerTo(op, x.seen, x.reply) == answer.value
    requires answer.None? ==> n + 1 == max && AnswerTo(op, x.seen, x.reply) == WriteConflict
    ensures Worked(max, p, w, front + [x])
    ensures WorkerOf(max, p, w, front + [x])
            == if answer.Some? then Answered(max, Conflicted(w, n), answer.value) else Vanish(Conflicted(w, n + 1))
  {
    LastOne(max, p, w, op, n, x, answer);
    FoldLast(max, p, w, front, x, Conflicted(w, n));
  }

  lemma FrontAndLast<T>(xs: seq<T>)
    requires xs != []
    ensures xs[..|xs| - 1] + [xs[|xs| - 1]] == xs
  {
  }

  lemma LastOne(max: nat, p: Processor, w: Worker, op: Operation, n: nat, x: Exchange, answer: Option<Answer>)
    requires OperationOf(w) == Some(op) && x.after == Performed(op, x.seen, w.attempts + n + 1, x.reply)
    requires answer.Some? ==> AnswerTo(op, x.seen, x.reply) == answer.value
    requires answer.None? ==> n + 1 == max && AnswerTo(op, x.seen, x.reply) == WriteConflict
    ensures Requested(Conflicted(w, n), x)
    ensures WorkerAfter(max, p, x.seen, Conflicted(w, n), x.reply)
            == if answer.Some? then Answered(max, Conflicted(w, n), answer.value) else Vanish(Conflicted(w, n + 1))
  {
    LastExchange(max, p, w, op, n, x);
    GivesUp(max, w, op, n);
  }

  /** The worker after `n` conflicts in a row. */
  function Conflicted(w: Worker, n: int): Worker {
    if n < 0 then w else w.(attempts := w.attempts + n, failures := n)
  }

  lemma FoldLast(max: nat, p: Processor, w: Worker, front: seq<Exchange>, x: Exchange, now: Worker)
    requires Worked(max, p, w, front) && WorkerOf(max, p, w, front) == now && Requested(now, x)
    ensures Worked(max, p, w, front + [x])
    ensures WorkerOf(max, p, w, front + [x]) == WorkerAfter(max, p, x.seen, now, x.reply)
  {
    WorkedOne(max, p, w, front, x);
  }

  lemma FrontOfRetried(op: Operation, attempts: nat, max: nat, exchanges: seq<Exchange>, answer: Option<Answer>, n: nat)
    requires Retried(op, attempts, max, exchanges, answer) && n + 1 == |exchanges|
    ensures AllPerformed(op, attempts, exchanges[..n]) && AllConflicts(op, exchanges[..n]) && n < max
    ensures exchanges[n].after == Performed(op, exchanges[n].seen, attempts + n + 1, exchanges[n].reply)
    ensures answer.Some? ==> AnswerTo(op, exchanges[n].seen, exchanges[n].reply) == answer.value
    ensures answer.None? ==> n + 1 == max && AnswerTo(op, exchanges[n].seen, exchanges[n].reply) == WriteConflict
    ensures exchanges[..n] + [exchanges[n]] == exchanges
  {
  }

  lemma LastExchange(max: nat, p: Processor, w: Worker, op: Operation, n: nat, x: Exchange)
    requires OperationOf(w) == Some(op) && x.after == Performed(op, x.seen, w.attempts + n + 1, x.reply)
    ensures var now := Conflicted(w, n);
            Requested(now, x) && WorkerAfter(max, p, x.seen, now, x.reply)
              == Answered(max, now, AnswerTo(op, x.seen, x.reply))
  {
    var now := Conflicted(w, n);
    OperationIsRequest(now, op, x);
    AnsweredStep(max, p, x.seen, now, op, x.reply);
  }

  lemma GivesUp(max: nat, w: Worker, op: Operation, n: nat)
    requires OperationOf(w) == Some(op)
    ensures n + 1 == max ==> Answered(max, Conflicted(w, n), WriteConflict) == Vanish(Conflicted(w, n + 1))
  {
  }

  // --- The processors ------------------------------------------------------------------------------

  /** What the queue worker learns: an outcome, a rejected message, or an error that redelivers it. */
  datatype ProcessResult =
    | Processed(status: Status, attempts: nat, effectId: Option<nat>)
    | InvalidEvent
    | Raised

  /** The exchanges of one call are those of one worker, which is done or has vanished as reported. */
  ghost predicate Called(max: nat, p: Processor, w: Worker, exchanges: seq<Exchange>, r: ProcessResult) {
    && Worked(max, p, w, exchanges)
    && match r
       case Processed(status, attempts, _) =>
         WorkerOf(max, p, w, exchanges).pc == DonePc(status) && WorkerOf(max, p, w, exchanges).attempts == attempts
       case Raised => WorkerOf(max, p, w, exchanges).pc.VanishedPc?
       case InvalidEvent => false
  }

  /** How retriers are made: the limits, and the random draws. */
  datatype Settings = Settings(maxAttempts: nat, baseDelay: real, maxDelay: real, jitter: nat -> real)

  ghost predicate ValidSettings(s: Settings) {
    s.maxAttempts >= 1 && s.baseDelay >= 0.0 && s.maxDelay >= 0.0 && forall i :: 0.0 <= s.jitter(i) <= 1.0
  }

  /** The most one retried operation sleeps. */
  function LongestSleep(s: Settings): real
    requires s.maxAttempts >= 1
  {
    CappedSum(s.baseDelay, s.maxDelay, s.maxAttempts - 1)
  }

  lemma {:induction false} SleepNonNegative(s: Settings)
    requires ValidSettings(s)
    ensures LongestSleep(s) >= 0.0
  {
    SumGrows(s.baseDelay, s.maxDelay, 0, s.maxAttempts - 1);
  }

  /** The exchanges a store has made since `before`. */
  ghost function Since(store: DynamoDisbursementStore, before: seq<Exchange>): seq<Exchange>
    reads store
  {
    if |before| <= |store.trace| then store.trace[|before|..] else []
  }

  lemma CalledMore(max: nat, p: Processor, w: Worker, first: seq<Exchange>, second: seq<Exchange>, r: ProcessResult)
    requires Worked(max, p, w, first) && Called(max, p, WorkerOf(max, p, w, first), second, r)
    ensures Called(max, p, w, first + second, r)
  {
    WorkedMore(max, p, w, first, second);
  }

  /** After the exchanges `first` the worker stands at `pc`, with what the retrier has counted. */
  ghost predicate Stands(max: nat, p: Processor, w: Worker, first: seq<Exchange>, pc: Pc, attempts: nat) {
    Worked(max, p, w, first) && WorkerOf(max, p, w, first) == w.(pc := pc, attempts := attempts, failures := 0)
  }

  /** What `_record` returns or raises. */
  function RecordResult(outcome: Outcome, effectId: Option<nat>, attempts: nat, answer: Option<Answer>): ProcessResult {
    match answer
    case None => Raised
    case Some(a) =>
      match a
      case Applied => Processed(Decided(outcome), attempts, effectId)
      case DeliveryAlreadyRecorded => Processed(AlreadyProcessed, attempts, effectId)
      case _ => Raised
  }

  lemma RecordCalled(max: nat, p: Processor, now: Worker, second: seq<Exchange>, answer: Option<Answer>)
    requires now.pc.RecordPc? && now.failures == 0
    requires Retried(Record(now.event, now.pc.outcome, now.pc.effectId, now.pc.seen), now.attempts, max, second, answer)
    ensures Called(max, p, now, second, RecordResult(now.pc.outcome, now.pc.effectId, now.attempts + |second|, answer))
  {
    RetriedFold(max, p, now, OperationOf(now).value, second, answer);
  }

  /** The last transaction of a call, after the exchanges `first`: the row, whatever led to it. */
  method RecordDelivery(
      store: DynamoDisbursementStore, retrier: ConflictRetrier, event: Event,
      outcome: Outcome, effectId: Option<nat>, seen: Option<int>,
      ghost p: Processor, ghost w: Worker, ghost first: seq<Exchange>, ghost before: seq<Exchange>)
    returns (r: ProcessResult)
    requires store.Valid() && retrier.Valid() && store.trace == before + first
    requires w.event == event
    requires Stands(retrier.maxAttempts, p, w, first, RecordPc(outcome, effectId, seen), retrier.attempts)
    modifies store`tables, store`requests, store`trace, retrier`attempts, retrier`slept
    ensures store.Valid() && retrier.Valid() && |before| <= |store.trace| && store.trace[..|before|] == before
    ensures Called(retrier.maxAttempts, p, w, Since(store, before), r)
    ensures |old(store.trace)| <= |store.trace| <= |old(store.trace)| + retrier.maxAttempts
    ensures retrier.attempts == old(retrier.attempts) + |store.trace| - |old(store.trace)|
    ensures retrier.slept <= old(retrier.slept)
            + CappedSum(retrier.baseDelay, retrier.maxDelay, retrier.maxAttempts - 1)
    ensures r != InvalidEvent
    ensures r.Processed? ==>
              && r.attempts == retrier.attempts && r.effectId == effectId
              && (r.status == Decided(outcome) || r.status == AlreadyProcessed)
  {
    ghost var now := WorkerOf(retrier.maxAttempts, p, w, first);
    var answer := retrier.Run(store, Record(event, outcome, effectId, seen));
    ghost var second := Since(store, old(store.trace));
    r := RecordResult(outcome, effectId, retrier.attempts, answer);
    RecordCalled(retrier.maxAttempts, p, now, second, answer);
    CalledMore(retrier.maxAttempts, p, w, first, second, r);
    SplitTrace(store.trace, before, first);
  }

  lemma SplitTrace<T>(trace: seq<T>, before: seq<T>, first: seq<T>)
    requires |before + first| <= |trace| && trace[..|before + first|] == before + first
    ensures trace[..|before|] == before && trace[|before|..] == first + trace[|before + first|..]
  {
    assert trace == before + first + trace[|before + first|..];
  }

  lemma SplitLast<T>(trace: seq<T>, before: seq<T>, first: seq<T>)
    requires |trace| == |before + first| + 1 && trace[..|before + first|] == before + first
    ensures trace[..|before|] == before && trace[|before|..] == first + [trace[|trace| - 1]]
  {
    SplitTrace(trace, before, first);
  }

  /** A message the processor can work on at all. */
  predicate Acceptable(e: Event) {
    ConsistentKey(e) && IdempotencyKeyFor(e.runId, e.key).Ok?
  }

  /** A refused commit: what is to be recorded about it. */
  datatype Refusal = Refusal(outcome: Outcome, seen: Option<int>)

  /** What the first transaction decides: the result of the call, or a refusal still to be recorded. */
  function CommitResult(answer: Option<Answer>, effectId: nat, attempts: nat): Result<ProcessResult, Refusal> {
    match answer
    case None => Ok(Raised)
    case Some(a) =>
      match a
      case Applied => Ok(Processed(Decided(Committed), attempts, Some(effectId)))
      case DeliveryAlreadyRecorded => Ok(Processed(AlreadyProcessed, attempts, None))
      case EntitlementAlreadyClaimed => Err(Refusal(DuplicateSuppressed, None))
      case InsufficientBudget(remaining) => Err(Refusal(BudgetExhausted, Some(remaining)))
      case _ => Ok(Raised)
  }

  lemma CommitCalled(max: nat, w: Worker, first: seq<Exchange>, answer: Option<Answer>)
    requires w.pc == CommitPc && w.failures == 0 && w.attempts == 0
    requires Retried(Commit(w.event, w.effectId), 0, max, first, answer)
    ensures match CommitResult(answer, w.effectId, |first|)
            case Ok(r) => Called(max, Protected, w, first, r)
            case Err(refusal) => Stands(max, Protected, w, first, RecordPc(refusal.outcome, None, refusal.seen),
              |first|)
  {
    RetriedFold(max, Protected, w, Commit(w.event, w.effectId), first, answer);
  }

  class ProtectedProcessor {
    const store: DynamoDisbursementStore
    const settings: Settings

    constructor (store: DynamoDisbursementStore, settings: Settings)
      ensures this.store == store && this.settings == settings
    {
      this.store, this.settings := store, settings;
    }

    /** One atomic transaction; when it is refused, a second one that only records the refusal. */
    method Process(event: Event, effectId: nat) returns (r: ProcessResult, slept: real)
      requires store.Valid() && ValidSettings(settings)
      modifies store`tables, store`requests, store`trace
      ensures store.Valid()
      ensures |old(store.trace)| <= |store.trace| && store.trace[..|old(store.trace)|] == old(store.trace)
      ensures r == InvalidEvent <==> !Acceptable(event)
      ensures r == InvalidEvent <==>
              || BuildEntitlementKey(event.schemeId, event.beneficiaryId, event.academicYear, event.installment)
                 != Ok(event.key)
              || event.runId == "" || '#' in event.runId
      ensures !Acceptable(event) ==> store.trace == old(store.trace) && store.tables == old(store.tables)
      ensures Acceptable(event) ==>
                Called(settings.maxAttempts, Protected, Start(Protected, event, effectId),
                  Since(store, old(store.trace)), r)
      ensures |store.trace| <= |old(store.trace)| + 2 * settings.maxAttempts
      ensures r.Processed? ==> r.attempts == |store.trace| - |old(store.trace)|
      ensures r.Processed? ==> r.effectId == if r.status == Decided(Committed) then Some(effectId) else None
      ensures slept <= 2.0 * LongestSleep(settings)
    {
      slept := 0.0;
      SleepNonNegative(settings);
      if !ConsistentKey(event) || IdempotencyKeyFor(event.runId, event.key).Err? {
        return InvalidEvent, slept;
      }
      var retrier := new ConflictRetrier(settings.maxAttempts, settings.baseDelay, settings.maxDelay, settings.jitter);
      ghost var w := Start(Protected, event, effectId);
      var answer := retrier.Run(store, Commit(event, effectId));
      ghost var first := Since(store, old(store.trace));
      slept := retrier.slept;
      ghost var bound := LongestSleep(settings);
      assert slept <= bound;
      CommitCalled(settings.maxAttempts, w, first, answer);
      match CommitResult(answer, effectId, retrier.attempts) {
        case Ok(result) => r := result;
        case Err(refusal) =>
          r := RecordDelivery(store, retrier, event, refusal.outcome, None, refusal.seen, Protected, w, first,
            old(store.trace));
          slept := retrier.slept;
          assert slept <= bound + bound;
          assert refusal.outcome != Committed;
      }
    }
  }

  // --- Check, debit, pay, record ---------------------------------------------------------------------

  lemma CheckStands(max: nat, p: Processor, w: Worker, first: seq<Exchange>, x: Exchange, attempts: nat)
    requires Stands(max, p, w, first, CheckDeliveryPc, attempts) && x.after == x.seen
    ensures Stands(max, p, w, first + [x],
                   if Recorded(x.seen, w.event.deliveryId) then DonePc(AlreadyProcessed)
                   else if p == Naive then CheckClaimPc else DebitPc, attempts)
  {
    WorkedOne(max, p, w, first, x);
  }

  lemma ClaimStands(max: nat, p: Processor, w: Worker, first: seq<Exchange>, x: Exchange, attempts: nat)
    requires Stands(max, p, w, first, CheckClaimPc, attempts) && x.after == x.seen
    ensures Stands(max, p, w, first + [x],
                   if w.event.key in x.seen.claims then RecordPc(DuplicateSuppressed, None, None)
                     else DebitPc, attempts)
  {
    WorkedOne(max, p, w, first, x);
  }

  lemma PutStands(max: nat, p: Processor, w: Worker, first: seq<Exchange>, x: Exchange, attempts: nat)
    requires Stands(max, p, w, first, PutEffectPc, attempts)
    requires x.after == if PutAnswer(x.reply) == Applied then WithEffect(x.seen, EffectFor(w.event, w.effectId))
             else x.seen
    ensures PutAnswer(x.reply) == Applied ==> Stands(max, p, w, first + [x], AfterEffect(p, w), attempts)
    ensures PutAnswer(x.reply) != Applied ==> Called(max, p, w, first + [x], Raised)
  {
    WorkedOne(max, p, w, first, x);
  }

  lemma ClaimPutStands(max: nat, p: Processor, w: Worker, first: seq<Exchange>, x: Exchange, attempts: nat)
    requires Stands(max, p, w, first, PutClaimPc, attempts)
    requires x.after == if PutAnswer(x.reply) == Applied then WithClaim(x.seen, EffectFor(w.event, w.effectId))
             else x.seen
    ensures PutAnswer(x.reply) == Applied ==>
            Stands(max, p, w, first + [x], RecordPc(Committed, Some(w.effectId), None), attempts)
    ensures PutAnswer(x.reply) != Applied ==> Called(max, p, w, first + [x], Raised)
  {
    WorkedOne(max, p, w, first, x);
  }

  lemma DebitStands(
      max: nat, p: Processor, w: Worker, first: seq<Exchange>, second: seq<Exchange>, attempts: nat,
      answer: Option<Answer>)
    requires Stands(max, p, w, first, DebitPc, attempts)
    requires Retried(Operation.Debit(w.event.amount), attempts, max, second, answer)
    ensures match answer
            case Some(Applied) => Stands(max, p, w, first + second, PutEffectPc, attempts + |second|)
            case Some(InsufficientBudget(remaining)) =>
              Stands(max, p, w, first + second, RecordPc(BudgetExhausted, None, Some(remaining)), attempts + |second|)
            case _ => Called(max, p, w, first + second, Raised)
  {
    var now := WorkerOf(max, p, w, first);
    RetriedFold(max, p, now, OperationOf(now).value, second, answer);
    WorkedMore(max, p, w, first, second);
    DebitAnswered(OperationOf(now).value, attempts, max, second, answer);
  }

  lemma DebitAnswered(op: Operation, attempts: nat, max: nat, exchanges: seq<Exchange>, answer: Option<Answer>)
    requires op.Debit? && Retried(op, attempts, max, exchanges, answer)
    ensures answer.Some? ==>
            answer.value.Applied? || answer.value.InsufficientBudget? || answer.value.UnexpectedCancellation?
  {
  }

  /** The first read of both: was this very delivery recorded already? */
  method CheckDelivery(
      store: DynamoDisbursementStore, event: Event, ghost max: nat, ghost p: Processor, ghost w: Worker)
    returns (recorded: bool, ghost made: seq<Exchange>)
    requires store.Valid() && w.event == event && w.pc == CheckDeliveryPc && w.attempts == 0 && w.failures == 0
    modifies store`tables, store`requests, store`trace
    ensures store.Valid() && store.trace == old(store.trace) + made && |made| == 1
    ensures var next := if p == Naive then CheckClaimPc else DebitPc;
            Stands(max, p, w, made, if recorded then DonePc(AlreadyProcessed) else next, 0)
  {
    recorded := store.IsDeliveryRecorded(event.deliveryId);
    ghost var x := store.trace[|store.trace| - 1];
    CheckStands(max, p, w, [], x, 0);
    made := [] + [x];
  }

  /** The naive read: was this entitlement claimed by now? */
  method CheckClaim(
      store: DynamoDisbursementStore, event: Event, ghost max: nat, ghost w: Worker, ghost first: seq<Exchange>,
      ghost before: seq<Exchange>)
    returns (claimed: bool, ghost made: seq<Exchange>)
    requires store.Valid() && w.event == event && store.trace == before + first
    requires Stands(max, Naive, w, first, CheckClaimPc, 0)
    modifies store`tables, store`requests, store`trace
    ensures store.Valid() && store.trace == before + made && |made| == |first| + 1
    ensures Stands(max, Naive, w, made, if claimed then RecordPc(DuplicateSuppressed, None, None) else DebitPc, 0)
  {
    claimed := store.IsEntitlementClaimed(event.key);
    ghost var x := store.trace[|store.trace| - 1];
    ClaimStands(max, Naive, w, first, x, 0);
    made := first + [x];
  }

  datatype Spending = Spent | Refused(remaining: int) | Failed

  /** Two separate requests: the budget debit, retried, and the payment, not retried. */
  method DebitAndPay(
      store: DynamoDisbursementStore, retrier: ConflictRetrier, event: Event, effectId: nat,
      ghost p: Processor, ghost w: Worker, ghost first: seq<Exchange>, ghost before: seq<Exchange>)
    returns (spending: Spending)
    requires store.Valid() && retrier.Valid() && store.trace == before + first
    requires w.event == event && w.effectId == effectId
    requires Stands(retrier.maxAttempts, p, w, first, DebitPc, retrier.attempts)
    modifies store`tables, store`requests, store`trace, retrier`attempts, retrier`slept
    ensures store.Valid() && retrier.Valid() && |before| <= |store.trace| && store.trace[..|before|] == before
    ensures |old(store.trace)| <= |store.trace| <= |old(store.trace)| + retrier.maxAttempts + 1
    ensures spending == Spent ==>
              Stands(retrier.maxAttempts, p, w, Since(store, before), AfterEffect(p, w), retrier.attempts)
    ensures spending.Refused? ==>
              Stands(retrier.maxAttempts, p, w, Since(store, before),
                RecordPc(BudgetExhausted, None, Some(spending.remaining)), retrier.attempts)
    ensures spending == Failed ==> Called(retrier.maxAttempts, p, w, Since(store, before), Raised)
  {
    ghost var tried := retrier.attempts;
    var answer := retrier.Run(store, Operation.Debit(event.amount));
    ghost var second := Since(store, old(store.trace));
    DebitStands(retrier.maxAttempts, p, w, first, second, tried, answer);
    SplitTrace(store.trace, before, first);
    if answer.None? || answer.value.UnexpectedCancellation? {
      return Failed;
    }
    if answer.value.InsufficientBudget? {
      return Refused(answer.value.remaining);
    }
    ghost var made := first + second;
    var written := store.PutEffect(EffectFor(event, effectId));
    PutStands(retrier.maxAttempts, p, w, made, store.trace[|store.trace| - 1], retrier.attempts);
    SplitLast(store.trace, before, made);
    spending := if written == Applied then Spent else Failed;
  }

  class VulnerableProcessor {
    const store: DynamoDisbursementStore
    const settings: Settings

    constructor (store: DynamoDisbursementStore, settings: Settings)
      ensures this.store == store && this.settings == settings
    {
      this.store, this.settings := store, settings;
    }

    /** Check the delivery, debit, pay, record: four requests, only some of them retried. */
    method Process(event: Event, effectId: nat) returns (r: ProcessResult)
      requires store.Valid() && ValidSettings(settings)
      modifies store`tables, store`requests, store`trace
      ensures store.Valid()
      ensures |old(store.trace)| <= |store.trace| && store.trace[..|old(store.trace)|] == old(store.trace)
      ensures r == InvalidEvent <==> !ConsistentKey(event)
      ensures r == InvalidEvent ==> store.trace == old(store.trace) && store.tables == old(store.tables)
      ensures r != InvalidEvent ==>
                Called(settings.maxAttempts, Vulnerable, Start(Vulnerable, event, effectId),
                  Since(store, old(store.trace)), r)
      ensures |store.trace| <= |old(store.trace)| + 2 * settings.maxAttempts + 2
      ensures r.Processed? && r.status.Decided? ==>
                r.effectId == if r.status.outcome == Committed then Some(effectId) else None
    {
      ghost var before := store.trace;
      if !ConsistentKey(event) {
        return InvalidEvent;
      }
      var retrier := new ConflictRetrier(settings.maxAttempts, settings.baseDelay, settings.maxDelay, settings.jitter);
      ghost var max, w := settings.maxAttempts, Start(Vulnerable, event, effectId);
      var recorded, made := CheckDelivery(store, event, max, Vulnerable, w);
      if recorded {
        return Processed(AlreadyProcessed, retrier.attempts, None);
      }
      var spending := DebitAndPay(store, retrier, event, effectId, Vulnerable, w, made, before);
      made := Since(store, before);
      match spending
      case Failed => return Raised;
      case Refused(remaining) =>
        r := RecordDelivery(store, retrier, event, BudgetExhausted, None, Some(remaining), Vulnerable, w, made, before);
      case Spent =>
        r := RecordDelivery(store, retrier, event, Committed, Some(effectId), None, Vulnerable, w, made, before);
    }
  }

  class NaiveProcessor {
    const store: DynamoDisbursementStore
    const settings: Settings

    constructor (store: DynamoDisbursementStore, settings: Settings)
      ensures this.store == store && this.settings == settings
    {
      this.store, this.settings := store, settings;
    }

    /** Check the delivery and the claim, wait, then debit, pay, claim and record. */
    method Process(event: Event, effectId: nat) returns (r: ProcessResult)
      requires store.Valid() && ValidSettings(settings)
      modifies store`tables, store`requests, store`trace
      ensures store.Valid()
      ensures |old(store.trace)| <= |store.trace| && store.trace[..|old(store.trace)|] == old(store.trace)
      ensures !ConsistentKey(event) ==> r == InvalidEvent && store.trace == old(store.trace)
      ensures r == InvalidEvent ==> !Acceptable(event) && |store.trace| <= |old(store.trace)| + 1
      ensures r != InvalidEvent ==>
                Called(settings.maxAttempts, Naive, Start(Naive, event, effectId), Since(store, old(store.trace)), r)
      ensures |store.trace| <= |old(store.trace)| + 2 * settings.maxAttempts + 4
      ensures r.Processed? && r.status.Decided? ==>
                r.effectId == if r.status.outcome == Committed then Some(effectId) else None
    {
      ghost var before := store.trace;
      if !ConsistentKey(event) {
        return InvalidEvent;
      }
      var retrier := new ConflictRetrier(settings.maxAttempts, settings.baseDelay, settings.maxDelay, settings.jitter);
      ghost var max, w := settings.maxAttempts, Start(Naive, event, effectId);
      var recorded, made := CheckDelivery(store, event, max, Naive, w);
      if recorded {
        return Processed(AlreadyProcessed, retrier.attempts, None);
      }
      if IdempotencyKeyFor(event.runId, event.key).Err? {
        return InvalidEvent;
      }
      var claimed;
      claimed, made := CheckClaim(store, event, max, w, made, before);
      if claimed {
        r := RecordDelivery(store, retrier, event, DuplicateSuppressed, None, None, Naive, w, made, before);
        return r;
      }
      r := this.Pay(retrier, event, effectId, w, made, before);
    }

    /** The writes after the check, however much later. */
    method Pay(
        retrier: ConflictRetrier, event: Event, effectId: nat,
        ghost w: Worker, ghost first: seq<Exchange>, ghost before: seq<Exchange>)
      returns (r: ProcessResult)
      requires store.Valid() && retrier.Valid() && store.trace == before + first
      requires w.event == event && w.effectId == effectId
      requires Stands(retrier.maxAttempts, Naive, w, first, DebitPc, retrier.attempts)
      modifies store`tables, store`requests, store`trace, retrier`attempts, retrier`slept
      ensures store.Valid() && |before| <= |store.trace| && store.trace[..|before|] == before
      ensures Called(retrier.maxAttempts, Naive, w, Since(store, before), r) && r != InvalidEvent
      ensures |store.trace| <= |old(store.trace)| + 2 * retrier.maxAttempts + 2
      ensures r.Processed? && r.status.Decided? ==>
                r.effectId == if r.status.outcome == Committed then Some(effectId) else None
    {
      var spending := DebitAndPay(store, retrier, event, effectId, Naive, w, first, before);
      ghost var made := Since(store, before);
      if spending == Failed {
        return Raised;
      }
      if spending.Refused? {
        r := RecordDelivery(store, retrier, event, BudgetExhausted, None, Some(spending.remaining), Naive, w, made,
          before);
        return r;
      }
      var claimed := store.PutClaimUnconditionally(EffectFor(event, effectId));
      ClaimPutStands(retrier.maxAttempts, Naive, w, made, store.trace[|store.trace| - 1], retrier.attempts);
      SplitLast(store.trace, before, made);
      made := Since(store, before);
      if claimed != Applied {
        return Raised;
      }
      r := RecordDelivery(store, retrier, event, Committed, Some(effectId), None, Naive, w, made, before);
    }
  }
}
