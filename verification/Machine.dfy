/**
 What one worker does with one delivery, one storage request at a time
 (backend/src/processors/{protected,vulnerable,naive,retry}.py).

 `Pc` says which request comes next. A worker that crashes, exhausts its retries or
 meets an error the processor does not catch is `VanishedPc`, remembering where.
 */
module Machine {
  import opened Domain
  import opened Storage

  datatype Pc =
    | CommitPc
    | CheckDeliveryPc | CheckClaimPc | DebitPc | PutEffectPc | PutClaimPc
    | RecordPc(outcome: Outcome, effectId: Option<nat>, seen: Option<int>)
    | DonePc(status: Status)
    | VanishedPc(at: Pc)

  /** `attempts` counts every retried request of this call, `failures` the conflicts in a row. */
  datatype Worker = Worker(event: Event, effectId: nat, pc: Pc, attempts: nat, failures: nat)

  predicate Live(w: Worker) {
    !w.pc.DonePc? && !w.pc.VanishedPc?
  }

  function Start(p: Processor, e: Event, effectId: nat): Worker {
    Worker(e, effectId, if p == Protected then CommitPc else CheckDeliveryPc, 0, 0)
  }

  function Vanish(w: Worker): Worker {
    w.(pc := VanishedPc(w.pc))
  }

  /** A retried request got through: count the attempt and go on. */
  function Goto(w: Worker, pc: Pc): Worker {
    w.(pc := pc, attempts := w.attempts + 1, failures := 0)
  }

  /** A retried request conflicted: try again, or give up after `max` conflicts in a row. */
  function Backoff(max: nat, w: Worker): Worker {
    var counted := w.(attempts := w.attempts + 1, failures := w.failures + 1);
    if counted.failures >= max then Vanish(counted) else counted
  }

  function AfterCommit(max: nat, w: Worker, a: Answer): Worker {
    match a
    case Applied => Goto(w, DonePc(Decided(Committed)))
    case DeliveryAlreadyRecorded => Goto(w, DonePc(AlreadyProcessed))
    case EntitlementAlreadyClaimed => Goto(w, RecordPc(DuplicateSuppressed, None, None))
    case InsufficientBudget(remaining) => Goto(w, RecordPc(BudgetExhausted, None, Some(remaining)))
    case WriteConflict => Backoff(max, w)
    case UnexpectedCancellation => Vanish(w.(attempts := w.attempts + 1))
  }

  function AfterRecord(max: nat, w: Worker, a: Answer): Worker
    requires w.pc.RecordPc?
  {
    match a
    case Applied => Goto(w, DonePc(Decided(w.pc.outcome)))
    case DeliveryAlreadyRecorded => Goto(w, DonePc(AlreadyProcessed))
    case WriteConflict => Backoff(max, w)
    case _ => Vanish(w.(attempts := w.attempts + 1))
  }

  function AfterDebit(max: nat, w: Worker, a: Answer): Worker {
    match a
    case Applied => Goto(w, PutEffectPc)
    case InsufficientBudget(remaining) => Goto(w, RecordPc(BudgetExhausted, None, Some(remaining)))
    case WriteConflict => Backoff(max, w)
    case _ => Vanish(w.(attempts := w.attempts + 1))
  }

  /** Requests outside the retrier: a conflict there ends the call. */
  function AfterPut(w: Worker, next: Pc, a: Answer): Worker {
    if a == Applied then w.(pc := next) else Vanish(w)
  }

  function AfterEffect(p: Processor, w: Worker): Pc {
    if p == Naive then PutClaimPc else RecordPc(Committed, Some(w.effectId), None)
  }

  function RowOf(w: Worker): Delivery
    requires w.pc.RecordPc?
  {
    DeliveryFor(w.event, w.pc.outcome, w.attempts + 1, w.pc.effectId, w.pc.seen)
  }

  /** The one thing a request may change in the tables. */
  datatype Write = Nothing | Payment | Row | Debit | PutEffect | PutClaim

  function WriteOf(s: Store, w: Worker, r: Reply): Write {
    match w.pc
    case CommitPc => if CommitAnswer(s, w.event, r) == Applied then Payment else Nothing
    case DebitPc => if DebitAnswer(s, w.event.amount, r) == Applied then Debit else Nothing
    case PutEffectPc => if PutAnswer(r) == Applied then PutEffect else Nothing
    case PutClaimPc => if PutAnswer(r) == Applied then PutClaim else Nothing
    case RecordPc(_, _, _) => if RecordAnswer(s, w.event.deliveryId, r) == Applied then Row else Nothing
    case _ => Nothing
  }

  function After(s: Store, w: Worker, write: Write): Store {
    match write
    case Nothing => s
    case Payment => WithPayment(s, w.event, w.effectId, w.attempts + 1)
    case Row => if w.pc.RecordPc? then WithRow(s, RowOf(w)) else s
    case Debit => WithDebit(s, w.event.amount)
    case PutEffect => WithEffect(s, EffectFor(w.event, w.effectId))
    case PutClaim => WithClaim(s, EffectFor(w.event, w.effectId))
  }

  /** The tables after the worker's next request. */
  function StoreAfter(s: Store, w: Worker, r: Reply): Store {
    After(s, w, WriteOf(s, w, r))
  }

  /** The worker after its next request. */
  function WorkerAfter(max: nat, p: Processor, s: Store, w: Worker, r: Reply): Worker {
    match w.pc
    case CommitPc => AfterCommit(max, w, CommitAnswer(s, w.event, r))
    case CheckDeliveryPc =>
      if Recorded(s, w.event.deliveryId) then w.(pc := DonePc(AlreadyProcessed))
      else w.(pc := if p == Naive then CheckClaimPc else DebitPc)
    case CheckClaimPc =>
      w.(pc := if w.event.key in s.claims then RecordPc(DuplicateSuppressed, None, None) else DebitPc)
    case DebitPc => AfterDebit(max, w, DebitAnswer(s, w.event.amount, r))
    case PutEffectPc => AfterPut(w, AfterEffect(p, w), PutAnswer(r))
    case PutClaimPc => AfterPut(w, RecordPc(Committed, Some(w.effectId), None), PutAnswer(r))
    case RecordPc(_, _, _) => AfterRecord(max, w, RecordAnswer(s, w.event.deliveryId, r))
    case DonePc(_) => w
    case VanishedPc(_) => w
  }

  /** The replies DynamoDB can give. Only transactions are cancelled with reasons. */
  predicate Possible(s: Store, w: Worker, r: Reply, complete: bool) {
    r.Cancel? ==>
      match w.pc
      case CommitPc =>
        && SoundCommitReasons(s, w.event, r.reasons)
        && (complete ==> CompleteCommitReasons(s, w.event, r.reasons))
      case RecordPc(_, _, _) =>
        && SoundRecordReasons(s, w.event.deliveryId, r.reasons)
        && (complete ==> CompleteRecordReasons(s, w.event.deliveryId, r.reasons))
      case _ => false
  }
}
