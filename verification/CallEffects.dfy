/** What one `Process` call leaves behind, whatever the database replied and whoever interfered. */
module CallEffects {
  import opened Domain
  import opened Storage
  import opened Machine
  import opened Tables
  import opened Processors

  // --- The protected call: all or nothing ------------------------------------------------------------

  predicate ProtectedPlace(pc: Pc) {
    match pc
    case CommitPc => true
    case RecordPc(o, id, _) => o != Committed && id == None
    case DonePc(_) => true
    case VanishedPc(_) => true
    case _ => false
  }

  /** The one request of a protected worker that writes is its last. */
  lemma WritingEnds(max: nat, s: Store, w: Worker, r: Reply)
    requires Live(w) && ProtectedPlace(w.pc)
    ensures EndsTruly(max, s, w, r)
  {
    if w.pc.CommitPc? {
      CommitEnds(max, s, w, r);
    } else {
      RecordEnds(max, s, w, r);
    }
  }

  /** What the worker says after a request is what the request wrote. */
  ghost predicate EndsTruly(max: nat, s: Store, w: Worker, r: Reply) {
    var w', s' := WorkerAfter(max, Protected, s, w, r), StoreAfter(s, w, r);
    && w'.event == w.event && w'.effectId == w.effectId && w'.attempts == w.attempts + 1 && ProtectedPlace(w'.pc)
    && (w'.pc == DonePc(Decided(Committed)) ==>
          CommitAllowed(s, w.event) && s' == WithPayment(s, w.event, w.effectId, w'.attempts))
    && (w'.pc.DonePc? && w'.pc.status.Decided? && w'.pc.status.outcome != Committed ==>
          && RecordAllowed(s, w.event.deliveryId) && w.pc.RecordPc?
          && s' == WithRow(s, DeliveryFor(w.event, w'.pc.status.outcome, w'.attempts, None, w.pc.seen)))
    && (!w'.pc.DonePc? || w'.pc.status == AlreadyProcessed ==> s' == s)
  }

  lemma CommitEnds(max: nat, s: Store, w: Worker, r: Reply)
    requires w.pc.CommitPc?
    ensures EndsTruly(max, s, w, r)
  {
    if r.Cancel? {
      CancelledNeverApplies(r.reasons);
    }
    CancelledNeverApplies(CommitReasons(s, w.event));
  }

  lemma RecordEnds(max: nat, s: Store, w: Worker, r: Reply)
    requires w.pc.RecordPc? && ProtectedPlace(w.pc)
    ensures EndsTruly(max, s, w, r)
  {
    if r.Cancel? {
      CancelledNeverApplies(r.reasons);
    }
    CancelledNeverApplies(RecordReasons(s, w.event.deliveryId));
  }

  lemma {:induction false} PlaceKept(max: nat, w: Worker, exchanges: seq<Exchange>)
    requires Worked(max, Protected, w, exchanges) && ProtectedPlace(w.pc)
    ensures var now := WorkerOf(max, Protected, w, exchanges);
            ProtectedPlace(now.pc) && now.event == w.event && now.effectId == w.effectId
              && now.attempts == w.attempts + |exchanges|
  {
    if exchanges != [] {
      var n := |exchanges| - 1;
      PlaceKept(max, w, exchanges[..n]);
      WritingEnds(max, exchanges[n].seen, WorkerOf(max, Protected, w, exchanges[..n]), exchanges[n].reply);
    }
  }

  /** While the worker is still at it, nothing has been written. */
  lemma {:induction false} NothingYet(max: nat, w: Worker, exchanges: seq<Exchange>)
    requires Worked(max, Protected, w, exchanges) && ProtectedPlace(w.pc)
    requires !WorkerOf(max, Protected, w, exchanges).pc.DonePc?
             || WorkerOf(max, Protected, w, exchanges).pc.status == AlreadyProcessed
    ensures forall k :: 0 <= k < |exchanges| ==> exchanges[k].after == exchanges[k].seen
  {
    if exchanges != [] {
      var n := |exchanges| - 1;
      PlaceKept(max, w, exchanges[..n]);
      WritingEnds(max, exchanges[n].seen, WorkerOf(max, Protected, w, exchanges[..n]), exchanges[n].reply);
      NothingYet(max, w, exchanges[..n]);
      assert forall k :: 0 <= k < n ==> exchanges[..n][k] == exchanges[k];
    }
  }

  ghost predicate Untouched(exchanges: seq<Exchange>) {
    forall k :: 0 <= k < |exchanges| ==> exchanges[k].after == exchanges[k].seen
  }

  /**
   One protected call writes all of a payment, or one row that is not a payment, or nothing.
   It writes with its last request and counts every request; an error, exhausted retries
   included, leaves no trace of it in the tables.
   */
  lemma AllOrNothing(max: nat, e: Event, effectId: nat, exchanges: seq<Exchange>, r: ProcessResult)
    requires Called(max, Protected, Start(Protected, e, effectId), exchanges, r)
    ensures r.Raised? ==> Untouched(exchanges)
    ensures r.Processed? && r.status == AlreadyProcessed ==> Untouched(exchanges)
    ensures r.Processed? && r.status != AlreadyProcessed ==>
              exchanges != [] &&
              var n := |exchanges| - 1;
              var last := exchanges[n];
              && Untouched(exchanges[..n]) && r.attempts == |exchanges|
              && (r.status.outcome == Committed ==>
                    CommitAllowed(last.seen, e) && PaidInFull(last.seen, last.after, e, effectId, r.attempts))
              && (r.status.outcome != Committed ==>
                    RecordAllowed(last.seen, e.deliveryId) && last.after.effects == last.seen.effects
                    && last.after.claims == last.seen.claims && last.after.remaining == last.seen.remaining
                    && NewRow(last.seen, last.after, e, r.status.outcome, r.attempts, None))
  {
    var w := Start(Protected, e, effectId);
    if r.Raised? || (r.Processed? && r.status == AlreadyProcessed) {
      NothingYet(max, w, exchanges);
    }
    if r.Processed? && r.status != AlreadyProcessed {
      LastWrites(max, w, exchanges, r);
      DecidedRow(max, Protected, e, effectId, exchanges, r);
      if r.status.outcome == Committed {
        PaymentIsWhole(exchanges[|exchanges| - 1].seen, e, effectId, r.attempts);
      }
    }
  }

  lemma LastWrites(max: nat, w: Worker, exchanges: seq<Exchange>, r: ProcessResult)
    requires w.pc == CommitPc && w.attempts == 0 && Called(max, Protected, w, exchanges, r)
    requires r.Processed? && r.status != AlreadyProcessed
    ensures exchanges != []
    ensures var n := |exchanges| - 1;
            var last := exchanges[n];
            && Untouched(exchanges[..n]) && r.attempts == |exchanges|
            && (r.status.outcome == Committed ==>
                  CommitAllowed(last.seen, w.event)
                    && last.after == WithPayment(last.seen, w.event, w.effectId, r.attempts))
            && (r.status.outcome != Committed ==>
                  && RecordAllowed(last.seen, w.event.deliveryId)
                  && exists seen :: last.after == WithRow(last.seen,
                     DeliveryFor(w.event, r.status.outcome, r.attempts, None, seen)))
  {
    var n := |exchanges| - 1;
    var now, last := WorkerOf(max, Protected, w, exchanges[..n]), exchanges[n];
    PlaceKept(max, w, exchanges[..n]);
    NothingYet(max, w, exchanges[..n]);
    assert Requested(now, last);
    WritingEnds(max, last.seen, now, last.reply);
  }

  // --- The row a call writes -------------------------------------------------------------------------

  /** One row more, which names this delivery, and the counters that go with it. */
  ghost predicate NewRow(s: Store, s': Store, e: Event, o: Outcome, attempts: nat, effectId: Option<nat>) {
    && |s'.rows| == |s.rows| + 1 && s'.rows[..|s.rows|] == s.rows
    && var row := s'.rows[|s.rows|];
    && RecordOf(row, e) && row.outcome == o && row.attempt == attempts && row.effectId == effectId
    && (row.seen.Some? <==> o == BudgetExhausted)
    && s'.delivered == s.delivered + 1
    && s'.committed == s.committed + (if o == Committed then 1 else 0)
    && s'.suppressed == s.suppressed + (if o == DuplicateSuppressed then 1 else 0)
    && s'.exhausted == s.exhausted + (if o == BudgetExhausted then 1 else 0)
  }

  /** A payment goes with COMMITTED only, the budget that was seen with BUDGET_EXHAUSTED only. */
  ghost predicate RecordsItsOwn(w: Worker) {
    w.pc.RecordPc? ==>
      && w.pc.effectId == (if w.pc.outcome == Committed then Some(w.effectId) else None)
      && (w.pc.seen.Some? <==> w.pc.outcome == BudgetExhausted)
  }

  lemma CallStep(max: nat, p: Processor, s: Store, w: Worker, r: Reply)
    requires RecordsItsOwn(w)
    ensures var w' := WorkerAfter(max, p, s, w, r);
            w'.event == w.event && w'.effectId == w.effectId && RecordsItsOwn(w')
  {
  }

  lemma {:induction false} CallKeeps(max: nat, p: Processor, w: Worker, exchanges: seq<Exchange>)
    requires RecordsItsOwn(w)
    ensures var now := WorkerOf(max, p, w, exchanges);
            now.event == w.event && now.effectId == w.effectId && RecordsItsOwn(now)
  {
    if exchanges != [] {
      var n := |exchanges| - 1;
      CallKeeps(max, p, w, exchanges[..n]);
      CallStep(max, p, exchanges[n].seen, WorkerOf(max, p, w, exchanges[..n]), exchanges[n].reply);
    }
  }

  lemma RowOfRequest(max: nat, p: Processor, s: Store, w: Worker, r: Reply, o: Outcome)
    requires Live(w) && RecordsItsOwn(w) && WorkerAfter(max, p, s, w, r).pc == DonePc(Decided(o))
    ensures NewRow(s, StoreAfter(s, w, r), w.event, o, WorkerAfter(max, p, s, w, r).attempts,
                   if o == Committed then Some(w.effectId) else None)
  {
  }

  /**
   Any processor: a call that reports an outcome has written, with its last request, one row that names
   this delivery, that outcome, the reported attempts, and the payment if there is one.
   */
  lemma DecidedRow(max: nat, p: Processor, e: Event, effectId: nat, exchanges: seq<Exchange>, r: ProcessResult)
    requires Called(max, p, Start(p, e, effectId), exchanges, r) && r.Processed? && r.status.Decided?
    ensures exchanges != []
    ensures var last := exchanges[|exchanges| - 1];
            NewRow(last.seen, last.after, e, r.status.outcome, r.attempts,
                   if r.status.outcome == Committed then Some(effectId) else None)
  {
    var w, n := Start(p, e, effectId), |exchanges| - 1;
    CallKeeps(max, p, w, exchanges[..n]);
    RowOfRequest(max, p, exchanges[n].seen, WorkerOf(max, p, w, exchanges[..n]), exchanges[n].reply, r.status.outcome);
  }

  // --- The other processors: where a call can stop halfway ---------------------------------------------

  /** What the worker wrote, in order. */
  function WritesOf(max: nat, p: Processor, w: Worker, exchanges: seq<Exchange>): seq<Write> {
    if exchanges == [] then []
    else
      var n := |exchanges| - 1;
      var write := WriteOf(exchanges[n].seen, WorkerOf(max, p, w, exchanges[..n]), exchanges[n].reply);
      WritesOf(max, p, w, exchanges[..n]) + (if write == Nothing then [] else [write])
  }

  /** The writes that lead up to a place; `Vanished` keeps those of the place it was lost at. */
  predicate WrittenAt(p: Processor, pc: Pc, writes: seq<Write>) {
    match pc
    case CommitPc => false
    case CheckDeliveryPc => writes == []
    case CheckClaimPc => writes == []
    case DebitPc => writes == []
    case PutEffectPc => writes == [Debit]
    case PutClaimPc => p == Naive && writes == [Debit, PutEffect]
    case RecordPc(o, _, _) => writes == if o == Committed then Paid(p) else []
    case DonePc(status) =>
      (match status
       case Decided(o) => writes == (if o == Committed then Paid(p) else []) + [Row]
       case AlreadyProcessed => writes == [] || writes == Paid(p))
    case VanishedPc(at) =>
      match at
      case CheckDeliveryPc => writes == []
      case CheckClaimPc => writes == []
      case DebitPc => writes == []
      case PutEffectPc => writes == [Debit]
      case PutClaimPc => p == Naive && writes == [Debit, PutEffect]
      case RecordPc(o, _, _) => writes == if o == Committed then Paid(p) else []
      case _ => false
  }

  /** The separate writes of one payment. */
  function Paid(p: Processor): seq<Write> {
    if p == Naive then [Debit, PutEffect, PutClaim] else [Debit, PutEffect]
  }

  lemma WrittenStep(max: nat, p: Processor, s: Store, w: Worker, r: Reply, writes: seq<Write>)
    requires p != Protected && Live(w) && WrittenAt(p, w.pc, writes)
    ensures var write := WriteOf(s, w, r);
            WrittenAt(p, WorkerAfter(max, p, s, w, r).pc, writes + (if write == Nothing then [] else [write]))
  {
    if r.Cancel? {
      CancelledNeverApplies(r.reasons);
    }
    assert writes + [] == writes;
  }

  /**
   Without the transaction a call can stop anywhere in between: exactly the writes up to the
   place it was lost at have happened. A conflict on the payment itself strands the debit.
   */
  lemma {:induction false} WrittenSoFar(max: nat, p: Processor, w: Worker, exchanges: seq<Exchange>)
    requires p != Protected && w.pc == CheckDeliveryPc && Worked(max, p, w, exchanges)
    ensures WrittenAt(p, WorkerOf(max, p, w, exchanges).pc, WritesOf(max, p, w, exchanges))
  {
    if exchanges != [] {
      var n := |exchanges| - 1;
      WrittenSoFar(max, p, w, exchanges[..n]);
      WrittenStep(max, p, exchanges[n].seen, WorkerOf(max, p, w, exchanges[..n]), exchanges[n].reply,
                  WritesOf(max, p, w, exchanges[..n]));
    }
  }

  /** The reported status tells what was written, except that a late duplicate may hide a payment. */
  lemma StatusTellsWrites(max: nat, p: Processor, e: Event, effectId: nat, exchanges: seq<Exchange>, r: ProcessResult)
    requires p != Protected && Called(max, p, Start(p, e, effectId), exchanges, r)
    ensures var writes := WritesOf(max, p, Start(p, e, effectId), exchanges);
            && (r.Processed? && r.status.Decided? && r.status.outcome == Committed ==> writes == Paid(p) + [Row])
            && (r.Processed? && r.status.Decided? && r.status.outcome != Committed ==> writes == [Row])
            && (r.Processed? && r.status == AlreadyProcessed ==> writes == [] || writes == Paid(p))
            && (r.Raised? ==> writes <= Paid(p))
  {
    WrittenSoFar(max, p, Start(p, e, effectId), exchanges);
  }
}
