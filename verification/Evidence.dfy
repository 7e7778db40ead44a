/**
 What the stored items say, in every reachable state of every processor, whatever crashes or overlaps:
 each payment, claim and Deliveries row names the sent message it comes from, field by field; each
 COMMITTED row refers to a payment in the ledger; no two payments share an effect id.
 */
module Evidence {
  import opened Domain
  import opened Storage
  import opened Machine
  import opened Protocol
  import opened Invariants

  ghost predicate PaymentNamed(sent: set<Event>, x: Effect) {
    exists e :: e in sent && PaymentOf(x, e)
  }

  /** The payment a row refers to. */
  ghost predicate InLedger(s: Store, id: DeliveryId, effectId: nat) {
    exists i :: 0 <= i < |s.effects| && s.effects[i].effectId == effectId && s.effects[i].deliveryId == id
  }

  /** A COMMITTED row refers to its payment, a BUDGET_EXHAUSTED one says what budget was seen, and too small. */
  ghost predicate RowHolds(s: Store, row: Delivery, e: Event) {
    && RecordOf(row, e) && row.attempt >= 1
    && match row.outcome
       case Committed => row.seen == None && row.effectId.Some? && InLedger(s, row.deliveryId, row.effectId.value)
       case DuplicateSuppressed => row.seen == None && row.effectId == None
       case BudgetExhausted => row.effectId == None && row.seen.Some? && row.seen.value < e.amount
  }

  ghost predicate RowNamed(sent: set<Event>, s: Store, row: Delivery) {
    exists e :: e in sent && RowHolds(s, row, e)
  }

  /** Places from which a worker may still pay. */
  predicate MayPay(pc: Pc) {
    pc.CommitPc? || pc.CheckDeliveryPc? || pc.CheckClaimPc? || pc.DebitPc? || pc.PutEffectPc?
  }

  /** What a worker is about to record. */
  ghost predicate AboutToRecord(s: Store, w: Worker) {
    match w.pc
    case PutClaimPc => InLedger(s, w.event.deliveryId, w.effectId)
    case RecordPc(Committed, id, seen) =>
      id == Some(w.effectId) && seen == None && InLedger(s, w.event.deliveryId, w.effectId)
    case RecordPc(DuplicateSuppressed, id, seen) => id == None && seen == None
    case RecordPc(BudgetExhausted, id, seen) => id == None && seen.Some? && seen.value < w.event.amount
    case _ => true
  }

  ghost predicate WorkersHold(st: State) {
    forall i :: 0 <= i < |st.workers| ==>
      && st.workers[i].event in st.sent && st.workers[i].effectId == i && AboutToRecord(st.store, st.workers[i])
  }

  ghost predicate LedgerHolds(st: State) {
    && (forall i :: 0 <= i < |st.store.effects| ==> PaymentNamed(st.sent, st.store.effects[i]))
    && (forall i :: 0 <= i < |st.store.effects| ==>
          var id := st.store.effects[i].effectId; id < |st.workers| && !MayPay(st.workers[id].pc))
    && (forall i, j :: 0 <= i < j < |st.store.effects| ==>
          st.store.effects[i].effectId != st.store.effects[j].effectId)
  }

  ghost predicate ClaimsHold(st: State) {
    forall k :: k in st.store.claims ==> st.store.claims[k].key == k && PaymentNamed(st.sent, st.store.claims[k])
  }

  ghost predicate RowsHold(st: State) {
    forall i :: 0 <= i < |st.store.rows| ==> RowNamed(st.sent, st.store, st.store.rows[i])
  }

  ghost predicate Evident(st: State) {
    WorkersHold(st) && LedgerHolds(st) && ClaimsHold(st) && RowsHold(st)
  }

  // --- One request -----------------------------------------------------------------------------------

  /** What a request may do to the ledger, the claims and the rows. */
  ghost predicate WritesOwn(s: Store, s': Store, w: Worker, w': Worker) {
    && (s'.effects == s.effects
        || (|s'.effects| == |s.effects| + 1 && s'.effects[..|s.effects|] == s.effects
            && PaymentOf(s'.effects[|s.effects|], w.event) && s'.effects[|s.effects|].effectId == w.effectId
            && MayPay(w.pc) && !MayPay(w'.pc)))
    && (s'.claims == s.claims
        || exists x :: s'.claims == s.claims[w.event.key := x] && PaymentOf(x, w.event))
    && (s'.rows == s.rows
        || (|s'.rows| == |s.rows| + 1 && s'.rows[..|s.rows|] == s.rows && RowHolds(s', s'.rows[|s.rows|], w.event)))
  }

  lemma NewPayment(s: Store, s': Store, x: Effect)
    requires s'.effects == s.effects + [x]
    ensures InLedger(s', x.deliveryId, x.effectId)
  {
    assert s'.effects[|s.effects|] == x;
  }

  lemma StaysInLedger(s: Store, s': Store, id: DeliveryId, effectId: nat)
    requires InLedger(s, id, effectId) && s.effects <= s'.effects
    ensures InLedger(s', id, effectId)
  {
    var i :| 0 <= i < |s.effects| && s.effects[i].effectId == effectId && s.effects[i].deliveryId == id;
    assert s'.effects[i] == s.effects[i];
  }

  lemma CommitHolds(max: nat, p: Processor, s: Store, w: Worker, r: Reply, complete: bool)
    requires w.pc.CommitPc? && Possible(s, w, r, complete)
    ensures var s', w' := StoreAfter(s, w, r), WorkerAfter(max, p, s, w, r);
            WritesOwn(s, s', w, w') && AboutToRecord(s', w')
  {
    SoundCommitAnswer(s, w.event, r);
    var s' := StoreAfter(s, w, r);
    var x := EffectFor(w.event, w.effectId);
    if CommitAnswer(s, w.event, r) == Applied {
      NewPayment(s, s', x);
      assert PaymentOf(x, w.event);
    }
  }

  lemma PutsHold(max: nat, p: Processor, s: Store, w: Worker, r: Reply)
    requires w.pc.PutEffectPc? || w.pc.PutClaimPc?
    requires AboutToRecord(s, w)
    ensures var s', w' := StoreAfter(s, w, r), WorkerAfter(max, p, s, w, r);
            WritesOwn(s, s', w, w') && AboutToRecord(s', w')
  {
    var x := EffectFor(w.event, w.effectId);
    assert PaymentOf(x, w.event);
    if w.pc.PutEffectPc? && PutAnswer(r) == Applied {
      NewPayment(s, StoreAfter(s, w, r), x);
    }
  }

  lemma RecordHolds(max: nat, p: Processor, s: Store, w: Worker, r: Reply)
    requires w.pc.RecordPc? && AboutToRecord(s, w)
    ensures var s', w' := StoreAfter(s, w, r), WorkerAfter(max, p, s, w, r);
            WritesOwn(s, s', w, w') && AboutToRecord(s', w')
  {
  }

  lemma OtherHolds(max: nat, p: Processor, s: Store, w: Worker, r: Reply)
    requires Live(w) && (w.pc.CheckDeliveryPc? || w.pc.CheckClaimPc? || w.pc.DebitPc?)
    ensures var s', w' := StoreAfter(s, w, r), WorkerAfter(max, p, s, w, r);
            WritesOwn(s, s', w, w') && AboutToRecord(s', w')
  {
  }

  lemma RequestHolds(max: nat, p: Processor, s: Store, w: Worker, r: Reply, complete: bool)
    requires Live(w) && Possible(s, w, r, complete) && AboutToRecord(s, w)
    ensures var s', w' := StoreAfter(s, w, r), WorkerAfter(max, p, s, w, r);
            WritesOwn(s, s', w, w') && AboutToRecord(s', w')
  {
    match w.pc
    case CommitPc => CommitHolds(max, p, s, w, r, complete);
    case PutEffectPc => PutsHold(max, p, s, w, r);
    case PutClaimPc => PutsHold(max, p, s, w, r);
    case RecordPc(_, _, _) => RecordHolds(max, p, s, w, r);
    case _ => OtherHolds(max, p, s, w, r);
  }

  lemma WorkerKeeps(max: nat, p: Processor, s: Store, w: Worker, r: Reply)
    ensures var w' := WorkerAfter(max, p, s, w, r);
            w'.event == w.event && w'.effectId == w.effectId && (MayPay(w'.pc) ==> MayPay(w.pc))
  {
  }

  // --- One step --------------------------------------------------------------------------------------

  lemma AboutToRecordStays(s: Store, s': Store, w: Worker)
    requires AboutToRecord(s, w) && s.effects <= s'.effects
    ensures AboutToRecord(s', w)
  {
    if InLedger(s, w.event.deliveryId, w.effectId) {
      StaysInLedger(s, s', w.event.deliveryId, w.effectId);
    }
  }

  lemma RowStays(sent: set<Event>, sent': set<Event>, s: Store, s': Store, row: Delivery)
    requires RowNamed(sent, s, row) && sent <= sent' && s.effects <= s'.effects
    ensures RowNamed(sent', s', row)
  {
    var e :| e in sent && RowHolds(s, row, e);
    if row.outcome == Committed {
      StaysInLedger(s, s', row.deliveryId, row.effectId.value);
    }
    assert e in sent' && RowHolds(s', row, e);
  }

  lemma RequestWorkers(cfg: Setup, st: State, i: nat, r: Reply)
    requires WorkersHold(st) && Enabled(cfg, st, Request(i, r))
    ensures WorkersHold(Requested(cfg, st, i, r))
    ensures st.store.effects <= Requested(cfg, st, i, r).store.effects
    ensures WritesOwn(st.store, Requested(cfg, st, i, r).store, st.workers[i], Requested(cfg, st, i, r).workers[i])
  {
    var st', w := Requested(cfg, st, i, r), st.workers[i];
    RequestHolds(cfg.maxAttempts, cfg.processor, st.store, w, r, cfg.complete);
    WorkerKeeps(cfg.maxAttempts, cfg.processor, st.store, w, r);
    forall j | 0 <= j < |st'.workers|
      ensures st'.workers[j].event in st'.sent && st'.workers[j].effectId == j
      ensures AboutToRecord(st'.store, st'.workers[j])
    {
      if j != i {
        assert st'.workers[j] == st.workers[j];
        AboutToRecordStays(st.store, st'.store, st.workers[j]);
      }
    }
  }

  lemma RequestLedger(cfg: Setup, st: State, i: nat, r: Reply)
    requires WorkersHold(st) && LedgerHolds(st) && Enabled(cfg, st, Request(i, r))
    ensures LedgerHolds(Requested(cfg, st, i, r))
  {
    var st', w := Requested(cfg, st, i, r), st.workers[i];
    var s, s' := st.store, st'.store;
    RequestWorkers(cfg, st, i, r);
    WorkerKeeps(cfg.maxAttempts, cfg.processor, st.store, w, r);
    forall j | 0 <= j < |s'.effects|
      ensures PaymentNamed(st'.sent, s'.effects[j])
      ensures s'.effects[j].effectId < |st'.workers| && !MayPay(st'.workers[s'.effects[j].effectId].pc)
      ensures j < |s.effects| ==> s'.effects[j] == s.effects[j]
      ensures j >= |s.effects| ==> s'.effects[j].effectId == i && MayPay(w.pc)
    {
      if j < |s.effects| {
        assert s'.effects[j] == s.effects[j];
      }
    }
  }

  lemma RequestEvident(cfg: Setup, st: State, i: nat, r: Reply)
    requires Evident(st) && Enabled(cfg, st, Request(i, r))
    ensures Evident(Requested(cfg, st, i, r))
  {
    var st', w := Requested(cfg, st, i, r), st.workers[i];
    RequestWorkers(cfg, st, i, r);
    RequestLedger(cfg, st, i, r);
    forall j | 0 <= j < |st'.store.rows| ensures RowNamed(st'.sent, st'.store, st'.store.rows[j]) {
      if j < |st.store.rows| {
        assert st'.store.rows[j] == st.store.rows[j];
        RowStays(st.sent, st'.sent, st.store, st'.store, st.store.rows[j]);
      }
    }
  }

  /** What a task leaves alone, whatever it does to the Run record and the counters. */
  ghost predicate SameItems(st: State, st': State) {
    && st'.workers == st.workers && st'.sent == st.sent && st'.store.effects == st.store.effects
    && st'.store.claims == st.store.claims && st'.store.rows == st.store.rows
  }

  lemma TaskItems(cfg: Setup, st: State, m: Move)
    ensures SameItems(st, Moved(cfg, st, m))
  {
    DoItems(cfg, st);
  }

  lemma DoItems(cfg: Setup, st: State)
    ensures SameItems(st, Do(cfg, st))
  {
    if Injects(st.stage) {
      InjectTask(cfg, st);
    } else if Drains(st.stage) {
      DrainTask(cfg, st);
    } else if st.stage.Evaluate? || st.stage.GenerateReceipt? {
      ReadTask(cfg, st);
    }
  }

  lemma SameItemsEvident(st: State, st': State)
    requires Evident(st) && SameItems(st, st')
    ensures Evident(st')
  {
    forall j | 0 <= j < |st'.workers| ensures AboutToRecord(st'.store, st'.workers[j]) {
      AboutToRecordStays(st.store, st'.store, st.workers[j]);
    }
    forall j | 0 <= j < |st'.store.rows| ensures RowNamed(st'.sent, st'.store, st'.store.rows[j]) {
      RowStays(st.sent, st'.sent, st.store, st'.store, st.store.rows[j]);
    }
  }

  lemma SentEvident(st: State, e: Event)
    requires Evident(st)
    ensures Evident(st.(sent := st.sent + {e}))
  {
    var st' := st.(sent := st.sent + {e});
    forall j | 0 <= j < |st'.store.rows| ensures RowNamed(st'.sent, st'.store, st'.store.rows[j]) {
      RowStays(st.sent, st'.sent, st.store, st'.store, st.store.rows[j]);
    }
  }

  lemma StepEvident(cfg: Setup, st: State, l: Label)
    requires Evident(st) && Enabled(cfg, st, l)
    ensures Evident(Step(cfg, st, l))
  {
    match l
    case Receive(_) => ReceiveEvident(cfg, st, l);
    case Request(i, r) => RequestEvident(cfg, st, i, r);
    case Crash(_) => CrashEvident(cfg, st, l);
    case Send(e) => SentEvident(st, e);
    case Task(m) =>
      TaskItems(cfg, st, m);
      SameItemsEvident(st, Step(cfg, st, l));
    case StartReturns(_) => SameItemsEvident(st, Step(cfg, st, l));
  }

  lemma ReceiveEvident(cfg: Setup, st: State, l: Label)
    requires Evident(st) && Enabled(cfg, st, l) && l.Receive?
    ensures Evident(Step(cfg, st, l))
  {
    var st' := Step(cfg, st, l);
    assert st'.store == st.store && st'.sent == st.sent;
    assert forall j :: 0 <= j < |st.workers| ==> st'.workers[j] == st.workers[j];
  }

  lemma CrashEvident(cfg: Setup, st: State, l: Label)
    requires Evident(st) && Enabled(cfg, st, l) && l.Crash?
    ensures Evident(Step(cfg, st, l))
  {
    var st' := Step(cfg, st, l);
    assert st'.store == st.store && st'.sent == st.sent;
    assert forall j :: 0 <= j < |st.workers| && j != l.worker ==> st'.workers[j] == st.workers[j];
  }

  // --- Runs ------------------------------------------------------------------------------------------

  /** From any state that is evident, and so from any start with empty tables. */
  lemma {:induction false} StaysEvident(cfg: Setup, states: seq<State>, labels: seq<Label>, n: nat)
    requires Continues(cfg, states, labels) && n < |states| && Evident(states[0])
    ensures Evident(states[n])
  {
    if n > 0 {
      StaysEvident(cfg, states, labels, n - 1);
      StepEvident(cfg, states[n - 1], labels[n - 1]);
    }
  }

  lemma RunEvident(cfg: Setup, states: seq<State>, labels: seq<Label>, n: nat)
    requires IsRun(cfg, states, labels) && n < |states|
    ensures Evident(states[n])
  {
    StaysEvident(cfg, states, labels, n);
  }
}
