/**
 What every step keeps, for every processor: provenance of rows and effects, exact
 counters, conservation of money, and the drain barrier between the two phases.
 */
module Invariants {
  import opened Domain
  import opened Accounts
  import opened Storage
  import opened Machine
  import opened Evaluator
  import opened Workflow
  import opened Protocol

  // --- Distinct identifiers -----------------------------------------------------------

  ghost predicate Distinct<T>(xs: seq<T>) {
    forall i, j :: 0 <= i < j < |xs| ==> xs[i] != xs[j]
  }

  lemma {:induction false} DistinctCard<T>(xs: seq<T>)
    requires Distinct(xs)
    ensures |set x | x in xs| == |xs|
  {
    if xs != [] {
      var n := |xs| - 1;
      DistinctCard(xs[..n]);
      assert (set x | x in xs) == (set x | x in xs[..n]) + {xs[n]};
      assert xs[n] !in xs[..n];
    }
  }

  lemma {:induction false} SubsetCard<T>(a: set<T>, b: set<T>)
    requires a <= b
    ensures |a| <= |b|
    ensures |a| == |b| ==> a == b
    decreases b
  {
    if a != b {
      var x :| x in b && x !in a;
      SubsetCard(a, b - {x});
    }
  }

  /** As many distinct items as places, all in places: every place is taken. */
  lemma Pigeonhole<T>(xs: seq<T>, ys: seq<T>)
    requires Distinct(xs) && Distinct(ys)
    requires forall x :: x in xs ==> x in ys
    ensures |xs| <= |ys|
    ensures |xs| == |ys| ==> forall y :: y in ys ==> y in xs
  {
    var a, b := set x | x in xs, set y | y in ys;
    DistinctCard(xs);
    DistinctCard(ys);
    assert a <= b;
    SubsetCard(a, b);
    if |xs| == |ys| {
      forall y | y in ys ensures y in xs {
        assert y in a;
      }
    }
  }

  function RowIds(rows: seq<Delivery>): seq<DeliveryId> {
    seq(|rows|, i requires 0 <= i < |rows| => rows[i].deliveryId)
  }

  function EventIds(events: seq<Event>): seq<DeliveryId> {
    seq(|events|, i requires 0 <= i < |events| => events[i].deliveryId)
  }

  function EffectIds(effects: seq<Effect>): seq<DeliveryId> {
    seq(|effects|, i requires 0 <= i < |effects| => effects[i].deliveryId)
  }

  // --- Provenance -----------------------------------------------------------------------

  ghost predicate RowFrom(sent: set<Event>, row: Delivery) {
    exists e :: e in sent && e.deliveryId == row.deliveryId && e.key == row.key
  }

  ghost predicate EffectFrom(sent: set<Event>, x: Effect) {
    exists e :: e in sent && e.deliveryId == x.deliveryId && e.key == x.key && e.amount == x.amount
  }

  ghost predicate Provenance(cfg: Setup, st: State) {
    && (forall e :: e in st.sent ==> (e in cfg.planA && st.openA) || (e in cfg.planB && st.openB))
    && (forall i :: 0 <= i < |st.workers| ==> st.workers[i].event in st.sent && st.workers[i].effectId == i)
    && (forall i :: 0 <= i < |st.store.rows| ==> RowFrom(st.sent, st.store.rows[i]))
    && (forall i :: 0 <= i < |st.store.effects| ==> EffectFrom(st.sent, st.store.effects[i]))
    && (forall i :: 0 <= i < |st.debits| ==> st.debits[i] in st.sent)
  }

  ghost predicate RowsDistinct(s: Store) {
    forall i, j :: 0 <= i < j < |s.rows| ==> s.rows[i].deliveryId != s.rows[j].deliveryId
  }

  ghost predicate Counted(s: Store) {
    && s.delivered == |s.rows|
    && s.committed == CountOutcome(s.rows, Committed)
    && s.suppressed == CountOutcome(s.rows, DuplicateSuppressed)
    && s.exhausted == CountOutcome(s.rows, BudgetExhausted)
  }

  // --- Money -----------------------------------------------------------------------------

  /** A worker between its debit and its payment holds money, also when it vanished there. */
  function Held(w: Worker): int {
    if w.pc.PutEffectPc? || (w.pc.VanishedPc? && w.pc.at.PutEffectPc?) then w.event.amount else 0
  }

  function HeldBy(workers: seq<Worker>): seq<int> {
    seq(|workers|, i requires 0 <= i < |workers| => Held(workers[i]))
  }

  /** Debited but not written: money in no budget and in no payment. */
  function Unwritten(workers: seq<Worker>): int {
    Sum(HeldBy(workers))
  }

  function Debited(st: State): int {
    Sum(EventAmounts(st.debits))
  }

  ghost predicate Conserved(cfg: Setup, st: State) {
    && st.store.runExists
    && st.store.remaining >= 0
    && st.store.remaining + Spent(st.store.effects) + Unwritten(st.workers) == cfg.budget
    && st.store.remaining + Debited(st) == cfg.budget
  }

  // --- The barrier -------------------------------------------------------------------------

  ghost predicate AllRecorded(s: Store, events: seq<Event>) {
    forall i :: 0 <= i < |events| ==> Recorded(s, events[i].deliveryId)
  }

  predicate PastA(stage: Stage) {
    stage.InjectB? || stage.DrainB? || PastB(stage)
  }

  predicate PastB(stage: Stage) {
    stage.Evaluate? || stage.GenerateReceipt? || stage.Complete?
  }

  ghost predicate Barrier(cfg: Setup, st: State) {
    && (st.run.status == Queued ==> st.sent == {} && !st.openA && !st.openB)
    && (st.openB || PastA(st.stage) ==> AllRecorded(st.store, cfg.planA))
    && (PastB(st.stage) || st.run.report.Some? || st.run.status == Completed ==> AllRecorded(st.store, Plan(cfg)))
  }

  ghost predicate Inv(cfg: Setup, st: State) {
    && Provenance(cfg, st)
    && RowsDistinct(st.store)
    && Counted(st.store)
    && Conserved(cfg, st)
    && Barrier(cfg, st)
  }

  // --- One request ---------------------------------------------------------------------------

  lemma {:induction false} InitInv(cfg: Setup)
    requires ValidSetup(cfg)
    ensures Inv(cfg, Init(cfg))
  {
    assert HeldBy([]) == [] && EffectAmounts([]) == [] && EventAmounts([]) == [];
  }

  /** A request writes only what its conditions allow. */
  lemma WriteAllowed(s: Store, w: Worker, r: Reply)
    ensures WriteOf(s, w, r) == Payment ==> CommitAllowed(s, w.event)
    ensures WriteOf(s, w, r) == Row ==> w.pc.RecordPc? && RecordAllowed(s, w.event.deliveryId)
    ensures WriteOf(s, w, r) == Debit ==> CanDebit(s, w.event.amount)
  {
    if r.Cancel? {
      CancelledNeverApplies(r.reasons);
    }
    CancelledNeverApplies(CommitReasons(s, w.event));
    CancelledNeverApplies(RecordReasons(s, w.event.deliveryId));
  }

  /** A worker stays with its event, and holds money between its debit and its payment. */
  lemma HeldAfter(max: nat, p: Processor, s: Store, w: Worker, r: Reply)
    requires Live(w)
    ensures var write := WriteOf(s, w, r);
            var w' := WorkerAfter(max, p, s, w, r);
            && w'.event == w.event && w'.effectId == w.effectId
            && Held(w') == Held(w) + (if write == Debit then w.event.amount
                                      else if write == PutEffect then -w.event.amount else 0)
  {
  }

  /** What a request can do to the worker and to the tables, case by case. */
  lemma RequestShape(max: nat, p: Processor, s: Store, w: Worker, r: Reply)
    requires Live(w)
    ensures var write := WriteOf(s, w, r);
            var w' := WorkerAfter(max, p, s, w, r);
            && w'.event == w.event && w'.effectId == w.effectId
            && (write == Payment ==> CommitAllowed(s, w.event))
            && (write == Row ==> w.pc.RecordPc? && RecordAllowed(s, w.event.deliveryId))
            && (write == Debit ==> CanDebit(s, w.event.amount))
            && Held(w') == Held(w) + (if write == Debit then w.event.amount
                                      else if write == PutEffect then -w.event.amount else 0)
  {
    WriteAllowed(s, w, r);
    HeldAfter(max, p, s, w, r);
  }

  lemma UnwrittenUpdate(workers: seq<Worker>, i: nat, w': Worker)
    requires i < |workers|
    ensures Unwritten(workers[i := w']) == Unwritten(workers) - Held(workers[i]) + Held(w')
  {
    assert HeldBy(workers[i := w']) == HeldBy(workers)[i := Held(w')];
    SumUpdate(HeldBy(workers), i, Held(w'));
  }

  lemma UnwrittenAppend(workers: seq<Worker>, w: Worker)
    ensures Unwritten(workers + [w]) == Unwritten(workers) + Held(w)
  {
    assert HeldBy(workers + [w]) == HeldBy(workers) + [Held(w)];
    SumAppend(HeldBy(workers), Held(w));
  }

  lemma DebitedAppend(debits: seq<Event>, e: Event)
    ensures Sum(EventAmounts(debits + [e])) == Sum(EventAmounts(debits)) + e.amount
  {
    assert EventAmounts(debits + [e]) == EventAmounts(debits) + [e.amount];
    SumAppend(EventAmounts(debits), e.amount);
  }

  lemma RequestConserves(cfg: Setup, st: State, i: nat, r: Reply)
    requires Conserved(cfg, st) && Enabled(cfg, st, Request(i, r))
    ensures Conserved(cfg, Requested(cfg, st, i, r))
  {
    var w := st.workers[i];
    RequestShape(cfg.maxAttempts, cfg.processor, st.store, w, r);
    UnwrittenUpdate(st.workers, i, WorkerAfter(cfg.maxAttempts, cfg.processor, st.store, w, r));
    SpentWritten(st.store, w, r);
    DebitedAppend(st.debits, w.event);
    assert st.debits + [] == st.debits;
  }

  lemma SpentWritten(s: Store, w: Worker, r: Reply)
    ensures var write, s' := WriteOf(s, w, r), StoreAfter(s, w, r);
            && Spent(s'.effects)
               == Spent(s.effects) + (if write == Payment || write == PutEffect then w.event.amount else 0)
            && s'.remaining == s.remaining - (if write == Payment || write == Debit then w.event.amount else 0)
            && s'.runExists == s.runExists
  {
    SpentAppend(s.effects, EffectFor(w.event, w.effectId));
  }

  lemma RowFromGrows(sent: set<Event>, sent': set<Event>, row: Delivery)
    requires sent <= sent' && RowFrom(sent, row)
    ensures RowFrom(sent', row)
  {
    var e :| e in sent && e.deliveryId == row.deliveryId && e.key == row.key;
    assert e in sent';
  }

  lemma EffectFromGrows(sent: set<Event>, sent': set<Event>, x: Effect)
    requires sent <= sent' && EffectFrom(sent, x)
    ensures EffectFrom(sent', x)
  {
    var e :| e in sent && e.deliveryId == x.deliveryId && e.key == x.key && e.amount == x.amount;
    assert e in sent';
  }

  lemma RequestProvenance(cfg: Setup, st: State, i: nat, r: Reply)
    requires Provenance(cfg, st) && Enabled(cfg, st, Request(i, r))
    ensures Provenance(cfg, Requested(cfg, st, i, r))
  {
    var w := st.workers[i];
    RequestShape(cfg.maxAttempts, cfg.processor, st.store, w, r);
    var st' := Requested(cfg, st, i, r);
    assert w.event in st.sent;
    forall j | 0 <= j < |st'.store.rows| ensures RowFrom(st'.sent, st'.store.rows[j]) {
      if j < |st.store.rows| {
        assert st'.store.rows[j] == st.store.rows[j];
      }
    }
    forall j | 0 <= j < |st'.store.effects| ensures EffectFrom(st'.sent, st'.store.effects[j]) {
      if j < |st.store.effects| {
        assert st'.store.effects[j] == st.store.effects[j];
      }
    }
  }

  lemma CountAppend(rows: seq<Delivery>, row: Delivery, o: Outcome)
    ensures CountOutcome(rows + [row], o) == CountOutcome(rows, o) + (if row.outcome == o then 1 else 0)
  {
    assert (rows + [row])[..|rows|] == rows;
  }

  lemma NewRow(s: Store, s': Store, row: Delivery)
    requires RowsDistinct(s) && !Recorded(s, row.deliveryId) && s'.rows == s.rows + [row]
    ensures RowsDistinct(s')
  {
    forall i | 0 <= i < |s.rows| ensures s.rows[i].deliveryId != row.deliveryId {
    }
  }

  lemma CountedRow(s: Store, row: Delivery)
    requires Counted(s)
    ensures Counted(WithRow(s, row))
  {
    CountAppend(s.rows, row, Committed);
    CountAppend(s.rows, row, DuplicateSuppressed);
    CountAppend(s.rows, row, BudgetExhausted);
  }

  lemma CountedPayment(s: Store, e: Event, effectId: nat, attempt: nat)
    requires Counted(s)
    ensures Counted(WithPayment(s, e, effectId, attempt))
  {
    var row := DeliveryFor(e, Committed, attempt, Some(effectId), None);
    CountAppend(s.rows, row, Committed);
    CountAppend(s.rows, row, DuplicateSuppressed);
    CountAppend(s.rows, row, BudgetExhausted);
  }

  /** A request adds at most one row, for its own delivery, and only when there is none. */
  lemma RowsAfter(s: Store, w: Worker, r: Reply)
    requires RowsDistinct(s) && Counted(s) && Live(w)
    ensures RowsDistinct(StoreAfter(s, w, r)) && Counted(StoreAfter(s, w, r)) && s.rows <= StoreAfter(s, w, r).rows
  {
    var write := WriteOf(s, w, r);
    var s' := After(s, w, write);
    RequestShape(1, Protected, s, w, r);
    if write == Payment {
      NewRow(s, s', DeliveryFor(w.event, Committed, w.attempts + 1, Some(w.effectId), None));
      CountedPayment(s, w.event, w.effectId, w.attempts + 1);
    } else if write == Row {
      NewRow(s, s', RowOf(w));
      CountedRow(s, RowOf(w));
    }
  }

  lemma RecordedGrows(s: Store, s': Store, events: seq<Event>)
    requires s.rows <= s'.rows && AllRecorded(s, events)
    ensures AllRecorded(s', events)
  {
    forall i | 0 <= i < |events| ensures Recorded(s', events[i].deliveryId) {
      assert Recorded(s, events[i].deliveryId);
      var j :| 0 <= j < |s.rows| && s.rows[j].deliveryId == events[i].deliveryId;
      assert s'.rows[j] == s.rows[j];
    }
  }

  lemma RequestInv(cfg: Setup, st: State, i: nat, r: Reply)
    requires Inv(cfg, st) && Enabled(cfg, st, Request(i, r))
    ensures Inv(cfg, Requested(cfg, st, i, r))
  {
    var st' := Requested(cfg, st, i, r);
    RequestProvenance(cfg, st, i, r);
    RowsAfter(st.store, st.workers[i], r);
    RequestConserves(cfg, st, i, r);
    if AllRecorded(st.store, cfg.planA) {
      RecordedGrows(st.store, st'.store, cfg.planA);
    }
    if AllRecorded(st.store, Plan(cfg)) {
      RecordedGrows(st.store, st'.store, Plan(cfg));
    }
  }

  // --- The other labels -------------------------------------------------------------------------

  lemma CrashInv(cfg: Setup, st: State, i: nat)
    requires Inv(cfg, st) && Enabled(cfg, st, Crash(i))
    ensures Inv(cfg, Step(cfg, st, Crash(i)))
  {
    UnwrittenUpdate(st.workers, i, Vanish(st.workers[i]));
  }

  lemma ReceiveInv(cfg: Setup, st: State, e: Event)
    requires Inv(cfg, st) && Enabled(cfg, st, Receive(e))
    ensures Inv(cfg, Step(cfg, st, Receive(e)))
  {
    UnwrittenAppend(st.workers, Start(cfg.processor, e, |st.workers|));
  }

  lemma SendInv(cfg: Setup, st: State, e: Event)
    requires Inv(cfg, st) && Enabled(cfg, st, Send(e))
    ensures Inv(cfg, Step(cfg, st, Send(e)))
  {
    var st' := Step(cfg, st, Send(e));
    forall j | 0 <= j < |st'.store.rows| ensures RowFrom(st'.sent, st'.store.rows[j]) {
      RowFromGrows(st.sent, st'.sent, st.store.rows[j]);
    }
    forall j | 0 <= j < |st'.store.effects| ensures EffectFrom(st'.sent, st'.store.effects[j]) {
      EffectFromGrows(st.sent, st'.sent, st.store.effects[j]);
    }
  }

  lemma RowIdsSent(cfg: Setup, st: State, events: seq<Event>)
    requires Provenance(cfg, st) && RowsDistinct(st.store)
    requires forall e :: e in st.sent ==> e in events
    ensures Distinct(RowIds(st.store.rows))
    ensures forall id :: id in RowIds(st.store.rows) ==> id in EventIds(events)
  {
    forall i | 0 <= i < |st.store.rows| ensures st.store.rows[i].deliveryId in EventIds(events) {
      assert RowFrom(st.sent, st.store.rows[i]);
      var e :| e in st.sent && e.deliveryId == st.store.rows[i].deliveryId && e.key == st.store.rows[i].key;
      var j :| 0 <= j < |events| && events[j] == e;
      assert EventIds(events)[j] == st.store.rows[i].deliveryId;
    }
  }

  /**
   The barrier is sound: rows never outnumber the messages, and once `delivered` reaches
   the number of planned messages, every one of them is recorded.
   */
  lemma DrainSound(cfg: Setup, st: State, events: seq<Event>)
    requires Provenance(cfg, st) && RowsDistinct(st.store) && Counted(st.store)
    requires DistinctIds(events) && forall e :: e in st.sent ==> e in events
    ensures st.store.delivered <= |events|
    ensures st.store.delivered >= |events| ==> AllRecorded(st.store, events)
  {
    var ids, planned := RowIds(st.store.rows), EventIds(events);
    RowIdsSent(cfg, st, events);
    Pigeonhole(ids, planned);
    if |ids| == |planned| {
      forall i | 0 <= i < |events| ensures Recorded(st.store, events[i].deliveryId) {
        assert planned[i] in ids;
        var j :| 0 <= j < |ids| && ids[j] == planned[i];
        assert st.store.rows[j].deliveryId == events[i].deliveryId;
      }
    }
  }

  lemma DrainedA(cfg: Setup, st: State)
    requires ValidSetup(cfg) && Inv(cfg, st) && st.store.delivered >= |cfg.planA|
    ensures AllRecorded(st.store, cfg.planA)
  {
    if !st.openB {
      assert forall i :: 0 <= i < |cfg.planA| ==> Plan(cfg)[i] == cfg.planA[i];
      DrainSound(cfg, st, cfg.planA);
    }
  }

  lemma DrainedB(cfg: Setup, st: State)
    requires ValidSetup(cfg) && Inv(cfg, st)
    ensures st.store.delivered <= |Plan(cfg)|
    ensures st.store.delivered >= |Plan(cfg)| ==> AllRecorded(st.store, Plan(cfg))
  {
    DrainSound(cfg, st, Plan(cfg));
  }

  /** Recorded deliveries are counted: with all of a list recorded, `delivered` has reached its length. */
  lemma AllRecordedCounts(st: State, events: seq<Event>)
    requires Counted(st.store) && RowsDistinct(st.store) && DistinctIds(events) && AllRecorded(st.store, events)
    ensures st.store.delivered >= |events|
  {
    var ids, rows := EventIds(events), RowIds(st.store.rows);
    forall id | id in ids ensures id in rows {
      var i :| 0 <= i < |ids| && ids[i] == id;
      assert Recorded(st.store, events[i].deliveryId);
      var j :| 0 <= j < |st.store.rows| && st.store.rows[j].deliveryId == id;
      assert rows[j] == id;
    }
    Pigeonhole(ids, rows);
  }

  lemma PlanADistinct(cfg: Setup)
    requires DistinctIds(Plan(cfg))
    ensures DistinctIds(cfg.planA)
  {
    forall i, j | 0 <= i < j < |cfg.planA| ensures cfg.planA[i].deliveryId != cfg.planA[j].deliveryId {
      assert Plan(cfg)[i] == cfg.planA[i] && Plan(cfg)[j] == cfg.planA[j];
    }
  }

  lemma SomethingSent(cfg: Setup, st: State)
    requires Provenance(cfg, st)
    ensures st.debits != [] || st.store.rows != [] ==> exists e :: e in st.sent
  {
    if st.debits != [] {
      assert st.debits[0] in st.sent;
    }
    if st.store.rows != [] {
      assert RowFrom(st.sent, st.store.rows[0]);
    }
  }

  /** While the run is QUEUED nothing has been delivered, so a first or retried InitRun resets nothing. */
  lemma ResetIsIdentity(cfg: Setup, st: State)
    requires Inv(cfg, st)
    ensures ResetCounters(cfg, st) == st
  {
    if st.run.status == Queued {
      SomethingSent(cfg, st);
      assert EventAmounts(st.debits) == [];
    }
  }

  /** A task request leaves the tables, the workers and the messages alone. */
  ghost predicate SameTables(st: State, st': State) {
    && st'.store == st.store && st'.workers == st.workers
    && st'.debits == st.debits && st'.sent == st.sent
    && (st.openA ==> st'.openA) && (st.openB ==> st'.openB) && st'.starting == st.starting
  }

  predicate Injects(stage: Stage) {
    stage.InjectA? || stage.InjectB?
  }

  predicate Drains(stage: Stage) {
    stage.DrainA? || stage.DrainB?
  }

  /** What the tasks that evaluate nothing can do, kind by kind. */
  lemma InjectFrame(st: State, phase: RunPhase)
    ensures var st' := DoInject(st, phase);
            && SameTables(st, st') && st'.run == st.run.(phase := st'.run.phase)
            && (st'.retries == st.retries || st'.retries == TASK_RETRIES)
  {
  }

  lemma InjectTask(cfg: Setup, st: State)
    requires Injects(st.stage)
    ensures var st' := Do(cfg, st);
            && SameTables(st, st') && st'.run == st.run.(phase := st'.run.phase)
            && (Injects(st'.stage) || st'.stage == DrainA(0) || st'.stage == DrainB(0)
               || st'.stage == MarkFailed(TaskError))
            && (st'.stage.MarkFailed? ==> st.run.status != Running)
            && (st'.retries == st.retries || st'.retries == TASK_RETRIES)
            && st'.openA == (st.openA || st'.stage == InjectA(true))
               && st'.openB == (st.openB || st'.stage == InjectB(true))
  {
    InjectFrame(st, AtPhaseA);
    InjectFrame(st, AtPhaseB);
  }

  lemma DrainTask(cfg: Setup, st: State)
    requires Drains(st.stage)
    ensures var st' := Do(cfg, st);
            && SameTables(st, st') && st'.run == st.run && st'.retries == TASK_RETRIES
            && st'.openA == st.openA && st'.openB == st.openB
            && (Drains(st'.stage) || st'.stage == InjectB(false) || st'.stage == Evaluate(Begin)
               || st'.stage == MarkFailed(DrainTimeout))
  {
  }

  lemma OtherTask(cfg: Setup, st: State)
    requires st.stage.InitRun? || st.stage.MarkFailed? || Terminal(st.stage)
    ensures var st' := Do(cfg, st);
            && st'.run == (if st.stage.InitRun? && st.run.status == Queued
                           then st.run.(status := Running, phase := AtQueue)
                           else if st.stage.MarkFailed? then FailRun(st.run, st.stage.reason) else st.run)
            && st'.stage == (if st.stage.InitRun? then
                               if st.run.status == Queued || st.run.status == Running then InjectA(false)
                                 else MarkFailed(TaskError)
                             else if st.stage.MarkFailed? then RunFailed else st.stage)
            && (st'.retries == st.retries || st'.retries == TASK_RETRIES)
            && st'.openA == st.openA && st'.openB == st.openB
  {
  }

  lemma ReadTask(cfg: Setup, st: State)
    requires st.stage.Evaluate? || st.stage.GenerateReceipt?
    ensures SameTables(st, Do(cfg, st))
  {
  }

  lemma DoFrame(cfg: Setup, st: State)
    requires ResetCounters(cfg, st) == st
    ensures SameTables(st, Do(cfg, st))
  {
    if Injects(st.stage) {
      InjectTask(cfg, st);
    } else if Drains(st.stage) {
      DrainTask(cfg, st);
    } else if st.stage.Evaluate? || st.stage.GenerateReceipt? {
      ReadTask(cfg, st);
    }
  }

  lemma TaskFrame(cfg: Setup, st: State, m: Move)
    requires Inv(cfg, st)
    ensures SameTables(st, Moved(cfg, st, m))
  {
    ResetIsIdentity(cfg, st);
    DoFrame(cfg, st);
  }

  ghost predicate DrainReads(cfg: Setup, st: State) {
    && (st.stage.DrainA? && st.store.delivered >= |cfg.planA| ==> AllRecorded(st.store, cfg.planA))
    && (st.stage.DrainB? && st.store.delivered >= |Plan(cfg)| ==> AllRecorded(st.store, Plan(cfg)))
    && (AllRecorded(st.store, Plan(cfg)) ==> AllRecorded(st.store, cfg.planA))
  }

  lemma DrainReadsTruly(cfg: Setup, st: State)
    requires ValidSetup(cfg) && Inv(cfg, st)
    ensures DrainReads(cfg, st)
  {
    if st.store.delivered >= |cfg.planA| {
      DrainedA(cfg, st);
    }
    DrainedB(cfg, st);
    if AllRecorded(st.store, Plan(cfg)) {
      forall i | 0 <= i < |cfg.planA| ensures Recorded(st.store, cfg.planA[i].deliveryId) {
        assert Plan(cfg)[i] == cfg.planA[i];
      }
    }
  }

  lemma TaskBarrier(cfg: Setup, st: State)
    requires Barrier(cfg, st) && DrainReads(cfg, st) && ResetCounters(cfg, st) == st
    requires !st.stage.Evaluate? && !st.stage.GenerateReceipt?
    ensures Barrier(cfg, Do(cfg, st))
  {
    DoFrame(cfg, st);
    if Injects(st.stage) {
      InjectTask(cfg, st);
    } else if Drains(st.stage) {
      DrainTask(cfg, st);
    } else {
      OtherTask(cfg, st);
    }
  }

  lemma StoredOnlyRunning(run: Run, recomputed: Result<Report, FailureReason>)
    ensures StoreReport(run, recomputed).Ok? ==> StoreReport(run, recomputed).value.status == run.status == Running
    ensures StoreReceipt(run, recomputed).Ok? ==> StoreReceipt(run, recomputed).value.status == Completed
    ensures StoreReceipt(run, recomputed).Ok? ==> StoreReceipt(run, recomputed).value.report == run.report
  {
  }

  lemma ReadBarrier(cfg: Setup, st: State)
    requires Barrier(cfg, st) && DrainReads(cfg, st)
    requires st.stage.Evaluate? || st.stage.GenerateReceipt?
    ensures Barrier(cfg, Do(cfg, st))
  {
    var at := st.stage.at;
    if at.SawRows? {
      StoredOnlyRunning(st.run, Recompute(cfg.eligible, at.effects, at.rows, cfg.budget, |Plan(cfg)|));
    }
  }

  lemma DoBarrier(cfg: Setup, st: State)
    requires Barrier(cfg, st) && DrainReads(cfg, st) && ResetCounters(cfg, st) == st
    ensures Barrier(cfg, Do(cfg, st))
  {
    if st.stage.Evaluate? || st.stage.GenerateReceipt? {
      ReadBarrier(cfg, st);
    } else {
      TaskBarrier(cfg, st);
    }
  }

  lemma SameTablesInv(cfg: Setup, st: State, st': State)
    requires Inv(cfg, st) && SameTables(st, st') && Barrier(cfg, st')
    ensures Inv(cfg, st')
  {
  }

  /** Starting a task again, or giving it up, promises nothing new. */
  lemma MovedBarrier(cfg: Setup, st: State, m: Move)
    requires Barrier(cfg, st) && Barrier(cfg, Do(cfg, st)) && SameTables(st, Do(cfg, st))
    ensures Barrier(cfg, Moved(cfg, st, m)) && SameTables(st, Moved(cfg, st, m))
  {
    match m
    case Advance =>
    case Retry(applied) => StageBarrier(cfg, st, if applied then Do(cfg, st) else st, Moved(cfg, st, m));
    case Catch(applied) => StageBarrier(cfg, st, if applied then Do(cfg, st) else st, Moved(cfg, st, m));
  }

  /** A task that starts again, or is given up, is no further than it was. */
  lemma StageBarrier(cfg: Setup, st: State, done: State, st': State)
    requires Barrier(cfg, st) && Barrier(cfg, done) && SameTables(st, done)
    requires st' == done.(stage := st'.stage, retries := st'.retries)
    requires (PastA(st'.stage) ==> PastA(st.stage)) && (PastB(st'.stage) ==> PastB(st.stage))
    ensures Barrier(cfg, st') && SameTables(st, st')
  {
  }

  lemma TaskInv(cfg: Setup, st: State, m: Move)
    requires ValidSetup(cfg) && Inv(cfg, st) && CanMove(cfg, st, m)
    ensures Inv(cfg, Moved(cfg, st, m))
  {
    ResetIsIdentity(cfg, st);
    DrainReadsTruly(cfg, st);
    DoFrame(cfg, st);
    DoBarrier(cfg, st);
    MovedBarrier(cfg, st, m);
    SameTablesInv(cfg, st, Moved(cfg, st, m));
  }

  /** The API's answer touches the Run record and nothing else. */
  lemma StartReturnsInv(cfg: Setup, st: State, raised: bool)
    requires Inv(cfg, st) && st.starting
    ensures Inv(cfg, Step(cfg, st, StartReturns(raised)))
  {
  }

  // --- Every run ----------------------------------------------------------------------------------

  lemma StepInv(cfg: Setup, st: State, l: Label)
    requires ValidSetup(cfg) && Inv(cfg, st) && Enabled(cfg, st, l)
    ensures Inv(cfg, Step(cfg, st, l))
  {
    match l
    case Receive(e) => ReceiveInv(cfg, st, e);
    case Request(i, r) => RequestInv(cfg, st, i, r);
    case Crash(i) => CrashInv(cfg, st, i);
    case Send(e) => SendInv(cfg, st, e);
    case Task(m) => TaskInv(cfg, st, m);
    case StartReturns(raised) => StartReturnsInv(cfg, st, raised);
  }

  /**
   Every reachable state of every run, for every processor, under any interleaving,
   crash, conflict and redelivery, satisfies the invariant.
   */
  lemma {:induction false} RunInv(cfg: Setup, states: seq<State>, labels: seq<Label>, n: nat)
    requires ValidSetup(cfg) && IsRun(cfg, states, labels) && n < |states|
    ensures Inv(cfg, states[n])
  {
    if n == 0 {
      InitInv(cfg);
    } else {
      RunInv(cfg, states, labels, n - 1);
      StepInv(cfg, states[n - 1], labels[n - 1]);
    }
  }

  // --- Who pays for a repeat payment -----------------------------------------------------------------

  lemma PlannedIsOwed(cfg: Setup, st: State, e: Event)
    requires ValidSetup(cfg) && Provenance(cfg, st) && e in st.sent
    ensures OwedEvent(cfg.eligible, e) && e.amount >= 1 && e in Plan(cfg)
  {
    assert e in Plan(cfg);
    var i :| 0 <= i < |Plan(cfg)| && Plan(cfg)[i] == e;
    assert OwedEvent(cfg.eligible, e);
    var j :| 0 <= j < |cfg.eligible| && cfg.eligible[j].key == e.key;
    DueAt(cfg.eligible, j);
  }

  /** The ledger only ever holds owed amounts, paid to entitlements of the batch. */
  lemma LedgerIsOwed(cfg: Setup, st: State)
    requires ValidSetup(cfg) && Provenance(cfg, st)
    ensures HonestLedger(cfg.eligible, st.store.effects)
    ensures Spent(st.store.effects) == PaidTo(cfg.eligible, Payments(st.store.effects))
  {
    var effects := st.store.effects;
    forall i | 0 <= i < |effects|
      ensures Eligible(cfg.eligible, effects[i].key)
      ensures effects[i].amount >= 1 && effects[i].amount == Due(cfg.eligible, effects[i].key)
    {
      assert EffectFrom(st.sent, effects[i]);
      var e :| e in st.sent && e.deliveryId == effects[i].deliveryId && e.key == effects[i].key
        && e.amount == effects[i].amount;
      PlannedIsOwed(cfg, st, e);
    }
    LedgerByKey(cfg.eligible, effects);
  }

  /**
   Victim identity, in every reachable state and for unequal amounts: what the unpaid
   entitlements are owed is exactly the misallocated money, plus the budget left, plus
   the debits that never became payments.
   */
  lemma VictimIdentity(cfg: Setup, st: State)
    requires ValidSetup(cfg) && FullBudget(cfg) && Inv(cfg, st)
    ensures var payments := Payments(st.store.effects);
            UnpaidNeed(cfg.eligible, payments)
            == Misallocated(cfg.eligible, payments) + st.store.remaining + Unwritten(st.workers)
  {
    LedgerIsOwed(cfg, st);
    PaidBalance(cfg.eligible, Payments(st.store.effects));
  }

  /** Debits that never became payments are never negative. */
  lemma UnwrittenNonNegative(cfg: Setup, st: State)
    requires ValidSetup(cfg) && Provenance(cfg, st)
    ensures Unwritten(st.workers) >= 0
    ensures forall i :: 0 <= i < |st.workers| ==> Held(st.workers[i]) <= Unwritten(st.workers)
  {
    forall i | 0 <= i < |st.workers| ensures Held(st.workers[i]) >= 0 {
      PlannedIsOwed(cfg, st, st.workers[i].event);
    }
    SumNonNegative(HeldBy(st.workers));
    assert forall i :: 0 <= i < |st.workers| ==> HeldBy(st.workers)[i] == Held(st.workers[i]);
  }

  /** The budget guard cannot fail, whatever the processor does. */
  lemma BudgetGuardHolds(cfg: Setup, st: State, rows: seq<Delivery>)
    requires ValidSetup(cfg) && Inv(cfg, st)
    ensures EvaluateRun(cfg.eligible, st.store.effects, rows, cfg.budget).budgetGuard
  {
    UnwrittenNonNegative(cfg, st);
  }

  /** With no budget left and no money held, no request can touch the ledger or the budget. */
  lemma NothingLeft(cfg: Setup, st: State, i: nat, r: Reply)
    requires ValidSetup(cfg) && Inv(cfg, st) && Enabled(cfg, st, Request(i, r))
    requires st.store.remaining == 0 && Unwritten(st.workers) == 0
    ensures StoreAfter(st.store, st.workers[i], r).effects == st.store.effects
    ensures StoreAfter(st.store, st.workers[i], r).remaining == 0
  {
    var w := st.workers[i];
    PlannedIsOwed(cfg, st, w.event);
    UnwrittenNonNegative(cfg, st);
    assert Held(w) <= 0;
    RequestShape(cfg.maxAttempts, cfg.processor, st.store, w, r);
  }

  /**
   A PASS is final, for every processor: the whole budget is then in the ledger, so no
   request can debit, pay, or hold money any more.
   */
  lemma PassIsFinal(cfg: Setup, st: State, rows: seq<Delivery>, l: Label)
    requires ValidSetup(cfg) && FullBudget(cfg) && Inv(cfg, st) && Enabled(cfg, st, l)
    requires EvaluateRun(cfg.eligible, st.store.effects, rows, cfg.budget).verdict == Pass
    ensures st.store.remaining == 0 && Unwritten(st.workers) == 0
    ensures Step(cfg, st, l).store.effects == st.store.effects
    ensures Step(cfg, st, l).store.remaining == 0
  {
    assert st.store.remaining == 0 && Unwritten(st.workers) == 0 by {
      VerdictByKey(cfg.eligible, st.store.effects, rows, cfg.budget);
      PaidOnceIsOwed(cfg.eligible, Payments(st.store.effects));
      LedgerIsOwed(cfg, st);
      UnwrittenNonNegative(cfg, st);
    }
    match l
    case Request(i, r) => NothingLeft(cfg, st, i, r);
    case Task(m) => TaskFrame(cfg, st, m);
    case _ =>
  }

  // --- Sizes of the workload ---------------------------------------------------------------------------

  function Occurrences(eligible: seq<Entry>, payments: multiset<Key>): nat {
    if eligible == [] then 0
    else Occurrences(eligible[..|eligible| - 1], payments) + payments[eligible[|eligible| - 1].key]
  }

  lemma {:induction false} NoOccurrences(eligible: seq<Entry>)
    ensures Occurrences(eligible, multiset{}) == 0
  {
    if eligible != [] {
      NoOccurrences(eligible[..|eligible| - 1]);
    }
  }

  lemma {:induction false} OccurrencesAdd(eligible: seq<Entry>, payments: multiset<Key>, k: Key)
    requires DistinctKeys(eligible)
    ensures Occurrences(eligible, payments + multiset{k})
            == Occurrences(eligible, payments) + (if Eligible(eligible, k) then 1 else 0)
  {
    if eligible != [] {
      OccurrencesAdd(eligible[..|eligible| - 1], payments, k);
      EligibleSplit(eligible, k);
      assert forall i :: 0 <= i < |eligible| - 1 ==> eligible[..|eligible| - 1][i] == eligible[i];
    }
  }

  /** Counting a list of eligible keys one by one equals counting it key by key. */
  lemma {:induction false} CountedByKey(eligible: seq<Entry>, keys: seq<Key>)
    requires DistinctKeys(eligible)
    requires forall i :: 0 <= i < |keys| ==> Eligible(eligible, keys[i])
    ensures |keys| == Occurrences(eligible, multiset(keys))
  {
    if keys == [] {
      NoOccurrences(eligible);
    } else {
      var n := |keys| - 1;
      CountedByKey(eligible, keys[..n]);
      assert keys == keys[..n] + [keys[n]];
      OccurrencesAdd(eligible, multiset(keys[..n]), keys[n]);
    }
  }

  /** D: how many entitlements Phase A delivers twice. */
  function DuplicateCount(cfg: Setup): nat {
    |KeysIn(cfg.eligible, multiset(EventKeys(cfg.planA)), MoreThanOnce)|
  }

  lemma {:induction false} CoverageSizes(eligible: seq<Entry>, a: multiset<Key>, b: multiset<Key>)
    requires forall i :: 0 <= i < |eligible| ==>
               (a[eligible[i].key] == 2 && b[eligible[i].key] == 0)
                 || (a[eligible[i].key] == 0 && b[eligible[i].key] == 1)
    ensures Occurrences(eligible, a) == 2 * |KeysIn(eligible, a, MoreThanOnce)|
    ensures Occurrences(eligible, b) == |eligible| - |KeysIn(eligible, a, MoreThanOnce)|
  {
    if eligible != [] {
      var n := |eligible| - 1;
      assert forall i :: 0 <= i < n ==> eligible[..n][i] == eligible[i];
      CoverageSizes(eligible[..n], a, b);
    }
  }

  /** 2D messages in Phase A, N - D in Phase B, N + D in all. */
  lemma PlanSizes(cfg: Setup)
    requires ValidSetup(cfg)
    ensures |cfg.planA| == 2 * DuplicateCount(cfg)
    ensures |cfg.planB| == |cfg.eligible| - DuplicateCount(cfg)
    ensures |Plan(cfg)| == |cfg.eligible| + DuplicateCount(cfg)
  {
    var a, b := EventKeys(cfg.planA), EventKeys(cfg.planB);
    forall i | 0 <= i < |a| ensures Eligible(cfg.eligible, a[i]) {
      assert Plan(cfg)[i] == cfg.planA[i];
    }
    forall i | 0 <= i < |b| ensures Eligible(cfg.eligible, b[i]) {
      assert Plan(cfg)[|a| + i] == cfg.planB[i];
    }
    CountedByKey(cfg.eligible, a);
    CountedByKey(cfg.eligible, b);
    assert forall i :: 0 <= i < |cfg.eligible| ==> Covered(cfg, cfg.eligible[i].key);
    CoverageSizes(cfg.eligible, multiset(a), multiset(b));
  }

  /** Every entitlement has a planned delivery. */
  lemma PlannedEvent(cfg: Setup, i: nat) returns (j: nat)
    requires ValidSetup(cfg) && i < |cfg.eligible|
    ensures j < |Plan(cfg)| && Plan(cfg)[j].key == cfg.eligible[i].key
  {
    var k := cfg.eligible[i].key;
    assert Covered(cfg, k);
    if KeyCount(cfg.planA, k) == 2 {
      assert k in EventKeys(cfg.planA);
      j :| 0 <= j < |cfg.planA| && EventKeys(cfg.planA)[j] == k;
      assert Plan(cfg)[j] == cfg.planA[j];
    } else {
      assert k in EventKeys(cfg.planB);
      var b :| 0 <= b < |cfg.planB| && EventKeys(cfg.planB)[b] == k;
      j := |cfg.planA| + b;
      assert Plan(cfg)[j] == cfg.planB[b];
    }
  }

  /** A recorded planned delivery has a row with its own key. */
  lemma RowOfEvent(cfg: Setup, st: State, j: nat) returns (r: nat)
    requires ValidSetup(cfg) && Provenance(cfg, st) && j < |Plan(cfg)|
    requires Recorded(st.store, Plan(cfg)[j].deliveryId)
    ensures r < |st.store.rows| && st.store.rows[r].deliveryId == Plan(cfg)[j].deliveryId
    ensures st.store.rows[r].key == Plan(cfg)[j].key && Plan(cfg)[j] in st.sent
  {
    r :| 0 <= r < |st.store.rows| && st.store.rows[r].deliveryId == Plan(cfg)[j].deliveryId;
    assert RowFrom(st.sent, st.store.rows[r]);
    var e :| e in st.sent && e.deliveryId == st.store.rows[r].deliveryId && e.key == st.store.rows[r].key;
    assert e in Plan(cfg);
    var m :| 0 <= m < |Plan(cfg)| && Plan(cfg)[m] == e;
    assert m == j;
  }

  /** Once all is recorded the rows are the plan, one row per planned delivery. */
  lemma RowsAreThePlan(cfg: Setup, st: State)
    requires ValidSetup(cfg) && Inv(cfg, st) && AllRecorded(st.store, Plan(cfg))
    ensures |st.store.rows| == |cfg.eligible| + DuplicateCount(cfg) == |Plan(cfg)|
  {
    PlanSizes(cfg);
    DrainedB(cfg, st);
    RowIdsSent(cfg, st, Plan(cfg));
    PlannedHaveRows(Plan(cfg), st.store);
    Pigeonhole(EventIds(Plan(cfg)), RowIds(st.store.rows));
  }

  lemma PlannedHaveRows(events: seq<Event>, s: Store)
    requires AllRecorded(s, events)
    ensures forall id :: id in EventIds(events) ==> id in RowIds(s.rows)
  {
    forall i | 0 <= i < |events| ensures events[i].deliveryId in RowIds(s.rows) {
      assert Recorded(s, events[i].deliveryId);
      var j :| 0 <= j < |s.rows| && s.rows[j].deliveryId == events[i].deliveryId;
      assert RowIds(s.rows)[j] == events[i].deliveryId;
    }
  }
}
