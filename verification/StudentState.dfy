/**
 Per-student states for the live grid (backend/src/domain/student_state.py), and when the
 grid may be believed: an early UNPAID shown before the run has been evaluated.
 */
module StudentState {
  import opened Domain
  import opened Accounts
  import opened Sorting
  import opened Storage
  import opened Machine
  import opened Evaluator
  import opened Protocol
  import opened Invariants
  import P = ProtectedRun

  datatype StudentState = PaidOnce | PaidTwice | Unpaid | Pending

  datatype StudentView = StudentView(
    key: Key, beneficiaryId: string, displayName: string, installment: int, amount: int,
    state: StudentState, payments: nat, deliveries: nat)

  function StateFor(payments: nat, rejectedForBudget: bool, runEvaluated: bool): StudentState {
    if payments >= 2 then PaidTwice
    else if payments == 1 then PaidOnce
    else if runEvaluated || rejectedForBudget then Unpaid
    else Pending
  }

  predicate Rejected(rows: seq<Delivery>, k: Key) {
    exists i | 0 <= i < |rows| :: rows[i].key == k && rows[i].outcome == BudgetExhausted
  }

  function StateOf(effects: seq<Effect>, rows: seq<Delivery>, k: Key, evaluated: bool): StudentState {
    StateFor(Payments(effects)[k], Rejected(rows, k), evaluated)
  }

  function RowKeys(rows: seq<Delivery>): seq<Key> {
    seq(|rows|, i requires 0 <= i < |rows| => rows[i].key)
  }

  function ViewOf(x: Entry, effects: seq<Effect>, rows: seq<Delivery>, evaluated: bool): StudentView {
    StudentView(x.key, x.owed.beneficiaryId, x.owed.displayName, x.owed.installment, x.owed.amount,
                StateOf(effects, rows, x.key, evaluated), Payments(effects)[x.key], multiset(RowKeys(rows))[x.key])
  }

  function Views(eligible: seq<Entry>, effects: seq<Effect>, rows: seq<Delivery>, evaluated: bool): seq<StudentView> {
    seq(|eligible|, i requires 0 <= i < |eligible| => ViewOf(eligible[i], effects, rows, evaluated))
  }

  /** The canonical order of a batch: beneficiary first, then installment. */
  predicate ViewLessEq(a: StudentView, b: StudentView) {
    TextLess(a.beneficiaryId, b.beneficiaryId) || (a.beneficiaryId == b.beneficiaryId && a.installment <= b.installment)
  }

  function StudentViews(eligible: seq<Entry>, effects: seq<Effect>, rows: seq<Delivery>, evaluated: bool)
    : seq<StudentView>
  {
    Sort(Views(eligible, effects, rows, evaluated), ViewLessEq)
  }

  /** The counters and the `rejected` dictionary are filled row by row, then read once per entitlement. */
  method DeriveStudentViews(eligible: seq<Entry>, effects: seq<Effect>, rows: seq<Delivery>, evaluated: bool)
    returns (views: seq<StudentView>)
    ensures views == StudentViews(eligible, effects, rows, evaluated)
  {
    var payments, deliveries := multiset(EffectKeys(effects)), multiset(RowKeys(rows));
    var rejected: map<Key, bool> := map[];
    for n := 0 to |rows|
      invariant forall k :: (k in rejected && rejected[k]) <==> Rejected(rows[..n], k)
    {
      if rows[n].outcome == BudgetExhausted {
        rejected := rejected[rows[n].key := true];
      }
      RejectedGrows(rows, n);
    }
    assert rows[..|rows|] == rows;
    views := [];
    for n := 0 to |eligible|
      invariant views == Views(eligible, effects, rows, evaluated)[..n]
    {
      var x := eligible[n];
      var refused := x.key in rejected && rejected[x.key];
      views := views + [StudentView(x.key, x.owed.beneficiaryId, x.owed.displayName, x.owed.installment, x.owed.amount,
                                    StateFor(payments[x.key], refused, evaluated), payments[x.key], deliveries[x.key])];
    }
    assert views == Views(eligible, effects, rows, evaluated);
    views := Sort(views, ViewLessEq);
  }

  lemma RejectedGrows(rows: seq<Delivery>, n: nat)
    requires n < |rows|
    ensures forall k :: Rejected(rows[..n + 1], k) <==>
              Rejected(rows[..n], k) || (rows[n].outcome == BudgetExhausted && rows[n].key == k)
  {
    forall k ensures Rejected(rows[..n + 1], k) <==>
              Rejected(rows[..n], k) || (rows[n].outcome == BudgetExhausted && rows[n].key == k)
    {
      RejectedSplit(rows[..n], rows[n], k);
      assert rows[..n + 1] == rows[..n] + [rows[n]];
    }
  }

  lemma RejectedSplit(rows: seq<Delivery>, row: Delivery, k: Key)
    ensures Rejected(rows + [row], k) <==> Rejected(rows, k) || (row.outcome == BudgetExhausted && row.key == k)
  {
    if Rejected(rows, k) {
      var i :| 0 <= i < |rows| && rows[i].key == k && rows[i].outcome == BudgetExhausted;
      assert (rows + [row])[i] == rows[i];
    }
    if row.outcome == BudgetExhausted && row.key == k {
      assert (rows + [row])[|rows|] == row;
    }
  }

  /** Tiles come in canonical order: by beneficiary, then by installment. */
  lemma ViewsInOrder(eligible: seq<Entry>, effects: seq<Effect>, rows: seq<Delivery>, evaluated: bool)
    ensures var views := StudentViews(eligible, effects, rows, evaluated);
            && multiset(views) == multiset(Views(eligible, effects, rows, evaluated))
            && (forall i, j :: 0 <= i < j < |views| ==>
                  TextLess(views[i].beneficiaryId, views[j].beneficiaryId)
                  || (views[i].beneficiaryId == views[j].beneficiaryId && views[i].installment <= views[j].installment))
  {
    var views := StudentViews(eligible, effects, rows, evaluated);
    ViewsCompare();
    SortSorts(Views(eligible, effects, rows, evaluated), ViewLessEq);
    SortPermutes(Views(eligible, effects, rows, evaluated), ViewLessEq);
    forall i, j | 0 <= i < j < |views|
      ensures TextLess(views[i].beneficiaryId, views[j].beneficiaryId)
              || (views[i].beneficiaryId == views[j].beneficiaryId && views[i].installment <= views[j].installment)
    {
      assert ViewLessEq(views[i], views[j]);
    }
  }

  /** What the tile of the i-th entitlement shows, before the tiles are sorted. */
  lemma ViewSays(eligible: seq<Entry>, effects: seq<Effect>, rows: seq<Delivery>, evaluated: bool, i: nat)
    requires i < |eligible|
    ensures var k, v, owed := eligible[i].key, Views(eligible, effects, rows, evaluated)[i], eligible[i].owed;
            && |Views(eligible, effects, rows, evaluated)| == |eligible|
            && v.key == k && v.beneficiaryId == owed.beneficiaryId && v.displayName == owed.displayName
            && v.installment == owed.installment && v.amount == owed.amount
            && v.payments == multiset(EffectKeys(effects))[k] && v.deliveries == multiset(RowKeys(rows))[k]
            && (v.state == PaidTwice <==> v.payments >= 2) && (v.state == PaidOnce <==> v.payments == 1)
            && (v.state == Unpaid <==>
                  v.payments == 0
                  && (evaluated || exists j :: 0 <= j < |rows| && rows[j].key == k
                                               && rows[j].outcome == BudgetExhausted))
  {
  }

  lemma ViewsCompare()
    ensures Ranks(ViewLessEq)
  {
    forall a: StudentView, b: StudentView ensures ViewLessEq(a, b) || ViewLessEq(b, a) {
      TextTrichotomy(a.beneficiaryId, b.beneficiaryId);
    }
    forall a: StudentView, b: StudentView, c: StudentView | ViewLessEq(a, b) && ViewLessEq(b, c)
      ensures ViewLessEq(a, c) {
      if TextLess(a.beneficiaryId, b.beneficiaryId) && TextLess(b.beneficiaryId, c.beneficiaryId) {
        TextTransitive(a.beneficiaryId, b.beneficiaryId, c.beneficiaryId);
      }
    }
  }

  // --- The grid and the evaluator ------------------------------------------------------------

  function StateCount(views: seq<StudentView>, s: StudentState): nat {
    if views == [] then 0
    else StateCount(views[..|views| - 1], s) + (if views[|views| - 1].state == s then 1 else 0)
  }

  lemma {:induction false} StateCountIgnoresOrder(xs: seq<StudentView>, ys: seq<StudentView>, s: StudentState)
    requires multiset(xs) == multiset(ys)
    ensures StateCount(xs, s) == StateCount(ys, s)
  {
    if xs == [] {
      assert |ys| == |multiset(ys)|;
    } else {
      var i := MatchLast(xs, ys);
      StateCountIgnoresOrder(xs[..|xs| - 1], ys[..i] + ys[i + 1..], s);
      assert ys == ys[..i] + ([ys[i]] + ys[i + 1..]);
      StateCountConcat(ys[..i], [ys[i]] + ys[i + 1..], s);
      StateCountConcat([ys[i]], ys[i + 1..], s);
      StateCountConcat(ys[..i], ys[i + 1..], s);
      assert [ys[i]][..0] == [];
    }
  }

  lemma {:induction false} StateCountConcat(xs: seq<StudentView>, ys: seq<StudentView>, s: StudentState)
    ensures StateCount(xs + ys, s) == StateCount(xs, s) + StateCount(ys, s)
    decreases |ys|
  {
    if ys == [] {
      assert xs + ys == xs;
    } else {
      assert (xs + ys)[..|xs + ys| - 1] == xs + ys[..|ys| - 1];
      StateCountConcat(xs, ys[..|ys| - 1], s);
    }
  }

  lemma {:induction false} ViewsByClass(eligible: seq<Entry>, effects: seq<Effect>, rows: seq<Delivery>)
    ensures var views := Views(eligible, effects, rows, true);
            && StateCount(views, PaidTwice) == |KeysIn(eligible, Payments(effects), MoreThanOnce)|
            && StateCount(views, PaidOnce) == |KeysIn(eligible, Payments(effects), ExactlyOnce)|
            && StateCount(views, Unpaid) == |KeysIn(eligible, Payments(effects), Never)|
            && StateCount(views, Pending) == 0
  {
    if eligible != [] {
      var n := |eligible| - 1;
      ViewsByClass(eligible[..n], effects, rows);
      assert Views(eligible, effects, rows, true)[..n] == Views(eligible[..n], effects, rows, true);
    }
  }

  /** The grid of an evaluated run shows exactly the evaluator's counts. */
  lemma GridMatchesReport(eligible: seq<Entry>, effects: seq<Effect>, rows: seq<Delivery>, budget: int)
    ensures var views := StudentViews(eligible, effects, rows, true);
            var s := EvaluateRun(eligible, effects, rows, budget).summary;
            && |views| == s.eligibleEntitlements
            && StateCount(views, PaidTwice) == s.doublePaid
            && StateCount(views, PaidOnce) == s.paidOnce
            && StateCount(views, Unpaid) == s.unpaid
            && StateCount(views, Pending) == 0
  {
    var plain := Views(eligible, effects, rows, true);
    SortPermutes(plain, ViewLessEq);
    forall s { StateCountIgnoresOrder(Sort(plain, ViewLessEq), plain, s); }
    ViewsByClass(eligible, effects, rows);
    SortedKeys(KeysIn(eligible, Payments(effects), MoreThanOnce));
    SortedKeys(KeysIn(eligible, Payments(effects), Never));
  }

  // --- When an early UNPAID is certain ----------------------------------------------------------

  /** A refusal for lack of budget was true, and stays true: the budget never grows. */
  ghost predicate TooPoor(cfg: Setup, s: Store, workers: seq<Worker>) {
    && (forall i :: 0 <= i < |s.rows| && s.rows[i].outcome == BudgetExhausted ==>
       s.remaining < Due(cfg.eligible, s.rows[i].key))
    && (forall i :: 0 <= i < |workers| ==> RefusalTrue(cfg, s, workers[i]))
  }

  ghost predicate RefusalTrue(cfg: Setup, s: Store, w: Worker) {
    w.pc.RecordPc? && w.pc.outcome == BudgetExhausted ==> s.remaining < Due(cfg.eligible, w.event.key)
  }

  lemma RequestRefusal(cfg: Setup, s: Store, w: Worker, r: Reply)
    requires Live(w) && Possible(s, w, r, cfg.complete) && RefusalTrue(cfg, s, w)
    requires w.event.amount == Due(cfg.eligible, w.event.key) && w.event.amount >= 1
    ensures StoreAfter(s, w, r).remaining <= s.remaining
    ensures RefusalTrue(cfg, StoreAfter(s, w, r), WorkerAfter(cfg.maxAttempts, cfg.processor, s, w, r))
  {
    if w.pc.CommitPc? {
      CommitRefusal(cfg, s, w, r);
    } else {
      OtherRefusal(cfg, s, w, r);
    }
  }

  lemma CommitRefusal(cfg: Setup, s: Store, w: Worker, r: Reply)
    requires w.pc.CommitPc? && Possible(s, w, r, cfg.complete)
    requires w.event.amount == Due(cfg.eligible, w.event.key) && w.event.amount >= 1
    ensures StoreAfter(s, w, r).remaining <= s.remaining
    ensures RefusalTrue(cfg, StoreAfter(s, w, r), WorkerAfter(cfg.maxAttempts, cfg.processor, s, w, r))
  {
    SoundCommitAnswer(s, w.event, r);
  }

  lemma OtherRefusal(cfg: Setup, s: Store, w: Worker, r: Reply)
    requires Live(w) && !w.pc.CommitPc? && RefusalTrue(cfg, s, w)
    requires w.event.amount == Due(cfg.eligible, w.event.key) && w.event.amount >= 1
    ensures StoreAfter(s, w, r).remaining <= s.remaining
    ensures RefusalTrue(cfg, StoreAfter(s, w, r), WorkerAfter(cfg.maxAttempts, cfg.processor, s, w, r))
  {
  }

  lemma RequestRows(cfg: Setup, s: Store, w: Worker, r: Reply)
    requires Live(w) && RefusalTrue(cfg, s, w)
    ensures RowsTrue(cfg, s, StoreAfter(s, w, r), w)
  {
  }

  /** At most one row is new, and if it is a refusal, it is a true one. */
  ghost predicate RowsTrue(cfg: Setup, s: Store, s': Store, w: Worker) {
    s'.rows == s.rows ||
    (|s'.rows| == |s.rows| + 1 && s.rows <= s'.rows
     && (s'.rows[|s.rows|].outcome == BudgetExhausted ==>
           s'.rows[|s.rows|].key == w.event.key && s.remaining < Due(cfg.eligible, w.event.key)))
  }

  lemma RowsStayTrue(cfg: Setup, s: Store, s': Store, w: Worker)
    requires RowsTrue(cfg, s, s', w) && s'.remaining <= s.remaining
    requires forall i :: 0 <= i < |s.rows| && s.rows[i].outcome == BudgetExhausted ==>
             s.remaining < Due(cfg.eligible, s.rows[i].key)
    ensures forall i :: 0 <= i < |s'.rows| && s'.rows[i].outcome == BudgetExhausted ==>
            s'.remaining < Due(cfg.eligible, s'.rows[i].key)
    ensures s.rows <= s'.rows
  {
  }

  lemma RequestKeepsTooPoor(cfg: Setup, st: State, i: nat, r: Reply)
    requires ValidSetup(cfg) && Provenance(cfg, st) && Enabled(cfg, st, Request(i, r))
    requires TooPoor(cfg, st.store, st.workers)
    ensures var st' := Requested(cfg, st, i, r);
            TooPoor(cfg, st'.store, st'.workers) && st'.store.remaining <= st.store.remaining
              && st.store.rows <= st'.store.rows
  {
    var w, s' := st.workers[i], StoreAfter(st.store, st.workers[i], r);
    PlannedIsOwed(cfg, st, w.event);
    assert RefusalTrue(cfg, st.store, w);
    RequestRefusal(cfg, st.store, w, r);
    RequestRows(cfg, st.store, w, r);
    RowsStayTrue(cfg, st.store, s', w);
    forall j | 0 <= j < |st.workers| && j != i ensures RefusalTrue(cfg, s', st.workers[j]) {
      assert RefusalTrue(cfg, st.store, st.workers[j]);
    }
  }

  lemma StepTooPoor(cfg: Setup, st: State, l: Label)
    requires ValidSetup(cfg) && Inv(cfg, st) && Enabled(cfg, st, l) && TooPoor(cfg, st.store, st.workers)
    ensures TooPoor(cfg, Step(cfg, st, l).store, Step(cfg, st, l).workers)
    ensures Step(cfg, st, l).store.remaining <= st.store.remaining
    ensures st.store.rows <= Step(cfg, st, l).store.rows
  {
    match l
    case Request(i, r) => RequestKeepsTooPoor(cfg, st, i, r);
    case Task(m) => TaskFrame(cfg, st, m);
    case _ => OthersTooPoor(cfg, st, l);
  }

  lemma OthersTooPoor(cfg: Setup, st: State, l: Label)
    requires Enabled(cfg, st, l) && TooPoor(cfg, st.store, st.workers) && !l.Request? && !l.Task?
    ensures TooPoor(cfg, st.store, Step(cfg, st, l).workers) && Step(cfg, st, l).store == st.store
  {
  }

  lemma {:induction false} RunTooPoor(cfg: Setup, states: seq<State>, labels: seq<Label>, n: nat)
    requires ValidSetup(cfg) && IsRun(cfg, states, labels) && n < |states|
    ensures Inv(cfg, states[n]) && TooPoor(cfg, states[n].store, states[n].workers)
  {
    RunInv(cfg, states, labels, n);
    if n > 0 {
      RunTooPoor(cfg, states, labels, n - 1);
      NextTooPoor(cfg, states[n - 1], labels[n - 1], states[n]);
    }
  }

  lemma NextTooPoor(cfg: Setup, st: State, l: Label, st': State)
    requires ValidSetup(cfg) && Inv(cfg, st) && TooPoor(cfg, st.store, st.workers)
    requires Enabled(cfg, st, l) && st' == Step(cfg, st, l)
    ensures TooPoor(cfg, st'.store, st'.workers)
  {
    StepTooPoor(cfg, st, l);
  }

  /** A debit of `k` was accepted and its payment is about to be written. */
  ghost predicate InFlight(workers: seq<Worker>, k: Key) {
    exists i :: 0 <= i < |workers| && workers[i].pc.PutEffectPc? && workers[i].event.key == k
  }

  /** Shown as UNPAID before evaluation, with no debit in flight. */
  ghost predicate CertainlyUnpaid(st: State, k: Key) {
    && Payments(st.store.effects)[k] == 0 && Rejected(st.store.rows, k) && !InFlight(st.workers, k)
  }

  lemma PaymentsAfter(s: Store, w: Worker, write: Write, k: Key)
    ensures Payments(After(s, w, write).effects)[k]
            == Payments(s.effects)[k] + (if (write == Payment || write == PutEffect) && w.event.key == k then 1 else 0)
  {
    SpentAppend(s.effects, EffectFor(w.event, w.effectId));
  }

  lemma RequestStaysUnpaid(cfg: Setup, s: Store, w: Worker, r: Reply, k: Key)
    requires Live(w) && Possible(s, w, r, cfg.complete) && w.event.amount >= 1
    requires w.event.key == k ==> !w.pc.PutEffectPc? && s.remaining < w.event.amount
    ensures Payments(StoreAfter(s, w, r).effects)[k] == Payments(s.effects)[k]
    ensures w.event.key == k ==> !WorkerAfter(cfg.maxAttempts, cfg.processor, s, w, r).pc.PutEffectPc?
  {
    var write := WriteOf(s, w, r);
    RequestShape(cfg.maxAttempts, cfg.processor, s, w, r);
    PaymentsAfter(s, w, write, k);
    assert write == PutEffect ==> w.pc.PutEffectPc?;
  }

  lemma RequestStaysCertain(cfg: Setup, st: State, i: nat, r: Reply, k: Key)
    requires ValidSetup(cfg) && Provenance(cfg, st) && Enabled(cfg, st, Request(i, r))
    requires Payments(st.store.effects)[k] == 0 && !InFlight(st.workers, k) && st.store.remaining < Due(cfg.eligible, k)
    ensures Payments(Requested(cfg, st, i, r).store.effects)[k] == 0
    ensures !InFlight(Requested(cfg, st, i, r).workers, k)
  {
    var w, workers' := st.workers[i], Requested(cfg, st, i, r).workers;
    PlannedIsOwed(cfg, st, w.event);
    RequestStaysUnpaid(cfg, st.store, w, r, k);
    assert workers'[i].event.key == w.event.key by { RequestShape(cfg.maxAttempts, cfg.processor, st.store, w, r); }
    forall j | 0 <= j < |workers'| ensures !(workers'[j].pc.PutEffectPc? && workers'[j].event.key == k) {
      if j != i {
        assert workers'[j] == st.workers[j];
      }
    }
  }

  lemma RejectedStays(rows: seq<Delivery>, rows': seq<Delivery>, k: Key)
    requires rows <= rows' && Rejected(rows, k)
    ensures Rejected(rows', k)
  {
    var i :| 0 <= i < |rows| && rows[i].key == k && rows[i].outcome == BudgetExhausted;
    assert rows'[i] == rows[i];
  }

  lemma CertainStays(cfg: Setup, st: State, l: Label, k: Key)
    requires ValidSetup(cfg) && Inv(cfg, st) && Enabled(cfg, st, l) && TooPoor(cfg, st.store, st.workers)
    requires CertainlyUnpaid(st, k)
    ensures CertainlyUnpaid(Step(cfg, st, l), k)
  {
    StepTooPoor(cfg, st, l);
    RejectedStays(st.store.rows, Step(cfg, st, l).store.rows, k);
    var j :| 0 <= j < |st.store.rows| && st.store.rows[j].key == k && st.store.rows[j].outcome == BudgetExhausted;
    assert st.store.remaining < Due(cfg.eligible, k);
    match l
    case Request(i, r) =>
      RequestStaysCertain(cfg, st, i, r, k);
    case Task(m) => TaskFrame(cfg, st, m);
    case Receive(e) => NewcomerNotInFlight(st.workers, Start(cfg.processor, e, |st.workers|), k);
    case Crash(i) => VanishedNotInFlight(st.workers, i, k);
    case _ =>
  }

  lemma NewcomerNotInFlight(workers: seq<Worker>, w: Worker, k: Key)
    requires !InFlight(workers, k) && !w.pc.PutEffectPc?
    ensures !InFlight(workers + [w], k)
  {
  }

  lemma VanishedNotInFlight(workers: seq<Worker>, i: nat, k: Key)
    requires !InFlight(workers, k) && i < |workers|
    ensures !InFlight(workers[i := Vanish(workers[i])], k)
  {
  }

  ghost predicate CanStillBePaid(cfg: Setup, st: State, k: Key) {
    exists states: seq<State>, labels: seq<Label> ::
      Continues(cfg, states, labels) && states[0] == st && Payments(states[|labels|].store.effects)[k] > 0
  }

  lemma {:induction false} CertainForever(cfg: Setup, states: seq<State>, labels: seq<Label>, n: nat, k: Key)
    requires ValidSetup(cfg) && Continues(cfg, states, labels) && n < |states| && Certain(cfg, states[0], k)
    ensures Certain(cfg, states[n], k)
  {
    if n > 0 {
      CertainForever(cfg, states, labels, n - 1, k);
      CertainNext(cfg, states[n - 1], labels[n - 1], states[n], k);
    }
  }

  /** From the middle of a run on. */
  lemma CertainAfter(cfg: Setup, states: seq<State>, labels: seq<Label>, m: nat, n: nat, k: Key)
    requires ValidSetup(cfg) && Continues(cfg, states, labels) && m <= n < |states| && Certain(cfg, states[m], k)
    ensures Certain(cfg, states[n], k)
  {
    TailContinues(cfg, states, labels, m);
    CertainBetween(cfg, states[m], states[m..], labels[m..], n - m, states[n], k);
  }

  lemma CertainBetween(
      cfg: Setup, from: State, states: seq<State>, labels: seq<Label>, n: nat, to: State, k: Key)
    requires ValidSetup(cfg) && Continues(cfg, states, labels) && n < |states|
    requires states[0] == from && states[n] == to && Certain(cfg, from, k)
    ensures Certain(cfg, to, k)
  {
    CertainForever(cfg, states, labels, n, k);
  }

  lemma TailContinues(cfg: Setup, states: seq<State>, labels: seq<Label>, m: nat)
    requires Continues(cfg, states, labels) && m < |states|
    ensures Continues(cfg, states[m..], labels[m..])
  {
  }

  ghost predicate Certain(cfg: Setup, st: State, k: Key) {
    Inv(cfg, st) && TooPoor(cfg, st.store, st.workers) && CertainlyUnpaid(st, k)
  }

  lemma CertainNext(cfg: Setup, st: State, l: Label, st': State, k: Key)
    requires ValidSetup(cfg) && Enabled(cfg, st, l) && st' == Step(cfg, st, l) && Certain(cfg, st, k)
    ensures Certain(cfg, st', k)
  {
    StepInv(cfg, st, l);
    StepTooPoor(cfg, st, l);
    CertainStays(cfg, st, l, k);
  }

  lemma InFlightPays(cfg: Setup, st: State, k: Key)
    requires InFlight(st.workers, k)
    ensures CanStillBePaid(cfg, st, k)
  {
    var i :| 0 <= i < |st.workers| && st.workers[i].pc.PutEffectPc? && st.workers[i].event.key == k;
    var l := Request(i, Proceed);
    PutPays(cfg, st, i);
    assert Continues(cfg, [st, Step(cfg, st, l)], [l]);
  }

  lemma PutPays(cfg: Setup, st: State, i: nat)
    requires i < |st.workers| && st.workers[i].pc.PutEffectPc?
    ensures Enabled(cfg, st, Request(i, Proceed))
    ensures Payments(Step(cfg, st, Request(i, Proceed)).store.effects)[st.workers[i].event.key] > 0
  {
    SpentAppend(st.store.effects, EffectFor(st.workers[i].event, st.workers[i].effectId));
  }

  /**
   For every processor and every reachable state: a student shown as UNPAID before the run
   is evaluated can still be paid exactly when a debit of that entitlement is in flight.
   */
  lemma EarlyUnpaidCertainIff(cfg: Setup, states: seq<State>, labels: seq<Label>, n: nat, k: Key)
    requires ValidSetup(cfg) && IsRun(cfg, states, labels) && n < |states|
    requires StateOf(states[n].store.effects, states[n].store.rows, k, false) == Unpaid
    ensures CanStillBePaid(cfg, states[n], k) <==> InFlight(states[n].workers, k)
  {
    RunTooPoor(cfg, states, labels, n);
    if InFlight(states[n].workers, k) {
      InFlightPays(cfg, states[n], k);
    }
    if CanStillBePaid(cfg, states[n], k) && !InFlight(states[n].workers, k) {
      var later: seq<State>, ls: seq<Label> :| Continues(cfg, later, ls) && later[0] == states[n]
        && Payments(later[|ls|].store.effects)[k] > 0;
      CertainForever(cfg, later, ls, |ls|, k);
      assert false;
    }
  }

  // --- Protected runs ----------------------------------------------------------------------------

  lemma StepLater(cfg: Setup, states: seq<State>, labels: seq<Label>, n: nat)
    requires ValidSetup(cfg) && cfg.processor == Protected && IsRun(cfg, states, labels) && 1 <= n < |states|
    ensures P.Later(states[n - 1].store, states[n].store)
  {
    P.RunSafe(cfg, states, labels, n - 1);
    P.StepSafe(cfg, states[n - 1], labels[n - 1]);
  }

  lemma {:induction false} LaterChain(states: seq<State>, m: nat, n: nat)
    requires m <= n < |states|
    requires forall i :: m < i <= n ==> P.Later(states[i - 1].store, states[i].store)
    ensures P.Later(states[m].store, states[n].store)
  {
    if m < n {
      LaterChain(states, m, n - 1);
    }
  }

  lemma ClaimsLast(cfg: Setup, states: seq<State>, labels: seq<Label>, m: nat, n: nat)
    requires ValidSetup(cfg) && cfg.processor == Protected && IsRun(cfg, states, labels) && m <= n < |states|
    ensures P.Later(states[m].store, states[n].store)
  {
    forall i | m < i <= n ensures P.Later(states[i - 1].store, states[i].store) {
      StepLater(cfg, states, labels, i);
    }
    LaterChain(states, m, n);
  }

  lemma NoneInFlight(cfg: Setup, st: State, k: Key)
    requires P.Safe(cfg, st)
    ensures !InFlight(st.workers, k)
  {
    forall i | 0 <= i < |st.workers| ensures !st.workers[i].pc.PutEffectPc? {
      assert P.WorkerOk(cfg, st.store, st.workers[i]);
    }
  }

  lemma UnpaidStaysUnpaid(cfg: Setup, states: seq<State>, labels: seq<Label>, m: nat, n: nat, k: Key)
    requires ValidSetup(cfg) && cfg.processor == Protected && IsRun(cfg, states, labels) && m <= n < |states|
    requires StateOf(states[m].store.effects, states[m].store.rows, k, false) == Unpaid
    ensures StateOf(states[n].store.effects, states[n].store.rows, k, false) == Unpaid
  {
    P.RunSafe(cfg, states, labels, m);
    RunTooPoor(cfg, states, labels, m);
    NoneInFlight(cfg, states[m], k);
    CertainAfter(cfg, states, labels, m, n, k);
  }

  lemma PaidAtMostOnce(cfg: Setup, states: seq<State>, labels: seq<Label>, n: nat, k: Key)
    requires ValidSetup(cfg) && cfg.processor == Protected && IsRun(cfg, states, labels) && n < |states|
    ensures Payments(states[n].store.effects)[k] == if k in states[n].store.claims then 1 else 0
  {
    P.RunSafe(cfg, states, labels, n);
    P.PaidIffClaimed(states[n].store);
  }

  /**
   In a protected run with any starting budget a student's state never moves backwards:
   PAID_TWICE is unreachable, PAID_ONCE and an early UNPAID are final.
   */
  lemma NeverBackwards(cfg: Setup, states: seq<State>, labels: seq<Label>, m: nat, n: nat, k: Key)
    requires ValidSetup(cfg) && cfg.processor == Protected && IsRun(cfg, states, labels) && m <= n < |states|
    ensures var before := StateOf(states[m].store.effects, states[m].store.rows, k, false);
            var after := StateOf(states[n].store.effects, states[n].store.rows, k, false);
            && before != PaidTwice && (before == Pending || after == before)
  {
    PaidAtMostOnce(cfg, states, labels, m, k);
    PaidAtMostOnce(cfg, states, labels, n, k);
    ClaimsLast(cfg, states, labels, m, n);
    if StateOf(states[m].store.effects, states[m].store.rows, k, false) == Unpaid {
      UnpaidStaysUnpaid(cfg, states, labels, m, n, k);
    }
  }

  /** Where everybody is paid or refused, the live grid already is the evaluated one. */
  lemma DecidedGrid(eligible: seq<Entry>, effects: seq<Effect>, rows: seq<Delivery>)
    requires forall i :: 0 <= i < |eligible| ==>
             Payments(effects)[eligible[i].key] > 0 || Rejected(rows, eligible[i].key)
    ensures StudentViews(eligible, effects, rows, false) == StudentViews(eligible, effects, rows, true)
    ensures StateCount(StudentViews(eligible, effects, rows, false), Pending) == 0
  {
    var live, evaluated := Views(eligible, effects, rows, false), Views(eligible, effects, rows, true);
    forall i | 0 <= i < |eligible| ensures live[i] == evaluated[i] {
    }
    assert live == evaluated;
    GridMatchesReport(eligible, effects, rows, 0);
  }

  lemma DrainedIsDecided(cfg: Setup, st: State, i: nat)
    requires ValidSetup(cfg) && Inv(cfg, st) && P.Safe(cfg, st) && AllRecorded(st.store, Plan(cfg))
    requires i < |cfg.eligible|
    ensures Payments(st.store.effects)[cfg.eligible[i].key] == 1 || Rejected(st.store.rows, cfg.eligible[i].key)
  {
    var j := PlannedEvent(cfg, i);
    assert Recorded(st.store, Plan(cfg)[j].deliveryId);
    var r := RowOfEvent(cfg, st, j);
    var row := st.store.rows[r];
    P.PaidIffClaimed(st.store);
    if row.outcome == Committed {
      assert P.PaidByRow(st.store, row);
    }
  }

  /** After the drain nobody is pending, and the live grid already is the evaluated one. */
  lemma GridIsFinalAfterDrain(cfg: Setup, st: State)
    requires ValidSetup(cfg) && Inv(cfg, st) && P.Safe(cfg, st) && AllRecorded(st.store, Plan(cfg))
    ensures StudentViews(cfg.eligible, st.store.effects, st.store.rows, false)
            == StudentViews(cfg.eligible, st.store.effects, st.store.rows, true)
    ensures StateCount(StudentViews(cfg.eligible, st.store.effects, st.store.rows, false), Pending) == 0
  {
    forall i | 0 <= i < |cfg.eligible|
      ensures Payments(st.store.effects)[cfg.eligible[i].key] > 0 || Rejected(st.store.rows, cfg.eligible[i].key)
    {
      DrainedIsDecided(cfg, st, i);
    }
    DecidedGrid(cfg.eligible, st.store.effects, st.store.rows);
  }
}
