/**
 Deliveries to the vulnerable processor that meet no contention, one request at a time and as whole
 waves: the building blocks of concrete runs.
 */
module Waves {
  import opened Domain
  import opened Accounts
  import opened Storage
  import opened Machine
  import opened Workflow
  import opened Protocol
  import opened Invariants
  import opened Reach
  import V = VulnerableRun

  // --- One request of a vulnerable worker --------------------------------------------------------

  /** What worker `i` of `st` has become, with the tables and debits it leaves. */
  ghost predicate Became(st: State, st': State, i: nat, w': Worker, s': Store, debits': seq<Event>) {
    i < |st.workers| && st' == st.(store := s', workers := st.workers[i := w'], debits := debits')
  }

  lemma OneStep(cfg: Setup, careful: bool, start: State, st: State, i: nat) returns (st': State)
    requires Known(cfg, start) && CanReach(cfg, careful, start, st) && i < |st.workers| && Live(st.workers[i])
    ensures CanReach(cfg, careful, start, st') && st' == Requested(cfg, st, i, Proceed)
  {
    InvAt(cfg, careful, start, st);
    ProceedIsCareful(cfg, careful, st, i);
    st' := Go(cfg, careful, start, st, Request(i, Proceed));
  }

  lemma CheckStep(cfg: Setup, st: State, i: nat)
    requires cfg.processor == Vulnerable && i < |st.workers| && st.workers[i].pc.CheckDeliveryPc?
    requires !Recorded(st.store, st.workers[i].event.deliveryId)
    ensures Became(st, Requested(cfg, st, i, Proceed), i, st.workers[i].(pc := DebitPc), st.store, st.debits)
  {
    assert st.debits + [] == st.debits;
  }

  lemma DebitStep(cfg: Setup, st: State, i: nat)
    requires i < |st.workers| && st.workers[i].pc.DebitPc? && CanDebit(st.store, st.workers[i].event.amount)
    ensures var w := st.workers[i];
            Became(st, Requested(cfg, st, i, Proceed), i, Goto(w, PutEffectPc),
                   WithDebit(st.store, w.event.amount), st.debits + [w.event])
  {
  }

  lemma RefuseStep(cfg: Setup, st: State, i: nat)
    requires i < |st.workers| && st.workers[i].pc.DebitPc? && st.store.runExists
    requires st.store.remaining < st.workers[i].event.amount
    ensures var w := st.workers[i];
            Became(st, Requested(cfg, st, i, Proceed), i,
                   Goto(w, RecordPc(BudgetExhausted, None, Some(st.store.remaining))), st.store, st.debits)
  {
    assert st.debits + [] == st.debits;
  }

  lemma PutStep(cfg: Setup, st: State, i: nat)
    requires cfg.processor == Vulnerable && i < |st.workers| && st.workers[i].pc.PutEffectPc?
    ensures var w := st.workers[i];
            Became(st, Requested(cfg, st, i, Proceed), i, w.(pc := RecordPc(Committed, Some(w.effectId), None)),
                   WithEffect(st.store, EffectFor(w.event, w.effectId)), st.debits)
  {
    assert st.debits + [] == st.debits;
  }

  lemma RowStep(cfg: Setup, st: State, i: nat)
    requires i < |st.workers| && st.workers[i].pc.RecordPc? && st.store.runExists
    requires !Recorded(st.store, st.workers[i].event.deliveryId)
    ensures var w := st.workers[i];
            Became(st, Requested(cfg, st, i, Proceed), i, Goto(w, DonePc(Decided(w.pc.outcome))),
                   WithRow(st.store, RowOf(w)), st.debits)
  {
    assert st.debits + [] == st.debits;
  }

  // --- One delivery ----------------------------------------------------------------------------------

  /** No live worker holds this delivery. */
  ghost predicate Free(workers: seq<Worker>, id: DeliveryId) {
    forall i :: 0 <= i < |workers| && Live(workers[i]) ==> workers[i].event.deliveryId != id
  }

  /** What a fresh attempt on an unrecorded delivery looks like before its debit. */
  lemma Attempt(cfg: Setup, careful: bool, start: State, st: State, e: Event) returns (st': State)
    requires Known(cfg, start) && cfg.processor == Vulnerable && CanReach(cfg, careful, start, st)
    requires e in st.sent && !Recorded(st.store, e.deliveryId) && (careful ==> Free(st.workers, e.deliveryId))
    ensures CanReach(cfg, careful, start, st')
    ensures st' == st.(workers := st.workers + [Start(Vulnerable, e, |st.workers|).(pc := DebitPc)])
  {
    assert Allowed(cfg, careful, st, Receive(e));
    var mid := Go(cfg, careful, start, st, Receive(e));
    CheckStep(cfg, mid, |st.workers|);
    st' := OneStep(cfg, careful, start, mid, |st.workers|);
    assert st'.workers == st.workers + [Start(Vulnerable, e, |st.workers|).(pc := DebitPc)];
  }

  /** A worker between its debit and its payment. */
  function Holder(e: Event, effectId: nat): Worker {
    Worker(e, effectId, PutEffectPc, 1, 0)
  }

  /** An affordable delivery is debited, and stops there. */
  lemma DebitOne(cfg: Setup, careful: bool, start: State, st: State, e: Event) returns (st': State)
    requires Known(cfg, start) && cfg.processor == Vulnerable && CanReach(cfg, careful, start, st)
    requires e in st.sent && !Recorded(st.store, e.deliveryId) && (careful ==> Free(st.workers, e.deliveryId))
    requires CanDebit(st.store, e.amount)
    ensures CanReach(cfg, careful, start, st')
    ensures st' == st.(store := WithDebit(st.store, e.amount), debits := st.debits + [e],
                       workers := st.workers + [Holder(e, |st.workers|)])
  {
    var mid := Attempt(cfg, careful, start, st, e);
    DebitStep(cfg, mid, |st.workers|);
    st' := OneStep(cfg, careful, start, mid, |st.workers|);
    assert st'.workers == st.workers + [Holder(e, |st.workers|)];
  }

  /** The row of a delivery that was refused, or paid, on its first attempt. */
  function RefusedRow(e: Event, remaining: int): Delivery {
    DeliveryFor(e, BudgetExhausted, 2, None, Some(remaining))
  }

  function PaidRow(e: Event, effectId: nat): Delivery {
    DeliveryFor(e, Committed, 2, Some(effectId), None)
  }

  /** A delivery that is too dear is refused and recorded. */
  lemma RefuseOne(cfg: Setup, careful: bool, start: State, st: State, e: Event) returns (st': State)
    requires Known(cfg, start) && cfg.processor == Vulnerable && CanReach(cfg, careful, start, st)
    requires e in st.sent && !Recorded(st.store, e.deliveryId) && (careful ==> Free(st.workers, e.deliveryId))
    requires st.store.runExists && st.store.remaining < e.amount
    ensures CanReach(cfg, careful, start, st') && |st'.workers| == |st.workers| + 1 && !Live(st'.workers[|st.workers|])
    ensures st' == st.(store := WithRow(st.store, RefusedRow(e, st.store.remaining)), workers := st'.workers)
    ensures st'.workers[..|st.workers|] == st.workers
  {
    var n := |st.workers|;
    var ready := Attempt(cfg, careful, start, st, e);
    RefuseStep(cfg, ready, n);
    var refused := OneStep(cfg, careful, start, ready, n);
    RowStep(cfg, refused, n);
    st' := OneStep(cfg, careful, start, refused, n);
    assert RowOf(refused.workers[n]) == RefusedRow(e, st.store.remaining);
  }

  /** A worker in flight pays. */
  lemma PayOne(cfg: Setup, careful: bool, start: State, st: State, i: nat) returns (st': State)
    requires Known(cfg, start) && cfg.processor == Vulnerable && CanReach(cfg, careful, start, st)
    requires i < |st.workers| && st.workers[i].pc.PutEffectPc?
    ensures CanReach(cfg, careful, start, st')
    ensures var w := st.workers[i];
            st' == st.(store := WithEffect(st.store, EffectFor(w.event, w.effectId)),
                       workers := st.workers[i := w.(pc := RecordPc(Committed, Some(w.effectId), None))])
  {
    PutStep(cfg, st, i);
    st' := OneStep(cfg, careful, start, st, i);
  }

  /** A delivery that is affordable is debited, paid and recorded. */
  lemma DeliverOne(cfg: Setup, careful: bool, start: State, st: State, e: Event) returns (st': State)
    requires Known(cfg, start) && cfg.processor == Vulnerable && CanReach(cfg, careful, start, st)
    requires e in st.sent && !Recorded(st.store, e.deliveryId) && (careful ==> Free(st.workers, e.deliveryId))
    requires CanDebit(st.store, e.amount)
    ensures CanReach(cfg, careful, start, st') && |st'.workers| == |st.workers| + 1 && !Live(st'.workers[|st.workers|])
    ensures var paid := WithEffect(WithDebit(st.store, e.amount), EffectFor(e, |st.workers|));
            st' == st.(store := WithRow(paid, PaidRow(e, |st.workers|)), workers := st'.workers,
              debits := st.debits + [e])
    ensures st'.workers[..|st.workers|] == st.workers
  {
    var n := |st.workers|;
    var debited := DebitOne(cfg, careful, start, st, e);
    var paid := PayOne(cfg, careful, start, debited, n);
    RowStep(cfg, paid, n);
    st' := OneStep(cfg, careful, start, paid, n);
    assert RowOf(paid.workers[n]) == PaidRow(e, n);
  }

  // --- Whole waves -----------------------------------------------------------------------------------------

  ghost predicate AllDone(workers: seq<Worker>) {
    forall i :: 0 <= i < |workers| ==> !Live(workers[i])
  }

  /** Everything handled so far is recorded, and `paid` of it is in the ledger. */
  ghost predicate Handled(cfg: Setup, st: State, done: seq<Event>, paid: seq<Event>) {
    && AllDone(st.workers) && st.store.runExists
    && RowIds(st.store.rows) == EventIds(done)
    && EffectKeys(st.store.effects) == EventKeys(paid)
    && st.store.remaining == cfg.budget - Sum(EventAmounts(paid))
  }

  lemma NotYetRecorded(st: State, done: seq<Event>, e: Event)
    requires RowIds(st.store.rows) == EventIds(done) && DistinctIds(done + [e])
    ensures !Recorded(st.store, e.deliveryId)
  {
    forall i | 0 <= i < |st.store.rows| ensures st.store.rows[i].deliveryId != e.deliveryId {
      assert RowIds(st.store.rows)[i] == EventIds(done)[i];
      assert (done + [e])[i].deliveryId != (done + [e])[|done|].deliveryId;
    }
  }

  lemma RowIdsAppend(rows: seq<Delivery>, row: Delivery, done: seq<Event>, e: Event)
    requires RowIds(rows) == EventIds(done) && row.deliveryId == e.deliveryId
    ensures RowIds(rows + [row]) == EventIds(done + [e])
  {
    assert RowIds(rows + [row]) == RowIds(rows) + [row.deliveryId];
    assert EventIds(done + [e]) == EventIds(done) + [e.deliveryId];
  }

  lemma EffectKeysAppend(effects: seq<Effect>, x: Effect, paid: seq<Event>, e: Event)
    requires EffectKeys(effects) == EventKeys(paid) && x.key == e.key
    ensures EffectKeys(effects + [x]) == EventKeys(paid + [e])
  {
    assert EffectKeys(effects + [x]) == EffectKeys(effects) + [x.key];
    assert EventKeys(paid + [e]) == EventKeys(paid) + [e.key];
  }

  lemma OneMoreDone(workers: seq<Worker>, workers': seq<Worker>)
    requires AllDone(workers) && |workers'| == |workers| + 1 && workers'[..|workers|] == workers
    requires !Live(workers'[|workers|])
    ensures AllDone(workers')
  {
    forall i | 0 <= i < |workers'| ensures !Live(workers'[i]) {
      if i < |workers| {
        assert workers'[..|workers|][i] == workers[i];
      }
    }
  }

  lemma HandleOne(cfg: Setup, careful: bool, start: State, st: State, e: Event, done: seq<Event>, paid: seq<Event>)
    returns (st': State)
    requires Known(cfg, start) && cfg.processor == Vulnerable && CanReach(cfg, careful, start, st)
    requires Handled(cfg, st, done, paid) && e in st.sent && DistinctIds(done + [e])
    ensures CanReach(cfg, careful, start, st') && Waits(st, st')
    ensures Handled(cfg, st', done + [e], if st.store.remaining < e.amount then paid else paid + [e])
  {
    NotYetRecorded(st, done, e);
    if st.store.remaining < e.amount {
      st' := RefuseOne(cfg, careful, start, st, e);
      RowIdsAppend(st.store.rows, RefusedRow(e, st.store.remaining), done, e);
    } else {
      st' := DeliverOne(cfg, careful, start, st, e);
      RowIdsAppend(st.store.rows, PaidRow(e, |st.workers|), done, e);
      EffectKeysAppend(st.store.effects, EffectFor(e, |st.workers|), paid, e);
      DebitedAppend(paid, e);
    }
    OneMoreDone(st.workers, st'.workers);
  }

  lemma OneMoreEvent(done: seq<Event>, events: seq<Event>)
    requires events != []
    ensures var front, e := events[..|events| - 1], events[|events| - 1];
            done + front + [e] == done + events && events == front + [e]
  {
  }

  lemma FrontDistinct(xs: seq<Event>, ys: seq<Event>)
    requires DistinctIds(xs + ys)
    ensures DistinctIds(xs)
  {
    assert (xs + ys)[..|xs|] == xs;
  }

  /** A wave the budget covers is paid in full. */
  lemma {:induction false} DeliverAll(
      cfg: Setup, careful: bool, start: State, st: State, events: seq<Event>, done: seq<Event>, paid: seq<Event>)
    returns (st': State)
    requires Known(cfg, start) && cfg.processor == Vulnerable && CanReach(cfg, careful, start, st)
    requires Handled(cfg, st, done, paid) && DistinctIds(done + events)
    requires forall e :: e in events ==> e in st.sent && e.amount >= 0
    requires Sum(EventAmounts(events)) <= st.store.remaining
    ensures CanReach(cfg, careful, start, st') && Waits(st, st') && Handled(cfg, st', done + events, paid + events)
    decreases |events|
  {
    if events == [] {
      st' := st;
      assert done + events == done && paid + events == paid;
    } else {
      var front, e := events[..|events| - 1], events[|events| - 1];
      OneMoreEvent(done, events);
      OneMoreEvent(paid, events);
      FrontDistinct(done + front, [e]);
      DebitedAppend(front, e);
      var mid := DeliverAll(cfg, careful, start, st, front, done, paid);
      V.EventsConcat(paid, front);
      st' := HandleOne(cfg, careful, start, mid, e, done + front, paid + front);
    }
  }

  lemma PrefixSums(events: seq<Event>, n: nat)
    requires n < |events| && forall e :: e in events ==> e.amount >= 0
    ensures Sum(EventAmounts(events[..n + 1])) == Sum(EventAmounts(events[..n])) + events[n].amount
    ensures Sum(EventAmounts(events[..n + 1])) <= Sum(EventAmounts(events))
  {
    assert events[..n + 1] == events[..n] + [events[n]];
    DebitedAppend(events[..n], events[n]);
    assert events == events[..n + 1] + events[n + 1..];
    V.EventsConcat(events[..n + 1], events[n + 1..]);
    SumNonNegative(EventAmounts(events[n + 1..]));
  }

  /** A wave whose every delivery is too dear is refused in full. */
  lemma {:induction false} RefuseAll(
      cfg: Setup, careful: bool, start: State, st: State, events: seq<Event>, done: seq<Event>, paid: seq<Event>)
    returns (st': State)
    requires Known(cfg, start) && cfg.processor == Vulnerable && CanReach(cfg, careful, start, st)
    requires Handled(cfg, st, done, paid) && DistinctIds(done + events)
    requires forall e :: e in events ==> e in st.sent && e.amount > st.store.remaining
    ensures CanReach(cfg, careful, start, st') && Waits(st, st') && Handled(cfg, st', done + events, paid)
    decreases |events|
  {
    if events == [] {
      st' := st;
      assert done + events == done;
    } else {
      var front, e := events[..|events| - 1], events[|events| - 1];
      OneMoreEvent(done, events);
      FrontDistinct(done + front, [e]);
      var mid := RefuseAll(cfg, careful, start, st, front, done, paid);
      st' := HandleOne(cfg, careful, start, mid, e, done + front, paid);
    }
  }

  // --- The start of Phase A ------------------------------------------------------------------------------------

  /** The run is RUNNING in Phase A and all of the phase is sent; nothing has been handled. */
  ghost predicate PhaseASent(cfg: Setup, st: State) {
    && st.store == Fresh(cfg.budget) && st.workers == [] && st.debits == []
    && st.stage == InjectA(true) && st.openA && st.run == QUEUED_RUN.(status := Running, phase := AtPhaseA)
    && (forall e :: e in cfg.planA ==> e in st.sent)
  }

  lemma OpenPhaseA(cfg: Setup, careful: bool) returns (st: State)
    requires ValidSetup(cfg)
    ensures CanReach(cfg, careful, Init(cfg), st) && PhaseASent(cfg, st)
  {
    var init := Init(cfg);
    ReachItself(cfg, careful, init);
    var started := Go(cfg, careful, init, init, Task(Advance));
    var ready := Go(cfg, careful, init, started, Task(Advance));
    st := SendAll(cfg, careful, init, ready, cfg.planA);
  }
}
