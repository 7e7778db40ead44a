/**
 Runs of the vulnerable processor (backend/src/processors/vulnerable.py) in which no
 worker is lost between a debit and its Deliveries row, and no two attempts on one
 delivery overlap. Order, redelivery, conflicts and other crashes stay arbitrary.
 */
module VulnerableRun {
  import opened Domain
  import opened Accounts
  import opened Storage
  import opened Machine
  import opened Evaluator
  import opened Protocol
  import opened Invariants

  /** The budget is debited and the delivery not yet recorded: a crash here cannot be undone. */
  predicate MidDelivery(w: Worker) {
    w.pc.PutEffectPc? || (w.pc.RecordPc? && w.pc.outcome == Committed)
  }

  ghost predicate Careful(cfg: Setup, st: State, l: Label)
    requires Enabled(cfg, st, l)
  {
    match l
    case Receive(e) =>
      forall i :: 0 <= i < |st.workers| && Live(st.workers[i]) ==> st.workers[i].event.deliveryId != e.deliveryId
    case Request(i, r) =>
      MidDelivery(st.workers[i]) ==>
        !WorkerAfter(cfg.maxAttempts, cfg.processor, st.store, st.workers[i], r).pc.VanishedPc?
    case Crash(i) => !MidDelivery(st.workers[i])
    case _ => true
  }

  ghost predicate IsCarefulRun(cfg: Setup, states: seq<State>, labels: seq<Label>) {
    && IsRun(cfg, states, labels)
    && forall i :: 0 <= i < |labels| ==> Enabled(cfg, states[i], labels[i]) && Careful(cfg, states[i], labels[i])
  }

  // --- The invariant ---------------------------------------------------------------------

  function DebitIds(debits: seq<Event>): set<DeliveryId> {
    set e | e in debits :: e.deliveryId
  }

  function PaidIds(effects: seq<Effect>): set<DeliveryId> {
    set x | x in effects :: x.deliveryId
  }

  predicate IsPlannedB(cfg: Setup, id: DeliveryId) {
    exists e | e in cfg.planB :: e.deliveryId == id
  }

  /** Debits of Phase B deliveries count towards the budget a Phase A refusal was measured against. */
  function DebitedInB(cfg: Setup, debits: seq<Event>): int {
    if debits == [] then 0
    else
      var last := debits[|debits| - 1];
      DebitedInB(cfg, debits[..|debits| - 1]) + (if last in cfg.planB then last.amount else 0)
  }

  /** A refused delivery found less than it needed, and always will. */
  ghost predicate TooDear(cfg: Setup, st: State, id: DeliveryId, k: Key) {
    && st.store.remaining < Due(cfg.eligible, k)
    && (!IsPlannedB(cfg, id) ==> st.store.remaining + DebitedInB(cfg, st.debits) < Due(cfg.eligible, k))
  }

  ghost predicate WorkerOk(cfg: Setup, st: State, w: Worker) {
    var id := w.event.deliveryId;
    match w.pc
    case CheckDeliveryPc => true
    case DebitPc => id !in DebitIds(st.debits) && !Recorded(st.store, id)
    case PutEffectPc => id in DebitIds(st.debits) && id !in PaidIds(st.store.effects) && !Recorded(st.store, id)
    case RecordPc(o, _, _) =>
      && !Recorded(st.store, id)
      && (o == Committed ==> id in DebitIds(st.debits) && id in PaidIds(st.store.effects))
      && (o == BudgetExhausted ==> id !in DebitIds(st.debits) && TooDear(cfg, st, id, w.event.key))
      && o != DuplicateSuppressed
    case DonePc(_) => true
    case VanishedPc(at) => !at.PutEffectPc?
    case _ => false
  }

  ghost predicate RowOk(cfg: Setup, st: State, row: Delivery) {
    match row.outcome
    case Committed => row.deliveryId in DebitIds(st.debits) && row.deliveryId in PaidIds(st.store.effects)
    case BudgetExhausted => row.deliveryId !in DebitIds(st.debits) && TooDear(cfg, st, row.deliveryId, row.key)
    case DuplicateSuppressed => false
  }

  /** An accepted debit is on its way to, or has reached, a COMMITTED row. */
  ghost predicate Accounted(st: State, id: DeliveryId) {
    || (exists i :: 0 <= i < |st.store.rows|
                    && st.store.rows[i].deliveryId == id && st.store.rows[i].outcome == Committed)
    || (exists i :: 0 <= i < |st.workers| && MidDelivery(st.workers[i]) && st.workers[i].event.deliveryId == id)
  }

  ghost predicate OneAttempt(workers: seq<Worker>) {
    forall i, j :: 0 <= i < j < |workers| && Live(workers[i]) && Live(workers[j]) ==>
      workers[i].event.deliveryId != workers[j].event.deliveryId
  }

  ghost predicate WorkersOk(cfg: Setup, st: State) {
    forall i :: 0 <= i < |st.workers| ==> WorkerOk(cfg, st, st.workers[i])
  }

  ghost predicate RowsOk(cfg: Setup, st: State) {
    forall i :: 0 <= i < |st.store.rows| ==> RowOk(cfg, st, st.store.rows[i])
  }

  ghost predicate DebitsOk(st: State) {
    && DistinctIds(st.debits)
    && (forall id :: id in DebitIds(st.debits) ==> Accounted(st, id))
  }

  ghost predicate EffectsOk(st: State) {
    && Distinct(EffectIds(st.store.effects))
    && PaidIds(st.store.effects) <= DebitIds(st.debits)
  }

  ghost predicate Orderly(cfg: Setup, st: State) {
    && OneAttempt(st.workers) && WorkersOk(cfg, st) && RowsOk(cfg, st) && DebitsOk(st) && EffectsOk(st)
  }

  // --- Growth lemmas ------------------------------------------------------------------------

  /** How one request may change what the invariant talks about: everything about one delivery id. */
  ghost predicate Touches(cfg: Setup, st: State, st': State, id: DeliveryId) {
    && DebitIds(st.debits) <= DebitIds(st'.debits) <= DebitIds(st.debits) + {id}
    && PaidIds(st.store.effects) <= PaidIds(st'.store.effects) <= PaidIds(st.store.effects) + {id}
    && (forall other :: other != id ==> (Recorded(st'.store, other) <==> Recorded(st.store, other)))
    && st'.store.remaining <= st.store.remaining
    && st'.store.remaining + DebitedInB(cfg, st'.debits) <= st.store.remaining + DebitedInB(cfg, st.debits)
  }

  lemma OtherWorkerOk(cfg: Setup, st: State, st': State, id: DeliveryId, w: Worker)
    requires Touches(cfg, st, st', id) && WorkerOk(cfg, st, w)
    requires Live(w) ==> w.event.deliveryId != id
    ensures WorkerOk(cfg, st', w)
  {
  }

  lemma OtherRowOk(cfg: Setup, st: State, st': State, id: DeliveryId, row: Delivery)
    requires Touches(cfg, st, st', id) && RowOk(cfg, st, row) && row.deliveryId != id
    ensures RowOk(cfg, st', row)
  {
  }

  lemma DebitIdsAppend(debits: seq<Event>, e: Event)
    ensures DebitIds(debits + [e]) == DebitIds(debits) + {e.deliveryId}
  {
  }

  lemma PaidIdsAppend(effects: seq<Effect>, x: Effect)
    ensures PaidIds(effects + [x]) == PaidIds(effects) + {x.deliveryId}
  {
  }

  lemma RecordedAppend(s: Store, s': Store, row: Delivery)
    requires s'.rows == s.rows + [row]
    ensures forall id :: Recorded(s', id) <==> Recorded(s, id) || id == row.deliveryId
  {
    forall id ensures Recorded(s', id) <==> Recorded(s, id) || id == row.deliveryId {
      if Recorded(s, id) {
        var i :| 0 <= i < |s.rows| && s.rows[i].deliveryId == id;
        assert s'.rows[i] == s.rows[i];
      }
      if Recorded(s', id) {
        var i :| 0 <= i < |s'.rows| && s'.rows[i].deliveryId == id;
        assert i < |s.rows| ==> s'.rows[i] == s.rows[i];
      }
      assert s'.rows[|s.rows|] == row;
    }
  }

  // --- One request ----------------------------------------------------------------------------

  /** The request of worker `i` in a vulnerable run, by the place it stands. */
  lemma RequestTouches(cfg: Setup, st: State, i: nat, r: Reply)
    requires cfg.processor == Vulnerable && Enabled(cfg, st, Request(i, r))
    requires WorkerOk(cfg, st, st.workers[i])
    requires st.workers[i].event.amount >= 1
    ensures Touches(cfg, st, Requested(cfg, st, i, r), st.workers[i].event.deliveryId)
  {
    var w := st.workers[i];
    var write := WriteOf(st.store, w, r);
    var st' := Requested(cfg, st, i, r);
    RequestShape(cfg.maxAttempts, Vulnerable, st.store, w, r);
    assert st.debits + [] == st.debits;
    if write == Debit {
      DebitIdsAppend(st.debits, w.event);
      assert (st.debits + [w.event])[..|st.debits|] == st.debits;
    } else if write == PutEffect {
      PaidIdsAppend(st.store.effects, EffectFor(w.event, w.effectId));
    } else if write == Row {
      RecordedAppend(st.store, st'.store, RowOf(w));
    }
  }

  lemma DebitLeads(cfg: Setup, st: State, i: nat, r: Reply)
    requires cfg.processor == Vulnerable && Enabled(cfg, st, Request(i, r)) && Conserved(cfg, st)
    requires WorkerOk(cfg, st, st.workers[i]) && st.workers[i].pc.DebitPc? && EffectsOk(st)
    requires OwedEvent(cfg.eligible, st.workers[i].event)
    requires !IsPlannedB(cfg, st.workers[i].event.deliveryId) ==> DebitedInB(cfg, st.debits) == 0
    ensures var st' := Requested(cfg, st, i, r); WorkerOk(cfg, st', st'.workers[i])
  {
    var w := st.workers[i];
    var st' := Requested(cfg, st, i, r);
    if WriteOf(st.store, w, r) == Debit {
      DebitIdsAppend(st.debits, w.event);
    }
    assert st.debits + [] == st.debits;
  }

  /** With one attempt per delivery, a worker still checking cannot be overtaken by its own debit. */
  lemma AccountedMeansRecorded(st: State, i: nat)
    requires OneAttempt(st.workers) && DebitsOk(st) && i < |st.workers| && st.workers[i].pc.CheckDeliveryPc?
    ensures st.workers[i].event.deliveryId in DebitIds(st.debits) ==> Recorded(st.store, st.workers[i].event.deliveryId)
  {
    var id := st.workers[i].event.deliveryId;
    if id in DebitIds(st.debits) {
      assert Accounted(st, id);
      assert forall j :: 0 <= j < |st.workers| && MidDelivery(st.workers[j]) ==> Live(st.workers[j]) && j != i;
    }
  }

  lemma WriteLeads(cfg: Setup, st: State, i: nat, r: Reply)
    requires cfg.processor == Vulnerable && Enabled(cfg, st, Request(i, r))
    requires Careful(cfg, st, Request(i, r))
    requires WorkerOk(cfg, st, st.workers[i]) && DebitsOk(st) && OneAttempt(st.workers)
    requires !st.workers[i].pc.DebitPc?
    ensures var st' := Requested(cfg, st, i, r); WorkerOk(cfg, st', st'.workers[i])
  {
    var w := st.workers[i];
    var st' := Requested(cfg, st, i, r);
    var id := w.event.deliveryId;
    assert st.debits + [] == st.debits;
    match w.pc
    case CheckDeliveryPc =>
      AccountedMeansRecorded(st, i);
    case PutEffectPc =>
      PaidIdsAppend(st.store.effects, EffectFor(w.event, w.effectId));
      assert WriteOf(st.store, w, r) == PutEffect;
    case RecordPc(_, _, _) =>
    case _ =>
  }

  lemma NewRowOk(cfg: Setup, st: State, i: nat, r: Reply)
    requires cfg.processor == Vulnerable && Enabled(cfg, st, Request(i, r))
    requires WorkerOk(cfg, st, st.workers[i]) && WriteOf(st.store, st.workers[i], r) == Row
    ensures var st' := Requested(cfg, st, i, r);
            st'.store.rows == st.store.rows + [RowOf(st.workers[i])] && RowOk(cfg, st', RowOf(st.workers[i]))
  {
    assert st.debits + [] == st.debits;
  }

  lemma RequestRowsOk(cfg: Setup, st: State, i: nat, r: Reply)
    requires cfg.processor == Vulnerable && Enabled(cfg, st, Request(i, r))
    requires WorkerOk(cfg, st, st.workers[i]) && RowsOk(cfg, st)
    requires st.workers[i].event.amount >= 1
    ensures RowsOk(cfg, Requested(cfg, st, i, r))
  {
    var w := st.workers[i];
    var st' := Requested(cfg, st, i, r);
    var id := w.event.deliveryId;
    var s := st.store;
    RequestTouches(cfg, st, i, r);
    forall j | 0 <= j < |s.rows| ensures RowOk(cfg, st', s.rows[j]) {
      if s.rows[j].deliveryId == id {
        assert Recorded(s, id);
        assert RowOk(cfg, st, s.rows[j]);
        assert w.pc.CheckDeliveryPc?;
      } else {
        OtherRowOk(cfg, st, st', id, s.rows[j]);
      }
    }
    if WriteOf(s, w, r) == Row {
      NewRowOk(cfg, st, i, r);
    }
  }

  lemma RequestDebitsOk(cfg: Setup, st: State, i: nat, r: Reply)
    requires cfg.processor == Vulnerable && Enabled(cfg, st, Request(i, r)) && Careful(cfg, st, Request(i, r))
    requires WorkerOk(cfg, st, st.workers[i]) && DebitsOk(st)
    ensures DebitsOk(Requested(cfg, st, i, r))
  {
    var w := st.workers[i];
    var st' := Requested(cfg, st, i, r);
    var write := WriteOf(st.store, w, r);
    assert st.debits + [] == st.debits;
    if write == Debit {
      DebitIdsAppend(st.debits, w.event);
      forall j | 0 <= j < |st.debits| ensures st.debits[j].deliveryId != w.event.deliveryId {
        assert st.debits[j].deliveryId in DebitIds(st.debits);
      }
    }
    forall id | id in DebitIds(st'.debits) ensures Accounted(st', id) {
      if write == Debit && id == w.event.deliveryId {
        assert MidDelivery(st'.workers[i]);
      } else {
        AccountedStays(cfg, st, i, r, id);
      }
    }
  }

  lemma AccountedStays(cfg: Setup, st: State, i: nat, r: Reply, id: DeliveryId)
    requires cfg.processor == Vulnerable && Enabled(cfg, st, Request(i, r)) && Careful(cfg, st, Request(i, r))
    requires WorkerOk(cfg, st, st.workers[i]) && Accounted(st, id)
    ensures Accounted(Requested(cfg, st, i, r), id)
  {
    var w := st.workers[i];
    var s, s' := st.store, Requested(cfg, st, i, r).store;
    var st' := Requested(cfg, st, i, r);
    if j :| 0 <= j < |s.rows| && s.rows[j].deliveryId == id && s.rows[j].outcome == Committed {
      assert s'.rows[j] == s.rows[j];
    } else {
      var j :| 0 <= j < |st.workers| && MidDelivery(st.workers[j]) && st.workers[j].event.deliveryId == id;
      if j != i {
        assert st'.workers[j] == st.workers[j];
      } else {
        MidDeliveryStays(cfg, s, w, r);
        if WriteOf(s, w, r) == Row {
          assert s'.rows[|s.rows|] == RowOf(w);
        } else {
          assert MidDelivery(st'.workers[i]);
        }
      }
    }
  }

  /** Between its debit and its row a worker that is not lost writes the row or stays where it is accounted for. */
  lemma MidDeliveryStays(cfg: Setup, s: Store, w: Worker, r: Reply)
    requires MidDelivery(w) && Possible(s, w, r, cfg.complete) && (w.pc.RecordPc? ==> !Recorded(s, w.event.deliveryId))
    requires !WorkerAfter(cfg.maxAttempts, Vulnerable, s, w, r).pc.VanishedPc?
    ensures var w' := WorkerAfter(cfg.maxAttempts, Vulnerable, s, w, r);
            w'.event == w.event && (WriteOf(s, w, r) == Row || MidDelivery(w'))
  {
    if w.pc.RecordPc? {
      SoundRecordAnswer(s, w.event.deliveryId, r);
    }
  }

  lemma RequestEffectsOk(cfg: Setup, st: State, i: nat, r: Reply)
    requires cfg.processor == Vulnerable && Enabled(cfg, st, Request(i, r))
    requires WorkerOk(cfg, st, st.workers[i]) && EffectsOk(st)
    ensures EffectsOk(Requested(cfg, st, i, r))
  {
    var w := st.workers[i];
    var st' := Requested(cfg, st, i, r);
    assert st.debits + [] == st.debits;
    if WriteOf(st.store, w, r) == Debit {
      DebitIdsAppend(st.debits, w.event);
    } else if WriteOf(st.store, w, r) == PutEffect {
      var x := EffectFor(w.event, w.effectId);
      PaidIdsAppend(st.store.effects, x);
      assert EffectIds(st'.store.effects) == EffectIds(st.store.effects) + [x.deliveryId];
      forall j | 0 <= j < |st.store.effects| ensures EffectIds(st.store.effects)[j] != x.deliveryId {
        assert st.store.effects[j].deliveryId in PaidIds(st.store.effects);
      }
    }
  }

  // --- Every step ------------------------------------------------------------------------------

  lemma NoDebitsInB(cfg: Setup, debits: seq<Event>)
    requires forall i :: 0 <= i < |debits| ==> debits[i] !in cfg.planB
    ensures DebitedInB(cfg, debits) == 0
  {
    if debits != [] {
      NoDebitsInB(cfg, debits[..|debits| - 1]);
    }
  }

  /** No event is planned in both phases. */
  lemma PlansDisjoint(cfg: Setup, e: Event, e': Event)
    requires DistinctIds(Plan(cfg)) && e in cfg.planA && e' in cfg.planB
    ensures e.deliveryId != e'.deliveryId
  {
    var i :| 0 <= i < |cfg.planA| && cfg.planA[i] == e;
    var j :| 0 <= j < |cfg.planB| && cfg.planB[j] == e';
    assert Plan(cfg)[i] == e && Plan(cfg)[|cfg.planA| + j] == e';
  }

  /** A Phase A delivery that is not recorded shows that Phase B has not begun. */
  lemma BeforeB(cfg: Setup, st: State, e: Event)
    requires ValidSetup(cfg) && Inv(cfg, st) && e in st.sent
    requires !Recorded(st.store, e.deliveryId) && !IsPlannedB(cfg, e.deliveryId)
    ensures !st.openB && e in cfg.planA
    ensures DebitedInB(cfg, st.debits) == 0
  {
    assert e in cfg.planA;
    var i :| 0 <= i < |cfg.planA| && cfg.planA[i] == e;
    assert !AllRecorded(st.store, cfg.planA);
    forall j | 0 <= j < |st.debits| ensures st.debits[j] !in cfg.planB {
      assert st.debits[j] in st.sent && st.debits[j] in cfg.planA;
      if st.debits[j] in cfg.planB {
        PlansDisjoint(cfg, st.debits[j], st.debits[j]);
      }
    }
    NoDebitsInB(cfg, st.debits);
  }

  lemma RequestOrderly(cfg: Setup, st: State, i: nat, r: Reply)
    requires ValidSetup(cfg) && cfg.processor == Vulnerable
    requires Inv(cfg, st) && Orderly(cfg, st)
    requires Enabled(cfg, st, Request(i, r)) && Careful(cfg, st, Request(i, r))
    ensures Orderly(cfg, Requested(cfg, st, i, r))
  {
    var w := st.workers[i];
    var st' := Requested(cfg, st, i, r);
    assert WorkerOk(cfg, st, w);
    PlannedIsOwed(cfg, st, w.event);
    RequestRowsOk(cfg, st, i, r);
    RequestDebitsOk(cfg, st, i, r);
    RequestEffectsOk(cfg, st, i, r);
    RequestTouches(cfg, st, i, r);
    assert WorkerOk(cfg, st', st'.workers[i]) by {
      if w.pc.DebitPc? {
        if !IsPlannedB(cfg, w.event.deliveryId) {
          BeforeB(cfg, st, w.event);
        }
        DebitLeads(cfg, st, i, r);
      } else {
        WriteLeads(cfg, st, i, r);
      }
    }
    forall j | 0 <= j < |st'.workers| ensures WorkerOk(cfg, st', st'.workers[j]) {
      if j != i {
        assert WorkerOk(cfg, st, st.workers[j]);
        OtherWorkerOk(cfg, st, st', w.event.deliveryId, st.workers[j]);
      }
    }
    RequestOneAttempt(cfg, st, i, r);
  }

  lemma RequestOneAttempt(cfg: Setup, st: State, i: nat, r: Reply)
    requires OneAttempt(st.workers) && Enabled(cfg, st, Request(i, r))
    ensures OneAttempt(Requested(cfg, st, i, r).workers)
  {
    RequestShape(cfg.maxAttempts, cfg.processor, st.store, st.workers[i], r);
  }

  lemma SameWorkersOk(cfg: Setup, st: State, st': State)
    requires st'.store == st.store && st'.debits == st.debits && Orderly(cfg, st) && OneAttempt(st'.workers)
    requires forall i :: 0 <= i < |st'.workers| ==> WorkerOk(cfg, st, st'.workers[i])
    requires forall i :: 0 <= i < |st.workers| && MidDelivery(st.workers[i]) ==>
             i < |st'.workers| && st'.workers[i] == st.workers[i]
    ensures Orderly(cfg, st')
  {
    forall i | 0 <= i < |st'.workers| ensures WorkerOk(cfg, st', st'.workers[i]) {
      assert WorkerOk(cfg, st, st'.workers[i]);
    }
    forall i | 0 <= i < |st'.store.rows| ensures RowOk(cfg, st', st'.store.rows[i]) {
      assert RowOk(cfg, st, st.store.rows[i]);
    }
    forall id | id in DebitIds(st'.debits) ensures Accounted(st', id) {
      assert Accounted(st, id);
      if !exists j :: 0 <= j < |st.store.rows|
                       && st.store.rows[j].deliveryId == id && st.store.rows[j].outcome == Committed {
        var j :| 0 <= j < |st.workers| && MidDelivery(st.workers[j]) && st.workers[j].event.deliveryId == id;
        assert st'.workers[j] == st.workers[j];
      }
    }
  }

  lemma ReceiveOrderly(cfg: Setup, st: State, e: Event)
    requires cfg.processor == Vulnerable && Orderly(cfg, st)
    requires Enabled(cfg, st, Receive(e)) && Careful(cfg, st, Receive(e))
    ensures Orderly(cfg, st.(workers := st.workers + [Start(Vulnerable, e, |st.workers|)]))
  {
    SameWorkersOk(cfg, st, st.(workers := st.workers + [Start(Vulnerable, e, |st.workers|)]));
  }

  lemma CrashOrderly(cfg: Setup, st: State, i: nat)
    requires Orderly(cfg, st) && Enabled(cfg, st, Crash(i)) && Careful(cfg, st, Crash(i))
    ensures Orderly(cfg, st.(workers := st.workers[i := Vanish(st.workers[i])]))
  {
    assert WorkerOk(cfg, st, st.workers[i]);
    SameWorkersOk(cfg, st, st.(workers := st.workers[i := Vanish(st.workers[i])]));
  }

  lemma StepOrderly(cfg: Setup, st: State, l: Label)
    requires ValidSetup(cfg) && cfg.processor == Vulnerable
    requires Inv(cfg, st) && Orderly(cfg, st) && Enabled(cfg, st, l) && Careful(cfg, st, l)
    ensures Orderly(cfg, Step(cfg, st, l))
  {
    match l
    case Request(i, r) => RequestOrderly(cfg, st, i, r);
    case Task(m) => TaskFrame(cfg, st, m); SameWorkersOk(cfg, st, Moved(cfg, st, m));
    case Receive(e) => ReceiveOrderly(cfg, st, e);
    case Crash(i) => CrashOrderly(cfg, st, i);
    case _ => SameWorkersOk(cfg, st, Step(cfg, st, l));
  }

  /** Every reachable state of a careful run, in every order and under every redelivery. */
  lemma {:induction false} RunOrderly(cfg: Setup, states: seq<State>, labels: seq<Label>, n: nat)
    requires ValidSetup(cfg) && cfg.processor == Vulnerable
    requires IsCarefulRun(cfg, states, labels) && n < |states|
    ensures Inv(cfg, states[n]) && Orderly(cfg, states[n])
  {
    RunInv(cfg, states, labels, n);
    if n > 0 {
      RunOrderly(cfg, states, labels, n - 1);
      StepOrderly(cfg, states[n - 1], labels[n - 1]);
    }
  }

  // --- What Phase A can cost --------------------------------------------------------------------

  /** What the duplicated entitlements are owed, once. */
  function DuplicatedOwed(cfg: Setup): int {
    Misallocated(cfg.eligible, multiset(EventKeys(cfg.planA)))
  }

  lemma {:induction false} CoverageSums(eligible: seq<Entry>, a: multiset<Key>, b: multiset<Key>)
    requires forall i :: 0 <= i < |eligible| ==>
               (a[eligible[i].key] == 2 && b[eligible[i].key] == 0)
                 || (a[eligible[i].key] == 0 && b[eligible[i].key] == 1)
    ensures PaidTo(eligible, a) == 2 * Misallocated(eligible, a)
    ensures PaidTo(eligible, b) == Owed(eligible) - Misallocated(eligible, a)
  {
    if eligible != [] {
      var n := |eligible| - 1;
      assert forall i :: 0 <= i < n ==> eligible[..n][i] == eligible[i];
      CoverageSums(eligible[..n], a, b);
    }
  }

  lemma EventsByKey(eligible: seq<Entry>, events: seq<Event>)
    requires DistinctKeys(eligible) && forall i :: 0 <= i < |events| ==> OwedEvent(eligible, events[i])
    ensures Sum(EventAmounts(events)) == PaidTo(eligible, multiset(EventKeys(events)))
  {
    var keys, amounts := EventKeys(events), EventAmounts(events);
    assert forall i :: 0 <= i < |events| ==> OwedEvent(eligible, events[i]);
    ChargesByKey(eligible, keys, amounts);
    NoForeign(eligible, keys, amounts);
  }

  lemma {:induction false} NoForeign(eligible: seq<Entry>, keys: seq<Key>, amounts: seq<int>)
    requires |keys| == |amounts| && forall i :: 0 <= i < |keys| ==> Eligible(eligible, keys[i])
    ensures Foreign(eligible, keys, amounts) == 0
  {
    if keys != [] {
      NoForeign(eligible, keys[..|keys| - 1], amounts[..|keys| - 1]);
      assert Eligible(eligible, keys[|keys| - 1]);
    }
  }

  lemma PlansOwed(cfg: Setup)
    requires ValidSetup(cfg)
    ensures forall i :: 0 <= i < |cfg.planA| ==> OwedEvent(cfg.eligible, cfg.planA[i])
    ensures forall i :: 0 <= i < |cfg.planB| ==> OwedEvent(cfg.eligible, cfg.planB[i])
  {
    forall i | 0 <= i < |cfg.planA| ensures OwedEvent(cfg.eligible, cfg.planA[i]) {
      assert Plan(cfg)[i] == cfg.planA[i];
    }
    forall i | 0 <= i < |cfg.planB| ensures OwedEvent(cfg.eligible, cfg.planB[i]) {
      assert Plan(cfg)[|cfg.planA| + i] == cfg.planB[i];
    }
  }

  lemma DuplicatedPositive(cfg: Setup)
    requires PositiveAmounts(cfg.eligible)
    ensures DuplicateCount(cfg) >= 1 ==> DuplicatedOwed(cfg) >= 1
  {
    var a := multiset(EventKeys(cfg.planA));
    MisallocatedNonNegative(cfg.eligible, a);
    KeysInExact(cfg.eligible, a, MoreThanOnce);
    if DuplicateCount(cfg) >= 1 {
      var k := KeysIn(cfg.eligible, a, MoreThanOnce)[0];
      assert k in KeysIn(cfg.eligible, a, MoreThanOnce);
      var i :| 0 <= i < |cfg.eligible| && cfg.eligible[i].key == k;
    }
  }

  lemma PhaseSums(cfg: Setup)
    requires ValidSetup(cfg)
    ensures Sum(EventAmounts(cfg.planA)) == 2 * DuplicatedOwed(cfg)
    ensures Sum(EventAmounts(cfg.planB)) == Owed(cfg.eligible) - DuplicatedOwed(cfg)
  {
    PlansOwed(cfg);
    EventsByKey(cfg.eligible, cfg.planA);
    EventsByKey(cfg.eligible, cfg.planB);
    assert forall i :: 0 <= i < |cfg.eligible| ==> Covered(cfg, cfg.eligible[i].key);
    CoverageSums(cfg.eligible, multiset(EventKeys(cfg.planA)), multiset(EventKeys(cfg.planB)));
  }

  /** Phase A asks for the duplicated money twice, both phases together for the budget and once more. */
  lemma PlanSums(cfg: Setup)
    requires ValidSetup(cfg)
    ensures Sum(EventAmounts(cfg.planA)) == 2 * DuplicatedOwed(cfg)
    ensures Sum(EventAmounts(cfg.planB)) == Owed(cfg.eligible) - DuplicatedOwed(cfg)
    ensures Sum(EventAmounts(Plan(cfg))) == Owed(cfg.eligible) + DuplicatedOwed(cfg)
    ensures DuplicateCount(cfg) >= 1 ==> DuplicatedOwed(cfg) >= 1
  {
    PhaseSums(cfg);
    DuplicatedPositive(cfg);
    EventsConcat(cfg.planA, cfg.planB);
  }

  lemma EventsConcat(a: seq<Event>, b: seq<Event>)
    ensures Sum(EventAmounts(a + b)) == Sum(EventAmounts(a)) + Sum(EventAmounts(b))
  {
    assert EventAmounts(a + b) == EventAmounts(a) + EventAmounts(b);
    SumConcat(EventAmounts(a), EventAmounts(b));
  }

  /** Distinct deliveries taken from a list cost no more than the list. */
  lemma {:induction false} SubsetSum(xs: seq<Event>, ys: seq<Event>)
    requires DistinctIds(xs)
    requires forall e :: e in xs ==> e in ys
    requires forall i :: 0 <= i < |ys| ==> ys[i].amount >= 0
    ensures Sum(EventAmounts(xs)) <= Sum(EventAmounts(ys))
  {
    if xs == [] {
      SumNonNegative(EventAmounts(ys));
    } else {
      var n := |xs| - 1;
      assert xs[n] in ys;
      var i :| 0 <= i < |ys| && ys[i] == xs[n];
      RestIs(ys, i);
      RestHolds(xs, ys, i);
      SubsetSum(xs[..n], ys[..i] + ys[i + 1..]);
      OneLessEvent(xs, n);
      OneLessEvent(ys, i);
      assert xs[..n] + xs[n + 1..] == xs[..n];
    }
  }

  /** What is left of a selection is still in what is left of the list. */
  lemma RestHolds(xs: seq<Event>, ys: seq<Event>, i: nat)
    requires DistinctIds(xs) && xs != [] && i < |ys| && ys[i] == xs[|xs| - 1]
    requires forall e :: e in xs ==> e in ys
    ensures var front, rest := xs[..|xs| - 1], ys[..i] + ys[i + 1..]; forall e :: e in front ==> e in rest
  {
    var n, rest := |xs| - 1, ys[..i] + ys[i + 1..];
    forall e | e in xs[..n] ensures e in rest {
      var j :| 0 <= j < n && xs[j] == e;
      assert xs[j].deliveryId != xs[n].deliveryId && xs[j] in ys;
      var m :| 0 <= m < |ys| && ys[m] == e;
      assert if m < i then rest[m] == e else rest[m - 1] == e;
    }
  }

  lemma OneLessEvent(events: seq<Event>, i: nat)
    requires i < |events|
    ensures Sum(EventAmounts(events)) == Sum(EventAmounts(events[..i] + events[i + 1..])) + events[i].amount
  {
    var amounts := EventAmounts(events);
    SumRemove(amounts, i);
    assert EventAmounts(events[..i] + events[i + 1..]) == amounts[..i] + amounts[i + 1..];
  }

  lemma RestIs(ys: seq<Event>, i: nat)
    requires i < |ys|
    ensures forall j :: 0 <= j < |ys| - 1 ==> (ys[..i] + ys[i + 1..])[j] == if j < i then ys[j] else ys[j + 1]
  {
  }

  /** The guard a caller can check: Phase A never asks for more than the whole budget. */
  predicate RetryWaveFits(cfg: Setup) {
    2 * DuplicatedOwed(cfg) <= cfg.budget
  }

  ghost predicate NoRefusalInA(cfg: Setup, st: State) {
    && (forall i :: 0 <= i < |st.store.rows| && st.store.rows[i].outcome == BudgetExhausted ==>
          IsPlannedB(cfg, st.store.rows[i].deliveryId))
    && (forall i :: 0 <= i < |st.workers| ==> NotRefusedInA(cfg, st.workers[i]))
  }

  ghost predicate NotRefusedInA(cfg: Setup, w: Worker) {
    w.pc.RecordPc? && w.pc.outcome == BudgetExhausted ==> IsPlannedB(cfg, w.event.deliveryId)
  }

  /** While Phase A runs, one more of its debits always fits. */
  lemma RetryWaveAffordable(cfg: Setup, st: State, e: Event)
    requires ValidSetup(cfg) && RetryWaveFits(cfg) && Inv(cfg, st) && DebitsOk(st)
    requires e in st.sent && !IsPlannedB(cfg, e.deliveryId)
    requires !Recorded(st.store, e.deliveryId) && e.deliveryId !in DebitIds(st.debits)
    ensures CanDebit(st.store, e.amount)
  {
    BeforeB(cfg, st, e);
    var xs := st.debits + [e];
    forall j | 0 <= j < |st.debits| ensures st.debits[j].deliveryId != e.deliveryId && st.debits[j] in cfg.planA {
      assert st.debits[j].deliveryId in DebitIds(st.debits);
      assert st.debits[j] in st.sent;
    }
    forall i | 0 <= i < |cfg.planA| ensures cfg.planA[i].amount >= 0 && Plan(cfg)[i] == cfg.planA[i] {
      OwedIsPositive(cfg, i);
    }
    SubsetSum(xs, cfg.planA);
    DebitedAppend(st.debits, e);
    PlanSums(cfg);
  }

  lemma OwedIsPositive(cfg: Setup, i: nat)
    requires ValidSetup(cfg) && i < |Plan(cfg)|
    ensures Plan(cfg)[i].amount >= 1
  {
    assert OwedEvent(cfg.eligible, Plan(cfg)[i]);
    var j :| 0 <= j < |cfg.eligible| && cfg.eligible[j].key == Plan(cfg)[i].key;
    DueAt(cfg.eligible, j);
  }

  lemma RequestNoRefusal(cfg: Setup, st: State, i: nat, r: Reply)
    requires ValidSetup(cfg) && RetryWaveFits(cfg) && cfg.processor == Vulnerable
    requires Inv(cfg, st) && Orderly(cfg, st) && NoRefusalInA(cfg, st) && Enabled(cfg, st, Request(i, r))
    ensures NoRefusalInA(cfg, Requested(cfg, st, i, r))
  {
    var w := st.workers[i];
    assert WorkerOk(cfg, st, w);
    if w.pc.DebitPc? && !IsPlannedB(cfg, w.event.deliveryId) {
      assert w.event in st.sent;
      RetryWaveAffordable(cfg, st, w.event);
    }
    NoRefusalFrame(cfg, st, i, r);
  }

  lemma NotRefusedAfter(cfg: Setup, s: Store, w: Worker, r: Reply)
    requires NotRefusedInA(cfg, w) && Live(w) && !w.pc.CommitPc?
    requires w.pc.DebitPc? && !IsPlannedB(cfg, w.event.deliveryId) ==> CanDebit(s, w.event.amount)
    ensures NotRefusedInA(cfg, WorkerAfter(cfg.maxAttempts, Vulnerable, s, w, r))
  {
  }

  lemma RowsGrowByOwn(s: Store, w: Worker, r: Reply)
    requires Live(w) && !w.pc.CommitPc?
    ensures StoreAfter(s, w, r).rows == s.rows + (if WriteOf(s, w, r) == Row && w.pc.RecordPc? then [RowOf(w)] else [])
  {
    assert s.rows + [] == s.rows;
  }

  lemma NoRefusalFrame(cfg: Setup, st: State, i: nat, r: Reply)
    requires cfg.processor == Vulnerable && NoRefusalInA(cfg, st) && Enabled(cfg, st, Request(i, r))
    requires WorkerOk(cfg, st, st.workers[i])
    requires st.workers[i].pc.DebitPc? && !IsPlannedB(cfg, st.workers[i].event.deliveryId) ==>
             CanDebit(st.store, st.workers[i].event.amount)
    ensures NoRefusalInA(cfg, Requested(cfg, st, i, r))
  {
    NotRefusedAfter(cfg, st.store, st.workers[i], r);
    RowsGrowByOwn(st.store, st.workers[i], r);
  }

  lemma {:induction false} RunNoRefusal(cfg: Setup, states: seq<State>, labels: seq<Label>, n: nat)
    requires ValidSetup(cfg) && RetryWaveFits(cfg) && cfg.processor == Vulnerable
    requires IsCarefulRun(cfg, states, labels) && n < |states|
    ensures NoRefusalInA(cfg, states[n])
  {
    if n == 0 {
      assert states[0].store.rows == [] && states[0].workers == [];
    } else {
      RunNoRefusal(cfg, states, labels, n - 1);
      RunOrderly(cfg, states, labels, n - 1);
      assert Enabled(cfg, states[n - 1], labels[n - 1]) && states[n] == Step(cfg, states[n - 1], labels[n - 1]);
      StepNoRefusal(cfg, states[n - 1], labels[n - 1]);
    }
  }

  lemma StepNoRefusal(cfg: Setup, st: State, l: Label)
    requires ValidSetup(cfg) && RetryWaveFits(cfg) && cfg.processor == Vulnerable
    requires Inv(cfg, st) && Orderly(cfg, st) && NoRefusalInA(cfg, st) && Enabled(cfg, st, l)
    ensures NoRefusalInA(cfg, Step(cfg, st, l))
  {
    match l
    case Request(i, r) => RequestNoRefusal(cfg, st, i, r);
    case Task(m) => TaskFrame(cfg, st, m);
    case _ => OthersNoRefusal(cfg, st, l);
  }

  lemma OthersNoRefusal(cfg: Setup, st: State, l: Label)
    requires cfg.processor == Vulnerable && NoRefusalInA(cfg, st) && Enabled(cfg, st, l) && !l.Request? && !l.Task?
    ensures NoRefusalInA(cfg, Step(cfg, st, l))
  {
  }
}
