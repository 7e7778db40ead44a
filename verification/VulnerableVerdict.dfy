/**
 What every run of the vulnerable processor says in the end, careful or not: whatever crashes,
 overlaps or is redelivered, a PASS needs duplicated entitlements that owe more than all of Phase B.
 */
module VulnerableVerdict {
  import opened Domain
  import opened Accounts
  import opened Sorting
  import opened Storage
  import opened Machine
  import opened Evaluator
  import opened Workflow
  import opened Protocol
  import opened Invariants
  import opened Completion
  import opened VulnerableRun
  import C = VulnerableCounts
  import L = Lifecycle

  // --- What rows and workers know, without any care -------------------------------------------------

  /** A refusal of a delivery that is not recorded yet was, and stays, a true one. */
  ghost predicate LooseWorker(cfg: Setup, st: State, w: Worker) {
    var id := w.event.deliveryId;
    match w.pc
    case CheckDeliveryPc => true
    case DebitPc => true
    case PutEffectPc => id in DebitIds(st.debits)
    case RecordPc(o, _, _) =>
      && (o == Committed ==> id in PaidIds(st.store.effects))
      && (o == BudgetExhausted ==> Recorded(st.store, id) || TooDear(cfg, st, id, w.event.key))
      && o != DuplicateSuppressed
    case DonePc(_) => true
    case VanishedPc(_) => true
    case _ => false
  }

  ghost predicate LooseRow(cfg: Setup, st: State, row: Delivery) {
    match row.outcome
    case Committed => row.deliveryId in PaidIds(st.store.effects)
    case BudgetExhausted => TooDear(cfg, st, row.deliveryId, row.key)
    case DuplicateSuppressed => false
  }

  ghost predicate Loose(cfg: Setup, st: State) {
    && (forall i :: 0 <= i < |st.workers| ==> LooseWorker(cfg, st, st.workers[i]))
    && (forall i :: 0 <= i < |st.store.rows| ==> LooseRow(cfg, st, st.store.rows[i]))
    && PaidIds(st.store.effects) <= DebitIds(st.debits)
  }

  /** Debits, payments and rows are only added; what a Phase A refusal was measured against only shrinks. */
  ghost predicate Grows(cfg: Setup, st: State, st': State) {
    && DebitIds(st.debits) <= DebitIds(st'.debits)
    && PaidIds(st.store.effects) <= PaidIds(st'.store.effects)
    && (forall id :: Recorded(st.store, id) ==> Recorded(st'.store, id))
    && st'.store.remaining <= st.store.remaining
    && st'.store.remaining + DebitedInB(cfg, st'.debits) <= st.store.remaining + DebitedInB(cfg, st.debits)
  }

  lemma WorkerStaysLoose(cfg: Setup, st: State, st': State, w: Worker)
    requires Grows(cfg, st, st') && LooseWorker(cfg, st, w)
    ensures LooseWorker(cfg, st', w)
  {
  }

  lemma RowStaysLoose(cfg: Setup, st: State, st': State, row: Delivery)
    requires Grows(cfg, st, st') && LooseRow(cfg, st, row)
    ensures LooseRow(cfg, st', row)
  {
  }

  lemma RequestGrows(cfg: Setup, st: State, i: nat, r: Reply)
    requires cfg.processor == Vulnerable && Enabled(cfg, st, Request(i, r))
    requires LooseWorker(cfg, st, st.workers[i]) && st.workers[i].event.amount >= 1
    ensures Grows(cfg, st, Requested(cfg, st, i, r))
  {
    var w := st.workers[i];
    var write := WriteOf(st.store, w, r);
    var st' := Requested(cfg, st, i, r);
    assert st.debits + [] == st.debits;
    if write == Debit {
      DebitIdsAppend(st.debits, w.event);
      assert (st.debits + [w.event])[..|st.debits|] == st.debits;
    } else if write == PutEffect {
      PaidIdsAppend(st.store.effects, EffectFor(w.event, w.effectId));
    } else if write == Row {
      RecordedAppend(st.store, st'.store, RowOf(w));
    }
  }

  /** What a worker that debits does next: go on to pay, record a true refusal, try again or give up. */
  lemma DebitCases(cfg: Setup, s: Store, w: Worker, r: Reply)
    requires cfg.processor == Vulnerable && w.pc.DebitPc? && s.runExists
    ensures var w' := WorkerAfter(cfg.maxAttempts, Vulnerable, s, w, r);
            || (WriteOf(s, w, r) == Debit && w' == Goto(w, PutEffectPc))
            || (WriteOf(s, w, r) == Nothing && s.remaining < w.event.amount
                && w' == Goto(w, RecordPc(BudgetExhausted, None, Some(s.remaining))))
            || (WriteOf(s, w, r) == Nothing && w'.event == w.event && (w'.pc.DebitPc? || w'.pc.VanishedPc?))
  {
  }

  lemma DebitLoose(cfg: Setup, st: State, i: nat, r: Reply)
    requires ValidSetup(cfg) && cfg.processor == Vulnerable && Inv(cfg, st) && Enabled(cfg, st, Request(i, r))
    requires st.workers[i].pc.DebitPc?
    ensures var st' := Requested(cfg, st, i, r); LooseWorker(cfg, st', st'.workers[i])
  {
    var w := st.workers[i];
    DebitCases(cfg, st.store, w, r);
    if WriteOf(st.store, w, r) == Debit {
      DebitIdsAppend(st.debits, w.event);
    } else {
      if st.store.remaining < w.event.amount {
        RefusalIsTrue(cfg, st, w);
      }
      UnwrittenLoose(cfg, st, i, r);
    }
  }

  /** A request that writes nothing leaves a worker that knows why it was refused. */
  lemma UnwrittenLoose(cfg: Setup, st: State, i: nat, r: Reply)
    requires cfg.processor == Vulnerable && i < |st.workers| && st.workers[i].pc.DebitPc? && st.store.runExists
    requires WriteOf(st.store, st.workers[i], r) == Nothing
    requires var w := st.workers[i];
             st.store.remaining < w.event.amount ==>
               Recorded(st.store, w.event.deliveryId) || TooDear(cfg, st, w.event.deliveryId, w.event.key)
    ensures var st' := Requested(cfg, st, i, r); LooseWorker(cfg, st', st'.workers[i])
  {
    DebitCases(cfg, st.store, st.workers[i], r);
    assert st.debits + [] == st.debits;
  }

  /** A refusal of an unrecorded delivery is true of the whole of Phase A. */
  lemma RefusalIsTrue(cfg: Setup, st: State, w: Worker)
    requires ValidSetup(cfg) && Inv(cfg, st) && w in st.workers && st.store.remaining < w.event.amount
    ensures Recorded(st.store, w.event.deliveryId) || TooDear(cfg, st, w.event.deliveryId, w.event.key)
  {
    PlannedIsOwed(cfg, st, w.event);
    if !Recorded(st.store, w.event.deliveryId) && !IsPlannedB(cfg, w.event.deliveryId) {
      BeforeB(cfg, st, w.event);
    }
  }

  lemma WriteLoose(cfg: Setup, st: State, i: nat, r: Reply)
    requires cfg.processor == Vulnerable && Enabled(cfg, st, Request(i, r))
    requires LooseWorker(cfg, st, st.workers[i]) && !st.workers[i].pc.DebitPc?
    requires Grows(cfg, st, Requested(cfg, st, i, r))
    ensures var st' := Requested(cfg, st, i, r); LooseWorker(cfg, st', st'.workers[i])
  {
    var w, st' := st.workers[i], Requested(cfg, st, i, r);
    if w.pc.PutEffectPc? {
      PutLoose(cfg, st, i, r);
    } else {
      OtherCases(cfg, st.store, w, r);
      if st'.workers[i].pc.RecordPc? {
        WorkerStaysLoose(cfg, st, st', w);
      }
    }
  }

  lemma OtherCases(cfg: Setup, s: Store, w: Worker, r: Reply)
    requires cfg.processor == Vulnerable && (w.pc.CheckDeliveryPc? || w.pc.RecordPc?)
    ensures var w' := WorkerAfter(cfg.maxAttempts, Vulnerable, s, w, r);
            || w'.pc.DebitPc? || w'.pc.DonePc? || w'.pc.VanishedPc?
            || (w.pc.RecordPc? && w'.pc == w.pc && w'.event == w.event)
  {
  }

  lemma PutLoose(cfg: Setup, st: State, i: nat, r: Reply)
    requires cfg.processor == Vulnerable && i < |st.workers| && st.workers[i].pc.PutEffectPc?
    ensures var st' := Requested(cfg, st, i, r); LooseWorker(cfg, st', st'.workers[i])
  {
    PaidIdsAppend(st.store.effects, EffectFor(st.workers[i].event, st.workers[i].effectId));
  }

  lemma NewRowLoose(cfg: Setup, st: State, i: nat, r: Reply)
    requires cfg.processor == Vulnerable && Enabled(cfg, st, Request(i, r))
    requires LooseWorker(cfg, st, st.workers[i]) && WriteOf(st.store, st.workers[i], r) == Row
    ensures var st' := Requested(cfg, st, i, r);
            st'.store.rows == st.store.rows + [RowOf(st.workers[i])] && LooseRow(cfg, st', RowOf(st.workers[i]))
  {
    RequestShape(cfg.maxAttempts, Vulnerable, st.store, st.workers[i], r);
    assert st.debits + [] == st.debits;
  }

  lemma EffectsLoose(cfg: Setup, st: State, i: nat, r: Reply)
    requires cfg.processor == Vulnerable && Enabled(cfg, st, Request(i, r))
    requires LooseWorker(cfg, st, st.workers[i]) && PaidIds(st.store.effects) <= DebitIds(st.debits)
    ensures var st' := Requested(cfg, st, i, r); PaidIds(st'.store.effects) <= DebitIds(st'.debits)
  {
    IdsWritten(cfg, st, i, r);
  }

  lemma IdsWritten(cfg: Setup, st: State, i: nat, r: Reply)
    requires cfg.processor == Vulnerable && Enabled(cfg, st, Request(i, r)) && LooseWorker(cfg, st, st.workers[i])
    ensures var st', id := Requested(cfg, st, i, r), st.workers[i].event.deliveryId;
            var write := WriteOf(st.store, st.workers[i], r);
            && DebitIds(st'.debits) == DebitIds(st.debits) + (if write == Debit then {id} else {})
            && PaidIds(st'.store.effects) == PaidIds(st.store.effects) + (if write == PutEffect then {id} else {})
            && (write == PutEffect ==> st.workers[i].pc.PutEffectPc?)
  {
    var w := st.workers[i];
    assert st.debits + [] == st.debits;
    if WriteOf(st.store, w, r) == Debit {
      DebitIdsAppend(st.debits, w.event);
    } else if WriteOf(st.store, w, r) == PutEffect {
      PaidIdsAppend(st.store.effects, EffectFor(w.event, w.effectId));
    }
  }

  lemma WorkersLoose(cfg: Setup, st: State, i: nat, r: Reply)
    requires ValidSetup(cfg) && cfg.processor == Vulnerable && Inv(cfg, st) && Loose(cfg, st)
    requires Enabled(cfg, st, Request(i, r)) && Grows(cfg, st, Requested(cfg, st, i, r))
    ensures var st' := Requested(cfg, st, i, r);
            forall j :: 0 <= j < |st'.workers| ==> LooseWorker(cfg, st', st'.workers[j])
  {
    var st' := Requested(cfg, st, i, r);
    if st.workers[i].pc.DebitPc? {
      DebitLoose(cfg, st, i, r);
    } else {
      WriteLoose(cfg, st, i, r);
    }
    forall j | 0 <= j < |st'.workers| && j != i ensures LooseWorker(cfg, st', st'.workers[j]) {
      WorkerStaysLoose(cfg, st, st', st.workers[j]);
    }
  }

  lemma RequestLoose(cfg: Setup, st: State, i: nat, r: Reply)
    requires ValidSetup(cfg) && cfg.processor == Vulnerable && Inv(cfg, st) && Loose(cfg, st)
    requires Enabled(cfg, st, Request(i, r))
    ensures Loose(cfg, Requested(cfg, st, i, r))
  {
    var st' := Requested(cfg, st, i, r);
    PlannedIsOwed(cfg, st, st.workers[i].event);
    RequestGrows(cfg, st, i, r);
    WorkersLoose(cfg, st, i, r);
    EffectsLoose(cfg, st, i, r);
    RowsGrowByOwn(st.store, st.workers[i], r);
    if WriteOf(st.store, st.workers[i], r) == Row {
      NewRowLoose(cfg, st, i, r);
    }
    forall j | 0 <= j < |st'.store.rows| ensures LooseRow(cfg, st', st'.store.rows[j]) {
      if j < |st.store.rows| {
        RowStaysLoose(cfg, st, st', st.store.rows[j]);
      }
    }
  }

  lemma SameTablesLoose(cfg: Setup, st: State, st': State)
    requires Loose(cfg, st) && st'.store == st.store && st'.debits == st.debits
    requires forall i :: 0 <= i < |st'.workers| ==>
               (i < |st.workers| && st'.workers[i] == st.workers[i])
               || st'.workers[i].pc.CheckDeliveryPc? || st'.workers[i].pc.VanishedPc?
    ensures Loose(cfg, st')
  {
    forall i | 0 <= i < |st'.workers| ensures LooseWorker(cfg, st', st'.workers[i]) {
      if i < |st.workers| && st'.workers[i] == st.workers[i] {
        assert LooseWorker(cfg, st, st.workers[i]);
      }
    }
    forall i | 0 <= i < |st'.store.rows| ensures LooseRow(cfg, st', st'.store.rows[i]) {
      assert LooseRow(cfg, st, st.store.rows[i]);
    }
  }

  lemma StepLoose(cfg: Setup, st: State, l: Label)
    requires ValidSetup(cfg) && cfg.processor == Vulnerable && Inv(cfg, st) && Loose(cfg, st) && Enabled(cfg, st, l)
    ensures Loose(cfg, Step(cfg, st, l))
  {
    match l
    case Request(i, r) => RequestLoose(cfg, st, i, r);
    case Task(m) => TaskFrame(cfg, st, m); SameTablesLoose(cfg, st, Moved(cfg, st, m));
    case _ => OthersLoose(cfg, st, l);
  }

  lemma OthersLoose(cfg: Setup, st: State, l: Label)
    requires cfg.processor == Vulnerable && Loose(cfg, st) && Enabled(cfg, st, l) && !l.Request? && !l.Task?
    ensures Loose(cfg, Step(cfg, st, l))
  {
    SameTablesLoose(cfg, st, Step(cfg, st, l));
  }

  // --- A PASS shows what was refused -----------------------------------------------------------------------

  /** Every duplicated entitlement owes more than all of Phase B together. */
  ghost predicate AllDear(cfg: Setup) {
    forall i :: 0 <= i < |cfg.eligible| && KeyCount(cfg.planA, cfg.eligible[i].key) == 2 ==>
      cfg.eligible[i].owed.amount > Owed(cfg.eligible) - DuplicatedOwed(cfg)
  }

  ghost predicate PaidOnceEach(cfg: Setup, st: State) {
    forall i :: 0 <= i < |cfg.eligible| ==> Payments(st.store.effects)[cfg.eligible[i].key] == 1
  }

  /** A paid delivery is a payment of its own key. */
  lemma PaymentOf(cfg: Setup, st: State, e: Event) returns (x: nat)
    requires ValidSetup(cfg) && Inv(cfg, st) && e in Plan(cfg) && e.deliveryId in PaidIds(st.store.effects)
    ensures x < |st.store.effects| && st.store.effects[x].deliveryId == e.deliveryId && st.store.effects[x].key == e.key
  {
    x :| 0 <= x < |st.store.effects| && st.store.effects[x].deliveryId == e.deliveryId;
    var p := C.EffectKeyIsPlanned(cfg, st, x);
    var q :| 0 <= q < |Plan(cfg)| && Plan(cfg)[q] == e;
    assert p == q;
  }

  /** Two deliveries of one entitlement cannot both be paid when it is paid once. */
  lemma NotBothPaid(cfg: Setup, st: State, e: Event, e': Event)
    requires ValidSetup(cfg) && Inv(cfg, st) && e in Plan(cfg) && e' in Plan(cfg)
    requires e.key == e'.key && e.deliveryId != e'.deliveryId && Payments(st.store.effects)[e.key] == 1
    ensures e.deliveryId !in PaidIds(st.store.effects) || e'.deliveryId !in PaidIds(st.store.effects)
  {
    if e.deliveryId in PaidIds(st.store.effects) && e'.deliveryId in PaidIds(st.store.effects) {
      var x := PaymentOf(cfg, st, e);
      var y := PaymentOf(cfg, st, e');
      if x < y {
        OccursTwice(EffectKeys(st.store.effects), x, y);
      } else {
        OccursTwice(EffectKeys(st.store.effects), y, x);
      }
    }
  }

  /** The two planned copies of a duplicated entitlement. */
  lemma TwoCopies(cfg: Setup, k: Key) returns (i: nat, j: nat)
    requires KeyCount(cfg.planA, k) == 2
    ensures i < j < |cfg.planA| && cfg.planA[i].key == cfg.planA[j].key == k
  {
    i, j := TwoOccurrences(EventKeys(cfg.planA), k);
  }

  /** One of the two copies was refused, for a reason that still holds. */
  lemma CopyRefused(cfg: Setup, st: State, i: nat)
    requires ValidSetup(cfg) && Inv(cfg, st) && Loose(cfg, st) && AllRecorded(st.store, Plan(cfg))
    requires i < |cfg.eligible| && KeyCount(cfg.planA, cfg.eligible[i].key) == 2
    requires Payments(st.store.effects)[cfg.eligible[i].key] == 1
    ensures st.store.remaining + DebitedInB(cfg, st.debits) < cfg.eligible[i].owed.amount
  {
    var k := cfg.eligible[i].key;
    var a, b := TwoCopies(cfg, k);
    assert Plan(cfg)[a] == cfg.planA[a] && Plan(cfg)[b] == cfg.planA[b];
    NotBothPaid(cfg, st, cfg.planA[a], cfg.planA[b]);
    var c := if cfg.planA[a].deliveryId in PaidIds(st.store.effects) then b else a;
    UnpaidIsDear(cfg, st, c);
    DueAt(cfg.eligible, i);
  }

  lemma UnpaidIsDear(cfg: Setup, st: State, c: nat)
    requires ValidSetup(cfg) && Inv(cfg, st) && Loose(cfg, st) && AllRecorded(st.store, Plan(cfg))
    requires c < |cfg.planA| && cfg.planA[c].deliveryId !in PaidIds(st.store.effects)
    ensures st.store.remaining + DebitedInB(cfg, st.debits) < Due(cfg.eligible, cfg.planA[c].key)
  {
    assert Plan(cfg)[c] == cfg.planA[c];
    assert Recorded(st.store, Plan(cfg)[c].deliveryId);
    var r := RowOfEvent(cfg, st, c);
    assert LooseRow(cfg, st, st.store.rows[r]);
    if IsPlannedB(cfg, cfg.planA[c].deliveryId) {
      var e :| e in cfg.planB && e.deliveryId == cfg.planA[c].deliveryId;
      PlansDisjoint(cfg, cfg.planA[c], e);
    }
  }

  /** Debits of Phase B deliveries, in order. */
  function BDebits(cfg: Setup, debits: seq<Event>): seq<Event> {
    if debits == [] then []
    else
      var last := debits[|debits| - 1];
      BDebits(cfg, debits[..|debits| - 1]) + (if last in cfg.planB then [last] else [])
  }

  lemma {:induction false} BDebitsExact(cfg: Setup, debits: seq<Event>)
    ensures Sum(EventAmounts(BDebits(cfg, debits))) == DebitedInB(cfg, debits)
    ensures forall e :: e in BDebits(cfg, debits) <==> e in debits && e in cfg.planB
  {
    if debits != [] {
      var n := |debits| - 1;
      var front := BDebits(cfg, debits[..n]);
      BDebitsExact(cfg, debits[..n]);
      assert debits == debits[..n] + [debits[n]];
      if debits[n] in cfg.planB {
        DebitedAppend(front, debits[n]);
      } else {
        assert front + [] == front;
      }
    }
  }

  lemma PlanBDistinct(cfg: Setup)
    requires DistinctIds(Plan(cfg))
    ensures DistinctIds(cfg.planB)
  {
    assert forall i, j :: 0 <= i < j < |cfg.planB| ==>
             Plan(cfg)[|cfg.planA| + i] == cfg.planB[i] && Plan(cfg)[|cfg.planA| + j] == cfg.planB[j];
  }

  /** The payment of a student of Phase B is that of their only delivery, which was debited. */
  lemma BDebited(cfg: Setup, st: State, b: nat)
    requires ValidSetup(cfg) && Inv(cfg, st) && PaidIds(st.store.effects) <= DebitIds(st.debits)
    requires b < |cfg.planB| && Payments(st.store.effects)[cfg.planB[b].key] >= 1
    ensures cfg.planB[b] in st.debits
  {
    var k, keys := cfg.planB[b].key, EffectKeys(st.store.effects);
    assert k in multiset(keys);
    var x :| 0 <= x < |keys| && keys[x] == k;
    var p := C.EffectKeyIsPlanned(cfg, st, x);
    assert Plan(cfg)[p] in Plan(cfg);
    OnlyDelivery(cfg, Plan(cfg)[p], cfg.planB[b]);
    assert st.store.effects[x] in st.store.effects && cfg.planB[b].deliveryId in DebitIds(st.debits);
    DebitedAsPlanned(cfg, st, cfg.planB[b]);
  }

  lemma DebitedAsPlanned(cfg: Setup, st: State, e: Event)
    requires ValidSetup(cfg) && Inv(cfg, st) && e in Plan(cfg) && e.deliveryId in DebitIds(st.debits)
    ensures e in st.debits
  {
    var d :| d in st.debits && d.deliveryId == e.deliveryId;
    C.DebitsPositive(cfg, st);
    assert d in Plan(cfg);
    SameId(cfg, d, e);
  }

  lemma SameId(cfg: Setup, e: Event, e': Event)
    requires DistinctIds(Plan(cfg)) && e in Plan(cfg) && e' in Plan(cfg) && e.deliveryId == e'.deliveryId
    ensures e == e'
  {
    var i :| 0 <= i < |Plan(cfg)| && Plan(cfg)[i] == e;
    var j :| 0 <= j < |Plan(cfg)| && Plan(cfg)[j] == e';
    assert i == j;
  }

  /** A student of Phase B has one planned delivery. */
  lemma OnlyDelivery(cfg: Setup, e: Event, e': Event)
    requires ValidSetup(cfg) && e in Plan(cfg) && e' in cfg.planB && e.key == e'.key
    ensures e == e'
  {
    var b :| 0 <= b < |cfg.planB| && cfg.planB[b] == e';
    var j :| 0 <= j < |Plan(cfg)| && Plan(cfg)[j] == e;
    assert Plan(cfg)[|cfg.planA| + b] == e';
    assert OwedEvent(cfg.eligible, Plan(cfg)[j]);
    var i :| 0 <= i < |cfg.eligible| && cfg.eligible[i].key == e.key;
    assert Covered(cfg, e.key);
    KeyOccurs(cfg.planB, b);
    if j < |cfg.planA| {
      KeyOccurs(cfg.planA, j);
      assert false;
    } else {
      OnceMeansSame(EventKeys(cfg.planB), b, j - |cfg.planA|);
    }
  }

  lemma KeyOccurs(events: seq<Event>, j: nat)
    requires j < |events|
    ensures KeyCount(events, events[j].key) > 0
  {
    assert EventKeys(events)[j] == events[j].key;
  }

  lemma OnceMeansSame(keys: seq<Key>, i: nat, j: nat)
    requires i < |keys| && j < |keys| && keys[i] == keys[j] && multiset(keys)[keys[i]] == 1
    ensures i == j
  {
    if i < j {
      OccursTwice(keys, i, j);
    } else if j < i {
      OccursTwice(keys, j, i);
    }
  }

  lemma BDebitsPositive(cfg: Setup, st: State)
    requires ValidSetup(cfg) && Inv(cfg, st)
    ensures var bs := BDebits(cfg, st.debits); forall i :: 0 <= i < |bs| ==> bs[i].amount >= 0
  {
    var bs := BDebits(cfg, st.debits);
    BDebitsExact(cfg, st.debits);
    C.DebitsPositive(cfg, st);
    forall i | 0 <= i < |bs| ensures bs[i].amount >= 0 {
      assert bs[i] in bs;
      var d :| 0 <= d < |st.debits| && st.debits[d] == bs[i];
    }
  }

  lemma AllOfBDebited(cfg: Setup, st: State)
    requires ValidSetup(cfg) && Inv(cfg, st) && PaidIds(st.store.effects) <= DebitIds(st.debits)
    requires PaidOnceEach(cfg, st)
    ensures DebitedInB(cfg, st.debits) >= Owed(cfg.eligible) - DuplicatedOwed(cfg)
  {
    var bs := BDebits(cfg, st.debits);
    BDebitsExact(cfg, st.debits);
    forall e | e in cfg.planB ensures e in bs {
      var b :| 0 <= b < |cfg.planB| && cfg.planB[b] == e;
      BKeyPaid(cfg, st, b);
      BDebited(cfg, st, b);
    }
    PlanBDistinct(cfg);
    BDebitsPositive(cfg, st);
    SubsetSum(cfg.planB, bs);
    PlanSums(cfg);
  }

  lemma BKeyPaid(cfg: Setup, st: State, b: nat)
    requires ValidSetup(cfg) && PaidOnceEach(cfg, st) && b < |cfg.planB|
    ensures Payments(st.store.effects)[cfg.planB[b].key] == 1
  {
    PlansOwed(cfg);
    assert OwedEvent(cfg.eligible, cfg.planB[b]);
    var i :| 0 <= i < |cfg.eligible| && cfg.eligible[i].key == cfg.planB[b].key;
  }

  /** Once all is recorded, everybody paid once means that the duplicated amounts were that dear. */
  lemma PaidOnceNeedsDear(cfg: Setup, st: State)
    requires ValidSetup(cfg) && Inv(cfg, st) && Loose(cfg, st) && AllRecorded(st.store, Plan(cfg))
    requires PaidOnceEach(cfg, st)
    ensures AllDear(cfg)
  {
    AllOfBDebited(cfg, st);
    forall i | 0 <= i < |cfg.eligible| && KeyCount(cfg.planA, cfg.eligible[i].key) == 2
      ensures cfg.eligible[i].owed.amount > Owed(cfg.eligible) - DuplicatedOwed(cfg)
    {
      CopyRefused(cfg, st, i);
    }
  }

  // --- Every stored verdict ---------------------------------------------------------------------------------

  lemma RecordedFails(cfg: Setup, st: State)
    requires ValidSetup(cfg) && Inv(cfg, st) && Loose(cfg, st) && AllRecorded(st.store, Plan(cfg)) && !AllDear(cfg)
    ensures !Passes(cfg, st.store.effects)
  {
    if Passes(cfg, st.store.effects) {
      PaidOnceNeedsDear(cfg, st);
    }
  }

  predicate NotPassed(report: Option<Report>) {
    report.Some? ==> report.value.verdict == Fail
  }

  /** What was read, stored or put on the receipt says FAIL. */
  ghost predicate Failing(cfg: Setup, st: State) {
    && (st.stage.Evaluate? || st.stage.GenerateReceipt? ==> SeenFails(cfg, st.stage.at))
    && Unpassed(st.run)
  }

  ghost predicate SeenFails(cfg: Setup, at: Progress) {
    Seen(at).Some? ==> !Passes(cfg, Seen(at).value)
  }

  lemma RecountFails(cfg: Setup, effects: seq<Effect>, rows: seq<Delivery>)
    requires !Passes(cfg, effects)
    ensures var r := Recompute(cfg.eligible, effects, rows, cfg.budget, |Plan(cfg)|);
            r.Ok? ==> r.value.verdict == Fail
  {
    PassesIsVerdict(cfg, effects, rows);
  }

  /** What a task has seen afterwards: nothing, what it had seen, or the payments of this moment. */
  ghost predicate ReadsOn(at: Progress, effects: seq<Effect>, stage': Stage) {
    stage'.Evaluate? || stage'.GenerateReceipt? ==>
      Seen(stage'.at) == None || Seen(stage'.at) == Some(effects) || Seen(stage'.at) == Seen(at)
  }

  ghost predicate Unpassed(run: Run) {
    NotPassed(run.report) && NotPassed(run.receipt)
  }

  lemma EvaluateReads(cfg: Setup, st: State)
    requires st.stage.Evaluate? && Unpassed(st.run)
    requires st.stage.at.SawRows? ==>
               var r := Recompute(cfg.eligible, st.stage.at.effects, st.stage.at.rows, cfg.budget, |Plan(cfg)|);
               r.Ok? ==> r.value.verdict == Fail
    ensures ReadsOn(st.stage.at, st.store.effects, Do(cfg, st).stage) && Unpassed(Do(cfg, st).run)
  {
    var at := st.stage.at;
    if at.SawRows? {
      L.StoredReports(st.run, Recompute(cfg.eligible, at.effects, at.rows, cfg.budget, |Plan(cfg)|));
    }
  }

  lemma ReceiptReads(cfg: Setup, st: State)
    requires st.stage.GenerateReceipt? && Unpassed(st.run)
    requires st.stage.at.SawRows? ==>
               var r := Recompute(cfg.eligible, st.stage.at.effects, st.stage.at.rows, cfg.budget, |Plan(cfg)|);
               r.Ok? ==> r.value.verdict == Fail
    ensures ReadsOn(st.stage.at, st.store.effects, Do(cfg, st).stage) && Unpassed(Do(cfg, st).run)
  {
    var at := st.stage.at;
    if at.SawRows? {
      L.StoredReports(st.run, Recompute(cfg.eligible, at.effects, at.rows, cfg.budget, |Plan(cfg)|));
    }
  }

  lemma ReadsFailing(cfg: Setup, st: State, st': State)
    requires (st.stage.Evaluate? || st.stage.GenerateReceipt?) && SeenFails(cfg, st.stage.at)
    requires !Passes(cfg, st.store.effects) && ReadsOn(st.stage.at, st.store.effects, st'.stage) && Unpassed(st'.run)
    ensures Failing(cfg, st')
  {
  }

  lemma ReadNext(cfg: Setup, st: State)
    requires (st.stage.Evaluate? || st.stage.GenerateReceipt?) && Unpassed(st.run) && SeenFails(cfg, st.stage.at)
    ensures ReadsOn(st.stage.at, st.store.effects, Do(cfg, st).stage) && Unpassed(Do(cfg, st).run)
  {
    var at := st.stage.at;
    if at.SawRows? {
      RecountFails(cfg, at.effects, at.rows);
    }
    if st.stage.Evaluate? {
      EvaluateReads(cfg, st);
    } else {
      ReceiptReads(cfg, st);
    }
  }

  lemma TaskFails(cfg: Setup, st: State)
    requires Unpassed(st.run) && !st.stage.Evaluate? && !st.stage.GenerateReceipt?
    ensures Failing(cfg, Do(cfg, st))
  {
    L.TaskReports(cfg, st);
  }

  lemma DoFailing(cfg: Setup, st: State)
    requires ValidSetup(cfg) && Inv(cfg, st) && Loose(cfg, st) && !AllDear(cfg) && Failing(cfg, st)
    ensures Failing(cfg, Do(cfg, st))
  {
    if st.stage.Evaluate? || st.stage.GenerateReceipt? {
      RecordedFails(cfg, st);
      ReadNext(cfg, st);
      ReadsFailing(cfg, st, Do(cfg, st));
    } else {
      TaskFails(cfg, st);
    }
  }

  lemma MoveFailing(cfg: Setup, st: State, m: Move)
    requires Failing(cfg, st) && Failing(cfg, Do(cfg, st))
    ensures Failing(cfg, Moved(cfg, st, m))
  {
  }

  lemma StepFailing(cfg: Setup, st: State, l: Label)
    requires ValidSetup(cfg) && Inv(cfg, st) && Loose(cfg, st) && !AllDear(cfg) && Failing(cfg, st)
    requires Enabled(cfg, st, l)
    ensures Failing(cfg, Step(cfg, st, l))
  {
    match l
    case Task(m) => DoFailing(cfg, st); MoveFailing(cfg, st, m);
    case StartReturns(raised) => L.StartReturnsKeeps(cfg, st, raised);
    case _ => L.WorkersLeaveTask(cfg, st, l);
  }

  lemma {:induction false} RunLoose(cfg: Setup, states: seq<State>, labels: seq<Label>, n: nat)
    requires ValidSetup(cfg) && cfg.processor == Vulnerable && IsRun(cfg, states, labels) && n < |states|
    ensures Inv(cfg, states[n]) && Loose(cfg, states[n])
  {
    RunInv(cfg, states, labels, n);
    if n > 0 {
      RunLoose(cfg, states, labels, n - 1);
      StepLoose(cfg, states[n - 1], labels[n - 1]);
    }
  }

  lemma {:induction false} RunFailing(cfg: Setup, states: seq<State>, labels: seq<Label>, n: nat)
    requires ValidSetup(cfg) && cfg.processor == Vulnerable && !AllDear(cfg) && IsRun(cfg, states, labels)
    requires n < |states|
    ensures Failing(cfg, states[n])
  {
    if n > 0 {
      RunFailing(cfg, states, labels, n - 1);
      RunLoose(cfg, states, labels, n - 1);
      StepFailing(cfg, states[n - 1], labels[n - 1]);
    }
  }

  /**
   Any run of the vulnerable processor, with crashes and overlapping attempts: a stored verdict or a
   receipt can say PASS only if every duplicated entitlement owes more than all of Phase B.
   */
  lemma AnyRunNeedsDear(cfg: Setup, states: seq<State>, labels: seq<Label>, n: nat)
    requires ValidSetup(cfg) && cfg.processor == Vulnerable && IsRun(cfg, states, labels) && n < |states|
    ensures !AllDear(cfg) ==> NotPassed(states[n].run.report) && NotPassed(states[n].run.receipt)
    ensures !AllDear(cfg) && AllRecorded(states[n].store, Plan(cfg)) ==> !Passes(cfg, states[n].store.effects)
  {
    if !AllDear(cfg) {
      RunFailing(cfg, states, labels, n);
      RunLoose(cfg, states, labels, n);
      if AllRecorded(states[n].store, Plan(cfg)) {
        RecordedFails(cfg, states[n]);
      }
    }
  }

  lemma SomeDuplicate(cfg: Setup) returns (i: nat)
    requires ValidSetup(cfg) && DuplicateCount(cfg) >= 1
    ensures i < |cfg.eligible| && KeyCount(cfg.planA, cfg.eligible[i].key) == 2
  {
    var a := multiset(EventKeys(cfg.planA));
    KeysInExact(cfg.eligible, a, MoreThanOnce);
    var k := KeysIn(cfg.eligible, a, MoreThanOnce)[0];
    assert k in KeysIn(cfg.eligible, a, MoreThanOnce);
    i :| 0 <= i < |cfg.eligible| && cfg.eligible[i].key == k;
    assert Covered(cfg, k);
  }

  lemma OneIsNoMore(amount: int, d: int, n: int)
    requires amount >= 1 && d < n
    ensures amount <= amount * n - amount * d
  {
    assert amount * n - amount * d == amount * (n - d);
    C.Scale(amount, 1, n - d);
  }

  /** With equal amounts no entitlement is that dear, unless everybody is duplicated or nobody is. */
  lemma EqualIsNotDear(cfg: Setup, amount: int)
    requires ValidSetup(cfg) && amount >= 1 && C.EqualAmounts(cfg.eligible, amount)
    requires 1 <= DuplicateCount(cfg) < |cfg.eligible|
    ensures !AllDear(cfg)
  {
    var i := SomeDuplicate(cfg);
    C.DuplicatedIsEqual(cfg, amount);
    C.EqualSums(cfg.eligible, multiset{}, amount);
    OneIsNoMore(amount, DuplicateCount(cfg), |cfg.eligible|);
  }

  /** So with equal amounts every run of the vulnerable processor that stores a verdict stores FAIL. */
  lemma EqualAmountsAlwaysFail(cfg: Setup, amount: int, states: seq<State>, labels: seq<Label>, n: nat)
    requires ValidSetup(cfg) && cfg.processor == Vulnerable && IsRun(cfg, states, labels) && n < |states|
    requires amount >= 1 && C.EqualAmounts(cfg.eligible, amount) && 1 <= DuplicateCount(cfg) < |cfg.eligible|
    ensures NotPassed(states[n].run.report) && NotPassed(states[n].run.receipt)
  {
    EqualIsNotDear(cfg, amount);
    AnyRunNeedsDear(cfg, states, labels, n);
  }
}
