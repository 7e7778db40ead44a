/**
 "UNPAID is only shown when it is certain" (backend/src/domain/student_state.py), for the vulnerable
 processor: exactly when a run may show a student as UNPAID early and still pay them afterwards.
 */
module EarlyUnpaid {
  import opened Domain
  import opened Accounts
  import opened Storage
  import opened Machine
  import opened Protocol
  import opened Invariants
  import opened StudentState
  import opened Reach
  import opened RetryWave
  import opened Waves
  import V = VulnerableRun
  import W = VulnerableVerdict

  /** The grid says UNPAID before the run is evaluated, and the student is paid later. */
  ghost predicate UnpaidThenPaid(states: seq<State>, m: nat, n: nat, k: Key) {
    && m <= n < |states|
    && StateOf(states[m].store.effects, states[m].store.rows, k, false) == Unpaid
    && Payments(states[n].store.effects)[k] > 0
  }

  // --- Carefully handled deliveries: never, when the retry wave fits -----------------------------------

  /** While the retry wave fits, a student who is shown as UNPAID has no payment on the way. */
  lemma NotOnTheWay(cfg: Setup, st: State, k: Key)
    requires ValidSetup(cfg) && Inv(cfg, st) && V.Orderly(cfg, st) && V.NoRefusalInA(cfg, st)
    requires Rejected(st.store.rows, k)
    ensures !InFlight(st.workers, k)
  {
    var e := RefusedInB(cfg, st, k);
    forall i | 0 <= i < |st.workers| ensures !(st.workers[i].pc.PutEffectPc? && st.workers[i].event.key == k) {
      var w := st.workers[i];
      assert V.WorkerOk(cfg, st, w);
      if w.pc.PutEffectPc? && w.event.key == k {
        assert w.event in Plan(cfg);
        W.OnlyDelivery(cfg, w.event, e);
      }
    }
  }

  /** A refusal is of the single delivery of the second phase, which is then recorded. */
  lemma RefusedInB(cfg: Setup, st: State, k: Key) returns (e: Event)
    requires ValidSetup(cfg) && Inv(cfg, st) && V.NoRefusalInA(cfg, st) && Rejected(st.store.rows, k)
    ensures e in cfg.planB && e.key == k && Recorded(st.store, e.deliveryId)
  {
    var r :| 0 <= r < |st.store.rows| && st.store.rows[r].key == k && st.store.rows[r].outcome == BudgetExhausted;
    var row := st.store.rows[r];
    assert V.IsPlannedB(cfg, row.deliveryId) && RowFrom(st.sent, row);
    var sent :| sent in st.sent && sent.deliveryId == row.deliveryId && sent.key == row.key;
    e :| e in cfg.planB && e.deliveryId == row.deliveryId;
    W.SameId(cfg, sent, e);
  }

  /** So a careful run keeps the promise whenever the retry wave fits: for equal amounts, always. */
  lemma CarefulUnpaidIsCertain(cfg: Setup, states: seq<State>, labels: seq<Label>, m: nat, n: nat, k: Key)
    requires ValidSetup(cfg) && cfg.processor == Vulnerable && V.RetryWaveFits(cfg)
    requires V.IsCarefulRun(cfg, states, labels) && m <= n < |states|
    requires StateOf(states[m].store.effects, states[m].store.rows, k, false) == Unpaid
    ensures StateOf(states[n].store.effects, states[n].store.rows, k, false) == Unpaid
  {
    CertainHere(cfg, states, labels, m, k);
    CertainAfter(cfg, states, labels, m, n, k);
  }

  lemma CertainHere(cfg: Setup, states: seq<State>, labels: seq<Label>, m: nat, k: Key)
    requires ValidSetup(cfg) && cfg.processor == Vulnerable && V.RetryWaveFits(cfg)
    requires V.IsCarefulRun(cfg, states, labels) && m < |states|
    requires StateOf(states[m].store.effects, states[m].store.rows, k, false) == Unpaid
    ensures Certain(cfg, states[m], k)
  {
    RunTooPoor(cfg, states, labels, m);
    V.RunOrderly(cfg, states, labels, m);
    V.RunNoRefusal(cfg, states, labels, m);
    NotOnTheWay(cfg, states[m], k);
  }

  // --- When it does not fit: the first copy in flight, the second refused ------------------------------------

  function Holders(events: seq<Event>): seq<Worker> {
    seq(|events|, i requires 0 <= i < |events| => Holder(events[i], i))
  }

  /** Phase A with these deliveries debited, and nothing else done. */
  function AllDebited(cfg: Setup, wave: State, events: seq<Event>): State {
    wave.(store := Fresh(cfg.budget - Sum(EventAmounts(events))), workers := Holders(events), debits := events)
  }

  lemma StillFree(events: seq<Event>, e: Event)
    requires DistinctIds(events + [e])
    ensures Free(Holders(events), e.deliveryId)
  {
    forall i | 0 <= i < |events| ensures events[i].deliveryId != e.deliveryId {
      assert (events + [e])[i] == events[i] && (events + [e])[|events|] == e;
    }
  }

  lemma OneMoreDebited(cfg: Setup, wave: State, events: seq<Event>, e: Event)
    ensures var st := AllDebited(cfg, wave, events);
            AllDebited(cfg, wave, events + [e])
            == st.(store := WithDebit(st.store, e.amount), debits := events + [e],
                   workers := st.workers + [Holder(e, |st.workers|)])
  {
    DebitedAppend(events, e);
    assert Holders(events + [e]) == Holders(events) + [Holder(e, |events|)];
  }

  /** Planned for Phase A, under distinct ids. */
  ghost predicate OfPhaseA(cfg: Setup, events: seq<Event>) {
    DistinctIds(events) && forall e :: e in events ==> e in cfg.planA && e.amount >= 1
  }

  /** A wave that fits is debited delivery by delivery, none of them paid yet. */
  lemma {:induction false} DebitWave(cfg: Setup, wave: State, events: seq<Event>)
    requires ValidSetup(cfg) && cfg.processor == Vulnerable
    requires CanReach(cfg, true, Init(cfg), wave) && PhaseASent(cfg, wave)
    requires OfPhaseA(cfg, events) && Sum(EventAmounts(events)) <= cfg.budget
    ensures CanReach(cfg, true, Init(cfg), AllDebited(cfg, wave, events))
    decreases |events|
  {
    if events == [] {
      assert EventAmounts([]) == [] && Holders([]) == [];
    } else {
      var n := |events| - 1;
      var front, e := events[..n], events[n];
      assert events == front + [e];
      DebitedAppend(front, e);
      DebitWave(cfg, wave, front);
      DebitNext(cfg, wave, front, e);
    }
  }

  lemma DebitNext(cfg: Setup, wave: State, events: seq<Event>, e: Event)
    requires ValidSetup(cfg) && cfg.processor == Vulnerable && e in wave.sent
    requires CanReach(cfg, true, Init(cfg), AllDebited(cfg, wave, events))
    requires DistinctIds(events + [e]) && Sum(EventAmounts(events)) + e.amount <= cfg.budget
    ensures CanReach(cfg, true, Init(cfg), AllDebited(cfg, wave, events + [e]))
  {
    InitInv(cfg);
    StillFree(events, e);
    OneMoreDebited(cfg, wave, events, e);
    var st' := DebitOne(cfg, true, Init(cfg), AllDebited(cfg, wave, events), e);
  }

  lemma {:induction false} FirstTooDear(events: seq<Event>, budget: int) returns (j: nat)
    requires 0 <= budget < Sum(EventAmounts(events))
    ensures j < |events|
    ensures Sum(EventAmounts(events[..j])) <= budget < Sum(EventAmounts(events[..j])) + events[j].amount
  {
    assert events != [] by { assert EventAmounts([]) == []; }
    var n := |events| - 1;
    assert events == events[..n] + [events[n]];
    DebitedAppend(events[..n], events[n]);
    if Sum(EventAmounts(events[..n])) <= budget {
      j := n;
    } else {
      j := FirstTooDear(events[..n], budget);
      assert events[..n][..j] == events[..j];
    }
  }

  /** Where the wave breaks, the refused delivery is a second copy whose first copy is in flight. */
  lemma WhereItBreaks(cfg: Setup) returns (front: seq<Event>, e: Event, f: nat)
    requires ValidSetup(cfg) && FullBudget(cfg) && !V.RetryWaveFits(cfg)
    ensures OfPhaseA(cfg, front + [e]) && f < |front| && front[f].key == e.key
    ensures Sum(EventAmounts(front)) <= cfg.budget < Sum(EventAmounts(front)) + e.amount
  {
    var firsts, seconds := Firsts(cfg.planA), Seconds(cfg.planA);
    var order := firsts + seconds;
    WavesOfPlan(cfg);
    WaveSums(cfg);
    V.EventsConcat(firsts, seconds);
    var j := FirstTooDear(order, cfg.budget);
    front, e := order[..j], order[j];
    assert front + [e] == order[..j + 1];
    f := FirstInFront(cfg, j);
  }

  lemma FrontOfPhaseA(cfg: Setup, front: seq<Event>, e: Event)
    requires OfPhaseA(cfg, front + [e])
    ensures OfPhaseA(cfg, front) && e in cfg.planA
  {
    var all := front + [e];
    assert all[..|front|] == front && all[|front|] == e;
    assert forall i :: 0 <= i < |front| ==> all[i] == front[i];
  }

  lemma FirstInFront(cfg: Setup, j: nat) returns (f: nat)
    requires ValidSetup(cfg) && FullBudget(cfg)
    requires var order := Firsts(cfg.planA) + Seconds(cfg.planA);
             j < |order| && cfg.budget < Sum(EventAmounts(order[..j])) + order[j].amount
    ensures var order := Firsts(cfg.planA) + Seconds(cfg.planA);
            f < j && order[f].key == order[j].key
  {
    var firsts, seconds := Firsts(cfg.planA), Seconds(cfg.planA);
    var order := firsts + seconds;
    FirstsFit(cfg);
    WavesOfPlan(cfg);
    assert forall e :: e in firsts ==> e in order;
    if j < |firsts| {
      FirstsFitEach(firsts, seconds, j);
      assert false;
    } else {
      assert order[j] == seconds[j - |firsts|];
      f := HasFirst(cfg.planA, order[j]);
      assert order[f] == firsts[f];
    }
  }

  lemma FirstsFitEach(firsts: seq<Event>, seconds: seq<Event>, j: nat)
    requires j < |firsts| && forall e :: e in firsts ==> e.amount >= 0
    ensures Sum(EventAmounts((firsts + seconds)[..j])) + (firsts + seconds)[j].amount <= Sum(EventAmounts(firsts))
  {
    assert (firsts + seconds)[..j] == firsts[..j];
    PrefixSums(firsts, j);
  }

  /** A refused delivery, with all the others still unpaid, shows its student as UNPAID. */
  lemma RefusedShows(cfg: Setup, debited: State, e: Event, f: nat) returns (early: State)
    requires ValidSetup(cfg) && cfg.processor == Vulnerable && CanReach(cfg, true, Init(cfg), debited)
    requires debited.store == Fresh(debited.store.remaining) && debited.store.remaining < e.amount
    requires e in debited.sent && Free(debited.workers, e.deliveryId) && f < |debited.workers|
    ensures CanReach(cfg, true, Init(cfg), early) && f < |early.workers| && early.workers[f] == debited.workers[f]
    ensures StateOf(early.store.effects, early.store.rows, e.key, false) == Unpaid
  {
    InitInv(cfg);
    early := RefuseOne(cfg, true, Init(cfg), debited, e);
    assert early.store.rows == [RefusedRow(e, debited.store.remaining)] && early.store.rows[0].key == e.key;
    assert EffectKeys([]) == [];
    assert early.workers[f] == early.workers[..|debited.workers|][f];
  }

  /** The early UNPAID, and the payment that follows. */
  lemma BreakShows(cfg: Setup, wave: State) returns (early: State, late: State, k: Key)
    requires ValidSetup(cfg) && FullBudget(cfg) && cfg.processor == Vulnerable && !V.RetryWaveFits(cfg)
    requires CanReach(cfg, true, Init(cfg), wave) && PhaseASent(cfg, wave)
    ensures CanReach(cfg, true, Init(cfg), early) && CanReach(cfg, true, early, late)
    ensures StateOf(early.store.effects, early.store.rows, k, false) == Unpaid
    ensures Payments(late.store.effects)[k] > 0
  {
    var front, e, f := WhereItBreaks(cfg);
    k := e.key;
    FrontOfPhaseA(cfg, front, e);
    DebitWave(cfg, wave, front);
    StillFree(front, e);
    early := RefusedShows(cfg, AllDebited(cfg, wave, front), e, f);
    late := ThenPaid(cfg, early, f, k);
  }

  lemma ThenPaid(cfg: Setup, early: State, f: nat, k: Key) returns (late: State)
    requires ValidSetup(cfg) && cfg.processor == Vulnerable && CanReach(cfg, true, Init(cfg), early)
    requires f < |early.workers| && early.workers[f].pc.PutEffectPc? && early.workers[f].event.key == k
    ensures CanReach(cfg, true, early, late) && Payments(late.store.effects)[k] > 0
  {
    InitInv(cfg);
    InvAt(cfg, true, Init(cfg), early);
    ReachItself(cfg, true, early);
    late := PayOne(cfg, true, early, early, f);
    SpentAppend(early.store.effects, EffectFor(early.workers[f].event, early.workers[f].effectId));
  }

  lemma CarefulWitness(cfg: Setup) returns (states: seq<State>, labels: seq<Label>, m: nat, n: nat, k: Key)
    requires ValidSetup(cfg) && FullBudget(cfg) && cfg.processor == Vulnerable && !V.RetryWaveFits(cfg)
    ensures V.IsCarefulRun(cfg, states, labels) && UnpaidThenPaid(states, m, n, k)
  {
    var wave := OpenPhaseA(cfg, true);
    var early, late;
    early, late, k := BreakShows(cfg, wave);
    states, labels := RunTo(cfg, true, [Init(cfg)], [], early);
    m := |labels|;
    var longer, more := RunTo(cfg, true, states, labels, late);
    assert longer[m] == states[m];
    states, labels := longer, more;
    n := |labels|;
  }

  /**
   Exactly when a careful vulnerable run can break the promise: when the retry wave does not fit
   the budget. With equal amounts and D at most N / 2 it always fits, so there it is kept.
   */
  lemma EarlyUnpaidIff(cfg: Setup)
    requires ValidSetup(cfg) && FullBudget(cfg) && cfg.processor == Vulnerable
    ensures (exists states: seq<State>, labels: seq<Label>, m: nat, n: nat, k: Key ::
               V.IsCarefulRun(cfg, states, labels) && UnpaidThenPaid(states, m, n, k))
            <==> !V.RetryWaveFits(cfg)
  {
    if V.RetryWaveFits(cfg) {
      forall states: seq<State>, labels: seq<Label>, m: nat, n: nat, k: Key
        | V.IsCarefulRun(cfg, states, labels) && UnpaidThenPaid(states, m, n, k)
        ensures false
      {
        CarefulUnpaidIsCertain(cfg, states, labels, m, n, k);
      }
    } else {
      var states, labels, m, n, k := CarefulWitness(cfg);
    }
  }

  // --- Overlapping attempts: always --------------------------------------------------------------------------

  /** Attempts on one delivery, all debited and none of them paid, until the budget does not cover another. */
  lemma {:induction false} Overlap(cfg: Setup, start: State, st: State, e: Event) returns (st': State)
    requires Known(cfg, start) && cfg.processor == Vulnerable && CanReach(cfg, false, start, st)
    requires e in st.sent && e.amount >= 1 && st.store.runExists && st.store.rows == [] && st.store.effects == []
    requires if st.workers == [] then st.store.remaining >= e.amount else st.workers[0] == Holder(e, 0)
    ensures CanReach(cfg, false, start, st') && Waits(st, st') && st'.store.runExists
    ensures st'.store.rows == [] && st'.store.effects == [] && 0 <= st'.store.remaining < e.amount
    ensures st'.workers != [] && st'.workers[0] == Holder(e, 0)
    decreases st.store.remaining
  {
    InvAt(cfg, false, start, st);
    if st.store.remaining < e.amount {
      st' := st;
    } else {
      var next := DebitOne(cfg, false, start, st, e);
      assert next.workers[0] == Holder(e, 0);
      st' := Overlap(cfg, start, next, e);
    }
  }

  /**
   Without care the promise can be broken in every experiment: overlapping attempts on one delivery
   use up the budget, the next one is refused and recorded, and then the first one pays.
   */
  lemma OverlapWitness(cfg: Setup) returns (states: seq<State>, labels: seq<Label>, m: nat, n: nat, k: Key)
    requires ValidSetup(cfg) && FullBudget(cfg) && cfg.processor == Vulnerable && DuplicateCount(cfg) >= 1
    ensures IsRun(cfg, states, labels) && UnpaidThenPaid(states, m, n, k)
  {
    var init := Init(cfg);
    var early, late;
    early, late, k := OverlapShows(cfg);
    states, labels := RunTo(cfg, false, [init], [], early);
    m := |labels|;
    var longer, more := RunTo(cfg, false, states, labels, late);
    assert longer[m] == states[m];
    states, labels := longer, more;
    n := |labels|;
  }

  lemma OverlapShows(cfg: Setup) returns (early: State, late: State, k: Key)
    requires ValidSetup(cfg) && FullBudget(cfg) && cfg.processor == Vulnerable && DuplicateCount(cfg) >= 1
    ensures CanReach(cfg, false, Init(cfg), early) && CanReach(cfg, false, early, late)
    ensures StateOf(early.store.effects, early.store.rows, k, false) == Unpaid
    ensures Payments(late.store.effects)[k] > 0
  {
    var init := Init(cfg);
    InitInv(cfg);
    var wave := OpenPhaseA(cfg, false);
    var e := AffordableDelivery(cfg);
    k := e.key;
    var full := Overlap(cfg, init, wave, e);
    early := RefuseOne(cfg, false, init, full, e);
    assert early.store.rows == [RefusedRow(e, full.store.remaining)] && early.store.rows[0].key == k;
    assert early.store.effects == [] && EffectKeys([]) == [];
    assert early.workers[0] == early.workers[..|full.workers|][0] == full.workers[0];
    InvAt(cfg, false, init, early);
    ReachItself(cfg, false, early);
    late := PayOne(cfg, false, early, early, 0);
    SpentAppend(early.store.effects, EffectFor(e, 0));
  }

  /** Phase A has a delivery, and the budget covers it once. */
  lemma AffordableDelivery(cfg: Setup) returns (e: Event)
    requires ValidSetup(cfg) && FullBudget(cfg) && DuplicateCount(cfg) >= 1
    ensures e in cfg.planA && 1 <= e.amount <= cfg.budget
  {
    PlanSizes(cfg);
    e := cfg.planA[0];
    WavesOfPlan(cfg);
    FirstsFit(cfg);
    WavesHold(cfg.planA);
    assert e in cfg.planA;
    FirstIsFirst(cfg.planA);
    var firsts := Firsts(cfg.planA);
    assert forall x :: x in firsts ==> x in cfg.planA;
    PrefixSums(firsts, 0);
    assert EventAmounts(firsts[..0]) == [];
  }

  lemma {:induction false} FirstIsFirst(events: seq<Event>)
    requires events != []
    ensures Firsts(events) != [] && Firsts(events)[0] == events[0]
  {
    if |events| > 1 {
      FirstIsFirst(events[..|events| - 1]);
    } else {
      assert EventKeys(events[..0]) == [] && Firsts(events[..0]) == [];
    }
  }
}
