/**
 The Race Lab (backend/src/services/race_service.py, backend/statemachine/race_workflow.asl.json):
 `copies` deliveries of one entitlement, at most `concurrency` of them in flight, each
 handled by the check-then-write processor of backend/src/processors/naive.py.
 */
module NaiveRace {
  import opened Domain
  import opened Storage
  import opened Machine
  import opened Evaluator

  /** `copies` carry distinct delivery IDs, one key and one amount; the budget pays for all of them. */
  datatype Race = Race(copies: seq<Event>, key: Key, amount: int, concurrency: nat, maxAttempts: nat)

  datatype RaceState = RaceState(store: Store, workers: seq<Worker>)

  datatype RaceLabel = Launch | Go(worker: nat, reply: Reply)

  ghost predicate ValidRace(race: Race) {
    && race.amount >= 1 && race.maxAttempts >= 1
    && (forall i :: 0 <= i < |race.copies| ==> race.copies[i].key == race.key && race.copies[i].amount == race.amount)
    && (forall i, j :: 0 <= i < j < |race.copies| ==> race.copies[i].deliveryId != race.copies[j].deliveryId)
  }

  function StartRace(race: Race): RaceState {
    RaceState(Fresh(|race.copies| * race.amount), [])
  }

  function CountPc(workers: seq<Worker>, p: Pc -> bool): nat {
    if workers == [] then 0
    else CountPc(workers[..|workers| - 1], p) + (if p(workers[|workers| - 1].pc) then 1 else 0)
  }

  predicate LivePc(pc: Pc) { !pc.DonePc? && !pc.VanishedPc? }

  /** Passed the check: read the idempotency record and found nothing. */
  predicate PassedPc(pc: Pc) {
    pc.DebitPc? || DebitedPc(pc)
  }

  predicate DebitedPc(pc: Pc) {
    pc.PutEffectPc? || PaidPc(pc)
  }

  predicate PaidPc(pc: Pc) {
    pc.PutClaimPc? || ClaimedPc(pc)
  }

  predicate ClaimedPc(pc: Pc) {
    (pc.RecordPc? && pc.outcome == Committed) || pc == DonePc(Decided(Committed))
  }

  predicate SuppressedPc(pc: Pc) {
    (pc.RecordPc? && pc.outcome == DuplicateSuppressed) || pc == DonePc(Decided(DuplicateSuppressed))
  }

  predicate DonePlaced(pc: Pc) {
    pc.DonePc?
  }

  /** One more copy starts only while fewer than `concurrency` are in flight; nobody fails. */
  predicate RaceEnabled(race: Race, st: RaceState, l: RaceLabel) {
    match l
    case Launch => |st.workers| < |race.copies| && CountPc(st.workers, LivePc) < race.concurrency
    case Go(i, r) =>
      && i < |st.workers| && Live(st.workers[i]) && Possible(st.store, st.workers[i], r, false)
      && !WorkerAfter(race.maxAttempts, Naive, st.store, st.workers[i], r).pc.VanishedPc?
  }

  function RaceStep(race: Race, st: RaceState, l: RaceLabel): RaceState
    requires RaceEnabled(race, st, l)
  {
    match l
    case Launch => st.(workers := st.workers + [Start(Naive, race.copies[|st.workers|], |st.workers|)])
    case Go(i, r) =>
      RaceState(StoreAfter(st.store, st.workers[i], r),
                st.workers[i := WorkerAfter(race.maxAttempts, Naive, st.store, st.workers[i], r)])
  }

  ghost predicate IsRace(race: Race, states: seq<RaceState>, labels: seq<RaceLabel>) {
    && |states| == |labels| + 1
    && states[0] == StartRace(race)
    && forall i :: 0 <= i < |labels| ==>
         RaceEnabled(race, states[i], labels[i]) && states[i + 1] == RaceStep(race, states[i], labels[i])
  }

  predicate Finished(race: Race, st: RaceState) {
    |st.workers| == |race.copies| && forall i | 0 <= i < |st.workers| :: st.workers[i].pc.DonePc?
  }

  // --- Counting -----------------------------------------------------------------------------

  lemma CountAppended(workers: seq<Worker>, w: Worker, p: Pc -> bool)
    ensures CountPc(workers + [w], p) == CountPc(workers, p) + (if p(w.pc) then 1 else 0)
  {
    assert (workers + [w])[..|workers|] == workers;
  }

  lemma {:induction false} CountUpdated(workers: seq<Worker>, i: nat, w: Worker, p: Pc -> bool)
    requires i < |workers|
    ensures CountPc(workers[i := w], p)
            == CountPc(workers, p) - (if p(workers[i].pc) then 1 else 0) + (if p(w.pc) then 1 else 0)
  {
    var n := |workers| - 1;
    if i < n {
      CountUpdated(workers[..n], i, w, p);
      assert workers[i := w][..n] == workers[..n][i := w];
    } else {
      assert workers[i := w][..n] == workers[..n];
    }
  }

  lemma {:induction false} CountMonotone(workers: seq<Worker>, p: Pc -> bool, q: Pc -> bool)
    requires forall i :: 0 <= i < |workers| && p(workers[i].pc) ==> q(workers[i].pc)
    ensures CountPc(workers, p) <= CountPc(workers, q) <= |workers|
  {
    if workers != [] {
      CountMonotone(workers[..|workers| - 1], p, q);
    }
  }

  lemma {:induction false} CountStrict(workers: seq<Worker>, p: Pc -> bool, i: nat)
    requires i < |workers| && !p(workers[i].pc)
    ensures CountPc(workers, p) < |workers|
  {
    var n := |workers| - 1;
    CountMonotone(workers[..n], p, p);
    if i < n {
      CountStrict(workers[..n], p, i);
    }
  }

  lemma {:induction false} CountSome(workers: seq<Worker>, p: Pc -> bool, i: nat)
    requires i < |workers| && p(workers[i].pc)
    ensures CountPc(workers, p) >= 1
  {
    var n := |workers| - 1;
    if i < n {
      CountSome(workers[..n], p, i);
    }
  }

  // --- The invariant --------------------------------------------------------------------------

  ghost predicate RaceWorkerOk(race: Race, s: Store, i: nat, w: Worker) {
    && i < |race.copies| && w.event == race.copies[i]
    && (Recorded(s, w.event.deliveryId) <==> w.pc.DonePc?)
    && (match w.pc
        case CheckDeliveryPc => true
        case CheckClaimPc => true
        case DebitPc => true
        case PutEffectPc => true
        case PutClaimPc => true
        case RecordPc(o, _, _) => o != BudgetExhausted
        case DonePc(status) => status != AlreadyProcessed && status != Decided(BudgetExhausted)
        case _ => false)
    && (ClaimedPc(w.pc) ==> race.key in s.claims)
    && (SuppressedPc(w.pc) ==> race.key in s.claims)
    && (race.key !in s.claims && PassedPc(w.pc) ==> LivePc(w.pc))
  }

  /** What the budget holds after so many debits. */
  function LeftAfter(race: Race, debits: nat): int {
    if debits == 0 then |race.copies| * race.amount else LeftAfter(race, debits - 1) - race.amount
  }

  lemma {:induction false} LeftAfterIs(race: Race, debits: nat)
    ensures LeftAfter(race, debits) == race.amount * (|race.copies| - debits)
  {
    if debits > 0 {
      LeftAfterIs(race, debits - 1);
      OneLess(race.amount, |race.copies| - (debits - 1));
    }
  }

  lemma OneLess(amount: int, left: int)
    ensures amount * (left - 1) == amount * left - amount
  {
  }

  lemma LeftIsEnough(race: Race, debits: nat)
    requires race.amount >= 1 && debits < |race.copies|
    ensures LeftAfter(race, debits) >= race.amount
  {
    LeftAfterIs(race, debits);
    AtLeastOne(race.amount, |race.copies| - debits);
  }

  ghost predicate RaceInv(race: Race, st: RaceState) {
    && st.store.runExists
    && |st.workers| <= |race.copies|
    && (forall i :: 0 <= i < |st.workers| ==> RaceWorkerOk(race, st.store, i, st.workers[i]))
    && (race.key in st.store.claims ==> CountPc(st.workers, ClaimedPc) >= 1)
    && CountPc(st.workers, LivePc) <= race.concurrency
    && CountPc(st.workers, PassedPc) <= race.concurrency
    && |st.store.effects| == CountPc(st.workers, PaidPc)
    && |st.store.rows| == CountPc(st.workers, DonePlaced)
    && st.store.remaining == LeftAfter(race, CountPc(st.workers, DebitedPc))
    && (forall i :: 0 <= i < |st.store.rows| ==>
          exists j :: 0 <= j < |st.workers| && race.copies[j].deliveryId == st.store.rows[i].deliveryId)
  }

  lemma EnoughForAnother(race: Race, st: RaceState, i: nat)
    requires ValidRace(race) && RaceInv(race, st) && i < |st.workers| && !DebitedPc(st.workers[i].pc)
    ensures CanDebit(st.store, race.amount)
  {
    CountStrict(st.workers, DebitedPc, i);
    LeftIsEnough(race, CountPc(st.workers, DebitedPc));
  }

  lemma AtLeastOne(amount: int, left: int)
    requires amount >= 1 && left >= 1
    ensures amount * left >= amount
  {
    assert amount * left == amount + amount * (left - 1);
    assert amount * (left - 1) >= 0;
  }

  lemma RecordedAfterRow(s: Store, s': Store, row: Delivery, id: DeliveryId)
    requires s'.rows == s.rows + [row]
    ensures Recorded(s', id) <==> Recorded(s, id) || id == row.deliveryId
  {
    if Recorded(s, id) {
      var i :| 0 <= i < |s.rows| && s.rows[i].deliveryId == id;
      assert s'.rows[i] == s.rows[i];
    }
    if Recorded(s', id) {
      var i :| 0 <= i < |s'.rows| && s'.rows[i].deliveryId == id;
      assert i < |s.rows| ==> s'.rows[i] == s.rows[i];
    }
    assert s'.rows[|s.rows|] == row;
  }

  /** The worker's own next place, and what its request does to the tables. */
  ghost predicate RaceMove(s: Store, s': Store, w: Worker, w': Worker) {
    && w'.event == w.event
    && s'.runExists == s.runExists
    && (match w.pc
        case CheckDeliveryPc => s' == s && w'.pc == CheckClaimPc
        case CheckClaimPc =>
          s' == s && (if w.event.key in s.claims then SuppressedPc(w'.pc) && w'.pc.RecordPc? else w'.pc.DebitPc?)
        case DebitPc => (s' == s && w'.pc.DebitPc?) || (s' == WithDebit(s, w.event.amount) && w'.pc.PutEffectPc?)
        case PutEffectPc => s' == WithEffect(s, EffectFor(w.event, w.effectId)) && w'.pc.PutClaimPc?
        case PutClaimPc =>
          s' == WithClaim(s, EffectFor(w.event, w.effectId)) && w'.pc.RecordPc? && w'.pc.outcome == Committed
        case RecordPc(o, _, _) =>
          (s' == s && w'.pc == w.pc) || (s' == WithRow(s, RowOf(w)) && w'.pc == DonePc(Decided(o)))
        case _ => false)
  }

  lemma GoMoves(race: Race, st: RaceState, i: nat, r: Reply)
    requires ValidRace(race) && RaceInv(race, st) && RaceEnabled(race, st, Go(i, r))
    ensures var st' := RaceStep(race, st, Go(i, r));
            RaceMove(st.store, st'.store, st.workers[i], st'.workers[i])
  {
    var w := st.workers[i];
    assert RaceWorkerOk(race, st.store, i, w);
    if w.pc.DebitPc? {
      EnoughForAnother(race, st, i);
    }
    if w.pc.RecordPc? {
      SoundRecordAnswer(st.store, w.event.deliveryId, r);
    }
  }

  lemma MovedWorkerOk(race: Race, s: Store, s': Store, i: nat, w: Worker, w': Worker)
    requires RaceMove(s, s', w, w') && RaceWorkerOk(race, s, i, w) && w.event.key == race.key
    ensures RaceWorkerOk(race, s', i, w')
  {
    if w.pc.RecordPc? && s'.rows == s.rows + [RowOf(w)] {
      RecordedAfterRow(s, s', RowOf(w), w.event.deliveryId);
    }
  }

  lemma OtherRaceWorkerOk(race: Race, s: Store, s': Store, j: nat, v: Worker, w: Worker, w': Worker)
    requires RaceMove(s, s', w, w') && RaceWorkerOk(race, s, j, v) && v.event.deliveryId != w.event.deliveryId
    ensures RaceWorkerOk(race, s', j, v)
  {
    if w.pc.RecordPc? && s'.rows == s.rows + [RowOf(w)] {
      RecordedAfterRow(s, s', RowOf(w), v.event.deliveryId);
    }
  }

  lemma PassersAreLive(race: Race, st: RaceState)
    requires race.key !in st.store.claims
    requires forall i :: 0 <= i < |st.workers| ==> RaceWorkerOk(race, st.store, i, st.workers[i])
    ensures CountPc(st.workers, PassedPc) <= CountPc(st.workers, LivePc)
  {
    forall i | 0 <= i < |st.workers| && PassedPc(st.workers[i].pc) ensures LivePc(st.workers[i].pc) {
      assert RaceWorkerOk(race, st.store, i, st.workers[i]);
    }
    CountMonotone(st.workers, PassedPc, LivePc);
  }

  lemma GoCountsPaid(race: Race, st: RaceState, i: nat, r: Reply)
    requires ValidRace(race) && RaceInv(race, st) && RaceEnabled(race, st, Go(i, r))
    ensures var st' := RaceStep(race, st, Go(i, r));
            && (race.key in st'.store.claims ==> CountPc(st'.workers, ClaimedPc) >= 1)
            && |st'.store.effects| == CountPc(st'.workers, PaidPc)
            && |st'.store.rows| == CountPc(st'.workers, DonePlaced)
  {
    var w, w' := st.workers[i], RaceStep(race, st, Go(i, r)).workers[i];
    GoMoves(race, st, i, r);
    assert RaceWorkerOk(race, st.store, i, w);
    CountUpdated(st.workers, i, w', ClaimedPc);
    CountUpdated(st.workers, i, w', PaidPc);
    CountUpdated(st.workers, i, w', DonePlaced);
  }

  lemma GoCountsInFlight(race: Race, st: RaceState, i: nat, r: Reply)
    requires ValidRace(race) && RaceInv(race, st) && RaceEnabled(race, st, Go(i, r))
    ensures var st' := RaceStep(race, st, Go(i, r));
            && CountPc(st'.workers, LivePc) <= race.concurrency
            && (st.workers[i].pc.CheckClaimPc? || CountPc(st'.workers, PassedPc) <= race.concurrency)
  {
    var w, w' := st.workers[i], RaceStep(race, st, Go(i, r)).workers[i];
    GoMoves(race, st, i, r);
    MoveInFlight(st.store, RaceStep(race, st, Go(i, r)).store, w, w');
    CountUpdated(st.workers, i, w', LivePc);
    CountUpdated(st.workers, i, w', PassedPc);
  }

  /** Only the claim check lets a copy pass, and no copy comes back to life. */
  lemma MoveInFlight(s: Store, s': Store, w: Worker, w': Worker)
    requires RaceMove(s, s', w, w')
    ensures LivePc(w.pc) && (PassedPc(w'.pc) && !PassedPc(w.pc) ==> w.pc.CheckClaimPc?)
  {
  }

  /** A request spends the race's amount exactly when it passes the debit. */
  lemma MoveSpends(s: Store, s': Store, w: Worker, w': Worker)
    requires RaceMove(s, s', w, w')
    ensures DebitedPc(w.pc) ==> DebitedPc(w'.pc)
    ensures s'.remaining == s.remaining - (if DebitedPc(w'.pc) && !DebitedPc(w.pc) then w.event.amount else 0)
  {
  }

  lemma GoSpends(race: Race, st: RaceState, i: nat, r: Reply)
    requires ValidRace(race) && RaceInv(race, st) && RaceEnabled(race, st, Go(i, r))
    ensures var st' := RaceStep(race, st, Go(i, r));
            && (DebitedPc(st.workers[i].pc) ==> DebitedPc(st'.workers[i].pc))
            && st'.store.remaining
               == st.store.remaining
                  - (if DebitedPc(st'.workers[i].pc) && !DebitedPc(st.workers[i].pc) then race.amount else 0)
  {
    GoMoves(race, st, i, r);
    assert RaceWorkerOk(race, st.store, i, st.workers[i]);
    MoveSpends(st.store, RaceStep(race, st, Go(i, r)).store, st.workers[i], RaceStep(race, st, Go(i, r)).workers[i]);
  }

  lemma GoDebits(race: Race, st: RaceState, i: nat, r: Reply)
    requires ValidRace(race) && RaceInv(race, st) && RaceEnabled(race, st, Go(i, r))
    ensures var st' := RaceStep(race, st, Go(i, r));
            var was, now := CountPc(st.workers, DebitedPc), CountPc(st'.workers, DebitedPc);
            || (now == was && st'.store.remaining == st.store.remaining)
            || (now == was + 1 && st'.store.remaining == st.store.remaining - race.amount)
  {
    var st' := RaceStep(race, st, Go(i, r));
    GoSpends(race, st, i, r);
    CountUpdated(st.workers, i, st'.workers[i], DebitedPc);
    assert st'.workers == st.workers[i := st'.workers[i]];
  }

  lemma GoBudget(race: Race, st: RaceState, i: nat, r: Reply)
    requires ValidRace(race) && RaceInv(race, st) && RaceEnabled(race, st, Go(i, r))
    ensures var st' := RaceStep(race, st, Go(i, r));
            st'.store.remaining == LeftAfter(race, CountPc(st'.workers, DebitedPc))
  {
    GoDebits(race, st, i, r);
  }

  lemma GoRows(race: Race, st: RaceState, i: nat, r: Reply)
    requires ValidRace(race) && RaceInv(race, st) && RaceEnabled(race, st, Go(i, r))
    ensures var st' := RaceStep(race, st, Go(i, r));
            forall m :: 0 <= m < |st'.store.rows| ==>
              exists j :: 0 <= j < |st'.workers| && race.copies[j].deliveryId == st'.store.rows[m].deliveryId
  {
    GoMoves(race, st, i, r);
    var st' := RaceStep(race, st, Go(i, r));
    assert RaceWorkerOk(race, st.store, i, st.workers[i]);
    forall m | 0 <= m < |st'.store.rows|
      ensures exists j :: 0 <= j < |st'.workers| && race.copies[j].deliveryId == st'.store.rows[m].deliveryId
    {
      if m < |st.store.rows| {
        assert st'.store.rows[m] == st.store.rows[m];
        var j :| 0 <= j < |st.workers| && race.copies[j].deliveryId == st.store.rows[m].deliveryId;
      } else {
        assert race.copies[i].deliveryId == st'.store.rows[m].deliveryId;
      }
    }
  }

  lemma GoInv(race: Race, st: RaceState, i: nat, r: Reply)
    requires ValidRace(race) && RaceInv(race, st) && RaceEnabled(race, st, Go(i, r))
    ensures RaceInv(race, RaceStep(race, st, Go(i, r)))
  {
    var st' := RaceStep(race, st, Go(i, r));
    var w := st.workers[i];
    GoMoves(race, st, i, r);
    forall j | 0 <= j < |st'.workers| ensures RaceWorkerOk(race, st'.store, j, st'.workers[j]) {
      assert RaceWorkerOk(race, st.store, j, st.workers[j]) && RaceWorkerOk(race, st.store, i, w);
      if j == i {
        MovedWorkerOk(race, st.store, st'.store, i, w, st'.workers[i]);
      } else {
        OtherRaceWorkerOk(race, st.store, st'.store, j, st.workers[j], w, st'.workers[i]);
      }
    }
    GoCountsPaid(race, st, i, r);
    GoCountsInFlight(race, st, i, r);
    GoBudget(race, st, i, r);
    GoRows(race, st, i, r);
    if w.pc.CheckClaimPc? {
      if race.key in st.store.claims {
        CountUpdated(st.workers, i, st'.workers[i], PassedPc);
      } else {
        PassersAreLive(race, st');
      }
    }
  }

  /** A copy that starts has its own delivery id, so nothing is recorded for it yet. */
  lemma LaunchWorkers(race: Race, st: RaceState)
    requires ValidRace(race) && RaceInv(race, st) && RaceEnabled(race, st, Launch)
    ensures var st' := RaceStep(race, st, Launch);
            && (forall j :: 0 <= j < |st'.workers| ==> RaceWorkerOk(race, st'.store, j, st'.workers[j]))
            && (forall m :: 0 <= m < |st'.store.rows| ==>
                  exists j :: 0 <= j < |st'.workers| && race.copies[j].deliveryId == st'.store.rows[m].deliveryId)
  {
    var n, st' := |st.workers|, RaceStep(race, st, Launch);
    forall m | 0 <= m < |st.store.rows|
      ensures st.store.rows[m].deliveryId != race.copies[n].deliveryId
      ensures exists j :: 0 <= j < |st'.workers| && race.copies[j].deliveryId == st.store.rows[m].deliveryId
    {
      var j :| 0 <= j < n && race.copies[j].deliveryId == st.store.rows[m].deliveryId;
      assert j < |st'.workers|;
    }
    forall j | 0 <= j < |st'.workers| ensures RaceWorkerOk(race, st'.store, j, st'.workers[j]) {
      if j < n {
        assert RaceWorkerOk(race, st.store, j, st.workers[j]);
      }
    }
  }

  lemma LaunchInv(race: Race, st: RaceState)
    requires ValidRace(race) && RaceInv(race, st) && RaceEnabled(race, st, Launch)
    ensures RaceInv(race, RaceStep(race, st, Launch))
  {
    var w := Start(Naive, race.copies[|st.workers|], |st.workers|);
    CountAppended(st.workers, w, ClaimedPc);
    CountAppended(st.workers, w, LivePc);
    CountAppended(st.workers, w, PassedPc);
    CountAppended(st.workers, w, DebitedPc);
    CountAppended(st.workers, w, PaidPc);
    CountAppended(st.workers, w, DonePlaced);
    LaunchWorkers(race, st);
  }

  lemma {:induction false} RunRace(race: Race, states: seq<RaceState>, labels: seq<RaceLabel>, n: nat)
    requires ValidRace(race) && IsRace(race, states, labels) && n < |states|
    ensures RaceInv(race, states[n])
  {
    if n > 0 {
      RunRace(race, states, labels, n - 1);
      match labels[n - 1]
      case Launch => LaunchInv(race, states[n - 1]);
      case Go(i, r) => GoInv(race, states[n - 1], i, r);
    }
  }

  // --- The bound --------------------------------------------------------------------------------

  lemma {:induction false} AllCounted(workers: seq<Worker>, p: Pc -> bool)
    requires forall i :: 0 <= i < |workers| ==> p(workers[i].pc)
    ensures CountPc(workers, p) == |workers|
  {
    if workers != [] {
      AllCounted(workers[..|workers| - 1], p);
    }
  }

  lemma DoneIsPlaced(race: Race, s: Store, w: Worker)
    requires RaceWorkerOk(race, s, 0, w) && w.pc.DonePc?
    ensures race.key in s.claims
  {
    match w.pc.status
    case AlreadyProcessed =>
    case Decided(o) => assert o == Committed || o == DuplicateSuppressed;
  }

  lemma FinishedPays(race: Race, st: RaceState)
    requires ValidRace(race) && RaceInv(race, st) && Finished(race, st)
    ensures |race.copies| > 0 ==> |st.store.effects| >= 1
    ensures |st.store.rows| == |race.copies|
  {
    AllCounted(st.workers, DonePlaced);
    if |race.copies| > 0 {
      assert RaceWorkerOk(race, st.store, 0, st.workers[0]);
      DoneIsPlaced(race, st.store, st.workers[0]);
      CountMonotone(st.workers, ClaimedPc, PaidPc);
    }
  }

  /**
   Check-then-write pays at most once per copy in flight and at least once: whatever the
   interleaving, with at most `concurrency` copies in flight any number of copies of one
   payment makes between 1 and `concurrency` payments.
   */
  lemma RaceBound(race: Race, states: seq<RaceState>, labels: seq<RaceLabel>, n: nat)
    requires ValidRace(race) && IsRace(race, states, labels) && n < |states|
    ensures |states[n].store.effects| <= race.concurrency
    ensures Finished(race, states[n]) && |race.copies| > 0 ==> |states[n].store.effects| >= 1
    ensures Finished(race, states[n]) ==> |states[n].store.rows| == |race.copies|
  {
    RunRace(race, states, labels, n);
    CountMonotone(states[n].workers, PaidPc, PassedPc);
    if Finished(race, states[n]) {
      FinishedPays(race, states[n]);
    }
  }

  /** Strictly sequential copies pay exactly once. */
  lemma SequentialPaysOnce(race: Race, states: seq<RaceState>, labels: seq<RaceLabel>, n: nat)
    requires ValidRace(race) && race.concurrency == 1 && |race.copies| > 0
    requires IsRace(race, states, labels) && n < |states| && Finished(race, states[n])
    ensures |states[n].store.effects| == 1
  {
    RaceBound(race, states, labels, n);
  }

  // --- The bound is reached ---------------------------------------------------------------------

  ghost predicate Leads(race: Race, st: RaceState, labels: seq<RaceLabel>, st': RaceState)
    decreases |labels|
  {
    if labels == [] then st' == st
    else RaceEnabled(race, st, labels[0]) && Leads(race, RaceStep(race, st, labels[0]), labels[1..], st')
  }

  ghost predicate Reach(race: Race, st: RaceState, st': RaceState) {
    exists labels :: Leads(race, st, labels, st')
  }

  lemma {:induction false} LeadsOn(race: Race, st: RaceState, labels: seq<RaceLabel>, st': RaceState, l: RaceLabel)
    requires Leads(race, st, labels, st') && RaceEnabled(race, st', l)
    ensures Leads(race, st, labels + [l], RaceStep(race, st', l))
    decreases |labels|
  {
    if labels != [] {
      LeadsOn(race, RaceStep(race, st, labels[0]), labels[1..], st', l);
      assert (labels + [l])[1..] == labels[1..] + [l];
    }
  }

  lemma ReachOn(race: Race, st: RaceState, st': RaceState, l: RaceLabel)
    requires Reach(race, st, st') && RaceEnabled(race, st', l)
    ensures Reach(race, st, RaceStep(race, st', l))
  {
    var labels :| Leads(race, st, labels, st');
    LeadsOn(race, st, labels, st', l);
  }

  lemma {:induction false} LeadsIsRun(race: Race, st: RaceState, labels: seq<RaceLabel>, st': RaceState)
    returns (states: seq<RaceState>)
    requires Leads(race, st, labels, st')
    ensures |states| == |labels| + 1 && states[0] == st && states[|labels|] == st'
    ensures forall i :: 0 <= i < |labels| ==>
              RaceEnabled(race, states[i], labels[i]) && states[i + 1] == RaceStep(race, states[i], labels[i])
    decreases |labels|
  {
    if labels == [] {
      states := [st];
    } else {
      var rest := LeadsIsRun(race, RaceStep(race, st, labels[0]), labels[1..], st');
      states := [st] + rest;
    }
  }

  function NextPc(s: Store, w: Worker): Pc {
    match w.pc
    case CheckDeliveryPc => CheckClaimPc
    case CheckClaimPc => if w.event.key in s.claims then RecordPc(DuplicateSuppressed, None, None) else DebitPc
    case DebitPc => PutEffectPc
    case PutEffectPc => PutClaimPc
    case PutClaimPc => RecordPc(Committed, Some(w.effectId), None)
    case RecordPc(o, _, _) => DonePc(Decided(o))
    case _ => w.pc
  }

  lemma {:induction false} LeadsInv(race: Race, st: RaceState, labels: seq<RaceLabel>, st': RaceState)
    requires ValidRace(race) && RaceInv(race, st) && Leads(race, st, labels, st')
    ensures RaceInv(race, st')
    decreases |labels|
  {
    if labels != [] {
      match labels[0]
      case Launch =>
        LaunchInv(race, st);
        LeadsInv(race, RaceStep(race, st, labels[0]), labels[1..], st');
      case Go(i, r) =>
        GoInv(race, st, i, r);
        LeadsInv(race, RaceStep(race, st, labels[0]), labels[1..], st');
    }
  }

  lemma InitRaceInv(race: Race)
    ensures RaceInv(race, StartRace(race))
  {
  }

  /** Some race leads here. */
  ghost predicate Here(race: Race, st: RaceState) {
    Reach(race, StartRace(race), st)
  }

  lemma HereInv(race: Race, st: RaceState)
    requires ValidRace(race) && Here(race, st)
    ensures RaceInv(race, st)
  {
    var labels :| Leads(race, StartRace(race), labels, st);
    InitRaceInv(race);
    LeadsInv(race, StartRace(race), labels, st);
  }

  /** Only worker `i` moved, to `pc`. */
  ghost predicate MovedTo(st: RaceState, st': RaceState, i: nat, pc: Pc) {
    && i < |st.workers| == |st'.workers| && st'.workers[i].pc == pc && st'.workers[i].event == st.workers[i].event
    && forall j :: 0 <= j < |st.workers| && j != i ==> st'.workers[j] == st.workers[j]
  }

  /** A copy whose request meets no contention always gets on. */
  lemma Uncontended(race: Race, st: RaceState, i: nat) returns (st': RaceState)
    requires ValidRace(race) && Here(race, st)
    requires i < |st.workers| && Live(st.workers[i])
    ensures Here(race, st') && MovedTo(st, st', i, NextPc(st.store, st.workers[i]))
    ensures RaceMove(st.store, st'.store, st.workers[i], st'.workers[i]) && st.workers[i].event.key == race.key
  {
    HereInv(race, st);
    assert RaceWorkerOk(race, st.store, i, st.workers[i]);
    if st.workers[i].pc.DebitPc? {
      EnoughForAnother(race, st, i);
    }
    var l := Go(i, Proceed);
    assert RaceEnabled(race, st, l);
    st' := RaceStep(race, st, l);
    GoMoves(race, st, i, Proceed);
    ReachOn(race, StartRace(race), st, l);
  }

  ghost predicate Quiet(st: RaceState, m: nat) {
    |st.workers| == m && forall i :: 0 <= i < m ==> st.workers[i].pc.DonePc?
  }

  ghost predicate Waiting(st: RaceState, j: nat) {
    && j <= |st.workers|
    && (forall i :: 0 <= i < j ==> st.workers[i].pc.DonePc?)
    && (forall i :: j <= i < |st.workers| ==> st.workers[i].pc.DebitPc?)
  }

  lemma LaunchOne(race: Race, st: RaceState) returns (st': RaceState)
    requires ValidRace(race) && Here(race, st) && RaceEnabled(race, st, Launch)
    ensures Here(race, st') && st'.store == st.store && |st'.workers| == |st.workers| + 1
    ensures forall j :: 0 <= j < |st.workers| ==> st'.workers[j] == st.workers[j]
    ensures st'.workers[|st.workers|].pc.CheckDeliveryPc? && st'.workers[|st.workers|].event.key == race.key
  {
    st' := RaceStep(race, st, Launch);
    ReachOn(race, StartRace(race), st, Launch);
  }

  /** Copies that all read before any writes all pass the check. */
  lemma {:induction false} Gather(race: Race, m: nat) returns (st: RaceState)
    requires ValidRace(race) && m <= |race.copies| && m <= race.concurrency
    ensures Here(race, st) && |st.workers| == m && Waiting(st, 0) && st.store == StartRace(race).store
  {
    if m == 0 {
      st := StartRace(race);
      assert Leads(race, st, [], st);
    } else {
      var before := Gather(race, m - 1);
      st := LaunchToDebit(race, before);
    }
  }

  /** One more copy starts, finds no delivery row and no claim, and is about to debit. */
  lemma LaunchToDebit(race: Race, st: RaceState) returns (st': RaceState)
    requires ValidRace(race) && Here(race, st) && Waiting(st, 0)
    requires |st.workers| < |race.copies| && |st.workers| < race.concurrency && race.key !in st.store.claims
    ensures Here(race, st') && st'.store == st.store && |st'.workers| == |st.workers| + 1 && Waiting(st', 0)
  {
    var m := |st.workers|;
    CountMonotone(st.workers, LivePc, LivePc);
    var a := LaunchOne(race, st);
    var b := Uncontended(race, a, m);
    st' := Uncontended(race, b, m);
  }

  lemma PayOne(race: Race, a: RaceState, j: nat) returns (b: RaceState)
    requires ValidRace(race) && Here(race, a) && j < |a.workers| && a.workers[j].pc == DebitPc
    ensures Here(race, b) && |b.workers| == |a.workers| && b.workers[j].pc.DonePc?
    ensures forall i :: 0 <= i < |a.workers| && i != j ==> b.workers[i] == a.workers[i]
    ensures |b.store.effects| == |a.store.effects| + 1 && race.key in b.store.claims
  {
    var c := Uncontended(race, a, j);
    var d := Uncontended(race, c, j);
    var e := Uncontended(race, d, j);
    b := Uncontended(race, e, j);
  }

  /** Each of them then pays. */
  lemma {:induction false} PayAll(race: Race, st: RaceState, j: nat) returns (st': RaceState)
    requires ValidRace(race) && Here(race, st)
    requires Waiting(st, j) && |st.store.effects| == j && (j > 0 ==> race.key in st.store.claims)
    ensures Here(race, st') && Quiet(st', |st.workers|)
    ensures |st'.store.effects| == |st.workers| && (|st.workers| > 0 ==> race.key in st'.store.claims)
    decreases |st.workers| - j
  {
    if j == |st.workers| {
      st' := st;
    } else {
      var next := PayOne(race, st, j);
      st' := PayAll(race, next, j + 1);
    }
  }

  /** One later copy reads the claim and is suppressed. */
  lemma SuppressOne(race: Race, st: RaceState, m: nat) returns (st': RaceState)
    requires ValidRace(race) && Here(race, st) && race.concurrency >= 1
    requires Quiet(st, m) && race.key in st.store.claims && m < |race.copies|
    ensures Here(race, st') && Quiet(st', m + 1)
    ensures race.key in st'.store.claims && |st'.store.effects| == |st.store.effects|
  {
    NobodyLive(st.workers);
    var a := LaunchOne(race, st);
    var b := Uncontended(race, a, m);
    var c := Uncontended(race, b, m);
    st' := Uncontended(race, c, m);
  }

  /** So are all the rest. */
  lemma {:induction false} SuppressRest(race: Race, st: RaceState, m: nat) returns (st': RaceState)
    requires ValidRace(race) && Here(race, st) && race.concurrency >= 1
    requires Quiet(st, m) && race.key in st.store.claims && m <= |race.copies|
    ensures Here(race, st') && Finished(race, st') && |st'.store.effects| == |st.store.effects|
    decreases |race.copies| - m
  {
    if m == |race.copies| {
      st' := st;
    } else {
      var next := SuppressOne(race, st, m);
      st' := SuppressRest(race, next, m + 1);
    }
  }

  lemma {:induction false} NobodyLive(workers: seq<Worker>)
    requires forall i :: 0 <= i < |workers| ==> workers[i].pc.DonePc?
    ensures CountPc(workers, LivePc) == 0
  {
    if workers != [] {
      NobodyLive(workers[..|workers| - 1]);
    }
  }

  /**
   Every count within the bound happens: for each `payments` from 1 up to both the number
   of copies and the concurrency, some race of these copies finishes with that many.
   */
  lemma BoundReached(race: Race, payments: nat) returns (states: seq<RaceState>, labels: seq<RaceLabel>)
    requires ValidRace(race) && 1 <= payments <= |race.copies| && payments <= race.concurrency
    ensures IsRace(race, states, labels)
    ensures Finished(race, states[|labels|]) && |states[|labels|].store.effects| == payments
  {
    var start := StartRace(race);
    var gathered := Gather(race, payments);
    var paid := PayAll(race, gathered, 0);
    var last := SuppressRest(race, paid, payments);
    labels :| Leads(race, start, labels, last);
    states := LeadsIsRun(race, start, labels, last);
  }

  // --- The result ----------------------------------------------------------------------------------

  /** What FinishRace counts from the ledger (backend/src/services/workflow_service.py). */
  datatype RaceResult = RaceResult(
    copies: nat, recorded: nat, payments: nat, suppressed: nat, extraPayments: nat, overpaid: int, verdict: Verdict)

  function FinishRace(copies: nat, amount: int, effects: seq<Effect>, rows: seq<Delivery>): RaceResult {
    var extra := if |effects| > 1 then |effects| - 1 else 0;
    RaceResult(copies, |rows|, |effects|, CountOutcome(rows, DuplicateSuppressed), extra, extra * amount,
               if |effects| == 1 then Pass else Fail)
  }

  // --- The refused copies -------------------------------------------------------------------------

  predicate RefusedPc(pc: Pc) {
    pc == DonePc(Decided(DuplicateSuppressed))
  }

  /** The rows are those of the finished copies: paid or refused as duplicates, nothing else. */
  ghost predicate RowsCounted(st: RaceState) {
    && CountOutcome(st.store.rows, DuplicateSuppressed) == CountPc(st.workers, RefusedPc)
    && CountOutcome(st.store.rows, BudgetExhausted) == 0
  }

  lemma GoRowsCounted(race: Race, st: RaceState, i: nat, r: Reply)
    requires ValidRace(race) && RaceInv(race, st) && RowsCounted(st) && RaceEnabled(race, st, Go(i, r))
    ensures RowsCounted(RaceStep(race, st, Go(i, r)))
  {
    var w, st' := st.workers[i], RaceStep(race, st, Go(i, r));
    GoMoves(race, st, i, r);
    assert RaceWorkerOk(race, st.store, i, w);
    CountUpdated(st.workers, i, st'.workers[i], RefusedPc);
    if w.pc.RecordPc? && st'.store != st.store {
      assert st'.store.rows[..|st.store.rows|] == st.store.rows;
    }
  }

  lemma {:induction false} RunRowsCounted(race: Race, states: seq<RaceState>, labels: seq<RaceLabel>, n: nat)
    requires ValidRace(race) && IsRace(race, states, labels) && n < |states|
    ensures RowsCounted(states[n])
  {
    if n > 0 {
      RunRowsCounted(race, states, labels, n - 1);
      match labels[n - 1]
      case Launch =>
        CountAppended(states[n - 1].workers, Start(Naive, race.copies[|states[n - 1].workers|],
          |states[n - 1].workers|), RefusedPc);
      case Go(i, r) =>
        RunRace(race, states, labels, n - 1);
        GoRowsCounted(race, states[n - 1], i, r);
    }
  }

  lemma {:induction false} PaidOrRefused(workers: seq<Worker>)
    requires forall i :: 0 <= i < |workers| ==>
               workers[i].pc == DonePc(Decided(Committed)) || workers[i].pc == DonePc(Decided(DuplicateSuppressed))
    ensures CountPc(workers, PaidPc) + CountPc(workers, RefusedPc) == |workers|
  {
    if workers != [] {
      PaidOrRefused(workers[..|workers| - 1]);
    }
  }

  /** In a finished race every copy that did not pay was refused, and every payment but one is extra. */
  lemma RaceRefuses(race: Race, states: seq<RaceState>, labels: seq<RaceLabel>, n: nat)
    requires ValidRace(race) && IsRace(race, states, labels) && n < |states| && Finished(race, states[n])
    requires |race.copies| > 0
    ensures var result := FinishRace(|race.copies|, race.amount, states[n].store.effects, states[n].store.rows);
            && result.copies == |race.copies| && result.payments == |states[n].store.effects|
            && result.suppressed == |race.copies| - result.payments
            && result.extraPayments == result.payments - 1
  {
    RaceBound(race, states, labels, n);
    RunRace(race, states, labels, n);
    RunRowsCounted(race, states, labels, n);
    FinishedCounts(race, states[n]);
  }

  lemma FinishedCounts(race: Race, st: RaceState)
    requires ValidRace(race) && RaceInv(race, st) && RowsCounted(st) && Finished(race, st)
    ensures |st.store.effects| + CountOutcome(st.store.rows, DuplicateSuppressed) == |race.copies|
  {
    forall i | 0 <= i < |st.workers|
      ensures st.workers[i].pc == DonePc(Decided(Committed)) || st.workers[i].pc == DonePc(Decided(DuplicateSuppressed))
    {
      DoneIsDecided(race, st, i);
    }
    PaidOrRefused(st.workers);
  }

  lemma DoneIsDecided(race: Race, st: RaceState, i: nat)
    requires RaceInv(race, st) && i < |st.workers| && st.workers[i].pc.DonePc?
    ensures st.workers[i].pc == DonePc(Decided(Committed)) || st.workers[i].pc == DonePc(Decided(DuplicateSuppressed))
  {
    var w := st.workers[i];
    assert RaceWorkerOk(race, st.store, i, w);
    assert w.pc.status != AlreadyProcessed && w.pc.status != Decided(BudgetExhausted);
    match w.pc.status.outcome
    case Committed =>
    case DuplicateSuppressed =>
    case BudgetExhausted => assert false;
  }

  /** The overpayment a finished race reports is real: spent money beyond the one payment owed. */
  lemma RaceOverpays(race: Race, states: seq<RaceState>, labels: seq<RaceLabel>, n: nat)
    requires ValidRace(race) && IsRace(race, states, labels) && n < |states| && Finished(race, states[n])
    requires |race.copies| > 0
    ensures var st := states[n];
            var result := FinishRace(|race.copies|, race.amount, st.store.effects, st.store.rows);
            && result.recorded == |race.copies| && 1 <= result.payments <= race.concurrency
            && result.overpaid == (|race.copies| * race.amount - st.store.remaining) - race.amount
            && (result.verdict == Pass <==> result.overpaid == 0)
  {
    RaceBound(race, states, labels, n);
    RunRace(race, states, labels, n);
    var st := states[n];
    PaidAreDebited(st.workers);
    LeftAfterIs(race, |st.store.effects|);
    OverpaidArithmetic(race.amount, |race.copies|, |st.store.effects|);
  }

  lemma OverpaidArithmetic(amount: int, c: int, p: int)
    requires amount >= 1
    ensures (p - 1) * amount == (c * amount - amount * (c - p)) - amount
    ensures p > 1 ==> (p - 1) * amount >= 1
  {
    assert c * amount - amount * (c - p) == p * amount;
  }

  lemma {:induction false} PaidAreDebited(workers: seq<Worker>)
    requires forall i :: 0 <= i < |workers| ==> workers[i].pc.DonePc?
    ensures CountPc(workers, PaidPc) == CountPc(workers, DebitedPc)
  {
    if workers != [] {
      PaidAreDebited(workers[..|workers| - 1]);
    }
  }
}
