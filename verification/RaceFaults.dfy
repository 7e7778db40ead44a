/**
 The Race Lab where copies fail (backend/statemachine/race_workflow.asl.json): for any processor,
 any copy may be invoked again and again, any number of attempts may overlap, and any of them may
 vanish between two requests. The workers are those of `Protocol`; no workflow task is involved.
 */
module RaceFaults {
  import opened Domain
  import opened Accounts
  import opened Storage
  import opened Machine
  import opened Workflow
  import opened Protocol
  import opened Invariants
  import opened NaiveRace
  import P = ProtectedRun
  import C = VulnerableCounts

  /** The one entitlement of a race. */
  function RaceEntry(race: Race): Entry {
    Entry(race.key, Entitlement("", "", race.amount, 1))
  }

  /** Its copies as a plan; the budget pays for each of them. */
  function RaceSetup(race: Race, p: Processor): Setup {
    Setup(p, [RaceEntry(race)], race.copies, [], |race.copies| * race.amount, race.maxAttempts, 1, false)
  }

  /** Every copy may be invoked at any time. */
  function Opened(race: Race, p: Processor): State {
    State(Fresh(|race.copies| * race.amount), [], [], set e | e in race.copies, true, false,
          InjectA(true), TASK_RETRIES, QUEUED_RUN.(status := Running), false)
  }

  predicate OfWorkers(l: Label) {
    l.Receive? || l.Request? || l.Crash?
  }

  /** A race with faults: invocations, requests with any possible reply, and losses, in any order. */
  ghost predicate IsFaultyRace(race: Race, p: Processor, states: seq<State>, labels: seq<Label>) {
    && Continues(RaceSetup(race, p), states, labels) && states[0] == Opened(race, p)
    && forall i :: 0 <= i < |labels| ==> OfWorkers(labels[i])
  }

  // --- Money ---------------------------------------------------------------------------------------

  /** What is known of every state of such a race. */
  ghost predicate RaceKnown(race: Race, p: Processor, st: State) {
    Inv(RaceSetup(race, p), st) && st.sent == (set e | e in race.copies) && !st.openB
  }

  lemma OpenedKnown(race: Race, p: Processor)
    requires ValidRace(race)
    ensures RaceKnown(race, p, Opened(race, p))
  {
    assert HeldBy([]) == [] && EffectAmounts([]) == [] && EventAmounts([]) == [];
    assert |race.copies| * race.amount >= 0;
  }

  lemma StepKnown(race: Race, p: Processor, st: State, l: Label)
    requires RaceKnown(race, p, st) && OfWorkers(l) && Enabled(RaceSetup(race, p), st, l)
    ensures RaceKnown(race, p, Step(RaceSetup(race, p), st, l))
  {
    var cfg := RaceSetup(race, p);
    match l
    case Receive(e) => ReceiveInv(cfg, st, e);
    case Request(i, r) => RequestInv(cfg, st, i, r);
    case Crash(i) => CrashInv(cfg, st, i);
  }

  lemma {:induction false} RunKnown(race: Race, p: Processor, states: seq<State>, labels: seq<Label>, n: nat)
    requires ValidRace(race) && IsFaultyRace(race, p, states, labels) && n < |states|
    ensures RaceKnown(race, p, states[n])
  {
    if n == 0 {
      OpenedKnown(race, p);
    } else {
      RunKnown(race, p, states, labels, n - 1);
      StepKnown(race, p, states[n - 1], labels[n - 1]);
    }
  }

  lemma {:induction false} SameAmounts(effects: seq<Effect>, amount: int)
    requires forall i :: 0 <= i < |effects| ==> effects[i].amount == amount
    ensures Spent(effects) == amount * |effects|
  {
    if effects == [] {
      assert EffectAmounts([]) == [];
    } else {
      var n := |effects| - 1;
      SameAmounts(effects[..n], amount);
      SpentAppend(effects[..n], effects[n]);
      assert effects == effects[..n] + [effects[n]];
      assert amount * (n + 1) == amount * n + amount;
    }
  }

  lemma CopiesAreEqual(race: Race, p: Processor, st: State)
    requires ValidRace(race) && RaceKnown(race, p, st)
    ensures forall e :: e in st.sent ==> e.key == race.key && e.amount == race.amount
    ensures forall i :: 0 <= i < |st.store.effects| ==>
              st.store.effects[i].key == race.key && st.store.effects[i].amount == race.amount
    ensures Unwritten(st.workers) >= 0
  {
    forall e | e in st.sent ensures e.key == race.key && e.amount == race.amount {
      var i :| 0 <= i < |race.copies| && race.copies[i] == e;
    }
    forall i | 0 <= i < |st.store.effects|
      ensures st.store.effects[i].key == race.key && st.store.effects[i].amount == race.amount
    {
      assert EffectFrom(st.sent, st.store.effects[i]);
    }
    assert forall i :: 0 <= i < |st.workers| ==> st.workers[i].event in st.sent;
    SumNonNegative(HeldBy(st.workers));
  }

  /**
   Whatever fails and is tried again, the money adds up: the budget left, the payments and the debits
   that never became payments are the copies' amounts; so there are never more payments than copies,
   and every delivery is recorded at most once.
   */
  lemma FaultyRaceConserves(race: Race, p: Processor, states: seq<State>, labels: seq<Label>, n: nat)
    requires ValidRace(race) && IsFaultyRace(race, p, states, labels) && n < |states|
    ensures var st := states[n];
            && st.store.remaining + race.amount * |st.store.effects| + Unwritten(st.workers)
               == |race.copies| * race.amount
            && st.store.remaining >= 0 && Unwritten(st.workers) >= 0
            && |st.store.effects| <= |race.copies| && st.store.delivered == |st.store.rows| <= |race.copies|
  {
    var st := states[n];
    RunKnown(race, p, states, labels, n);
    CopiesAreEqual(race, p, st);
    SameAmounts(st.store.effects, race.amount);
    C.Scale(race.amount, |st.store.effects|, |race.copies|);
    DrainSound(RaceSetup(race, p), st, race.copies);
  }

  // --- The bound is reached --------------------------------------------------------------------------

  /** The copies that were invoked, in order. */
  function Invoked(labels: seq<Label>): seq<Event> {
    if labels == [] then []
    else
      var n := |labels| - 1;
      Invoked(labels[..n]) + InvokedBy(labels[n])
  }

  function InvokedBy(l: Label): seq<Event> {
    if l.Receive? then [l.event] else []
  }

  ghost predicate RaceTo(race: Race, invoked: seq<Event>, st: State, states: seq<State>, labels: seq<Label>) {
    IsFaultyRace(race, Naive, states, labels) && Invoked(labels) == invoked && states[|labels|] == st
  }

  /** Some naive race invokes these copies, in this order, and leads here. */
  ghost predicate Leads(race: Race, invoked: seq<Event>, st: State) {
    exists states, labels :: RaceTo(race, invoked, st, states, labels)
  }

  lemma LeadOn(race: Race, invoked: seq<Event>, st: State, l: Label) returns (st': State)
    requires Leads(race, invoked, st) && OfWorkers(l) && Enabled(RaceSetup(race, Naive), st, l)
    ensures st' == Step(RaceSetup(race, Naive), st, l) && Leads(race, invoked + InvokedBy(l), st')
  {
    var states, labels :| RaceTo(race, invoked, st, states, labels);
    st' := Step(RaceSetup(race, Naive), st, l);
    Extended(race, invoked, st, states, labels, l);
  }

  lemma Extended(race: Race, invoked: seq<Event>, st: State, states: seq<State>, labels: seq<Label>, l: Label)
    requires RaceTo(race, invoked, st, states, labels) && OfWorkers(l) && Enabled(RaceSetup(race, Naive), st, l)
    ensures var st' := Step(RaceSetup(race, Naive), st, l);
            RaceTo(race, invoked + InvokedBy(l), st', states + [st'], labels + [l])
  {
    ContinuesOn(RaceSetup(race, Naive), states, labels, l);
    assert (labels + [l])[..|labels|] == labels;
    assert forall i :: 0 <= i < |labels + [l]| ==> (labels + [l])[i] == (if i < |labels| then labels[i] else l);
  }

  lemma ContinuesOn(cfg: Setup, states: seq<State>, labels: seq<Label>, l: Label)
    requires Continues(cfg, states, labels) && Enabled(cfg, states[|labels|], l)
    ensures Continues(cfg, states + [Step(cfg, states[|labels|], l)], labels + [l])
  {
  }

  /** Nothing is claimed or recorded, whatever was paid. */
  ghost predicate Unclaimed(race: Race, st: State, left: int, payments: nat) {
    && st.sent == (set e | e in race.copies)
    && st.store.runExists && st.store.rows == [] && st.store.claims == map[]
    && st.store.remaining == left && |st.store.effects| == payments
  }

  /** The last attempt stands at `pc` with this copy. */
  ghost predicate StandsAt(st: State, e: Event, pc: Pc) {
    st.workers != [] && st.workers[|st.workers| - 1].event == e && st.workers[|st.workers| - 1].pc == pc
  }

  function NaiveNext(pc: Pc): Pc {
    match pc
    case CheckDeliveryPc => CheckClaimPc
    case CheckClaimPc => DebitPc
    case DebitPc => PutEffectPc
    case _ => PutClaimPc
  }

  predicate BeforeClaim(pc: Pc) {
    pc == CheckDeliveryPc || pc == CheckClaimPc || pc == DebitPc || pc == PutEffectPc
  }

  /** One request of a naive attempt, up to its claim. */
  lemma NaiveStep(race: Race, st: State, e: Event, pc: Pc, left: int, payments: nat)
    requires Unclaimed(race, st, left, payments) && StandsAt(st, e, pc) && BeforeClaim(pc)
    requires pc == DebitPc ==> left >= e.amount
    ensures var cfg, l := RaceSetup(race, Naive), Request(|st.workers| - 1, Proceed);
            && Enabled(cfg, st, l) && StandsAt(Step(cfg, st, l), e, NaiveNext(pc))
            && Unclaimed(race, Step(cfg, st, l), if pc == DebitPc then left - e.amount else left,
                         if pc == PutEffectPc then payments + 1 else payments)
  {
    assert !Recorded(st.store, e.deliveryId);
  }

  lemma NaiveAdvance(race: Race, invoked: seq<Event>, st: State, e: Event, pc: Pc, left: int, payments: nat)
    returns (st': State)
    requires Leads(race, invoked, st) && Unclaimed(race, st, left, payments) && StandsAt(st, e, pc) && BeforeClaim(pc)
    requires pc == DebitPc ==> left >= e.amount
    ensures Leads(race, invoked, st') && StandsAt(st', e, NaiveNext(pc))
    ensures Unclaimed(race, st', if pc == DebitPc then left - e.amount else left,
                      if pc == PutEffectPc then payments + 1 else payments)
  {
    NaiveStep(race, st, e, pc, left, payments);
    st' := LeadOn(race, invoked, st, Request(|st.workers| - 1, Proceed));
    assert invoked + [] == invoked;
  }

  lemma Begin(race: Race, invoked: seq<Event>, st: State, e: Event, left: int, payments: nat) returns (st': State)
    requires Leads(race, invoked, st) && Unclaimed(race, st, left, payments) && e in race.copies
    ensures Leads(race, invoked + [e], st') && Unclaimed(race, st', left, payments) && StandsAt(st', e, CheckDeliveryPc)
  {
    st' := LeadOn(race, invoked, st, Receive(e));
  }

  lemma DebitFirst(race: Race, invoked: seq<Event>, st: State, e: Event, left: int, payments: nat) returns (st': State)
    requires Leads(race, invoked, st) && Unclaimed(race, st, left, payments) && StandsAt(st, e, CheckDeliveryPc)
    requires left >= e.amount
    ensures Leads(race, invoked, st') && Unclaimed(race, st', left - e.amount, payments)
    ensures StandsAt(st', e, PutEffectPc)
  {
    var checked := NaiveAdvance(race, invoked, st, e, CheckDeliveryPc, left, payments);
    var passed := NaiveAdvance(race, invoked, checked, e, CheckClaimPc, left, payments);
    st' := NaiveAdvance(race, invoked, passed, e, DebitPc, left, payments);
  }

  lemma Pay(race: Race, invoked: seq<Event>, st: State, e: Event, left: int, payments: nat) returns (st': State)
    requires Leads(race, invoked, st) && Unclaimed(race, st, left, payments) && StandsAt(st, e, CheckDeliveryPc)
    requires left >= e.amount
    ensures Leads(race, invoked, st') && Unclaimed(race, st', left - e.amount, payments + 1)
    ensures StandsAt(st', e, PutClaimPc)
  {
    var debited := DebitFirst(race, invoked, st, e, left, payments);
    st' := NaiveAdvance(race, invoked, debited, e, PutEffectPc, left - e.amount, payments);
  }

  lemma Lose(race: Race, invoked: seq<Event>, st: State, e: Event, left: int, payments: nat) returns (st': State)
    requires Leads(race, invoked, st) && Unclaimed(race, st, left, payments) && StandsAt(st, e, PutClaimPc)
    ensures Leads(race, invoked, st') && Unclaimed(race, st', left, payments)
  {
    st' := LeadOn(race, invoked, st, Crash(|st.workers| - 1));
    assert invoked + [] == invoked;
  }

  /** A copy pays and is lost before it claims. */
  lemma PayAndLose(race: Race, invoked: seq<Event>, st: State, e: Event, left: int, payments: nat) returns (st': State)
    requires Leads(race, invoked, st) && Unclaimed(race, st, left, payments) && e in race.copies && left >= e.amount
    ensures Leads(race, invoked + [e], st') && Unclaimed(race, st', left - e.amount, payments + 1)
  {
    var begun := Begin(race, invoked, st, e, left, payments);
    var paid := Pay(race, invoked + [e], begun, e, left, payments);
    st' := Lose(race, invoked + [e], paid, e, left - e.amount, payments + 1);
  }

  lemma OpenRace(race: Race)
    ensures Leads(race, race.copies[..0], Opened(race, Naive))
    ensures Unclaimed(race, Opened(race, Naive), |race.copies| * race.amount, 0)
  {
    assert RaceTo(race, race.copies[..0], Opened(race, Naive), [Opened(race, Naive)], []);
  }

  lemma TakeNext<T>(xs: seq<T>, n: nat)
    requires n < |xs|
    ensures xs[..n + 1] == xs[..n] + [xs[n]]
  {
  }

  /** The first so many copies were invoked once each, paid, and lost before they claimed. */
  ghost predicate PaidFirst(race: Race, st: State, n: nat) {
    n <= |race.copies| && Leads(race, race.copies[..n], st) && Unclaimed(race, st, LeftAfter(race, n), n)
  }

  lemma PayNext(race: Race, st: State, n: nat) returns (st': State)
    requires ValidRace(race) && n < |race.copies| && PaidFirst(race, st, n)
    ensures PaidFirst(race, st', n + 1)
  {
    TakeNext(race.copies, n);
    LeftIsEnough(race, n);
    st' := PayAndLose(race, race.copies[..n], st, race.copies[n], LeftAfter(race, n), n);
  }

  /** So the first copies can all be paid, each invoked once, one after the other. */
  lemma {:induction false} PayFirst(race: Race, payments: nat) returns (st: State)
    requires ValidRace(race) && payments <= |race.copies|
    ensures PaidFirst(race, st, payments)
    decreases payments
  {
    if payments == 0 {
      OpenRace(race);
      st := Opened(race, Naive);
    } else {
      var before := PayFirst(race, payments - 1);
      st := PayNext(race, before, payments - 1);
    }
  }

  /**
   The bound is exact, with one attempt at a time and no copy invoked twice: naive copies that are each
   lost between their payment and their claim are all paid.
   */
  lemma FaultyBoundReached(race: Race, payments: nat) returns (states: seq<State>, labels: seq<Label>)
    requires ValidRace(race) && payments <= |race.copies|
    ensures IsFaultyRace(race, Naive, states, labels) && Invoked(labels) == race.copies[..payments]
    ensures |states[|labels|].store.effects| == payments
  {
    var st := PayFirst(race, payments);
    states, labels :| RaceTo(race, race.copies[..payments], st, states, labels);
  }

  // --- The protected processor ----------------------------------------------------------------------

  lemma DueOfRace(race: Race, e: Event)
    requires e.key == race.key && e.amount == race.amount
    ensures OwedEvent([RaceEntry(race)], e)
  {
    assert [RaceEntry(race)][0].key == e.key;
    assert [RaceEntry(race)][..0] == [];
  }

  lemma StepRaceSafe(race: Race, st: State, l: Label)
    requires ValidRace(race) && RaceKnown(race, Protected, st) && P.Safe(RaceSetup(race, Protected), st)
    requires OfWorkers(l) && Enabled(RaceSetup(race, Protected), st, l)
    ensures P.Safe(RaceSetup(race, Protected), Step(RaceSetup(race, Protected), st, l))
  {
    var cfg := RaceSetup(race, Protected);
    match l
    case Receive(e) => P.ReceiveOk(cfg, st.store, st.workers, e);
    case Crash(i) => P.CrashOk(cfg, st.store, st.workers, i);
    case Request(i, r) =>
      CopiesAreEqual(race, Protected, st);
      assert st.workers[i].event in st.sent;
      DueOfRace(race, st.workers[i].event);
      P.OwedRequestSafe(cfg, st, i, r);
  }

  lemma {:induction false} RunRaceSafe(race: Race, states: seq<State>, labels: seq<Label>, n: nat)
    requires ValidRace(race) && IsFaultyRace(race, Protected, states, labels) && n < |states|
    ensures P.Safe(RaceSetup(race, Protected), states[n])
  {
    if n > 0 {
      RunRaceSafe(race, states, labels, n - 1);
      RunKnown(race, Protected, states, labels, n - 1);
      StepRaceSafe(race, states[n - 1], labels[n - 1]);
    }
  }

  lemma {:induction false} PaymentsOfOneKey(effects: seq<Effect>, k: Key)
    requires forall i :: 0 <= i < |effects| ==> effects[i].key == k
    ensures Payments(effects)[k] == |effects|
  {
    if effects == [] {
      assert EffectKeys([]) == [];
    } else {
      var n := |effects| - 1;
      PaymentsOfOneKey(effects[..n], k);
      SpentAppend(effects[..n], effects[n]);
      assert effects == effects[..n] + [effects[n]];
    }
  }

  /** All payments are of one key, and no key is paid twice. */
  lemma OneAtMost(race: Race, s: Store)
    requires P.OneToOne(s) && forall i :: 0 <= i < |s.effects| ==> s.effects[i].key == race.key
    ensures |s.effects| == if race.key in s.claims then 1 else 0
  {
    PaymentsOfOneKey(s.effects, race.key);
    P.PaidIffClaimed(s);
  }

  /** A recorded copy has paid, or was refused because another one has. */
  lemma RecordedMeansClaimed(race: Race, st: State)
    requires ValidRace(race) && RaceKnown(race, Protected, st) && P.Safe(RaceSetup(race, Protected), st)
    requires st.store.rows != []
    ensures race.key in st.store.claims
  {
    var cfg, row := RaceSetup(race, Protected), st.store.rows[0];
    CopiesAreEqual(race, Protected, st);
    assert RowFrom(st.sent, row);
    var e :| e in st.sent && e.deliveryId == row.deliveryId && e.key == row.key;
    assert row.key == race.key;
    if row.outcome == Committed {
      assert P.PaidByRow(st.store, row);
    } else {
      assert P.Refused(cfg, st.store, row.key);
      if race.key !in st.store.claims {
        UnclaimedIsUnspent(race, st);
        DueOfRace(race, e);
        assert |race.copies| * race.amount >= race.amount
               by { assert e in race.copies; Multiple(|race.copies|, race.amount); }
      }
    }
  }

  lemma Multiple(copies: nat, amount: int)
    requires copies >= 1 && amount >= 1
    ensures copies * amount >= amount
  {
    assert copies * amount == amount + (copies - 1) * amount;
    assert (copies - 1) * amount >= 0;
  }

  lemma UnclaimedIsUnspent(race: Race, st: State)
    requires RaceKnown(race, Protected, st) && P.Safe(RaceSetup(race, Protected), st)
    requires race.key !in st.store.claims
    requires forall i :: 0 <= i < |st.store.effects| ==> st.store.effects[i].key == race.key
    ensures st.store.remaining == |race.copies| * race.amount
  {
    OneAtMost(race, st.store);
    assert EffectAmounts([]) == [];
    P.NoMoneyHeld(RaceSetup(race, Protected), st);
  }

  lemma SafePaysOnce(race: Race, st: State)
    requires ValidRace(race) && RaceKnown(race, Protected, st) && P.Safe(RaceSetup(race, Protected), st)
    ensures |st.store.effects| <= 1 && (st.store.rows != [] ==> |st.store.effects| == 1)
    ensures st.store.rows != [] ==> st.store.remaining == |race.copies| * race.amount - race.amount
  {
    CopiesAreEqual(race, Protected, st);
    OneAtMost(race, st.store);
    if st.store.rows != [] {
      RecordedMeansClaimed(race, st);
      OnePaymentLeft(race, st);
    }
  }

  lemma OnePaymentLeft(race: Race, st: State)
    requires RaceKnown(race, Protected, st) && P.Safe(RaceSetup(race, Protected), st)
    requires |st.store.effects| == 1 && st.store.effects[0].amount == race.amount
    ensures st.store.remaining == |race.copies| * race.amount - race.amount
  {
    SameAmounts(st.store.effects, race.amount);
    P.NoMoneyHeld(RaceSetup(race, Protected), st);
  }

  /**
   A protected race of any number of copies, with any faults: never more than one payment, and exactly
   one as soon as any copy is recorded; FinishRace then reports no overpayment and PASS.
   */
  lemma ProtectedRacePaysOnce(race: Race, states: seq<State>, labels: seq<Label>, n: nat)
    requires ValidRace(race) && IsFaultyRace(race, Protected, states, labels) && n < |states|
    ensures var s := states[n].store;
            && |s.effects| <= 1
            && (s.rows != [] ==>
                  var result := FinishRace(|race.copies|, race.amount, s.effects, s.rows);
                  result.payments == 1 && result.overpaid == 0 && result.verdict == Pass
                  && s.remaining == |race.copies| * race.amount - race.amount)
  {
    RunKnown(race, Protected, states, labels, n);
    RunRaceSafe(race, states, labels, n);
    SafePaysOnce(race, states[n]);
  }
}
