/** What the Race Lab starts (backend/src/services/race_service.py): `copies` deliveries of one event. */
module RaceStart {
  import opened Domain
  import opened Keys
  import opened Storage
  import opened Injection
  import opened NaiveRace
  import opened Invariants
  import opened Protocol
  import opened RaceFaults

  const RACE_SCHEME_ID := "DEMO-RACE"
  const RACE_BENEFICIARY_ID := "RACE-001"
  const RACE_ACADEMIC_YEAR := "2026-27"
  const RACE_LOGICAL_EVENT_ID := "EVT-001"
  const RACE_AMOUNT_PAISE := 1_000_000
  const RACE_CONCURRENCY: nat := 6

  function RaceKey(): Result<Key, KeyError> {
    BuildEntitlementKey(RACE_SCHEME_ID, RACE_BENEFICIARY_ID, RACE_ACADEMIC_YEAR, 1)
  }

  function RaceCopy(runId: string, key: Key, copy: nat): Event {
    Event(runId, DeriveDeliveryId(runId, PhaseA, Copy(RACE_LOGICAL_EVENT_ID, copy)), RACE_LOGICAL_EVENT_ID, key,
          RACE_SCHEME_ID, RACE_BENEFICIARY_ID, RACE_ACADEMIC_YEAR, 1, RACE_AMOUNT_PAISE,
          PhaseA, copy, if copy == 1 then None else Some(RACE_LOGICAL_EVENT_ID))
  }

  function DeliveriesFor(runId: string, key: Key, copies: nat): seq<Event> {
    seq(copies, i requires 0 <= i < copies => RaceCopy(runId, key, i + 1))
  }

  function RaceOf(runId: string, key: Key, copies: nat, maxAttempts: nat): Race {
    Race(DeliveriesFor(runId, key, copies), key, RACE_AMOUNT_PAISE, RACE_CONCURRENCY, maxAttempts)
  }

  lemma RaceKeyBuilds()
    ensures RaceKey().Ok?
  {
    assert KEY_SEPARATOR !in RACE_SCHEME_ID && KEY_SEPARATOR !in RACE_BENEFICIARY_ID
           && KEY_SEPARATOR !in RACE_ACADEMIC_YEAR;
  }

  /** Every race the service starts is one the bounds apply to, with a budget for every copy. */
  lemma RaceIsValid(runId: string, copies: nat, maxAttempts: nat)
    requires maxAttempts >= 1
    ensures RaceKey().Ok?
    ensures var race := RaceOf(runId, RaceKey().value, copies, maxAttempts);
            && ValidRace(race) && |race.copies| == copies
            && StartRace(race).store == Fresh(copies * RACE_AMOUNT_PAISE)
            && forall i :: 0 <= i < copies ==>
                 var e := race.copies[i];
                 && ConsistentKey(e) && e.key == race.key && e.amount == RACE_AMOUNT_PAISE
                 && e.runId == runId && e.schemeId == RACE_SCHEME_ID && e.beneficiaryId == RACE_BENEFICIARY_ID
                 && e.academicYear == RACE_ACADEMIC_YEAR && e.installment == 1
                 && e.logicalId == RACE_LOGICAL_EVENT_ID && e.phase == PhaseA && e.copyIndex == i + 1
                 && e.duplicateOf == if i == 0 then None else Some(RACE_LOGICAL_EVENT_ID)
  {
    RaceKeyBuilds();
    var race := RaceOf(runId, RaceKey().value, copies, maxAttempts);
    forall i, j | 0 <= i < j < copies ensures race.copies[i].deliveryId != race.copies[j].deliveryId {
      if race.copies[i].deliveryId == race.copies[j].deliveryId {
        DeliveryIdInjective(runId, PhaseA, Copy(RACE_LOGICAL_EVENT_ID, i + 1), PhaseA,
          Copy(RACE_LOGICAL_EVENT_ID, j + 1));
      }
    }
  }

  /** So a race of any size finishes with between one and six payments, and reports what was overpaid. */
  lemma RaceOutcome(
      runId: string, copies: nat, maxAttempts: nat, states: seq<RaceState>, labels: seq<RaceLabel>, n: nat)
    requires maxAttempts >= 1 && copies >= 1 && RaceKey().Ok?
    requires var race := RaceOf(runId, RaceKey().value, copies, maxAttempts);
             IsRace(race, states, labels) && n < |states| && Finished(race, states[n])
    ensures var result := FinishRace(copies, RACE_AMOUNT_PAISE, states[n].store.effects, states[n].store.rows);
            && result.recorded == copies && 1 <= result.payments <= RACE_CONCURRENCY
            && result.overpaid == RACE_AMOUNT_PAISE * result.extraPayments
            && result.overpaid == copies * RACE_AMOUNT_PAISE - states[n].store.remaining - RACE_AMOUNT_PAISE
  {
    RaceIsValid(runId, copies, maxAttempts);
    RaceOverpays(RaceOf(runId, RaceKey().value, copies, maxAttempts), states, labels, n);
  }

  /** With the protected processor a race pays once, whatever is lost and invoked again. */
  lemma ProtectedRaceOutcome(
      runId: string, copies: nat, maxAttempts: nat, states: seq<State>, labels: seq<Label>, n: nat)
    requires maxAttempts >= 1 && RaceKey().Ok?
    requires IsFaultyRace(RaceOf(runId, RaceKey().value, copies, maxAttempts), Protected, states, labels)
    requires n < |states|
    ensures states[n].store.rows != [] ==>
              var result := FinishRace(copies, RACE_AMOUNT_PAISE, states[n].store.effects, states[n].store.rows);
              result.payments == 1 && result.overpaid == 0 && result.verdict == Pass
  {
    RaceIsValid(runId, copies, maxAttempts);
    ProtectedRacePaysOnce(RaceOf(runId, RaceKey().value, copies, maxAttempts), states, labels, n);
  }

  /** With any processor and any faults it never pays more often than there are copies. */
  lemma AnyRaceOutcome(
      runId: string, p: Processor, copies: nat, maxAttempts: nat, states: seq<State>, labels: seq<Label>, n: nat)
    requires maxAttempts >= 1 && RaceKey().Ok?
    requires IsFaultyRace(RaceOf(runId, RaceKey().value, copies, maxAttempts), p, states, labels) && n < |states|
    ensures |states[n].store.effects| <= copies
    ensures states[n].store.remaining + RACE_AMOUNT_PAISE * |states[n].store.effects| + Unwritten(states[n].workers)
            == copies * RACE_AMOUNT_PAISE
  {
    RaceIsValid(runId, copies, maxAttempts);
    FaultyRaceConserves(RaceOf(runId, RaceKey().value, copies, maxAttempts), p, states, labels, n);
  }
}
