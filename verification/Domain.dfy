/** The vocabulary shared by every part of the model (backend/src/domain/models.py). */
module Domain {

  datatype Option<+T> = None | Some(value: T)

  datatype Result<+T, +E> = Ok(value: T) | Err(error: E)

  datatype Processor = Protected | Vulnerable | Naive

  datatype Phase = PhaseA | PhaseB

  datatype Outcome = Committed | DuplicateSuppressed | BudgetExhausted

  datatype Verdict = Pass | Fail

  /** What a processor reports to the worker about one delivery. */
  datatype Status = Decided(outcome: Outcome) | AlreadyProcessed

  /** The business identity of one payment; `Keys` says how the text is built. */
  datatype Key = Key(text: string)

  /** Version 5 UUIDs are treated as an injective function of the hashed name. */
  datatype DeliveryId = Uuid5(name: string)

  datatype Entitlement = Entitlement(beneficiaryId: string, displayName: string, amount: int, installment: int)

  /** One entry of the dictionary `entitlement key -> entitlement`. */
  datatype Entry = Entry(key: Key, owed: Entitlement)

  /** One delivery of a logical event: the body of one queue message. */
  datatype Event = Event(
    runId: string, deliveryId: DeliveryId, logicalId: string, key: Key,
    schemeId: string, beneficiaryId: string, academicYear: string, installment: int,
    amount: int, phase: Phase, copyIndex: int, duplicateOf: Option<string>)

  /** A payment written to the ledger. */
  datatype Effect = Effect(
    effectId: nat, key: Key, beneficiaryId: string, installment: int,
    amount: int, logicalId: string, deliveryId: DeliveryId)

  /** A Deliveries row; timestamps and the request id are not modelled. */
  datatype Delivery = Delivery(
    deliveryId: DeliveryId, logicalId: string, key: Key, beneficiaryId: string, installment: int,
    phase: Phase, copyIndex: int, duplicateOf: Option<string>,
    outcome: Outcome, attempt: nat, effectId: Option<nat>, seen: Option<int>)

  function EffectFor(e: Event, effectId: nat): Effect {
    Effect(effectId, e.key, e.beneficiaryId, e.installment, e.amount, e.logicalId, e.deliveryId)
  }

  function DeliveryFor(e: Event, outcome: Outcome, attempt: nat, effectId: Option<nat>, seen: Option<int>): Delivery {
    Delivery(e.deliveryId, e.logicalId, e.key, e.beneficiaryId, e.installment,
             e.phase, e.copyIndex, e.duplicateOf, outcome, attempt, effectId, seen)
  }

  /** The payment names the delivery it was made for, to whom, and how much. */
  ghost predicate PaymentOf(x: Effect, e: Event) {
    && x.key == e.key && x.beneficiaryId == e.beneficiaryId && x.installment == e.installment
    && x.amount == e.amount && x.logicalId == e.logicalId && x.deliveryId == e.deliveryId
  }

  /** The row names the delivery it records. */
  ghost predicate RecordOf(row: Delivery, e: Event) {
    && row.deliveryId == e.deliveryId && row.logicalId == e.logicalId && row.key == e.key
    && row.beneficiaryId == e.beneficiaryId && row.installment == e.installment
    && row.phase == e.phase && row.copyIndex == e.copyIndex && row.duplicateOf == e.duplicateOf
  }

  function EffectKeys(effects: seq<Effect>): seq<Key> {
    seq(|effects|, i requires 0 <= i < |effects| => effects[i].key)
  }

  function EffectAmounts(effects: seq<Effect>): seq<int> {
    seq(|effects|, i requires 0 <= i < |effects| => effects[i].amount)
  }

  function EventKeys(events: seq<Event>): seq<Key> {
    seq(|events|, i requires 0 <= i < |events| => events[i].key)
  }

  function EventAmounts(events: seq<Event>): seq<int> {
    seq(|events|, i requires 0 <= i < |events| => events[i].amount)
  }

  /** How many payments each entitlement has received. */
  function Payments(effects: seq<Effect>): multiset<Key> {
    multiset(EffectKeys(effects))
  }
}
