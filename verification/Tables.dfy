/**
 The storage adapter as an object (backend/src/adapters/dynamodb/disbursement_store.py).
 Before each request other workers may change the tables; the database then replies.
 */
module Tables {
  import opened Domain
  import opened Storage

  /** What happens around one request: what others did before it, and how the database replies. */
  datatype Turn = Turn(others: Store -> Store, reply: Reply)

  /** One request as it happened: the tables it met, the reply, the tables it left. */
  datatype Exchange = Exchange(seen: Store, reply: Reply, after: Store)

  class DynamoDisbursementStore {
    var tables: Store
    var requests: nat
    const turns: nat -> Turn
    ghost var trace: seq<Exchange>

    ghost predicate Valid()
      reads this
    {
      requests == |trace|
    }

    /** The tables the next request will meet. */
    function Met(): Store
      reads this
    {
      turns(requests).others(tables)
    }

    function Reply(): Reply
      reads this
    {
      turns(requests).reply
    }

    constructor (budget: int, turns: nat -> Turn)
      ensures Valid() && tables == Fresh(budget) && trace == [] && this.turns == turns
    {
      tables, requests, trace := Fresh(budget), 0, [];
      this.turns := turns;
    }

    /** One exchange happened: met as announced, and left as `after`. */
    twostate predicate Exchanged(after: Store)
      reads this
    {
      Valid() && tables == after && trace == old(trace) + [Exchange(old(Met()), old(Reply()), after)]
    }

    method Finish(met: Store, reply: Reply, after: Store)
      requires Valid() && met == Met() && reply == Reply()
      modifies this`tables, this`requests, this`trace
      ensures Exchanged(after)
    {
      trace := trace + [Exchange(met, reply, after)];
      tables := after;
      requests := requests + 1;
    }

    /** The four-item transaction: all four writes, or a typed outcome from the cancellation. */
    method CommitPayment(e: Event, effectId: nat, attempt: nat) returns (answer: Answer)
      requires Valid()
      modifies this`tables, this`requests, this`trace
      ensures answer == CommitAnswer(old(Met()), e, old(Reply()))
      ensures Exchanged(Storage.CommitPayment(old(Met()), e, effectId, attempt, old(Reply())))
      ensures if answer == Applied then PaidInFull(old(Met()), tables, e, effectId, attempt) else tables == old(Met())
    {
      CommitPaysInFull(Met(), e, effectId, attempt, Reply());
      var met, reply := Met(), Reply();
      match reply {
        case Proceed =>
          if CommitAllowed(met, e) {
            Finish(met, reply, WithPayment(met, e, effectId, attempt));
            return Applied;
          }
          answer := ClassifyCommit(CommitReasons(met, e));
        case Cancel(reasons) => answer := ClassifyCommit(reasons);
        case Transient => answer := WriteConflict;
      }
      CancelledNeverApplies(if reply.Cancel? then reply.reasons else CommitReasons(met, e));
      Finish(met, reply, met);
    }

    /** The two-item transaction: the Deliveries row and its counters. */
    method RecordOutcome(row: Delivery) returns (answer: Answer)
      requires Valid()
      modifies this`tables, this`requests, this`trace
      ensures answer == RecordAnswer(old(Met()), row.deliveryId, old(Reply()))
      ensures Exchanged(Storage.RecordOutcome(old(Met()), row, old(Reply())))
    {
      var met, reply := Met(), Reply();
      match reply {
        case Proceed =>
          if RecordAllowed(met, row.deliveryId) {
            Finish(met, reply, WithRow(met, row));
            return Applied;
          }
          answer := ClassifyRecord(RecordReasons(met, row.deliveryId));
        case Cancel(reasons) => answer := ClassifyRecord(reasons);
        case Transient => answer := WriteConflict;
      }
      CancelledNeverApplies(if reply.Cancel? then reply.reasons else RecordReasons(met, row.deliveryId));
      Finish(met, reply, met);
    }

    /** One conditional update. */
    method DebitBudget(amount: int) returns (answer: Answer)
      requires Valid()
      modifies this`tables, this`requests, this`trace
      ensures answer == DebitAnswer(old(Met()), amount, old(Reply()))
      ensures Exchanged(Storage.DebitBudget(old(Met()), amount, old(Reply())))
    {
      var met, reply := Met(), Reply();
      var after := met;
      if !reply.Proceed? {
        answer := WriteConflict;
      } else if CanDebit(met, amount) {
        after := WithDebit(met, amount);
        answer := Applied;
      } else if met.runExists {
        answer := InsufficientBudget(met.remaining);
      } else {
        answer := UnexpectedCancellation;
      }
      Finish(met, reply, after);
    }

    method PutEffect(effect: Effect) returns (answer: Answer)
      requires Valid()
      modifies this`tables, this`requests, this`trace
      ensures answer == PutAnswer(old(Reply()))
      ensures Exchanged(if answer == Applied then WithEffect(old(Met()), effect) else old(Met()))
    {
      var met, reply := Met(), Reply();
      answer := PutAnswer(reply);
      Finish(met, reply, if answer == Applied then WithEffect(met, effect) else met);
    }

    method PutClaimUnconditionally(effect: Effect) returns (answer: Answer)
      requires Valid()
      modifies this`tables, this`requests, this`trace
      ensures answer == PutAnswer(old(Reply()))
      ensures Exchanged(if answer == Applied then WithClaim(old(Met()), effect) else old(Met()))
    {
      var met, reply := Met(), Reply();
      answer := PutAnswer(reply);
      Finish(met, reply, if answer == Applied then WithClaim(met, effect) else met);
    }

    /** Consistent reads. */
    method IsDeliveryRecorded(id: DeliveryId) returns (found: bool)
      requires Valid()
      modifies this`tables, this`requests, this`trace
      ensures found == Recorded(old(Met()), id) && Exchanged(old(Met()))
    {
      var met, reply := Met(), Reply();
      found := Recorded(met, id);
      Finish(met, reply, met);
    }

    method IsEntitlementClaimed(k: Key) returns (found: bool)
      requires Valid()
      modifies this`tables, this`requests, this`trace
      ensures found == (k in old(Met()).claims) && Exchanged(old(Met()))
    {
      var met, reply := Met(), Reply();
      found := k in met.claims;
      Finish(met, reply, met);
    }

    /** The reads of the evaluation; pages are one consistent list here. */
    method ListEffects() returns (effects: seq<Effect>)
      requires Valid()
      modifies this`tables, this`requests, this`trace
      ensures effects == old(Met()).effects && Exchanged(old(Met()))
    {
      var met, reply := Met(), Reply();
      effects := met.effects;
      Finish(met, reply, met);
    }

    method ListDeliveries() returns (rows: seq<Delivery>)
      requires Valid()
      modifies this`tables, this`requests, this`trace
      ensures rows == old(Met()).rows && Exchanged(old(Met()))
    {
      var met, reply := Met(), Reply();
      rows := met.rows;
      Finish(met, reply, met);
    }
  }
}
