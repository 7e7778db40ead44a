/**
 Runs of the protected processor (backend/src/processors/protected.py): safety in every
 reachable state, completeness once every planned delivery is recorded, and quiescence.
 */
module ProtectedRun {
  import opened Domain
  import opened Accounts
  import opened Storage
  import opened Machine
  import opened Evaluator
  import opened Protocol
  import opened Invariants

  // --- Safety ---------------------------------------------------------------------------

  /** A protected worker never stands between a debit and a payment. */
  predicate ProtectedPc(pc: Pc) {
    match pc
    case CommitPc => true
    case RecordPc(o, id, seen) => o != Committed && id == None
    case DonePc(_) => true
    case VanishedPc(at) => !at.PutEffectPc?
    case _ => false
  }

  ghost predicate CommittedRow(s: Store, x: Effect) {
    exists i :: 0 <= i < |s.rows| && s.rows[i].outcome == Committed && s.rows[i].deliveryId == x.deliveryId
                && s.rows[i].key == x.key && s.rows[i].effectId == Some(x.effectId)
  }

  /** Every payment has its claim, every claim its payment, and no key is paid twice. */
  ghost predicate ClaimsMatch(s: Store) {
    && (forall i :: 0 <= i < |s.effects| ==> s.effects[i].key in s.claims && s.claims[s.effects[i].key] == s.effects[i])
    && (forall k :: k in s.claims ==> s.claims[k] in s.effects && s.claims[k].key == k)
    && (forall i, j :: 0 <= i < j < |s.effects| ==> s.effects[i].key != s.effects[j].key)
  }

  /** Every payment has its COMMITTED row, and every COMMITTED row its payment. */
  ghost predicate RowsMatch(s: Store) {
    && (forall i :: 0 <= i < |s.effects| ==> CommittedRow(s, s.effects[i]))
    && (forall i :: 0 <= i < |s.rows| && s.rows[i].outcome == Committed ==> PaidByRow(s, s.rows[i]))
  }

  /** Claims, payments and COMMITTED rows are three views of the same set of payments. */
  ghost predicate OneToOne(s: Store) {
    ClaimsMatch(s) && RowsMatch(s) && s.committed == |s.effects|
  }

  ghost predicate PaidByRow(s: Store, row: Delivery) {
    && row.key in s.claims
    && s.claims[row.key].deliveryId == row.deliveryId
    && row.effectId == Some(s.claims[row.key].effectId)
  }

  /** A delivery that did not pay names an entitlement some other delivery paid, if it is paid at all. */
  ghost predicate NotPaidByRow(s: Store, row: Delivery) {
    && row.effectId == None
    && (row.key in s.claims ==> s.claims[row.key].deliveryId != row.deliveryId)
  }

  /** An entitlement is refused for good: already paid, or dearer than the budget left. */
  ghost predicate Refused(cfg: Setup, s: Store, k: Key) {
    k in s.claims || s.remaining < Due(cfg.eligible, k)
  }

  ghost predicate Refusals(cfg: Setup, s: Store) {
    forall i :: 0 <= i < |s.rows| && s.rows[i].outcome != Committed ==>
      && NotPaidByRow(s, s.rows[i])
      && (s.rows[i].outcome == DuplicateSuppressed ==> s.rows[i].key in s.claims)
      && Refused(cfg, s, s.rows[i].key)
  }

  ghost predicate WorkerOk(cfg: Setup, s: Store, w: Worker) {
    && ProtectedPc(w.pc)
    && (w.pc.RecordPc? ==> Refused(cfg, s, w.event.key))
    && (w.pc.RecordPc? && w.pc.outcome == DuplicateSuppressed ==> w.event.key in s.claims)
  }

  ghost predicate Safe(cfg: Setup, st: State) {
    && OneToOne(st.store)
    && Refusals(cfg, st.store)
    && WorkersOk(cfg, st.store, st.workers)
  }

  ghost predicate WorkersOk(cfg: Setup, s: Store, workers: seq<Worker>) {
    forall i :: 0 <= i < |workers| ==> WorkerOk(cfg, s, workers[i])
  }

  /** Later tables: payments and rows are only ever added, money only ever spent. */
  ghost predicate Later(s: Store, s': Store) {
    && s.rows <= s'.rows
    && s'.remaining <= s.remaining
    && (forall k :: k in s.claims ==> k in s'.claims && s'.claims[k] == s.claims[k])
  }

  lemma WorkerOkStays(cfg: Setup, s: Store, s': Store, w: Worker)
    requires Later(s, s') && WorkerOk(cfg, s, w)
    ensures WorkerOk(cfg, s', w)
  {
  }

  lemma PaymentIsLater(s: Store, e: Event, effectId: nat, attempt: nat)
    requires e.key !in s.claims && e.amount >= 0
    ensures Later(s, WithPayment(s, e, effectId, attempt))
  {
  }

  /** Appending a row keeps every payment's COMMITTED row in place. */
  lemma CommittedRowStays(s: Store, s': Store, x: Effect)
    requires s.rows <= s'.rows && CommittedRow(s, x)
    ensures CommittedRow(s', x)
  {
    var j :| 0 <= j < |s.rows| && s.rows[j].outcome == Committed && s.rows[j].deliveryId == x.deliveryId
             && s.rows[j].key == x.key && s.rows[j].effectId == Some(x.effectId);
    assert s'.rows[j] == s.rows[j];
  }

  lemma PaymentKeepsClaims(s: Store, e: Event, effectId: nat, attempt: nat)
    requires ClaimsMatch(s) && e.key !in s.claims
    ensures ClaimsMatch(WithPayment(s, e, effectId, attempt))
  {
    var s', n := WithPayment(s, e, effectId, attempt), |s.effects|;
    assert s'.effects[n] == s'.claims[e.key];
    forall k | k in s'.claims ensures s'.claims[k] in s'.effects && s'.claims[k].key == k {
      if k != e.key {
        var j :| 0 <= j < n && s.effects[j] == s.claims[k];
        assert s'.effects[j] == s.effects[j];
      }
    }
  }

  lemma PaymentKeepsRows(s: Store, e: Event, effectId: nat, attempt: nat)
    requires RowsMatch(s) && e.key !in s.claims
    ensures RowsMatch(WithPayment(s, e, effectId, attempt))
  {
    var s', n, m := WithPayment(s, e, effectId, attempt), |s.effects|, |s.rows|;
    forall i | 0 <= i < |s'.effects| ensures CommittedRow(s', s'.effects[i]) {
      if i < n {
        CommittedRowStays(s, s', s.effects[i]);
      } else {
        assert s'.rows[m].outcome == Committed;
      }
    }
  }

  lemma PaymentKeepsOneToOne(s: Store, e: Event, effectId: nat, attempt: nat)
    requires OneToOne(s) && CommitAllowed(s, e)
    ensures OneToOne(WithPayment(s, e, effectId, attempt))
  {
    PaymentKeepsClaims(s, e, effectId, attempt);
    PaymentKeepsRows(s, e, effectId, attempt);
  }

  lemma PaymentKeepsRefusals(cfg: Setup, s: Store, e: Event, effectId: nat, attempt: nat)
    requires Refusals(cfg, s) && CommitAllowed(s, e) && e.amount >= 0
    ensures Refusals(cfg, WithPayment(s, e, effectId, attempt))
  {
    var s' := WithPayment(s, e, effectId, attempt);
    forall i | 0 <= i < |s'.rows| && s'.rows[i].outcome != Committed
      ensures NotPaidByRow(s', s'.rows[i])
      ensures s'.rows[i].outcome == DuplicateSuppressed ==> s'.rows[i].key in s'.claims
      ensures Refused(cfg, s', s'.rows[i].key)
    {
      assert i < |s.rows| && s'.rows[i] == s.rows[i];
      assert s.rows[i].deliveryId != e.deliveryId;
    }
  }

  lemma RowKeepsOneToOne(s: Store, row: Delivery)
    requires OneToOne(s) && row.outcome != Committed
    ensures OneToOne(WithRow(s, row))
  {
    var s' := WithRow(s, row);
    forall i | 0 <= i < |s'.effects| ensures CommittedRow(s', s'.effects[i]) {
      CommittedRowStays(s, s', s.effects[i]);
    }
  }

  lemma ClaimsAreRecorded(s: Store, k: Key)
    requires OneToOne(s) && k in s.claims
    ensures Recorded(s, s.claims[k].deliveryId)
  {
    var i :| 0 <= i < |s.effects| && s.effects[i] == s.claims[k];
    assert CommittedRow(s, s.effects[i]);
  }

  lemma RowKeepsRefusals(cfg: Setup, s: Store, w: Worker)
    requires OneToOne(s) && Refusals(cfg, s) && WorkerOk(cfg, s, w) && w.pc.RecordPc?
    requires !Recorded(s, w.event.deliveryId)
    ensures Refusals(cfg, WithRow(s, RowOf(w)))
  {
    var s', row := WithRow(s, RowOf(w)), RowOf(w);
    if row.key in s.claims {
      ClaimsAreRecorded(s, row.key);
    }
    forall i | 0 <= i < |s'.rows| && s'.rows[i].outcome != Committed
      ensures NotPaidByRow(s', s'.rows[i])
      ensures s'.rows[i].outcome == DuplicateSuppressed ==> s'.rows[i].key in s'.claims
      ensures Refused(cfg, s', s'.rows[i].key)
    {
      if i < |s.rows| {
        assert s'.rows[i] == s.rows[i];
      }
    }
  }

  ghost predicate SafeAfter(cfg: Setup, s: Store, s': Store, w': Worker) {
    OneToOne(s') && Refusals(cfg, s') && Later(s, s') && WorkerOk(cfg, s', w')
  }

  lemma PaymentSafe(cfg: Setup, s: Store, w: Worker, w': Worker)
    requires CommitAllowed(s, w.event) && OneToOne(s) && Refusals(cfg, s) && w.event.amount >= 1
    requires w'.pc.DonePc?
    ensures SafeAfter(cfg, s, WithPayment(s, w.event, w.effectId, w.attempts + 1), w')
  {
    PaymentIsLater(s, w.event, w.effectId, w.attempts + 1);
    PaymentKeepsOneToOne(s, w.event, w.effectId, w.attempts + 1);
    PaymentKeepsRefusals(cfg, s, w.event, w.effectId, w.attempts + 1);
  }

  /** A refused commit leads to a second transaction whose outcome is the truth. */
  lemma RefusalOk(cfg: Setup, s: Store, w: Worker, r: Reply)
    requires w.pc.CommitPc? && Possible(s, w, r, cfg.complete) && OwedEvent(cfg.eligible, w.event)
    requires CommitAnswer(s, w.event, r) != Applied
    ensures WorkerOk(cfg, s, AfterCommit(cfg.maxAttempts, w, CommitAnswer(s, w.event, r)))
  {
    SoundCommitAnswer(s, w.event, r);
  }

  /** The commit transaction pays, or leads to a second one. */
  lemma CommitSafe(cfg: Setup, s: Store, w: Worker, r: Reply)
    requires w.pc.CommitPc? && Possible(s, w, r, cfg.complete)
    requires OneToOne(s) && Refusals(cfg, s)
    requires OwedEvent(cfg.eligible, w.event) && w.event.amount >= 1
    ensures SafeAfter(cfg, s, StoreAfter(s, w, r), WorkerAfter(cfg.maxAttempts, Protected, s, w, r))
  {
    CommitCases(cfg, s, w, r);
    if CommitAnswer(s, w.event, r) == Applied {
      SoundCommitAnswer(s, w.event, r);
      PaymentSafe(cfg, s, w, AfterCommit(cfg.maxAttempts, w, Applied));
    } else {
      RefusalOk(cfg, s, w, r);
    }
  }

  lemma CommitCases(cfg: Setup, s: Store, w: Worker, r: Reply)
    requires w.pc.CommitPc?
    ensures WorkerAfter(cfg.maxAttempts, Protected, s, w, r)
            == AfterCommit(cfg.maxAttempts, w, CommitAnswer(s, w.event, r))
    ensures StoreAfter(s, w, r)
            == if CommitAnswer(s, w.event, r) == Applied then WithPayment(s, w.event, w.effectId, w.attempts + 1) else s
  {
  }

  lemma RecordSafe(cfg: Setup, s: Store, w: Worker, r: Reply)
    requires w.pc.RecordPc? && Possible(s, w, r, cfg.complete)
    requires OneToOne(s) && Refusals(cfg, s) && WorkerOk(cfg, s, w)
    ensures SafeAfter(cfg, s, StoreAfter(s, w, r), WorkerAfter(cfg.maxAttempts, Protected, s, w, r))
  {
    SoundRecordAnswer(s, w.event.deliveryId, r);
    if RecordAnswer(s, w.event.deliveryId, r) == Applied {
      RowKeepsOneToOne(s, RowOf(w));
      RowKeepsRefusals(cfg, s, w);
    }
  }

  /** One request of a worker whose event carries what its entitlement is owed. */
  lemma OwedRequestSafe(cfg: Setup, st: State, i: nat, r: Reply)
    requires cfg.processor == Protected && Safe(cfg, st) && Enabled(cfg, st, Request(i, r))
    requires OwedEvent(cfg.eligible, st.workers[i].event) && st.workers[i].event.amount >= 1
    ensures Safe(cfg, Requested(cfg, st, i, r))
    ensures Later(st.store, Requested(cfg, st, i, r).store)
  {
    var w := st.workers[i];
    assert WorkerOk(cfg, st.store, w);
    var s', w' := StoreAfter(st.store, w, r), WorkerAfter(cfg.maxAttempts, Protected, st.store, w, r);
    assert SafeAfter(cfg, st.store, s', w') by {
      if w.pc.CommitPc? {
        CommitSafe(cfg, st.store, w, r);
      } else {
        RecordSafe(cfg, st.store, w, r);
      }
    }
    forall j | 0 <= j < |st.workers| && j != i ensures WorkerOk(cfg, s', st.workers[j]) {
      WorkerOkStays(cfg, st.store, s', st.workers[j]);
    }
  }

  lemma RequestSafe(cfg: Setup, st: State, i: nat, r: Reply)
    requires ValidSetup(cfg) && cfg.processor == Protected
    requires Provenance(cfg, st) && Safe(cfg, st) && Enabled(cfg, st, Request(i, r))
    ensures Safe(cfg, Requested(cfg, st, i, r))
    ensures Later(st.store, Requested(cfg, st, i, r).store)
  {
    PlannedIsOwed(cfg, st, st.workers[i].event);
    OwedRequestSafe(cfg, st, i, r);
  }

  lemma CrashOk(cfg: Setup, s: Store, workers: seq<Worker>, i: nat)
    requires WorkersOk(cfg, s, workers) && i < |workers| && Live(workers[i])
    ensures WorkersOk(cfg, s, workers[i := Vanish(workers[i])])
  {
    assert WorkerOk(cfg, s, workers[i]);
  }

  lemma ReceiveOk(cfg: Setup, s: Store, workers: seq<Worker>, e: Event)
    requires WorkersOk(cfg, s, workers)
    ensures WorkersOk(cfg, s, workers + [Start(Protected, e, |workers|)])
  {
  }

  lemma StepSafe(cfg: Setup, st: State, l: Label)
    requires ValidSetup(cfg) && cfg.processor == Protected
    requires Inv(cfg, st) && Safe(cfg, st) && Enabled(cfg, st, l)
    ensures Safe(cfg, Step(cfg, st, l))
    ensures Later(st.store, Step(cfg, st, l).store)
  {
    match l
    case Request(i, r) => RequestSafe(cfg, st, i, r);
    case Task(m) => TaskFrame(cfg, st, m);
    case Receive(e) => ReceiveOk(cfg, st.store, st.workers, e);
    case Crash(i) => CrashOk(cfg, st.store, st.workers, i);
    case _ =>
  }

  /**
   Safety in every reachable state, under any interleaving, crash, conflict and
   redelivery, for sound (even incomplete) cancellation lists and any starting budget.
   */
  lemma {:induction false} RunSafe(cfg: Setup, states: seq<State>, labels: seq<Label>, n: nat)
    requires ValidSetup(cfg) && cfg.processor == Protected
    requires IsRun(cfg, states, labels) && n < |states|
    ensures Inv(cfg, states[n]) && Safe(cfg, states[n])
  {
    RunInv(cfg, states, labels, n);
    if n > 0 {
      RunSafe(cfg, states, labels, n - 1);
      StepSafe(cfg, states[n - 1], labels[n - 1]);
    }
  }

  // --- Money --------------------------------------------------------------------------------

  lemma {:induction false} NothingHeld(workers: seq<Worker>)
    requires forall i :: 0 <= i < |workers| ==> ProtectedPc(workers[i].pc)
    ensures Unwritten(workers) == 0
  {
    if workers != [] {
      var n := |workers| - 1;
      NothingHeld(workers[..n]);
      UnwrittenAppend(workers[..n], workers[n]);
      assert workers == workers[..n] + [workers[n]];
    }
  }

  lemma {:induction false} DistinctOccurOnce(keys: seq<Key>)
    requires Distinct(keys)
    ensures forall k :: multiset(keys)[k] == if k in keys then 1 else 0
  {
    if keys != [] {
      var n := |keys| - 1;
      DistinctOccurOnce(keys[..n]);
      assert keys == keys[..n] + [keys[n]];
      assert keys[n] !in keys[..n];
    }
  }

  /** No entitlement has two payments, and the paid ones are exactly the claimed ones. */
  lemma PaidIffClaimed(s: Store)
    requires OneToOne(s)
    ensures forall k :: Payments(s.effects)[k] == if k in s.claims then 1 else 0
  {
    var keys := EffectKeys(s.effects);
    DistinctOccurOnce(keys);
    forall k ensures k in keys <==> k in s.claims {
      if k in keys {
        var i :| 0 <= i < |keys| && keys[i] == k;
        assert s.effects[i].key == k;
      }
      if k in s.claims {
        var i :| 0 <= i < |s.effects| && s.effects[i] == s.claims[k];
        assert keys[i] == k;
      }
    }
  }

  /** The budget left is always exactly what the unclaimed entitlements are owed. */
  lemma RemainingIsUnclaimed(cfg: Setup, st: State)
    requires ValidSetup(cfg) && FullBudget(cfg) && Inv(cfg, st) && Safe(cfg, st)
    ensures st.store.remaining == UnpaidNeed(cfg.eligible, Payments(st.store.effects))
  {
    NothingMisallocated(cfg, st.store);
    NoMoneyHeld(cfg, st);
    VictimIdentity(cfg, st);
  }

  lemma NothingMisallocated(cfg: Setup, s: Store)
    requires PositiveAmounts(cfg.eligible) && OneToOne(s)
    ensures Misallocated(cfg.eligible, Payments(s.effects)) == 0
  {
    PaidIffClaimed(s);
    MisallocatedNonNegative(cfg.eligible, Payments(s.effects));
  }

  lemma NoMoneyHeld(cfg: Setup, st: State)
    requires Safe(cfg, st)
    ensures Unwritten(st.workers) == 0
  {
    assert forall i :: 0 <= i < |st.workers| ==> WorkerOk(cfg, st.store, st.workers[i]);
    NothingHeld(st.workers);
  }

  /** So no unclaimed entitlement is ever refused for lack of budget. */
  lemma NeverStarved(cfg: Setup, st: State, k: Key)
    requires ValidSetup(cfg) && FullBudget(cfg) && Inv(cfg, st) && Safe(cfg, st)
    requires Eligible(cfg.eligible, k)
    ensures k in st.store.claims || st.store.remaining >= Due(cfg.eligible, k)
    ensures Refused(cfg, st.store, k) ==> k in st.store.claims
  {
    RemainingIsUnclaimed(cfg, st);
    PaidIffClaimed(st.store);
    var i :| 0 <= i < |cfg.eligible| && cfg.eligible[i].key == k;
    DueAt(cfg.eligible, i);
    if k !in st.store.claims {
      UnpaidNeedAtLeast(cfg.eligible, Payments(st.store.effects), i);
    }
  }

  // --- Exact labels ---------------------------------------------------------------------------

  /** With complete cancellation lists no delivery is labelled BUDGET_EXHAUSTED. */
  ghost predicate NoExhausted(st: State) {
    NoExhaustedRow(st.store.rows) && NoneExhausting(st.workers)
  }

  ghost predicate NoneExhausting(workers: seq<Worker>) {
    forall i :: 0 <= i < |workers| ==> NotExhausting(workers[i])
  }

  predicate NotExhausting(w: Worker) {
    w.pc.RecordPc? ==> w.pc.outcome != BudgetExhausted
  }

  lemma CompleteNamesBudget(s: Store, e: Event, r: Reply)
    requires r.Cancel? ==> CompleteCommitReasons(s, e, r.reasons)
    requires CommitAnswer(s, e, r).InsufficientBudget?
    ensures e.key !in s.claims && !CanDebit(s, e.amount)
  {
    var reasons := if r.Cancel? then r.reasons else CommitReasons(s, e);
    assert CompleteCommitReasons(s, e, reasons);
    assert FailedAt(reasons, COMMIT_RUN_BUDGET) && !FailedAt(reasons, COMMIT_IDEMPOTENCY);
    assert !CommitCondition(s, e, COMMIT_RUN_BUDGET) && CommitCondition(s, e, COMMIT_IDEMPOTENCY);
  }

  lemma WorkerNotExhausted(cfg: Setup, s: Store, w: Worker, r: Reply)
    requires Live(w) && ProtectedPc(w.pc) && Possible(s, w, r, true)
    requires Refused(cfg, s, w.event.key) ==> w.event.key in s.claims
    requires w.event.amount == Due(cfg.eligible, w.event.key) && s.runExists
    requires NotExhausting(w)
    ensures NotExhausting(WorkerAfter(cfg.maxAttempts, Protected, s, w, r))
  {
    if w.pc.CommitPc? && CommitAnswer(s, w.event, r).InsufficientBudget? {
      CompleteNamesBudget(s, w.event, r);
    }
  }

  ghost predicate NoExhaustedRow(rows: seq<Delivery>) {
    forall i :: 0 <= i < |rows| ==> rows[i].outcome != BudgetExhausted
  }

  lemma RowNotExhausted(s: Store, w: Worker, r: Reply)
    requires ProtectedPc(w.pc) && NoExhaustedRow(s.rows) && NotExhausting(w)
    ensures NoExhaustedRow(StoreAfter(s, w, r).rows)
  {
  }

  /** An entitlement is only refused once it is paid. */
  lemma RefusedIsClaimed(cfg: Setup, st: State, w: Worker)
    requires ValidSetup(cfg) && FullBudget(cfg) && Inv(cfg, st) && Safe(cfg, st) && w in st.workers
    ensures ProtectedPc(w.pc) && w.event.amount == Due(cfg.eligible, w.event.key) && st.store.runExists
    ensures Refused(cfg, st.store, w.event.key) ==> w.event.key in st.store.claims
  {
    assert WorkerOk(cfg, st.store, w);
    PlannedIsOwed(cfg, st, w.event);
    NeverStarved(cfg, st, w.event.key);
  }

  lemma RequestNotExhausted(cfg: Setup, st: State, i: nat, r: Reply)
    requires ValidSetup(cfg) && FullBudget(cfg) && cfg.processor == Protected && cfg.complete
    requires Inv(cfg, st) && Safe(cfg, st) && NoExhausted(st) && Enabled(cfg, st, Request(i, r))
    ensures NoExhausted(Requested(cfg, st, i, r))
  {
    RefusedIsClaimed(cfg, st, st.workers[i]);
    RowNotExhausted(st.store, st.workers[i], r);
    WorkerNotExhausted(cfg, st.store, st.workers[i], r);
  }

  lemma StepNotExhausted(cfg: Setup, st: State, l: Label)
    requires ValidSetup(cfg) && FullBudget(cfg) && cfg.processor == Protected && cfg.complete
    requires Inv(cfg, st) && Safe(cfg, st) && NoExhausted(st) && Enabled(cfg, st, l)
    ensures NoExhausted(Step(cfg, st, l))
  {
    match l
    case Request(i, r) => RequestNotExhausted(cfg, st, i, r);
    case Task(m) => TaskFrame(cfg, st, m);
    case _ => OthersNotExhausted(cfg, st, l);
  }

  lemma OthersNotExhausted(cfg: Setup, st: State, l: Label)
    requires cfg.processor == Protected && NoExhausted(st) && Enabled(cfg, st, l) && !l.Request? && !l.Task?
    ensures NoExhausted(Step(cfg, st, l))
  {
  }

  lemma {:induction false} RunNotExhausted(cfg: Setup, states: seq<State>, labels: seq<Label>, n: nat)
    requires ValidSetup(cfg) && FullBudget(cfg) && cfg.processor == Protected && cfg.complete
    requires IsRun(cfg, states, labels) && n < |states|
    ensures NoExhausted(states[n])
  {
    if n > 0 {
      RunNotExhausted(cfg, states, labels, n - 1);
      RunSafe(cfg, states, labels, n - 1);
      StepNotExhausted(cfg, states[n - 1], labels[n - 1]);
    }
  }

  /**
   With any sound lists, complete or not, a wrong label costs nobody anything: every delivery that
   did not pay, BUDGET_EXHAUSTED ones included, names an entitlement that another delivery has paid.
   */
  lemma RefusedIsPaidElsewhere(cfg: Setup, states: seq<State>, labels: seq<Label>, n: nat, i: nat)
    requires ValidSetup(cfg) && FullBudget(cfg) && cfg.processor == Protected
    requires IsRun(cfg, states, labels) && n < |states|
    requires i < |states[n].store.rows| && states[n].store.rows[i].outcome != Committed
    ensures var s, row := states[n].store, states[n].store.rows[i];
            && row.key in s.claims && s.claims[row.key].deliveryId != row.deliveryId
            && Payments(s.effects)[row.key] == 1 && CommittedRow(s, s.claims[row.key])
  {
    var st, row := states[n], states[n].store.rows[i];
    RunSafe(cfg, states, labels, n);
    assert NotPaidByRow(st.store, row) && Refused(cfg, st.store, row.key);
    RowIsEligible(cfg, st, i);
    NeverStarved(cfg, st, row.key);
    PaidIffClaimed(st.store);
    ClaimHasRow(st.store, row.key);
  }

  lemma RowIsEligible(cfg: Setup, st: State, i: nat)
    requires ValidSetup(cfg) && Provenance(cfg, st) && i < |st.store.rows|
    ensures Eligible(cfg.eligible, st.store.rows[i].key)
  {
    var row := st.store.rows[i];
    assert RowFrom(st.sent, row);
    var e :| e in st.sent && e.deliveryId == row.deliveryId && e.key == row.key;
    PlannedIsOwed(cfg, st, e);
  }

  lemma ClaimHasRow(s: Store, k: Key)
    requires OneToOne(s) && k in s.claims
    ensures CommittedRow(s, s.claims[k])
  {
    var j :| 0 <= j < |s.effects| && s.effects[j] == s.claims[k];
  }

  // --- Completeness ------------------------------------------------------------------------------

  lemma AllClaimed(cfg: Setup, st: State, i: nat)
    requires ValidSetup(cfg) && FullBudget(cfg) && Inv(cfg, st) && Safe(cfg, st)
    requires AllRecorded(st.store, Plan(cfg)) && i < |cfg.eligible|
    ensures cfg.eligible[i].key in st.store.claims
  {
    var j := PlannedEvent(cfg, i);
    assert Recorded(st.store, Plan(cfg)[j].deliveryId);
    var r := RowOfEvent(cfg, st, j);
    var row := st.store.rows[r];
    if row.outcome != Committed {
      assert Refused(cfg, st.store, row.key);
      assert Eligible(cfg.eligible, row.key);
      NeverStarved(cfg, st, row.key);
    } else {
      assert PaidByRow(st.store, row);
    }
  }

  /** The headline of a protected run: N payments, one each, D deliveries that did not pay, PASS. */
  ghost predicate Headline(cfg: Setup, report: Report) {
    var s := report.summary;
    && report.verdict == Pass && report.onePayment && report.everyonePaid && report.budgetGuard
    && s.eligibleEntitlements == |cfg.eligible|
    && s.deliveries == |cfg.eligible| + DuplicateCount(cfg)
    && s.ledgerEffects == |cfg.eligible| && s.paidOnce == |cfg.eligible|
    && s.doublePaid == 0 && s.unpaid == 0 && s.misallocated == 0
    && s.spent == cfg.budget
    && s.duplicatesSuppressed + s.budgetExhausted == DuplicateCount(cfg)
    && (cfg.complete ==> s.duplicatesSuppressed == DuplicateCount(cfg))
  }

  /** Once every planned delivery is recorded, everybody has been paid exactly once. */
  lemma EveryonePaidOnce(cfg: Setup, st: State)
    requires ValidSetup(cfg) && FullBudget(cfg) && Inv(cfg, st) && Safe(cfg, st)
    requires AllRecorded(st.store, Plan(cfg))
    ensures forall i :: 0 <= i < |cfg.eligible| ==> Payments(st.store.effects)[cfg.eligible[i].key] == 1
    ensures st.store.remaining == 0
    ensures Spent(st.store.effects) == cfg.budget
  {
    var payments := Payments(st.store.effects);
    PaidIffClaimed(st.store);
    forall i | 0 <= i < |cfg.eligible| ensures payments[cfg.eligible[i].key] == 1 {
      AllClaimed(cfg, st, i);
    }
    UnpaidNeedNonNegative(cfg.eligible, payments);
    RemainingIsUnclaimed(cfg, st);
    LedgerIsOwed(cfg, st);
    PaidOnceIsOwed(cfg.eligible, payments);
  }

  lemma OneEffectEach(eligible: seq<Entry>, effects: seq<Effect>, rows: seq<Delivery>)
    requires DistinctKeys(eligible) && HonestLedger(eligible, effects)
    requires EvaluateRun(eligible, effects, rows, Owed(eligible)).verdict == Pass
    ensures |effects| == |eligible|
  {
    PassIffPermutation(eligible, effects, rows);
    assert |effects| == |multiset(EffectKeys(effects))| == |multiset(BatchKeys(eligible))|;
  }

  lemma ProtectedHeadline(cfg: Setup, st: State)
    requires ValidSetup(cfg) && FullBudget(cfg) && Inv(cfg, st) && Safe(cfg, st)
    requires AllRecorded(st.store, Plan(cfg)) && (cfg.complete ==> NoExhausted(st))
    ensures Headline(cfg, EvaluateRun(cfg.eligible, st.store.effects, st.store.rows, cfg.budget))
  {
    var effects, rows := st.store.effects, st.store.rows;
    EveryonePaidOnce(cfg, st);
    RowsAreThePlan(cfg, st);
    LedgerIsOwed(cfg, st);
    HeadlineFromCounts(cfg, effects, rows);
    OutcomesPartition(rows);
    CommittedPerEffect(cfg, st);
    if cfg.complete {
      NoneCounted(rows, BudgetExhausted);
    }
  }

  lemma CommittedPerEffect(cfg: Setup, st: State)
    requires Inv(cfg, st) && Safe(cfg, st)
    ensures CountOutcome(st.store.rows, Committed) == |st.store.effects|
  {
  }

  lemma HeadlineFromCounts(cfg: Setup, effects: seq<Effect>, rows: seq<Delivery>)
    requires ValidSetup(cfg) && FullBudget(cfg) && HonestLedger(cfg.eligible, effects)
    requires forall i :: 0 <= i < |cfg.eligible| ==> Payments(effects)[cfg.eligible[i].key] == 1
    requires Spent(effects) == cfg.budget
    ensures var s := EvaluateRun(cfg.eligible, effects, rows, cfg.budget);
            && s.verdict == Pass && s.onePayment && s.everyonePaid && s.budgetGuard && |effects| == |cfg.eligible|
            && s.summary.paidOnce == |cfg.eligible| && s.summary.doublePaid == 0 && s.summary.unpaid == 0
            && s.summary.misallocated == 0
  {
    VerdictByKey(cfg.eligible, effects, rows, cfg.budget);
    PaidOnceIsOwed(cfg.eligible, Payments(effects));
    ReportedKeys(cfg.eligible, effects, rows, cfg.budget);
    OneEffectEach(cfg.eligible, effects, rows);
  }

  // --- Quiescence ------------------------------------------------------------------------------------

  /**
   After the drain nothing moves any more: no late, duplicated or half-finished worker
   can change a claim, a payment, the budget, a row or a counter.
   */
  lemma Quiescent(cfg: Setup, st: State, l: Label)
    requires ValidSetup(cfg) && cfg.processor == Protected
    requires Inv(cfg, st) && Safe(cfg, st) && Enabled(cfg, st, l)
    requires AllRecorded(st.store, Plan(cfg))
    ensures Step(cfg, st, l).store == st.store
  {
    match l
    case Request(i, r) =>
      var w := st.workers[i];
      assert WorkerOk(cfg, st.store, w);
      PlannedIsOwed(cfg, st, w.event);
      var j :| 0 <= j < |Plan(cfg)| && Plan(cfg)[j] == w.event;
      assert Recorded(st.store, w.event.deliveryId);
      RequestShape(cfg.maxAttempts, Protected, st.store, w, r);
    case Task(m) => TaskFrame(cfg, st, m);
    case _ =>
  }
}
