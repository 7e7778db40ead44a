/**
 Injection plans (backend/src/domain/injection.py): which deliveries each phase sends, under
 which delivery ids. SHA-256 of the canonical batch is a parameter, `sha`.
 */
module Injection {
  import opened Domain
  import opened Accounts
  import opened Sorting
  import opened Decimal
  import opened Keys
  import opened Experiment
  import opened Invariants
  import opened Protocol

  datatype PlanError = BatchChanged | UnknownEvent(logicalId: string) | BadKey(error: KeyError)

  /** What the events of a run have in common: the run, and the batch's scheme and year. */
  datatype Origin = Origin(runId: string, scheme: string, year: string)

  /** One delivery of one logical event. */
  datatype Copy = Copy(logicalId: string, index: nat)

  function PhaseText(phase: Phase): string {
    if phase == PhaseA then "A" else "B"
  }

  /** The name that is hashed: `<run_id>:<phase>:<logical_event_id>:<copy>`. */
  function DeliveryName(runId: string, phase: Phase, c: Copy): string {
    runId + ":" + PhaseText(phase) + ":" + c.logicalId + ":" + DecimalOf(c.index)
  }

  function DeriveDeliveryId(runId: string, phase: Phase, c: Copy): DeliveryId {
    Uuid5(DeliveryName(runId, phase, c))
  }

  /** Each entitlement, in canonical order, with its logical event. */
  function ByEvent(ids: seq<string>, ordered: seq<Entitlement>, logicalId: string): Option<Entitlement>
    requires |ids| == |ordered|
  {
    if ids == [] then None
    else
      var n := |ids| - 1;
      if ids[n] == logicalId then Some(ordered[n]) else ByEvent(ids[..n], ordered[..n], logicalId)
  }

  function EventOf(from: Origin, phase: Phase, c: Copy, x: Entitlement, key: Key): Event {
    Event(from.runId, DeriveDeliveryId(from.runId, phase, c), c.logicalId, key,
          from.scheme, x.beneficiaryId, from.year, x.installment, x.amount,
          phase, c.index, if c.index == 2 then Some(c.logicalId) else None)
  }

  function PlanCopy(from: Origin, phase: Phase, ids: seq<string>, ordered: seq<Entitlement>, c: Copy)
    : Result<Event, PlanError>
    requires |ids| == |ordered|
  {
    match ByEvent(ids, ordered, c.logicalId)
    case None => Err(UnknownEvent(c.logicalId))
    case Some(x) =>
      match KeyOf(from.scheme, from.year, x)
      case Err(e) => Err(BadKey(e))
      case Ok(key) => Ok(EventOf(from, phase, c, x, key))
  }

  function CopiesOf(ids: seq<string>, index: nat): seq<Copy> {
    seq(|ids|, i requires 0 <= i < |ids| => Copy(ids[i], index))
  }

  /** Send order: in Phase A every first copy, then every second one. */
  function Copies(phase: Phase, phases: Phases): seq<Copy> {
    if phase == PhaseA then CopiesOf(phases.a, 1) + CopiesOf(phases.a, 2) else CopiesOf(phases.b, 1)
  }

  /** The events of a list of copies; the first that cannot be built raises. */
  function PlanCopies(from: Origin, phase: Phase, ids: seq<string>, ordered: seq<Entitlement>, copies: seq<Copy>)
    : Result<seq<Event>, PlanError>
    requires |ids| == |ordered|
  {
    if copies == [] then Ok([])
    else
      var n := |copies| - 1;
      match PlanCopies(from, phase, ids, ordered, copies[..n])
      case Err(e) => Err(e)
      case Ok(events) =>
        match PlanCopy(from, phase, ids, ordered, copies[n])
        case Err(e) => Err(e)
        case Ok(event) => Ok(events + [event])
  }

  function Planned(from: Origin, phase: Phase, d: Definition, batch: seq<Entitlement>, sha: seq<Entitlement> -> string)
    : Result<seq<Event>, PlanError>
  {
    SortPermutes(batch, OrderLessEq);
    if sha(Canonical(batch)) != d.batchSha then Err(BatchChanged)
    else PlanCopies(from, phase, LogicalIds(|batch|), Canonical(batch), Copies(phase, d.phases))
  }

  /** `plan_phase`: refuses a changed batch, then plans the messages of the phase in send order. */
  method PlanPhase(from: Origin, phase: Phase, d: Definition, batch: seq<Entitlement>, sha: seq<Entitlement> -> string)
    returns (r: Result<seq<Event>, PlanError>)
    ensures r == Planned(from, phase, d, batch, sha)
    ensures r.Ok? ==> InSendOrder(from, phase, d.phases, batch, r.value)
    ensures r == Err(BatchChanged) <==> sha(Canonical(batch)) != d.batchSha
  {
    var ordered := Canonical(batch);
    PlannedInOrder(from, phase, d, batch, sha);
    if sha(ordered) != d.batchSha {
      return Err(BatchChanged);
    }
    SortPermutes(batch, OrderLessEq);
    r := PlanEvents(from, phase, LogicalIds(|batch|), ordered, Copies(phase, d.phases));
  }

  /** The loop: one event per copy, stopping at the first error. */
  method PlanEvents(from: Origin, phase: Phase, ids: seq<string>, ordered: seq<Entitlement>, copies: seq<Copy>)
    returns (r: Result<seq<Event>, PlanError>)
    requires |ids| == |ordered|
    ensures r == PlanCopies(from, phase, ids, ordered, copies)
  {
    var events: seq<Event> := [];
    for n := 0 to |copies|
      invariant PlanCopies(from, phase, ids, ordered, copies[..n]) == Ok(events)
    {
      var planned := PlanCopy(from, phase, ids, ordered, copies[n]);
      PlanGrows(from, phase, ids, ordered, copies, n, events);
      if planned.Err? {
        StopsAt(from, phase, ids, ordered, copies, n + 1, planned.error);
        return Err(planned.error);
      }
      events := events + [planned.value];
    }
    assert copies[..|copies|] == copies;
    return Ok(events);
  }

  // --- What a plan says --------------------------------------------------------------------------

  /**
   The message is a first or second copy, in this run and phase, and only a second copy is marked a repeat.
   It carries the row at the position of its event in canonical order, under that row's own key.
   */
  ghost predicate Carries(from: Origin, phase: Phase, batch: seq<Entitlement>, e: Event) {
    && e.runId == from.runId && e.schemeId == from.scheme && e.academicYear == from.year && e.phase == phase
    && 1 <= e.copyIndex <= 2
    && e.duplicateOf == (if e.copyIndex == 2 then Some(e.logicalId) else None)
    && e.deliveryId == Uuid5(e.runId + (if phase == PhaseA then ":A:" else ":B:") + e.logicalId
                             + (if e.copyIndex == 1 then ":1" else ":2"))
    && BuildEntitlementKey(e.schemeId, e.beneficiaryId, e.academicYear, e.installment) == Ok(e.key)
    && OfRow(batch, e)
  }

  ghost predicate OfRow(batch: seq<Entitlement>, e: Event) {
    && |Canonical(batch)| == |batch|
    && exists i ::
       && 0 <= i < |batch| && LogicalIds(|batch|)[i] == e.logicalId
       && e.beneficiaryId == Canonical(batch)[i].beneficiaryId && e.installment == Canonical(batch)[i].installment
       && e.amount == Canonical(batch)[i].amount
  }

  /** Phase A sends every first copy, then every second copy; Phase B one copy of each event. */
  predicate SentAs(phase: Phase, phases: Phases, j: nat, logicalId: string, index: int) {
    var d := |phases.a|;
    match phase
    case PhaseA =>
      if j < d then logicalId == phases.a[j] && index == 1
      else j < 2 * d && logicalId == phases.a[j - d] && index == 2
    case PhaseB => j < |phases.b| && logicalId == phases.b[j] && index == 1
  }

  ghost predicate InSendOrder(
      from: Origin, phase: Phase, phases: Phases, batch: seq<Entitlement>, events: seq<Event>)
  {
    && |events| == (if phase == PhaseA then 2 * |phases.a| else |phases.b|)
    && forall j :: 0 <= j < |events| ==>
         && SentAs(phase, phases, j, events[j].logicalId, events[j].copyIndex)
         && Carries(from, phase, batch, events[j])
  }

  lemma {:induction false} FoundAt(ids: seq<string>, ordered: seq<Entitlement>, logicalId: string)
    requires |ids| == |ordered| && ByEvent(ids, ordered, logicalId).Some?
    ensures exists i :: 0 <= i < |ids| && ids[i] == logicalId && ByEvent(ids, ordered, logicalId) == Some(ordered[i])
  {
    var n := |ids| - 1;
    if ids[n] != logicalId {
      FoundAt(ids[..n], ordered[..n], logicalId);
      var i :| 0 <= i < n && ids[..n][i] == logicalId && ByEvent(ids, ordered, logicalId) == Some(ordered[..n][i]);
      assert ids[i] == logicalId && ordered[..n][i] == ordered[i];
    }
  }

  lemma CopyCarries(from: Origin, phase: Phase, batch: seq<Entitlement>, c: Copy, e: Event)
    requires |Canonical(batch)| == |batch| && 1 <= c.index <= 2
    requires PlanCopy(from, phase, LogicalIds(|batch|), Canonical(batch), c) == Ok(e)
    ensures Carries(from, phase, batch, e) && e.logicalId == c.logicalId && e.copyIndex == c.index
  {
    var ids, ordered := LogicalIds(|batch|), Canonical(batch);
    FoundAt(ids, ordered, c.logicalId);
    var i :| 0 <= i < |ids| && ids[i] == c.logicalId && ByEvent(ids, ordered, c.logicalId) == Some(ordered[i]);
    assert OfRow(batch, e);
    NameOfCopy(from.runId, phase, c);
  }

  lemma NameOfCopy(run: string, phase: Phase, c: Copy)
    requires 1 <= c.index <= 2
    ensures DeriveDeliveryId(run, phase, c)
            == Uuid5(run + (if phase == PhaseA then ":A:" else ":B:") + c.logicalId
                     + (if c.index == 1 then ":1" else ":2"))
  {
    var middle, end := ":" + PhaseText(phase) + ":", ":" + DecimalOf(c.index);
    assert middle == if phase == PhaseA then ":A:" else ":B:";
    assert end == if c.index == 1 then ":1" else ":2";
    assert DeliveryName(run, phase, c) == run + middle + c.logicalId + end;
  }

  /** A plan is its copies one by one. */
  lemma {:induction false} PlanAt(
      from: Origin, phase: Phase, ids: seq<string>, ordered: seq<Entitlement>, copies: seq<Copy>, events: seq<Event>)
    requires |ids| == |ordered| && PlanCopies(from, phase, ids, ordered, copies) == Ok(events)
    ensures |events| == |copies|
    ensures forall j :: 0 <= j < |copies| ==> PlanCopy(from, phase, ids, ordered, copies[j]) == Ok(events[j])
  {
    if copies != [] {
      var n := |copies| - 1;
      var before := PlanCopies(from, phase, ids, ordered, copies[..n]).value;
      PlanAt(from, phase, ids, ordered, copies[..n], before);
      forall j | 0 <= j < n ensures PlanCopy(from, phase, ids, ordered, copies[j]) == Ok(before[j]) {
        assert copies[..n][j] == copies[j];
      }
    }
  }

  lemma {:induction false} NeverBatchChanged(
      from: Origin, phase: Phase, ids: seq<string>, ordered: seq<Entitlement>, copies: seq<Copy>)
    requires |ids| == |ordered|
    ensures PlanCopies(from, phase, ids, ordered, copies) != Err(BatchChanged)
  {
    if copies != [] {
      NeverBatchChanged(from, phase, ids, ordered, copies[..|copies| - 1]);
    }
  }

  lemma CopiesInOrder(phase: Phase, phases: Phases)
    ensures |Copies(phase, phases)| == if phase == PhaseA then 2 * |phases.a| else |phases.b|
    ensures forall j :: 0 <= j < |Copies(phase, phases)| ==>
              SentAs(phase, phases, j, Copies(phase, phases)[j].logicalId, Copies(phase, phases)[j].index)
  {
  }

  /** Every plan, of any definition and batch: the messages of the phase in send order, field by field. */
  lemma PlannedInOrder(
      from: Origin, phase: Phase, d: Definition, batch: seq<Entitlement>, sha: seq<Entitlement> -> string)
    ensures Planned(from, phase, d, batch, sha).Ok? ==>
              InSendOrder(from, phase, d.phases, batch, Planned(from, phase, d, batch, sha).value)
    ensures Planned(from, phase, d, batch, sha) == Err(BatchChanged) <==> sha(Canonical(batch)) != d.batchSha
  {
    SortPermutes(batch, OrderLessEq);
    var ids, ordered, copies := LogicalIds(|batch|), Canonical(batch), Copies(phase, d.phases);
    NeverBatchChanged(from, phase, ids, ordered, copies);
    if Planned(from, phase, d, batch, sha).Ok? {
      var events := Planned(from, phase, d, batch, sha).value;
      PlanAt(from, phase, ids, ordered, copies, events);
      CopiesInOrder(phase, d.phases);
      forall j | 0 <= j < |events|
        ensures SentAs(phase, d.phases, j, events[j].logicalId, events[j].copyIndex)
        ensures Carries(from, phase, batch, events[j])
      {
        CopyCarries(from, phase, batch, copies[j], events[j]);
      }
    }
  }

  lemma PlanGrows(
      from: Origin, phase: Phase, ids: seq<string>, ordered: seq<Entitlement>, copies: seq<Copy>, n: nat,
      events: seq<Event>)
    requires |ids| == |ordered| && n < |copies| && PlanCopies(from, phase, ids, ordered, copies[..n]) == Ok(events)
    ensures var planned := PlanCopy(from, phase, ids, ordered, copies[n]);
            PlanCopies(from, phase, ids, ordered, copies[..n + 1])
            == if planned.Err? then Err(planned.error) else Ok(events + [planned.value])
  {
    assert copies[..n + 1][..n] == copies[..n];
  }

  lemma {:induction false} StopsAt(
      from: Origin, phase: Phase, ids: seq<string>, ordered: seq<Entitlement>, copies: seq<Copy>, n: nat, e: PlanError)
    requires |ids| == |ordered| && n <= |copies|
    requires PlanCopies(from, phase, ids, ordered, copies[..n]) == Err(e)
    ensures PlanCopies(from, phase, ids, ordered, copies) == Err(e)
    decreases |copies|
  {
    if n == |copies| {
      assert copies[..n] == copies;
    } else {
      var m := |copies| - 1;
      assert copies[..m][..n] == copies[..n];
      StopsAt(from, phase, ids, ordered, copies[..m], n, e);
    }
  }

  // --- Delivery ids ------------------------------------------------------------------------------

  lemma NoLaterColon(x: string, d: string, x': string, d': string)
    requires x + ":" + d == x' + ":" + d' && ':' !in d
    ensures |x'| <= |x|
  {
    var t := x + ":" + d;
    assert t == x' + ":" + d';
    assert t[|x'|] == ':';
    forall i | |x| < i < |t| ensures t[i] != ':' {
      assert t[i] == d[i - |x| - 1];
    }
  }

  lemma LastColon(x: string, d: string, x': string, d': string)
    requires x + ":" + d == x' + ":" + d' && ':' !in d && ':' !in d'
    ensures x == x' && d == d'
  {
    NoLaterColon(x, d, x', d');
    NoLaterColon(x', d', x, d);
    var t, t' := x + ":" + d, x' + ":" + d';
    assert x == t[..|x|] && x' == t'[..|x|];
    assert d == t[|x| + 1..] && d' == t'[|x| + 1..];
  }

  lemma DecimalHasNoColon(n: nat)
    ensures ':' !in DecimalOf(n)
  {
    forall i | 0 <= i < |DecimalOf(n)| ensures DecimalOf(n)[i] != ':' {
      assert IsDigit(DecimalOf(n)[i]);
    }
  }

  /** In one run a delivery id belongs to one phase, one logical event and one copy. */
  lemma DeliveryIdInjective(runId: string, phase: Phase, c: Copy, phase': Phase, c': Copy)
    requires DeriveDeliveryId(runId, phase, c) == DeriveDeliveryId(runId, phase', c')
    ensures phase == phase' && c == c'
  {
    var head, head' := runId + ":" + PhaseText(phase) + ":" + c.logicalId,
      runId + ":" + PhaseText(phase') + ":" + c'.logicalId;
    DecimalHasNoColon(c.index);
    DecimalHasNoColon(c'.index);
    assert head + ":" + DecimalOf(c.index) == DeliveryName(runId, phase, c);
    assert head' + ":" + DecimalOf(c'.index) == DeliveryName(runId, phase', c');
    LastColon(head, DecimalOf(c.index), head', DecimalOf(c'.index));
    DecimalRoundTrip(c.index);
    DecimalRoundTrip(c'.index);
    var n := |runId|;
    assert head[n + 1] == PhaseText(phase)[0] && head'[n + 1] == PhaseText(phase')[0];
    assert head[n + 3..] == c.logicalId && head'[n + 3..] == c'.logicalId;
  }

  // --- The workload ------------------------------------------------------------------------------

  lemma {:induction false} LookupAt(ids: seq<string>, ordered: seq<Entitlement>, i: nat)
    requires |ids| == |ordered| && Distinct(ids) && i < |ids|
    ensures ByEvent(ids, ordered, ids[i]) == Some(ordered[i])
  {
    var n := |ids| - 1;
    if i < n {
      LookupAt(ids[..n], ordered[..n], i);
    }
  }

  /** The batch as the injection code sees it: ids, canonical rows and entries side by side. */
  ghost predicate Aligned(from: Origin, ids: seq<string>, ordered: seq<Entitlement>, entries: seq<Entry>) {
    && |ids| == |ordered| && Distinct(ids) && Keyed(from.scheme, from.year, ordered, entries) && DistinctKeys(entries)
  }

  ghost predicate Known(ids: seq<string>, copies: seq<Copy>) {
    forall j :: 0 <= j < |copies| ==> copies[j].logicalId in ids
  }

  /** The event of a copy is that of its own row, under that row's own key. */
  ghost predicate EventOfRow(from: Origin, phase: Phase, ids: seq<string>, entries: seq<Entry>, c: Copy, e: Event)
    requires |ids| == |entries|
  {
    exists i :: 0 <= i < |ids| && c.logicalId == ids[i] && e == EventOf(from, phase, c, entries[i].owed, entries[i].key)
  }

  lemma CopyPlanned(
      from: Origin, phase: Phase, ids: seq<string>, ordered: seq<Entitlement>, entries: seq<Entry>, c: Copy)
    requires Aligned(from, ids, ordered, entries) && c.logicalId in ids
    ensures PlanCopy(from, phase, ids, ordered, c).Ok?
    ensures EventOfRow(from, phase, ids, entries, c, PlanCopy(from, phase, ids, ordered, c).value)
  {
    var i :| 0 <= i < |ids| && ids[i] == c.logicalId;
    LookupAt(ids, ordered, i);
    assert KeyOf(from.scheme, from.year, ordered[i]) == Ok(entries[i].key);
  }

  lemma {:induction false} PlanExact(
      from: Origin, phase: Phase, ids: seq<string>, ordered: seq<Entitlement>, entries: seq<Entry>, copies: seq<Copy>)
    requires Aligned(from, ids, ordered, entries) && Known(ids, copies)
    ensures PlanCopies(from, phase, ids, ordered, copies).Ok?
    ensures var events := PlanCopies(from, phase, ids, ordered, copies).value;
            && |events| == |copies|
            && forall j :: 0 <= j < |copies| ==> EventOfRow(from, phase, ids, entries, copies[j], events[j])
  {
    if copies != [] {
      var n := |copies| - 1;
      PlanExact(from, phase, ids, ordered, entries, copies[..n]);
      CopyPlanned(from, phase, ids, ordered, entries, copies[n]);
      var before := PlanCopies(from, phase, ids, ordered, copies[..n]).value;
      forall j | 0 <= j < n ensures EventOfRow(from, phase, ids, entries, copies[j], before[j]) {
        assert copies[..n][j] == copies[j];
      }
    }
  }

  function Logicals(copies: seq<Copy>): seq<string> {
    seq(|copies|, i requires 0 <= i < |copies| => copies[i].logicalId)
  }

  /** A key is delivered as often as its logical event is copied. */
  lemma {:induction false} KeysFollowCopies(copies: seq<Copy>, events: seq<Event>, k: Key, logicalId: string)
    requires |events| == |copies|
    requires forall j :: 0 <= j < |copies| ==> (events[j].key == k <==> copies[j].logicalId == logicalId)
    ensures KeyCount(events, k) == multiset(Logicals(copies))[logicalId]
  {
    if copies != [] {
      var n := |copies| - 1;
      KeysFollowCopies(copies[..n], events[..n], k, logicalId);
      OneMoreEvent(events, k);
      OneMoreCopy(copies, logicalId);
    }
  }

  lemma OneMoreEvent(events: seq<Event>, k: Key)
    requires events != []
    ensures var n := |events| - 1;
            KeyCount(events, k) == KeyCount(events[..n], k) + (if events[n].key == k then 1 else 0)
  {
    var n := |events| - 1;
    assert EventKeys(events) == EventKeys(events[..n]) + [events[n].key];
  }

  lemma OneMoreCopy(copies: seq<Copy>, logicalId: string)
    requires copies != []
    ensures var n := |copies| - 1;
            multiset(Logicals(copies))[logicalId]
            == multiset(Logicals(copies[..n]))[logicalId] + (if copies[n].logicalId == logicalId then 1 else 0)
  {
    var n := |copies| - 1;
    assert Logicals(copies) == Logicals(copies[..n]) + [copies[n].logicalId];
  }

  lemma KeyFollowsCopy(from: Origin, phase: Phase, ids: seq<string>, entries: seq<Entry>, c: Copy, e: Event, i: nat)
    requires |ids| == |entries| && Distinct(ids) && DistinctKeys(entries) && i < |ids|
    requires EventOfRow(from, phase, ids, entries, c, e)
    ensures e.key == entries[i].key <==> c.logicalId == ids[i]
  {
    var r :| 0 <= r < |ids| && c.logicalId == ids[r] && e == EventOf(from, phase, c, entries[r].owed, entries[r].key);
    assert e.key == entries[i].key <==> r == i;
    assert c.logicalId == ids[i] <==> r == i;
  }

  lemma EventIsOwed(
      from: Origin, phase: Phase, ids: seq<string>, entries: seq<Entry>, c: Copy, e: Event)
    requires |ids| == |entries| && DistinctKeys(entries) && EventOfRow(from, phase, ids, entries, c, e)
    ensures OwedEvent(entries, e) && e.deliveryId == DeriveDeliveryId(from.runId, phase, c)
  {
    var i :| 0 <= i < |ids| && c.logicalId == ids[i] && e == EventOf(from, phase, c, entries[i].owed, entries[i].key);
    DueAt(entries, i);
  }

  lemma CopiesDistinct(phase: Phase, phases: Phases)
    requires Distinct(phases.a) && Distinct(phases.b)
    ensures Distinct(Copies(phase, phases))
  {
    var copies, d := Copies(phase, phases), |phases.a|;
    forall i, j | 0 <= i < j < |copies| ensures copies[i] != copies[j] {
      if phase == PhaseA {
        assert copies[i] == if i < d then Copy(phases.a[i], 1) else Copy(phases.a[i - d], 2);
        assert copies[j] == if j < d then Copy(phases.a[j], 1) else Copy(phases.a[j - d], 2);
      }
    }
  }

  lemma PlanIdsDistinct(
      from: Origin, phase: Phase, ids: seq<string>, entries: seq<Entry>, copies: seq<Copy>, events: seq<Event>)
    requires |ids| == |entries| && DistinctKeys(entries) && |events| == |copies| && Distinct(copies)
    requires forall j :: 0 <= j < |copies| ==> EventOfRow(from, phase, ids, entries, copies[j], events[j])
    ensures DistinctIds(events)
  {
    forall i, j | 0 <= i < j < |events| ensures events[i].deliveryId != events[j].deliveryId {
      EventIsOwed(from, phase, ids, entries, copies[i], events[i]);
      EventIsOwed(from, phase, ids, entries, copies[j], events[j]);
      if events[i].deliveryId == events[j].deliveryId {
        DeliveryIdInjective(from.runId, phase, copies[i], phase, copies[j]);
      }
    }
  }

  // --- Any accepted batch --------------------------------------------------------------------------

  ghost predicate PositiveRows(batch: seq<Entitlement>) {
    forall i :: 0 <= i < |batch| ==> batch[i].amount >= 1
  }

  /** A batch the import accepts and the scheme can key. */
  ghost predicate GoodBatch(from: Origin, batch: seq<Entitlement>) {
    DistinctRows(batch) && PositiveRows(batch) && Keyable(from.scheme, from.year, batch)
  }

  lemma BatchAligned(from: Origin, batch: seq<Entitlement>)
    requires GoodBatch(from, batch)
    ensures |Canonical(batch)| == |batch| && KeyEntitlements(from.scheme, from.year, batch).Ok?
    ensures var entries := KeyEntitlements(from.scheme, from.year, batch).value;
            && Aligned(from, LogicalIds(|batch|), Canonical(batch), entries)
            && PositiveAmounts(entries) && Owed(entries) == TotalBudget(batch)
  {
    KeyMapOfBatch(from.scheme, from.year, batch);
    CanonicalKeeps(from.scheme, from.year, batch);
    LogicalIdsDistinct(|batch|);
    var ordered := Canonical(batch);
    forall i | 0 <= i < |ordered| ensures ordered[i].amount >= 1 {
      assert ordered[i] in multiset(batch);
      var j :| 0 <= j < |batch| && batch[j] == ordered[i];
    }
  }

  ghost predicate PhasesOf(d: Definition, batch: seq<Entitlement>) {
    && Splits(d, LogicalIds(|batch|)) && d.logicalEvents == |batch|
    && Distinct(d.phases.a) && Distinct(d.phases.b)
    && (forall x :: x in d.phases.a ==> x in LogicalIds(|batch|))
    && (forall x :: x in d.phases.b ==> x in LogicalIds(|batch|))
  }

  lemma DefinitionPhases(d: Definition, batch: seq<Entitlement>)
    requires Splits(d, LogicalIds(|batch|)) && d.logicalEvents == |batch|
    ensures PhasesOf(d, batch)
  {
    var ids := LogicalIds(|batch|);
    LogicalIdsDistinct(|batch|);
    ChosenAreDistinct(ids, d.phases.a, d.phases.b);
    ChosenAreDistinct(ids, d.phases.b, d.phases.a);
  }

  lemma CopiesKnown(d: Definition, batch: seq<Entitlement>, phase: Phase)
    requires PhasesOf(d, batch)
    ensures Known(LogicalIds(|batch|), Copies(phase, d.phases)) && Distinct(Copies(phase, d.phases))
    ensures |Copies(PhaseA, d.phases)| == 2 * |d.phases.a| && |Copies(PhaseB, d.phases)| == |d.phases.b|
    ensures forall x :: multiset(Logicals(Copies(PhaseA, d.phases)))[x] == 2 * multiset(d.phases.a)[x]
    ensures forall x :: multiset(Logicals(Copies(PhaseB, d.phases)))[x] == multiset(d.phases.b)[x]
  {
    CopiesDistinct(phase, d.phases);
    assert Logicals(Copies(PhaseA, d.phases)) == d.phases.a + d.phases.a;
    assert Logicals(Copies(PhaseB, d.phases)) == d.phases.b;
  }

  /** What one planned phase looks like, whichever phase it is. */
  ghost predicate PhasePlan(
      from: Origin, phase: Phase, d: Definition, batch: seq<Entitlement>, entries: seq<Entry>,
      events: seq<Event>)
  {
    var ids, copies := LogicalIds(|batch|), Copies(phase, d.phases);
    && |entries| == |batch| && |events| == |copies|
    && (forall j :: 0 <= j < |copies| ==> EventOfRow(from, phase, ids, entries, copies[j], events[j]))
    && DistinctIds(events)
    && (forall i :: 0 <= i < |entries| ==> KeyCount(events, entries[i].key) == multiset(Logicals(copies))[ids[i]])
  }

  lemma PhasePlanned(
      from: Origin, phase: Phase, d: Definition, batch: seq<Entitlement>, sha: seq<Entitlement> -> string)
    requires GoodBatch(from, batch) && PhasesOf(d, batch) && d.batchSha == sha(Canonical(batch))
    ensures KeyEntitlements(from.scheme, from.year, batch).Ok? && Planned(from, phase, d, batch, sha).Ok?
    ensures PhasePlan(from, phase, d, batch, KeyEntitlements(from.scheme, from.year, batch).value,
            Planned(from, phase, d, batch, sha).value)
  {
    BatchAligned(from, batch);
    CopiesKnown(d, batch, phase);
    var ids, ordered, entries := LogicalIds(|batch|), Canonical(batch),
      KeyEntitlements(from.scheme, from.year, batch).value;
    var copies := Copies(phase, d.phases);
    PlanExact(from, phase, ids, ordered, entries, copies);
    var events := PlanCopies(from, phase, ids, ordered, copies).value;
    PlanIdsDistinct(from, phase, ids, entries, copies, events);
    forall i | 0 <= i < |entries| ensures KeyCount(events, entries[i].key) == multiset(Logicals(copies))[ids[i]] {
      forall j | 0 <= j < |copies| ensures events[j].key == entries[i].key <==> copies[j].logicalId == ids[i] {
        KeyFollowsCopy(from, phase, ids, entries, copies[j], events[j], i);
      }
      KeysFollowCopies(copies, events, entries[i].key, ids[i]);
    }
  }
}
