/**
 What can still be reached from a state, by any labels or by careful ones, and the first
 consequence: a delivery is never lost for good.
 */
module Reach {
  import opened Domain
  import opened Storage
  import opened Machine
  import opened Protocol
  import opened Invariants
  import L = Lifecycle
  import V = VulnerableRun

  // --- One delivery --------------------------------------------------------------------------------

  /** How many requests a worker has left when nothing gets in its way. */
  function RequestsLeft(pc: Pc): nat {
    match pc
    case CommitPc => 2
    case CheckDeliveryPc => 6
    case CheckClaimPc => 5
    case DebitPc => 4
    case PutEffectPc => 3
    case PutClaimPc => 2
    case RecordPc(_, _, _) => 1
    case _ => 0
  }

  lemma RecordedAfter(s: Store, w: Worker, write: Write)
    requires write == Payment || (write == Row && w.pc.RecordPc?)
    ensures Recorded(After(s, w, write), w.event.deliveryId)
  {
    var rows := After(s, w, write).rows;
    assert rows[|rows| - 1].deliveryId == w.event.deliveryId;
  }

  /** An uncontended request gets a worker on, and a worker is done only when its delivery is recorded. */
  lemma Proceeds(max: nat, p: Processor, s: Store, w: Worker)
    requires Live(w) && s.runExists
    ensures var w', s' := WorkerAfter(max, p, s, w, Proceed), StoreAfter(s, w, Proceed);
            && w'.event == w.event && !w'.pc.VanishedPc?
            && RequestsLeft(w'.pc) < RequestsLeft(w.pc)
            && (w'.pc.DonePc? ==> Recorded(s', w.event.deliveryId))
  {
    var write := WriteOf(s, w, Proceed);
    if w.pc.CommitPc? {
      SoundCommitAnswer(s, w.event, Proceed);
      CommitNeverUnexpected(s, w.event);
    }
    if w.pc.RecordPc? {
      SoundRecordAnswer(s, w.event.deliveryId, Proceed);
      RecordNeverUnexpected(s, w.event.deliveryId);
    }
    if write == Payment || write == Row {
      RecordedAfter(s, w, write);
    }
  }

  lemma CommitNeverUnexpected(s: Store, e: Event)
    requires s.runExists
    ensures CommitAnswer(s, e, Proceed) != UnexpectedCancellation && CommitAnswer(s, e, Proceed) != WriteConflict
  {
    var reasons := CommitReasons(s, e);
    if !CommitAllowed(s, e) {
      assert FailedAt(reasons, COMMIT_DELIVERY) || FailedAt(reasons, COMMIT_IDEMPOTENCY)
             || FailedAt(reasons, COMMIT_RUN_BUDGET);
    }
  }

  lemma RecordNeverUnexpected(s: Store, id: DeliveryId)
    requires s.runExists
    ensures RecordAnswer(s, id, Proceed) == Applied || RecordAnswer(s, id, Proceed) == DeliveryAlreadyRecorded
  {
    if Recorded(s, id) {
      assert FailedAt(RecordReasons(s, id), RECORD_DELIVERY);
    }
  }

  // --- Paths ---------------------------------------------------------------------------------

  /** A label that can happen, and with `careful` one that a careful run allows. */
  ghost predicate Allowed(cfg: Setup, careful: bool, st: State, l: Label) {
    Enabled(cfg, st, l) && (careful ==> V.Careful(cfg, st, l))
  }

  /** One possible stretch of a run, with its end. */
  ghost predicate Path(cfg: Setup, careful: bool, st: State, labels: seq<Label>, end: State)
    decreases |labels|
  {
    if labels == [] then st == end
    else Allowed(cfg, careful, st, labels[0]) && Path(cfg, careful, Step(cfg, st, labels[0]), labels[1..], end)
  }

  ghost predicate CanReach(cfg: Setup, careful: bool, st: State, end: State) {
    exists labels :: Path(cfg, careful, st, labels, end)
  }

  lemma {:induction false} PathOn(cfg: Setup, careful: bool, st: State, labels: seq<Label>, mid: State, l: Label)
    requires Path(cfg, careful, st, labels, mid) && Allowed(cfg, careful, mid, l)
    ensures Path(cfg, careful, st, labels + [l], Step(cfg, mid, l))
    decreases |labels|
  {
    if labels == [] {
      assert [l][1..] == [];
    } else {
      PathOn(cfg, careful, Step(cfg, st, labels[0]), labels[1..], mid, l);
      assert (labels + [l])[1..] == labels[1..] + [l];
    }
  }

  lemma ReachItself(cfg: Setup, careful: bool, st: State)
    ensures CanReach(cfg, careful, st, st)
  {
    assert Path(cfg, careful, st, [], st);
  }

  lemma Go(cfg: Setup, careful: bool, start: State, st: State, l: Label) returns (st': State)
    requires CanReach(cfg, careful, start, st) && Allowed(cfg, careful, st, l)
    ensures st' == Step(cfg, st, l) && CanReach(cfg, careful, start, st')
  {
    var labels :| Path(cfg, careful, start, labels, st);
    PathOn(cfg, careful, start, labels, st, l);
    st' := Step(cfg, st, l);
  }

  lemma {:induction false} PathInv(cfg: Setup, careful: bool, st: State, labels: seq<Label>, end: State)
    requires ValidSetup(cfg) && Inv(cfg, st) && Path(cfg, careful, st, labels, end)
    ensures Inv(cfg, end)
    decreases |labels|
  {
    if labels != [] {
      StepInv(cfg, st, labels[0]);
      PathInv(cfg, careful, Step(cfg, st, labels[0]), labels[1..], end);
    }
  }

  lemma InvAt(cfg: Setup, careful: bool, start: State, st: State)
    requires ValidSetup(cfg) && Inv(cfg, start) && CanReach(cfg, careful, start, st)
    ensures Inv(cfg, st)
  {
    var labels :| Path(cfg, careful, start, labels, st);
    PathInv(cfg, careful, start, labels, st);
  }

  // --- Paths and runs ------------------------------------------------------------------------

  ghost predicate AllCareful(cfg: Setup, states: seq<State>, labels: seq<Label>)
    requires |states| == |labels| + 1
  {
    forall i :: 0 <= i < |labels| ==> Enabled(cfg, states[i], labels[i]) && V.Careful(cfg, states[i], labels[i])
  }

  /** A run goes on along a path; what it has been so far it stays. */
  lemma {:induction false} RunAlong(
      cfg: Setup, careful: bool, states: seq<State>, labels: seq<Label>, path: seq<Label>, end: State)
    returns (states': seq<State>, labels': seq<Label>)
    requires IsRun(cfg, states, labels) && (careful ==> AllCareful(cfg, states, labels))
    requires Path(cfg, careful, states[|labels|], path, end)
    ensures IsRun(cfg, states', labels') && (careful ==> AllCareful(cfg, states', labels'))
    ensures states <= states' && labels <= labels' && states'[|labels'|] == end
    decreases |path|
  {
    if path == [] {
      states', labels' := states, labels;
    } else {
      var last := states[|labels|];
      var next := Step(cfg, last, path[0]);
      assert (states + [next])[|labels| + 1] == next;
      states', labels' := RunAlong(cfg, careful, states + [next], labels + [path[0]], path[1..], end);
    }
  }

  lemma RunTo(cfg: Setup, careful: bool, states: seq<State>, labels: seq<Label>, end: State)
    returns (states': seq<State>, labels': seq<Label>)
    requires IsRun(cfg, states, labels) && (careful ==> AllCareful(cfg, states, labels))
    requires CanReach(cfg, careful, states[|labels|], end)
    ensures IsRun(cfg, states', labels') && (careful ==> V.IsCarefulRun(cfg, states', labels'))
    ensures states <= states' && labels <= labels' && states'[|labels'|] == end
  {
    var path :| Path(cfg, careful, states[|labels|], path, end);
    states', labels' := RunAlong(cfg, careful, states, labels, path, end);
  }

  // --- Redelivery ----------------------------------------------------------------------------

  /** The start of a stretch: any state the invariant holds of, so any reachable one. */
  ghost predicate Known(cfg: Setup, start: State) {
    ValidSetup(cfg) && Inv(cfg, start)
  }

  /** Where only careful labels are allowed, no delivery is in flight that a redelivery could overlap. */
  ghost predicate Idle(careful: bool, st: State) {
    careful ==> forall i :: 0 <= i < |st.workers| ==> !Live(st.workers[i])
  }

  /** The workflow waits; messages stay sent and rows stay recorded. */
  ghost predicate Waits(st: State, st': State) {
    L.SameTask(st, st') && st'.sent == st.sent && st.store.rows <= st'.store.rows
  }

  lemma ProceedIsCareful(cfg: Setup, careful: bool, st: State, i: nat)
    requires st.store.runExists && i < |st.workers| && Live(st.workers[i])
    ensures Allowed(cfg, careful, st, Request(i, Proceed))
  {
    Proceeds(cfg.maxAttempts, cfg.processor, st.store, st.workers[i]);
  }

  /** What one uncontended request of worker `i` does to everybody else: nothing. */
  ghost predicate OnlyMoves(st: State, st': State, i: nat) {
    && Waits(st, st') && |st'.workers| == |st.workers|
    && forall j :: 0 <= j < |st.workers| && j != i ==> st'.workers[j] == st.workers[j]
  }

  lemma ProceedMoves(cfg: Setup, careful: bool, st: State, i: nat)
    requires Inv(cfg, st) && i < |st.workers| && Live(st.workers[i])
    ensures Allowed(cfg, careful, st, Request(i, Proceed))
    ensures var st' := Step(cfg, st, Request(i, Proceed));
            && OnlyMoves(st, st', i)
            && st'.workers[i].event == st.workers[i].event
            && RequestsLeft(st'.workers[i].pc) < RequestsLeft(st.workers[i].pc)
            && (!Live(st'.workers[i]) ==> Recorded(st'.store, st.workers[i].event.deliveryId))
  {
    ProceedIsCareful(cfg, careful, st, i);
    Proceeds(cfg.maxAttempts, cfg.processor, st.store, st.workers[i]);
    RowsAfter(st.store, st.workers[i], Proceed);
  }

  lemma OneRequest(cfg: Setup, careful: bool, start: State, st: State, i: nat) returns (st': State)
    requires Known(cfg, start) && CanReach(cfg, careful, start, st)
    requires i < |st.workers| && Live(st.workers[i])
    ensures CanReach(cfg, careful, start, st') && OnlyMoves(st, st', i)
    ensures st'.workers[i].event == st.workers[i].event
    ensures RequestsLeft(st'.workers[i].pc) < RequestsLeft(st.workers[i].pc)
    ensures !Live(st'.workers[i]) ==> Recorded(st'.store, st.workers[i].event.deliveryId)
  {
    InvAt(cfg, careful, start, st);
    ProceedMoves(cfg, careful, st, i);
    st' := Go(cfg, careful, start, st, Request(i, Proceed));
  }

  /** Left alone, a worker finishes within `RequestsLeft` requests, and its delivery is recorded. */
  lemma {:induction false} RunToDone(cfg: Setup, careful: bool, start: State, st: State, i: nat) returns (st': State)
    requires Known(cfg, start) && CanReach(cfg, careful, start, st)
    requires i < |st.workers| && Live(st.workers[i])
    ensures CanReach(cfg, careful, start, st') && OnlyMoves(st, st', i) && !Live(st'.workers[i])
    ensures Recorded(st'.store, st.workers[i].event.deliveryId)
    decreases RequestsLeft(st.workers[i].pc)
  {
    st' := OneRequest(cfg, careful, start, st, i);
    if Live(st'.workers[i]) {
      var mid := st';
      st' := RunToDone(cfg, careful, start, mid, i);
    }
  }

  lemma Received(cfg: Setup, careful: bool, start: State, st: State, e: Event) returns (st': State)
    requires CanReach(cfg, careful, start, st) && Idle(careful, st) && e in st.sent
    ensures CanReach(cfg, careful, start, st') && Waits(st, st')
    ensures |st'.workers| == |st.workers| + 1 && Live(st'.workers[|st.workers|]) && st'.workers[|st.workers|].event == e
    ensures forall j :: 0 <= j < |st.workers| ==> st'.workers[j] == st.workers[j]
  {
    assert Allowed(cfg, careful, st, Receive(e));
    st' := Go(cfg, careful, start, st, Receive(e));
  }

  /** One redelivery of a sent message, left alone, records it, wherever the run stands. */
  lemma Redeliver(cfg: Setup, careful: bool, start: State, st: State, e: Event) returns (st': State)
    requires Known(cfg, start) && CanReach(cfg, careful, start, st) && Idle(careful, st) && e in st.sent
    ensures CanReach(cfg, careful, start, st') && Waits(st, st') && Idle(careful, st')
    ensures Recorded(st'.store, e.deliveryId)
  {
    var mid := Received(cfg, careful, start, st, e);
    st' := RunToDone(cfg, careful, start, mid, |st.workers|);
  }

  lemma RecordedStays(s: Store, s': Store, id: DeliveryId)
    requires s.rows <= s'.rows && Recorded(s, id)
    ensures Recorded(s', id)
  {
    var i :| 0 <= i < |s.rows| && s.rows[i].deliveryId == id;
    assert s'.rows[i] == s.rows[i];
  }

  lemma RecordedNext(s: Store, s': Store, events: seq<Event>, n: nat)
    requires s.rows <= s'.rows && |events| == n + 1
    requires AllRecorded(s, events[..n]) && Recorded(s', events[n].deliveryId)
    ensures AllRecorded(s', events)
  {
    forall i | 0 <= i < |events| ensures Recorded(s', events[i].deliveryId) {
      if i < n {
        assert Recorded(s, events[..n][i].deliveryId);
        RecordedStays(s, s', events[i].deliveryId);
      }
    }
  }

  /** So all that was sent can be recorded. */
  lemma RedeliverAll(cfg: Setup, careful: bool, start: State, st: State, events: seq<Event>) returns (st': State)
    requires Known(cfg, start) && CanReach(cfg, careful, start, st) && Idle(careful, st)
    requires forall e :: e in events ==> e in st.sent
    ensures CanReach(cfg, careful, start, st') && Waits(st, st') && Idle(careful, st') && AllRecorded(st'.store, events)
  {
    st' := st;
    for n := 0 to |events|
      invariant CanReach(cfg, careful, start, st') && Waits(st, st') && Idle(careful, st')
      invariant AllRecorded(st'.store, events[..n])
    {
      var mid := st';
      st' := Redeliver(cfg, careful, start, mid, events[n]);
      assert events[..n + 1][..n] == events[..n];
      RecordedNext(mid.store, st'.store, events[..n + 1], n);
    }
    assert events[..|events|] == events;
  }

  lemma SendOne(cfg: Setup, careful: bool, start: State, st: State, e: Event) returns (st': State)
    requires CanReach(cfg, careful, start, st)
    requires (st.openA && e in cfg.planA) || (st.openB && e in cfg.planB)
    ensures CanReach(cfg, careful, start, st') && st' == st.(sent := st.sent + {e})
  {
    assert Allowed(cfg, careful, st, Send(e));
    st' := Go(cfg, careful, start, st, Send(e));
  }

  /** Every message of an open phase can be sent. */
  lemma SendAll(cfg: Setup, careful: bool, start: State, st: State, events: seq<Event>) returns (st': State)
    requires CanReach(cfg, careful, start, st)
    requires (st.openA && events == cfg.planA) || (st.openB && events == cfg.planB)
    ensures CanReach(cfg, careful, start, st') && st' == st.(sent := st'.sent)
    ensures forall e :: e in events ==> e in st'.sent
  {
    st' := st;
    for n := 0 to |events|
      invariant CanReach(cfg, careful, start, st') && st' == st.(sent := st'.sent)
      invariant forall e :: e in events[..n] ==> e in st'.sent
    {
      st' := SendOne(cfg, careful, start, st', events[n]);
      assert events[..n + 1] == events[..n] + [events[n]];
    }
    assert events[..|events|] == events;
  }

  /** Workers in flight can be run to completion, so a careful run can always become idle. */
  lemma Quieten(cfg: Setup, careful: bool, start: State, st: State) returns (st': State)
    requires Known(cfg, start) && CanReach(cfg, careful, start, st)
    ensures CanReach(cfg, careful, start, st') && Waits(st, st')
    ensures forall i :: 0 <= i < |st'.workers| ==> !Live(st'.workers[i])
  {
    st' := st;
    for n := 0 to |st.workers|
      invariant CanReach(cfg, careful, start, st') && Waits(st, st') && |st'.workers| == |st.workers|
      invariant forall i :: 0 <= i < n ==> !Live(st'.workers[i])
    {
      if Live(st'.workers[n]) {
        var mid := st';
        st' := RunToDone(cfg, careful, start, mid, n);
      }
    }
  }

  /**
   For every processor and every reachable state, whatever crashed, conflicted or overlaps:
   a redelivery of a sent message that is left alone records it, and the workflow has not moved.
   */
  lemma RedeliveryRecords(cfg: Setup, states: seq<State>, labels: seq<Label>, n: nat, e: Event) returns (end: State)
    requires ValidSetup(cfg) && IsRun(cfg, states, labels) && n < |states| && e in states[n].sent
    ensures CanReach(cfg, false, states[n], end) && Waits(states[n], end) && Recorded(end.store, e.deliveryId)
  {
    RunInv(cfg, states, labels, n);
    ReachItself(cfg, false, states[n]);
    end := Redeliver(cfg, false, states[n], states[n], e);
  }

  /** The same for careful runs, by careful labels only: what is in flight is finished first. */
  lemma CarefulRedeliveryRecords(cfg: Setup, states: seq<State>, labels: seq<Label>, n: nat, e: Event)
    returns (end: State)
    requires ValidSetup(cfg) && V.IsCarefulRun(cfg, states, labels) && n < |states| && e in states[n].sent
    ensures CanReach(cfg, true, states[n], end) && Waits(states[n], end) && Recorded(end.store, e.deliveryId)
  {
    RunInv(cfg, states, labels, n);
    ReachItself(cfg, true, states[n]);
    var quiet := Quieten(cfg, true, states[n], states[n]);
    end := Redeliver(cfg, true, states[n], quiet, e);
  }
}
