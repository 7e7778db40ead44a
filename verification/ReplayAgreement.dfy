/**
 Three programs read the same rows: the evaluator (backend/src/domain/evaluator.py), and the
 browser's replay and inspector (frontend/src/features/theater/replay.ts). At the full cursor
 they agree, in whatever order the rows are listed.
 */
module ReplayAgreement {
  import opened Domain
  import opened Accounts
  import opened Sorting
  import opened Storage
  import opened Evaluator
  import opened Protocol
  import opened Invariants
  import opened StudentState
  import opened Replay
  import opened Inspector
  import P = ProtectedRun
  import V = VulnerableRun
  import C = VulnerableCounts

  /** A row as the API lists it: its entitlement's amount is joined in, when the key is in the batch. */
  function ListedRow(eligible: seq<Entry>, d: Delivery): ReplayRow {
    ReplayRow(d, if exists i | 0 <= i < |eligible| :: eligible[i].key == d.key
                 then Some(Due(eligible, d.key)) else None)
  }

  function Listed(eligible: seq<Entry>, ds: seq<Delivery>): seq<ReplayRow> {
    seq(|ds|, i requires 0 <= i < |ds| => ListedRow(eligible, ds[i]))
  }

  /** COMMITTED rows match the ledger: as many for every key as it has payments. */
  ghost predicate RowsMatchLedger(eligible: seq<Entry>, effects: seq<Effect>, ds: seq<Delivery>) {
    forall k :: Commits(Listed(eligible, ds), k) == Payments(effects)[k]
  }

  // --- Money ------------------------------------------------------------------------------------

  /** Tiles come from the batch: their amounts are the owed ones. */
  ghost predicate BatchTiles(eligible: seq<Entry>, tiles: seq<StudentView>) {
    forall i :: 0 <= i < |tiles| ==> Eligible(eligible, tiles[i].key)
  }

  lemma {:induction false} ForeignTile(eligible: seq<Entry>, tiles: seq<StudentView>, k: Key)
    requires BatchTiles(eligible, tiles) && !Eligible(eligible, k)
    ensures TileAmount(tiles, k) == None
  {
    if tiles != [] {
      ForeignTile(eligible, tiles[..|tiles| - 1], k);
    }
  }

  lemma RateIsDue(eligible: seq<Entry>, tiles: seq<StudentView>, ds: seq<Delivery>, i: nat)
    requires BatchTiles(eligible, tiles) && i < |ds|
    ensures Rate(tiles, Listed(eligible, ds)[i]) == Due(eligible, ds[i].key)
  {
    if !Eligible(eligible, ds[i].key) {
      ForeignTile(eligible, tiles, ds[i].key);
      DueForeign(eligible, ds[i].key);
    }
  }

  /** A further payment of a paid entitlement is misallocated; a first one is not. */
  lemma {:induction false} MisallocatedAdd(eligible: seq<Entry>, payments: multiset<Key>, k: Key)
    requires DistinctKeys(eligible)
    ensures Misallocated(eligible, payments + multiset{k})
            == Misallocated(eligible, payments) + (if payments[k] > 0 then Due(eligible, k) else 0)
  {
    if eligible != [] {
      var n := |eligible| - 1;
      MisallocatedAdd(eligible[..n], payments, k);
      var a, p := eligible[n].owed.amount, payments[eligible[n].key];
      if eligible[n].key == k {
        assert a * p == a * (p - 1) + a;
        assert !Eligible(eligible[..n], k);
        DueForeign(eligible[..n], k);
      }
    }
  }

  ghost predicate MoneyByKey(eligible: seq<Entry>, tiles: seq<StudentView>, rows: seq<ReplayRow>) {
    var payments := multiset(PaidKeys(rows));
    && SpentOn(tiles, rows, true) == Misallocated(eligible, payments)
    && SpentOn(tiles, rows, false) + SpentOn(tiles, rows, true) == PaidTo(eligible, payments)
  }

  lemma MoneyStep(eligible: seq<Entry>, tiles: seq<StudentView>, rows: seq<ReplayRow>, n: nat)
    requires DistinctKeys(eligible) && |rows| == n + 1
    requires MoneyByKey(eligible, tiles, rows[..n]) && Rate(tiles, rows[n]) == Due(eligible, rows[n].delivery.key)
    ensures MoneyByKey(eligible, tiles, rows)
  {
    var payments, k := multiset(PaidKeys(rows[..n])), rows[n].delivery.key;
    if Pays(rows[n]) {
      assert PaidKeys(rows) == PaidKeys(rows[..n]) + [k];
      assert multiset(PaidKeys(rows)) == payments + multiset{k};
      CommitsArePaid(rows[..n], k);
      MisallocatedAdd(eligible, payments, k);
      PaidToAdd(eligible, payments, k);
    } else {
      assert PaidKeys(rows) == PaidKeys(rows[..n]) + [];
      assert PaidKeys(rows) == PaidKeys(rows[..n]);
    }
  }

  /** Reading the rows one by one, the money ends up where counting payments by key puts it. */
  lemma {:induction false} ReplayMoney(eligible: seq<Entry>, tiles: seq<StudentView>, ds: seq<Delivery>)
    requires DistinctKeys(eligible) && BatchTiles(eligible, tiles)
    ensures MoneyByKey(eligible, tiles, Listed(eligible, ds))
  {
    if ds == [] {
      PaidToNothing(eligible);
      NothingMisallocated(eligible);
    } else {
      var n := |ds| - 1;
      ReplayMoney(eligible, tiles, ds[..n]);
      assert Listed(eligible, ds)[..n] == Listed(eligible, ds[..n]);
      RateIsDue(eligible, tiles, ds, n);
      MoneyStep(eligible, tiles, Listed(eligible, ds), n);
    }
  }

  lemma {:induction false} NothingMisallocated(eligible: seq<Entry>)
    ensures Misallocated(eligible, multiset{}) == 0
  {
    if eligible != [] {
      NothingMisallocated(eligible[..|eligible| - 1]);
    }
  }

  lemma ListedOneRate(eligible: seq<Entry>, tiles: seq<StudentView>, ds: seq<Delivery>)
    requires BatchTiles(eligible, tiles)
    ensures OneRate(tiles, Listed(eligible, ds))
  {
    forall i | 0 <= i < |ds| ensures Rate(tiles, Listed(eligible, ds)[i]) == Due(eligible, ds[i].key) {
      RateIsDue(eligible, tiles, ds, i);
    }
  }

  // --- Tiles -----------------------------------------------------------------------------------

  lemma ViewsAreBatchTiles(eligible: seq<Entry>, effects: seq<Effect>, ds: seq<Delivery>, evaluated: bool)
    ensures BatchTiles(eligible, StudentViews(eligible, effects, ds, evaluated))
  {
    var views := Views(eligible, effects, ds, evaluated);
    SortPermutes(views, ViewLessEq);
    var tiles := Sort(views, ViewLessEq);
    forall i | 0 <= i < |tiles| ensures Eligible(eligible, tiles[i].key) {
      assert tiles[i] in multiset(views);
      var j :| 0 <= j < |views| && views[j] == tiles[i];
      assert eligible[j].key == tiles[i].key;
    }
  }

  /** Redrawing a tile does not move it: the order of tiles looks at names only. */
  lemma {:induction false} InsertDrawn(tile: StudentView, tiles: seq<StudentView>, rows: seq<ReplayRow>)
    ensures TilesAt(Insert(tile, tiles, ViewLessEq), rows)
            == Insert(TileAt(tile, rows), TilesAt(tiles, rows), ViewLessEq)
  {
    var drawn := TilesAt(tiles, rows);
    if tiles != [] {
      var n := |tiles| - 1;
      assert drawn[..n] == TilesAt(tiles[..n], rows);
      assert ViewLessEq(tiles[n], tile) == ViewLessEq(drawn[n], TileAt(tile, rows));
      if !ViewLessEq(tiles[n], tile) {
        InsertDrawn(tile, tiles[..n], rows);
      }
    }
  }

  lemma {:induction false} SortDrawn(tiles: seq<StudentView>, rows: seq<ReplayRow>)
    ensures TilesAt(Sort(tiles, ViewLessEq), rows) == Sort(TilesAt(tiles, rows), ViewLessEq)
  {
    if tiles != [] {
      var n, drawn := |tiles| - 1, TilesAt(tiles, rows);
      SortDrawn(tiles[..n], rows);
      InsertDrawn(tiles[n], Sort(tiles[..n], ViewLessEq), rows);
      assert drawn[..n] == TilesAt(tiles[..n], rows) && drawn[n] == TileAt(tiles[n], rows);
      assert Sort(drawn, ViewLessEq) == Insert(drawn[n], Sort(drawn[..n], ViewLessEq), ViewLessEq);
    } else {
      assert TilesAt(tiles, rows) == [];
    }
  }

  /** At the full cursor the theater's tiles are the live grid the backend computes from the ledger. */
  lemma TheaterIsLiveGrid(eligible: seq<Entry>, effects: seq<Effect>, ds: seq<Delivery>, evaluated: bool)
    requires RowsMatchLedger(eligible, effects, ds)
    ensures TilesAt(StudentViews(eligible, effects, ds, evaluated), Listed(eligible, ds))
            == StudentViews(eligible, effects, ds, false)
  {
    var rows, views := Listed(eligible, ds), Views(eligible, effects, ds, evaluated);
    SortDrawn(views, rows);
    assert Replay.Deliveries(rows) == ds;
    forall i | 0 <= i < |eligible| ensures TilesAt(views, rows)[i] == ViewOf(eligible[i], effects, ds, false) {
      assert Commits(rows, eligible[i].key) == Payments(effects)[eligible[i].key];
    }
    assert TilesAt(views, rows) == Views(eligible, effects, ds, false);
  }

  lemma {:induction false} LiveByClass(eligible: seq<Entry>, effects: seq<Effect>, ds: seq<Delivery>)
    ensures var views := Views(eligible, effects, ds, false);
            && StateCount(views, PaidTwice) == |KeysIn(eligible, Payments(effects), MoreThanOnce)|
            && StateCount(views, PaidOnce) == |KeysIn(eligible, Payments(effects), ExactlyOnce)|
            && StateCount(views, Unpaid) + StateCount(views, Pending) == |KeysIn(eligible, Payments(effects), Never)|
  {
    if eligible != [] {
      var n := |eligible| - 1;
      LiveByClass(eligible[..n], effects, ds);
      ViewsGrow(eligible, effects, ds);
    }
  }

  lemma ViewsGrow(eligible: seq<Entry>, effects: seq<Effect>, ds: seq<Delivery>)
    requires eligible != []
    ensures var n, views := |eligible| - 1, Views(eligible, effects, ds, false);
            && views[..n] == Views(eligible[..n], effects, ds, false)
            && views[n].state == StateOf(effects, ds, eligible[n].key, false)
  {
  }

  lemma LiveCounts(eligible: seq<Entry>, effects: seq<Effect>, ds: seq<Delivery>, budget: int)
    ensures var views := StudentViews(eligible, effects, ds, false);
            var s := EvaluateRun(eligible, effects, ds, budget).summary;
            && StateCount(views, PaidTwice) == s.doublePaid && StateCount(views, PaidOnce) == s.paidOnce
            && StateCount(views, Unpaid) + StateCount(views, Pending) == s.unpaid
  {
    var plain := Views(eligible, effects, ds, false);
    SortPermutes(plain, ViewLessEq);
    forall s { StateCountIgnoresOrder(Sort(plain, ViewLessEq), plain, s); }
    LiveByClass(eligible, effects, ds);
    SortedKeys(KeysIn(eligible, Payments(effects), MoreThanOnce));
    SortedKeys(KeysIn(eligible, Payments(effects), Never));
  }

  lemma {:induction false} UnpaidTilesConcat(xs: seq<StudentView>, ys: seq<StudentView>, paid: multiset<Key>)
    ensures UnpaidTiles(xs + ys, paid) == UnpaidTiles(xs, paid) + UnpaidTiles(ys, paid)
    ensures UnpaidTileNeed(xs + ys, paid) == UnpaidTileNeed(xs, paid) + UnpaidTileNeed(ys, paid)
    decreases |ys|
  {
    if ys == [] {
      assert xs + ys == xs;
    } else {
      assert (xs + ys)[..|xs + ys| - 1] == xs + ys[..|ys| - 1];
      UnpaidTilesConcat(xs, ys[..|ys| - 1], paid);
    }
  }

  lemma {:induction false} UnpaidTilesIgnoreOrder(xs: seq<StudentView>, ys: seq<StudentView>, paid: multiset<Key>)
    requires multiset(xs) == multiset(ys)
    ensures UnpaidTiles(xs, paid) == UnpaidTiles(ys, paid)
    ensures UnpaidTileNeed(xs, paid) == UnpaidTileNeed(ys, paid)
  {
    if xs == [] {
      assert |ys| == |multiset(ys)|;
    } else {
      var i := MatchLast(xs, ys);
      UnpaidTilesIgnoreOrder(xs[..|xs| - 1], ys[..i] + ys[i + 1..], paid);
      assert ys == ys[..i] + ([ys[i]] + ys[i + 1..]);
      UnpaidTilesConcat(ys[..i], [ys[i]] + ys[i + 1..], paid);
      UnpaidTilesConcat([ys[i]], ys[i + 1..], paid);
      UnpaidTilesConcat(ys[..i], ys[i + 1..], paid);
      assert [ys[i]][..0] == [];
    }
  }

  lemma {:induction false} UnpaidByKey(
      eligible: seq<Entry>, effects: seq<Effect>, ds: seq<Delivery>, evaluated: bool, paid: multiset<Key>)
    ensures UnpaidTiles(Views(eligible, effects, ds, evaluated), paid) == |KeysIn(eligible, paid, Never)|
    ensures UnpaidTileNeed(Views(eligible, effects, ds, evaluated), paid) == UnpaidNeed(eligible, paid)
  {
    if eligible != [] {
      var n := |eligible| - 1;
      UnpaidByKey(eligible[..n], effects, ds, evaluated, paid);
      assert Views(eligible, effects, ds, evaluated)[..n] == Views(eligible[..n], effects, ds, evaluated);
    }
  }

  // --- The agreement ---------------------------------------------------------------------------

  /** The replay's totals at the full cursor are the evaluator's. */
  ghost predicate TheaterAgrees(t: Theater, s: Summary) {
    && t.arrived == s.deliveries && t.payments == s.ledgerEffects
    && t.spentFirst + t.spentRepeat == s.spent && t.spentRepeat == s.misallocated
    && t.paidTwice == s.doublePaid && t.paidOnce == s.paidOnce && t.unpaid + t.pending == s.unpaid
    && t.repeatsRefused == s.duplicatesSuppressed && t.budgetRefusals == s.budgetExhausted
  }

  /** What `inspect` computes for these rows, except its two examples. */
  ghost predicate InspectorAgrees(
      tiles: seq<StudentView>, rows: seq<ReplayRow>, t: Theater, s: Summary, unpaidNeed: int)
  {
    && GroupedRepeats(rows, FirstKeys(rows)) == t.repeatPayments
    && GroupedSpend(tiles, rows, FirstKeys(rows)) == t.spentRepeat
    && UnpaidTiles(tiles, multiset(PaidKeys(rows))) == s.unpaid
    && UnpaidTileNeed(tiles, multiset(PaidKeys(rows))) == unpaidNeed
  }

  lemma LedgerKeys(eligible: seq<Entry>, effects: seq<Effect>, ds: seq<Delivery>)
    requires RowsMatchLedger(eligible, effects, ds)
    ensures multiset(PaidKeys(Listed(eligible, ds))) == Payments(effects)
    ensures |PaidKeys(Listed(eligible, ds))| == |effects|
  {
    var rows := Listed(eligible, ds);
    forall k ensures multiset(PaidKeys(rows))[k] == Payments(effects)[k] {
      CommitsArePaid(rows, k);
    }
    assert multiset(PaidKeys(rows)) == Payments(effects);
    assert |PaidKeys(rows)| == |multiset(PaidKeys(rows))| == |Payments(effects)| == |EffectKeys(effects)|;
  }

  /**
   The three readings agree whenever COMMITTED rows match the ledger: for unequal amounts,
   any budget, and any order of the rows.
   */
  lemma ThreeReadingsAgree(eligible: seq<Entry>, effects: seq<Effect>, ds: seq<Delivery>, budget: int, evaluated: bool)
    requires DistinctKeys(eligible) && HonestLedger(eligible, effects)
    requires forall i :: 0 <= i < |effects| ==> Eligible(eligible, effects[i].key)
    requires RowsMatchLedger(eligible, effects, ds)
    ensures var tiles := StudentViews(eligible, effects, ds, evaluated);
            var rows := Listed(eligible, ds);
            var s := EvaluateRun(eligible, effects, ds, budget).summary;
            && TheaterAgrees(Picture(tiles, rows), s)
            && InspectorAgrees(tiles, rows, Picture(tiles, rows), s, UnpaidNeed(eligible, Payments(effects)))
  {
    var tiles, rows := StudentViews(eligible, effects, ds, evaluated), Listed(eligible, ds);
    LedgerKeys(eligible, effects, ds);
    ViewsAreBatchTiles(eligible, effects, ds, evaluated);
    ReplayMoney(eligible, tiles, ds);
    LedgerByKey(eligible, effects);
    TheaterIsLiveGrid(eligible, effects, ds, evaluated);
    LiveCounts(eligible, effects, ds, budget);
    assert Replay.Deliveries(rows) == ds;
    ListedOneRate(eligible, tiles, ds);
    InspectorMatchesReplay(tiles, rows);
    var plain := Views(eligible, effects, ds, evaluated);
    SortPermutes(plain, ViewLessEq);
    UnpaidTilesIgnoreOrder(tiles, plain, Payments(effects));
    UnpaidByKey(eligible, effects, ds, evaluated, Payments(effects));
    SortedKeys(KeysIn(eligible, Payments(effects), Never));
  }

  // --- The order of the rows -------------------------------------------------------------------

  lemma {:induction false} CommitsConcat(xs: seq<ReplayRow>, ys: seq<ReplayRow>, k: Key)
    ensures Commits(xs + ys, k) == Commits(xs, k) + Commits(ys, k)
    decreases |ys|
  {
    if ys == [] {
      assert xs + ys == xs;
    } else {
      assert (xs + ys)[..|xs + ys| - 1] == xs + ys[..|ys| - 1];
      CommitsConcat(xs, ys[..|ys| - 1], k);
    }
  }

  lemma {:induction false} CommitsIgnoreOrder(eligible: seq<Entry>, xs: seq<Delivery>, ys: seq<Delivery>, k: Key)
    requires multiset(xs) == multiset(ys)
    ensures Commits(Listed(eligible, xs), k) == Commits(Listed(eligible, ys), k)
  {
    if xs == [] {
      assert |ys| == |multiset(ys)|;
    } else {
      var n := |xs| - 1;
      var i := MatchLast(xs, ys);
      CommitsIgnoreOrder(eligible, xs[..n], ys[..i] + ys[i + 1..], k);
      CommitRemoved(eligible, ys, i, k);
      LastCommit(eligible, xs, k);
    }
  }

  lemma LastCommit(eligible: seq<Entry>, xs: seq<Delivery>, k: Key)
    requires xs != []
    ensures var n := |xs| - 1;
            Commits(Listed(eligible, xs), k)
            == Commits(Listed(eligible, xs[..n]), k) + Commits([ListedRow(eligible, xs[n])], k)
  {
    var n := |xs| - 1;
    assert Listed(eligible, xs) == Listed(eligible, xs[..n]) + [ListedRow(eligible, xs[n])];
    CommitsConcat(Listed(eligible, xs[..n]), [ListedRow(eligible, xs[n])], k);
  }

  lemma CommitRemoved(eligible: seq<Entry>, ys: seq<Delivery>, i: nat, k: Key)
    requires i < |ys|
    ensures Commits(Listed(eligible, ys), k)
            == Commits(Listed(eligible, ys[..i] + ys[i + 1..]), k) + Commits([ListedRow(eligible, ys[i])], k)
  {
    var front, row, back := Listed(eligible, ys[..i]), ListedRow(eligible, ys[i]), Listed(eligible, ys[i + 1..]);
    assert Listed(eligible, ys) == front + ([row] + back);
    assert Listed(eligible, ys[..i] + ys[i + 1..]) == front + back;
    CommitsConcat(front, [row] + back, k);
    CommitsConcat([row], back, k);
    CommitsConcat(front, back, k);
  }

  /** Matching the ledger does not depend on the order in which the rows are listed. */
  lemma MatchIgnoresOrder(eligible: seq<Entry>, effects: seq<Effect>, xs: seq<Delivery>, ys: seq<Delivery>)
    requires multiset(xs) == multiset(ys) && RowsMatchLedger(eligible, effects, xs)
    ensures RowsMatchLedger(eligible, effects, ys)
  {
    forall k ensures Commits(Listed(eligible, ys), k) == Payments(effects)[k] {
      CommitsIgnoreOrder(eligible, xs, ys, k);
    }
  }

  // --- Runs ------------------------------------------------------------------------------------

  lemma {:induction false} CommittedRowExists(eligible: seq<Entry>, ds: seq<Delivery>, k: Key)
    ensures Commits(Listed(eligible, ds), k) > 0
            <==> exists i :: 0 <= i < |ds| && ds[i].outcome == Committed && ds[i].key == k
  {
    if ds != [] {
      var n := |ds| - 1;
      CommittedRowExists(eligible, ds[..n], k);
      assert Listed(eligible, ds)[..n] == Listed(eligible, ds[..n]);
      if exists i :: 0 <= i < |ds| && ds[i].outcome == Committed && ds[i].key == k {
        var i :| 0 <= i < |ds| && ds[i].outcome == Committed && ds[i].key == k;
        assert i < n ==> ds[..n][i] == ds[i];
      }
    }
  }

  lemma {:induction false} OneCommitEach(eligible: seq<Entry>, ds: seq<Delivery>, k: Key)
    requires forall i, j :: 0 <= i < j < |ds| && ds[i].outcome == Committed && ds[j].outcome == Committed ==>
             ds[i].key != ds[j].key
    ensures Commits(Listed(eligible, ds), k) <= 1
  {
    if ds != [] {
      var n := |ds| - 1;
      OneCommitEach(eligible, ds[..n], k);
      CommittedRowExists(eligible, ds[..n], k);
      assert Listed(eligible, ds)[..n] == Listed(eligible, ds[..n]);
    }
  }

  /** In every reachable state of a protected run COMMITTED rows match the ledger. */
  lemma ProtectedRowsMatch(cfg: Setup, st: State)
    requires Inv(cfg, st) && P.Safe(cfg, st)
    ensures RowsMatchLedger(cfg.eligible, st.store.effects, st.store.rows)
  {
    var s := st.store;
    P.PaidIffClaimed(s);
    forall i, j | 0 <= i < j < |s.rows| && s.rows[i].outcome == Committed && s.rows[j].outcome == Committed
      ensures s.rows[i].key != s.rows[j].key
    {
      assert P.PaidByRow(s, s.rows[i]) && P.PaidByRow(s, s.rows[j]);
    }
    forall k ensures Commits(Listed(cfg.eligible, s.rows), k) == Payments(s.effects)[k] {
      OneCommitEach(cfg.eligible, s.rows, k);
      CommittedRowExists(cfg.eligible, s.rows, k);
      ClaimedIffRow(s, k);
    }
  }

  lemma ClaimedIffRow(s: Store, k: Key)
    requires P.OneToOne(s)
    ensures k in s.claims <==> exists i :: 0 <= i < |s.rows| && s.rows[i].outcome == Committed && s.rows[i].key == k
  {
    if k in s.claims {
      var i :| 0 <= i < |s.effects| && s.effects[i] == s.claims[k];
      assert P.CommittedRow(s, s.effects[i]);
    }
    if exists i :: 0 <= i < |s.rows| && s.rows[i].outcome == Committed && s.rows[i].key == k {
      var i :| 0 <= i < |s.rows| && s.rows[i].outcome == Committed && s.rows[i].key == k;
      assert P.PaidByRow(s, s.rows[i]);
    }
  }

  lemma LedgerIsEligible(cfg: Setup, st: State)
    requires ValidSetup(cfg) && Inv(cfg, st)
    ensures forall i :: 0 <= i < |st.store.effects| ==> Eligible(cfg.eligible, st.store.effects[i].key)
  {
    forall i | 0 <= i < |st.store.effects| ensures Eligible(cfg.eligible, st.store.effects[i].key) {
      var j := C.EffectKeyIsPlanned(cfg, st, i);
      assert OwedEvent(cfg.eligible, Plan(cfg)[j]);
    }
  }

  /** The replay and the inspector of `listed` rows say what the evaluator says. */
  ghost predicate ReadingsAgree(cfg: Setup, st: State, listed: seq<Delivery>, evaluated: bool) {
    var tiles := StudentViews(cfg.eligible, st.store.effects, listed, evaluated);
    var rows := Listed(cfg.eligible, listed);
    var s := EvaluateRun(cfg.eligible, st.store.effects, st.store.rows, cfg.budget).summary;
    && TheaterAgrees(Picture(tiles, rows), s)
    && InspectorAgrees(tiles, rows, Picture(tiles, rows), s, UnpaidNeed(cfg.eligible, Payments(st.store.effects)))
  }

  lemma MatchedReadings(cfg: Setup, st: State, listed: seq<Delivery>, evaluated: bool)
    requires ValidSetup(cfg) && Inv(cfg, st) && multiset(listed) == multiset(st.store.rows)
    requires RowsMatchLedger(cfg.eligible, st.store.effects, st.store.rows)
    ensures ReadingsAgree(cfg, st, listed, evaluated)
  {
    LedgerIsOwed(cfg, st);
    LedgerIsEligible(cfg, st);
    MatchIgnoresOrder(cfg.eligible, st.store.effects, st.store.rows, listed);
    ReportIgnoresOrder(cfg.eligible, st.store.effects, st.store.effects, st.store.rows, listed, cfg.budget);
    ThreeReadingsAgree(cfg.eligible, st.store.effects, listed, cfg.budget, evaluated);
  }

  /** Protected runs: the three readings agree in every reachable state, in any order of the rows. */
  lemma ProtectedReadings(
      cfg: Setup, states: seq<State>, labels: seq<Label>, n: nat, listed: seq<Delivery>, evaluated: bool)
    requires ValidSetup(cfg) && cfg.processor == Protected && IsRun(cfg, states, labels) && n < |states|
    requires multiset(listed) == multiset(states[n].store.rows)
    ensures ReadingsAgree(cfg, states[n], listed, evaluated)
  {
    P.RunSafe(cfg, states, labels, n);
    ProtectedRowsMatch(cfg, states[n]);
    MatchedReadings(cfg, states[n], listed, evaluated);
  }

  // --- Careful vulnerable runs -------------------------------------------------------------------

  function PaidRowIds(ds: seq<Delivery>): seq<DeliveryId> {
    if ds == [] then []
    else
      var last := ds[|ds| - 1];
      PaidRowIds(ds[..|ds| - 1]) + (if last.outcome == Committed then [last.deliveryId] else [])
  }

  lemma PaidStep(eligible: seq<Entry>, ds: seq<Delivery>, n: nat)
    requires n + 1 == |ds|
    ensures PaidRowIds(ds) == PaidRowIds(ds[..n]) + (if ds[n].outcome == Committed then [ds[n].deliveryId] else [])
    ensures PaidKeys(Listed(eligible, ds))
            == PaidKeys(Listed(eligible, ds[..n])) + (if ds[n].outcome == Committed then [ds[n].key] else [])
  {
    assert Listed(eligible, ds)[..n] == Listed(eligible, ds[..n]);
  }

  /** The ids and keys of the paying rows, pairwise. */
  lemma {:induction false} PaidRowsPair(eligible: seq<Entry>, ds: seq<Delivery>)
    ensures |PaidRowIds(ds)| == |PaidKeys(Listed(eligible, ds))|
    ensures forall i :: 0 <= i < |PaidRowIds(ds)| ==> PaidRow(ds, PaidKeys(Listed(eligible, ds))[i], PaidRowIds(ds)[i])
  {
    if ds != [] {
      var n := |ds| - 1;
      PaidRowsPair(eligible, ds[..n]);
      PaidStep(eligible, ds, n);
      var ids0, keys0 := PaidRowIds(ds[..n]), PaidKeys(Listed(eligible, ds[..n]));
      forall i | 0 <= i < |ids0| ensures PaidRow(ds, keys0[i], ids0[i]) {
        assert PaidRow(ds[..n], keys0[i], ids0[i]);
        var j :| 0 <= j < n && ds[..n][j].outcome == Committed && ds[..n][j].key == keys0[i]
          && ds[..n][j].deliveryId == ids0[i];
        assert ds[j] == ds[..n][j];
      }
    }
  }

  lemma {:induction false} PaidRowsListed(eligible: seq<Entry>, ds: seq<Delivery>, j: nat)
    requires j < |ds| && ds[j].outcome == Committed
    ensures PaidPair(eligible, ds, ds[j].key, ds[j].deliveryId)
  {
    var n := |ds| - 1;
    PaidRowsPair(eligible, ds[..n]);
    PaidStep(eligible, ds, n);
    var ids, keys := PaidRowIds(ds), PaidKeys(Listed(eligible, ds));
    var ids0, keys0 := PaidRowIds(ds[..n]), PaidKeys(Listed(eligible, ds[..n]));
    if j < n {
      PaidRowsListed(eligible, ds[..n], j);
      var i :| 0 <= i < |ids0| && i < |keys0| && keys0[i] == ds[j].key && ids0[i] == ds[j].deliveryId;
      assert keys[i] == ds[j].key && ids[i] == ds[j].deliveryId;
    } else {
      assert keys[|keys0|] == ds[j].key && ids[|ids0|] == ds[j].deliveryId;
    }
  }

  lemma {:induction false} PaidRowIdsDistinct(eligible: seq<Entry>, ds: seq<Delivery>)
    requires Distinct(RowIds(ds))
    ensures Distinct(PaidRowIds(ds))
  {
    if ds != [] {
      var n := |ds| - 1;
      assert RowIds(ds)[..n] == RowIds(ds[..n]);
      PaidRowIdsDistinct(eligible, ds[..n]);
      PaidRowsPair(eligible, ds[..n]);
      var ids0, keys0 := PaidRowIds(ds[..n]), PaidKeys(Listed(eligible, ds[..n]));
      forall i | 0 <= i < |ids0| ensures ids0[i] != ds[n].deliveryId {
        assert PaidRow(ds[..n], keys0[i], ids0[i]);
        var j :| 0 <= j < n && ds[..n][j].outcome == Committed && ds[..n][j].key == keys0[i]
          && ds[..n][j].deliveryId == ids0[i];
        assert RowIds(ds)[j] != RowIds(ds)[n];
      }
    }
  }

  lemma PaidRowIdsExact(eligible: seq<Entry>, ds: seq<Delivery>)
    requires Distinct(RowIds(ds))
    ensures |PaidRowIds(ds)| == |PaidKeys(Listed(eligible, ds))| && Distinct(PaidRowIds(ds))
    ensures forall i :: 0 <= i < |PaidRowIds(ds)| ==> PaidRow(ds, PaidKeys(Listed(eligible, ds))[i], PaidRowIds(ds)[i])
    ensures forall j :: 0 <= j < |ds| && ds[j].outcome == Committed ==>
            PaidPair(eligible, ds, ds[j].key, ds[j].deliveryId)
  {
    PaidRowsPair(eligible, ds);
    PaidRowIdsDistinct(eligible, ds);
    forall j | 0 <= j < |ds| && ds[j].outcome == Committed ensures PaidPair(eligible, ds, ds[j].key, ds[j].deliveryId) {
      PaidRowsListed(eligible, ds, j);
    }
  }

  ghost predicate PaidRow(ds: seq<Delivery>, k: Key, id: DeliveryId) {
    exists j :: 0 <= j < |ds| && ds[j].outcome == Committed && ds[j].key == k && ds[j].deliveryId == id
  }

  ghost predicate PaidPair(eligible: seq<Entry>, ds: seq<Delivery>, k: Key, id: DeliveryId) {
    var ids, keys := PaidRowIds(ds), PaidKeys(Listed(eligible, ds));
    exists i :: 0 <= i < |ids| && i < |keys| && keys[i] == k && ids[i] == id
  }

  lemma PaidRowIsPlanned(cfg: Setup, st: State, r: nat) returns (j: nat)
    requires ValidSetup(cfg) && Inv(cfg, st) && r < |st.store.rows|
    ensures j < |Plan(cfg)| && Plan(cfg)[j].deliveryId == st.store.rows[r].deliveryId
    ensures Plan(cfg)[j].key == st.store.rows[r].key
  {
    assert RowFrom(st.sent, st.store.rows[r]);
    var e :| e in st.sent && e.deliveryId == st.store.rows[r].deliveryId && e.key == st.store.rows[r].key;
    assert e in Plan(cfg);
    j :| 0 <= j < |Plan(cfg)| && Plan(cfg)[j] == e;
  }

  lemma CommittedRowPaid(cfg: Setup, st: State, r: nat)
    requires ValidSetup(cfg) && Inv(cfg, st) && V.Orderly(cfg, st) && AllRecorded(st.store, Plan(cfg))
    requires r < |st.store.rows| && st.store.rows[r].outcome == Committed
    ensures st.store.rows[r].deliveryId in C.PaidFor(st, st.store.rows[r].key)
  {
    var row := st.store.rows[r];
    var j := PaidRowIsPlanned(cfg, st, r);
    assert EventKeys(Plan(cfg))[j] == row.key && EventIds(Plan(cfg))[j] == row.deliveryId;
    assert V.RowOk(cfg, st, row);
    C.PaymentsOfKey(cfg, st, row.key);
  }

  /** Rows and plan agree on the key of a delivery. */
  lemma RowKeyIsPlanned(cfg: Setup, st: State, r: nat, k: Key)
    requires ValidSetup(cfg) && Inv(cfg, st) && r < |st.store.rows|
    requires st.store.rows[r].deliveryId in C.PlannedFor(cfg, k)
    ensures st.store.rows[r].key == k
  {
    var j := PaidRowIsPlanned(cfg, st, r);
    var m :| 0 <= m < |Plan(cfg)| && EventKeys(Plan(cfg))[m] == k
      && EventIds(Plan(cfg))[m] == st.store.rows[r].deliveryId;
    assert Plan(cfg)[m].deliveryId == Plan(cfg)[j].deliveryId;
    assert m == j;
  }

  lemma PaidIsCommitted(cfg: Setup, st: State, k: Key, id: DeliveryId)
    requires ValidSetup(cfg) && Inv(cfg, st) && V.Orderly(cfg, st) && AllRecorded(st.store, Plan(cfg))
    requires id in C.PaidFor(st, k)
    ensures id in C.CommittedIds(st.store.rows) && id in C.PlannedFor(cfg, k)
  {
    C.SameDeliveries(cfg, st);
    C.PaymentsOfKey(cfg, st, k);
  }

  lemma PaidHasCommittedRow(cfg: Setup, st: State, k: Key, id: DeliveryId)
    requires ValidSetup(cfg) && Inv(cfg, st) && V.Orderly(cfg, st) && AllRecorded(st.store, Plan(cfg))
    requires id in C.PaidFor(st, k)
    ensures PaidRow(st.store.rows, k, id)
  {
    var rows := st.store.rows;
    PaidIsCommitted(cfg, st, k, id);
    var r :| 0 <= r < |rows| && C.Outcomes(rows)[r] == Committed && RowIds(rows)[r] == id;
    RowKeyIsPlanned(cfg, st, r, k);
  }

  /** The COMMITTED rows of one entitlement are its planned deliveries that paid. */
  lemma CommittedRowsOfKey(cfg: Setup, st: State, k: Key)
    requires ValidSetup(cfg) && Inv(cfg, st) && V.Orderly(cfg, st) && AllRecorded(st.store, Plan(cfg))
    requires Distinct(RowIds(st.store.rows))
    ensures |PaidKeys(Listed(cfg.eligible, st.store.rows))| == |PaidRowIds(st.store.rows)|
    ensures C.IdsFor(PaidKeys(Listed(cfg.eligible, st.store.rows)), PaidRowIds(st.store.rows), k) == C.PaidFor(st, k)
  {
    var rows := st.store.rows;
    var keys, ids := PaidKeys(Listed(cfg.eligible, rows)), PaidRowIds(rows);
    PaidRowIdsExact(cfg.eligible, rows);
    forall id | id in C.IdsFor(keys, ids, k) ensures id in C.PaidFor(st, k) {
      var i :| 0 <= i < |ids| && keys[i] == k && ids[i] == id;
      assert PaidRow(rows, keys[i], ids[i]);
      var r :| 0 <= r < |rows| && rows[r].outcome == Committed && rows[r].key == k && rows[r].deliveryId == id;
      CommittedRowPaid(cfg, st, r);
    }
    forall id | id in C.PaidFor(st, k) ensures id in C.IdsFor(keys, ids, k) {
      PaidHasCommittedRow(cfg, st, k, id);
      var r :| 0 <= r < |rows| && rows[r].outcome == Committed && rows[r].key == k && rows[r].deliveryId == id;
      assert PaidPair(cfg.eligible, rows, rows[r].key, rows[r].deliveryId);
    }
  }

  /** Once a careful vulnerable run is drained, COMMITTED rows match the ledger. */
  lemma VulnerableRowsMatch(cfg: Setup, st: State)
    requires ValidSetup(cfg) && Inv(cfg, st) && V.Orderly(cfg, st) && AllRecorded(st.store, Plan(cfg))
    ensures RowsMatchLedger(cfg.eligible, st.store.effects, st.store.rows)
  {
    var rows := st.store.rows;
    forall i, j | 0 <= i < j < |rows| ensures RowIds(rows)[i] != RowIds(rows)[j] {
      assert rows[i].deliveryId != rows[j].deliveryId;
    }
    PaidRowIdsExact(cfg.eligible, rows);
    forall k ensures Commits(Listed(cfg.eligible, rows), k) == Payments(st.store.effects)[k] {
      CommitsArePaid(Listed(cfg.eligible, rows), k);
      CommittedRowsOfKey(cfg, st, k);
      C.TagCount(PaidKeys(Listed(cfg.eligible, rows)), PaidRowIds(rows), k);
      C.PaymentsOfKey(cfg, st, k);
    }
  }

  /** Every student of a drained careful run is paid, or has a refusal on record. */
  lemma VulnerableDecided(cfg: Setup, st: State, i: nat)
    requires ValidSetup(cfg) && Inv(cfg, st) && V.Orderly(cfg, st) && AllRecorded(st.store, Plan(cfg))
    requires i < |cfg.eligible|
    ensures Payments(st.store.effects)[cfg.eligible[i].key] > 0 || Rejected(st.store.rows, cfg.eligible[i].key)
  {
    var j := PlannedEvent(cfg, i);
    assert Recorded(st.store, Plan(cfg)[j].deliveryId);
    var r := RowOfEvent(cfg, st, j);
    var row := st.store.rows[r];
    assert V.RowOk(cfg, st, row);
    if row.outcome == Committed {
      var k := cfg.eligible[i].key;
      C.PaymentsOfKey(cfg, st, k);
      assert EventKeys(Plan(cfg))[j] == k && EventIds(Plan(cfg))[j] == row.deliveryId;
      assert row.deliveryId in C.PaidFor(st, k);
    }
  }

  /**
   Careful vulnerable runs: once drained the three readings agree, nobody is pending, and
   what the inspector says the victims were owed is what it says was paid twice, plus the
   budget left over.
   */
  lemma VulnerableReadings(
      cfg: Setup, states: seq<State>, labels: seq<Label>, n: nat, listed: seq<Delivery>, evaluated: bool)
    requires ValidSetup(cfg) && FullBudget(cfg) && cfg.processor == Vulnerable
    requires V.IsCarefulRun(cfg, states, labels) && n < |states| && AllRecorded(states[n].store, Plan(cfg))
    requires multiset(listed) == multiset(states[n].store.rows)
    ensures var st := states[n];
            var tiles := StudentViews(cfg.eligible, st.store.effects, st.store.rows, evaluated);
            var rows := Listed(cfg.eligible, st.store.rows);
            && ReadingsAgree(cfg, st, listed, evaluated)
            && Picture(tiles, rows).pending == 0
            && UnpaidTileNeed(tiles, multiset(PaidKeys(rows)))
               == GroupedSpend(tiles, rows, FirstKeys(rows)) + st.store.remaining
  {
    var st := states[n];
    V.RunOrderly(cfg, states, labels, n);
    VulnerableRowsMatch(cfg, st);
    MatchedReadings(cfg, st, listed, evaluated);
    MatchedReadings(cfg, st, st.store.rows, evaluated);
    C.NothingInFlight(cfg, st);
    VictimIdentity(cfg, st);
    forall i | 0 <= i < |cfg.eligible|
      ensures Payments(st.store.effects)[cfg.eligible[i].key] > 0 || Rejected(st.store.rows, cfg.eligible[i].key)
    {
      VulnerableDecided(cfg, st, i);
    }
    DecidedGrid(cfg.eligible, st.store.effects, st.store.rows);
    TheaterIsLiveGrid(cfg.eligible, st.store.effects, st.store.rows, evaluated);
  }
}
