/**
 The browser's two readings of a run's rows (frontend/src/features/theater/replay.ts): the
 replay, one row at a time, and the inspector, grouped by entitlement. Texts are left out.
 */
module Replay {
  import opened Domain
  import opened Sorting
  import opened Evaluator
  import opened StudentState

  /** A Deliveries row as the API lists it, with the amount its entitlement is owed, when there is one. */
  datatype ReplayRow = ReplayRow(delivery: Delivery, amount: Option<int>)

  datatype Tone = Paid | Twice | Repeat | Empty

  datatype FeedLine = FeedLine(id: DeliveryId, tone: Tone)

  datatype Theater = Theater(
    arrived: int, payments: nat, repeatPayments: nat, repeatsRefused: nat, budgetRefusals: nat,
    spentFirst: int, spentRepeat: int, tiles: seq<StudentView>,
    paidOnce: nat, paidTwice: nat, unpaid: nat, pending: nat, feed: seq<FeedLine>)

  const FEED_LINES := 12

  /** `amountByKey.get`: of two tiles with one key the later one counts. */
  function TileAmount(tiles: seq<StudentView>, k: Key): Option<int> {
    if tiles == [] then None
    else
      var last := tiles[|tiles| - 1];
      if last.key == k then Some(last.amount) else TileAmount(tiles[..|tiles| - 1], k)
  }

  function Rate(tiles: seq<StudentView>, row: ReplayRow): int {
    match row.amount
    case Some(amount) => amount
    case None => (match TileAmount(tiles, row.delivery.key) case Some(amount) => amount case None => 0)
  }

  // --- What the rows say ----------------------------------------------------------------------

  predicate Pays(row: ReplayRow) {
    row.delivery.outcome == Committed
  }

  function Deliveries(rows: seq<ReplayRow>): seq<Delivery> {
    seq(|rows|, i requires 0 <= i < |rows| => rows[i].delivery)
  }

  /** The keys of the paying rows, in order. */
  function PaidKeys(rows: seq<ReplayRow>): seq<Key> {
    if rows == [] then []
    else
      var last := rows[|rows| - 1];
      PaidKeys(rows[..|rows| - 1]) + (if Pays(last) then [last.delivery.key] else [])
  }

  /** How many of the rows paid one entitlement. */
  function Commits(rows: seq<ReplayRow>, k: Key): nat {
    if rows == [] then 0
    else
      var last := rows[|rows| - 1];
      Commits(rows[..|rows| - 1], k) + (if Pays(last) && last.delivery.key == k then 1 else 0)
  }

  predicate Repeats(earlier: seq<ReplayRow>, row: ReplayRow) {
    Pays(row) && Commits(earlier, row.delivery.key) > 0
  }

  /** Money spent by the paying rows, first payments and repeat payments apart. */
  function SpentOn(tiles: seq<StudentView>, rows: seq<ReplayRow>, repeat: bool): int {
    if rows == [] then 0
    else
      var n := |rows| - 1;
      SpentOn(tiles, rows[..n], repeat)
      + (if Pays(rows[n]) && Repeats(rows[..n], rows[n]) == repeat then Rate(tiles, rows[n]) else 0)
  }

  function RepeatPayments(rows: seq<ReplayRow>): nat {
    if rows == [] then 0
    else
      var n := |rows| - 1;
      RepeatPayments(rows[..n]) + (if Repeats(rows[..n], rows[n]) then 1 else 0)
  }

  function TileAt(tile: StudentView, rows: seq<ReplayRow>): StudentView {
    tile.(state := StateFor(Commits(rows, tile.key), Rejected(Deliveries(rows), tile.key), false),
          payments := Commits(rows, tile.key),
          deliveries := multiset(RowKeys(Deliveries(rows)))[tile.key])
  }

  function TilesAt(tiles: seq<StudentView>, rows: seq<ReplayRow>): seq<StudentView> {
    seq(|tiles|, i requires 0 <= i < |tiles| => TileAt(tiles[i], rows))
  }

  function ToneOf(row: ReplayRow, before: nat): Tone {
    match row.delivery.outcome
    case Committed => if before == 0 then Paid else Twice
    case DuplicateSuppressed => Repeat
    case BudgetExhausted => Empty
  }

  function LineAt(rows: seq<ReplayRow>, i: nat): FeedLine
    requires i < |rows|
  {
    FeedLine(rows[i].delivery.deliveryId, ToneOf(rows[i], Commits(rows[..i], rows[i].delivery.key)))
  }

  /** The newest lines, newest first. */
  function Feed(rows: seq<ReplayRow>): seq<FeedLine> {
    var n := |rows|;
    seq(if n < FEED_LINES then n else FEED_LINES, i requires 0 <= i < n => LineAt(rows, n - 1 - i))
  }

  /** The picture of the rows shown so far. */
  function Picture(tiles: seq<StudentView>, rows: seq<ReplayRow>): Theater {
    var now := TilesAt(tiles, rows);
    Theater(|rows|, |PaidKeys(rows)|, RepeatPayments(rows),
            CountOutcome(Deliveries(rows), DuplicateSuppressed), CountOutcome(Deliveries(rows), BudgetExhausted),
            SpentOn(tiles, rows, false), SpentOn(tiles, rows, true), now,
            StateCount(now, PaidOnce), StateCount(now, PaidTwice), StateCount(now, Unpaid), StateCount(now, Pending),
            Feed(rows))
  }

  function Upto(rows: seq<ReplayRow>, cursor: int): int {
    if cursor < |rows| then cursor else |rows|
  }

  function Shown(rows: seq<ReplayRow>, cursor: int): seq<ReplayRow> {
    if cursor < 0 then [] else rows[..Upto(rows, cursor)]
  }

  lemma {:induction false} CommitsBefore(rows: seq<ReplayRow>, n: nat, k: Key)
    requires n <= |rows|
    ensures Commits(rows[..n], k) > 0 <==>
            exists j :: 0 <= j < n && rows[j].delivery.outcome == Committed && rows[j].delivery.key == k
  {
    if n > 0 {
      CommitsBefore(rows, n - 1, k);
      CommitsGrow(rows, n - 1, k);
      var last := rows[n - 1].delivery;
      if Commits(rows[..n], k) > 0 && !(last.outcome == Committed && last.key == k) {
        var j :| 0 <= j < n - 1 && rows[j].delivery.outcome == Committed && rows[j].delivery.key == k;
        assert 0 <= j < n;
      }
    }
  }

  lemma {:induction false} LastTile(tiles: seq<StudentView>, k: Key)
    ensures match TileAmount(tiles, k)
            case None => forall i :: 0 <= i < |tiles| ==> tiles[i].key != k
            case Some(amount) =>
              exists i :: 0 <= i < |tiles| && tiles[i].key == k && tiles[i].amount == amount
                          && forall j :: i < j < |tiles| ==> tiles[j].key != k
  {
    if tiles != [] {
      var n := |tiles| - 1;
      LastTile(tiles[..n], k);
      if tiles[n].key != k && TileAmount(tiles, k).Some? {
        var i :| 0 <= i < n && tiles[..n][i].key == k && tiles[..n][i].amount == TileAmount(tiles, k).value
          && forall j :: i < j < n ==> tiles[..n][j].key != k;
        assert tiles[i].key == k && tiles[i].amount == TileAmount(tiles, k).value;
        assert forall j :: i < j < n ==> tiles[..n][j] == tiles[j];
      }
    }
  }

  /** A row is charged at its own amount, else at that of the last tile with its key, else at nothing. */
  lemma RateSays(tiles: seq<StudentView>, row: ReplayRow)
    ensures row.amount.Some? ==> Rate(tiles, row) == row.amount.value
    ensures row.amount.None? ==>
              || (Rate(tiles, row) == 0 && forall i :: 0 <= i < |tiles| ==> tiles[i].key != row.delivery.key)
              || (exists i ::
                    && 0 <= i < |tiles| && tiles[i].key == row.delivery.key && tiles[i].amount == Rate(tiles, row)
                    && forall j :: i < j < |tiles| ==> tiles[j].key != row.delivery.key)
  {
    LastTile(tiles, row.delivery.key);
  }

  /**
   The feed shows at most twelve lines, newest first. A payment is announced as a repeat exactly when an
   earlier row, shown or not, paid the same entitlement.
   */
  lemma FeedSays(rows: seq<ReplayRow>, i: nat)
    requires i < |Feed(rows)|
    ensures |Feed(rows)| == if |rows| < 12 then |rows| else 12
    ensures var n, line := |rows| - 1 - i, Feed(rows)[i];
            && line.id == rows[n].delivery.deliveryId
            && (line.tone == Twice <==>
                  && rows[n].delivery.outcome == Committed
                  && exists j :: 0 <= j < n && rows[j].delivery.outcome == Committed
                                 && rows[j].delivery.key == rows[n].delivery.key)
            && (line.tone == Paid <==> rows[n].delivery.outcome == Committed && line.tone != Twice)
            && (line.tone == Repeat <==> rows[n].delivery.outcome == DuplicateSuppressed)
            && (line.tone == Empty <==> rows[n].delivery.outcome == BudgetExhausted)
  {
    var n := |rows| - 1 - i;
    assert Feed(rows)[i] == LineAt(rows, n);
    CommitsBefore(rows, n, rows[n].delivery.key);
  }

  // --- The replay ---------------------------------------------------------------------------------

  function Count(counts: map<Key, nat>, k: Key): nat {
    if k in counts then counts[k] else 0
  }

  lemma DeliveriesGrow(rows: seq<ReplayRow>, n: nat)
    requires n < |rows|
    ensures rows[..n + 1][..n] == rows[..n]
    ensures Deliveries(rows[..n + 1]) == Deliveries(rows[..n]) + [rows[n].delivery]
    ensures RowKeys(Deliveries(rows[..n + 1])) == RowKeys(Deliveries(rows[..n])) + [rows[n].delivery.key]
  {
    assert Deliveries(rows[..n + 1]) == Deliveries(rows[..n]) + [rows[n].delivery];
  }

  lemma RejectedGrow(rows: seq<ReplayRow>, n: nat, k: Key)
    requires n < |rows|
    ensures Rejected(Deliveries(rows[..n + 1]), k) <==>
              Rejected(Deliveries(rows[..n]), k)
                || (rows[n].delivery.outcome == BudgetExhausted && rows[n].delivery.key == k)
  {
    DeliveriesGrow(rows, n);
    RejectedSplit(Deliveries(rows[..n]), rows[n].delivery, k);
  }

  lemma OutcomesGrow(rows: seq<ReplayRow>, n: nat, o: Outcome)
    requires n < |rows|
    ensures CountOutcome(Deliveries(rows[..n + 1]), o)
            == CountOutcome(Deliveries(rows[..n]), o) + (if rows[n].delivery.outcome == o then 1 else 0)
  {
    DeliveriesGrow(rows, n);
    assert Deliveries(rows[..n + 1])[..n] == Deliveries(rows[..n]);
  }

  /** Everything the loop over the rows keeps. */
  datatype Reading = Reading(
    commits: map<Key, nat>, seen: map<Key, nat>, refused: set<Key>,
    payments: nat, repeatPayments: nat, repeatsRefused: nat, budgetRefusals: nat, spentFirst: int, spentRepeat: int)

  const NOTHING_READ := Reading(map[], map[], {}, 0, 0, 0, 0, 0, 0)

  /** One more payment of `key`: the first one, or a repeat. */
  function Pay(so: Reading, key: Key, amount: int): Reading {
    var paid := so.(commits := so.commits[key := Count(so.commits, key) + 1], payments := so.payments + 1);
    if Count(so.commits, key) == 0 then paid.(spentFirst := so.spentFirst + amount)
    else paid.(repeatPayments := so.repeatPayments + 1, spentRepeat := so.spentRepeat + amount)
  }

  function ReadRow(tiles: seq<StudentView>, so: Reading, row: ReplayRow): Reading {
    var key := row.delivery.key;
    var now := so.(seen := so.seen[key := Count(so.seen, key) + 1]);
    match row.delivery.outcome
    case Committed => Pay(now, key, Rate(tiles, row))
    case DuplicateSuppressed => now.(repeatsRefused := now.repeatsRefused + 1)
    case BudgetExhausted => now.(budgetRefusals := now.budgetRefusals + 1, refused := now.refused + {key})
  }

  function ReadAll(tiles: seq<StudentView>, rows: seq<ReplayRow>): Reading {
    if rows == [] then NOTHING_READ
    else ReadRow(tiles, ReadAll(tiles, rows[..|rows| - 1]), rows[|rows| - 1])
  }

  lemma ReadOneMore(tiles: seq<StudentView>, rows: seq<ReplayRow>, n: nat)
    requires n < |rows|
    ensures ReadAll(tiles, rows[..n + 1]) == ReadRow(tiles, ReadAll(tiles, rows[..n]), rows[n])
  {
    assert rows[..n + 1][..n] == rows[..n];
  }

  /** The dictionaries answer what they are asked. */
  lemma {:induction false} CommitsFollow(tiles: seq<StudentView>, rows: seq<ReplayRow>, k: Key)
    ensures Count(ReadAll(tiles, rows).commits, k) == Commits(rows, k)
  {
    if rows != [] {
      var n := |rows| - 1;
      assert rows[..n + 1] == rows;
      CommitsFollow(tiles, rows[..n], k);
      CommitsGrow(rows, n, k);
    }
  }

  lemma {:induction false} SeenFollow(tiles: seq<StudentView>, rows: seq<ReplayRow>, k: Key)
    ensures Count(ReadAll(tiles, rows).seen, k) == multiset(RowKeys(Deliveries(rows)))[k]
  {
    if rows != [] {
      var n := |rows| - 1;
      assert rows[..n + 1] == rows;
      SeenFollow(tiles, rows[..n], k);
      ArrivalsGrow(rows, n, k);
    }
  }

  lemma ArrivalsGrow(rows: seq<ReplayRow>, n: nat, k: Key)
    requires n < |rows|
    ensures multiset(RowKeys(Deliveries(rows[..n + 1])))[k]
            == multiset(RowKeys(Deliveries(rows[..n])))[k] + (if rows[n].delivery.key == k then 1 else 0)
  {
    DeliveriesGrow(rows, n);
    CountLast(RowKeys(Deliveries(rows[..n])), rows[n].delivery.key, k);
  }

  lemma {:induction false} RefusedFollow(tiles: seq<StudentView>, rows: seq<ReplayRow>, k: Key)
    ensures k in ReadAll(tiles, rows).refused <==> Rejected(Deliveries(rows), k)
  {
    if rows != [] {
      var n := |rows| - 1;
      assert rows[..n + 1] == rows;
      RefusedFollow(tiles, rows[..n], k);
      RejectedGrow(rows, n, k);
    }
  }

  /** And the totals are those of the rows read. */
  lemma {:induction false} CountsFollow(tiles: seq<StudentView>, rows: seq<ReplayRow>)
    ensures var r := ReadAll(tiles, rows);
            && r.payments == |PaidKeys(rows)|
            && r.repeatsRefused == CountOutcome(Deliveries(rows), DuplicateSuppressed)
            && r.budgetRefusals == CountOutcome(Deliveries(rows), BudgetExhausted)
  {
    if rows != [] {
      var n := |rows| - 1;
      assert rows[..n + 1] == rows;
      CountsFollow(tiles, rows[..n]);
      OutcomesGrow(rows, n, DuplicateSuppressed);
      OutcomesGrow(rows, n, BudgetExhausted);
    }
  }

  lemma {:induction false} SpentFollows(tiles: seq<StudentView>, rows: seq<ReplayRow>)
    ensures var r := ReadAll(tiles, rows);
            && r.repeatPayments == RepeatPayments(rows)
            && r.spentFirst == SpentOn(tiles, rows, false) && r.spentRepeat == SpentOn(tiles, rows, true)
  {
    if rows != [] {
      var n := |rows| - 1;
      SpentFollows(tiles, rows[..n]);
      CommitsFollow(tiles, rows[..n], rows[n].delivery.key);
    }
  }

  lemma CommitsGrow(rows: seq<ReplayRow>, n: nat, k: Key)
    requires n < |rows|
    ensures Commits(rows[..n + 1], k)
            == Commits(rows[..n], k) + (if Pays(rows[n]) && rows[n].delivery.key == k then 1 else 0)
  {
    assert rows[..n + 1][..n] == rows[..n];
  }

  lemma {:induction false} CommitsArePaid(rows: seq<ReplayRow>, k: Key)
    ensures Commits(rows, k) == multiset(PaidKeys(rows))[k]
  {
    if rows != [] {
      var n := |rows| - 1;
      CommitsArePaid(rows[..n], k);
      CountLast(PaidKeys(rows[..n]), rows[n].delivery.key, k);
    }
  }

  lemma LinesGrow(rows: seq<ReplayRow>, n: nat, i: nat)
    requires i <= n < |rows|
    ensures LineAt(rows[..n + 1], i) == LineAt(rows, i)
  {
    assert rows[..n + 1][..i] == rows[..i];
  }

  ghost predicate TilesCounted(
      tiles: seq<StudentView>, rows: seq<ReplayRow>, now: seq<StudentView>, paidOnce: nat, paidTwice: nat,
      unpaid: nat, pending: nat)
  {
    && now == TilesAt(tiles, rows)
    && paidOnce == StateCount(now, PaidOnce) && paidTwice == StateCount(now, PaidTwice)
    && unpaid == StateCount(now, Unpaid) && pending == StateCount(now, Pending)
  }

  function Steps(upto: int): nat {
    if upto < 0 then 0 else upto
  }

  /** What one row adds to the reading. */
  method ReadOne(so: Reading, row: ReplayRow, amount: int, ghost tiles: seq<StudentView>) returns (reading: Reading)
    requires amount == Rate(tiles, row)
    ensures reading == ReadRow(tiles, so, row)
  {
    var key := row.delivery.key;
    var before := Count(so.commits, key);
    reading := so.(seen := so.seen[key := Count(so.seen, key) + 1]);
    match row.delivery.outcome {
      case Committed =>
        reading := reading.(commits := reading.commits[key := before + 1], payments := reading.payments + 1);
        if before == 0 {
          reading := reading.(spentFirst := reading.spentFirst + amount);
        } else {
          reading := reading.(repeatPayments := reading.repeatPayments + 1,
                              spentRepeat := reading.spentRepeat + amount);
        }
      case DuplicateSuppressed =>
        reading := reading.(repeatsRefused := reading.repeatsRefused + 1);
      case BudgetExhausted =>
        reading := reading.(budgetRefusals := reading.budgetRefusals + 1, refused := reading.refused + {key});
    }
  }

  /** The loop over the rows: running totals, and the lines near the cursor. */
  method ReadRows(tiles: seq<StudentView>, rows: seq<ReplayRow>, upto: int)
    returns (reading: Reading, lines: seq<FeedLine>)
    requires upto <= |rows|
    ensures reading == ReadAll(tiles, rows[..Steps(upto)])
    ensures lines == Lines(rows, Steps(upto), upto)
  {
    reading, lines := NOTHING_READ, [];
    var index := 0;
    while index < upto
      invariant 0 <= index <= Steps(upto)
      invariant reading == ReadAll(tiles, rows[..index])
      invariant lines == Lines(rows, index, upto)
    {
      var row, key := rows[index], rows[index].delivery.key;
      var amount := Rate(tiles, row);
      var before := Count(reading.commits, key);
      reading := ReadOne(reading, row, amount, tiles);
      ReadOneMore(tiles, rows, index);
      LinesStep(tiles, rows, index, upto);
      if index >= upto - FEED_LINES {
        lines := lines + [FeedLine(row.delivery.deliveryId, ToneOf(row, before))];
      }
      index := index + 1;
    }
    assert index == Steps(upto);
  }

  method DeriveTheater(tiles: seq<StudentView>, rows: seq<ReplayRow>, cursor: int) returns (t: Theater)
    ensures t == Picture(tiles, Shown(rows, cursor)).(arrived := Upto(rows, cursor))
  {
    var upto := Upto(rows, cursor);
    ghost var shown := Shown(rows, cursor);
    assert shown == rows[..Steps(upto)];
    var reading, lines := ReadRows(tiles, rows, upto);
    var now, paidOnce, paidTwice, unpaid, pending := DrawTiles(tiles, shown, reading);
    CountsFollow(tiles, shown);
    SpentFollows(tiles, shown);
    FeedIsReversed(rows, shown, Steps(upto), upto);
    t := Theater(upto, reading.payments, reading.repeatPayments, reading.repeatsRefused, reading.budgetRefusals,
                 reading.spentFirst, reading.spentRepeat, now, paidOnce, paidTwice, unpaid, pending, Reversed(lines));
  }

  lemma TileFollows(tiles: seq<StudentView>, shown: seq<ReplayRow>, tile: StudentView)
    ensures var r := ReadAll(tiles, shown);
            TileAt(tile, shown)
            == tile.(state := StateFor(Count(r.commits, tile.key), tile.key in r.refused, false),
                     payments := Count(r.commits, tile.key), deliveries := Count(r.seen, tile.key))
  {
    CommitsFollow(tiles, shown, tile.key);
    SeenFollow(tiles, shown, tile.key);
    RefusedFollow(tiles, shown, tile.key);
  }

  /** One tile per entitlement, counted by state. */
  method DrawTiles(tiles: seq<StudentView>, ghost shown: seq<ReplayRow>, reading: Reading)
    returns (now: seq<StudentView>, paidOnce: nat, paidTwice: nat, unpaid: nat, pending: nat)
    requires reading == ReadAll(tiles, shown)
    ensures TilesCounted(tiles, shown, now, paidOnce, paidTwice, unpaid, pending)
  {
    now := [];
    paidOnce, paidTwice, unpaid, pending := 0, 0, 0, 0;
    for n := 0 to |tiles|
      invariant now == TilesAt(tiles, shown)[..n]
      invariant paidOnce == StateCount(now, PaidOnce) && paidTwice == StateCount(now, PaidTwice)
      invariant unpaid == StateCount(now, Unpaid) && pending == StateCount(now, Pending)
    {
      TileFollows(tiles, shown, tiles[n]);
      var paid := Count(reading.commits, tiles[n].key);
      var state := StateFor(paid, tiles[n].key in reading.refused, false);
      match state {
        case PaidOnce => paidOnce := paidOnce + 1;
        case PaidTwice => paidTwice := paidTwice + 1;
        case Unpaid => unpaid := unpaid + 1;
        case Pending => pending := pending + 1;
      }
      var tile := tiles[n].(state := state, payments := paid, deliveries := Count(reading.seen, tiles[n].key));
      assert tile == TileAt(tiles[n], shown);
      assert (now + [tile])[..n] == now;
      now := now + [tile];
    }
    assert now == TilesAt(tiles, shown);
  }

  /** The lines kept after `index` rows: those of the last rows before the cursor. */
  function Lines(rows: seq<ReplayRow>, index: nat, upto: int): seq<FeedLine>
    requires index <= |rows|
  {
    var from := if upto < FEED_LINES then 0 else upto - FEED_LINES;
    seq(if index <= from then 0 else index - from, i requires 0 <= i < index - from => LineAt(rows, from + i))
  }

  lemma LinesStep(tiles: seq<StudentView>, rows: seq<ReplayRow>, n: nat, upto: int)
    requires n < |rows|
    ensures Lines(rows, n + 1, upto)
            == Lines(rows, n, upto)
               + (if n >= upto - FEED_LINES
                  then [FeedLine(rows[n].delivery.deliveryId,
                    ToneOf(rows[n], Count(ReadAll(tiles, rows[..n]).commits, rows[n].delivery.key)))]
                  else [])
  {
    CommitsFollow(tiles, rows[..n], rows[n].delivery.key);
    var before, after := Lines(rows, n, upto), Lines(rows, n + 1, upto);
    if n >= upto - FEED_LINES {
      var from := if upto < FEED_LINES then 0 else upto - FEED_LINES;
      assert |after| == |before| + 1 == n - from + 1;
      assert after[n - from] == LineAt(rows, n);
      assert after == before + [after[n - from]];
    } else {
      assert after == before;
    }
  }

  function Reversed(lines: seq<FeedLine>): seq<FeedLine> {
    seq(|lines|, i requires 0 <= i < |lines| => lines[|lines| - 1 - i])
  }

  lemma FeedIsReversed(rows: seq<ReplayRow>, shown: seq<ReplayRow>, index: nat, upto: int)
    requires index <= |rows| && shown == rows[..index] && (if upto < 0 then index == 0 else index == upto)
    ensures Reversed(Lines(rows, index, upto)) == Feed(shown)
  {
    var lines, feed := Reversed(Lines(rows, index, upto)), Feed(shown);
    assert |lines| == |feed|;
    forall i | 0 <= i < |feed| ensures lines[i] == feed[i] {
      LinesGrow(rows, index - 1, index - 1 - i);
    }
  }
}
