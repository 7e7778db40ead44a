/**
 The "why it failed" inspector (`inspect` in frontend/src/features/theater/replay.ts): the
 paying rows grouped by entitlement, in the order of first payments.
 */
module Inspector {
  import opened Domain
  import opened StudentState
  import opened Replay
  import opened Invariants

  datatype DoublePaid = DoublePaid(beneficiaryId: string, amount: int, payments: seq<ReplayRow>)

  datatype Starved = Starved(beneficiaryId: string, amount: int, refusal: ReplayRow)

  datatype Inspection = Inspection(
    doublePaid: Option<DoublePaid>, unpaid: Option<Starved>,
    repeatSpend: int, repeatPayments: int, unpaidNeed: int, unpaidStudents: nat)

  /** The rows that paid one entitlement, in order. */
  function PayingRows(rows: seq<ReplayRow>, k: Key): seq<ReplayRow> {
    if rows == [] then []
    else
      var last := rows[|rows| - 1];
      PayingRows(rows[..|rows| - 1], k) + (if Pays(last) && last.delivery.key == k then [last] else [])
  }

  /** The paid keys, in the order of their first payments. */
  function FirstKeys(rows: seq<ReplayRow>): seq<Key> {
    if rows == [] then []
    else
      var n := |rows| - 1;
      FirstKeys(rows[..n]) + (if Pays(rows[n]) && !Repeats(rows[..n], rows[n]) then [rows[n].delivery.key] else [])
  }

  /** What the inspector charges per repeat payment: the rate of the first paying row. */
  function FirstRate(tiles: seq<StudentView>, rows: seq<ReplayRow>, k: Key): int {
    if PayingRows(rows, k) == [] then 0 else Rate(tiles, PayingRows(rows, k)[0])
  }

  function GroupedRepeats(rows: seq<ReplayRow>, keys: seq<Key>): int {
    if keys == [] then 0
    else
      var k := keys[|keys| - 1];
      GroupedRepeats(rows, keys[..|keys| - 1]) + (Commits(rows, k) - 1)
  }

  function GroupSpend(tiles: seq<StudentView>, rows: seq<ReplayRow>, k: Key): int {
    FirstRate(tiles, rows, k) * (Commits(rows, k) - 1)
  }

  function GroupedSpend(tiles: seq<StudentView>, rows: seq<ReplayRow>, keys: seq<Key>): int {
    if keys == [] then 0
    else GroupedSpend(tiles, rows, keys[..|keys| - 1]) + GroupSpend(tiles, rows, keys[|keys| - 1])
  }

  /** The first of these keys that was paid more than once. */
  function FirstDouble(rows: seq<ReplayRow>, keys: seq<Key>): Option<Key> {
    if keys == [] then None
    else
      var earlier := FirstDouble(rows, keys[..|keys| - 1]);
      if earlier == None && Commits(rows, keys[|keys| - 1]) >= 2 then Some(keys[|keys| - 1]) else earlier
  }

  /** The tiles left with nothing: how many, and what they were owed. */
  function UnpaidTiles(tiles: seq<StudentView>, paid: multiset<Key>): nat {
    if tiles == [] then 0
    else UnpaidTiles(tiles[..|tiles| - 1], paid) + (if paid[tiles[|tiles| - 1].key] == 0 then 1 else 0)
  }

  function UnpaidTileNeed(tiles: seq<StudentView>, paid: multiset<Key>): int {
    if tiles == [] then 0
    else
      var last := tiles[|tiles| - 1];
      UnpaidTileNeed(tiles[..|tiles| - 1], paid) + (if paid[last.key] == 0 then last.amount else 0)
  }

  // --- Grouping ---------------------------------------------------------------------------------

  lemma {:induction false} PayingRowsCount(rows: seq<ReplayRow>, k: Key)
    ensures |PayingRows(rows, k)| == Commits(rows, k)
  {
    if rows != [] {
      PayingRowsCount(rows[..|rows| - 1], k);
    }
  }

  lemma {:induction false} PayingRowsPay(rows: seq<ReplayRow>, k: Key)
    ensures forall row :: row in PayingRows(rows, k) ==> row in rows && Pays(row) && row.delivery.key == k
  {
    if rows != [] {
      PayingRowsPay(rows[..|rows| - 1], k);
    }
  }

  lemma {:induction false} FirstKeysPaid(rows: seq<ReplayRow>, k: Key)
    ensures k in FirstKeys(rows) <==> Commits(rows, k) > 0
  {
    if rows != [] {
      FirstKeysPaid(rows[..|rows| - 1], k);
    }
  }

  lemma {:induction false} FirstKeysDistinct(rows: seq<ReplayRow>)
    ensures Distinct(FirstKeys(rows))
  {
    if rows != [] {
      var n := |rows| - 1;
      FirstKeysDistinct(rows[..n]);
      FirstKeysPaid(rows[..n], rows[n].delivery.key);
    }
  }

  /** The Map of the source: one list of rows per paid key. */
  function Paying(rows: seq<ReplayRow>): map<Key, seq<ReplayRow>> {
    if rows == [] then map[]
    else
      var n, key := |rows| - 1, rows[|rows| - 1].delivery.key;
      var before := Paying(rows[..n]);
      if Pays(rows[n]) then before[key := (if key in before then before[key] else []) + [rows[n]]] else before
  }

  lemma {:induction false} PayingExact(rows: seq<ReplayRow>, k: Key)
    ensures k in Paying(rows) <==> Commits(rows, k) > 0
    ensures k in Paying(rows) ==> Paying(rows)[k] == PayingRows(rows, k)
  {
    if rows != [] {
      var n := |rows| - 1;
      PayingExact(rows[..n], k);
      PayingRowsCount(rows[..n], k);
    }
  }

  method Group(rows: seq<ReplayRow>) returns (paying: map<Key, seq<ReplayRow>>, order: seq<Key>)
    ensures paying == Paying(rows) && order == FirstKeys(rows)
  {
    paying, order := map[], [];
    for n := 0 to |rows|
      invariant paying == Paying(rows[..n]) && order == FirstKeys(rows[..n])
    {
      var row, key := rows[n], rows[n].delivery.key;
      PayingExact(rows[..n], key);
      assert rows[..n + 1][..n] == rows[..n];
      if Pays(row) {
        if key !in paying {
          order := order + [key];
        }
        paying := paying[key := (if key in paying then paying[key] else []) + [row]];
      }
    }
    assert rows[..|rows|] == rows;
  }

  function DoubleAt(tiles: seq<StudentView>, rows: seq<ReplayRow>, k: Option<Key>): Option<DoublePaid> {
    match k
    case None => None
    case Some(key) =>
      var group := PayingRows(rows, key);
      if group == [] then None
      else Some(DoublePaid(group[0].delivery.beneficiaryId, FirstRate(tiles, rows, key), group))
  }

  ghost predicate IsStarvedRow(rows: seq<ReplayRow>, i: nat)
    requires i < |rows|
  {
    rows[i].delivery.outcome == BudgetExhausted && Commits(rows, rows[i].delivery.key) == 0
  }

  /** The first refusal of somebody who never was paid. */
  ghost predicate IsFirstRefusal(tiles: seq<StudentView>, rows: seq<ReplayRow>, n: nat, found: Option<Starved>)
    requires n <= |rows|
  {
    match found
    case None => forall i :: 0 <= i < n ==> !IsStarvedRow(rows, i)
    case Some(u) =>
      exists i ::
        && 0 <= i < n && IsStarvedRow(rows, i) && (forall j :: 0 <= j < i ==> !IsStarvedRow(rows, j))
        && u.refusal == rows[i] && u.amount == Rate(tiles, rows[i]) && u.beneficiaryId == rows[i].delivery.beneficiaryId
  }

  /** A payment to somebody who was paid again. */
  ghost predicate IsRepeatedRow(rows: seq<ReplayRow>, i: nat)
    requires i < |rows|
  {
    rows[i].delivery.outcome == Committed && Commits(rows, rows[i].delivery.key) >= 2
  }

  /** The first row that paid somebody who was paid more than once, and all that this student was paid. */
  ghost predicate IsFirstDouble(tiles: seq<StudentView>, rows: seq<ReplayRow>, found: Option<DoublePaid>) {
    match found
    case None => forall i :: 0 <= i < |rows| ==> !IsRepeatedRow(rows, i)
    case Some(d) =>
      exists i ::
        && 0 <= i < |rows| && IsRepeatedRow(rows, i) && (forall j :: 0 <= j < i ==> !IsRepeatedRow(rows, j))
        && d.beneficiaryId == rows[i].delivery.beneficiaryId && d.amount == Rate(tiles, rows[i])
        && d.payments == PayingRows(rows, rows[i].delivery.key)
  }

  /** The first repeated row among the first `n`. */
  ghost predicate FirstAmong(rows: seq<ReplayRow>, n: nat, k: Option<Key>)
    requires n <= |rows|
  {
    match k
    case None => forall i :: 0 <= i < n ==> !IsRepeatedRow(rows, i)
    case Some(key) =>
      exists i ::
        && 0 <= i < n && IsRepeatedRow(rows, i) && rows[i].delivery.key == key
        && forall j :: 0 <= j < i ==> !IsRepeatedRow(rows, j)
  }

  lemma {:induction false} FirstDoubleAt(rows: seq<ReplayRow>, n: nat)
    requires n <= |rows|
    ensures FirstAmong(rows, n, FirstDouble(rows, FirstKeys(rows[..n])))
  {
    if n > 0 {
      var m := n - 1;
      FirstDoubleAt(rows, m);
      FirstKeysGrow(rows, m);
      var before, now := FirstKeys(rows[..m]), FirstKeys(rows[..n]);
      if now == before {
        UnpaidOrRepeated(rows, m);
        SameFirst(rows, m, FirstDouble(rows, before));
      } else {
        assert now[..|now| - 1] == before && now[|now| - 1] == rows[m].delivery.key;
        NextFirst(rows, m, FirstDouble(rows, before));
      }
    }
  }

  /** A row that adds no key did not pay, or repeats an earlier payment. */
  lemma UnpaidOrRepeated(rows: seq<ReplayRow>, m: nat)
    requires m < |rows| && !(Pays(rows[m]) && !Repeats(rows[..m], rows[m]))
    ensures IsRepeatedRow(rows, m) ==> exists j :: 0 <= j < m && IsRepeatedRow(rows, j)
  {
    if IsRepeatedRow(rows, m) {
      CommitsBefore(rows, m, rows[m].delivery.key);
      var j :| 0 <= j < m && rows[j].delivery.outcome == Committed && rows[j].delivery.key == rows[m].delivery.key;
      assert IsRepeatedRow(rows, j);
    }
  }

  lemma SameFirst(rows: seq<ReplayRow>, m: nat, k: Option<Key>)
    requires m < |rows| && FirstAmong(rows, m, k)
    requires IsRepeatedRow(rows, m) ==> exists j :: 0 <= j < m && IsRepeatedRow(rows, j)
    ensures FirstAmong(rows, m + 1, k)
  {
    if k.Some? {
      var i :| 0 <= i < m && IsRepeatedRow(rows, i) && rows[i].delivery.key == k.value
        && forall j :: 0 <= j < i ==> !IsRepeatedRow(rows, j);
      assert 0 <= i < m + 1;
    }
  }

  lemma NextFirst(rows: seq<ReplayRow>, m: nat, k: Option<Key>)
    requires m < |rows| && Pays(rows[m]) && FirstAmong(rows, m, k)
    ensures FirstAmong(rows, m + 1,
                       if k == None && Commits(rows, rows[m].delivery.key) >= 2 then Some(rows[m].delivery.key) else k)
  {
    if k.Some? {
      var i :| 0 <= i < m && IsRepeatedRow(rows, i) && rows[i].delivery.key == k.value
        && forall j :: 0 <= j < i ==> !IsRepeatedRow(rows, j);
      assert 0 <= i < m + 1;
    } else if Commits(rows, rows[m].delivery.key) >= 2 {
      assert IsRepeatedRow(rows, m);
    }
  }

  lemma FirstKeysGrow(rows: seq<ReplayRow>, n: nat)
    requires n < |rows|
    ensures FirstKeys(rows[..n + 1])
            == FirstKeys(rows[..n])
               + (if Pays(rows[n]) && !Repeats(rows[..n], rows[n]) then [rows[n].delivery.key] else [])
  {
    assert rows[..n + 1][..n] == rows[..n];
  }

  lemma {:induction false} NonePaying(rows: seq<ReplayRow>, k: Key)
    requires forall j :: 0 <= j < |rows| ==> !(Pays(rows[j]) && rows[j].delivery.key == k)
    ensures PayingRows(rows, k) == []
  {
    if rows != [] {
      NonePaying(rows[..|rows| - 1], k);
    }
  }

  lemma {:induction false} FirstPaying(rows: seq<ReplayRow>, i: nat, k: Key)
    requires i < |rows| && Pays(rows[i]) && rows[i].delivery.key == k
    requires forall j :: 0 <= j < i ==> !(Pays(rows[j]) && rows[j].delivery.key == k)
    ensures PayingRows(rows, k) != [] && PayingRows(rows, k)[0] == rows[i]
  {
    var n := |rows| - 1;
    if i < n {
      FirstPaying(rows[..n], i, k);
    } else {
      NonePaying(rows[..n], k);
    }
  }

  lemma FirstDoubleExact(tiles: seq<StudentView>, rows: seq<ReplayRow>)
    ensures IsFirstDouble(tiles, rows, DoubleAt(tiles, rows, FirstDouble(rows, FirstKeys(rows))))
  {
    FirstDoubleAt(rows, |rows|);
    assert rows[..|rows|] == rows;
    var k := FirstDouble(rows, FirstKeys(rows));
    if k.Some? {
      var i :| 0 <= i < |rows| && IsRepeatedRow(rows, i) && rows[i].delivery.key == k.value
        && forall j :: 0 <= j < i ==> !IsRepeatedRow(rows, j);
      forall j | 0 <= j < i ensures !(Pays(rows[j]) && rows[j].delivery.key == k.value) {
        assert !IsRepeatedRow(rows, j);
      }
      FirstPaying(rows, i, k.value);
    }
  }

  method Inspect(tiles: seq<StudentView>, rows: seq<ReplayRow>) returns (facts: Inspection)
    ensures facts.repeatPayments == GroupedRepeats(rows, FirstKeys(rows))
    ensures facts.repeatSpend == GroupedSpend(tiles, rows, FirstKeys(rows))
    ensures IsFirstDouble(tiles, rows, facts.doublePaid)
    ensures IsFirstRefusal(tiles, rows, |rows|, facts.unpaid)
    ensures facts.unpaidNeed == UnpaidTileNeed(tiles, multiset(PaidKeys(rows)))
    ensures facts.unpaidStudents == UnpaidTiles(tiles, multiset(PaidKeys(rows)))
  {
    var paying, order := Group(rows);
    var repeatSpend, repeatPayments, doublePaid := 0, 0, None;
    for n := 0 to |order|
      invariant repeatPayments == GroupedRepeats(rows, order[..n])
      invariant repeatSpend == GroupedSpend(tiles, rows, order[..n])
      invariant doublePaid == DoubleAt(tiles, rows, FirstDouble(rows, order[..n]))
      invariant doublePaid == None <==> FirstDouble(rows, order[..n]) == None
    {
      var key := order[n];
      FirstKeysPaid(rows, key);
      PayingExact(rows, key);
      PayingRowsCount(rows, key);
      var group := paying[key];
      assert order[..n + 1][..n] == order[..n];
      if |group| >= 2 {
        var amount := Rate(tiles, group[0]);
        repeatPayments := repeatPayments + (|group| - 1);
        repeatSpend := repeatSpend + amount * (|group| - 1);
        if doublePaid == None {
          doublePaid := Some(DoublePaid(group[0].delivery.beneficiaryId, amount, group));
        }
      }
      assert GroupSpend(tiles, rows, key) == (if |group| >= 2 then Rate(tiles, group[0]) * (|group| - 1) else 0);
    }
    assert order[..|order|] == order;
    FirstDoubleExact(tiles, rows);
    var unpaid := FindRefusal(tiles, rows, paying);
    var paid := multiset(PaidKeys(rows));
    facts := Inspection(doublePaid, unpaid, repeatSpend, repeatPayments, UnpaidTileNeed(tiles, paid),
      UnpaidTiles(tiles, paid));
  }

  method FindRefusal(tiles: seq<StudentView>, rows: seq<ReplayRow>, paying: map<Key, seq<ReplayRow>>)
    returns (unpaid: Option<Starved>)
    requires paying == Paying(rows)
    ensures IsFirstRefusal(tiles, rows, |rows|, unpaid)
  {
    for n := 0 to |rows|
      invariant IsFirstRefusal(tiles, rows, n, None)
    {
      PayingExact(rows, rows[n].delivery.key);
      if rows[n].delivery.outcome == BudgetExhausted && rows[n].delivery.key !in paying {
        assert IsStarvedRow(rows, n);
        return Some(Starved(rows[n].delivery.beneficiaryId, Rate(tiles, rows[n]), rows[n]));
      }
    }
    return None;
  }

  // --- The inspector and the replay agree -------------------------------------------------------

  /** Paying rows of one entitlement carry one amount. */
  ghost predicate OneRate(tiles: seq<StudentView>, rows: seq<ReplayRow>) {
    forall i, j ::
      0 <= i < |rows| && 0 <= j < |rows| && Pays(rows[i]) && Pays(rows[j])
        && rows[i].delivery.key == rows[j].delivery.key ==>
        Rate(tiles, rows[i]) == Rate(tiles, rows[j])
  }

  lemma GroupMoves(tiles: seq<StudentView>, rows: seq<ReplayRow>, n: nat, k: Key)
    requires n < |rows| && Commits(rows[..n], k) > 0
    ensures var moved := Pays(rows[n]) && rows[n].delivery.key == k;
            && Commits(rows[..n + 1], k) == Commits(rows[..n], k) + (if moved then 1 else 0)
            && GroupSpend(tiles, rows[..n + 1], k)
               == GroupSpend(tiles, rows[..n], k) + (if moved then FirstRate(tiles, rows[..n], k) else 0)
  {
    assert rows[..n + 1][..n] == rows[..n];
    PayingRowsCount(rows[..n], k);
    var rate, c := FirstRate(tiles, rows[..n], k), Commits(rows[..n], k);
    assert FirstRate(tiles, rows[..n + 1], k) == rate;
    assert rate * c == rate * (c - 1) + rate;
  }

  /** One more row moves one group by one payment. */
  lemma {:induction false} GroupsMove(tiles: seq<StudentView>, rows: seq<ReplayRow>, n: nat, keys: seq<Key>)
    requires n < |rows| && Distinct(keys)
    requires forall i :: 0 <= i < |keys| ==> Commits(rows[..n], keys[i]) > 0
    ensures var row, after := rows[n], rows[..n + 1];
            var moved := Pays(row) && row.delivery.key in keys;
            && GroupedRepeats(after, keys) == GroupedRepeats(rows[..n], keys) + (if moved then 1 else 0)
            && GroupedSpend(tiles, after, keys)
               == GroupedSpend(tiles, rows[..n], keys)
                 + (if moved then FirstRate(tiles, rows[..n], row.delivery.key) else 0)
  {
    if keys != [] {
      var m := |keys| - 1;
      var k, rest := keys[m], keys[..m];
      assert keys == rest + [k];
      GroupsMove(tiles, rows, n, rest);
      assert k !in rest;
      GroupMoves(tiles, rows, n, k);
    }
  }

  lemma NewGroup(tiles: seq<StudentView>, rows: seq<ReplayRow>, keys: seq<Key>, k: Key)
    requires Commits(rows, k) == 1
    ensures GroupedRepeats(rows, keys + [k]) == GroupedRepeats(rows, keys)
    ensures GroupedSpend(tiles, rows, keys + [k]) == GroupedSpend(tiles, rows, keys)
  {
    assert (keys + [k])[..|keys|] == keys;
    assert GroupSpend(tiles, rows, k) == 0;
  }

  lemma {:induction false} RepeatRate(tiles: seq<StudentView>, rows: seq<ReplayRow>, n: nat)
    requires n < |rows| && OneRate(tiles, rows) && Repeats(rows[..n], rows[n])
    ensures FirstRate(tiles, rows[..n], rows[n].delivery.key) == Rate(tiles, rows[n])
  {
    var key := rows[n].delivery.key;
    PayingRowsCount(rows[..n], key);
    PayingRowsPay(rows[..n], key);
    var first := PayingRows(rows[..n], key)[0];
    assert first in PayingRows(rows[..n], key);
    var i :| 0 <= i < n && rows[..n][i] == first;
    assert Pays(rows[i]) && rows[i].delivery.key == key;
  }

  lemma OneRatePrefix(tiles: seq<StudentView>, rows: seq<ReplayRow>, n: nat)
    requires n <= |rows| && OneRate(tiles, rows)
    ensures OneRate(tiles, rows[..n])
  {
  }

  lemma GroupsGrow(tiles: seq<StudentView>, rows: seq<ReplayRow>, n: nat)
    requires n < |rows| && OneRate(tiles, rows)
    ensures var row, before, after := rows[n], rows[..n], rows[..n + 1];
            var repeat := Repeats(before, row);
            && GroupedRepeats(after, FirstKeys(after))
               == GroupedRepeats(before, FirstKeys(before)) + (if repeat then 1 else 0)
            && GroupedSpend(tiles, after, FirstKeys(after))
               == GroupedSpend(tiles, before, FirstKeys(before)) + (if repeat then Rate(tiles, row) else 0)
  {
    var keys, key := FirstKeys(rows[..n]), rows[n].delivery.key;
    assert rows[..n + 1][..n] == rows[..n];
    FirstKeysDistinct(rows[..n]);
    forall i | 0 <= i < |keys| ensures Commits(rows[..n], keys[i]) > 0 {
      FirstKeysPaid(rows[..n], keys[i]);
    }
    FirstKeysPaid(rows[..n], key);
    GroupsMove(tiles, rows, n, keys);
    assert FirstKeys(rows[..n + 1]) == if Pays(rows[n]) && !Repeats(rows[..n], rows[n]) then keys + [key] else keys;
    if Repeats(rows[..n], rows[n]) {
      RepeatRate(tiles, rows, n);
    } else if Pays(rows[n]) {
      NewGroup(tiles, rows[..n + 1], keys, key);
    }
  }

  /** Reading the rows one by one and grouping them give the same repeat payments and the same money. */
  lemma {:induction false} InspectorMatchesReplay(tiles: seq<StudentView>, rows: seq<ReplayRow>)
    requires OneRate(tiles, rows)
    ensures GroupedRepeats(rows, FirstKeys(rows)) == RepeatPayments(rows)
    ensures GroupedSpend(tiles, rows, FirstKeys(rows)) == SpentOn(tiles, rows, true)
  {
    if rows != [] {
      var n := |rows| - 1;
      assert rows[..n + 1] == rows;
      OneRatePrefix(tiles, rows, n);
      InspectorMatchesReplay(tiles, rows[..n]);
      GroupsGrow(tiles, rows, n);
    }
  }
}
