/**
 Experiment definitions: logical events, the choice of duplicates and the split into two
 phases (backend/src/domain/experiment.py). SHA-256 is a parameter, `rank`.
 */
module Experiment {
  import opened Domain
  import opened Sorting
  import opened Decimal
  import opened Invariants

  datatype ExperimentError = BadSeed | BadDuplicateCount(upper: nat) | UnknownEvents

  // --- Logical events ----------------------------------------------------------------------------

  function LogicalWidth(count: nat): nat {
    if |DecimalOf(count)| < 3 then 3 else |DecimalOf(count)|
  }

  function LogicalId(count: nat, index: nat): string {
    "EVT-" + Padded(index, LogicalWidth(count))
  }

  function LogicalIds(count: nat): seq<string> {
    seq(count, i requires 0 <= i < count => LogicalId(count, i + 1))
  }

  /** String order is numeric order, so the ids increase strictly, for batches of any size. */
  lemma LogicalIdsIncrease(count: nat, i: nat, j: nat)
    requires i < j < count
    ensures TextLess(LogicalIds(count)[i], LogicalIds(count)[j])
    ensures LogicalIds(count)[i] != LogicalIds(count)[j]
  {
    LogicalIdIncreases(count, i + 1, j + 1);
    TextTrichotomy(LogicalId(count, i + 1), LogicalId(count, j + 1));
  }

  lemma LogicalIdIncreases(count: nat, m: nat, n: nat)
    requires m < n <= count
    ensures TextLess(LogicalId(count, m), LogicalId(count, n))
  {
    PaddedIncrease(count, m, n);
    SamePrefix("EVT-", Padded(m, LogicalWidth(count)), Padded(n, LogicalWidth(count)));
  }

  lemma PaddedIncrease(count: nat, m: nat, n: nat)
    requires m < n <= count
    ensures TextLess(Padded(m, LogicalWidth(count)), Padded(n, LogicalWidth(count)))
  {
    var width := LogicalWidth(count);
    LongerDecimal(m, count);
    LongerDecimal(n, count);
    PaddedRoundTrip(m, width);
    PaddedRoundTrip(n, width);
    DigitOrder(Padded(m, width), Padded(n, width));
  }

  /** The i-th id is "EVT-" and the number i + 1, padded to the width of the largest, at least three digits. */
  lemma LogicalIdSays(count: nat, i: nat)
    requires i < count
    ensures |LogicalIds(count)| == count
    ensures var id := LogicalIds(count)[i];
            && |id| == 4 + (if count < 1000 then 3 else |DecimalOf(count)|) && id[..4] == "EVT-"
            && Digits(id[4..]) && NumberOf(id[4..]) == i + 1
  {
    var width := LogicalWidth(count);
    LongerDecimal(i + 1, count);
    if count < 1000 {
      LongerDecimal(count, 999);
    } else {
      LongerDecimal(1000, count);
    }
    PaddedRoundTrip(i + 1, width);
    assert LogicalIds(count)[i][4..] == Padded(i + 1, width);
  }

  lemma LogicalIdsDistinct(count: nat)
    ensures Distinct(LogicalIds(count))
  {
    forall i, j | 0 <= i < j < count ensures LogicalIds(count)[i] != LogicalIds(count)[j] {
      LogicalIdsIncrease(count, i, j);
    }
  }

  // --- The seed and the selection ------------------------------------------------------------------

  predicate IsAlphanumeric(c: char) {
    IsDigit(c) || 'A' <= c <= 'Z' || 'a' <= c <= 'z'
  }

  predicate ValidSeed(seed: string) {
    && 1 <= |seed| <= 64
    && IsAlphanumeric(seed[0])
    && forall i | 1 <= i < |seed| :: IsAlphanumeric(seed[i]) || seed[i] in "._:-"
  }

  /** The pattern of a seed in ASCII codes: 1 to 64 letters, digits, '.', '_', ':' or '-', not starting with a mark. */
  lemma SeedInCodes(seed: string)
    ensures ValidSeed(seed) <==>
              && 1 <= |seed| <= 64
              && (forall i :: 0 <= i < |seed| ==>
                    var c := seed[i] as int;
                    || 48 <= c <= 57 || 65 <= c <= 90 || 97 <= c <= 122
                    || (i > 0 && (c == 45 || c == 46 || c == 58 || c == 95)))
  {
    if ValidSeed(seed) {
      forall i | 0 <= i < |seed|
        ensures var c := seed[i] as int;
                || 48 <= c <= 57 || 65 <= c <= 90 || 97 <= c <= 122
                || (i > 0 && (c == 45 || c == 46 || c == 58 || c == 95))
      {
        MarkCode(seed[i]);
      }
    } else if 1 <= |seed| <= 64 && IsAlphanumeric(seed[0]) {
      var i :| 1 <= i < |seed| && !(IsAlphanumeric(seed[i]) || seed[i] in "._:-");
      MarkCode(seed[i]);
    }
  }

  lemma MarkCode(c: char)
    ensures c in "._:-" <==> c as int == 45 || c as int == 46 || c as int == 58 || c as int == 95
  {
    assert "._:-"[0] == '.' && "._:-"[1] == '_' && "._:-"[2] == ':' && "._:-"[3] == '-';
  }

  function ValidateDuplicateCount(logicalEvents: nat, duplicates: int): Result<nat, ExperimentError> {
    if 1 <= duplicates <= logicalEvents / 2 then Ok(duplicates) else Err(BadDuplicateCount(logicalEvents / 2))
  }

  /** By hash first, by id where hashes tie. */
  function RankOrder(rank: string -> string): (string, string) -> bool {
    (a, b) => TextLess(rank(a), rank(b)) || (rank(a) == rank(b) && TextLessEq(a, b))
  }

  function SelectDuplicates(ids: seq<string>, rank: string -> string, duplicates: int)
    : Result<seq<string>, ExperimentError>
  {
    match ValidateDuplicateCount(|ids|, duplicates)
    case Err(e) => Err(e)
    case Ok(d) =>
      var ranked := Sort(ids, RankOrder(rank));
      Ok(Sort(if d <= |ranked| then ranked[..d] else ranked, TextLessEq))
  }

  lemma RankOrders(rank: string -> string)
    ensures Ranks(RankOrder(rank))
    ensures forall ids: seq<string> :: Decides(ids, RankOrder(rank))
  {
    var le := RankOrder(rank);
    forall a: string, b: string ensures le(a, b) || le(b, a) {
      TextTrichotomy(rank(a), rank(b));
      TextTrichotomy(a, b);
    }
    forall a: string, b: string | le(a, b) && le(b, a) ensures a == b {
      TextTrichotomy(rank(a), rank(b));
      TextTrichotomy(a, b);
    }
    forall a: string, b: string, c: string | le(a, b) && le(b, c) ensures le(a, c) {
      RankTransitive(rank, a, b, c);
    }
  }

  lemma RankTransitive(rank: string -> string, a: string, b: string, c: string)
    requires RankOrder(rank)(a, b) && RankOrder(rank)(b, c)
    ensures RankOrder(rank)(a, c)
  {
    TextOrder();
    if TextLess(rank(a), rank(b)) && TextLess(rank(b), rank(c)) {
      TextTransitive(rank(a), rank(b), rank(c));
    }
  }

  /** One event comes before another: a lower hash, or the same hash and a lower id. */
  ghost predicate LowerHash(rank: string -> string, a: string, b: string) {
    TextLess(rank(a), rank(b)) || (rank(a) == rank(b) && TextLess(a, b))
  }

  /** The chosen events, and the rest: together the ids, and each chosen one has a lower hash than any left out. */
  ghost predicate IsSelection(ids: seq<string>, rank: string -> string, chosen: seq<string>, rest: seq<string>) {
    && multiset(chosen) + multiset(rest) == multiset(ids)
    && forall a, b :: a in chosen && b in rest ==> LowerHash(rank, a, b) || a == b
  }

  /**
   Exactly for 1 <= D <= N / 2 there is a selection: the D events with the lowest hashes, ids
   deciding ties, listed in increasing order.
   */
  lemma SelectionExact(ids: seq<string>, rank: string -> string, duplicates: int) returns (rest: seq<string>)
    ensures SelectDuplicates(ids, rank, duplicates).Ok? <==> 1 <= duplicates <= |ids| / 2
    ensures SelectDuplicates(ids, rank, duplicates).Err? ==>
              SelectDuplicates(ids, rank, duplicates).error == BadDuplicateCount(|ids| / 2)
    ensures SelectDuplicates(ids, rank, duplicates).Ok? ==>
              var chosen := SelectDuplicates(ids, rank, duplicates).value;
              && |chosen| == duplicates && SortedBy(chosen, TextLessEq)
              && IsSelection(ids, rank, chosen, rest)
  {
    rest := [];
    if 1 <= duplicates <= |ids| / 2 {
      var ranked := Sort(ids, RankOrder(rank));
      RankedIsSorted(ids, rank);
      TextIsSorted(ranked[..duplicates]);
      rest := ranked[duplicates..];
      TakeDrop(ranked, duplicates);
      FirstRanked(ranked, rank, duplicates, Sort(ranked[..duplicates], TextLessEq));
    }
  }

  lemma TakeDrop<T>(xs: seq<T>, n: nat)
    requires n <= |xs|
    ensures multiset(xs) == multiset(xs[..n]) + multiset(xs[n..])
  {
    assert xs == xs[..n] + xs[n..];
  }

  lemma RankedIsSorted(ids: seq<string>, rank: string -> string)
    ensures SortedBy(Sort(ids, RankOrder(rank)), RankOrder(rank))
    ensures multiset(Sort(ids, RankOrder(rank))) == multiset(ids) && |Sort(ids, RankOrder(rank))| == |ids|
  {
    RankOrders(rank);
    SortPermutes(ids, RankOrder(rank));
    SortSorts(ids, RankOrder(rank));
  }

  lemma TextIsSorted(ids: seq<string>)
    ensures SortedBy(Sort(ids, TextLessEq), TextLessEq)
    ensures multiset(Sort(ids, TextLessEq)) == multiset(ids) && |Sort(ids, TextLessEq)| == |ids|
  {
    TextOrder();
    SortPermutes(ids, TextLessEq);
    SortSorts(ids, TextLessEq);
  }

  /** The first elements of a ranked list rank before the rest, in whatever order they are listed. */
  lemma FirstRanked(ranked: seq<string>, rank: string -> string, n: nat, chosen: seq<string>)
    requires n <= |ranked| && SortedBy(ranked, RankOrder(rank)) && multiset(chosen) == multiset(ranked[..n])
    ensures forall a, b :: a in chosen && b in ranked[n..] ==> LowerHash(rank, a, b) || a == b
  {
    forall a, b | a in chosen && b in ranked[n..] ensures LowerHash(rank, a, b) || a == b {
      assert a in multiset(chosen);
      var i :| 0 <= i < n && ranked[i] == a;
      var j :| n <= j < |ranked| && ranked[j] == b;
      RankedIsLower(rank, a, b);
    }
  }

  lemma RankedIsLower(rank: string -> string, a: string, b: string)
    requires RankOrder(rank)(a, b)
    ensures LowerHash(rank, a, b) || a == b
  {
    TextTrichotomy(a, b);
  }

  /** The selection depends on the batch and the seed, not on the order of the ids. */
  lemma SelectionIgnoresOrder(ids: seq<string>, ids': seq<string>, rank: string -> string, duplicates: int)
    requires multiset(ids) == multiset(ids')
    ensures SelectDuplicates(ids, rank, duplicates) == SelectDuplicates(ids', rank, duplicates)
  {
    assert |ids| == |multiset(ids)| == |multiset(ids')| == |ids'|;
    RankOrders(rank);
    SortIgnoresOrder(ids, ids', RankOrder(rank));
  }

  // --- The two phases --------------------------------------------------------------------------------

  datatype Phases = Phases(a: seq<string>, b: seq<string>)

  /** `set(...)` as a list: every element once. */
  function Once(xs: seq<string>): seq<string> {
    if xs == [] then []
    else
      var n := |xs| - 1;
      Once(xs[..n]) + (if xs[n] in xs[..n] then [] else [xs[n]])
  }

  function Without(ids: seq<string>, removed: seq<string>): seq<string> {
    if ids == [] then []
    else
      var n := |ids| - 1;
      Without(ids[..n], removed) + (if ids[n] in removed then [] else [ids[n]])
  }

  function SplitPhases(ids: seq<string>, duplicated: seq<string>): Result<Phases, ExperimentError> {
    if exists x | x in duplicated :: x !in ids then Err(UnknownEvents)
    else Ok(Phases(Sort(Once(duplicated), TextLessEq), Without(ids, duplicated)))
  }

  lemma {:induction false} OnceExact(xs: seq<string>)
    ensures Distinct(Once(xs)) && forall x :: x in Once(xs) <==> x in xs
  {
    if xs != [] {
      OnceExact(xs[..|xs| - 1]);
    }
  }

  lemma {:induction false} OnceOfDistinct(xs: seq<string>)
    requires Distinct(xs)
    ensures Once(xs) == xs
  {
    if xs != [] {
      var n := |xs| - 1;
      OnceOfDistinct(xs[..n]);
      assert xs == xs[..n] + [xs[n]];
      assert xs[n] !in xs[..n];
    }
  }

  lemma {:induction false} WithoutExact(ids: seq<string>, removed: seq<string>, x: string)
    ensures multiset(Without(ids, removed))[x] == if x in removed then 0 else multiset(ids)[x]
  {
    if ids != [] {
      var n := |ids| - 1;
      WithoutExact(ids[..n], removed, x);
      LastId(ids, x);
      if ids[n] !in removed {
        OneMoreId(Without(ids[..n], removed), ids[n], x);
      } else {
        assert Without(ids, removed) == Without(ids[..n], removed);
      }
    }
  }

  lemma LastId(ids: seq<string>, x: string)
    requires ids != []
    ensures var n := |ids| - 1;
            multiset(ids)[x] == multiset(ids[..n])[x] + (if ids[n] == x then 1 else 0)
  {
    assert ids == ids[..|ids| - 1] + [ids[|ids| - 1]];
  }

  lemma OneMoreId(xs: seq<string>, last: string, x: string)
    ensures multiset(xs + [last])[x] == multiset(xs)[x] + (if last == x then 1 else 0)
  {
  }

  lemma {:induction false} DistinctCount(xs: seq<string>, x: string)
    requires Distinct(xs)
    ensures multiset(xs)[x] == if x in xs then 1 else 0
  {
    if xs != [] {
      var n := |xs| - 1;
      DistinctCount(xs[..n], x);
      assert xs == xs[..n] + [xs[n]];
    }
  }

  /**
   The split is refused exactly when it names unknown events. Otherwise Phase A holds the
   duplicated events, each once and in order, and the two phases partition all events.
   */
  lemma PhasesPartition(ids: seq<string>, duplicated: seq<string>)
    requires Distinct(ids)
    ensures var split := SplitPhases(ids, duplicated);
            && (split.Ok? <==> forall x :: x in duplicated ==> x in ids)
            && (split.Ok? ==>
                  && multiset(split.value.a) + multiset(split.value.b) == multiset(ids)
                  && (forall x :: multiset(split.value.a)[x] == if x in duplicated then 1 else 0)
                  && SortedBy(split.value.a, TextLessEq))
  {
    if forall x :: x in duplicated ==> x in ids {
      var a, b := Sort(Once(duplicated), TextLessEq), Without(ids, duplicated);
      OnceExact(duplicated);
      TextOrder();
      SortPermutes(Once(duplicated), TextLessEq);
      SortSorts(Once(duplicated), TextLessEq);
      forall x
        ensures multiset(a)[x] == if x in duplicated then 1 else 0
        ensures multiset(a)[x] + multiset(b)[x] == multiset(ids)[x]
      {
        DistinctCount(Once(duplicated), x);
        WithoutExact(ids, duplicated, x);
        DistinctCount(ids, x);
      }
    }
  }

  // --- The definition --------------------------------------------------------------------------------

  datatype Definition = Definition(
    batchSha: string, seed: string, logicalEvents: nat, duplicateCount: int, duplicated: seq<string>, phases: Phases)

  function BuildDefinition(batchSha: string, count: nat, seed: string, rank: string -> string, duplicates: int)
    : Result<Definition, ExperimentError>
  {
    var ids := LogicalIds(count);
    if !ValidSeed(seed) then Err(BadSeed)
    else
      match SelectDuplicates(ids, rank, duplicates)
      case Err(e) => Err(e)
      case Ok(chosen) =>
        match SplitPhases(ids, chosen)
        case Err(e) => Err(e)
        case Ok(phases) => Ok(Definition(batchSha, seed, count, duplicates, chosen, phases))
  }

  function ExpectedDeliveries(d: Definition): (int, int) {
    (2 * d.duplicateCount, d.logicalEvents + d.duplicateCount)
  }

  /** Every logical event is in exactly one phase, D of them in Phase A. */
  ghost predicate Splits(d: Definition, ids: seq<string>) {
    && multiset(d.phases.a) + multiset(d.phases.b) == multiset(ids)
    && |d.phases.a| == d.duplicateCount
    && |d.phases.b| == |ids| - d.duplicateCount
    && multiset(d.phases.a) == multiset(d.duplicated)
  }

  /**
   A definition exists exactly for a valid seed and 1 <= D <= N / 2; its phases split the N
   events into D and N - D, so the expected deliveries are those the two phases send. Phase A
   holds the D events of lowest hash, in increasing order.
   */
  lemma DefinitionSplits(batchSha: string, count: nat, seed: string, rank: string -> string, duplicates: int)
    ensures var built := BuildDefinition(batchSha, count, seed, rank, duplicates);
            && (built.Ok? <==> ValidSeed(seed) && 1 <= duplicates <= count / 2)
            && (built.Err? ==> built.error == if ValidSeed(seed) then BadDuplicateCount(count / 2) else BadSeed)
            && (built.Ok? ==>
                  && built.value.batchSha == batchSha && built.value.seed == seed
                  && built.value.logicalEvents == count && built.value.duplicateCount == duplicates
                  && built.value.duplicated == built.value.phases.a
                  && Splits(built.value, LogicalIds(count))
                  && (forall a, b :: a in built.value.phases.a && b in built.value.phases.b ==> LowerHash(rank, a, b))
                  && SortedBy(built.value.phases.a, TextLessEq) && SortedBy(built.value.phases.b, TextLessEq)
                  && ExpectedDeliveries(built.value).0 == 2 * |built.value.phases.a|
                  && ExpectedDeliveries(built.value).1 == 2 * |built.value.phases.a| + |built.value.phases.b|)
  {
    var ids := LogicalIds(count);
    var rest := SelectionExact(ids, rank, duplicates);
    LogicalIdsDistinct(count);
    if ValidSeed(seed) && 1 <= duplicates <= count / 2 {
      var chosen := SelectDuplicates(ids, rank, duplicates).value;
      ChosenSplit(ids, chosen, rest);
      var d := Definition(batchSha, seed, count, duplicates, chosen, SplitPhases(ids, chosen).value);
      assert BuildDefinition(batchSha, count, seed, rank, duplicates) == Ok(d);
      assert Splits(d, ids) && |ids| == count;
      PhaseAIsLowest(ids, rank, chosen, rest);
      LogicalIdsSorted(count);
      WithoutSorted(ids, chosen);
    }
  }

  lemma LogicalIdsSorted(count: nat)
    ensures SortedBy(LogicalIds(count), TextLessEq)
  {
    forall i, j | 0 <= i < j < count ensures TextLessEq(LogicalIds(count)[i], LogicalIds(count)[j]) {
      LogicalIdsIncrease(count, i, j);
      TextTrichotomy(LogicalIds(count)[i], LogicalIds(count)[j]);
    }
  }

  /** Leaving elements out keeps the order of the others. */
  lemma {:induction false} WithoutSorted(ids: seq<string>, removed: seq<string>)
    requires SortedBy(ids, TextLessEq)
    ensures SortedBy(Without(ids, removed), TextLessEq)
    ensures forall x :: x in Without(ids, removed) ==> x in ids
  {
    if ids != [] {
      var n := |ids| - 1;
      assert forall i :: 0 <= i < n ==> ids[..n][i] == ids[i];
      WithoutSorted(ids[..n], removed);
      forall x | x in ids[..n] ensures TextLessEq(x, ids[n]) {
        var i :| 0 <= i < n && ids[..n][i] == x;
      }
      LastIsLargest(Without(ids[..n], removed), ids[n]);
    }
  }

  lemma LastIsLargest(xs: seq<string>, last: string)
    requires SortedBy(xs, TextLessEq) && forall x :: x in xs ==> TextLessEq(x, last)
    ensures SortedBy(xs + [last], TextLessEq)
  {
    var all := xs + [last];
    forall i, j | 0 <= i < j < |all| ensures TextLessEq(all[i], all[j]) {
      assert all[i] == xs[i] && xs[i] in xs;
      assert all[j] == if j < |xs| then xs[j] else last;
    }
  }

  lemma PhaseAIsLowest(ids: seq<string>, rank: string -> string, chosen: seq<string>, rest: seq<string>)
    requires Distinct(ids) && IsSelection(ids, rank, chosen, rest)
    ensures SplitPhases(ids, chosen).Ok?
    ensures var phases := SplitPhases(ids, chosen).value;
            && (forall a, b :: a in phases.a && b in phases.b ==> LowerHash(rank, a, b))
            && SortedBy(phases.a, TextLessEq)
            && (SortedBy(chosen, TextLessEq) ==> phases.a == chosen)
  {
    ChosenSplit(ids, chosen, rest);
    PhasesPartition(ids, chosen);
    var phases := SplitPhases(ids, chosen).value;
    RestIsRest(ids, phases.a, phases.b, chosen, rest);
    SameMembers(phases.a, chosen);
    SameMembers(phases.b, rest);
    InOnePart(ids, chosen, rest);
    if SortedBy(chosen, TextLessEq) {
      TextOrder();
      SortedUnique(phases.a, chosen, TextLessEq);
    }
  }

  lemma SameMembers(xs: seq<string>, ys: seq<string>)
    requires multiset(xs) == multiset(ys)
    ensures forall x :: x in xs <==> x in ys
  {
    assert forall x :: x in xs <==> x in multiset(xs);
    assert forall x :: x in ys <==> x in multiset(ys);
  }

  lemma RestIsRest(ids: seq<string>, a: seq<string>, b: seq<string>, chosen: seq<string>, rest: seq<string>)
    requires multiset(a) + multiset(b) == multiset(ids) == multiset(chosen) + multiset(rest)
    requires multiset(a) == multiset(chosen)
    ensures multiset(b) == multiset(rest)
  {
    assert multiset(b) == multiset(ids) - multiset(a);
    assert multiset(rest) == multiset(ids) - multiset(chosen);
  }

  lemma InOnePart(ids: seq<string>, chosen: seq<string>, rest: seq<string>)
    requires Distinct(ids) && multiset(chosen) + multiset(rest) == multiset(ids)
    ensures forall x :: x in chosen ==> x !in rest
  {
    forall x | x in chosen ensures x !in rest {
      DistinctCount(ids, x);
      assert multiset(ids)[x] == multiset(chosen)[x] + multiset(rest)[x];
    }
  }

  lemma ChosenSplit(ids: seq<string>, chosen: seq<string>, rest: seq<string>)
    requires Distinct(ids) && multiset(chosen) + multiset(rest) == multiset(ids)
    ensures SplitPhases(ids, chosen).Ok?
    ensures var phases := SplitPhases(ids, chosen).value;
            && multiset(phases.a) + multiset(phases.b) == multiset(ids)
            && |phases.a| == |chosen| && |phases.b| == |ids| - |chosen|
            && multiset(phases.a) == multiset(chosen)
  {
    ChosenAreDistinct(ids, chosen, rest);
    PhasesPartition(ids, chosen);
    OnceOfDistinct(chosen);
    SortPermutes(chosen, TextLessEq);
    var phases := SplitPhases(ids, chosen).value;
    assert |multiset(phases.a)| + |multiset(phases.b)| == |multiset(ids)| == |ids|;
    assert |multiset(phases.a)| == |phases.a| && |multiset(phases.b)| == |phases.b|;
  }

  lemma ChosenAreDistinct(ids: seq<string>, chosen: seq<string>, rest: seq<string>)
    requires Distinct(ids) && multiset(chosen) + multiset(rest) == multiset(ids)
    ensures Distinct(chosen) && forall x :: x in chosen ==> x in ids
  {
    forall i, j | 0 <= i < j < |chosen| ensures chosen[i] != chosen[j] {
      if chosen[i] == chosen[j] {
        OccursTwice(chosen, i, j);
        DistinctCount(ids, chosen[i]);
      }
    }
    forall x | x in chosen ensures x in ids {
      assert x in multiset(chosen);
      assert x in multiset(ids);
    }
  }
}
