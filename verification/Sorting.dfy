/** Python's `sorted`: a stable insertion sort, and why its result depends on the contents only. */
module Sorting {

  /** Any two elements can be compared, consistently; ties are allowed. */
  ghost predicate Ranks<T(!new)>(le: (T, T) -> bool) {
    && (forall x, y :: le(x, y) || le(y, x))
    && (forall x, y, z :: le(x, y) && le(y, z) ==> le(x, z))
  }

  /** No two different elements of the sequence tie. */
  ghost predicate Decides<T>(xs: seq<T>, le: (T, T) -> bool) {
    forall i, j :: 0 <= i < |xs| && 0 <= j < |xs| && le(xs[i], xs[j]) && le(xs[j], xs[i]) ==> xs[i] == xs[j]
  }

  ghost predicate SortedBy<T>(xs: seq<T>, le: (T, T) -> bool) {
    forall i, j :: 0 <= i < j < |xs| ==> le(xs[i], xs[j])
  }

  function Insert<T>(x: T, xs: seq<T>, le: (T, T) -> bool): seq<T> {
    if xs == [] then [x]
    else if le(xs[|xs| - 1], x) then xs + [x]
    else Insert(x, xs[..|xs| - 1], le) + [xs[|xs| - 1]]
  }

  function Sort<T>(xs: seq<T>, le: (T, T) -> bool): seq<T> {
    if xs == [] then [] else Insert(xs[|xs| - 1], Sort(xs[..|xs| - 1], le), le)
  }

  lemma {:induction false} InsertPermutes<T>(x: T, xs: seq<T>, le: (T, T) -> bool)
    ensures multiset(Insert(x, xs, le)) == multiset(xs) + multiset{x}
  {
    if xs != [] {
      var n := |xs| - 1;
      assert xs == xs[..n] + [xs[n]];
      if !le(xs[n], x) {
        InsertPermutes(x, xs[..n], le);
      }
    }
  }

  lemma {:induction false} InsertSorts<T(!new)>(x: T, xs: seq<T>, le: (T, T) -> bool)
    requires Ranks(le) && SortedBy(xs, le)
    ensures SortedBy(Insert(x, xs, le), le)
  {
    if xs != [] {
      var n := |xs| - 1;
      if !le(xs[n], x) {
        InsertSorts(x, xs[..n], le);
        InsertPermutes(x, xs[..n], le);
        var front := Insert(x, xs[..n], le);
        forall i | 0 <= i < |front| ensures le(front[i], xs[n]) {
          assert front[i] in multiset(front);
          assert front[i] == x || front[i] in xs[..n];
        }
      } else {
        assert forall i :: 0 <= i < |xs| ==> le(xs[i], xs[n]);
      }
    }
  }

  lemma {:induction false} SortPermutes<T>(xs: seq<T>, le: (T, T) -> bool)
    ensures multiset(Sort(xs, le)) == multiset(xs)
    ensures |Sort(xs, le)| == |xs|
  {
    if xs != [] {
      SortPermutes(xs[..|xs| - 1], le);
      SortGrows(xs, le);
    }
    SameSize(Sort(xs, le), xs);
  }

  lemma SortGrows<T>(xs: seq<T>, le: (T, T) -> bool)
    requires xs != [] && multiset(Sort(xs[..|xs| - 1], le)) == multiset(xs[..|xs| - 1])
    ensures multiset(Sort(xs, le)) == multiset(xs)
  {
    InsertPermutes(xs[|xs| - 1], Sort(xs[..|xs| - 1], le), le);
    LastAside(xs);
  }

  lemma LastAside<T>(xs: seq<T>)
    requires xs != []
    ensures multiset(xs) == multiset(xs[..|xs| - 1]) + multiset{xs[|xs| - 1]}
  {
    assert xs == xs[..|xs| - 1] + [xs[|xs| - 1]];
  }

  lemma SameSize<T>(xs: seq<T>, ys: seq<T>)
    requires multiset(xs) == multiset(ys)
    ensures |xs| == |ys|
  {
    assert |xs| == |multiset(xs)| && |ys| == |multiset(ys)|;
  }

  lemma {:induction false} SortSorts<T(!new)>(xs: seq<T>, le: (T, T) -> bool)
    requires Ranks(le)
    ensures SortedBy(Sort(xs, le), le)
  {
    if xs != [] {
      var n := |xs| - 1;
      SortSorts(xs[..n], le);
      InsertSorts(xs[n], Sort(xs[..n], le), le);
    }
  }

  /** The last element of a sorted sequence is determined by its contents. */
  lemma SortedLast<T(!new)>(xs: seq<T>, ys: seq<T>, le: (T, T) -> bool)
    requires Ranks(le) && Decides(xs, le) && SortedBy(xs, le) && SortedBy(ys, le)
    requires multiset(xs) == multiset(ys) && xs != [] && ys != []
    ensures xs[|xs| - 1] == ys[|ys| - 1]
  {
    var x, y := xs[|xs| - 1], ys[|ys| - 1];
    assert x in multiset(ys) && y in multiset(xs);
    var i :| 0 <= i < |ys| && ys[i] == x;
    var j :| 0 <= j < |xs| && xs[j] == y;
    assert le(x, y) && le(y, x);
  }

  lemma WithoutLast<T>(xs: seq<T>)
    requires xs != []
    ensures multiset(xs[..|xs| - 1]) == multiset(xs) - multiset{xs[|xs| - 1]}
  {
    assert xs == xs[..|xs| - 1] + [xs[|xs| - 1]];
  }

  lemma CountLast<T>(xs: seq<T>, last: T, x: T)
    ensures multiset(xs + [last])[x] == multiset(xs)[x] + (if last == x then 1 else 0)
  {
  }

  lemma OccursTwice<T>(xs: seq<T>, i: nat, j: nat)
    requires i < j < |xs| && xs[i] == xs[j]
    ensures multiset(xs)[xs[i]] >= 2
  {
    assert xs == xs[..j] + xs[j..];
    assert xs[..j][i] == xs[i] && xs[j..][0] == xs[i];
    assert multiset(xs) == multiset(xs[..j]) + multiset(xs[j..]);
  }

  lemma {:induction false} TwoOccurrences<T>(xs: seq<T>, x: T) returns (i: nat, j: nat)
    requires multiset(xs)[x] >= 2
    ensures i < j < |xs| && xs[i] == x == xs[j]
  {
    var n := |xs| - 1;
    assert xs == xs[..n] + [xs[n]];
    if xs[n] == x {
      assert x in multiset(xs[..n]);
      i :| 0 <= i < n && xs[i] == x;
      j := n;
    } else {
      i, j := TwoOccurrences(xs[..n], x);
    }
  }

  /** Two sorted arrangements of the same elements are the same sequence. */
  lemma {:induction false} SortedUnique<T(!new)>(xs: seq<T>, ys: seq<T>, le: (T, T) -> bool)
    requires Ranks(le) && Decides(xs, le) && SortedBy(xs, le) && SortedBy(ys, le)
    requires multiset(xs) == multiset(ys)
    ensures xs == ys
  {
    assert |xs| == |multiset(xs)| == |multiset(ys)| == |ys|;
    if xs != [] {
      SortedLast(xs, ys, le);
      WithoutLast(xs);
      WithoutLast(ys);
      SortedUnique(xs[..|xs| - 1], ys[..|ys| - 1], le);
    }
  }

  lemma SameDecides<T>(xs: seq<T>, ys: seq<T>, le: (T, T) -> bool)
    requires multiset(xs) == multiset(ys) && Decides(xs, le)
    ensures Decides(ys, le)
  {
    forall i, j | 0 <= i < |ys| && 0 <= j < |ys| && le(ys[i], ys[j]) && le(ys[j], ys[i]) ensures ys[i] == ys[j] {
      assert ys[i] in multiset(xs) && ys[j] in multiset(xs);
      var a :| 0 <= a < |xs| && xs[a] == ys[i];
      var b :| 0 <= b < |xs| && xs[b] == ys[j];
    }
  }

  /** Sorting ignores the order in which the elements arrive. */
  lemma SortIgnoresOrder<T(!new)>(xs: seq<T>, ys: seq<T>, le: (T, T) -> bool)
    requires Ranks(le) && Decides(xs, le) && multiset(xs) == multiset(ys)
    ensures Sort(xs, le) == Sort(ys, le)
  {
    SortPermutes(xs, le);
    SortPermutes(ys, le);
    SortSorts(xs, le);
    SortSorts(ys, le);
    SameDecides(xs, Sort(xs, le), le);
    SortedUnique(Sort(xs, le), Sort(ys, le), le);
  }

  // --- Text ------------------------------------------------------------------------

  /** Python compares strings code point by code point; a proper prefix comes first. */
  predicate TextLess(a: string, b: string) {
    if b == "" then false
    else if a == "" then true
    else if a[0] != b[0] then a[0] < b[0]
    else TextLess(a[1..], b[1..])
  }

  predicate TextLessEq(a: string, b: string) {
    !TextLess(b, a)
  }

  lemma {:induction false} TextTrichotomy(a: string, b: string)
    ensures !(TextLess(a, b) && TextLess(b, a))
    ensures !TextLess(a, b) && !TextLess(b, a) ==> a == b
    ensures a == b ==> !TextLess(a, b)
  {
    if a != "" && b != "" {
      TextTrichotomy(a[1..], b[1..]);
      assert a == [a[0]] + a[1..] && b == [b[0]] + b[1..];
    }
  }

  lemma {:induction false} TextTransitive(a: string, b: string, c: string)
    requires TextLess(a, b) && TextLess(b, c)
    ensures TextLess(a, c)
  {
    if a != "" && a[0] == b[0] == c[0] {
      TextTransitive(a[1..], b[1..], c[1..]);
    }
  }

  lemma TextOrder()
    ensures Ranks(TextLessEq)
    ensures forall xs: seq<string> :: Decides(xs, TextLessEq)
  {
    forall x: string, y: string
      ensures TextLessEq(x, y) || TextLessEq(y, x)
      ensures TextLessEq(x, y) && TextLessEq(y, x) ==> x == y
    {
      TextTrichotomy(x, y);
    }
    forall x: string, y: string, z: string | TextLessEq(x, y) && TextLessEq(y, z) ensures TextLessEq(x, z) {
      if TextLess(z, x) {
        TextTrichotomy(x, y);
        TextTrichotomy(y, z);
        if x != y && y != z {
          TextTransitive(x, y, z);
          TextTrichotomy(x, z);
        }
      }
    }
  }
}
