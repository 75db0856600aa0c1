/**
 Python's `sorted(items, key=...)` for the one kind of key the reports use: a time, then a kind,
 then an index, compared lexicographically. The sort is stable.
 */
module Sorting {
  datatype Rank = Rank(time: real, kind: int, index: int)

  predicate Before(a: Rank, b: Rank) {
    || a.time < b.time
    || (a.time == b.time && a.kind < b.kind)
    || (a.time == b.time && a.kind == b.kind && a.index < b.index)
  }

  ghost predicate StrictlySorted<T>(s: seq<T>, rank: T -> Rank) {
    forall i, j :: 0 <= i < j < |s| ==> Before(rank(s[i]), rank(s[j]))
  }

  /** No two positions carry the same rank. */
  ghost predicate DistinctRanks<T>(s: seq<T>, rank: T -> Rank) {
    forall i, j :: 0 <= i < j < |s| ==> rank(s[i]) != rank(s[j])
  }

  /** Put `x` before the first element that does not precede it. */
  function Insert<T>(x: T, s: seq<T>, rank: T -> Rank): seq<T> {
    if s == [] || !Before(rank(s[0]), rank(x)) then [x] + s else [s[0]] + Insert(x, s[1..], rank)
  }

  function SortByRank<T>(s: seq<T>, rank: T -> Rank): seq<T> {
    if s == [] then [] else Insert(s[0], SortByRank(s[1..], rank), rank)
  }

  lemma {:induction false} InsertKeepsElements<T>(x: T, s: seq<T>, rank: T -> Rank)
    ensures multiset(Insert(x, s, rank)) == multiset(s) + multiset{x}
  {
    if s != [] && Before(rank(s[0]), rank(x)) {
      InsertKeepsElements(x, s[1..], rank);
      assert s == [s[0]] + s[1..];
    }
  }

  lemma {:induction false} InsertKeepsOrder<T>(x: T, s: seq<T>, rank: T -> Rank)
    requires StrictlySorted(s, rank)
    requires forall y :: y in s ==> rank(y) != rank(x)
    ensures StrictlySorted(Insert(x, s, rank), rank)
  {
    if s != [] && Before(rank(s[0]), rank(x)) {
      InsertKeepsOrder(x, s[1..], rank);
      InsertKeepsElements(x, s[1..], rank);
      var rest := Insert(x, s[1..], rank);
      forall y | y in rest ensures Before(rank(s[0]), rank(y)) {
        assert y in multiset(rest);
      }
    }
  }

  /** Sorting loses and invents nothing. */
  lemma {:induction false} SortKeepsElements<T>(s: seq<T>, rank: T -> Rank)
    ensures multiset(SortByRank(s, rank)) == multiset(s)
    ensures |SortByRank(s, rank)| == |s|
  {
    if s != [] {
      SortKeepsElements(s[1..], rank);
      InsertKeepsElements(s[0], SortByRank(s[1..], rank), rank);
      assert s == [s[0]] + s[1..];
    }
    assert |multiset(SortByRank(s, rank))| == |multiset(s)|;
  }

  /** Elements of distinct rank come out in strictly increasing order. */
  lemma {:induction false} SortIsStrict<T>(s: seq<T>, rank: T -> Rank)
    requires DistinctRanks(s, rank)
    ensures StrictlySorted(SortByRank(s, rank), rank)
  {
    if s != [] {
      var tail := SortByRank(s[1..], rank);
      SortIsStrict(s[1..], rank);
      SortKeepsElements(s[1..], rank);
      forall y | y in tail ensures rank(y) != rank(s[0]) {
        assert y in multiset(tail);
        var j :| 0 <= j < |s[1..]| && s[1..][j] == y;
        assert s[j + 1] == y;
      }
      InsertKeepsOrder(s[0], tail, rank);
    }
  }

  lemma HeadIsLeast<T>(s: seq<T>, x: T, rank: T -> Rank)
    requires StrictlySorted(s, rank) && x in s
    ensures s[0] == x || Before(rank(s[0]), rank(x))
  {
    var i :| 0 <= i < |s| && s[i] == x;
  }

  lemma TailElements<T>(s: seq<T>)
    requires s != []
    ensures multiset(s[1..]) == multiset(s) - multiset{s[0]}
  {
    assert s == [s[0]] + s[1..];
  }

  /** A strictly sorted sequence is determined by its elements. */
  lemma {:induction false} StrictOrderIsUnique<T>(a: seq<T>, b: seq<T>, rank: T -> Rank)
    requires StrictlySorted(a, rank) && StrictlySorted(b, rank)
    requires multiset(a) == multiset(b)
    ensures a == b
  {
    if a == [] {
      assert |multiset(b)| == |multiset(a)|;
    } else {
      assert a[0] in multiset(b);
      assert b[0] in multiset(a);
      HeadIsLeast(b, a[0], rank);
      HeadIsLeast(a, b[0], rank);
      TailElements(a);
      TailElements(b);
      StrictOrderIsUnique(a[1..], b[1..], rank);
      assert a == [a[0]] + a[1..] && b == [b[0]] + b[1..];
    }
  }
}
