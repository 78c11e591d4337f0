/** A stable insertion sort by a "ranks at or before" relation, and the facts the ranked
    queries need: the result is a sorted permutation, and a prefix of a sorted list holds
    the best-ranked elements. */
module Sorting {
  import opened Seqs

  /** `geq(a, b)`: `a` may come before `b`. A sort key read in descending order is one. */
  ghost predicate TotalPreorder<T(!new)>(geq: (T, T) -> bool) {
    (forall a, b :: geq(a, b) || geq(b, a))
    && (forall a, b, c :: geq(a, b) && geq(b, c) ==> geq(a, c))
  }

  predicate SortedBy<T>(s: seq<T>, geq: (T, T) -> bool) {
    forall i, j :: 0 <= i < j < |s| ==> geq(s[i], s[j])
  }

  /** Insert `x` after every element that ranks at or before it. */
  function Insert<T>(x: T, s: seq<T>, geq: (T, T) -> bool): (r: seq<T>)
    ensures |r| == |s| + 1
    ensures multiset(r) == multiset(s) + multiset{x}
  {
    if |s| == 0 then [x]
    else if !geq(s[0], x) then [x] + s
    else
      assert s == [s[0]] + s[1..];
      [s[0]] + Insert(x, s[1..], geq)
  }

  lemma {:induction false} InsertSorted<T(!new)>(x: T, s: seq<T>, geq: (T, T) -> bool)
    requires TotalPreorder(geq) && SortedBy(s, geq)
    ensures SortedBy(Insert(x, s, geq), geq)
  {
    if |s| > 0 {
      if !geq(s[0], x) {
        assert geq(x, s[0]);
      } else {
        var rest := Insert(x, s[1..], geq);
        InsertSorted(x, s[1..], geq);
        forall y | y in rest ensures geq(s[0], y) {
          assert y in multiset(rest);
          if y != x {
            assert y in multiset(s[1..]);
          }
        }
      }
    }
  }

  /** The elements of `s`, ordered by `geq`; equally ranked elements keep their order. */
  function SortBy<T>(s: seq<T>, geq: (T, T) -> bool): (r: seq<T>)
    ensures |r| == |s|
    ensures multiset(r) == multiset(s)
  {
    if |s| == 0 then []
    else
      assert s == s[..|s| - 1] + [s[|s| - 1]];
      Insert(s[|s| - 1], SortBy(s[..|s| - 1], geq), geq)
  }

  lemma {:induction false} SortBySorted<T(!new)>(s: seq<T>, geq: (T, T) -> bool)
    requires TotalPreorder(geq)
    ensures SortedBy(SortBy(s, geq), geq)
  {
    if |s| > 0 {
      SortBySorted(s[..|s| - 1], geq);
      InsertSorted(s[|s| - 1], SortBy(s[..|s| - 1], geq), geq);
    }
  }

  lemma MultisetNoDup<T>(a: seq<T>, b: seq<T>)
    requires multiset(a) == multiset(b) && NoDup(a)
    ensures NoDup(b)
  {
    forall i, j | 0 <= i < j < |b| ensures b[i] != b[j] {
      if b[i] == b[j] {
        var x := b[i];
        assert multiset(b[..j + 1])[x] >= 2 by {
          assert b[..j + 1] == b[..i] + [x] + b[i + 1..j] + [x];
        }
        assert b == b[..j + 1] + b[j + 1..];
        assert multiset(a)[x] >= 2;
        NoDupCount(a, x);
        assert false;
      }
    }
  }

  lemma {:induction false} NoDupCount<T>(s: seq<T>, x: T)
    requires NoDup(s)
    ensures multiset(s)[x] <= 1
  {
    if |s| > 0 {
      assert s == [s[0]] + s[1..];
      NoDupCount(s[1..], x);
      if s[0] == x {
        assert x !in s[1..];
      }
    }
  }

  /** MongoDB's `.limit(n)`: 0 means no limit, a negative limit counts as its magnitude. */
  function MongoLimit<T>(s: seq<T>, n: int): (r: seq<T>)
    ensures r <= s
    ensures n == 0 ==> r == s
    ensures n != 0 ==> |r| == if |s| < Abs(n) then |s| else Abs(n)
  {
    if n == 0 then s else Take(s, Abs(n))
  }

  function Abs(n: int): nat {
    if n < 0 then -n else n
  }

  function Min(a: int, b: int): int {
    if a < b then a else b
  }

  /** A prefix of a sorted list ranks at or before everything left out of it. */
  lemma PrefixIsTop<T(!new)>(s: seq<T>, r: seq<T>, geq: (T, T) -> bool)
    requires SortedBy(s, geq) && r <= s
    ensures SortedBy(r, geq)
    ensures forall j :: |r| <= j < |s| ==> forall y :: y in r ==> geq(y, s[j])
  {
  }

  /** What a `find(filter).sort(key).limit(n)` query returns, for any filter and key:
      only matching elements, in key order, as many as the limit allows, and nothing
      matching that was left out ranks before anything returned. */
  lemma RankedQuery<T(!new)>(s: seq<T>, p: T -> bool, geq: (T, T) -> bool, n: int)
    requires TotalPreorder(geq)
    ensures var r := MongoLimit(SortBy(Filter(s, p), geq), n);
      && (forall x :: x in r ==> x in s && p(x))
      && SortedBy(r, geq)
      && (n == 0 || |Filter(s, p)| <= Abs(n) ==> multiset(r) == multiset(Filter(s, p)))
      && (n == 0 ==> |r| == |Filter(s, p)|)
      && (n != 0 ==> |r| == if |Filter(s, p)| < Abs(n) then |Filter(s, p)| else Abs(n))
      && (forall x :: x in s && p(x) && x !in r ==> forall y :: y in r ==> geq(y, x))
      && (NoDup(s) ==> NoDup(r))
  {
    var f := Filter(s, p);
    var sorted := SortBy(f, geq);
    var r := MongoLimit(sorted, n);
    SortBySorted(f, geq);
    PrefixIsTop(sorted, r, geq);
    forall x | x in r ensures x in s && p(x) {
      assert x in sorted;
      assert x in multiset(sorted);
      assert x in f;
    }
    forall x | x in s && p(x) && x !in r ensures forall y :: y in r ==> geq(y, x) {
      assert x in f;
      assert x in multiset(sorted);
      var j :| 0 <= j < |sorted| && sorted[j] == x;
      assert r == sorted[..|r|];
    }
    if NoDup(s) {
      FilterNoDup(s, p);
      MultisetNoDup(f, sorted);
      assert forall i :: 0 <= i < |r| ==> r[i] == sorted[i];
    }
  }
}
