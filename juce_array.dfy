/**
 * The juce::Array<int> operations the engines rely on, as functions on
 * sequences: contains, add-if-absent, remove-first-match, indexOf and the
 * ascending sort (std::sort with the default comparator).
 */
module JuceArray {

  /** No value occurs twice. */
  predicate Distinct(s: seq<int>) {
    forall i, j :: 0 <= i < j < |s| ==> s[i] != s[j]
  }

  /** Ascending order (the order of juce::Array::sort with the default comparator). */
  predicate Sorted(s: seq<int>) {
    forall i, j :: 0 <= i < j < |s| ==> s[i] <= s[j]
  }

  /** addIfNotAlreadyThere: append x unless it is already present. */
  function AddIfAbsent(s: seq<int>, x: int): (r: seq<int>)
    ensures forall y :: y in r <==> y in s || y == x
    ensures Distinct(s) ==> Distinct(r)
    ensures |r| <= |s| + 1
  {
    if x in s then s else s + [x]
  }

  /** removeFirstMatchingValue: drop the first occurrence of x, if any. */
  function RemoveFirst(s: seq<int>, x: int): (r: seq<int>)
    ensures x !in s ==> r == s
    ensures x in s ==> |r| == |s| - 1
    ensures multiset(r) == multiset(s) - multiset{x}
  {
    if s == [] then []
    else
      assert s == [s[0]] + s[1..];
      if s[0] == x then s[1..]
      else [s[0]] + RemoveFirst(s[1..], x)
  }

  /** In a duplicate-free list, removing the first match removes the value altogether. */
  lemma {:induction false} RemoveFirstDistinct(s: seq<int>, x: int)
    requires Distinct(s)
    ensures Distinct(RemoveFirst(s, x))
    ensures forall y :: y in RemoveFirst(s, x) <==> y in s && y != x
  {
    var r := RemoveFirst(s, x);
    forall y ensures multiset(r)[y] == if y == x then 0 else multiset(s)[y] {
      DistinctCount(s, y);
    }
    forall y ensures y in r <==> y in s && y != x {
      assert y in r <==> multiset(r)[y] > 0;
      assert y in s <==> multiset(s)[y] > 0;
    }
    forall y ensures multiset(r)[y] <= 1 {
      DistinctCount(s, y);
    }
    CountAtMostOneDistinct(r);
  }

  /** In a duplicate-free list every value occurs at most once. */
  lemma {:induction false} DistinctCount(s: seq<int>, y: int)
    requires Distinct(s)
    ensures multiset(s)[y] <= 1
  {
    if s != [] {
      assert s == [s[0]] + s[1..];
      assert Distinct(s[1..]);
      DistinctCount(s[1..], y);
      assert s[0] !in s[1..];
    }
  }

  /** Conversely, a list whose every value occurs at most once is duplicate-free. */
  lemma {:induction false} CountAtMostOneDistinct(s: seq<int>)
    requires forall y :: multiset(s)[y] <= 1
    ensures Distinct(s)
  {
    if s != [] {
      var t := s[1..];
      assert s == [s[0]] + t;
      assert multiset(s) == multiset{s[0]} + multiset(t);
      forall y ensures multiset(t)[y] <= 1 {
        assert multiset(t)[y] <= multiset(s)[y];
      }
      CountAtMostOneDistinct(t);
      assert multiset(s)[s[0]] == multiset(t)[s[0]] + 1;
      assert s[0] !in t;
      forall i, j | 0 <= i < j < |s| ensures s[i] != s[j] {
        if i == 0 {
          assert s[j] == t[j - 1];
        } else {
          assert s[i] == t[i - 1] && s[j] == t[j - 1];
        }
      }
    }
  }

  /** indexOf: the position of the first occurrence, or -1. */
  function IndexOf(s: seq<int>, x: int): (r: int)
    ensures -1 <= r < |s|
    ensures r == -1 <==> x !in s
    ensures r >= 0 ==> s[r] == x && x !in s[..r]
  {
    if s == [] then -1
    else if s[0] == x then 0
    else
      var k := IndexOf(s[1..], x);
      assert k >= 0 ==> s[..k + 1] == [s[0]] + s[1..][..k];
      if k == -1 then -1 else k + 1
  }

  /** Insert x into an ascending list, before the first larger element. */
  function Insert(x: int, s: seq<int>): seq<int> {
    if s == [] then [x]
    else if x <= s[0] then [x] + s
    else [s[0]] + Insert(x, s[1..])
  }

  /** An element no larger than every element of an ascending list can be put in front. */
  lemma SortedCons(a: int, t: seq<int>)
    requires Sorted(t)
    requires forall k :: 0 <= k < |t| ==> a <= t[k]
    ensures Sorted([a] + t)
  {
    var u := [a] + t;
    forall i, j | 0 <= i < j < |u| ensures u[i] <= u[j] {
      assert u[j] == t[j - 1];
      if i > 0 { assert u[i] == t[i - 1]; }
    }
  }

  /** The head of an ascending list is a lower bound of its elements. */
  lemma SortedHeadLe(a: seq<int>, x: int)
    requires Sorted(a) && x in a
    ensures a[0] <= x
  {
    var k :| 0 <= k < |a| && a[k] == x;
  }

  /** Inserting an element above a lower bound of the list keeps that bound. */
  lemma {:induction false} InsertLowerBound(x: int, s: seq<int>, lo: int)
    requires lo <= x && forall k :: 0 <= k < |s| ==> lo <= s[k]
    ensures forall k :: 0 <= k < |Insert(x, s)| ==> lo <= Insert(x, s)[k]
  {
    if s != [] && x > s[0] {
      InsertLowerBound(x, s[1..], lo);
      var t := Insert(x, s[1..]);
      forall k | 0 <= k < |Insert(x, s)| ensures lo <= Insert(x, s)[k] {
        if k > 0 { assert Insert(x, s)[k] == t[k - 1]; }
      }
    }
  }

  /** Insertion keeps the list ascending and adds exactly x. */
  lemma {:induction false} InsertSorted(x: int, s: seq<int>)
    requires Sorted(s)
    ensures Sorted(Insert(x, s))
    ensures multiset(Insert(x, s)) == multiset(s) + multiset{x}
    ensures |Insert(x, s)| == |s| + 1
  {
    if s == [] {
    } else if x <= s[0] {
      SortedCons(x, s);
    } else {
      var t := Insert(x, s[1..]);
      assert s == [s[0]] + s[1..];
      assert Sorted(s[1..]);
      InsertSorted(x, s[1..]);
      InsertLowerBound(x, s[1..], s[0]);
      SortedCons(s[0], t);
      assert Insert(x, s) == [s[0]] + t;
    }
  }

  /** The ascending sort of s. */
  function Sort(s: seq<int>): (r: seq<int>)
    ensures Sorted(r)
    ensures multiset(r) == multiset(s)
    ensures |r| == |s|
  {
    if s == [] then []
    else
      assert s == [s[0]] + s[1..];
      InsertSorted(s[0], Sort(s[1..]));
      Insert(s[0], Sort(s[1..]))
  }

  /** A sorted permutation is unique: two ascending lists with the same elements are equal. */
  lemma {:induction false} SortedUnique(a: seq<int>, b: seq<int>)
    requires Sorted(a) && Sorted(b)
    requires multiset(a) == multiset(b)
    ensures a == b
  {
    assert |a| == |multiset(a)| == |multiset(b)| == |b|;
    if a != [] {
      assert a[0] in multiset(b) && b[0] in multiset(a);
      SortedHeadLe(a, b[0]);
      SortedHeadLe(b, a[0]);
      assert a == [a[0]] + a[1..];
      assert b == [b[0]] + b[1..];
      assert multiset(a) == multiset{a[0]} + multiset(a[1..]);
      assert multiset(b) == multiset{b[0]} + multiset(b[1..]);
      assert a[0] == b[0];
      assert multiset(a[1..]) == multiset(a) - multiset{a[0]};
      assert multiset(b[1..]) == multiset(b) - multiset{b[0]};
      assert Sorted(a[1..]) && Sorted(b[1..]);
      SortedUnique(a[1..], b[1..]);
    }
  }

  /** Sorting is characterised by its output being ascending and a permutation. */
  lemma SortIsTheSortedPermutation(s: seq<int>, r: seq<int>)
    requires Sorted(r) && multiset(r) == multiset(s)
    ensures Sort(s) == r
  {
    SortedUnique(Sort(s), r);
  }

  /** Sorting a duplicate-free list keeps it duplicate-free. */
  lemma SortDistinct(s: seq<int>)
    requires Distinct(s)
    ensures Distinct(Sort(s))
  {
    forall y ensures multiset(Sort(s))[y] <= 1 {
      DistinctCount(s, y);
    }
    CountAtMostOneDistinct(Sort(s));
  }

  /** The minimum of a non-empty list. */
  function Min(s: seq<int>): (m: int)
    requires s != []
    ensures m in s
    ensures forall x :: x in s ==> m <= x
  {
    if |s| == 1 then s[0]
    else
      assert s == [s[0]] + s[1..];
      var m := Min(s[1..]);
      if s[0] <= m then s[0] else m
  }

  /** The first element of the ascending sort is the minimum. */
  lemma SortHeadIsMin(s: seq<int>)
    requires s != []
    ensures Sort(s)[0] == Min(s)
  {
    var r := Sort(s);
    assert r[0] in multiset(s);
    assert Min(s) in multiset(r);
    var k :| 0 <= k < |r| && r[k] == Min(s);
  }
}
