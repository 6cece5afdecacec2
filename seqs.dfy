/** The two array operations the application builds its views from:
    `Array.prototype.filter` and the stable `Array.prototype.sort` with a
    numeric key, here sorting by descending key. */
module Seqs {

  /** `s.filter(p)`: the elements satisfying `p`, in their original order. */
  function Filter<T(!new)>(s: seq<T>, p: T -> bool): (r: seq<T>)
    ensures |r| <= |s|
    ensures forall x :: x in r <==> x in s && p(x)
    ensures multiset(r) <= multiset(s)
  {
    if s == [] then []
    else
      assert s == [s[0]] + s[1..];
      if p(s[0]) then [s[0]] + Filter(s[1..], p) else Filter(s[1..], p)
  }

  /** Filtering a concatenation filters each part in turn, so the kept
      elements stay in the order they had. */
  lemma {:induction false} FilterConcat<T(!new)>(a: seq<T>, b: seq<T>, p: T -> bool)
    ensures Filter(a + b, p) == Filter(a, p) + Filter(b, p)
  {
    if a != [] {
      assert (a + b)[0] == a[0] && (a + b)[1..] == a[1..] + b;
      FilterConcat(a[1..], b, p);
    } else {
      assert a + b == b;
    }
  }

  /** One element put in front of a split input goes to either side. */
  lemma SplitCons<T>(x: T, a: seq<T>, b: seq<T>, c: seq<T>)
    requires multiset(a) + multiset(b) == multiset(c)
    ensures multiset([x] + a) + multiset(b) == multiset([x] + c)
    ensures multiset(a) + multiset([x] + b) == multiset([x] + c)
  {
    assert multiset([x] + a) == multiset{x} + multiset(a);
    assert multiset([x] + b) == multiset{x} + multiset(b);
    assert multiset([x] + c) == multiset{x} + multiset(c);
  }

  /** Filtering by a predicate and by its negation: the kept and the dropped
      elements together are the whole input, as a multiset. */
  lemma {:induction false} FilterPartition<T(!new)>(s: seq<T>, p: T -> bool, q: T -> bool)
    requires forall x :: x in s ==> q(x) == !p(x)
    ensures multiset(Filter(s, p)) + multiset(Filter(s, q)) == multiset(s)
  {
    if s != [] {
      var x, rest := s[0], s[1..];
      assert s == [x] + rest;
      FilterPartition(rest, p, q);
      SplitCons(x, Filter(rest, p), Filter(rest, q), rest);
    }
  }

  /** Filtering keeps the whole input exactly when every element passes. */
  lemma {:induction false} FilterKeepsAll<T(!new)>(s: seq<T>, p: T -> bool)
    ensures Filter(s, p) == s <==> forall x :: x in s ==> p(x)
  {
    if s != [] {
      FilterKeepsAll(s[1..], p);
      if !p(s[0]) {
        assert |Filter(s, p)| < |s| by {
          assert Filter(s, p) == Filter(s[1..], p);
        }
      }
    }
  }

  /** Two filters whose predicates never both hold keep at most the whole
      input between them, and exactly the whole input when every element
      passes one of them. */
  lemma {:induction false} FilterDisjointCounts<T(!new)>(s: seq<T>, p: T -> bool, q: T -> bool)
    requires forall x :: x in s ==> !(p(x) && q(x))
    ensures |Filter(s, p)| + |Filter(s, q)| <= |s|
    ensures (forall x :: x in s ==> p(x) || q(x)) ==> |Filter(s, p)| + |Filter(s, q)| == |s|
  {
    if s != [] {
      FilterDisjointCounts(s[1..], p, q);
    }
  }

  /** `key` does not increase between any two positions of `s`. */
  ghost predicate SortedDesc<T(!new)>(s: seq<T>, key: T -> int)
  {
    forall i, j :: 0 <= i < j < |s| ==> key(s[i]) >= key(s[j])
  }

  /** An element whose key is at least every key of a sorted list can go in
      front of it. */
  lemma PrependSorted<T(!new)>(y: T, t: seq<T>, key: T -> int)
    requires SortedDesc(t, key)
    requires forall z :: z in t ==> key(y) >= key(z)
    ensures SortedDesc([y] + t, key)
  {
    var r := [y] + t;
    forall i, j | 0 <= i < j < |r| ensures key(r[i]) >= key(r[j]) {
      if i == 0 {
        assert r[j] == t[j - 1] && t[j - 1] in t;
      } else {
        assert r[i] == t[i - 1] && r[j] == t[j - 1];
      }
    }
  }

  /** The first element of a sorted list has the largest key. */
  lemma HeadIsLargest<T(!new)>(s: seq<T>, key: T -> int)
    requires s != [] && SortedDesc(s, key)
    ensures forall z :: z in s ==> key(s[0]) >= key(z)
  {
    forall z | z in s ensures key(s[0]) >= key(z) {
      var j :| 0 <= j < |s| && s[j] == z;
    }
  }

  /** A bound on the keys of `t` and on `key(x)` bounds every key of a
      list holding the elements of `t` and `x`. */
  lemma BoundOfMembers<T(!new)>(r: seq<T>, t: seq<T>, x: T, key: T -> int, b: int)
    requires multiset(r) == multiset(t) + multiset{x}
    requires key(x) <= b
    requires forall z :: z in t ==> key(z) <= b
    ensures forall z :: z in r ==> key(z) <= b
  {
    forall z | z in r ensures key(z) <= b {
      assert z in multiset(r);
      if z != x {
        assert z in multiset(t);
      }
    }
  }

  /** Puts `x` before the first element whose key is not larger, so
      elements with equal keys keep their relative order. */
  function Insert<T(!new)>(x: T, s: seq<T>, key: T -> int): (r: seq<T>)
    requires SortedDesc(s, key)
    ensures SortedDesc(r, key)
    ensures multiset(r) == multiset(s) + multiset{x}
  {
    if s == [] then [x]
    else
      HeadIsLargest(s, key);
      assert s == [s[0]] + s[1..];
      if key(x) >= key(s[0]) then
        PrependSorted(x, s, key);
        [x] + s
      else
        var rest := Insert(x, s[1..], key);
        BoundOfMembers(rest, s[1..], x, key, key(s[0]));
        PrependSorted(s[0], rest, key);
        [s[0]] + rest
  }

  /** `s.sort((a, b) => key(b) - key(a))`: a stable sort by descending key. */
  function SortDesc<T(!new)>(s: seq<T>, key: T -> int): (r: seq<T>)
    ensures SortedDesc(r, key)
    ensures multiset(r) == multiset(s)
  {
    if s == [] then []
    else
      assert s == [s[0]] + s[1..];
      Insert(s[0], SortDesc(s[1..], key), key)
  }

  /** Sorted by pairs means sorted by neighbours. */
  lemma SortedDescAdjacent<T(!new)>(s: seq<T>, key: T -> int)
    requires SortedDesc(s, key)
    ensures forall i :: 0 <= i < |s| - 1 ==> key(s[i]) >= key(s[i + 1])
  {
  }
}
