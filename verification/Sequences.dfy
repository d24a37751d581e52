/** Facts about sequences of indices that the accounting arguments rest on. */
module Sequences {

  ghost predicate Distinct<T>(s: seq<T>) {
    forall j, k :: 0 <= j < k < |s| ==> s[j] != s[k]
  }

  ghost predicate Increasing(s: seq<int>) {
    forall j, k :: 0 <= j < k < |s| ==> s[j] < s[k]
  }

  ghost predicate Disjoint<T>(s: seq<T>, t: seq<T>) {
    forall x :: x in s ==> x !in t
  }

  lemma DistinctAppend<T>(s: seq<T>, t: seq<T>)
    requires Distinct(s) && Distinct(t) && Disjoint(s, t)
    ensures Distinct(s + t)
  {
    forall j, k | 0 <= j < k < |s + t| ensures (s + t)[j] != (s + t)[k] {
      if j < |s| <= k { assert s[j] in s && t[k - |s|] in t; }
    }
  }

  /** A strictly increasing sequence is determined by its set of elements. */
  lemma {:induction false} IncreasingUnique(s: seq<int>, t: seq<int>)
    requires Increasing(s) && Increasing(t)
    requires forall x :: x in s <==> x in t
    ensures s == t
    decreases |s|
  {
    if s == [] {
      assert forall k :: 0 <= k < |t| ==> t[k] in t;
    } else {
      assert s[|s| - 1] in s;
      assert s[|s| - 1] in t;
      assert t[|t| - 1] in t;
      assert t[|t| - 1] in s;
      var s', t' := s[..|s| - 1], t[..|t| - 1];
      forall x | x in s' ensures x in t' {
        assert x in t;
      }
      forall x | x in t' ensures x in s' {
        assert x in s;
      }
      IncreasingUnique(s', t');
      assert s == s' + [s[|s| - 1]] && t == t' + [t[|t| - 1]];
    }
  }

  /** The elements of a sequence as a set; a distinct sequence has as many of them as positions. */
  ghost function Elements<T>(s: seq<T>): set<T> {
    set x | x in s
  }

  lemma {:induction false} DistinctCardinality<T>(s: seq<T>)
    requires Distinct(s)
    ensures |Elements(s)| == |s|
  {
    if s != [] {
      var front, last := s[..|s| - 1], s[|s| - 1];
      DistinctCardinality(front);
      assert Elements(s) == Elements(front) + {last};
      assert last !in front;
    }
  }

  ghost function Range(lo: int, hi: int): (r: set<int>)
    requires lo <= hi
    ensures forall x :: x in r <==> lo <= x < hi
    ensures |r| == hi - lo
    decreases hi - lo
  {
    if lo == hi then {} else Range(lo, hi - 1) + {hi - 1}
  }

  lemma {:induction false} SubsetCardinality<T>(s: set<T>, t: set<T>)
    requires s <= t
    ensures |s| <= |t|
    ensures |s| == |t| ==> s == t
  {
    assert t == s + (t - s);
    if |s| == |t| {
      assert |t - s| == 0;
    }
  }

  /** Pigeonhole: distinct indices below a bound are no more than the bound allows. */
  lemma Pigeonhole(s: seq<int>, lo: int, hi: int)
    requires Distinct(s) && lo <= hi
    requires forall x :: x in s ==> lo <= x < hi
    ensures |s| <= hi - lo
  {
    DistinctCardinality(s);
    SubsetCardinality(Elements(s), Range(lo, hi));
  }

  /** Two disjoint duplicate-free lists that cover a range have together as many entries as the range. */
  lemma Partition(s: seq<int>, t: seq<int>, hi: nat)
    requires Distinct(s) && Distinct(t)
    requires forall x :: x in s ==> x !in t
    requires forall x :: x in s || x in t <==> 0 <= x < hi
    ensures |s| + |t| == hi
  {
    DistinctCardinality(s);
    DistinctCardinality(t);
    assert Elements(s) + Elements(t) == Range(0, hi);
    assert Elements(s) !! Elements(t);
  }

  lemma SliceSplit<T>(s: seq<T>, n: nat, m: nat)
    requires n + m <= |s|
    ensures s[..n + m] == s[..n] + s[n..][..m]
  {
  }

  lemma AppendAssociative<T>(s: seq<T>, t: seq<T>, u: seq<T>)
    ensures s + (t + u) == (s + t) + u
  {
  }
}
