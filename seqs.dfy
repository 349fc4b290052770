/** Order-preserving filtering and stable sorting of sequences: the shapes of
    a pandas boolean mask, of JavaScript's `Array.prototype.filter`, and of a
    sort by one numeric column. */
module Seqs {

  /** `idx` lists, in increasing order, the positions of `b` that make up `a`. */
  ghost predicate Embeds<T>(idx: seq<nat>, a: seq<T>, b: seq<T>) {
    |idx| == |a| &&
    (forall i {:trigger idx[i]} :: 0 <= i < |idx| ==> idx[i] < |b| && a[i] == b[idx[i]]) &&
    (forall i, j :: 0 <= i < j < |idx| ==> idx[i] < idx[j])
  }

  /** `a` is `b` with some elements left out, the rest in their order. */
  ghost predicate IsSubsequence<T>(a: seq<T>, b: seq<T>) {
    exists idx: seq<nat> :: Embeds(idx, a, b)
  }

  lemma SubsequenceOfSelf<T>(s: seq<T>)
    ensures IsSubsequence(s, s)
  {
    var idx: seq<nat> := seq(|s|, i requires 0 <= i < |s| => i);
    assert Embeds(idx, s, s);
  }

  /** Keep the elements that satisfy `p`, in their order. */
  function Filter<T(!new)>(s: seq<T>, p: T -> bool): (r: seq<T>)
    ensures |r| <= |s|
    ensures forall i :: 0 <= i < |r| ==> p(r[i])
    ensures forall x :: x in r <==> x in s && p(x)
  {
    if s == [] then []
    else
      assert s == [s[0]] + s[1..];
      if p(s[0]) then [s[0]] + Filter(s[1..], p)
      else Filter(s[1..], p)
  }

  /** A filter keeps no more copies of an element than the input has. */
  lemma {:induction false} FilterMultiset<T(!new)>(s: seq<T>, p: T -> bool)
    ensures multiset(Filter(s, p)) <= multiset(s)
  {
    if s != [] {
      assert s == [s[0]] + s[1..];
      FilterMultiset(s[1..], p);
    }
  }

  /** A filter keeps every copy of an element that passes, and no copy of
      one that fails. */
  lemma {:induction false} FilterCount<T(!new)>(s: seq<T>, p: T -> bool)
    ensures forall x :: multiset(Filter(s, p))[x] == if p(x) then multiset(s)[x] else 0
  {
    if s != [] {
      FilterCount(s[1..], p);
      assert s == [s[0]] + s[1..];
      assert multiset(s) == multiset{s[0]} + multiset(s[1..]);
      if p(s[0]) {
        assert multiset(Filter(s, p)) == multiset{s[0]} + multiset(Filter(s[1..], p));
      }
    }
  }

  /** The positions of the elements a filter keeps. */
  lemma {:induction false} FilterPositions<T(!new)>(s: seq<T>, p: T -> bool) returns (idx: seq<nat>)
    ensures Embeds(idx, Filter(s, p), s)
  {
    if s == [] {
      idx := [];
    } else {
      var rest := FilterPositions(s[1..], p);
      var r := Filter(s[1..], p);
      var shifted: seq<nat> := seq(|rest|, i requires 0 <= i < |rest| => rest[i] + 1);
      forall i | 0 <= i < |shifted|
        ensures shifted[i] < |s| && r[i] == s[shifted[i]]
      {
        assert rest[i] < |s[1..]| && r[i] == s[1..][rest[i]];
      }
      forall i, j | 0 <= i < j < |shifted|
        ensures shifted[i] < shifted[j]
      {
        assert rest[i] < rest[j];
      }
      if p(s[0]) {
        idx := [0] + shifted;
        assert Filter(s, p) == [s[0]] + r;
        forall i | 0 < i < |idx|
          ensures idx[i] == shifted[i - 1]
        {
        }
      } else {
        idx := shifted;
        assert Filter(s, p) == r;
      }
    }
  }

  lemma FilterIsSubsequence<T(!new)>(s: seq<T>, p: T -> bool)
    ensures IsSubsequence(Filter(s, p), s)
  {
    var idx := FilterPositions(s, p);
  }

  /** Filtering a sequence extended by one element. */
  lemma {:induction false} FilterAppend<T(!new)>(s: seq<T>, x: T, p: T -> bool)
    ensures Filter(s + [x], p) == Filter(s, p) + (if p(x) then [x] else [])
  {
    if s == [] {
      assert [x][1..] == [];
    } else {
      assert (s + [x])[1..] == s[1..] + [x];
      FilterAppend(s[1..], x, p);
    }
  }

  /** A filter that every element passes leaves the sequence unchanged. */
  lemma {:induction false} FilterKeepsAll<T(!new)>(s: seq<T>, p: T -> bool)
    requires forall i :: 0 <= i < |s| ==> p(s[i])
    ensures Filter(s, p) == s
  {
    if s != [] {
      FilterKeepsAll(s[1..], p);
    }
  }

  /** Filters that agree on the elements of `s` give the same result. */
  lemma {:induction false} FilterCongruent<T(!new)>(s: seq<T>, p: T -> bool, q: T -> bool)
    requires forall i :: 0 <= i < |s| ==> p(s[i]) == q(s[i])
    ensures Filter(s, p) == Filter(s, q)
  {
    if s != [] {
      FilterCongruent(s[1..], p, q);
    }
  }

  /** Two masks applied one after the other are one mask that tests both. */
  lemma {:induction false} FilterFilter<T(!new)>(s: seq<T>, p: T -> bool, q: T -> bool, both: T -> bool)
    requires forall i :: 0 <= i < |s| ==> both(s[i]) == (p(s[i]) && q(s[i]))
    ensures Filter(Filter(s, p), q) == Filter(s, both)
  {
    if s != [] {
      FilterFilter(s[1..], p, q, both);
    }
  }

  // ---------------------------------------------------------------------
  // Stable insertion sort on a real-valued key
  // ---------------------------------------------------------------------

  predicate SortedByKey<T>(s: seq<T>, key: T -> real) {
    forall i, j :: 0 <= i < j < |s| ==> key(s[i]) <= key(s[j])
  }

  function InsertByKey<T>(x: T, s: seq<T>, key: T -> real): (r: seq<T>)
    requires SortedByKey(s, key)
    ensures SortedByKey(r, key)
    ensures forall i :: 0 <= i < |r| ==> r[i] == x || r[i] in s
    ensures multiset(r) == multiset(s) + multiset{x}
  {
    if s == [] then [x]
    else if key(x) <= key(s[0]) then
      assert s == [s[0]] + s[1..];
      [x] + s
    else
      var rest := InsertByKey(x, s[1..], key);
      InsertedAfterHead(x, s, rest, key);
      assert s == [s[0]] + s[1..];
      [s[0]] + rest
  }

  lemma InsertedAfterHead<T>(x: T, s: seq<T>, rest: seq<T>, key: T -> real)
    requires s != [] && SortedByKey(s, key) && key(s[0]) < key(x)
    requires SortedByKey(rest, key)
    requires forall i :: 0 <= i < |rest| ==> rest[i] == x || rest[i] in s[1..]
    ensures SortedByKey([s[0]] + rest, key)
  {
    forall j | 0 <= j < |rest| ensures key(s[0]) <= key(rest[j]) {
      if rest[j] != x {
        var k :| 0 <= k < |s[1..]| && s[1..][k] == rest[j];
        assert s[k + 1] == rest[j];
      }
    }
  }

  /** Insertion sort: each element goes in front of the already sorted
      elements with an equal key, so equal keys keep their input order. */
  function SortByKey<T>(s: seq<T>, key: T -> real): (r: seq<T>)
    ensures SortedByKey(r, key)
    ensures multiset(r) == multiset(s)
  {
    if s == [] then []
    else
      assert s == [s[0]] + s[1..];
      InsertByKey(s[0], SortByKey(s[1..], key), key)
  }
}
