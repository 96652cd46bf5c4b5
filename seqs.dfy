/** Sequence facts the simulation model relies on: distinctness, sums of
    drawn durations, and the pigeonhole bound on distinct unit ids. */
module Seqs {

  /** No value occurs twice in `s`. */
  ghost predicate Distinct<T>(s: seq<T>) {
    s == [] || (s[0] !in s[1..] && Distinct(s[1..]))
  }

  /** A value appended to a distinct sequence keeps it distinct exactly
      when it does not already occur. */
  lemma {:induction false} DistinctAppend<T>(s: seq<T>, x: T)
    ensures Distinct(s + [x]) <==> Distinct(s) && x !in s
  {
    if s != [] {
      assert (s + [x])[1..] == s[1..] + [x];
      DistinctAppend(s[1..], x);
    }
  }

  /** Distinctness, stated position by position. */
  lemma {:induction false} DistinctIndices<T>(s: seq<T>, i: nat, j: nat)
    requires Distinct(s) && i < j < |s|
    ensures s[i] != s[j]
  {
    if i == 0 {
      assert s[j] == s[1..][j - 1];
    } else {
      DistinctIndices(s[1..], i - 1, j - 1);
    }
  }

  /** The sum of a sequence of durations, accumulated from the front as a
      Python `+=` accumulator does. */
  function Sum(s: seq<real>): real {
    if s == [] then 0.0 else Sum(s[..|s| - 1]) + s[|s| - 1]
  }

  /** Extending a prefix by one element adds that element to its sum. */
  lemma SumPrefixStep(s: seq<real>, k: nat)
    requires k < |s|
    ensures Sum(s[..k + 1]) == Sum(s[..k]) + s[k]
  {
    assert s[..k + 1][..k] == s[..k];
  }

  /** A sum of non-negative durations is non-negative. */
  lemma {:induction false} SumNonNegative(s: seq<real>)
    requires forall i :: 0 <= i < |s| ==> 0.0 <= s[i]
    ensures 0.0 <= Sum(s)
  {
    if s != [] {
      SumNonNegative(s[..|s| - 1]);
    }
  }

  /** `s` with every occurrence of `x` taken out. */
  function Without(s: seq<nat>, x: nat): (r: seq<nat>)
    ensures forall y :: y in r <==> y in s && y != x
    ensures x !in s ==> r == s
    ensures x in s && Distinct(s) ==> |r| == |s| - 1
    ensures Distinct(s) ==> Distinct(r)
  {
    if s == [] then []
    else if s[0] == x then
      assert Distinct(s) ==> x !in s[1..];
      Without(s[1..], x)
    else
      var r := Without(s[1..], x);
      assert Distinct(s) ==> s[0] !in r;
      [s[0]] + r
  }

  /** Pigeonhole: a sequence of distinct ids all below `n` has at most `n`
      elements, and exactly `n` when every id below `n` occurs in it. */
  lemma {:induction false} DistinctBelow(s: seq<nat>, n: nat)
    requires Distinct(s)
    requires forall i :: 0 <= i < |s| ==> s[i] < n
    ensures |s| <= n
    ensures (forall o: nat :: o < n ==> o in s) ==> |s| == n
    decreases n
  {
    if n == 0 {
      if s != [] {
        assert false;
      }
    } else {
      var r := Without(s, n - 1);
      forall i | 0 <= i < |r|
        ensures r[i] < n - 1
      {
        assert r[i] in r;
      }
      DistinctBelow(r, n - 1);
      if (forall o: nat :: o < n ==> o in s) {
        assert forall o: nat :: o < n - 1 ==> o in r;
        assert n - 1 in s;
      }
    }
  }

  /** A sequence of distinct ids below `n` that misses one of them has
      fewer than `n` elements. */
  lemma DistinctBelowMissing(s: seq<nat>, n: nat, x: nat)
    requires Distinct(s)
    requires forall i :: 0 <= i < |s| ==> s[i] < n
    requires x < n && x !in s
    ensures |s| < n
  {
    var t := s + [x];
    assert forall i :: 0 <= i < |s| ==> t[i] == s[i];
    DistinctAppend(s, x);
    DistinctBelow(t, n);
  }
}
