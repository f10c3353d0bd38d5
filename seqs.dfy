/** Order-preserving filtering of sequences, the shape of LINQ's `Where`. */
module Seqs {

  /** The elements of `s` that satisfy `p`, in their original order. */
  function Filter<T(!new)>(s: seq<T>, p: T -> bool): (r: seq<T>)
    ensures |r| <= |s|
    ensures forall x :: x in r <==> x in s && p(x)
  {
    if |s| == 0 then []
    else Filter(s[..|s| - 1], p) + (if p(s[|s| - 1]) then [s[|s| - 1]] else [])
  }

  /** `idx` lists increasing positions of `s`. */
  predicate IncreasingIndices<T>(idx: seq<nat>, s: seq<T>) {
    (forall k :: 0 <= k < |idx| ==> idx[k] < |s|) &&
    (forall k, l :: 0 <= k < l < |idx| ==> idx[k] < idx[l])
  }

  /**
   * `Filter` keeps exactly the positions whose element satisfies `p`, in
   * increasing order: it is an order-preserving subsequence of `s`.
   */
  lemma {:induction false} FilterIndices<T(!new)>(s: seq<T>, p: T -> bool) returns (idx: seq<nat>)
    ensures |idx| == |Filter(s, p)|
    ensures IncreasingIndices(idx, s)
    ensures forall k :: 0 <= k < |idx| ==> s[idx[k]] == Filter(s, p)[k]
    ensures forall j :: 0 <= j < |s| ==> (j in idx <==> p(s[j]))
  {
    if |s| == 0 {
      idx := [];
    } else {
      var n := |s| - 1;
      var init := s[..n];
      var prev := FilterIndices(init, p);
      var tail := if p(s[n]) then [n] else [];
      idx := prev + tail;
      assert Filter(s, p) == Filter(init, p) + (if p(s[n]) then [s[n]] else []);
      forall k | 0 <= k < |idx|
        ensures idx[k] < |s| && s[idx[k]] == Filter(s, p)[k]
      {
        if k < |prev| {
          assert idx[k] == prev[k] && s[prev[k]] == init[prev[k]];
        }
      }
      forall j | 0 <= j < |s|
        ensures j in idx <==> p(s[j])
      {
        if j < n {
          assert init[j] == s[j];
          assert j !in tail;
        } else {
          assert j !in prev;
        }
      }
    }
  }

  /** Appending one element appends it to the result exactly when it passes. */
  lemma FilterSnoc<T(!new)>(s: seq<T>, x: T, p: T -> bool)
    ensures Filter(s + [x], p) == Filter(s, p) + (if p(x) then [x] else [])
  {
    assert (s + [x])[..|s|] == s;
  }

  /** Filtering distributes over concatenation. */
  lemma {:induction false} FilterConcat<T(!new)>(a: seq<T>, b: seq<T>, p: T -> bool)
    ensures Filter(a + b, p) == Filter(a, p) + Filter(b, p)
  {
    if |b| == 0 {
      assert a + b == a;
    } else {
      var n := |b| - 1;
      var init, last := b[..n], b[n];
      var t := if p(last) then [last] else [];
      assert b == init + [last];
      assert a + b == (a + init) + [last];
      FilterConcat(a, init, p);
      FilterSnoc(a + init, last, p);
      FilterSnoc(init, last, p);
      var fa, fi := Filter(a, p), Filter(init, p);
      assert Filter(a + b, p) == (fa + fi) + t;
      assert Filter(b, p) == fi + t;
      assert (fa + fi) + t == fa + (fi + t);
    }
  }
}
