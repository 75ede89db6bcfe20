/** Sequence operations the app performs with `Array.prototype` methods. */
module Seqs {

  /** `s.filter(f)`: the elements satisfying `f`, in their original order. */
  function Filter<T(!new)>(f: T -> bool, s: seq<T>): (r: seq<T>)
    ensures |r| <= |s|
    ensures forall x :: x in r <==> x in s && f(x)
    ensures forall i :: 0 <= i < |r| ==> f(r[i])
  {
    if |s| == 0 then []
    else if f(s[0]) then [s[0]] + Filter(f, s[1..])
    else Filter(f, s[1..])
  }

  /** Filtering distributes over concatenation, so the relative order of kept elements is preserved. */
  lemma {:induction false} FilterAppend<T(!new)>(f: T -> bool, s: seq<T>, t: seq<T>)
    ensures Filter(f, s + t) == Filter(f, s) + Filter(f, t)
  {
    if |s| == 0 {
      assert s + t == t;
    } else {
      assert (s + t)[1..] == s[1..] + t;
      FilterAppend(f, s[1..], t);
    }
  }

  /** `xs.reduce((a, b) => a + b, 0)`. */
  function Sum(xs: seq<real>): real
  {
    if |xs| == 0 then 0.0 else xs[0] + Sum(xs[1..])
  }

  /** A sum of values all at most hi is at most |xs|*hi. */
  lemma {:induction false} SumAtMost(xs: seq<real>, hi: real)
    requires forall i :: 0 <= i < |xs| ==> xs[i] <= hi
    ensures Sum(xs) <= |xs| as real * hi
  {
    if |xs| > 0 {
      SumAtMost(xs[1..], hi);
    }
  }

  /** A sum of values all at least lo is at least |xs|*lo. */
  lemma {:induction false} SumAtLeast(xs: seq<real>, lo: real)
    requires forall i :: 0 <= i < |xs| ==> lo <= xs[i]
    ensures |xs| as real * lo <= Sum(xs)
  {
    if |xs| > 0 {
      SumAtLeast(xs[1..], lo);
    }
  }

  /** `Math.max(...xs)` for a non-empty sequence of numbers. */
  function Max(xs: seq<real>): (r: real)
    requires |xs| > 0
    ensures r in xs
    ensures forall i :: 0 <= i < |xs| ==> xs[i] <= r
  {
    if |xs| == 1 then xs[0]
    else
      var m := Max(xs[1..]);
      if xs[0] >= m then xs[0] else m
  }

  /** `Math.min(...xs)` for a non-empty sequence of numbers. */
  function Min(xs: seq<real>): (r: real)
    requires |xs| > 0
    ensures r in xs
    ensures forall i :: 0 <= i < |xs| ==> r <= xs[i]
  {
    if |xs| == 1 then xs[0]
    else
      var m := Min(xs[1..]);
      if xs[0] <= m then xs[0] else m
  }

  /** The arithmetic mean of a non-empty sequence. */
  function Mean(xs: seq<real>): real
    requires |xs| > 0
  {
    Sum(xs) / (|xs| as real)
  }

  /** The mean is at most the largest value. */
  lemma MeanAtMostMax(xs: seq<real>)
    requires |xs| > 0
    ensures Mean(xs) <= Max(xs)
  {
    var hi := Max(xs);
    assert forall i :: 0 <= i < |xs| ==> xs[i] <= hi;
    SumAtMost(xs, hi);
    assert Sum(xs) <= |xs| as real * hi;
    MeanAtMost(xs, hi);
  }

  /** The mean is at least the smallest value. */
  lemma MeanAtLeastMin(xs: seq<real>)
    requires |xs| > 0
    ensures Min(xs) <= Mean(xs)
  {
    var lo := Min(xs);
    assert forall i :: 0 <= i < |xs| ==> lo <= xs[i];
    SumAtLeast(xs, lo);
    assert |xs| as real * lo <= Sum(xs);
    MeanAtLeast(xs, lo);
  }

  lemma MeanAtMost(xs: seq<real>, hi: real)
    requires |xs| > 0
    requires Sum(xs) <= |xs| as real * hi
    ensures Mean(xs) <= hi
  {
    var n, s := |xs| as real, Sum(xs);
    assert Mean(xs) == s / n;
    DivideAtMost(s, n, hi);
  }

  lemma MeanAtLeast(xs: seq<real>, lo: real)
    requires |xs| > 0
    requires |xs| as real * lo <= Sum(xs)
    ensures lo <= Mean(xs)
  {
    var n, s := |xs| as real, Sum(xs);
    assert Mean(xs) == s / n;
    DivideAtLeast(s, n, lo);
  }

  lemma DivideAtMost(s: real, n: real, hi: real)
    requires n > 0.0 && s <= n * hi
    ensures s / n <= hi
  {
  }

  lemma DivideAtLeast(s: real, n: real, lo: real)
    requires n > 0.0 && n * lo <= s
    ensures lo <= s / n
  {
  }
}
