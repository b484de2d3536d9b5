/** Numeric utilities shared by the engine: sums, the dot product, argmax and
    index permutations. Single-precision floats are modelled as exact reals. */
module Numeric {

  /** s[0] + s[1] + ... + s[|s|-1], accumulated left to right. */
  function Sum(s: seq<real>): real
  {
    if |s| == 0 then 0.0 else Sum(s[..|s| - 1]) + s[|s| - 1]
  }

  /** s[0]*s[0] + ... + s[|s|-1]*s[|s|-1], accumulated left to right. */
  function SumSquares(s: seq<real>): real
  {
    if |s| == 0 then 0.0 else SumSquares(s[..|s| - 1]) + s[|s| - 1] * s[|s| - 1]
  }

  /** The inner product over the range of `a`; `b` must be at least as long
      (the contract of std::inner_product with `a`'s begin and end). */
  function Dot(a: seq<real>, b: seq<real>): real
    requires |a| <= |b|
  {
    if |a| == 0 then 0.0 else Dot(a[..|a| - 1], b) + a[|a| - 1] * b[|a| - 1]
  }

  /** `s` holds each of 0, 1, ..., n-1 exactly once. */
  predicate IsPermutation(s: seq<int>, n: int)
  {
    && |s| == n
    && (forall i :: 0 <= i < |s| ==> 0 <= s[i] < n)
    && (forall i, j :: 0 <= i < j < |s| ==> s[i] != s[j])
  }

  /** The identity index array [0, 1, ..., n-1] that std::iota produces. */
  function Iota(n: nat): (r: seq<int>)
    ensures IsPermutation(r, n)
    ensures forall i :: 0 <= i < n ==> r[i] == i
  {
    seq(n, i => i)
  }

  lemma {:induction false} SumSquaresNonNegative(s: seq<real>)
    ensures SumSquares(s) >= 0.0
  {
    if |s| > 0 {
      SumSquaresNonNegative(s[..|s| - 1]);
      var x := s[|s| - 1];
      assert x * x >= 0.0;
    }
  }

  /** A sum of positive terms, at least one of them, is positive and bounds each term. */
  lemma {:induction false} SumOfPositives(s: seq<real>)
    requires |s| > 0
    requires forall i :: 0 <= i < |s| ==> s[i] > 0.0
    ensures Sum(s) > 0.0
    ensures forall i :: 0 <= i < |s| ==> s[i] <= Sum(s)
  {
    var p := s[..|s| - 1];
    if |p| > 0 {
      SumOfPositives(p);
      forall i | 0 <= i < |s| ensures s[i] <= Sum(s) {
        if i < |p| { assert s[i] == p[i]; }
      }
    }
  }

  /** Dividing every term by c divides the sum by c. */
  lemma {:induction false} SumDivided(s: seq<real>, c: real)
    requires c != 0.0
    ensures Sum(seq(|s|, i requires 0 <= i < |s| => s[i] / c)) == Sum(s) / c
  {
    var d := seq(|s|, i requires 0 <= i < |s| => s[i] / c);
    if |s| > 0 {
      var p := s[..|s| - 1];
      SumDivided(p, c);
      assert d[..|d| - 1] == seq(|p|, i requires 0 <= i < |p| => p[i] / c);
      assert Sum(d) == Sum(p) / c + s[|s| - 1] / c;
    }
  }

  /** The dot product does not depend on the order of its operands. */
  lemma {:induction false} DotCommutes(a: seq<real>, b: seq<real>)
    requires |a| == |b|
    ensures Dot(a, b) == Dot(b, a)
  {
    if |a| > 0 {
      var n := |a| - 1;
      DotPrefix(a[..n], b, n);
      DotPrefix(b[..n], a, n);
      DotCommutes(a[..n], b[..n]);
      assert a[..n][..n] == a[..n];
      assert b[..n][..n] == b[..n];
    }
  }

  /** Only the first |a| entries of the second operand matter. */
  lemma {:induction false} DotPrefix(a: seq<real>, b: seq<real>, k: nat)
    requires |a| <= k <= |b|
    ensures Dot(a, b) == Dot(a, b[..k])
  {
    if |a| > 0 {
      DotPrefix(a[..|a| - 1], b, k);
    }
  }

  /** The library `dotProduct`: both columns have the same length (asserted
      by the source) and the result is the sum of the pairwise products. */
  method DotProduct(a: seq<real>, b: seq<real>) returns (result: real)
    requires |a| == |b|
    ensures result == Dot(a, b)
  {
    result := 0.0;
    var i := 0;
    while i < |a|
      invariant 0 <= i <= |a|
      invariant result == Dot(a[..i], b)
    {
      assert a[..i + 1][..i] == a[..i];
      result := result + a[i] * b[i];
      i := i + 1;
    }
    assert a[..|a|] == a;
  }

  /** The library `argmax`: scans with a running maximum that starts at the
      sentinel -1000 and moves only on a strictly greater value. */
  method ArgMax(values: seq<real>) returns (index: int)
    ensures |values| == 0 ==> index == 0
    ensures |values| > 0 ==> 0 <= index < |values|
    ensures (exists j :: 0 <= j < |values| && values[j] > -1000.0) ==>
              && values[index] > -1000.0
              && (forall j :: 0 <= j < |values| ==> values[j] <= values[index])
              && (forall j :: 0 <= j < index ==> values[j] < values[index])
    ensures (forall j :: 0 <= j < |values| ==> values[j] <= -1000.0) ==> index == 0
  {
    index := 0;
    var highest: real := -1000.0;
    var i := 0;
    while i < |values|
      invariant 0 <= i <= |values|
      invariant 0 <= index && (index < i || index == 0)
      invariant highest >= -1000.0
      invariant forall j :: 0 <= j < i ==> values[j] <= highest
      invariant highest > -1000.0 ==> index < i && values[index] == highest
      invariant highest == -1000.0 ==> index == 0
      invariant forall j :: 0 <= j < index ==> values[j] < highest
    {
      if values[i] > highest {
        highest := values[i];
        index := i;
      }
      i := i + 1;
    }
  }
}
