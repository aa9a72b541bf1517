/**
 * The exponentially weighted mean pandas computes for `Series.ewm(span=s, adjust=False).mean()`
 * on a column without NaN: `ema[0] = x[0]` and `ema[i] = α·x[i] + (1 − α)·ema[i − 1]`
 * with `α = 2 / (s + 1)`, in exact arithmetic.
 */
module Ewm {

  /** The smoothing factor of a span; pandas accepts spans of at least 1. */
  function Alpha(span: nat): (a: real)
    requires 1 <= span
    ensures 0.0 < a <= 1.0
  {
    2.0 / (span as real + 1.0)
  }

  function EmaAt(x: seq<real>, alpha: real, i: nat): real
    requires i < |x|
    decreases i
  {
    if i == 0 then x[0] else alpha * x[i] + (1.0 - alpha) * EmaAt(x, alpha, i - 1)
  }

  /** The EMA column of `x`: same length, seeded with the first value, then the recurrence. */
  function Ema(x: seq<real>, span: nat): (r: seq<real>)
    requires 1 <= span
    ensures |r| == |x|
    ensures |x| > 0 ==> r[0] == x[0]
    ensures forall i :: 0 < i < |x| ==>
              r[i] == Alpha(span) * x[i] + (1.0 - Alpha(span)) * r[i - 1]
  {
    seq(|x|, i requires 0 <= i < |x| => EmaAt(x, Alpha(span), i))
  }

  /** A weighted average of two values in [lo, hi] stays in [lo, hi]. */
  lemma Between(alpha: real, a: real, b: real, lo: real, hi: real)
    requires 0.0 <= alpha <= 1.0
    requires lo <= a <= hi && lo <= b <= hi
    ensures lo <= alpha * a + (1.0 - alpha) * b <= hi
  {
    assert alpha * (a - lo) >= 0.0;
    assert (1.0 - alpha) * (b - lo) >= 0.0;
    assert alpha * (hi - a) >= 0.0;
    assert (1.0 - alpha) * (hi - b) >= 0.0;
  }

  lemma {:induction false} EmaAtBounded(x: seq<real>, alpha: real, i: nat, lo: real, hi: real)
    requires 0.0 <= alpha <= 1.0
    requires i < |x|
    requires forall j :: 0 <= j <= i ==> lo <= x[j] <= hi
    ensures lo <= EmaAt(x, alpha, i) <= hi
  {
    if i > 0 {
      EmaAtBounded(x, alpha, i - 1, lo, hi);
      Between(alpha, x[i], EmaAt(x, alpha, i - 1), lo, hi);
    }
  }

  /** Each EMA value lies between any bounds of the values seen up to that position. */
  lemma EmaBounded(x: seq<real>, span: nat, i: nat, lo: real, hi: real)
    requires 1 <= span
    requires i < |x|
    requires forall j :: 0 <= j <= i ==> lo <= x[j] <= hi
    ensures lo <= Ema(x, span)[i] <= hi
  {
    EmaAtBounded(x, Alpha(span), i, lo, hi);
  }

  /** In particular it lies between the minimum and the maximum of the prefix seen so far. */
  lemma EmaWithinPrefixRange(x: seq<real>, span: nat, i: nat)
    requires 1 <= span
    requires i < |x|
    ensures MinPrefix(x, i) <= Ema(x, span)[i] <= MaxPrefix(x, i)
  {
    MinPrefixBelow(x, i);
    MaxPrefixAbove(x, i);
    EmaBounded(x, span, i, MinPrefix(x, i), MaxPrefix(x, i));
  }

  /** The smallest of `x[0..i]`. */
  function MinPrefix(x: seq<real>, i: nat): real
    requires i < |x|
  {
    if i == 0 then x[0] else var m := MinPrefix(x, i - 1); if x[i] < m then x[i] else m
  }

  /** The largest of `x[0..i]`. */
  function MaxPrefix(x: seq<real>, i: nat): real
    requires i < |x|
  {
    if i == 0 then x[0] else var m := MaxPrefix(x, i - 1); if x[i] > m then x[i] else m
  }

  lemma {:induction false} MinPrefixBelow(x: seq<real>, i: nat)
    requires i < |x|
    ensures forall j :: 0 <= j <= i ==> MinPrefix(x, i) <= x[j]
    ensures exists j :: 0 <= j <= i && MinPrefix(x, i) == x[j]
  {
    if i == 0 {
      assert MinPrefix(x, i) == x[0];
    } else {
      MinPrefixBelow(x, i - 1);
      var j :| 0 <= j <= i - 1 && MinPrefix(x, i - 1) == x[j];
      assert MinPrefix(x, i) == x[j] || MinPrefix(x, i) == x[i];
    }
  }

  lemma {:induction false} MaxPrefixAbove(x: seq<real>, i: nat)
    requires i < |x|
    ensures forall j :: 0 <= j <= i ==> x[j] <= MaxPrefix(x, i)
    ensures exists j :: 0 <= j <= i && MaxPrefix(x, i) == x[j]
  {
    if i == 0 {
      assert MaxPrefix(x, i) == x[0];
    } else {
      MaxPrefixAbove(x, i - 1);
      var j :| 0 <= j <= i - 1 && MaxPrefix(x, i - 1) == x[j];
      assert MaxPrefix(x, i) == x[j] || MaxPrefix(x, i) == x[i];
    }
  }

  predicate NonDecreasing(x: seq<real>)
  {
    forall i, j :: 0 <= i <= j < |x| ==> x[i] <= x[j]
  }

  lemma {:induction false} EmaAtMonotone(x: seq<real>, alpha: real, i: nat)
    requires 0.0 <= alpha <= 1.0
    requires NonDecreasing(x)
    requires i + 1 < |x|
    ensures EmaAt(x, alpha, i) <= EmaAt(x, alpha, i + 1)
  {
    var e := EmaAt(x, alpha, i);
    EmaAtBounded(x, alpha, i, x[0], x[i]);
    assert e <= x[i + 1];
    Between(alpha, x[i + 1], e, e, x[i + 1]);
    assert EmaAt(x, alpha, i + 1) == alpha * x[i + 1] + (1.0 - alpha) * e;
  }

  /** Over a non-decreasing column the EMA is non-decreasing too. */
  lemma {:induction false} EmaNonDecreasing(x: seq<real>, span: nat)
    requires 1 <= span
    requires NonDecreasing(x)
    ensures NonDecreasing(Ema(x, span))
  {
    var e := Ema(x, span);
    forall i, j | 0 <= i <= j < |e| ensures e[i] <= e[j] {
      var k := i;
      while k < j
        invariant i <= k <= j
        invariant e[i] <= e[k]
      {
        EmaAtMonotone(x, Alpha(span), k);
        k := k + 1;
      }
    }
  }

  /** A constant column has itself as its EMA. */
  lemma EmaOfConstant(x: seq<real>, span: nat, c: real)
    requires 1 <= span
    requires forall j :: 0 <= j < |x| ==> x[j] == c
    ensures forall i :: 0 <= i < |x| ==> Ema(x, span)[i] == c
  {
    forall i | 0 <= i < |x| ensures Ema(x, span)[i] == c {
      EmaBounded(x, span, i, c, c);
    }
  }
}
