/**
 * Trailing-window statistics over a column, as pandas `Series.rolling(w)` computes them
 * with its default `min_periods = w`: position `i` is defined only when the `w` cells
 * ending at `i` are all defined.  An undefined cell (NaN) is `None`.
 */
module Windows {
  import opened Wrappers

  function Sum(s: seq<real>): real
  {
    if s == [] then 0.0 else s[0] + Sum(s[1..])
  }

  /** The smallest element; it is one of the elements and no element is below it. */
  function MinOf(s: seq<real>): (m: real)
    requires |s| > 0
    ensures m in s
    ensures forall v :: v in s ==> m <= v
  {
    if |s| == 1 then s[0]
    else
      var rest := MinOf(s[1..]);
      assert forall v :: v in s ==> v == s[0] || v in s[1..];
      if s[0] <= rest then s[0] else rest
  }

  /** The largest element; it is one of the elements and no element is above it. */
  function MaxOf(s: seq<real>): (m: real)
    requires |s| > 0
    ensures m in s
    ensures forall v :: v in s ==> v <= m
  {
    if |s| == 1 then s[0]
    else
      var rest := MaxOf(s[1..]);
      assert forall v :: v in s ==> v == s[0] || v in s[1..];
      if s[0] >= rest then s[0] else rest
  }

  /** The three reductions the indicators use: `.mean()`, `.min()` and `.max()`. */
  datatype Agg = Mean | Min | Max

  function Aggregate(op: Agg, s: seq<real>): real
    requires |s| > 0
  {
    match op
    case Mean => Sum(s) / (|s| as real)
    case Min => MinOf(s)
    case Max => MaxOf(s)
  }

  /** The window of width `w` ending at `i` lies inside the column and holds no NaN. */
  predicate Full(x: seq<Option<real>>, w: nat, i: nat)
  {
    0 < w && i < |x| && w <= i + 1 &&
    forall j :: i + 1 - w <= j <= i ==> x[j].Some?
  }

  /** The defined values of the window of width `w` ending at `i`, oldest first. */
  function Window(x: seq<Option<real>>, w: nat, i: nat): (s: seq<real>)
    requires Full(x, w, i)
    ensures |s| == w
  {
    seq(w, j requires 0 <= j < w => x[i + 1 - w + j].value)
  }

  /** `x.rolling(w)` followed by the reduction `op`. */
  function Rolling(x: seq<Option<real>>, w: nat, op: Agg): (r: seq<Option<real>>)
    requires 0 < w
    ensures |r| == |x|
    ensures forall i :: 0 <= i < |x| ==> (r[i].Some? <==> Full(x, w, i))
  {
    seq(|x|, i requires 0 <= i < |x| =>
      if Full(x, w, i) then Some(Aggregate(op, Window(x, w, i))) else None)
  }

  lemma {:induction false} SumAtLeast(s: seq<real>, lo: real)
    requires forall v :: v in s ==> lo <= v
    ensures lo * (|s| as real) <= Sum(s)
  {
    if s != [] {
      assert forall v :: v in s[1..] ==> v in s;
      SumAtLeast(s[1..], lo);
      assert s[0] in s;
      assert lo * (|s| as real) == lo + lo * (|s[1..]| as real);
    }
  }

  lemma {:induction false} SumAtMost(s: seq<real>, hi: real)
    requires forall v :: v in s ==> v <= hi
    ensures Sum(s) <= hi * (|s| as real)
  {
    if s != [] {
      assert forall v :: v in s[1..] ==> v in s;
      SumAtMost(s[1..], hi);
      assert s[0] in s;
      assert hi * (|s| as real) == hi + hi * (|s[1..]| as real);
    }
  }

  /** A reduction of values that are all at least `lo` is at least `lo`. */
  lemma AggregateAtLeast(op: Agg, s: seq<real>, lo: real)
    requires |s| > 0
    requires forall v :: v in s ==> lo <= v
    ensures lo <= Aggregate(op, s)
  {
    if op == Mean {
      var n := |s| as real;
      SumAtLeast(s, lo);
      assert lo * n / n <= Sum(s) / n;
    }
  }

  /** A reduction of values that are all at most `hi` is at most `hi`. */
  lemma AggregateAtMost(op: Agg, s: seq<real>, hi: real)
    requires |s| > 0
    requires forall v :: v in s ==> v <= hi
    ensures Aggregate(op, s) <= hi
  {
    if op == Mean {
      var n := |s| as real;
      SumAtMost(s, hi);
      assert Sum(s) / n <= hi * n / n;
    }
  }

  /** The newest value of a full window is the cell the window ends at. */
  lemma WindowNewest(x: seq<Option<real>>, w: nat, i: nat)
    requires Full(x, w, i)
    ensures x[i].value in Window(x, w, i)
  {
    assert Window(x, w, i)[w - 1] == x[i].value;
  }

  /** A rolling result is defined only from position `w - 1` on. */
  lemma RollingWarmUp(x: seq<Option<real>>, w: nat, op: Agg, i: nat)
    requires 0 < w && i < |x|
    requires Rolling(x, w, op)[i].Some?
    ensures w - 1 <= i
    ensures x[i + 1 - w].Some? && x[i].Some?
  {
  }

  /** A column undefined before row `d` gives a rolling column undefined before `d + w - 1`. */
  lemma RollingDelays(x: seq<Option<real>>, w: nat, op: Agg, d: nat)
    requires 0 < w
    requires forall i :: 0 <= i < |x| && x[i].Some? ==> d <= i
    ensures forall i :: 0 <= i < |x| && Rolling(x, w, op)[i].Some? ==> d + w - 1 <= i
  {
    forall i | 0 <= i < |x| && Rolling(x, w, op)[i].Some? ensures d + w - 1 <= i {
      assert Full(x, w, i);
      assert x[i + 1 - w].Some?;
    }
  }

  /** The defined cells of a full window are exactly the values reduced. */
  lemma WindowValues(x: seq<Option<real>>, w: nat, i: nat, v: real)
    requires Full(x, w, i)
    requires v in Window(x, w, i)
    ensures exists j :: i + 1 - w <= j <= i && x[j] == Some(v)
  {
    var s := Window(x, w, i);
    var k :| 0 <= k < w && s[k] == v;
    assert x[i + 1 - w + k] == Some(v);
  }

  /** A rolling reduction of cells that are at least `lo` is at least `lo`. */
  lemma RollingAtLeast(x: seq<Option<real>>, w: nat, op: Agg, lo: real)
    requires 0 < w
    requires forall i :: 0 <= i < |x| && x[i].Some? ==> lo <= x[i].value
    ensures forall i :: 0 <= i < |x| && Rolling(x, w, op)[i].Some? ==>
              lo <= Rolling(x, w, op)[i].value
  {
    var r := Rolling(x, w, op);
    forall i | 0 <= i < |x| && r[i].Some?
      ensures lo <= r[i].value
    {
      var s := Window(x, w, i);
      forall v | v in s ensures lo <= v {
        WindowValues(x, w, i, v);
      }
      AggregateAtLeast(op, s, lo);
    }
  }

  /** A rolling reduction of cells that are at most `hi` is at most `hi`. */
  lemma RollingAtMost(x: seq<Option<real>>, w: nat, op: Agg, hi: real)
    requires 0 < w
    requires forall i :: 0 <= i < |x| && x[i].Some? ==> x[i].value <= hi
    ensures forall i :: 0 <= i < |x| && Rolling(x, w, op)[i].Some? ==>
              Rolling(x, w, op)[i].value <= hi
  {
    var r := Rolling(x, w, op);
    forall i | 0 <= i < |x| && r[i].Some?
      ensures r[i].value <= hi
    {
      var s := Window(x, w, i);
      forall v | v in s ensures v <= hi {
        WindowValues(x, w, i, v);
      }
      AggregateAtMost(op, s, hi);
    }
  }

  /** The newest cell of a full window lies between the window's minimum and maximum. */
  lemma RollingBrackets(x: seq<Option<real>>, w: nat, i: nat)
    requires Full(x, w, i)
    ensures Rolling(x, w, Min)[i] == Some(MinOf(Window(x, w, i)))
    ensures Rolling(x, w, Max)[i] == Some(MaxOf(Window(x, w, i)))
    ensures MinOf(Window(x, w, i)) <= x[i].value <= MaxOf(Window(x, w, i))
  {
    WindowNewest(x, w, i);
  }

  /** The rolling minimum and maximum at a full window bracket the window's newest cell. */
  lemma RollingBetween(x: seq<Option<real>>, w: nat, i: nat)
    requires Full(x, w, i)
    ensures Rolling(x, w, Min)[i].Some? && Rolling(x, w, Max)[i].Some?
    ensures Rolling(x, w, Min)[i].value <= x[i].value <= Rolling(x, w, Max)[i].value
  {
    RollingBrackets(x, w, i);
  }
}
