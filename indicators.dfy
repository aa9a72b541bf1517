/**
 * `calculate_indicators`: the Stochastic RSI %K/%D, EMA50/100/200, MACD and its signal
 * line, computed column by column over a copy of the downloaded frame, followed by
 * `dropna()`.  Prices are exact reals and an undefined (NaN) cell is `None`.
 */
module Indicators {
  import opened Wrappers
  import opened Windows
  import opened Ewm

  /** One downloaded bar; only `close` enters the indicators, the rest rides along. */
  datatype Bar = Bar(open: real, high: real, low: real, close: real, volume: real)

  /** A row after the indicator columns are assigned and before `dropna()`. The EMA and MACD
      columns are never NaN, since `ewm(adjust=False)` is defined from the first bar. */
  datatype RawRow = RawRow(bar: Bar, k: Option<real>, d: Option<real>,
                           ema50: real, ema100: real, ema200: real, macd: real, signal: real)

  /** A row of the returned frame: every indicator is defined. */
  datatype Row = Row(bar: Bar, k: real, d: real,
                     ema50: real, ema100: real, ema200: real, macd: real, signal: real)

  /** The RSI averaging window of `rolling(14)`. */
  const RsiWindow: nat := 14
  /** The window of the RSI minimum and maximum. */
  const StochWindow: nat := 14
  /** The smoothing window of %K and %D. */
  const SmoothWindow: nat := 3

  function Closes(bars: seq<Bar>): (c: seq<real>)
    ensures |c| == |bars|
  {
    seq(|bars|, i requires 0 <= i < |bars| => bars[i].close)
  }

  /** `Close.diff()`: undefined at the first row. */
  function Diff(c: seq<real>): (delta: seq<Option<real>>)
    ensures |delta| == |c|
  {
    seq(|c|, i requires 0 <= i < |c| => if i == 0 then None else Some(c[i] - c[i - 1]))
  }

  /** `delta.where(delta > 0, 0)`: a NaN fails the test too, so it becomes 0. */
  function WherePositive(delta: seq<Option<real>>): (g: seq<Option<real>>)
    ensures |g| == |delta|
  {
    seq(|delta|, i requires 0 <= i < |delta| =>
      Some(if delta[i].Some? && delta[i].value > 0.0 then delta[i].value else 0.0))
  }

  /** `delta.where(delta < 0, 0)`. */
  function WhereNegative(delta: seq<Option<real>>): (g: seq<Option<real>>)
    ensures |g| == |delta|
  {
    seq(|delta|, i requires 0 <= i < |delta| =>
      Some(if delta[i].Some? && delta[i].value < 0.0 then delta[i].value else 0.0))
  }

  /** Unary minus on a column; NaN stays NaN. */
  function Negate(x: seq<Option<real>>): (r: seq<Option<real>>)
    ensures |r| == |x|
  {
    seq(|x|, i requires 0 <= i < |x| => if x[i].Some? then Some(-x[i].value) else None)
  }

  /** The `gain` column: 14-bar mean of the upward moves. */
  function AvgGain(c: seq<real>): (r: seq<Option<real>>)
    ensures |r| == |c|
    ensures forall i :: 0 <= i < |c| && r[i].Some? ==> 0.0 <= r[i].value
  {
    var g := WherePositive(Diff(c));
    RollingAtLeast(g, RsiWindow, Mean, 0.0);
    Rolling(g, RsiWindow, Mean)
  }

  /** The `loss` column: minus the 14-bar mean of the downward moves. */
  function AvgLoss(c: seq<real>): (r: seq<Option<real>>)
    ensures |r| == |c|
    ensures forall i :: 0 <= i < |c| && r[i].Some? ==> 0.0 <= r[i].value
  {
    var l := WhereNegative(Diff(c));
    RollingAtMost(l, RsiWindow, Mean, 0.0);
    Negate(Rolling(l, RsiWindow, Mean))
  }

  /**
   * `100 - 100 / (1 + gain / loss)` with float division: a zero loss makes `rs` infinite and
   * the RSI 100 when the gain is not zero, and NaN (0/0) when it is.
   */
  function RsiOf(gain: Option<real>, loss: Option<real>): (r: Option<real>)
    requires gain.Some? ==> 0.0 <= gain.value
    requires loss.Some? ==> 0.0 <= loss.value
    ensures r.Some? ==> 0.0 <= r.value <= 100.0
    ensures r.Some? <==> gain.Some? && loss.Some? && (gain.value != 0.0 || loss.value != 0.0)
  {
    if gain.None? || loss.None? then None
    else if loss.value == 0.0 then (if gain.value == 0.0 then None else Some(100.0))
    else
      var rs := gain.value / loss.value;
      assert 100.0 / (1.0 + rs) <= 100.0 / 1.0;
      Some(100.0 - 100.0 / (1.0 + rs))
  }

  function RsiColumn(c: seq<real>): (r: seq<Option<real>>)
    ensures |r| == |c|
  {
    var g := AvgGain(c);
    var l := AvgLoss(c);
    seq(|c|, i requires 0 <= i < |c| => RsiOf(g[i], l[i]))
  }

  /**
   * `(rsi - min) / (max - min)`.  The minimum and maximum are taken over a window that
   * ends at `rsi`, so equal bounds mean a flat window, where the quotient is 0/0: NaN.
   */
  function StochOf(rsi: Option<real>, lo: Option<real>, hi: Option<real>): (r: Option<real>)
    ensures r.Some? <==> rsi.Some? && lo.Some? && hi.Some? && hi.value != lo.value
    ensures r.Some? ==> r.value * (hi.value - lo.value) == rsi.value - lo.value
  {
    if rsi.Some? && lo.Some? && hi.Some? && hi.value != lo.value
    then Some((rsi.value - lo.value) / (hi.value - lo.value))
    else None
  }

  function StochColumn(rsi: seq<Option<real>>): (r: seq<Option<real>>)
    ensures |r| == |rsi|
  {
    var lo := Rolling(rsi, StochWindow, Min);
    var hi := Rolling(rsi, StochWindow, Max);
    seq(|rsi|, i requires 0 <= i < |rsi| => StochOf(rsi[i], lo[i], hi[i]))
  }

  /** `clip(lo, hi)`: NaN stays NaN. */
  function Clip(x: seq<Option<real>>, lo: real, hi: real): (r: seq<Option<real>>)
    requires lo <= hi
    ensures |r| == |x|
    ensures forall i :: 0 <= i < |x| ==> (r[i].Some? <==> x[i].Some?)
    ensures forall i :: 0 <= i < |x| && r[i].Some? ==> lo <= r[i].value <= hi
    ensures forall i :: 0 <= i < |x| && x[i].Some? && lo <= x[i].value <= hi ==> r[i] == x[i]
  {
    seq(|x|, i requires 0 <= i < |x| =>
      match x[i]
      case None => None
      case Some(v) => Some(if v < lo then lo else if v > hi then hi else v))
  }

  /** `%K`: the 3-bar mean of the stochastic RSI, clipped to [0, 1]. */
  function PercentK(c: seq<real>): (r: seq<Option<real>>)
    ensures |r| == |c|
  {
    Clip(Rolling(StochColumn(RsiColumn(c)), SmoothWindow, Mean), 0.0, 1.0)
  }

  /** `%D`: the 3-bar mean of `%K`, clipped to [0, 1]. */
  function PercentD(c: seq<real>): (r: seq<Option<real>>)
    ensures |r| == |c|
  {
    Clip(Rolling(PercentK(c), SmoothWindow, Mean), 0.0, 1.0)
  }

  /** `MACD`: EMA12 minus EMA26 of the closes. */
  function Macd(c: seq<real>): (r: seq<real>)
    ensures |r| == |c|
  {
    var fast := Ema(c, 12);
    var slow := Ema(c, 26);
    seq(|c|, i requires 0 <= i < |c| => fast[i] - slow[i])
  }

  /** `Signal`: EMA9 of the MACD line. */
  function SignalLine(c: seq<real>): (r: seq<real>)
    ensures |r| == |c|
  {
    Ema(Macd(c), 9)
  }

  /** The frame with all indicator columns assigned, one row per bar. */
  function Annotate(bars: seq<Bar>): (rows: seq<RawRow>)
    ensures |rows| == |bars|
  {
    var c := Closes(bars);
    var k := PercentK(c);
    var d := PercentD(c);
    var e50 := Ema(c, 50);
    var e100 := Ema(c, 100);
    var e200 := Ema(c, 200);
    var m := Macd(c);
    var s := SignalLine(c);
    seq(|bars|, i requires 0 <= i < |bars| =>
      RawRow(bars[i], k[i], d[i], e50[i], e100[i], e200[i], m[i], s[i]))
  }

  predicate Complete(r: RawRow)
  {
    r.k.Some? && r.d.Some?
  }

  function ToRow(r: RawRow): Row
    requires Complete(r)
  {
    Row(r.bar, r.k.value, r.d.value, r.ema50, r.ema100, r.ema200, r.macd, r.signal)
  }

  /** `dropna()`: keeps the complete rows, in their order. */
  function DropNa(rows: seq<RawRow>): (r: seq<Row>)
    ensures |r| <= |rows|
  {
    if rows == [] then []
    else
      var last := rows[|rows| - 1];
      DropNa(rows[..|rows| - 1]) + (if Complete(last) then [ToRow(last)] else [])
  }

  function CalculateIndicators(bars: seq<Bar>): (r: seq<Row>)
    ensures |r| <= |bars|
  {
    DropNa(Annotate(bars))
  }

  /** Every row `dropna()` keeps is a complete input row, and every complete input row is kept. */
  lemma {:induction false} DropNaMembers(rows: seq<RawRow>, r: Row)
    ensures r in DropNa(rows) <==>
              exists j :: 0 <= j < |rows| && Complete(rows[j]) && r == ToRow(rows[j])
  {
    if rows != [] {
      var n := |rows| - 1;
      var init := rows[..n];
      DropNaMembers(init, r);
      assert forall j :: 0 <= j < n ==> init[j] == rows[j];
      if r in DropNa(rows) {
        if r in DropNa(init) {
          var j :| 0 <= j < n && Complete(init[j]) && r == ToRow(init[j]);
          assert Complete(rows[j]) && r == ToRow(rows[j]);
        } else {
          assert Complete(rows[n]) && r == ToRow(rows[n]);
        }
      } else {
        forall j | 0 <= j < |rows| && Complete(rows[j]) ensures r != ToRow(rows[j]) {
          if j < n {
            assert init[j] == rows[j];
          }
        }
      }
    }
  }

  /** `dropna()` returns nothing exactly when no input row is complete. */
  lemma DropNaEmpty(rows: seq<RawRow>)
    ensures DropNa(rows) == [] <==> forall j :: 0 <= j < |rows| ==> !Complete(rows[j])
  {
    if DropNa(rows) != [] {
      DropNaMembers(rows, DropNa(rows)[0]);
    }
    forall j | 0 <= j < |rows| && Complete(rows[j]) ensures DropNa(rows) != [] {
      DropNaMembers(rows, ToRow(rows[j]));
    }
  }

  /** The last row of `out` is the newest complete row of `rows`. */
  ghost predicate EndsAtNewestComplete(rows: seq<RawRow>, out: seq<Row>)
  {
    |out| > 0 ==>
      exists j :: 0 <= j < |rows| && Complete(rows[j]) && out[|out| - 1] == ToRow(rows[j]) &&
        forall j' :: j < j' < |rows| ==> !Complete(rows[j'])
  }

  /** The last kept row is the newest complete input row. */
  lemma {:induction false} DropNaLast(rows: seq<RawRow>)
    ensures EndsAtNewestComplete(rows, DropNa(rows))
  {
    if rows != [] {
      var n := |rows| - 1;
      var init := rows[..n];
      if Complete(rows[n]) {
        assert DropNa(rows)[|DropNa(rows)| - 1] == ToRow(rows[n]);
      } else {
        assert DropNa(rows) == DropNa(init);
        DropNaLast(init);
        NewestCompleteSkips(rows, DropNa(init));
      }
    }
  }

  /** An incomplete newest row leaves the newest complete row where it was. */
  lemma NewestCompleteSkips(rows: seq<RawRow>, out: seq<Row>)
    requires |rows| > 0 && !Complete(rows[|rows| - 1])
    requires EndsAtNewestComplete(rows[..|rows| - 1], out)
    ensures EndsAtNewestComplete(rows, out)
  {
    var init := rows[..|rows| - 1];
    if |out| > 0 {
      var j :| 0 <= j < |init| && Complete(init[j]) && out[|out| - 1] == ToRow(init[j]) &&
        forall j' :: j < j' < |init| ==> !Complete(init[j']);
      assert rows[j] == init[j];
      assert forall j' :: j < j' < |init| ==> rows[j'] == init[j'];
    }
  }

  /** Rows dropped at the head shorten the result by at least as many rows. */
  lemma {:induction false} DropNaSkipsPrefix(rows: seq<RawRow>, m: nat)
    requires m <= |rows|
    requires forall j :: 0 <= j < m ==> !Complete(rows[j])
    ensures |DropNa(rows)| <= |rows| - m
  {
    if rows != [] {
      var n := |rows| - 1;
      var init := rows[..n];
      var m' := if m <= n then m else n;
      assert forall j :: 0 <= j < m' ==> init[j] == rows[j];
      DropNaSkipsPrefix(init, m');
    }
  }

  /** The RSI needs 14 averaged moves: it is undefined before row 13. */
  lemma RsiWarmUp(c: seq<real>)
    ensures forall i :: 0 <= i < |c| && RsiColumn(c)[i].Some? ==> 13 <= i
  {
    forall i | 0 <= i < |c| && RsiColumn(c)[i].Some? ensures 13 <= i {
      assert AvgGain(c)[i].Some?;
    }
  }

  /** An RSI column undefined before row 13 gives a stochastic column undefined before 26. */
  lemma StochWarmUp(rsi: seq<Option<real>>)
    requires forall i :: 0 <= i < |rsi| && rsi[i].Some? ==> 13 <= i
    ensures forall i :: 0 <= i < |rsi| && StochColumn(rsi)[i].Some? ==> 26 <= i
  {
    var lo := Rolling(rsi, StochWindow, Min);
    RollingDelays(rsi, StochWindow, Min, 13);
    forall i | 0 <= i < |rsi| && StochColumn(rsi)[i].Some? ensures 26 <= i {
      assert StochColumn(rsi)[i] == StochOf(rsi[i], lo[i], Rolling(rsi, StochWindow, Max)[i]);
      assert lo[i].Some?;
    }
  }

  /** %K needs 14 RSI values and 3 stochastic values: it is undefined before row 28. */
  lemma KWarmUp(c: seq<real>)
    ensures forall i :: 0 <= i < |c| && PercentK(c)[i].Some? ==> 28 <= i
  {
    var stoch := StochColumn(RsiColumn(c));
    RsiWarmUp(c);
    StochWarmUp(RsiColumn(c));
    RollingDelays(stoch, SmoothWindow, Mean, 26);
  }

  /** %D smooths %K over 3 more rows: it is undefined before row 30. */
  lemma DWarmUp(c: seq<real>)
    ensures forall i :: 0 <= i < |c| && PercentD(c)[i].Some? ==> 30 <= i
  {
    KWarmUp(c);
    RollingDelays(PercentK(c), SmoothWindow, Mean, 28);
  }

  /** The first 30 bars never survive `dropna()`; a series of at most 30 bars gives no row. */
  lemma WarmUp(bars: seq<Bar>)
    ensures |bars| <= 30 ==> CalculateIndicators(bars) == []
    ensures 30 <= |bars| ==> |CalculateIndicators(bars)| <= |bars| - 30
  {
    var rows := Annotate(bars);
    var m := if |bars| <= 30 then |bars| else 30;
    DWarmUp(Closes(bars));
    assert forall j :: 0 <= j < m ==> !Complete(rows[j]);
    DropNaSkipsPrefix(rows, m);
  }

  /** An empty download yields an empty frame. */
  lemma EmptyInput()
    ensures CalculateIndicators([]) == []
  {
  }

  /** Each returned row is the bar of some input position with that position's indicators. */
  lemma CalculatedRow(bars: seq<Bar>, r: Row)
    requires r in CalculateIndicators(bars)
    ensures exists j :: 0 <= j < |bars| && r.bar == bars[j] &&
              PercentK(Closes(bars))[j] == Some(r.k) && PercentD(Closes(bars))[j] == Some(r.d) &&
              r.ema50 == Ema(Closes(bars), 50)[j] && r.ema100 == Ema(Closes(bars), 100)[j] &&
              r.ema200 == Ema(Closes(bars), 200)[j] &&
              r.macd == Macd(Closes(bars))[j] && r.signal == SignalLine(Closes(bars))[j]
  {
    DropNaMembers(Annotate(bars), r);
  }

  /** The last returned row, when there is one, belongs to the newest bar whose indicators
      are all defined. */
  lemma LastRow(bars: seq<Bar>)
    ensures EndsAtNewestComplete(Annotate(bars), CalculateIndicators(bars))
  {
    DropNaLast(Annotate(bars));
  }

  /** %K and %D of every returned row lie in [0, 1]. */
  lemma RowsInUnitInterval(bars: seq<Bar>)
    ensures forall r :: r in CalculateIndicators(bars) ==> 0.0 <= r.k <= 1.0 && 0.0 <= r.d <= 1.0
  {
    forall r | r in CalculateIndicators(bars) ensures 0.0 <= r.k <= 1.0 && 0.0 <= r.d <= 1.0 {
      CalculatedRow(bars, r);
    }
  }

  lemma UnitQuotient(r: real, a: real, b: real)
    requires a <= r <= b && a < b
    ensures 0.0 <= (r - a) / (b - a) <= 1.0
  {
    var q := (r - a) / (b - a);
    assert q * (b - a) == r - a;
  }

  /** A value between a distinct minimum and maximum has a stochastic value in [0, 1]. */
  lemma StochOfInUnitInterval(x: Option<real>, lo: Option<real>, hi: Option<real>)
    requires x.Some? && lo.Some? && hi.Some?
    requires lo.value <= x.value <= hi.value && lo.value != hi.value
    ensures StochOf(x, lo, hi).Some?
    ensures 0.0 <= StochOf(x, lo, hi).value <= 1.0
  {
    UnitQuotient(x.value, lo.value, hi.value);
  }

  /** One stochastic value: the RSI sits inside its own window, between its minimum and maximum. */
  lemma StochAtInUnitInterval(rsi: seq<Option<real>>, i: nat)
    requires i < |rsi|
    requires StochColumn(rsi)[i].Some?
    ensures 0.0 <= StochColumn(rsi)[i].value <= 1.0
  {
    var lo := Rolling(rsi, StochWindow, Min);
    var hi := Rolling(rsi, StochWindow, Max);
    assert StochColumn(rsi)[i] == StochOf(rsi[i], lo[i], hi[i]);
    assert Full(rsi, StochWindow, i);
    RollingBetween(rsi, StochWindow, i);
    StochOfInUnitInterval(rsi[i], lo[i], hi[i]);
  }

  /** The stochastic RSI, where defined, already lies in [0, 1]. */
  lemma StochInUnitInterval(rsi: seq<Option<real>>)
    ensures forall i :: 0 <= i < |rsi| && StochColumn(rsi)[i].Some? ==>
              0.0 <= StochColumn(rsi)[i].value <= 1.0
  {
    forall i | 0 <= i < |rsi| && StochColumn(rsi)[i].Some?
      ensures 0.0 <= StochColumn(rsi)[i].value <= 1.0
    {
      StochAtInUnitInterval(rsi, i);
    }
  }

  /** In exact arithmetic the `clip(0, 1)` of %K and %D never changes a value. */
  lemma ClipNeverBinds(c: seq<real>)
    ensures PercentK(c) == Rolling(StochColumn(RsiColumn(c)), SmoothWindow, Mean)
    ensures PercentD(c) == Rolling(PercentK(c), SmoothWindow, Mean)
  {
    var stoch := StochColumn(RsiColumn(c));
    StochInUnitInterval(RsiColumn(c));
    RollingAtLeast(stoch, SmoothWindow, Mean, 0.0);
    RollingAtMost(stoch, SmoothWindow, Mean, 1.0);
    var k := PercentK(c);
    RollingAtLeast(k, SmoothWindow, Mean, 0.0);
    RollingAtMost(k, SmoothWindow, Mean, 1.0);
  }

  /** A flat price series has no volatility: every RSI is 0/0, so no row survives. */
  lemma ConstantSeriesNoRows(bars: seq<Bar>)
    requires forall i :: 0 <= i < |bars| ==> bars[i].close == bars[0].close
    ensures CalculateIndicators(bars) == []
  {
    var c := Closes(bars);
    var delta := Diff(c);
    var g := WherePositive(delta);
    var l := WhereNegative(delta);
    assert forall i :: 0 <= i < |c| && delta[i].Some? ==> delta[i].value == 0.0;
    RollingAtMost(g, RsiWindow, Mean, 0.0);
    RollingAtLeast(l, RsiWindow, Mean, 0.0);
    var rsi := RsiColumn(c);
    assert forall i :: 0 <= i < |c| ==> rsi[i].None?;
    var stoch := StochColumn(rsi);
    assert forall i :: 0 <= i < |c| ==> stoch[i].None?;
    var raw := Rolling(stoch, SmoothWindow, Mean);
    assert forall i :: 0 <= i < |c| ==> !Full(stoch, SmoothWindow, i);
    var rows := Annotate(bars);
    assert forall j :: 0 <= j < |rows| ==> !Complete(rows[j]);
    DropNaEmpty(rows);
  }
}
