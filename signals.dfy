/**
 * `check_signals`: the DCA entry rule read off the last row of the daily frame (and, once
 * the rule's StochRSI gate passes, the last row of the weekly frame).  Instead of the chat
 * text the source formats, the result is the structured content of that message.
 */
module Signals {
  import opened Wrappers
  import opened Indicators

  /** A MACD trend; the source prints "up" for `Up` and "down" for `Down`. */
  datatype Trend = Up | Down

  /** What the alert message reports: ticker, %K, %D, close, both trends and the EMA stack. */
  datatype SignalResult = SignalResult(ticker: string, k: real, d: real, price: real,
                                       trendDay: Trend, trendWeek: Trend, emaOrdered: bool)

  /** The oversold threshold both %K and %D must stay strictly below. */
  const Oversold: real := 0.2

  /** The StochRSI condition: %K crosses above %D while both are oversold. */
  predicate StochGate(row: Row)
  {
    row.k > row.d && row.k < Oversold && row.d < Oversold
  }

  function TrendOf(row: Row): Trend
  {
    if row.macd > row.signal then Up else Down
  }

  /** EMA50 > EMA100 > close > EMA200, every step strict. */
  predicate EmaStacked(row: Row)
  {
    row.ema50 > row.ema100 > row.bar.close > row.ema200
  }

  /**
   * `None` plays the part of the empty string the source returns.  The daily frame must have
   * a row (`iloc[-1]`); the weekly one is read only once the gate has passed.
   */
  function CheckSignals(day: seq<Row>, week: seq<Row>, ticker: string): (r: Option<SignalResult>)
    requires |day| > 0
    requires StochGate(day[|day| - 1]) ==> |week| > 0
    ensures r.Some? <==>
              day[|day| - 1].k > day[|day| - 1].d && day[|day| - 1].k < 0.2 && day[|day| - 1].d < 0.2
    ensures r.Some? ==>
              r.value.ticker == ticker && r.value.k == day[|day| - 1].k &&
              r.value.d == day[|day| - 1].d && r.value.price == day[|day| - 1].bar.close
    ensures r.Some? ==> (r.value.trendDay == Up <==> day[|day| - 1].macd > day[|day| - 1].signal)
    ensures r.Some? ==> (r.value.trendWeek == Up <==> week[|week| - 1].macd > week[|week| - 1].signal)
    ensures r.Some? ==>
              (r.value.emaOrdered <==>
                 day[|day| - 1].ema50 > day[|day| - 1].ema100 > day[|day| - 1].bar.close > day[|day| - 1].ema200)
  {
    var latest := day[|day| - 1];
    if StochGate(latest) then
      var weekly := week[|week| - 1];
      Some(SignalResult(ticker, latest.k, latest.d, latest.bar.close,
                        TrendOf(latest), TrendOf(weekly), EmaStacked(latest)))
    else
      None
  }

  /** Equality never passes the gate: a tie between %K and %D, or either at 0.2, gives nothing. */
  lemma GateIsStrict(day: seq<Row>, week: seq<Row>, ticker: string)
    requires |day| > 0
    requires day[|day| - 1].k == day[|day| - 1].d || day[|day| - 1].k == 0.2 || day[|day| - 1].d == 0.2
    ensures CheckSignals(day, week, ticker).None?
  {
  }

  /** Only %K and %D of the last daily row decide whether a result exists: the trends, the
      EMA stack, the price and every earlier row are reported but never gate. */
  lemma OnlyStochGates(day1: seq<Row>, week1: seq<Row>, day2: seq<Row>, week2: seq<Row>,
                       t1: string, t2: string)
    requires |day1| > 0 && |week1| > 0 && |day2| > 0 && |week2| > 0
    requires day1[|day1| - 1].k == day2[|day2| - 1].k && day1[|day1| - 1].d == day2[|day2| - 1].d
    ensures CheckSignals(day1, week1, t1).Some? == CheckSignals(day2, week2, t2).Some?
  {
  }

  /** A row of a computed frame that passes the gate has 0 <= %D < %K < 0.2. */
  lemma GatedRowBounds(bars: seq<Bar>)
    requires |CalculateIndicators(bars)| > 0
    ensures var last := CalculateIndicators(bars)[|CalculateIndicators(bars)| - 1];
            StochGate(last) ==> 0.0 <= last.d < last.k < Oversold
  {
    var rows := CalculateIndicators(bars);
    RowsInUnitInterval(bars);
    assert rows[|rows| - 1] in rows;
  }
}
