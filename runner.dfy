/**
 * `main`: scan every ticker, collect the messages of those that pass the rule, then send
 * either one "no signal today" notice or one notice per collected message.
 * The download is a function parameter and the chat webhook is an object that records
 * every notice handed to it.
 */
module Runner {
  import opened Wrappers
  import opened Indicators
  import opened Signals

  /** The two downloads per ticker: daily bars over 2 years, weekly bars over 5 years. */
  datatype Interval = Daily | Weekly

  /**
   * What `fetch_data` hands back.  `Frame` is a downloaded frame, possibly without rows;
   * `Blank` is the column-less `pd.DataFrame()` its exception handler returns.
   */
  datatype Download = Frame(bars: seq<Bar>) | Blank

  /** `Blank` has no `Close` column; the model reads it as a download without bars. */
  function BarsOf(dl: Download): seq<Bar>
  {
    match dl
    case Frame(bars) => bars
    case Blank => []
  }

  /** A notice handed to the webhook. */
  datatype Notice = NoSignal | Alert(signal: SignalResult)

  /** The daily and weekly frames of one ticker. */
  function DailyFrame(t: string, fetch: (string, Interval) -> Download): seq<Row>
  {
    CalculateIndicators(BarsOf(fetch(t, Daily)))
  }

  function WeeklyFrame(t: string, fetch: (string, Interval) -> Download): seq<Row>
  {
    CalculateIndicators(BarsOf(fetch(t, Weekly)))
  }

  /** One pass of the ticker loop: skip an empty frame, otherwise apply the rule. */
  function ScanTicker(t: string, fetch: (string, Interval) -> Download): (r: Option<SignalResult>)
    ensures r.Some? <==>
              |DailyFrame(t, fetch)| > 0 && |WeeklyFrame(t, fetch)| > 0 &&
              StochGate(DailyFrame(t, fetch)[|DailyFrame(t, fetch)| - 1])
    ensures r.Some? ==> r.value.ticker == t && 0.0 <= r.value.d < r.value.k < Oversold
    ensures |DailyFrame(t, fetch)| > 0 && |WeeklyFrame(t, fetch)| > 0 ==>
              r == CheckSignals(DailyFrame(t, fetch), WeeklyFrame(t, fetch), t)
  {
    var day := DailyFrame(t, fetch);
    var week := WeeklyFrame(t, fetch);
    if |day| == 0 || |week| == 0 then None
    else
      GatedRowBounds(BarsOf(fetch(t, Daily)));
      CheckSignals(day, week, t)
  }

  function AsSeq<T>(o: Option<T>): seq<T>
  {
    match o
    case Some(v) => [v]
    case None => []
  }

  /** The per-ticker step of a run over the download `fetch`. */
  function Scanner(fetch: (string, Interval) -> Download): string -> Option<SignalResult>
  {
    t => ScanTicker(t, fetch)
  }

  /** The messages a ticker loop with step `scan` collects, in ticker order. */
  function Collect<T>(tickers: seq<T>, scan: T -> Option<SignalResult>): (ms: seq<SignalResult>)
    ensures |ms| <= |tickers|
  {
    if tickers == [] then []
    else
      var n := |tickers| - 1;
      Collect(tickers[..n], scan) + AsSeq(scan(tickers[n]))
  }

  /** One pass of the loop body: compute both frames, skip an empty one, apply the rule. */
  method ScanOne(ticker: string, fetch: (string, Interval) -> Download)
    returns (message: Option<SignalResult>)
    ensures message == ScanTicker(ticker, fetch)
  {
    var day := CalculateIndicators(BarsOf(fetch(ticker, Daily)));
    var week := CalculateIndicators(BarsOf(fetch(ticker, Weekly)));
    if |day| == 0 || |week| == 0 {
      return None;
    }
    message := CheckSignals(day, week, ticker);
  }

  /** The ticker loop: keep the message of every ticker whose step yields one. */
  method CollectSignals(tickers: seq<string>, fetch: (string, Interval) -> Download)
    returns (messages: seq<SignalResult>)
    ensures messages == Collect(tickers, Scanner(fetch))
  {
    messages := [];
    for i := 0 to |tickers|
      invariant messages == Collect(tickers[..i], Scanner(fetch))
    {
      var message := ScanOne(tickers[i], fetch);
      CollectStep(tickers, i, Scanner(fetch));
      if message.Some? {
        messages := messages + [message.value];
      }
    }
    assert tickers[..|tickers|] == tickers;
  }

  /** Extending a scanned prefix by one ticker adds what that ticker's step yields. */
  lemma CollectStep<T>(ts: seq<T>, i: nat, scan: T -> Option<SignalResult>)
    requires i < |ts|
    ensures Collect(ts[..i + 1], scan) == Collect(ts[..i], scan) + AsSeq(scan(ts[i]))
  {
    assert ts[..i + 1][..i] == ts[..i];
  }

  /** Scanning two ticker lists one after the other collects both lists' messages in turn. */
  lemma {:induction false} CollectAppend<T>(ts1: seq<T>, ts2: seq<T>,
                                            scan: T -> Option<SignalResult>)
    ensures Collect(ts1 + ts2, scan) == Collect(ts1, scan) + Collect(ts2, scan)
  {
    if ts2 == [] {
      assert ts1 + ts2 == ts1;
    } else {
      var n := |ts2| - 1;
      var init, last := ts2[..n], AsSeq(scan(ts2[n]));
      var all := ts1 + ts2;
      assert all[..|all| - 1] == ts1 + init;
      assert all[|all| - 1] == ts2[n];
      assert Collect(all, scan) == Collect(ts1 + init, scan) + last;
      assert Collect(ts2, scan) == Collect(init, scan) + last;
      CollectAppend(ts1, init, scan);
      assert Collect(ts1 + init, scan) == Collect(ts1, scan) + Collect(init, scan);
    }
  }

  /** A message is collected exactly when some ticker of the list produced it. */
  lemma {:induction false} CollectMembers<T>(tickers: seq<T>, scan: T -> Option<SignalResult>,
                                             m: SignalResult)
    ensures m in Collect(tickers, scan) <==>
              exists j :: 0 <= j < |tickers| && scan(tickers[j]) == Some(m)
  {
    if tickers != [] {
      var n := |tickers| - 1;
      var init := tickers[..n];
      var tail := AsSeq(scan(tickers[n]));
      assert Collect(tickers, scan) == Collect(init, scan) + tail;
      assert m in tail <==> scan(tickers[n]) == Some(m);
      CollectMembers(init, scan, m);
      if m in Collect(init, scan) {
        var j :| 0 <= j < n && scan(init[j]) == Some(m);
        assert scan(tickers[j]) == Some(m);
      }
      if exists j :: 0 <= j < n && scan(tickers[j]) == Some(m) {
        var j :| 0 <= j < n && scan(tickers[j]) == Some(m);
        assert scan(init[j]) == Some(m);
      }
    }
  }

  /** A flat daily close series never signals: its %K and %D are never defined. */
  lemma FlatSeriesNoSignal(t: string, fetch: (string, Interval) -> Download)
    requires forall i :: 0 <= i < |BarsOf(fetch(t, Daily))| ==>
               BarsOf(fetch(t, Daily))[i].close == BarsOf(fetch(t, Daily))[0].close
    ensures ScanTicker(t, fetch).None?
  {
    ConstantSeriesNoRows(BarsOf(fetch(t, Daily)));
  }

  /** Scanning one ticker collects what its step yields. */
  lemma CollectOne<T>(t: T, scan: T -> Option<SignalResult>)
    ensures Collect([t], scan) == AsSeq(scan(t))
  {
    assert [t][..0] == [];
  }

  /** A ticker whose step yields nothing can be dropped from the list without changing what
      the loop collects. */
  lemma CollectSkips<T>(pre: seq<T>, t: T, post: seq<T>, scan: T -> Option<SignalResult>)
    requires scan(t).None?
    ensures Collect(pre + [t] + post, scan) == Collect(pre + post, scan)
  {
    CollectAppend(pre + [t], post, scan);
    CollectAppend(pre, [t], scan);
    CollectOne(t, scan);
    assert Collect(pre + [t], scan) == Collect(pre, scan);
    CollectAppend(pre, post, scan);
  }

  /** A ticker whose daily download failed is skipped and the run goes on with the others. */
  lemma BlankDownloadSkipped(pre: seq<string>, t: string, post: seq<string>,
                             fetch: (string, Interval) -> Download)
    requires fetch(t, Daily) == Blank
    ensures Collect(pre + [t] + post, Scanner(fetch)) == Collect(pre + post, Scanner(fetch))
  {
    assert Scanner(fetch)(t) == ScanTicker(t, fetch);
    CollectSkips(pre, t, post, Scanner(fetch));
  }

  /** What the final branch sends for the collected messages. */
  function Notices(messages: seq<SignalResult>): (ns: seq<Notice>)
    ensures |ns| == if messages == [] then 1 else |messages|
    ensures NoSignal in ns <==> messages == []
    ensures messages != [] ==> forall i :: 0 <= i < |messages| ==> ns[i] == Alert(messages[i])
  {
    if messages == [] then [NoSignal]
    else seq(|messages|, i requires 0 <= i < |messages| => Alert(messages[i]))
  }

  /** Every alert sent carries one of the collected messages. */
  lemma AlertsAreMessages(messages: seq<SignalResult>, n: Notice)
    requires n in Notices(messages) && n.Alert?
    ensures n.signal in messages
  {
    var i :| 0 <= i < |Notices(messages)| && Notices(messages)[i] == n;
    assert n.signal == messages[i];
  }

  /** A collected message names a scanned ticker whose %K and %D are oversold, %K above %D. */
  lemma CollectedSound(tickers: seq<string>, fetch: (string, Interval) -> Download, m: SignalResult)
    requires m in Collect(tickers, Scanner(fetch))
    ensures m.ticker in tickers && 0.0 <= m.d < m.k < Oversold
  {
    CollectMembers(tickers, Scanner(fetch), m);
    var j :| 0 <= j < |tickers| && Scanner(fetch)(tickers[j]) == Some(m);
    assert ScanTicker(tickers[j], fetch) == Some(m);
  }

  /** Every alert of a run names a scanned ticker whose %K and %D are oversold, %K above %D. */
  lemma RunAlertsSound(tickers: seq<string>, fetch: (string, Interval) -> Download)
    ensures forall n :: n in Notices(Collect(tickers, Scanner(fetch))) && n.Alert? ==>
              n.signal.ticker in tickers && 0.0 <= n.signal.d < n.signal.k < Oversold
  {
    var ms := Collect(tickers, Scanner(fetch));
    forall n | n in Notices(ms) && n.Alert?
      ensures n.signal.ticker in tickers && 0.0 <= n.signal.d < n.signal.k < Oversold
    {
      AlertsAreMessages(ms, n);
      CollectedSound(tickers, fetch, n.signal);
    }
  }

  /** The chat webhook: `sent` records every notice handed to it, in order. */
  class Webhook {
    ghost var sent: seq<Notice>

    constructor ()
      ensures sent == []
    {
      sent := [];
    }

    /** `send_to_discord`: one delivery attempt. */
    method Send(n: Notice)
      modifies this
      ensures sent == old(sent) + [n]
    {
      sent := sent + [n];
    }
  }

  /** The final branch of `main`: one "no signal" notice, or one notice per message in order. */
  method Deliver(messages: seq<SignalResult>, hook: Webhook)
    modifies hook
    ensures hook.sent == old(hook.sent) + Notices(messages)
  {
    ghost var notices := Notices(messages);
    if messages == [] {
      hook.Send(NoSignal);
    } else {
      for i := 0 to |messages|
        invariant hook.sent == old(hook.sent) + notices[..i]
      {
        hook.Send(Alert(messages[i]));
        assert notices[..i + 1] == notices[..i] + [Alert(messages[i])];
      }
      assert notices[..|messages|] == notices;
    }
  }

  /** `main`, with the ticker list and the download as parameters. */
  method Run(tickers: seq<string>, fetch: (string, Interval) -> Download, hook: Webhook)
    modifies hook
    ensures hook.sent == old(hook.sent) + Notices(Collect(tickers, Scanner(fetch)))
  {
    var messages := CollectSignals(tickers, fetch);
    Deliver(messages, hook);
  }

  // The download failure path as the source has it.

  /** The exception `calculate_indicators` raises. */
  datatype Error = KeyError(column: string)

  /** `calculate_indicators` on what `fetch_data` returns: `df['Close']` raises on `Blank`. */
  function CalculateIndicatorsAsWritten(dl: Download): (r: Result<seq<Row>, Error>)
    ensures r.Failure? <==> dl == Blank
  {
    match dl
    case Blank => Failure(KeyError("Close"))
    case Frame(bars) => Success(CalculateIndicators(bars))
  }

  /** One pass of the ticker loop as written: a raised exception leaves `main`. */
  function ScanTickerAsWritten(t: string, fetch: (string, Interval) -> Download)
    : (r: Result<Option<SignalResult>, Error>)
    ensures r.Failure? <==> fetch(t, Daily) == Blank || fetch(t, Weekly) == Blank
    ensures r.Success? ==> r.value == ScanTicker(t, fetch)
  {
    var day := CalculateIndicatorsAsWritten(fetch(t, Daily));
    if day.Failure? then Failure(day.error)
    else
      var week := CalculateIndicatorsAsWritten(fetch(t, Weekly));
      if week.Failure? then Failure(week.error)
      else if |day.value| == 0 || |week.value| == 0 then Success(None)
      else Success(CheckSignals(day.value, week.value, t))
  }

  /** The ticker loop as written, with step `scan`: the first exception ends the run before
      anything is sent. */
  function CollectAsWritten<T>(tickers: seq<T>, scan: T -> Result<Option<SignalResult>, Error>)
    : (r: Result<seq<SignalResult>, Error>)
    ensures r.Success? ==> |r.value| <= |tickers|
    ensures r.Failure? ==> exists j :: 0 <= j < |tickers| && scan(tickers[j]) == Failure(r.error)
  {
    if tickers == [] then Success([])
    else
      var n := |tickers| - 1;
      match CollectAsWritten(tickers[..n], scan)
      case Failure(e) =>
        var j :| 0 <= j < n && scan(tickers[..n][j]) == Failure(e);
        assert tickers[..n][j] == tickers[j];
        Failure(e)
      case Success(ms) =>
        match scan(tickers[n])
        case Failure(e) => Failure(e)
        case Success(o) => Success(ms + AsSeq(o))
  }

  /** A loop whose step raises at some ticker fails; otherwise it collects what the loop with
      the non-raising step collects. */
  lemma {:induction false} CollectAsWrittenFails<T>(tickers: seq<T>,
                                                    raising: T -> Result<Option<SignalResult>, Error>,
                                                    scan: T -> Option<SignalResult>)
    requires forall t :: raising(t).Success? ==> raising(t).value == scan(t)
    ensures CollectAsWritten(tickers, raising).Failure? <==>
              exists j :: 0 <= j < |tickers| && raising(tickers[j]).Failure?
    ensures CollectAsWritten(tickers, raising).Success? ==>
              CollectAsWritten(tickers, raising).value == Collect(tickers, scan)
  {
    if tickers != [] {
      var n := |tickers| - 1;
      var init := tickers[..n];
      CollectAsWrittenFails(init, raising, scan);
      assert forall j :: 0 <= j < n ==> init[j] == tickers[j];
      if exists j :: 0 <= j < |tickers| && raising(tickers[j]).Failure? {
        var j :| 0 <= j < |tickers| && raising(tickers[j]).Failure?;
        if j < n {
          assert init[j] == tickers[j];
        }
      }
    }
  }

  /** The per-ticker step of `main` as written. */
  function ScannerAsWritten(fetch: (string, Interval) -> Download)
    : string -> Result<Option<SignalResult>, Error>
  {
    t => ScanTickerAsWritten(t, fetch)
  }

  /** As written, the run fails exactly when some download came back `Blank`; otherwise it
      collects what the corrected loop collects. */
  lemma AsWrittenFailsOnBlank(tickers: seq<string>, fetch: (string, Interval) -> Download)
    ensures CollectAsWritten(tickers, ScannerAsWritten(fetch)).Failure? <==>
              exists j :: 0 <= j < |tickers| &&
                (fetch(tickers[j], Daily) == Blank || fetch(tickers[j], Weekly) == Blank)
    ensures CollectAsWritten(tickers, ScannerAsWritten(fetch)).Success? ==>
              CollectAsWritten(tickers, ScannerAsWritten(fetch)).value == Collect(tickers, Scanner(fetch))
  {
    var raising := ScannerAsWritten(fetch);
    var scan := Scanner(fetch);
    forall t ensures raising(t).Success? ==> raising(t).value == scan(t) {
      assert raising(t) == ScanTickerAsWritten(t, fetch);
    }
    CollectAsWrittenFails(tickers, raising, scan);
    forall j | 0 <= j < |tickers|
      ensures raising(tickers[j]).Failure? <==>
                (fetch(tickers[j], Daily) == Blank || fetch(tickers[j], Weekly) == Blank)
    {
      assert raising(tickers[j]) == ScanTickerAsWritten(tickers[j], fetch);
    }
  }

  /** The discrepancy on one ticker: as written a failed daily download aborts the run, while
      the corrected loop just skips that ticker. */
  lemma BlankDownloadAborts(t: string, fetch: (string, Interval) -> Download)
    requires fetch(t, Daily) == Blank
    ensures CollectAsWritten([t], ScannerAsWritten(fetch)).Failure?
    ensures Collect([t], Scanner(fetch)) == []
  {
    assert [t][..0] == [];
    assert ScannerAsWritten(fetch)(t) == ScanTickerAsWritten(t, fetch);
    assert Scanner(fetch)(t) == ScanTicker(t, fetch);
  }
}
