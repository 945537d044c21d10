/** `get_stock_recommendation`: the latest indicator values of a price
    history, the signal scorer over them, and the verdict with its
    confidence level. */
module Recommendation {
  import opened Wrappers
  import opened Series
  import opened MovingAverages
  import RsiIndicator
  import MacdIndicator
  import opened SignalScorer

  datatype Verdict = Buy | Sell | Hold
  datatype Confidence = High | Moderate | Neutral
  datatype Decision = Decision(verdict: Verdict, confidence: Confidence)

  /** Window of the short trend average. */
  const ShortWindow: int := 50
  /** Window of the long trend average. */
  const LongWindow: int := 200
  /** Number of trailing bars whose volume is compared with the average. */
  const RecentBars: nat := 5

  /** A side wins only by a margin of at least two signals; four or more
      signals on the winning side make the confidence high. */
  function Resolve(buy: nat, sell: nat): (d: Decision)
    ensures d.verdict == Buy <==> buy > sell + 1
    ensures d.verdict == Sell <==> sell > buy + 1
    ensures d.verdict == Hold <==> -1 <= buy - sell <= 1
    ensures d.confidence == Neutral <==> d.verdict == Hold
    ensures d.confidence == High <==> (d.verdict == Buy && buy >= 4) || (d.verdict == Sell && sell >= 4)
  {
    if buy > sell + 1 then
      Decision(Buy, if buy >= 4 then High else Moderate)
    else if sell > buy + 1 then
      Decision(Sell, if sell >= 4 then High else Moderate)
    else
      Decision(Hold, Neutral)
  }

  /** The scorer's input, computed from a non-empty history: the last close,
      the last values of the 50- and 200-bar SMAs, of the RSI and of the
      MACD and signal lines, the mean of the last (up to) five volumes and
      the mean of all volumes. */
  function SnapshotOf(bars: seq<Bar>): (s: Snapshot)
    requires |bars| > 0
    ensures s.close == bars[|bars| - 1].close
    ensures s.sma50.None? <==> |bars| < ShortWindow
    ensures s.sma200.None? <==> |bars| < LongWindow
  {
    var x, v := Closes(bars), Volumes(bars);
    Snapshot(x[|x| - 1], LastSma(x, ShortWindow), LastSma(x, LongWindow),
             RsiIndicator.LatestRsi(x), MacdIndicator.LatestMacd(x), MacdIndicator.LatestSignal(x),
             TrailingMean(v, RecentBars), Mean(v))
  }

  /** The snapshot's averages are the latest 50- and 200-bar SMAs of the
      closes (see `LastSma` for their values). */
  lemma SnapshotAverages(bars: seq<Bar>)
    requires |bars| > 0
    ensures SnapshotOf(bars).sma50 == LastSma(Closes(bars), ShortWindow)
    ensures SnapshotOf(bars).sma200 == LastSma(Closes(bars), LongWindow)
  {
  }

  /** The result dictionary, without the chart and without rounding. */
  datatype Recommendation = Recommendation(
    ticker: string, verdict: Verdict, confidence: Confidence, currentPrice: real,
    rsi: Option<real>, buySignals: nat, sellSignals: nat, reasons: seq<Reason>)

  /** No bars is the "no data" error; otherwise the recommendation is the
      score of the history's snapshot resolved into a verdict. */
  method GetStockRecommendation(ticker: string, bars: seq<Bar>) returns (r: Result<Recommendation, Error>)
    ensures r.Failure? <==> |bars| == 0
    ensures r.Failure? ==> r.error == NoData
    ensures r.Success? ==>
              var s := SnapshotOf(bars);
              var st := Score(s);
              var d := Resolve(st.buySignals, st.sellSignals);
              && r.value == Recommendation(ticker, d.verdict, d.confidence, s.close, s.rsi,
                                           st.buySignals, st.sellSignals, st.reasons)
              && 2 <= r.value.buySignals + r.value.sellSignals <= 5
              && 2 <= |r.value.reasons| <= 4
  {
    if |bars| == 0 {
      return Failure(NoData);
    }
    var s := SnapshotOf(bars);
    var buySignals, sellSignals, reasons := ScoreSignals(s);
    ScoreCounts(s);
    var d := Resolve(buySignals, sellSignals);
    r := Success(Recommendation(ticker, d.verdict, d.confidence, s.close, s.rsi,
                                buySignals, sellSignals, reasons));
  }

  /** High confidence needs the RSI rule to have fired and a two-signal rule
      (a strong trend or an extreme RSI) on the winning side: without them
      a side collects at most three signals. */
  lemma HighConfidenceNeedsStrongRule(s: Snapshot)
    ensures var st := Score(s);
      var d := Resolve(st.buySignals, st.sellSignals);
      && (d.confidence == High ==> !RsiDeadZone(s.rsi))
      && (d.confidence == High && d.verdict == Buy ==>
            StrongUp(s) || (s.rsi.Some? && s.rsi.value < 30.0))
      && (d.confidence == High && d.verdict == Sell ==>
            StrongDown(s) || (s.rsi.Some? && s.rsi.value > 70.0))
  {
    TrendRuleTable(s);
    RsiRuleTable(s.rsi);
  }

  /** With fewer than 50 bars there is no SMA50, so the trend rule always
      gives one sell signal with the "below SMA50" reason. */
  lemma ShortHistoryTrend(bars: seq<Bar>)
    requires 0 < |bars| < ShortWindow
    ensures TrendRule(SnapshotOf(bars)) == Effect(0, 1, Some(Trend(BelowSma50)))
    ensures Score(SnapshotOf(bars)).reasons[0] == Trend(BelowSma50)
  {
    TrendWithoutLongAverages(SnapshotOf(bars));
  }

  /** Opposite extremes cancel: a strong trend one way with the RSI at the
      opposite extreme gives two signals each way, and the single MACD
      signal cannot open a two-signal margin, so the verdict is a neutral
      HOLD. */
  lemma ConflictingExtremesHold(s: Snapshot)
    requires (StrongUp(s) && s.rsi.Some? && s.rsi.value > 70.0)
          || (StrongDown(s) && s.rsi.Some? && s.rsi.value < 30.0)
    ensures Resolve(Score(s).buySignals, Score(s).sellSignals) == Decision(Hold, Neutral)
    ensures Score(s).reasons[0] == Trend(if StrongUp(s) then StrongUptrend else StrongDowntrend)
    ensures Score(s).reasons[1] == Rsi(if StrongUp(s) then Overbought else Oversold, s.rsi.value)
  {
  }

  /** Below (or at) the SMA50 without a strong downtrend, a silent RSI and a
      MACD not above its signal: two sell signals, a moderate SELL. */
  lemma WeakBearishSells(s: Snapshot)
    requires !Gt(Some(s.close), s.sma50) && !StrongDown(s)
    requires RsiDeadZone(s.rsi) && s.macd <= s.signal
    ensures Score(s).buySignals == 0 && Score(s).sellSignals == 2
    ensures Score(s).reasons[0] == Trend(BelowSma50) && Score(s).reasons[1] == Macd(false)
    ensures Resolve(Score(s).buySignals, Score(s).sellSignals) == Decision(Sell, Moderate)
  {
    RsiRuleTable(s.rsi);
  }

  /** A history whose close never changes: the close equals both SMAs (so
      "below SMA50"), the RSI is undefined (so silent), and MACD equals its
      signal at zero (so bearish): two sell signals and a moderate SELL. */
  lemma ConstantPricesSell(bars: seq<Bar>, c: real)
    requires |bars| > 0
    requires forall i :: 0 <= i < |bars| ==> bars[i].close == c
    ensures SnapshotOf(bars).rsi.None?
    ensures var st := Score(SnapshotOf(bars));
      && st.buySignals == 0 && st.sellSignals == 2
      && st.reasons[0] == Trend(BelowSma50) && st.reasons[1] == Macd(false)
      && Resolve(st.buySignals, st.sellSignals) == Decision(Sell, Moderate)
  {
    ConstantSnapshot(bars, c);
    WeakBearishSells(SnapshotOf(bars));
  }

  /** The indicators of a constant close column: both SMAs are the
      constant once defined, the RSI is undefined, and MACD equals its
      signal. */
  lemma ConstantIndicators(x: seq<real>, c: real)
    requires |x| > 0
    requires forall i :: 0 <= i < |x| ==> x[i] == c
    ensures LastSma(x, ShortWindow) == if |x| < ShortWindow then None else Some(c)
    ensures LastSma(x, LongWindow) == if |x| < LongWindow then None else Some(c)
    ensures RsiIndicator.LatestRsi(x).None?
    ensures MacdIndicator.MacdOf(x).macd[|x| - 1] == MacdIndicator.MacdOf(x).signal[|x| - 1]
  {
    var n := |x|;
    if n >= ShortWindow {
      MeanConstant(Tail(x, ShortWindow), c);
    }
    if n >= LongWindow {
      MeanConstant(Tail(x, LongWindow), c);
    }
    RsiIndicator.RsiUndefinedIffFlat(x, n - 1);
    MacdIndicator.MacdOfConstant(x, c);
  }

  /** The snapshot of a constant history: the close is not above the SMA50,
      no strong downtrend, no RSI, and MACD equal to its signal. */
  lemma ConstantSnapshot(bars: seq<Bar>, c: real)
    requires |bars| > 0
    requires forall i :: 0 <= i < |bars| ==> bars[i].close == c
    ensures var s := SnapshotOf(bars);
      && !Gt(Some(s.close), s.sma50) && !StrongDown(s) && s.rsi.None? && s.macd == s.signal
  {
    ConstantIndicators(Closes(bars), c);
  }

  /** A history whose (non-negative) volume never changes has its recent
      mean equal to its overall mean, so rule 4 never reports high volume. */
  lemma SteadyVolumeNeverHigh(bars: seq<Bar>, c: real)
    requires |bars| > 0 && c >= 0.0
    requires forall i :: 0 <= i < |bars| ==> bars[i].volume == c
    ensures var s := SnapshotOf(bars);
      s.recentVolume == s.avgVolume == c
      && VolumeRule(s.recentVolume, s.avgVolume).reason.None?
  {
    var v := Volumes(bars);
    TrailingMeanConstant(v, RecentBars, c);
    MeanConstant(v, c);
  }

  /** In a strictly rising close column of at least 200 bars the last close
      is above the SMA50, which is above the SMA200. */
  lemma RisingAverages(x: seq<real>)
    requires |x| >= LongWindow
    requires StrictlyRising(x)
    ensures Gt(Some(x[|x| - 1]), LastSma(x, ShortWindow))
    ensures Gt(LastSma(x, ShortWindow), LastSma(x, LongWindow))
  {
    RisingCloseAboveSma(x, ShortWindow);
    RisingShortSmaAboveLong(x, ShortWindow, LongWindow);
  }

  /** In a strictly rising history of at least 200 bars the close is above
      the SMA50, which is above the SMA200. */
  lemma RisingPricesStrongUptrend(bars: seq<Bar>)
    requires |bars| >= LongWindow
    requires StrictlyRising(Closes(bars))
    ensures StrongUp(SnapshotOf(bars))
  {
    RisingAverages(Closes(bars));
  }

  /** In a strictly rising history of two or more bars the smoothed loss is
      zero and the smoothed gain positive, so the RSI is exactly 100. */
  lemma RisingPricesRsiHundred(bars: seq<Bar>)
    requires |bars| >= 2
    requires StrictlyRising(Closes(bars))
    ensures SnapshotOf(bars).rsi == Some(100.0)
  {
    var x, n := Closes(bars), |bars|;
    assert RsiIndicator.NeverFalls(x, n - 1) by {
      forall j | 0 < j <= n - 1 ensures !Fell(x, j) {
        assert Rose(x, j);
      }
    }
    assert !RsiIndicator.NeverRises(x, n - 1) by {
      assert Rose(x, 1);
    }
    RsiIndicator.RsiHundredIffNoFall(x, n - 1);
  }

  /** A strictly rising history of at least 200 bars: a strong uptrend (two
      buy signals) but an RSI of exactly 100, overbought (two sell signals),
      so the verdict is a neutral HOLD. */
  lemma RisingPricesHold(bars: seq<Bar>)
    requires |bars| >= LongWindow
    requires StrictlyRising(Closes(bars))
    ensures var st := Score(SnapshotOf(bars));
      && |st.reasons| >= 2
      && st.reasons[0] == Trend(StrongUptrend) && st.reasons[1] == Rsi(Overbought, 100.0)
      && Resolve(st.buySignals, st.sellSignals) == Decision(Hold, Neutral)
  {
    RisingPricesStrongUptrend(bars);
    RisingPricesRsiHundred(bars);
    ConflictingExtremesHold(SnapshotOf(bars));
  }
}
