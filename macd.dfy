/** Moving average convergence/divergence: the 12-span EMA minus the 26-span
    EMA, its 9-span EMA as signal line, and their difference as histogram. */
module MacdIndicator {
  import opened Wrappers
  import opened MovingAverages

  const FastSpan: int := 12
  const SlowSpan: int := 26
  const SignalSpan: int := 9

  /** The three aligned MACD columns. */
  datatype MacdLines = MacdLines(macd: seq<real>, signal: seq<real>, histogram: seq<real>)

  /** The MACD line, `ewm(span=12) − ewm(span=26)` of the closes. */
  function MacdLine(x: seq<real>): (m: seq<real>)
    ensures |m| == |x|
  {
    Minus(Ema(x, SpanAlpha(FastSpan)), Ema(x, SpanAlpha(SlowSpan)))
  }

  /** The signal line, `ewm(span=9)` of the MACD line. */
  function SignalLine(x: seq<real>): (s: seq<real>)
    ensures |s| == |x|
  {
    Ema(MacdLine(x), SpanAlpha(SignalSpan))
  }

  /** All three columns; the histogram is MACD − signal at every index. */
  function MacdOf(x: seq<real>): (r: MacdLines)
    ensures |r.macd| == |r.signal| == |r.histogram| == |x|
    ensures forall i :: 0 <= i < |x| ==> r.histogram[i] == r.macd[i] - r.signal[i]
  {
    var m := MacdLine(x);
    var s := SignalLine(x);
    MacdLines(m, s, Minus(m, s))
  }

  /** All three lines start at zero: both EMAs and the signal are seeded
      with their first input. */
  lemma MacdStartsAtZero(x: seq<real>)
    requires |x| > 0
    ensures MacdOf(x).macd[0] == 0.0 && MacdOf(x).signal[0] == 0.0 && MacdOf(x).histogram[0] == 0.0
  {
  }

  /** The histogram is the MACD's excess over the PREVIOUS signal value,
      scaled by 1 − α₉ = 0.8; so MACD is above its signal at bar i exactly
      when it is above the signal of bar i − 1. */
  lemma HistogramFromPreviousSignal(x: seq<real>, i: nat)
    requires 0 < i < |x|
    ensures MacdOf(x).histogram[i] == 0.8 * (MacdOf(x).macd[i] - MacdOf(x).signal[i - 1])
    ensures MacdOf(x).macd[i] > MacdOf(x).signal[i] <==> MacdOf(x).macd[i] > MacdOf(x).signal[i - 1]
  {
    var m, s := MacdLine(x), SignalLine(x);
    var a := SpanAlpha(SignalSpan);
    assert a == 0.2;
    EmaStep(m, a, i);
    assert m[i] - s[i] == 0.8 * (m[i] - s[i - 1]);
  }

  /** A constant close column has all three lines at zero. */
  lemma MacdOfConstant(x: seq<real>, c: real)
    requires forall i :: 0 <= i < |x| ==> x[i] == c
    ensures forall i :: 0 <= i < |x| ==>
              MacdOf(x).macd[i] == 0.0 && MacdOf(x).signal[i] == 0.0 && MacdOf(x).histogram[i] == 0.0
  {
    EmaConstant(x, SpanAlpha(FastSpan), c);
    EmaConstant(x, SpanAlpha(SlowSpan), c);
    EmaConstant(MacdLine(x), SpanAlpha(SignalSpan), 0.0);
  }

  /** The latest MACD value, `ema_12.iloc[-1] - ema_26.iloc[-1]`. */
  function LatestMacd(x: seq<real>): real
    requires |x| > 0
  {
    MacdOf(x).macd[|x| - 1]
  }

  /** The latest signal value, `(ema_12 - ema_26).ewm(span=9).mean().iloc[-1]`. */
  function LatestSignal(x: seq<real>): real
    requires |x| > 0
  {
    MacdOf(x).signal[|x| - 1]
  }

  /** `calculate_MACD`: the latest MACD, signal and histogram values and the
      three aligned columns. */
  datatype MacdReport = MacdReport(macd: real, signal: real, histogram: real, lines: MacdLines)

  function CalculateMacd(closes: seq<real>): (r: Result<MacdReport, Error>)
    ensures r.Failure? <==> |closes| == 0
    ensures r.Failure? ==> r.error == NoData
    ensures r.Success? ==>
              var n := |closes|;
              && r.value.lines == MacdOf(closes)
              && r.value.macd == r.value.lines.macd[n - 1]
              && r.value.signal == r.value.lines.signal[n - 1]
              && r.value.histogram == r.value.macd - r.value.signal
  {
    if |closes| == 0 then Failure(NoData)
    else
      var l := MacdOf(closes);
      var n := |closes|;
      Success(MacdReport(l.macd[n - 1], l.signal[n - 1], l.histogram[n - 1], l))
  }
}
