/** The relative strength index: bar-to-bar change, split into gains and
    losses, each smoothed by an EMA with centre of mass 13 (a 14-period
    Wilder average), then RSI = 100 − 100/(1 + gain/loss). */
module RsiIndicator {
  import opened Wrappers
  import opened Series
  import opened MovingAverages

  /** The RSI period; pandas is given `com = Period − 1`. */
  const Period: int := 14

  /** The smoothing factor of both averages: 1/14. */
  function RsiAlpha(): (a: Alpha)
    ensures a == 1.0 / 14.0 && a < 1.0
  {
    ComAlpha(Period - 1)
  }

  /** `diff()` followed by `clip(lower = 0)`, from index 1 on (index 0 of
      `diff` is NaN): entry j is the rise of bar j+1 over bar j. */
  function Gains(x: seq<real>): (g: seq<real>)
    ensures |g| == if |x| == 0 then 0 else |x| - 1
    ensures forall j :: 0 <= j < |g| ==> g[j] >= 0.0 && g[j] >= x[j + 1] - x[j]
  {
    if |x| == 0 then
      []
    else
      seq(|x| - 1, j requires 0 <= j < |x| - 1 =>
        if x[j + 1] - x[j] > 0.0 then x[j + 1] - x[j] else 0.0)
  }

  /** `-1 * diff().clip(upper = 0)`, from index 1 on: entry j is the fall of
      bar j+1 below bar j. */
  function Losses(x: seq<real>): (l: seq<real>)
    ensures |l| == |Gains(x)|
    ensures forall j :: 0 <= j < |l| ==> l[j] >= 0.0 && l[j] >= x[j] - x[j + 1]
  {
    if |x| == 0 then
      []
    else
      seq(|x| - 1, j requires 0 <= j < |x| - 1 =>
        if x[j + 1] - x[j] < 0.0 then x[j] - x[j + 1] else 0.0)
  }

  /** Clipping splits every change exactly: gain − loss is the change, and at
      most one of the two is non-zero. */
  lemma ClipSplit(x: seq<real>, j: nat)
    requires j + 1 < |x|
    ensures Gains(x)[j] - Losses(x)[j] == x[j + 1] - x[j]
    ensures Gains(x)[j] == 0.0 || Losses(x)[j] == 0.0
    ensures Gains(x)[j] == 0.0 && Losses(x)[j] == 0.0 <==> x[j + 1] == x[j]
  {
  }

  /** `up.ewm(com = 13, adjust = False).mean()`, seeded at bar 1. */
  function SmoothedGains(x: seq<real>): (s: seq<real>)
    ensures |s| == |Gains(x)|
    ensures forall j :: 0 <= j < |s| ==> s[j] >= 0.0
  {
    var g := Gains(x);
    EmaWithin(g, RsiAlpha(), 0.0, MaxOf(g));
    Ema(g, RsiAlpha())
  }

  /** `down.ewm(com = 13, adjust = False).mean()`, seeded at bar 1. */
  function SmoothedLosses(x: seq<real>): (s: seq<real>)
    ensures |s| == |Losses(x)|
    ensures forall j :: 0 <= j < |s| ==> s[j] >= 0.0
  {
    var l := Losses(x);
    EmaWithin(l, RsiAlpha(), 0.0, MaxOf(l));
    Ema(l, RsiAlpha())
  }

  /** 100 − 100/(1 + gain/loss) with the float degeneracies made explicit:
      a zero loss with a positive gain makes the ratio +∞ and the RSI 100;
      zero over zero is NaN (`None`). */
  function RsiValue(gain: real, loss: real): (r: Option<real>)
    requires gain >= 0.0 && loss >= 0.0
    ensures r.None? <==> gain == 0.0 && loss == 0.0
    ensures loss > 0.0 ==> r.Some? && 0.0 <= r.value < 100.0
    ensures r == Some(100.0) <==> loss == 0.0 && gain > 0.0
  {
    if loss > 0.0 then
      var rs := gain / loss;
      RatioIdentity(gain, loss);
      Some(100.0 - 100.0 / (1.0 + rs))
    else if gain > 0.0 then
      Some(100.0)
    else
      None
  }

  /** The source's form 100 − 100/(1 + gain/loss) equals 100·gain/(gain + loss). */
  lemma RatioIdentity(gain: real, loss: real)
    requires gain >= 0.0 && loss > 0.0
    ensures 100.0 - 100.0 / (1.0 + gain / loss) == 100.0 * gain / (gain + loss)
    ensures 0.0 <= 100.0 * gain / (gain + loss) < 100.0
  {
    var s := gain + loss;
    var rs := gain / loss;
    assert rs * loss == gain;
    var u := 1.0 + rs;
    assert u * loss == s;
    var w := 100.0 / u;
    assert w * u == 100.0;
    assert w * s == 100.0 * loss by {
      calc {
        w * s;
        w * (u * loss);
        (w * u) * loss;
        100.0 * loss;
      }
    }
    var t := 100.0 * gain / s;
    assert t * s == 100.0 * gain;
    assert (100.0 - w) * s == 100.0 * gain;
    Cancel(100.0 - w, t, s);
    assert t < 100.0 by {
      assert 100.0 * gain < 100.0 * s;
    }
  }

  /** Whenever it is defined the RSI is the gain's share of the total
      movement, 100·gain/(gain + loss), the infinite ratio included. */
  lemma RsiValueIsShare(gain: real, loss: real)
    requires gain >= 0.0 && loss >= 0.0 && gain + loss > 0.0
    ensures RsiValue(gain, loss) == Some(100.0 * gain / (gain + loss))
  {
    if loss > 0.0 {
      RatioIdentity(gain, loss);
    } else {
      assert 100.0 * gain / gain == 100.0;
    }
  }

  lemma Cancel(p: real, q: real, s: real)
    requires s > 0.0 && p * s == q * s
    ensures p == q
  {
    assert (p - q) * s == 0.0;
  }

  /** The RSI of bar i: undefined at bar 0, after that the RSI of the
      smoothed gain and loss up to that bar. */
  function RsiAt(x: seq<real>, i: nat): (r: Option<real>)
    requires i < |x|
    ensures r.Some? ==> 0.0 <= r.value <= 100.0
  {
    if i == 0 then None else RsiValue(SmoothedGains(x)[i - 1], SmoothedLosses(x)[i - 1])
  }

  /** The RSI column of `calculate_RSI`. */
  function RsiSeries(x: seq<real>): (r: seq<Option<real>>)
    ensures |r| == |x|
    ensures |x| > 0 ==> r[0] == None
    ensures forall i :: 0 <= i < |r| ==> r[i] == RsiAt(x, i)
  {
    seq(|x|, i requires 0 <= i < |x| => RsiAt(x, i))
  }

  /** The close never fell between bar 0 and bar i. */
  predicate NeverFalls(x: seq<real>, i: nat)
    requires i < |x|
  {
    forall j :: 0 < j <= i ==> !Fell(x, j)
  }

  /** The close never rose between bar 0 and bar i. */
  predicate NeverRises(x: seq<real>, i: nat)
    requires i < |x|
  {
    forall j :: 0 < j <= i ==> !Rose(x, j)
  }

  /** The losses of the first i bars are all zero exactly when the close
      never fell up to bar i. */
  lemma LossesZeroIff(x: seq<real>, i: nat)
    requires 1 <= i < |x|
    ensures (forall j :: 0 <= j <= i - 1 ==> Losses(x)[j] == 0.0) <==> NeverFalls(x, i)
  {
    var l := Losses(x);
    if NeverFalls(x, i) {
      forall j | 0 <= j <= i - 1 ensures l[j] == 0.0 {
        assert !Fell(x, j + 1);
      }
    } else {
      var j :| 0 < j <= i && Fell(x, j);
      assert l[j - 1] > 0.0;
    }
  }

  /** The gains of the first i bars are all zero exactly when the close
      never rose up to bar i. */
  lemma GainsZeroIff(x: seq<real>, i: nat)
    requires 1 <= i < |x|
    ensures (forall j :: 0 <= j <= i - 1 ==> Gains(x)[j] == 0.0) <==> NeverRises(x, i)
  {
    var g := Gains(x);
    if NeverRises(x, i) {
      forall j | 0 <= j <= i - 1 ensures g[j] == 0.0 {
        assert !Rose(x, j + 1);
      }
    } else {
      var j :| 0 < j <= i && Rose(x, j);
      assert g[j - 1] > 0.0;
    }
  }

  /** The smoothed loss of bar i is zero exactly when the close never fell
      up to bar i. */
  lemma SmoothedLossZeroIff(x: seq<real>, i: nat)
    requires 1 <= i < |x|
    ensures SmoothedLosses(x)[i - 1] == 0.0 <==> NeverFalls(x, i)
  {
    var l := Losses(x);
    assert SmoothedLosses(x) == Ema(l, RsiAlpha());
    EmaZeroIff(l, RsiAlpha(), i - 1);
    LossesZeroIff(x, i);
  }

  /** The smoothed gain of bar i is zero exactly when the close never rose
      up to bar i. */
  lemma SmoothedGainZeroIff(x: seq<real>, i: nat)
    requires 1 <= i < |x|
    ensures SmoothedGains(x)[i - 1] == 0.0 <==> NeverRises(x, i)
  {
    var g := Gains(x);
    assert SmoothedGains(x) == Ema(g, RsiAlpha());
    EmaZeroIff(g, RsiAlpha(), i - 1);
    GainsZeroIff(x, i);
  }

  /** The flat-run degeneracy: the RSI at bar i is undefined exactly when
      i = 0 or the close did not change at all up to bar i. */
  lemma RsiUndefinedIffFlat(x: seq<real>, i: nat)
    requires i < |x|
    ensures RsiAt(x, i).None? <==> NeverFalls(x, i) && NeverRises(x, i)
  {
    if i > 0 {
      SmoothedLossZeroIff(x, i);
      SmoothedGainZeroIff(x, i);
    }
  }

  /** The RSI at bar i is 100 exactly when the close never fell and rose at
      least once up to bar i (an infinite gain/loss ratio). */
  lemma RsiHundredIffNoFall(x: seq<real>, i: nat)
    requires i < |x|
    ensures RsiAt(x, i) == Some(100.0) <==> NeverFalls(x, i) && !NeverRises(x, i)
  {
    if i > 0 {
      SmoothedLossZeroIff(x, i);
      SmoothedGainZeroIff(x, i);
    }
  }

  /** Once the close has fallen at least once up to bar i, the RSI there is
      defined and strictly below 100. */
  lemma RsiBelowHundredAfterFall(x: seq<real>, i: nat)
    requires i < |x| && !NeverFalls(x, i)
    ensures RsiAt(x, i).Some? && 0.0 <= RsiAt(x, i).value < 100.0
  {
    SmoothedLossZeroIff(x, i);
  }

  /** The latest RSI, as `get_stock_recommendation` computes it from the last
      gain/loss ratio. */
  function LatestRsi(x: seq<real>): Option<real>
    requires |x| > 0
  {
    RsiAt(x, |x| - 1)
  }

  /** `calculate_RSI`: the latest value and the whole column. */
  datatype RsiReport = RsiReport(latest: Option<real>, series: seq<Option<real>>)

  function CalculateRsi(closes: seq<real>): (r: Result<RsiReport, Error>)
    ensures r.Failure? <==> |closes| == 0
    ensures r.Failure? ==> r.error == NoData
    ensures r.Success? ==>
              && |r.value.series| == |closes|
              && r.value.series == RsiSeries(closes)
              && r.value.latest == r.value.series[|closes| - 1]
              && r.value.latest == LatestRsi(closes)
  {
    if |closes| == 0 then Failure(NoData)
    else
      var s := RsiSeries(closes);
      Success(RsiReport(s[|closes| - 1], s))
  }
}
