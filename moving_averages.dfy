/** Simple and exponential moving averages over the close column:
    pandas' `rolling(window).mean()` and `ewm(adjust=False).mean()`. */
module MovingAverages {
  import opened Wrappers
  import opened Series

  /** A smoothing factor as pandas' `ewm` accepts it. */
  type Alpha = a: real | 0.0 < a <= 1.0 witness 1.0

  /** `ewm(span = s)`: α = 2/(s+1); pandas refuses a span below 1. */
  function SpanAlpha(span: int): (a: Alpha)
    requires span >= 1
    ensures a * ((span as real) + 1.0) == 2.0
  {
    2.0 / ((span as real) + 1.0)
  }

  /** `ewm(com = c)`: α = 1/(c+1); pandas refuses a negative centre of mass. */
  function ComAlpha(com: int): (a: Alpha)
    requires com >= 0
    ensures a * ((com as real) + 1.0) == 1.0
  {
    1.0 / ((com as real) + 1.0)
  }

  /** One smoothing step: a·u + (1−a)·v, the new input `u` weighted by the
      factor and the previous average `v` by its complement. */
  function Blend(a: Alpha, u: real, v: real): real
  {
    a * u + (1.0 - a) * v
  }

  lemma NonNegMul(p: real, q: real)
    requires p >= 0.0 && q >= 0.0
    ensures p * q >= 0.0
  {
  }

  lemma PosMul(p: real, q: real)
    requires p > 0.0 && q > 0.0
    ensures p * q > 0.0
  {
  }

  /** A step never leaves the range spanned by its two operands' bounds. */
  lemma BlendWithin(a: Alpha, u: real, v: real, lo: real, hi: real)
    requires lo <= u <= hi && lo <= v <= hi
    ensures lo <= Blend(a, u, v) <= hi
  {
    NonNegMul(a, u - lo);
    NonNegMul(1.0 - a, v - lo);
    assert Blend(a, u, v) - lo == a * (u - lo) + (1.0 - a) * (v - lo);
    NonNegMul(a, hi - u);
    NonNegMul(1.0 - a, hi - v);
    assert hi - Blend(a, u, v) == a * (hi - u) + (1.0 - a) * (hi - v);
  }

  /** With 0 < a < 1, a step over non-negative operands is zero exactly when
      both operands are; a positive new input makes it positive. */
  lemma BlendZero(a: Alpha, u: real, v: real)
    requires u >= 0.0 && v >= 0.0
    ensures u > 0.0 ==> Blend(a, u, v) > 0.0
    ensures a < 1.0 ==> (Blend(a, u, v) == 0.0 <==> u == 0.0 && v == 0.0)
  {
    NonNegMul(a, u);
    NonNegMul(1.0 - a, v);
    if u > 0.0 { PosMul(a, u); }
    if v > 0.0 && a < 1.0 { PosMul(1.0 - a, v); }
  }

  /** `ewm(alpha = a, adjust = False).mean()` over a column without NaN:
      seeded with the first value, then e[i] = a·x[i] + (1−a)·e[i−1]. */
  function Ema(x: seq<real>, a: Alpha): (e: seq<real>)
    ensures |e| == |x|
    ensures |x| > 0 ==> e[0] == x[0]
    ensures |x| > 1 ==> e[|x| - 1] == Blend(a, x[|x| - 1], e[|x| - 2])
    decreases |x|
  {
    if |x| == 0 then []
    else if |x| == 1 then [x[0]]
    else
      var p := Ema(x[..|x| - 1], a);
      p + [Blend(a, x[|x| - 1], p[|p| - 1])]
  }

  /** The pandas kernel behind `ewm(adjust = False).mean()`: one running
      weighted value, updated bar by bar and written to the output. */
  method EwmMean(x: seq<real>, a: Alpha) returns (e: seq<real>)
    ensures e == Ema(x, a)
  {
    if |x| == 0 {
      return [];
    }
    var weighted := x[0];
    e := [weighted];
    var i := 1;
    while i < |x|
      invariant 1 <= i <= |x|
      invariant e == Ema(x[..i], a)
      invariant weighted == e[i - 1]
    {
      weighted := Blend(a, x[i], weighted);
      assert x[..i + 1][..i] == x[..i];
      assert Ema(x[..i + 1], a) == Ema(x[..i], a) + [weighted];
      e := e + [weighted];
      i := i + 1;
    }
    assert x[..|x|] == x;
  }

  /** A prefix of the input has the matching prefix of the EMA as its EMA:
      each value only depends on the bars up to it. */
  lemma {:induction false} EmaPrefix(x: seq<real>, a: Alpha, k: nat)
    requires k <= |x|
    ensures Ema(x[..k], a) == Ema(x, a)[..k]
    decreases |x|
  {
    if k < |x| {
      assert x[..|x| - 1][..k] == x[..k];
      EmaPrefix(x[..|x| - 1], a, k);
    } else {
      assert x[..k] == x;
    }
  }

  /** The `adjust = False` recurrence at every bar after the first:
      e[i] = a·x[i] + (1−a)·e[i−1]. */
  lemma EmaStep(x: seq<real>, a: Alpha, i: nat)
    requires 0 < i < |x|
    ensures Ema(x, a)[i] == Blend(a, x[i], Ema(x, a)[i - 1])
  {
    EmaPrefix(x, a, i + 1);
    assert x[..i + 1][..i] == x[..i];
    EmaPrefix(x, a, i);
  }

  /** An EMA is a running convex combination: it never leaves the range of
      its inputs. */
  lemma {:induction false} EmaWithin(x: seq<real>, a: Alpha, lo: real, hi: real)
    requires forall i :: 0 <= i < |x| ==> lo <= x[i] <= hi
    ensures forall i :: 0 <= i < |x| ==> lo <= Ema(x, a)[i] <= hi
    decreases |x|
  {
    if |x| > 1 {
      var k := |x| - 1;
      EmaWithin(x[..k], a, lo, hi);
      EmaPrefix(x, a, k);
      var e := Ema(x, a);
      BlendWithin(a, x[k], e[k - 1], lo, hi);
    }
  }

  /** The EMA of a constant column is that constant. */
  lemma EmaConstant(x: seq<real>, a: Alpha, c: real)
    requires forall i :: 0 <= i < |x| ==> x[i] == c
    ensures forall i :: 0 <= i < |x| ==> Ema(x, a)[i] == c
  {
    EmaWithin(x, a, c, c);
  }

  /** With α < 1 the EMA of non-negative values is zero at index i exactly
      when every input up to i is zero: a single positive value keeps every
      later EMA value positive. */
  lemma {:induction false} EmaZeroIff(x: seq<real>, a: Alpha, i: nat)
    requires a < 1.0
    requires i < |x|
    requires forall j :: 0 <= j < |x| ==> x[j] >= 0.0
    ensures Ema(x, a)[i] == 0.0 <==> forall j :: 0 <= j <= i ==> x[j] == 0.0
  {
    if i > 0 {
      var e := Ema(x, a);
      EmaZeroIff(x, a, i - 1);
      EmaWithin(x, a, 0.0, MaxOf(x));
      EmaStep(x, a, i);
      BlendZero(a, x[i], e[i - 1]);
    }
  }

  /** With α > 0, a positive last input makes the last EMA value positive,
      whatever came before, as long as nothing was negative. */
  lemma EmaPositiveAtLast(x: seq<real>, a: Alpha)
    requires |x| > 0 && x[|x| - 1] > 0.0
    requires forall j :: 0 <= j < |x| ==> x[j] >= 0.0
    ensures Ema(x, a)[|x| - 1] > 0.0
  {
    var k := |x| - 1;
    if k > 0 {
      EmaWithin(x, a, 0.0, MaxOf(x));
      BlendZero(a, x[k], Ema(x, a)[k - 1]);
    }
  }

  /** An upper bound of a column, used to bound its EMA. */
  function MaxOf(x: seq<real>): (m: real)
    ensures forall i :: 0 <= i < |x| ==> x[i] <= m
  {
    if |x| == 0 then 0.0
    else
      var t := MaxOf(x[1..]);
      if x[0] >= t then x[0] else t
  }

  /** The elementwise difference of two aligned columns (pandas `x - y`). */
  function Minus(x: seq<real>, y: seq<real>): (d: seq<real>)
    requires |x| == |y|
    ensures |d| == |x|
    ensures forall i :: 0 <= i < |x| ==> d[i] == x[i] - y[i]
  {
    seq(|x|, i requires 0 <= i < |x| => x[i] - y[i])
  }

  /** `rolling(window).mean()`: the mean of the trailing `window` values at
      each index, NaN (here `None`) while fewer than `window` values exist. */
  function Sma(x: seq<real>, window: int): (r: seq<Option<real>>)
    requires window >= 1
    ensures |r| == |x|
  {
    seq(|x|, i requires 0 <= i < |x| =>
      if i < window - 1 then None else Some(Mean(x[i - window + 1..i + 1])))
  }

  /** SMA is undefined exactly at the first window−1 indices, and each
      defined value is the mean of the window that ends there. */
  lemma SmaShape(x: seq<real>, window: int, i: nat)
    requires window >= 1 && i < |x|
    ensures Sma(x, window)[i].None? <==> i < window - 1
    ensures i >= window - 1 ==> Sma(x, window)[i] == Some(Mean(x[i - window + 1..i + 1]))
  {
  }

  /** The number of defined entries of an indicator column. */
  function CountDefined(r: seq<Option<real>>): nat
  {
    if |r| == 0 then 0 else (if r[|r| - 1].Some? then 1 else 0) + CountDefined(r[..|r| - 1])
  }

  /** The SMA of a prefix is the prefix of the SMA. */
  lemma SmaPrefix(x: seq<real>, window: int, k: nat)
    requires window >= 1 && k <= |x|
    ensures Sma(x[..k], window) == Sma(x, window)[..k]
  {
    forall i | 0 <= i < k
      ensures Sma(x[..k], window)[i] == Sma(x, window)[i]
    {
      if i >= window - 1 {
        assert x[..k][i - window + 1..i + 1] == x[i - window + 1..i + 1];
      }
    }
  }

  /** Over n bars, SMA(window) has max(0, n − window + 1) defined values. */
  lemma {:induction false} SmaDefinedCount(x: seq<real>, window: int)
    requires window >= 1
    ensures CountDefined(Sma(x, window)) == if |x| >= window then |x| - window + 1 else 0
    decreases |x|
  {
    if |x| > 0 {
      var k := |x| - 1;
      var r := Sma(x, window);
      SmaPrefix(x, window, k);
      SmaShape(x, window, k);
      assert r[..|r| - 1] == Sma(x[..k], window);
      SmaDefinedCount(x[..k], window);
    }
  }

  /** Each defined SMA value lies between the smallest and the largest close
      of its window; a constant column has itself as its SMA. */
  lemma SmaWithin(x: seq<real>, window: int, lo: real, hi: real, i: nat)
    requires window >= 1 && window - 1 <= i < |x|
    requires forall j :: 0 <= j < |x| ==> lo <= x[j] <= hi
    ensures Sma(x, window)[i].Some?
    ensures lo <= Sma(x, window)[i].value <= hi
  {
    var w := x[i - window + 1..i + 1];
    assert forall j :: 0 <= j < |w| ==> w[j] == x[i - window + 1 + j];
    MeanBetween(w, lo, hi);
  }

  /** The trailing `window` closes ending at the last bar. */
  function Tail(x: seq<real>, window: int): (w: seq<real>)
    requires 1 <= window <= |x|
    ensures |w| == window
  {
    x[|x| - window..]
  }

  lemma SmaAtLast(x: seq<real>, window: int)
    requires 1 <= window <= |x|
    ensures Sma(x, window)[|x| - 1] == Some(Mean(Tail(x, window)))
  {
    assert x[|x| - 1 - window + 1..|x| - 1 + 1] == Tail(x, window);
  }

  /** `rolling(window).mean().iloc[-1]`: the latest SMA value, undefined
      while the column is shorter than the window. */
  function LastSma(x: seq<real>, window: int): (r: Option<real>)
    requires window >= 1 && |x| > 0
    ensures r.None? <==> |x| < window
    ensures r.Some? ==> r.value == Mean(Tail(x, window))
  {
    SmaShape(x, window, |x| - 1);
    if |x| >= window then SmaAtLast(x, window); Sma(x, window)[|x| - 1]
    else Sma(x, window)[|x| - 1]
  }

  /** In a strictly rising column the last close is above any SMA over two
      or more bars. */
  lemma RisingCloseAboveSma(x: seq<real>, window: int)
    requires StrictlyRising(x) && 2 <= window <= |x|
    ensures LastSma(x, window).Some? && LastSma(x, window).value < x[|x| - 1]
  {
    var n := |x|;
    var older, last := x[n - window..n - 1], x[n - 1];
    assert Tail(x, window) == older + [last];
    forall j | 0 <= j < |older|
      ensures older[j] < last
    {
      RisingOrdered(x, n - window + j, n - 1);
    }
    MeanBelow(older, last);
    MeanConstant([last], last);
    MeanOfConcatBelow(older, [last]);
  }

  /** In a strictly rising column a shorter SMA is above a longer one at the
      last bar: the longer window only adds older, lower closes. */
  lemma RisingShortSmaAboveLong(x: seq<real>, short: int, long: int)
    requires StrictlyRising(x) && 1 <= short < long <= |x|
    ensures LastSma(x, short).Some? && LastSma(x, long).Some?
    ensures LastSma(x, short).value > LastSma(x, long).value
  {
    var n := |x|;
    var recent, older := Tail(x, short), x[n - long..n - short];
    assert Tail(x, long) == older + recent;
    var pivot := x[n - short];
    forall j | 0 <= j < |older|
      ensures older[j] < pivot
    {
      RisingOrdered(x, n - long + j, n - short);
    }
    forall j | 0 <= j < |recent|
      ensures pivot <= recent[j] <= x[n - 1]
    {
      if 0 < j {
        RisingOrdered(x, n - short, n - short + j);
      }
      if j < short - 1 {
        RisingOrdered(x, n - short + j, n - 1);
      }
    }
    MeanBelow(older, pivot);
    MeanBetween(recent, pivot, x[n - 1]);
    MeanOfConcatBelow(older, recent);
  }

  /** `calculate_SMA`: no history is an error; otherwise the SMA column. */
  function CalculateSma(closes: seq<real>, window: int): (r: Result<seq<Option<real>>, Error>)
    ensures |closes| == 0 ==> r == Failure(NoData)
    ensures |closes| > 0 && window < 1 ==> r == Failure(InvalidParameter)
    ensures r.Success? <==> |closes| > 0 && window >= 1
    ensures r.Success? ==> window >= 1 && r.value == Sma(closes, window) && |r.value| == |closes|
  {
    if |closes| == 0 then Failure(NoData)
    else if window < 1 then Failure(InvalidParameter)
    else Success(Sma(closes, window))
  }

  /** `calculate_EMA`: the window is used as the EMA span. */
  function CalculateEma(closes: seq<real>, window: int): (r: Result<seq<real>, Error>)
    ensures |closes| == 0 ==> r == Failure(NoData)
    ensures |closes| > 0 && window < 1 ==> r == Failure(InvalidParameter)
    ensures r.Success? <==> |closes| > 0 && window >= 1
    ensures r.Success? ==> window >= 1 && |r.value| == |closes| && r.value[0] == closes[0]
    ensures r.Success? ==> r.value == Ema(closes, SpanAlpha(window))
  {
    if |closes| == 0 then Failure(NoData)
    else if window < 1 then Failure(InvalidParameter)
    else Success(Ema(closes, SpanAlpha(window)))
  }
}
