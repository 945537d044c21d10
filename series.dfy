/** The price/volume history one computation works on, and the arithmetic
    (sums and means) the indicators are built from. */
module Series {

  /** One daily observation. Only the columns the core reads are kept. */
  datatype Bar = Bar(close: real, volume: real)

  /** The `Close` column. */
  function Closes(bars: seq<Bar>): (c: seq<real>)
    ensures |c| == |bars|
    ensures forall i :: 0 <= i < |bars| ==> c[i] == bars[i].close
  {
    seq(|bars|, i requires 0 <= i < |bars| => bars[i].close)
  }

  /** The `Volume` column. */
  function Volumes(bars: seq<Bar>): (v: seq<real>)
    ensures |v| == |bars|
    ensures forall i :: 0 <= i < |bars| ==> v[i] == bars[i].volume
  {
    seq(|bars|, i requires 0 <= i < |bars| => bars[i].volume)
  }

  /** The close rose from bar j − 1 to bar j. */
  predicate Rose(x: seq<real>, j: nat)
    requires 0 < j < |x|
  {
    x[j] > x[j - 1]
  }

  /** The close fell from bar j − 1 to bar j. */
  predicate Fell(x: seq<real>, j: nat)
    requires 0 < j < |x|
  {
    x[j] < x[j - 1]
  }

  /** Every bar closes above the one before it. */
  predicate StrictlyRising(x: seq<real>)
  {
    forall j :: 0 < j < |x| ==> Rose(x, j)
  }

  /** In a strictly rising column every close is below every later one. */
  lemma {:induction false} RisingOrdered(x: seq<real>, i: nat, j: nat)
    requires StrictlyRising(x) && i < j < |x|
    ensures x[i] < x[j]
    decreases j - i
  {
    assert Rose(x, j);
    if i < j - 1 {
      RisingOrdered(x, i, j - 1);
    }
  }

  function Sum(s: seq<real>): real
  {
    if |s| == 0 then 0.0 else s[0] + Sum(s[1..])
  }

  /** Arithmetic mean, as pandas' `mean()` of a non-empty column. */
  function Mean(s: seq<real>): real
    requires |s| > 0
  {
    Sum(s) / (|s| as real)
  }

  /** `iloc[-k:].mean()`: the mean of the last k values, or of all of them
      when there are fewer. */
  function TrailingMean(v: seq<real>, k: nat): real
    requires |v| > 0 && k > 0
  {
    if |v| <= k then Mean(v) else Mean(v[|v| - k..])
  }

  /** The trailing mean of a constant column is that constant. */
  lemma TrailingMeanConstant(v: seq<real>, k: nat, c: real)
    requires |v| > 0 && k > 0
    requires forall i :: 0 <= i < |v| ==> v[i] == c
    ensures TrailingMean(v, k) == c
  {
    if |v| <= k {
      MeanConstant(v, c);
    } else {
      MeanConstant(v[|v| - k..], c);
    }
  }

  lemma {:induction false} SumConcat(a: seq<real>, b: seq<real>)
    ensures Sum(a + b) == Sum(a) + Sum(b)
  {
    if |a| > 0 {
      assert (a + b)[1..] == a[1..] + b;
      SumConcat(a[1..], b);
    } else {
      assert a + b == b;
    }
  }

  /** A sum of values that are all at least `c` is at least `|s|·c`. */
  lemma {:induction false} SumAtLeast(s: seq<real>, c: real)
    requires forall i :: 0 <= i < |s| ==> s[i] >= c
    ensures Sum(s) >= (|s| as real) * c
  {
    if |s| > 0 {
      SumAtLeast(s[1..], c);
    }
  }

  /** A sum of values that are all at most `c` is at most `|s|·c`. */
  lemma {:induction false} SumAtMost(s: seq<real>, c: real)
    requires forall i :: 0 <= i < |s| ==> s[i] <= c
    ensures Sum(s) <= (|s| as real) * c
  {
    if |s| > 0 {
      SumAtMost(s[1..], c);
    }
  }

  /** A sum of values that are all below `c` is below `|s|·c`. */
  lemma {:induction false} SumBelow(s: seq<real>, c: real)
    requires |s| > 0
    requires forall i :: 0 <= i < |s| ==> s[i] < c
    ensures Sum(s) < (|s| as real) * c
  {
    if |s| > 1 {
      SumBelow(s[1..], c);
    }
  }

  /** The sum of a constant column. */
  lemma {:induction false} SumConstant(s: seq<real>, c: real)
    requires forall i :: 0 <= i < |s| ==> s[i] == c
    ensures Sum(s) == (|s| as real) * c
  {
    SumAtLeast(s, c);
    SumAtMost(s, c);
  }

  /** The mean of a non-empty column lies between any lower and any upper bound
      of its values. */
  lemma MeanBetween(s: seq<real>, lo: real, hi: real)
    requires |s| > 0
    requires forall i :: 0 <= i < |s| ==> lo <= s[i] <= hi
    ensures lo <= Mean(s) <= hi
  {
    SumAtLeast(s, lo);
    SumAtMost(s, hi);
    DivBetween(Sum(s), |s| as real, lo, hi);
  }

  /** The mean of values that are all below `c` is below `c`. */
  lemma MeanBelow(s: seq<real>, c: real)
    requires |s| > 0
    requires forall i :: 0 <= i < |s| ==> s[i] < c
    ensures Mean(s) < c
  {
    SumBelow(s, c);
    var n := |s| as real;
    assert Sum(s) / n < (n * c) / n;
  }

  /** The mean of a constant column is that constant. */
  lemma MeanConstant(s: seq<real>, c: real)
    requires |s| > 0
    requires forall i :: 0 <= i < |s| ==> s[i] == c
    ensures Mean(s) == c
  {
    MeanBetween(s, c, c);
  }

  /** The mean times the length is the sum. */
  lemma MeanTimesLength(s: seq<real>)
    requires |s| > 0
    ensures Mean(s) * (|s| as real) == Sum(s)
  {
  }

  lemma MulStrict(x: real, y: real, c: real)
    requires c > 0.0 && x < y
    ensures x * c < y * c
  {
  }

  lemma CancelStrict(x: real, y: real, c: real)
    requires c > 0.0 && x * c < y * c
    ensures x < y
  {
  }

  /** Splitting a column into a head and a tail: the whole mean is below the
      tail's mean when the head's mean is. */
  lemma MeanOfConcatBelow(a: seq<real>, b: seq<real>)
    requires |a| > 0 && |b| > 0
    requires Mean(a) < Mean(b)
    ensures Mean(a + b) < Mean(b)
  {
    var p, q, r := |a| as real, |b| as real, |a + b| as real;
    var ma, mb := Mean(a), Mean(b);
    var sa, sb, sab := Sum(a), Sum(b), Sum(a + b);
    SumConcat(a, b);
    MeanTimesLength(a);
    MeanTimesLength(b);
    MulStrict(ma, mb, p);
    assert sa < mb * p;
    assert sb == mb * q;
    assert r == p + q;
    assert mb * p + mb * q == mb * r;
    assert sab < mb * r;
    DivBelow(sab, r, mb);
  }

  /** Dividing by a positive n keeps a value below a bound it had before
      scaling by n. */
  lemma DivBelow(x: real, n: real, hi: real)
    requires n > 0.0 && x < hi * n
    ensures x / n < hi
  {
    assert (x / n) * n == x;
    CancelStrict(x / n, hi, n);
  }

  lemma DivBetween(x: real, n: real, lo: real, hi: real)
    requires n > 0.0
    requires n * lo <= x <= n * hi
    ensures lo <= x / n <= hi
  {
    assert (n * lo) / n <= x / n <= (n * hi) / n;
  }
}
