/**
 * The indicators `analyze_signals` computes from the price window
 * (memecoin_screening.py:96-123), as exact rational arithmetic on `real`.
 * pandas' NaN results become `None`; the square root inside the rolling
 * standard deviation is never taken: a band keeps its variance, and the
 * band-touch tests decide the source's comparison without the root.
 */
module Indicators {
  import opened Wrappers

  // ---------------------------------------------------------------- EMA

  /**
   * The three smoothings the scalper uses: `ewm(span=9)` and `ewm(span=21)`
   * for the EMAs (memecoin_screening.py:102-103) and `ewm(com=13)` for the
   * RSI averages (memecoin_screening.py:111-112).
   */
  datatype Smoothing = Span9 | Span21 | Com13

  /** pandas' smoothing factor: 2 / (span + 1) for a span, 1 / (1 + com) for a centre of mass. */
  function Alpha(s: Smoothing): (a: real)
    ensures 0.0 < a < 1.0
  {
    match s
    case Span9 => 2.0 / (9.0 + 1.0)
    case Span21 => 2.0 / (21.0 + 1.0)
    case Com13 => 1.0 / (1.0 + 13.0)
  }

  /**
   * Last value of `ewm(..., adjust=False).mean()` over `xs`: the recurrence
   * e0 = x0, et = alpha * xt + (1 - alpha) * e(t-1).
   */
  function Ema(xs: seq<real>, s: Smoothing): real
    requires |xs| > 0
    decreases |xs|
  {
    if |xs| == 1 then xs[0]
    else Mix(s, xs[|xs| - 1], Ema(xs[..|xs| - 1], s))
  }

  /** One step of the recurrence: alpha * x + (1 - alpha) * e. */
  function Mix(s: Smoothing, x: real, e: real): real
  {
    Alpha(s) * x + (1.0 - Alpha(s)) * e
  }

  /** A step never leaves the range its two inputs lie in. */
  lemma MixWithin(s: Smoothing, x: real, e: real, lo: real, hi: real)
    requires lo <= x <= hi && lo <= e <= hi
    ensures lo <= Mix(s, x, e) <= hi
  {
    match s
    case Span9 =>
    case Span21 =>
    case Com13 =>
  }

  /** A step over non-negative inputs is 0 exactly when both inputs are 0. */
  lemma MixZeroIff(s: Smoothing, x: real, e: real)
    requires 0.0 <= x && 0.0 <= e
    ensures Mix(s, x, e) >= 0.0
    ensures Mix(s, x, e) == 0.0 <==> x == 0.0 && e == 0.0
  {
    match s
    case Span9 =>
    case Span21 =>
    case Com13 =>
  }

  /** The EMA stays within any range that holds every sample of the window. */
  lemma {:induction false} EmaWithin(xs: seq<real>, s: Smoothing, lo: real, hi: real)
    requires |xs| > 0
    requires forall i :: 0 <= i < |xs| ==> lo <= xs[i] <= hi
    ensures lo <= Ema(xs, s) <= hi
    decreases |xs|
  {
    if |xs| > 1 {
      var init := xs[..|xs| - 1];
      assert forall i :: 0 <= i < |init| ==> init[i] == xs[i];
      EmaWithin(init, s, lo, hi);
      MixWithin(s, xs[|xs| - 1], Ema(init, s), lo, hi);
    }
  }

  /**
   * The EMA of a constant window is that constant; in particular with a
   * single price in the window EMA(9) == EMA(21) == that price.
   */
  lemma EmaOfConstant(xs: seq<real>, s: Smoothing, c: real)
    requires |xs| > 0
    requires forall i :: 0 <= i < |xs| ==> xs[i] == c
    ensures Ema(xs, s) == c
  {
    EmaWithin(xs, s, c, c);
  }

  /** The EMA of non-negative samples is non-negative. */
  lemma {:induction false} EmaNonNegative(xs: seq<real>, s: Smoothing)
    requires |xs| > 0
    requires forall i :: 0 <= i < |xs| ==> 0.0 <= xs[i]
    ensures Ema(xs, s) >= 0.0
    decreases |xs|
  {
    if |xs| > 1 {
      var init := xs[..|xs| - 1];
      assert forall i :: 0 <= i < |init| ==> init[i] == xs[i];
      EmaNonNegative(init, s);
      MixZeroIff(s, xs[|xs| - 1], Ema(init, s));
    }
  }

  /**
   * Every sample keeps a positive weight (0 < alpha < 1), so the EMA of
   * non-negative samples is 0 exactly when every sample is 0.
   */
  lemma {:induction false} EmaZeroIff(xs: seq<real>, s: Smoothing)
    requires |xs| > 0
    requires forall i :: 0 <= i < |xs| ==> 0.0 <= xs[i]
    ensures Ema(xs, s) == 0.0 <==> forall i :: 0 <= i < |xs| ==> xs[i] == 0.0
    decreases |xs|
  {
    if |xs| > 1 {
      var init := xs[..|xs| - 1];
      var x := xs[|xs| - 1];
      assert forall i :: 0 <= i < |init| ==> init[i] == xs[i];
      EmaZeroIff(init, s);
      EmaNonNegative(init, s);
      MixZeroIff(s, x, Ema(init, s));
      if Ema(xs, s) == 0.0 {
        forall i | 0 <= i < |xs| ensures xs[i] == 0.0 {
          if i < |init| { assert xs[i] == init[i]; }
        }
      }
    }
  }

  // ---------------------------------------------------------------- RSI

  /** Number of prices the window must exceed before RSI is computed (memecoin_screening.py:106). */
  const RsiPeriod: nat := 14

  function Positive(d: real): real
  {
    if d > 0.0 then d else 0.0
  }

  /**
   * `delta.where(delta > 0, 0).fillna(0)`: 0 at index 0 (the first difference
   * is NaN), then the upward moves.
   */
  function Gains(xs: seq<real>): (g: seq<real>)
    ensures |g| == |xs|
    ensures |g| > 0 ==> g[0] == 0.0
    ensures forall i :: 0 < i < |g| ==> g[i] >= 0.0 && (g[i] > 0.0 <==> xs[i] > xs[i - 1])
  {
    seq(|xs|, i requires 0 <= i < |xs| => if i == 0 then 0.0 else Positive(xs[i] - xs[i - 1]))
  }

  /** `(-delta.where(delta < 0, 0)).fillna(0)`: 0 at index 0, then the downward moves. */
  function Losses(xs: seq<real>): (l: seq<real>)
    ensures |l| == |xs|
    ensures |l| > 0 ==> l[0] == 0.0
    ensures forall i :: 0 < i < |l| ==> l[i] >= 0.0 && (l[i] > 0.0 <==> xs[i] < xs[i - 1])
  {
    seq(|xs|, i requires 0 <= i < |xs| => if i == 0 then 0.0 else Positive(xs[i - 1] - xs[i]))
  }

  function AvgGain(xs: seq<real>): real
    requires |xs| > 0
  {
    Ema(Gains(xs), Com13)
  }

  function AvgLoss(xs: seq<real>): real
    requires |xs| > 0
  {
    Ema(Losses(xs), Com13)
  }

  /** Both smoothed averages are non-negative. */
  lemma AveragesNonNegative(xs: seq<real>)
    requires |xs| > 0
    ensures AvgGain(xs) >= 0.0 && AvgLoss(xs) >= 0.0
  {
    EmaNonNegative(Gains(xs), Com13);
    EmaNonNegative(Losses(xs), Com13);
  }

  lemma RatioNonNegative(g: real, l: real)
    requires g >= 0.0 && l > 0.0
    ensures g / l >= 0.0
  {
  }

  /** 100 - 100 / (1 + rs) stays in [0, 100) for rs >= 0. */
  lemma RsiFormulaRange(rs: real)
    requires rs >= 0.0
    ensures 0.0 <= 100.0 - 100.0 / (1.0 + rs) < 100.0
  {
    var d := 1.0 + rs;
    assert 100.0 / d > 0.0;
    assert 100.0 / d * d == 100.0;
    assert 100.0 / d <= 100.0;
  }

  /**
   * `100 - 100 / (1 + avg_gain / avg_loss)` with pandas' division semantics
   * (memecoin_screening.py:114-115): a positive gain over a zero loss is an
   * infinite ratio and gives 100; 0 / 0 is NaN, here `None`.
   */
  function RsiOf(g: real, l: real): (r: Option<real>)
    requires g >= 0.0 && l >= 0.0
    ensures r.Some? ==> 0.0 <= r.value <= 100.0
    ensures r.None? <==> g == 0.0 && l == 0.0
    ensures r == Some(100.0) <==> l == 0.0 && g > 0.0
  {
    if l > 0.0 then
      RatioNonNegative(g, l);
      RsiFormulaRange(g / l);
      Some(100.0 - 100.0 / (1.0 + g / l))
    else if g > 0.0 then Some(100.0)
    else None
  }

  /** The two smoothed averages RSI(14) is computed from, both non-negative. */
  datatype RsiReading = RsiReading(avgGain: real, avgLoss: real)

  /**
   * RSI(14) of the window (memecoin_screening.py:106-117), kept as its two
   * averages: `None` while the window holds 14 prices or fewer (the all-NaN
   * series of line 117).
   */
  function Rsi(xs: seq<real>): (r: Option<RsiReading>)
    ensures r.None? <==> |xs| <= RsiPeriod
    ensures r.Some? ==> r.value.avgGain >= 0.0 && r.value.avgLoss >= 0.0
  {
    if |xs| <= RsiPeriod then None
    else
      AveragesNonNegative(xs);
      Some(RsiReading(AvgGain(xs), AvgLoss(xs)))
  }

  /** The last RSI value, `rsi.iloc[-1]`; `None` for NaN. */
  function RsiValue(r: Option<RsiReading>): (v: Option<real>)
    requires r.Some? ==> r.value.avgGain >= 0.0 && r.value.avgLoss >= 0.0
    ensures v.Some? ==> 0.0 <= v.value <= 100.0
    ensures r.None? ==> v.None?
  {
    if r.None? then None else RsiOf(r.value.avgGain, r.value.avgLoss)
  }

  /** `rsi < 30`, decided on the averages: 7 * gain < 3 * loss (false for NaN). */
  predicate BelowThirty(r: RsiReading)
  {
    7.0 * r.avgGain < 3.0 * r.avgLoss
  }

  /** `rsi > 70`, decided on the averages: 3 * gain > 7 * loss (false for NaN, true for 100). */
  predicate AboveSeventy(r: RsiReading)
  {
    3.0 * r.avgGain > 7.0 * r.avgLoss
  }

  /** Comparing a quotient with a bound is comparing the dividend with bound * divisor. */
  lemma CompareQuotient(a: real, d: real, t: real)
    requires d > 0.0
    ensures a / d < t <==> a < t * d
    ensures a / d > t <==> a > t * d
  {
    var q := a / d;
    assert q * d == a;
    if q > t {
      PosTimesPos(q - t, d);
      assert (q - t) * d == q * d - t * d;
    } else if q < t {
      PosTimesPos(t - q, d);
      assert (t - q) * d == t * d - q * d;
    }
  }

  /** BelowThirty decides `rsi < 30` for the RSI value of the averages. */
  lemma BelowThirtyAgrees(r: RsiReading)
    requires r.avgGain >= 0.0 && r.avgLoss >= 0.0
    ensures BelowThirty(r) <==> RsiOf(r.avgGain, r.avgLoss).Some? && RsiOf(r.avgGain, r.avgLoss).value < 30.0
  {
    var g, l := r.avgGain, r.avgLoss;
    if l > 0.0 {
      RatioNonNegative(g, l);
      var rs := g / l;
      CompareQuotient(100.0, 1.0 + rs, 70.0);
      CompareQuotient(g, l, 3.0 / 7.0);
    }
  }

  /** AboveSeventy decides `rsi > 70` for the RSI value of the averages. */
  lemma AboveSeventyAgrees(r: RsiReading)
    requires r.avgGain >= 0.0 && r.avgLoss >= 0.0
    ensures AboveSeventy(r) <==> RsiOf(r.avgGain, r.avgLoss).Some? && RsiOf(r.avgGain, r.avgLoss).value > 70.0
  {
    var g, l := r.avgGain, r.avgLoss;
    if l > 0.0 {
      RatioNonNegative(g, l);
      var rs := g / l;
      CompareQuotient(100.0, 1.0 + rs, 30.0);
      CompareQuotient(g, l, 7.0 / 3.0);
    }
  }

  /** No two consecutive prices of the window differ. */
  ghost predicate Flat(xs: seq<real>)
  {
    forall i :: 0 < i < |xs| ==> xs[i] == xs[i - 1]
  }

  /** No price of the window is below its predecessor. */
  ghost predicate NeverFalls(xs: seq<real>)
  {
    forall i :: 0 < i < |xs| ==> xs[i] >= xs[i - 1]
  }

  /** Some price of the window is above its predecessor. */
  ghost predicate SomeRise(xs: seq<real>)
  {
    exists i :: 0 < i < |xs| && xs[i] > xs[i - 1]
  }

  lemma AvgGainZeroIff(xs: seq<real>)
    requires |xs| > 0
    ensures AvgGain(xs) == 0.0 <==> !SomeRise(xs)
  {
    var g := Gains(xs);
    EmaZeroIff(g, Com13);
    if AvgGain(xs) != 0.0 {
      var i :| 0 <= i < |g| && g[i] != 0.0;
      assert xs[i] > xs[i - 1];
    }
  }

  lemma AvgLossZeroIff(xs: seq<real>)
    requires |xs| > 0
    ensures AvgLoss(xs) == 0.0 <==> NeverFalls(xs)
  {
    var l := Losses(xs);
    EmaZeroIff(l, Com13);
    if AvgLoss(xs) != 0.0 {
      var i :| 0 <= i < |l| && l[i] != 0.0;
      assert xs[i] < xs[i - 1];
    }
  }

  /**
   * Past 14 prices, RSI is undefined exactly when the window never moved:
   * then every gain and every loss is 0.
   */
  lemma RsiUndefinedIffFlat(xs: seq<real>)
    requires |xs| > RsiPeriod
    ensures RsiValue(Rsi(xs)).None? <==> Flat(xs)
  {
    AvgGainZeroIff(xs);
    AvgLossZeroIff(xs);
    AveragesNonNegative(xs);
    if Flat(xs) {
      assert NeverFalls(xs);
    } else {
      var i :| 0 < i < |xs| && xs[i] != xs[i - 1];
      assert xs[i] > xs[i - 1] || xs[i] < xs[i - 1];
    }
  }

  /**
   * Past 14 prices, RSI is exactly 100 when the window never fell and rose at
   * least once: the average loss is 0 and the average gain is positive. Any
   * fall makes the average loss positive and RSI strictly less than 100.
   */
  lemma RsiHundredIff(xs: seq<real>)
    requires |xs| > RsiPeriod
    ensures RsiValue(Rsi(xs)) == Some(100.0) <==> NeverFalls(xs) && SomeRise(xs)
  {
    AvgGainZeroIff(xs);
    AvgLossZeroIff(xs);
    AveragesNonNegative(xs);
  }

  // ---------------------------------------------------------- Bollinger

  /** Rolling window of the bands (memecoin_screening.py:120-121). */
  const BandPeriod: nat := 20

  /** Rolling mean and sample variance (N - 1 denominator) of the last 20 prices. */
  datatype Band = Band(middle: real, variance: real)

  function Sum(s: seq<real>): real
  {
    if s == [] then 0.0 else s[0] + Sum(s[1..])
  }

  lemma PosTimesPos(x: real, y: real)
    requires x > 0.0 && y > 0.0
    ensures x * y > 0.0
  {
  }

  lemma SquareNonNegative(d: real)
    ensures d * d >= 0.0
  {
    if d > 0.0 {
      PosTimesPos(d, d);
    } else if d < 0.0 {
      PosTimesPos(-d, -d);
    }
  }

  /** Sum of squared deviations from `m`. */
  function SquaredDeviations(s: seq<real>, m: real): (r: real)
    ensures r >= 0.0
  {
    if s == [] then 0.0
    else
      var d := s[0] - m;
      SquareNonNegative(d);
      d * d + SquaredDeviations(s[1..], m)
  }

  /** Samples that all equal `m` do not deviate from it. */
  lemma {:induction false} NoDeviationFromConstant(s: seq<real>, m: real)
    requires forall i :: 0 <= i < |s| ==> s[i] == m
    ensures SquaredDeviations(s, m) == 0.0
  {
    if s != [] {
      assert forall i :: 0 <= i < |s[1..]| ==> s[1..][i] == s[i + 1];
      NoDeviationFromConstant(s[1..], m);
      assert s[0] - m == 0.0;
    }
  }

  /**
   * `rolling(window=20)` mean and `std()` squared, at the last index
   * (memecoin_screening.py:120-121): `None` (pandas' NaN) below 20 prices.
   */
  function Bollinger(xs: seq<real>): (r: Option<Band>)
    ensures r.Some? <==> |xs| >= BandPeriod
    ensures r.Some? ==> r.value.variance >= 0.0
  {
    if |xs| < BandPeriod then None
    else
      var w := xs[|xs| - BandPeriod..];
      var m := Sum(w) / BandPeriod as real;
      Some(Band(m, SquaredDeviations(w, m) / (BandPeriod - 1) as real))
  }

  /** `s` is the standard deviation belonging to the band's variance. */
  ghost predicate IsStd(b: Band, s: real)
  {
    s >= 0.0 && s * s == b.variance
  }

  /** `middle + std * 2` (memecoin_screening.py:122). */
  function UpperBand(b: Band, std: real): (u: real)
    requires std >= 0.0
    ensures u >= b.middle
  {
    b.middle + std * 2.0
  }

  /** `middle - std * 2` (memecoin_screening.py:123). */
  function LowerBand(b: Band, std: real): (l: real)
    requires std >= 0.0
    ensures l <= b.middle
  {
    b.middle - std * 2.0
  }

  /** `price <= lower_band * 1.01`, i.e. 1.01 * middle - price >= 2.02 * std, decided on the variance. */
  predicate TouchesLower(price: real, b: Band)
  {
    var a := 1.01 * b.middle - price;
    a >= 0.0 && a * a >= 2.02 * 2.02 * b.variance
  }

  /** `price >= upper_band * 0.99`, i.e. price - 0.99 * middle >= 1.98 * std, decided on the variance. */
  predicate TouchesUpper(price: real, b: Band)
  {
    var a := price - 0.99 * b.middle;
    a >= 0.0 && a * a >= 1.98 * 1.98 * b.variance
  }

  /** A band of zero width around `p >= 0` is touched from both sides by `p` itself. */
  lemma CollapsedBandTouchedTwice(p: real)
    requires p >= 0.0
    ensures TouchesLower(p, Band(p, 0.0)) && TouchesUpper(p, Band(p, 0.0))
  {
    SquareNonNegative(1.01 * p - p);
    SquareNonNegative(p - 0.99 * p);
  }

  /** For t >= 0: a >= t exactly when a >= 0 and a * a >= t * t. */
  lemma AtLeastBySquares(a: real, t: real)
    requires t >= 0.0
    ensures a >= t <==> a >= 0.0 && a * a >= t * t
  {
    if a > t {
      PosTimesPos(a - t, a + t);
      assert (a - t) * (a + t) == a * a - t * t;
    } else if a >= 0.0 && a < t {
      PosTimesPos(t - a, t + a);
      assert (t - a) * (t + a) == t * t - a * a;
    }
  }

  /** TouchesLower is the source's lower-band test, for the true standard deviation. */
  lemma TouchesLowerAgrees(price: real, b: Band, s: real)
    requires IsStd(b, s)
    ensures TouchesLower(price, b) <==> price <= LowerBand(b, s) * 1.01
  {
    AtLeastBySquares(1.01 * b.middle - price, 2.02 * s);
    assert (2.02 * s) * (2.02 * s) == 2.02 * 2.02 * (s * s);
  }

  /** TouchesUpper is the source's upper-band test, for the true standard deviation. */
  lemma TouchesUpperAgrees(price: real, b: Band, s: real)
    requires IsStd(b, s)
    ensures TouchesUpper(price, b) <==> price >= UpperBand(b, s) * 0.99
  {
    AtLeastBySquares(price - 0.99 * b.middle, 1.98 * s);
    assert (1.98 * s) * (1.98 * s) == 1.98 * 1.98 * (s * s);
  }

  lemma {:induction false} SumOfConstant(s: seq<real>, c: real)
    requires forall i :: 0 <= i < |s| ==> s[i] == c
    ensures Sum(s) == |s| as real * c
  {
    if s != [] {
      assert forall i :: 0 <= i < |s[1..]| ==> s[1..][i] == s[i + 1];
      SumOfConstant(s[1..], c);
    }
  }

  /**
   * Over a window whose last 20 prices are all `c`, the bands collapse onto
   * `c` (middle `c`, variance 0).
   */
  lemma BollingerOfFlatTail(xs: seq<real>, c: real)
    requires |xs| >= BandPeriod
    requires forall i :: |xs| - BandPeriod <= i < |xs| ==> xs[i] == c
    ensures Bollinger(xs) == Some(Band(c, 0.0))
  {
    var w := xs[|xs| - BandPeriod..];
    assert forall i :: 0 <= i < |w| ==> w[i] == xs[|xs| - BandPeriod + i];
    SumOfConstant(w, c);
    assert Sum(w) / BandPeriod as real == c;
    NoDeviationFromConstant(w, c);
  }
}
