/** The technical-indicator engine: one definition of each indicator that
    both copies in the dashboard compute (the API route and the indicator
    panel), with the properties the dashboard relies on.

    Sentinels are kept as the source has them: SMA and MACD give 0 and RSI
    gives 50 when the history is too short. */
module Indicators {
  import opened Series
  import opened Bars

  // ---------------------------------------------------------------------
  // Simple moving average

  /** Mean of the last `period` closes, or the sentinel 0 when there are
      fewer than `period` bars. */
  function Sma(bars: seq<Bar>, period: nat): (r: real)
    requires period > 0
    ensures |bars| < period ==> r == 0.0
    ensures |bars| >= period ==> r * period as real == Sum(Closes(bars)[|bars| - period..])
  {
    if |bars| < period then 0.0
    else Sum(Closes(bars)[|bars| - period..]) / period as real
  }

  /** A computed SMA lies between the smallest and largest close of its window. */
  lemma SmaWithinWindow(bars: seq<Bar>, period: nat)
    requires 0 < period <= |bars|
    ensures var w := Closes(bars)[|bars| - period..];
      MinOf(w) <= Sma(bars, period) <= MaxOf(w)
  {
    var w := Closes(bars)[|bars| - period..];
    WithinExtremes(w);
    MeanWithin(w, MinOf(w), MaxOf(w));
  }

  /** When every close of the window is the same price, the SMA is that price. */
  lemma SmaOfFlatWindow(bars: seq<Bar>, period: nat, price: real)
    requires 0 < period <= |bars|
    requires forall i :: |bars| - period <= i < |bars| ==> bars[i].c == price
    ensures Sma(bars, period) == price
  {
    var w := Closes(bars)[|bars| - period..];
    assert Within(w, price, price);
    MeanWithin(w, price, price);
  }

  // ---------------------------------------------------------------------
  // Relative strength index

  /** The close-to-close change ending at bar `i`. */
  function Delta(c: seq<real>, i: nat): real
    requires 1 <= i < |c|
  {
    c[i] - c[i - 1]
  }

  /** Total of the positive changes ending at bars lo..hi-1. */
  function Gains(c: seq<real>, lo: nat, hi: nat): (r: real)
    requires 1 <= lo <= hi <= |c|
    ensures r >= 0.0
    decreases hi
  {
    if hi == lo then 0.0
    else Gains(c, lo, hi - 1) + (if Delta(c, hi - 1) > 0.0 then Delta(c, hi - 1) else 0.0)
  }

  /** Total of the negated non-positive changes ending at bars lo..hi-1. */
  function Losses(c: seq<real>, lo: nat, hi: nat): (r: real)
    requires 1 <= lo <= hi <= |c|
    ensures r >= 0.0
    decreases hi
  {
    if hi == lo then 0.0
    else Losses(c, lo, hi - 1) - (if Delta(c, hi - 1) > 0.0 then 0.0 else Delta(c, hi - 1))
  }

  /** `100 - 100 / (1 + rs)` with `rs = gains / (losses || 1)`: a window with
      no losses divides by 1, so the index stays below 100, and it is 0
      exactly when nothing was gained. */
  function RsiOf(gains: real, losses: real): (r: real)
    requires gains >= 0.0 && losses >= 0.0
    ensures 0.0 <= r < 100.0
    ensures r == 0.0 <==> gains == 0.0
  {
    var d := if losses == 0.0 then 1.0 else losses;
    var rs := gains / d;
    assert rs * d == gains;
    assert rs >= 0.0;
    var q := 100.0 / (1.0 + rs);
    assert q * (1.0 + rs) == 100.0;
    assert 0.0 < q <= 100.0;
    assert q == 100.0 <==> rs == 0.0;
    100.0 - q
  }

  /** RSI over the last `period` changes, or the sentinel 50 when there are
      at most `period` bars. */
  function Rsi(bars: seq<Bar>, period: nat): (r: real)
    ensures |bars| <= period ==> r == 50.0
    ensures |bars| > period ==> 0.0 <= r < 100.0
  {
    if |bars| <= period then 50.0
    else
      var c := Closes(bars);
      RsiOf(Gains(c, |bars| - period, |bars|), Losses(c, |bars| - period, |bars|))
  }

  /** Nothing was gained exactly when no change in the range was positive. */
  lemma {:induction false} GainsZeroIff(c: seq<real>, lo: nat, hi: nat)
    requires 1 <= lo <= hi <= |c|
    ensures Gains(c, lo, hi) == 0.0 <==> forall i :: lo <= i < hi ==> Delta(c, i) <= 0.0
    decreases hi
  {
    if hi > lo {
      GainsZeroIff(c, lo, hi - 1);
    }
  }

  /** A computed RSI is 0 exactly when no close in the window rose: flat and
      falling windows read 0, not the neutral 50. */
  lemma RsiZeroIffNoRise(bars: seq<Bar>, period: nat)
    requires |bars| > period
    ensures Rsi(bars, period) == 0.0 <==>
      forall i :: |bars| - period <= i < |bars| ==> Delta(Closes(bars), i) <= 0.0
  {
    GainsZeroIff(Closes(bars), |bars| - period, |bars|);
  }

  // ---------------------------------------------------------------------
  // Exponential moving average and MACD

  /** The smoothing factor `k = 2 / (period + 1)`. */
  function Alpha(period: nat): (k: real)
    requires period > 0
    ensures 0.0 < k <= 1.0
  {
    2.0 / (period as real + 1.0)
  }

  /** `data.slice(0, period).reduce(+) / period`: the mean of the first
      `period` values when there are that many, and otherwise the sum of
      all of them divided by `period`. */
  function Seed(data: seq<real>, period: nat): real
    requires period > 0
  {
    Sum(data[..Min(period, |data|)]) / period as real
  }

  /** The EMA after folding every value from index `period` on into the
      seed: `ema := x * k + ema * (1 - k)`. */
  function Ema(data: seq<real>, period: nat): real
    requires period > 0
    decreases |data|
  {
    if |data| <= period then Seed(data, period)
    else
      Blend(data[|data| - 1], Ema(data[..|data| - 1], period), Alpha(period))
  }

  /** With exactly `period` values the EMA is their mean. */
  lemma EmaSeedIsMean(data: seq<real>, period: nat)
    requires 1 <= period == |data|
    ensures Ema(data, period) == Sum(data) / |data| as real
  {
    assert data[..Min(period, |data|)] == data;
  }

  /** Past the seed, one more value is folded in with weight `k`. */
  lemma EmaUnfold(data: seq<real>, period: nat)
    requires 1 <= period < |data|
    ensures Ema(data, period) == Blend(data[|data| - 1], Ema(data[..|data| - 1], period), Alpha(period))
  {
  }

  /** Extending a prefix past the seed by the value at `i` is one fold step. */
  lemma EmaPrefixStep(data: seq<real>, period: nat, i: nat)
    requires 1 <= period <= i < |data|
    ensures Ema(data[..i + 1], period) == Blend(data[i], Ema(data[..i], period), Alpha(period))
  {
    assert data[..i + 1][..i] == data[..i];
    EmaUnfold(data[..i + 1], period);
  }

  /** With enough data, the EMA stays inside any interval holding all the
      data: the seed is a mean and every step a convex combination. */
  lemma {:induction false} EmaWithin(data: seq<real>, period: nat, lo: real, hi: real)
    requires 1 <= period <= |data|
    requires Within(data, lo, hi)
    ensures lo <= Ema(data, period) <= hi
    decreases |data|
  {
    if |data| == period {
      EmaSeedIsMean(data, period);
      MeanWithin(data, lo, hi);
    } else {
      var p := data[..|data| - 1];
      assert Within(p, lo, hi);
      EmaWithin(p, period, lo, hi);
      EmaStepWithin(data, period, lo, hi);
    }
  }

  /** One fold step keeps the EMA inside [lo, hi] when the previous EMA and
      the new value are inside it. */
  lemma EmaStepWithin(data: seq<real>, period: nat, lo: real, hi: real)
    requires 1 <= period < |data|
    requires lo <= data[|data| - 1] <= hi
    requires lo <= Ema(data[..|data| - 1], period) <= hi
    ensures lo <= Ema(data, period) <= hi
  {
    EmaUnfold(data, period);
    ConvexStep(data[|data| - 1], Ema(data[..|data| - 1], period), Alpha(period), lo, hi);
  }

  /** The EMA lies between the smallest and the largest value of its data. */
  lemma EmaBetweenExtremes(data: seq<real>, period: nat)
    requires 1 <= period <= |data|
    ensures MinOf(data) <= Ema(data, period) <= MaxOf(data)
  {
    WithinExtremes(data);
    EmaWithin(data, period, MinOf(data), MaxOf(data));
  }

  /** The EMA of constant data is that constant. */
  lemma EmaOfFlat(data: seq<real>, period: nat)
    requires 1 <= period <= |data|
    requires Flat(data)
    ensures Ema(data, period) == data[0]
  {
    EmaWithin(data, period, data[0], data[0]);
  }

  /** Fast EMA minus slow EMA of the closes, or the sentinel 0 when there
      are fewer than `slow` bars. */
  function Macd(bars: seq<Bar>, fast: nat, slow: nat): (r: real)
    requires fast > 0 && slow > 0
    ensures |bars| < slow ==> r == 0.0
  {
    if |bars| < slow then 0.0
    else Ema(Closes(bars), fast) - Ema(Closes(bars), slow)
  }

  /** With the fast period no longer than the slow one, the guard leaves both
      EMAs enough data, and the MACD line is at most the price range of the
      closes in either direction. */
  lemma MacdWithinRange(bars: seq<Bar>, fast: nat, slow: nat)
    requires 0 < fast <= slow && |bars| > 0
    ensures var c := Closes(bars);
      -(MaxOf(c) - MinOf(c)) <= Macd(bars, fast, slow) <= MaxOf(c) - MinOf(c)
  {
    var c := Closes(bars);
    WithinExtremes(c);
    if |bars| >= slow {
      EmaWithin(c, fast, MinOf(c), MaxOf(c));
      EmaWithin(c, slow, MinOf(c), MaxOf(c));
    }
  }

  /** Constant closes give a MACD line of 0. */
  lemma MacdOfFlat(bars: seq<Bar>, fast: nat, slow: nat)
    requires 0 < fast <= slow
    requires Flat(Closes(bars))
    ensures Macd(bars, fast, slow) == 0.0
  {
    if |bars| >= slow {
      EmaOfFlat(Closes(bars), fast);
      EmaOfFlat(Closes(bars), slow);
    }
  }

  // ---------------------------------------------------------------------
  // Volatility

  /** `reduce(+) / length`: the arithmetic mean. */
  function Mean(s: seq<real>): real
    requires |s| > 0
  {
    Sum(s) / |s| as real
  }

  /** Sum of `(x - m)^2` over the sequence. */
  function SquaredDeviations(s: seq<real>, m: real): (r: real)
    ensures r >= 0.0
  {
    if s == [] then 0.0
    else
      var d := s[|s| - 1] - m;
      SqSign(d);
      SquaredDeviations(s[..|s| - 1], m) + Sq(d)
  }

  /** Population variance of the closes: the square of what the route
      reports as `volatility`. */
  function Variance(bars: seq<Bar>): (r: real)
    requires |bars| > 0
    ensures r >= 0.0
  {
    var c := Closes(bars);
    SquaredDeviations(c, Mean(c)) / |bars| as real
  }

  /** `v` is what `Math.sqrt(variance)` returns: the non-negative root. */
  predicate IsVolatility(bars: seq<Bar>, v: real)
  {
    |bars| > 0 && v >= 0.0 && Sq(v) == Variance(bars)
  }

  lemma {:induction false} SquaredDeviationsZeroIff(s: seq<real>, m: real)
    ensures SquaredDeviations(s, m) == 0.0 <==> forall i :: 0 <= i < |s| ==> s[i] == m
  {
    if s != [] {
      var p := s[..|s| - 1];
      SquaredDeviationsZeroIff(p, m);
      SqSign(s[|s| - 1] - m);
      assert forall i :: 0 <= i < |p| ==> p[i] == s[i];
    }
  }

  /** The variance is 0 exactly when all closes are equal. */
  lemma VarianceZeroIffFlat(bars: seq<Bar>)
    requires |bars| > 0
    ensures Variance(bars) == 0.0 <==> Flat(Closes(bars))
  {
    var c := Closes(bars);
    var n := |bars| as real;
    SquaredDeviationsZeroIff(c, Mean(c));
    if Flat(c) {
      assert Within(c, c[0], c[0]);
      MeanWithin(c, c[0], c[0]);
    }
    var sd := SquaredDeviations(c, Mean(c));
    assert Variance(bars) * n == sd;
  }

  /** There is one volatility per series: the root is unique. */
  lemma VolatilityUnique(bars: seq<Bar>, v: real, w: real)
    requires IsVolatility(bars, v) && IsVolatility(bars, w)
    ensures v == w
  {
    SqInjective(v, w);
  }

  /** The volatility is 0 exactly when all closes are equal. */
  lemma VolatilityZeroIffFlat(bars: seq<Bar>, v: real)
    requires IsVolatility(bars, v)
    ensures v == 0.0 <==> Flat(Closes(bars))
  {
    VarianceZeroIffFlat(bars);
    SqSign(v);
  }

  // ---------------------------------------------------------------------
  // Signal, price levels and summary values

  datatype Signal = Buy | Sell | Hold

  /** The two-point trend rule: compare the last close with the first. */
  function SignalOf(bars: seq<Bar>): (r: Signal)
    requires |bars| > 0
    ensures r == Buy <==> Last(bars).c > bars[0].c
    ensures r == Sell <==> Last(bars).c < bars[0].c
    ensures r == Hold <==> Last(bars).c == bars[0].c
    ensures |bars| == 1 ==> r == Hold
  {
    var latest := Last(bars);
    if latest.c > bars[0].c then Buy
    else if latest.c < bars[0].c then Sell
    else Hold
  }

  /** Support: the lowest low, which some bar attains. */
  function Support(bars: seq<Bar>): (r: real)
    requires |bars| > 0
    ensures forall i :: 0 <= i < |bars| ==> r <= bars[i].l
    ensures exists i :: 0 <= i < |bars| && bars[i].l == r
  {
    var lows := Lows(bars);
    var r := MinOf(lows);
    assert exists i :: 0 <= i < |lows| && lows[i] == r;
    r
  }

  /** Resistance: the highest high, which some bar attains. */
  function Resistance(bars: seq<Bar>): (r: real)
    requires |bars| > 0
    ensures forall i :: 0 <= i < |bars| ==> bars[i].h <= r
    ensures exists i :: 0 <= i < |bars| && bars[i].h == r
  {
    var highs := Highs(bars);
    var r := MaxOf(highs);
    assert exists i :: 0 <= i < |highs| && highs[i] == r;
    r
  }

  /** `totalVolume`: the volumes added up bar by bar. */
  function TotalVolume(bars: seq<Bar>): nat
  {
    if bars == [] then 0 else TotalVolume(bars[..|bars| - 1]) + Last(bars).v
  }

  /** Volume totals add over consecutive stretches of bars. */
  lemma {:induction false} TotalVolumeAppend(a: seq<Bar>, b: seq<Bar>)
    ensures TotalVolume(a + b) == TotalVolume(a) + TotalVolume(b)
    decreases |b|
  {
    if b == [] {
      assert a + b == a;
    } else {
      var b' := b[..|b| - 1];
      assert (a + b)[..|a + b| - 1] == a + b';
      TotalVolumeAppend(a, b');
    }
  }

  /** The latest bar's volume never exceeds the total. */
  lemma LatestVolumeAtMostTotal(bars: seq<Bar>)
    requires |bars| > 0
    ensures Last(bars).v <= TotalVolume(bars)
  {
  }

  /** The average close lies between the lowest and highest close. */
  lemma AveragePriceBetween(bars: seq<Bar>)
    requires |bars| > 0
    ensures MinOf(Closes(bars)) <= Mean(Closes(bars)) <= MaxOf(Closes(bars))
  {
    var c := Closes(bars);
    WithinExtremes(c);
    MeanWithin(c, MinOf(c), MaxOf(c));
  }

  /** On bars whose closes lie within their own low..high range, support is
      at most every close and resistance at least every close. */
  lemma LevelsBracketCloses(bars: seq<Bar>)
    requires |bars| > 0 && AllWellFormed(bars)
    ensures Support(bars) <= MinOf(Closes(bars))
    ensures MaxOf(Closes(bars)) <= Resistance(bars)
  {
    var c := Closes(bars);
    var lo, hi := MinOf(c), MaxOf(c);
    var i :| 0 <= i < |c| && c[i] == lo;
    var j :| 0 <= j < |c| && c[j] == hi;
    assert WellFormed(bars[i]) && WellFormed(bars[j]);
  }
}
