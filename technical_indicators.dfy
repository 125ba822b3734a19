/** The `TechnicalIndicators` panel: its own copies of the SMA, RSI and MACD
    helpers (the EMA is a closure inside `calculateMACD` there), the
    support / resistance / current-price readings, and the two badges that
    classify RSI and MACD values. Each copy is proved to compute the same
    `Indicators` definition as the API route. */
module TechnicalIndicators {
  import opened Optional
  import opened Series
  import opened Bars
  import Indicators

  /** The panel's `calculateRSI`, written exactly as the route's. */
  method CalculateRsi(bars: seq<Bar>, period: nat := 14) returns (r: real)
    ensures r == Indicators.Rsi(bars, period)
  {
    if |bars| <= period {
      return 50.0;
    }
    ghost var c := Closes(bars);
    var gains, losses := 0.0, 0.0;
    var i := |bars| - period;
    while i < |bars|
      invariant |bars| - period <= i <= |bars|
      invariant gains == Indicators.Gains(c, |bars| - period, i)
      invariant losses == Indicators.Losses(c, |bars| - period, i)
    {
      var diff := bars[i].c - bars[i - 1].c;
      if diff > 0.0 {
        gains := gains + diff;
      } else {
        losses := losses - diff;
      }
      i := i + 1;
    }
    var rs := gains / (if losses == 0.0 then 1.0 else losses);
    r := 100.0 - 100.0 / (1.0 + rs);
  }

  /** The `ema` closure inside `calculateMACD`: its loop reads only
      `data[period..]` after the seed. */
  method Ema(data: seq<real>, period: nat) returns (emaPrev: real)
    requires period > 0
    ensures emaPrev == Indicators.Ema(data, period)
  {
    var k := 2.0 / (period as real + 1.0);
    var seedLength := Min(period, |data|);
    assert data[..seedLength][..seedLength] == data[..seedLength];
    emaPrev := Sum(data[..seedLength]) / period as real;
    var i := period;
    while i < |data|
      invariant period <= i
      invariant emaPrev == Indicators.Ema(data[..Min(i, |data|)], period)
    {
      Indicators.EmaPrefixStep(data, period, i);
      assert Min(i + 1, |data|) == i + 1 && Min(i, |data|) == i;
      assert k == Indicators.Alpha(period);
      emaPrev := data[i] * k + emaPrev * (1.0 - k);
      i := i + 1;
    }
    assert data[..Min(i, |data|)] == data;
  }

  /** The panel's `calculateMACD`. */
  method CalculateMacd(bars: seq<Bar>, fast: nat := 12, slow: nat := 26) returns (r: real)
    requires fast > 0 && slow > 0
    ensures r == Indicators.Macd(bars, fast, slow)
  {
    if |bars| < slow {
      return 0.0;
    }
    var closes := Closes(bars);
    var fastEma := Ema(closes, fast);
    var slowEma := Ema(closes, slow);
    r := fastEma - slowEma;
  }

  /** `bars[bars.length - 1]?.c ?? 0`: the last close, or 0 with no bars. */
  function Current(bars: seq<Bar>): (r: real)
    ensures |bars| == 0 ==> r == 0.0
    ensures |bars| > 0 ==> r == Last(bars).c
  {
    if |bars| == 0 then 0.0 else bars[|bars| - 1].c
  }

  /** On a non-empty series whose closes lie within their bars' ranges, the
      current price sits between support and resistance. */
  lemma CurrentBetweenLevels(bars: seq<Bar>)
    requires |bars| > 0 && AllWellFormed(bars)
    ensures Indicators.Support(bars) <= Current(bars) <= Indicators.Resistance(bars)
  {
    assert WellFormed(Last(bars));
  }

  datatype RsiStatus = Overbought | Oversold | Neutral

  /** `getRSIStatus`: above 70 is overbought, below 30 oversold. */
  function GetRsiStatus(value: real): (r: RsiStatus)
    ensures r == Overbought <==> value > 70.0
    ensures r == Oversold <==> value < 30.0
    ensures r == RsiStatus.Neutral <==> 30.0 <= value <= 70.0
  {
    if value > 70.0 then Overbought
    else if value < 30.0 then Oversold
    else RsiStatus.Neutral
  }

  datatype MacdStatus = Bullish | Bearish | Neutral

  /** `getMACDStatus`: above 0.5 is bullish, below -0.5 bearish. */
  function GetMacdStatus(value: real): (r: MacdStatus)
    ensures r == Bullish <==> value > 0.5
    ensures r == Bearish <==> value < -0.5
    ensures r == MacdStatus.Neutral <==> -0.5 <= value <= 0.5
  {
    if value > 0.5 then Bullish
    else if value < -0.5 then Bearish
    else MacdStatus.Neutral
  }

  /** What the panel renders. `Math.min` / `Math.max` of no lows or highs
      give +Infinity / -Infinity in the source; here that is `None`. */
  datatype Readings = Readings(
    sma20: real,
    sma50: real,
    rsi: real,
    macd: real,
    support: Option<real>,
    resistance: Option<real>,
    current: real,
    rsiStatus: RsiStatus,
    macdStatus: MacdStatus)

  /** The body of `TechnicalIndicators`: every reading, and what the
      sentinels of a short history show as. */
  method ComputeReadings(bars: seq<Bar>) returns (p: Readings)
    ensures p.sma20 == Indicators.Sma(bars, 20) && p.sma50 == Indicators.Sma(bars, 50)
    ensures p.rsi == Indicators.Rsi(bars, 14) && p.macd == Indicators.Macd(bars, 12, 26)
    ensures p.current == Current(bars)
    ensures p.support.Some? <==> |bars| > 0
    ensures p.resistance.Some? <==> |bars| > 0
    ensures |bars| > 0 ==>
      p.support == Some(Indicators.Support(bars)) && p.resistance == Some(Indicators.Resistance(bars))
    ensures |bars| > 0 && AllWellFormed(bars) ==>
      p.support.value <= p.current <= p.resistance.value
    ensures p.rsiStatus == GetRsiStatus(p.rsi) && p.macdStatus == GetMacdStatus(p.macd)
    ensures |bars| < 20 ==> p.sma20 == 0.0
    ensures |bars| < 50 ==> p.sma50 == 0.0
    ensures |bars| <= 14 ==> p.rsiStatus == RsiStatus.Neutral
    ensures |bars| < 26 ==> p.macdStatus == MacdStatus.Neutral
  {
    var sma20 := Indicators.Sma(bars, 20);
    var sma50 := Indicators.Sma(bars, 50);
    var rsi := CalculateRsi(bars);
    var macd := CalculateMacd(bars);
    var support := if |bars| == 0 then None else Some(Indicators.Support(bars));
    var resistance := if |bars| == 0 then None else Some(Indicators.Resistance(bars));
    var current := Current(bars);
    if |bars| > 0 && AllWellFormed(bars) {
      CurrentBetweenLevels(bars);
    }
    p := Readings(sma20, sma50, rsi, macd, support, resistance, current,
                  GetRsiStatus(rsi), GetMacdStatus(macd));
  }
}
