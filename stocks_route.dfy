/** The `/api/stocks/all` route: its indicator helpers and the values
    `fetchStockData` derives from one symbol's daily bars. The HTTP fetch
    itself is not modelled: the bars it returns are a parameter. */
module StocksRoute {
  import opened Optional
  import opened Series
  import opened Bars
  import opened Indicators

  /** `calculateRSI`: walks the last `period` close-to-close changes,
      adding rises to `gains` and falls to `losses`. */
  method CalculateRsi(bars: seq<Bar>, period: nat := 14) returns (r: real)
    ensures r == Rsi(bars, period)
    ensures |bars| <= period ==> r == 50.0
    ensures |bars| > period ==> 0.0 <= r < 100.0
  {
    if |bars| <= period {
      return 50.0;
    }
    ghost var c := Closes(bars);
    var gains, losses := 0.0, 0.0;
    var i := |bars| - period;
    while i < |bars|
      invariant |bars| - period <= i <= |bars|
      invariant gains == Gains(c, |bars| - period, i)
      invariant losses == Losses(c, |bars| - period, i)
    {
      var diff := bars[i].c - bars[i - 1].c;
      if diff > 0.0 {
        gains := gains + diff;
      } else {
        losses := losses - diff;
      }
      i := i + 1;
    }
    var rs := gains / (if losses == 0.0 then 1.0 else losses);
    r := 100.0 - 100.0 / (1.0 + rs);
  }

  /** `calculateEMA`: seeds with the mean of the first `period` values,
      then folds in each later value with weight `k = 2 / (period + 1)`. */
  method CalculateEma(data: seq<real>, period: nat) returns (ema: real)
    requires period > 0
    ensures ema == Ema(data, period)
  {
    var k := 2.0 / (period as real + 1.0);
    var seedLength := Min(period, |data|);
    assert data[..seedLength][..seedLength] == data[..seedLength];
    ema := Sum(data[..seedLength]) / period as real;
    var i := period;
    while i < |data|
      invariant period <= i
      invariant ema == Ema(data[..Min(i, |data|)], period)
    {
      EmaPrefixStep(data, period, i);
      assert Min(i + 1, |data|) == i + 1 && Min(i, |data|) == i;
      assert k == Alpha(period);
      ema := data[i] * k + ema * (1.0 - k);
      i := i + 1;
    }
    assert data[..Min(i, |data|)] == data;
  }

  /** `calculateMACD`: 0 below `slow` bars, otherwise the fast EMA of the
      closes minus the slow one. */
  method CalculateMacd(bars: seq<Bar>, fast: nat := 12, slow: nat := 26) returns (r: real)
    requires fast > 0 && slow > 0
    ensures r == Macd(bars, fast, slow)
  {
    if |bars| < slow {
      return 0.0;
    }
    var closes := Closes(bars);
    var fastEma := CalculateEma(closes, fast);
    var slowEma := CalculateEma(closes, slow);
    r := fastEma - slowEma;
  }

  /** `((c - o) / o) * 100`: the day's move as a percentage of its open.
      The source divides unguarded; a zero open, which would give a
      non-finite number there, is `None` here. */
  function ChangePercent(b: Bar): (r: Option<real>)
    ensures r.Some? <==> b.o != 0.0
    ensures r.Some? ==> r.value * b.o == (b.c - b.o) * 100.0
  {
    if b.o == 0.0 then None
    else
      var q := (b.c - b.o) / b.o;
      assert q * b.o == b.c - b.o;
      Some(q * 100.0)
  }

  /** The per-symbol record `fetchStockData` returns on success. The route
      reports `Math.sqrt(variance)` as `volatility`; the model keeps the
      variance (see `Indicators.IsVolatility`). */
  datatype StockSummary = StockSummary(
    symbol: string,
    bars: seq<Bar>,
    price: real,
    volume: nat,
    change: real,
    changePercent: Option<real>,
    high30: real,
    low30: real,
    avgPrice: real,
    totalVolume: nat,
    startDate: string,
    endDate: string,
    signal: Signal,
    variance: real,
    sma20: real,
    sma50: real,
    rsi: real,
    macd: real,
    support: real,
    resistance: real)

  /** Success, or the `{ symbol, error }` record the route returns after
      catching an exception. */
  datatype FetchResult = Fetched(summary: StockSummary) | FetchFailed(symbol: string, error: string)

  /** The derivations of `fetchStockData` once the bars have arrived: an
      empty bar list is an error; otherwise the summary holds the latest
      bar's figures, the trend signal, the indicators and the price levels. */
  method FetchStockData(symbol: string, bars: seq<Bar>) returns (r: FetchResult)
    ensures r.FetchFailed? <==> |bars| == 0
    ensures r.FetchFailed? ==> r.symbol == symbol && r.error == "No bars returned"
    ensures r.Fetched? ==>
      var s := r.summary;
      && s.symbol == symbol && s.bars == bars
      && s.price == Last(bars).c && s.volume == Last(bars).v
      && s.change == Last(bars).c - Last(bars).o
      && s.changePercent == ChangePercent(Last(bars))
      && s.startDate == bars[0].t && s.endDate == Last(bars).t
      && s.signal == SignalOf(bars)
      && s.high30 == MaxOf(Closes(bars)) && s.low30 == MinOf(Closes(bars))
      && s.avgPrice == Mean(Closes(bars)) && s.low30 <= s.avgPrice <= s.high30
      && s.totalVolume == TotalVolume(bars) && s.volume <= s.totalVolume
      && s.variance == Variance(bars)
      && s.sma20 == Sma(bars, 20) && s.sma50 == Sma(bars, 50)
      && s.rsi == Rsi(bars, 14) && (s.rsi == 50.0 || 0.0 <= s.rsi < 100.0)
      && s.macd == Macd(bars, 12, 26)
      && s.support == Support(bars) && s.resistance == Resistance(bars)
      && (AllWellFormed(bars) ==> s.support <= s.low30 && s.high30 <= s.resistance)
  {
    if |bars| == 0 {
      return FetchFailed(symbol, "No bars returned");
    }
    var latest := bars[|bars| - 1];
    var prices := Closes(bars);
    var signal := SignalOf(bars);

    var sma20 := Sma(bars, 20);
    var sma50 := Sma(bars, 50);
    var rsi := CalculateRsi(bars);
    var macd := CalculateMacd(bars);
    var variance := Variance(bars);
    var support := Support(bars);
    var resistance := Resistance(bars);

    var changePercent := ChangePercent(latest);
    AveragePriceBetween(bars);
    LatestVolumeAtMostTotal(bars);
    if AllWellFormed(bars) {
      LevelsBracketCloses(bars);
    }
    r := Fetched(StockSummary(
      symbol, bars, latest.c, latest.v, latest.c - latest.o, changePercent,
      MaxOf(prices), MinOf(prices), Mean(prices), TotalVolume(bars),
      bars[0].t, latest.t, signal, variance, sma20, sma50, rsi, macd, support, resistance));
  }
}
