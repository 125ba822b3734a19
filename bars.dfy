/** The optional value of a field that may be `undefined` in the source. */
module Optional {
  datatype Option<+T> = None | Some(value: T)
}

/** One instrument's daily OHLCV bars, as the market-data endpoint returns
    them (`StockBar`: timestamp, open, high, low, close, volume), and the
    per-field projections the indicators read. */
module Bars {
  import opened Series

  datatype Bar = Bar(t: string, o: real, h: real, l: real, c: real, v: nat)

  /** The bar's close lies within its own low..high range. */
  predicate WellFormed(b: Bar)
  {
    b.l <= b.c <= b.h
  }

  predicate AllWellFormed(bars: seq<Bar>)
  {
    forall i :: 0 <= i < |bars| ==> WellFormed(bars[i])
  }

  /** `bars.map(b => b.c)` */
  function Closes(bars: seq<Bar>): (r: seq<real>)
    ensures |r| == |bars|
    ensures forall i :: 0 <= i < |bars| ==> r[i] == bars[i].c
  {
    seq(|bars|, i requires 0 <= i < |bars| => bars[i].c)
  }

  /** `bars.map(b => b.l)` */
  function Lows(bars: seq<Bar>): (r: seq<real>)
    ensures |r| == |bars|
    ensures forall i :: 0 <= i < |bars| ==> r[i] == bars[i].l
  {
    seq(|bars|, i requires 0 <= i < |bars| => bars[i].l)
  }

  /** `bars.map(b => b.h)` */
  function Highs(bars: seq<Bar>): (r: seq<real>)
    ensures |r| == |bars|
    ensures forall i :: 0 <= i < |bars| ==> r[i] == bars[i].h
  {
    seq(|bars|, i requires 0 <= i < |bars| => bars[i].h)
  }

  /** The most recent bar, `bars[bars.length - 1]`. */
  function Last(bars: seq<Bar>): Bar
    requires |bars| > 0
  {
    bars[|bars| - 1]
  }
}
