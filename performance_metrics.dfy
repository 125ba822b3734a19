/** The `PerformanceMetrics` panel: the risk badge, the volatility progress
    bar and the null-aware display decisions over an optional set of
    metrics. `undefined` and `null` are both `None`. */
module PerformanceMetrics {
  import opened Optional

  datatype RiskLevel = Unknown | Low | Medium | High

  /** `getRiskLevel`: no volatility is Unknown; above 30 is High, above 20
      Medium, anything else Low. */
  function GetRiskLevel(volatility: Option<real>): (r: RiskLevel)
    ensures r == Unknown <==> volatility.None?
    ensures r == High <==> volatility.Some? && volatility.value > 30.0
    ensures r == Medium <==> volatility.Some? && 20.0 < volatility.value <= 30.0
    ensures r == Low <==> volatility.Some? && volatility.value <= 20.0
  {
    match volatility
    case None => Unknown
    case Some(v) =>
      if v > 30.0 then High
      else if v > 20.0 then Medium
      else Low
  }

  /** The order of the defined levels, for comparing them. */
  function Rank(level: RiskLevel): nat
  {
    match level
    case Unknown => 0
    case Low => 1
    case Medium => 2
    case High => 3
  }

  /** A larger defined volatility never gives a lower risk level. */
  lemma RiskMonotone(a: real, b: real)
    requires a <= b
    ensures 1 <= Rank(GetRiskLevel(Some(a))) <= Rank(GetRiskLevel(Some(b)))
  {
  }

  /** The `Progress` value under the volatility figure: a missing or zero
      volatility (both falsy) shows 0, any other is `min(v, 50) * 2`. */
  function ProgressValue(volatility: Option<real>): (r: real)
    ensures volatility.None? ==> r == 0.0
    ensures volatility.Some? ==> r <= 100.0
    ensures volatility.Some? ==> (r == 100.0 <==> volatility.value >= 50.0)
    ensures volatility.Some? && volatility.value <= 50.0 ==> r == 2.0 * volatility.value
  {
    match volatility
    case None => 0.0
    case Some(v) => if v == 0.0 then 0.0 else (if v <= 50.0 then v else 50.0) * 2.0
  }

  /** The zero test before `Math.min` changes nothing for a defined value:
      the bar is `2 * min(v, 50)` for every defined volatility, so it is
      monotone in the volatility. */
  lemma ProgressMonotone(a: real, b: real)
    requires a <= b
    ensures ProgressValue(Some(a)) <= ProgressValue(Some(b))
  {
  }

  /** The bar and the badge agree: for a defined volatility the badge reads
      High exactly when the bar is past 60, and Medium exactly when it is
      in (40, 60]. */
  lemma ProgressMatchesRisk(v: real)
    ensures GetRiskLevel(Some(v)) == High <==> ProgressValue(Some(v)) > 60.0
    ensures GetRiskLevel(Some(v)) == Medium <==> 40.0 < ProgressValue(Some(v)) <= 60.0
    ensures GetRiskLevel(Some(v)) == Low <==> ProgressValue(Some(v)) <= 40.0
  {
  }

  /** What a formatting helper shows: "N/A", or the number rounded to
      `decimals` places with an optional "+" in front and an optional "%"
      behind. The digits themselves (`toFixed`) are not modelled. */
  datatype Formatted =
    | NotAvailable
    | Fixed(plus: bool, value: real, decimals: nat, percent: bool)

  /** `formatPercent`: "N/A" for a missing value, otherwise two decimals,
      a "%" and a "+" exactly when the value is not negative. */
  function FormatPercent(value: Option<real>): (r: Formatted)
    ensures r == NotAvailable <==> value.None?
    ensures r.Fixed? ==> r.value == value.value && r.decimals == 2 && r.percent
    ensures r.Fixed? ==> (r.plus <==> value.value >= 0.0)
  {
    match value
    case None => NotAvailable
    case Some(v) => Fixed(v >= 0.0, v, 2, true)
  }

  /** `formatNumber`: "N/A" for a missing value, otherwise the value with
      `decimals` places (2 by default), never signed, never a percentage. */
  function FormatNumber(value: Option<real>, decimals: nat := 2): (r: Formatted)
    ensures r == NotAvailable <==> value.None?
    ensures r.Fixed? ==> r.value == value.value && r.decimals == decimals
    ensures r.Fixed? ==> !r.plus && !r.percent
  {
    match value
    case None => NotAvailable
    case Some(v) => Fixed(false, v, decimals, false)
  }

  /** Both helpers agree on which values are shown. */
  lemma FormattersAgreeOnMissing(value: Option<real>, decimals: nat)
    ensures FormatPercent(value).NotAvailable? <==> FormatNumber(value, decimals).NotAvailable?
    ensures FormatPercent(value).Fixed? ==> FormatPercent(value).value == FormatNumber(value, decimals).value
  {
  }

  datatype ReturnColor = Gain | Loss

  /** The colour of a return figure: the gain colour only for a defined,
      non-negative value; a missing value gets the loss colour. */
  function ColorOf(value: Option<real>): (r: ReturnColor)
    ensures r == Gain <==> value.Some? && value.value >= 0.0
  {
    if value.Some? && value.value >= 0.0 then Gain else Loss
  }

  datatype Trend = Up | Down

  /** The trend icon beside a return: none for a missing or zero value,
      up for a positive value, down for a negative one. */
  function TrendIcon(value: Option<real>): (r: Option<Trend>)
    ensures r.None? <==> value.None? || value.value == 0.0
    ensures r == Some(Up) <==> value.Some? && value.value > 0.0
    ensures r == Some(Down) <==> value.Some? && value.value < 0.0
  {
    if value.None? || value.value == 0.0 then None
    else if value.value >= 0.0 then Some(Up)
    else Some(Down)
  }

  /** Wherever an icon is shown, it agrees with the colour and the sign
      prefix of the figure beside it. */
  lemma IconAgreesWithFigure(value: Option<real>)
    requires TrendIcon(value).Some?
    ensures TrendIcon(value) == Some(Up) <==> ColorOf(value) == Gain
    ensures TrendIcon(value) == Some(Up) <==> FormatPercent(value).plus
  {
  }

  /** The dividend card is shown only for a defined, positive yield. */
  function ShowDividend(dividendYield: Option<real>): (r: bool)
    ensures r <==> dividendYield.Some? && dividendYield.value > 0.0
  {
    dividendYield.Some? && dividendYield.value > 0.0
  }

  /** A shown dividend is always formatted with a "+". */
  lemma ShownDividendIsSigned(dividendYield: Option<real>)
    requires ShowDividend(dividendYield)
    ensures FormatPercent(dividendYield).Fixed? && FormatPercent(dividendYield).plus
  {
  }
}
