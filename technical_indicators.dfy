/** src/components/trading/TechnicalIndicators.tsx: the RSI status badge and
    the trend label of the indicator card. */
module TechnicalIndicators {
  import opened MarketTypes
  import AlphaVantageService

  datatype RsiStatus = Overbought | Oversold | Neutral

  /** getRSIStatus: both thresholds are inclusive. */
  function GetRsiStatus(rsi: real): (s: RsiStatus)
    ensures s == Overbought <==> rsi >= 70.0
    ensures s == Oversold <==> rsi <= 30.0
    ensures s == Neutral <==> 30.0 < rsi < 70.0
  {
    if rsi >= 70.0 then Overbought
    else if rsi <= 30.0 then Oversold
    else Neutral
  }

  /** The trend badge's text: rising, falling, neutral. */
  function TrendLabel(t: Trend): (text: string)
    ensures |text| >= 4
  {
    if t == Bullish then "صعودی"
    else if t == Bearish then "نزولی"
    else "خنثی"
  }

  /** Different trends get different labels. */
  lemma TrendLabelsDistinct(t1: Trend, t2: Trend)
    requires t1 != t2
    ensures TrendLabel(t1) != TrendLabel(t2)
  {
  }

  /** The card's extreme-RSI badge and the provider's pullback flag disagree
      only at exactly 30 and 70: the card counts them as extreme, the provider
      does not. */
  lemma RsiConventionsDiffer(ema: AlphaVantageService.EmaTriple, rsi: real)
    ensures (GetRsiStatus(rsi) != Neutral) != AlphaVantageService.DetectPullback(ema, rsi)
      <==> rsi == 30.0 || rsi == 70.0
  {
  }
}
