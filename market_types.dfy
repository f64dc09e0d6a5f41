/** The records the services exchange (the interfaces declared in
    src/services/marketDataService.ts and the signal record of the hooks).
    Timestamps are the epoch milliseconds their ISO strings are rendered from. */
module MarketTypes {
  import opened Wrappers

  datatype MarketData = MarketData(
    symbol: string,
    price: real,
    change24h: real,
    changePercent: string,
    volume24h: real,
    lastUpdate: int,
    source: string)

  datatype Side = Buy | Sell

  datatype Confidence = High | Medium | Low

  /** Position of a confidence bucket, 0 for the lowest. */
  function ConfidenceRank(c: Confidence): nat {
    match c
    case Low => 0
    case Medium => 1
    case High => 2
  }

  datatype WhaleTransaction = WhaleTransaction(
    id: string,
    timestamp: int,
    side: Side,
    amount: real,
    amountUsd: real,
    price: real,
    confidence: Confidence,
    source: Option<string>)

  datatype Trend = Bullish | Bearish | Sideways

  datatype TechnicalData = TechnicalData(
    ema50: real,
    ema100: real,
    ema200: real,
    rsi: real,
    supportLevel: real,
    resistanceLevel: real,
    currentPrice: real,
    trend: Trend,
    pullbackSignal: bool)

  datatype SignalType = VolumeSpike | WhaleActivity | TechnicalBreakout | EmaCross | SupportBreak

  datatype Features = Features(price: real, volume: real, rsi: Option<real>, whaleActivity: Option<bool>)

  /** Which of the fixed (Persian) headlines a signal carries. */
  datatype Headline =
    | OverboughtWarning | OversoldOpportunity | UptrendConfirmed
    | WhaleBuyWithVolume | Ema50Crossed100 | BullishSignal | BearishWarning

  /** A trading signal; its description and disclaimer texts are not modelled. */
  datatype TradingSignal = TradingSignal(
    id: string,
    title: Headline,
    timestamp: int,
    symbol: string,
    confidence: Confidence,
    kind: SignalType,
    features: Features)
}
