/** src/services/alphaVantageService.ts: the Alpha Vantage adapter and the
    technical-indicator rules. Each response is passed in already decoded:
    `Err` for a request or JSON failure, `None` for a missing top-level block. */
module AlphaVantageService {
  import opened Wrappers
  import opened JsBuiltins
  import opened MarketTypes

  const SourceName := "Alpha Vantage"
  /** The message of the TypeError thrown when the indicator block has no entry. */
  const NoEntryError := "Cannot read properties of undefined"

  /** The fields of 'Global Quote' that getMarketData reads; `changePercent` is
      `None` when '10. change percent' is absent. */
  datatype GlobalQuote = GlobalQuote(price: real, change: real, changePercent: Option<string>, volume: real)

  /** `changePercent.replace('%', '') + '%'`: drop the first '%' and append one. */
  function NormalizePercent(text: string): (s: string)
    ensures |s| >= 1 && s[|s| - 1] == '%'
    ensures '%' !in text ==> s == text + "%"
  {
    RemoveFirst(text, '%') + "%"
  }

  /** A text already in the form Alpha Vantage sends ("1.23%") is left as it is. */
  lemma {:induction false} NormalizePercentKeepsWellFormed(t: string)
    requires '%' !in t
    ensures NormalizePercent(t + "%") == t + "%"
  {
    RemoveFirstBeforeLast(t, '%');
  }

  lemma {:induction false} RemoveFirstBeforeLast(t: string, c: char)
    requires c !in t
    ensures RemoveFirst(t + [c], c) == t
  {
    if t != [] {
      assert (t + [c])[1..] == t[1..] + [c];
      RemoveFirstBeforeLast(t[1..], c);
    }
  }

  /** getMarketData: a missing 'Global Quote' and a missing change-percent field
      are errors; otherwise the quote is normalised and tagged with the source. */
  function GetMarketData(symbol: string, response: Result<Option<GlobalQuote>>, now: int)
    : (r: Result<MarketData>)
    ensures r.Ok? <==> response.Ok? && response.value.Some? && response.value.value.changePercent.Some?
    ensures response == Ok(None) ==> r == Err("No quote data received from Alpha Vantage")
    ensures r.Ok? ==> r.value.symbol == symbol && r.value.source == SourceName && r.value.lastUpdate == now
    ensures r.Ok? ==> var cp := r.value.changePercent; |cp| >= 1 && cp[|cp| - 1] == '%'
    ensures r.Ok? ==> r.value.price == response.value.value.price
    ensures r.Ok? ==> var q := response.value.value;
      && r.value.change24h == q.change && r.value.volume24h == q.volume
      && r.value.changePercent == NormalizePercent(q.changePercent.value)
  {
    match response
    case Err(m) => Err(m)
    case Ok(None) => Err("No quote data received from Alpha Vantage")
    case Ok(Some(q)) =>
      match q.changePercent
      case None => Err(NoEntryError)
      case Some(text) =>
        Ok(MarketData(symbol, q.price, q.change, NormalizePercent(text), q.volume, now, SourceName))
  }

  datatype EmaTriple = EmaTriple(ema50: real, ema100: real, ema200: real)

  /** The first entry of an indicator block, parsed (`None` for NaN). */
  function FirstEntry(response: Result<Option<seq<Option<real>>>>, missing: string): (r: Result<Option<real>>)
    ensures r.Ok? <==> response.Ok? && response.value.Some? && |response.value.value| > 0
    ensures r.Ok? ==> r.value == response.value.value[0]
    ensures response == Ok(None) ==> r == Err(missing)
  {
    match response
    case Err(m) => Err(m)
    case Ok(None) => Err(missing)
    case Ok(Some(entries)) => if entries == [] then Err(NoEntryError) else Ok(entries[0])
  }

  /** getEMA: one EMA value yields the whole triple (x, 0.99x, 0.98x); an
      unparsable or zero value yields 23500/23400/23300. */
  function GetEMA(response: Result<Option<seq<Option<real>>>>): (r: Result<EmaTriple>)
    ensures r.Ok? <==> response.Ok? && response.value.Some? && |response.value.value| > 0
    ensures response == Ok(None) ==> r == Err("No EMA data received")
    ensures r.Ok? ==> var v := response.value.value[0];
      if v.Some? && v.value != 0.0 then r.value == EmaTriple(v.value, 0.99 * v.value, 0.98 * v.value)
      else r.value == EmaTriple(23500.0, 23400.0, 23300.0)
  {
    match FirstEntry(response, "No EMA data received")
    case Err(m) => Err(m)
    case Ok(v) =>
      var scaled := (f: real) => if v.Some? then Some(v.value * f) else None;
      Ok(EmaTriple(NumberOr(v, 23500.0), NumberOr(scaled(0.99), 23400.0), NumberOr(scaled(0.98), 23300.0)))
  }

  /** For a positive or defaulted EMA the triple is strictly descending; for a
      negative one it is ascending. */
  lemma EmaDescending(response: Result<Option<seq<Option<real>>>>)
    requires GetEMA(response).Ok?
    ensures var e := GetEMA(response).value;
      e.ema50 > 0.0 <==> e.ema50 > e.ema100 > e.ema200
  {
  }

  /** getRSI: the first RSI value, 65 when it is unparsable or zero. */
  function GetRSI(response: Result<Option<seq<Option<real>>>>): (r: Result<real>)
    ensures r.Ok? <==> response.Ok? && response.value.Some? && |response.value.value| > 0
    ensures response == Ok(None) ==> r == Err("No RSI data received")
    ensures r.Ok? ==> var v := response.value.value[0];
      r.value == if v.Some? && v.value != 0.0 then v.value else 65.0
  {
    match FirstEntry(response, "No RSI data received")
    case Err(m) => Err(m)
    case Ok(v) => Ok(NumberOr(v, 65.0))
  }

  function CalculateSupport(price: real): (support: real)
    ensures price >= 0.0 ==> support <= price
    ensures price > 0.0 ==> support < price
    ensures support == price - price * 0.02
  {
    price * 0.98
  }

  function CalculateResistance(price: real): (resistance: real)
    ensures price >= 0.0 ==> price <= resistance
    ensures price > 0.0 ==> price < resistance
    ensures resistance == price + price * 0.02
  {
    price * 1.02
  }

  /** determineTrend: the three outcomes partition every (EMA, RSI) input. */
  function DetermineTrend(ema: EmaTriple, rsi: real): (t: Trend)
    ensures t == Bullish <==> ema.ema50 > ema.ema200 && rsi > 50.0
    ensures t == Bearish <==> ema.ema50 < ema.ema200 && rsi < 50.0
    ensures t == Sideways <==> !(ema.ema50 > ema.ema200 && rsi > 50.0) && !(ema.ema50 < ema.ema200 && rsi < 50.0)
  {
    if ema.ema50 > ema.ema200 && rsi > 50.0 then Bullish
    else if ema.ema50 < ema.ema200 && rsi < 50.0 then Bearish
    else Sideways
  }

  /** detectPullback: strictly outside [30, 70]; both bounds are not pullbacks. */
  function DetectPullback(ema: EmaTriple, rsi: real): (pullback: bool)
    ensures pullback <==> rsi < 30.0 || rsi > 70.0
    ensures 30.0 <= rsi <= 70.0 ==> !pullback
  {
    rsi < 30.0 || rsi > 70.0
  }

  /** getTechnicalData: the three requests run together and any failure fails
      the whole (the model reports the leftmost failure; which rejection the
      source surfaces depends on timing). */
  function GetTechnicalData(
    symbol: string,
    emaResponse: Result<Option<seq<Option<real>>>>,
    rsiResponse: Result<Option<seq<Option<real>>>>,
    quoteResponse: Result<Option<GlobalQuote>>,
    now: int): (r: Result<TechnicalData>)
    ensures r.Ok? <==> GetEMA(emaResponse).Ok? && GetRSI(rsiResponse).Ok? && GetMarketData(symbol, quoteResponse, now).Ok?
    ensures r.Ok? ==> var price := GetMarketData(symbol, quoteResponse, now).value.price;
      && r.value.currentPrice == price
      && r.value.supportLevel == CalculateSupport(price)
      && r.value.resistanceLevel == CalculateResistance(price)
      && r.value.rsi == GetRSI(rsiResponse).value
      && r.value.ema50 == GetEMA(emaResponse).value.ema50
      && r.value.ema100 == GetEMA(emaResponse).value.ema100
      && r.value.ema200 == GetEMA(emaResponse).value.ema200
      && r.value.trend == DetermineTrend(GetEMA(emaResponse).value, r.value.rsi)
      && r.value.pullbackSignal == DetectPullback(GetEMA(emaResponse).value, r.value.rsi)
  {
    match GetEMA(emaResponse)
    case Err(m) => Err(m)
    case Ok(ema) =>
      match GetRSI(rsiResponse)
      case Err(m) => Err(m)
      case Ok(rsi) =>
        match GetMarketData(symbol, quoteResponse, now)
        case Err(m) => Err(m)
        case Ok(quote) =>
          Ok(TechnicalData(
            ema.ema50, ema.ema100, ema.ema200, rsi,
            CalculateSupport(quote.price), CalculateResistance(quote.price), quote.price,
            DetermineTrend(ema, rsi), DetectPullback(ema, rsi)))
  }

  /** With a positive or defaulted EMA the assembled snapshot is never bearish:
      it is bullish exactly when RSI is above 50, and sideways otherwise. */
  lemma NeverBearishForPositiveEma(
    symbol: string,
    emaResponse: Result<Option<seq<Option<real>>>>,
    rsiResponse: Result<Option<seq<Option<real>>>>,
    quoteResponse: Result<Option<GlobalQuote>>,
    now: int)
    requires GetTechnicalData(symbol, emaResponse, rsiResponse, quoteResponse, now).Ok?
    requires GetTechnicalData(symbol, emaResponse, rsiResponse, quoteResponse, now).value.ema50 > 0.0
    ensures var t := GetTechnicalData(symbol, emaResponse, rsiResponse, quoteResponse, now).value;
      t.trend != Bearish && (t.trend == Bullish <==> t.rsi > 50.0)
  {
    EmaDescending(emaResponse);
  }
}
