/** src/services/yahooFinanceService.ts: the Yahoo Finance adapter. The chart
    request is outside the model; its decoded `chart.result` list is a parameter. */
module YahooFinanceService {
  import opened Wrappers
  import opened JsBuiltins
  import JsObject
  import opened MarketTypes

  const SourceName := "Yahoo Finance"

  const SymbolMap: map<string, string> := map[
    "NAS100" := "^NDX",
    "NASDAQ" := "^IXIC",
    "SPX" := "^GSPC",
    "DJI" := "^DJI",
    "BTCUSD" := "BTC-USD",
    "ETHUSD" := "ETH-USD"]

  /** convertSymbol, with the lookup restricted to the table's own entries:
      unmapped symbols pass through unchanged. */
  function ConvertSymbol(symbol: string): (ticker: string)
    ensures symbol in SymbolMap ==> ticker == SymbolMap[symbol]
    ensures symbol !in SymbolMap ==> ticker == symbol
    ensures ticker in SymbolMap.Values || ticker == symbol
  {
    if symbol in SymbolMap then SymbolMap[symbol] else symbol
  }

  /** The six known symbols and their Yahoo tickers. */
  lemma KnownTickers()
    ensures ConvertSymbol("NAS100") == "^NDX" && ConvertSymbol("NASDAQ") == "^IXIC"
    ensures ConvertSymbol("SPX") == "^GSPC" && ConvertSymbol("DJI") == "^DJI"
    ensures ConvertSymbol("BTCUSD") == "BTC-USD" && ConvertSymbol("ETHUSD") == "ETH-USD"
  {
  }

  /** Translating twice is translating once: no ticker is itself a key. */
  lemma {:induction false} ConvertSymbolIdempotent(symbol: string)
    ensures ConvertSymbol(ConvertSymbol(symbol)) == ConvertSymbol(symbol)
  {
    if symbol in SymbolMap {
      assert SymbolMap.Values !! SymbolMap.Keys by {
        assert SymbolMap.Keys == {"NAS100", "NASDAQ", "SPX", "DJI", "BTCUSD", "ETHUSD"};
        assert SymbolMap.Values == {"^NDX", "^IXIC", "^GSPC", "^DJI", "BTC-USD", "ETH-USD"};
      }
      assert SymbolMap[symbol] in SymbolMap.Values;
    }
  }

  /** What `symbolMap[symbol] || symbol` yields in JavaScript. */
  datatype Converted = Ticker(name: string) | PrototypeMember(name: string)

  function ConvertSymbolAsWritten(symbol: string): (c: Converted)
    ensures symbol !in JsObject.PrototypeMembers ==> c == Ticker(ConvertSymbol(symbol))
    ensures c.PrototypeMember? <==> symbol in JsObject.PrototypeMembers
  {
    match JsObject.Get(SymbolMap, symbol)
    case Own(v) => Ticker(v)
    case Inherited(name) => PrototypeMember(name)
    case Absent => Ticker(symbol)
  }

  /** The symbol "valueOf" is not passed through unchanged. */
  lemma ConvertSymbolAsWrittenMissesIdentity()
    ensures ConvertSymbolAsWritten("valueOf") != Ticker("valueOf")
    ensures ConvertSymbol("valueOf") == "valueOf"
  {
  }

  /** The fields of `chart.result[0].meta` that getMarketData reads. */
  datatype ChartMeta = ChartMeta(regularMarketPrice: real, previousClose: real, regularMarketVolume: real)

  /** `((change / previousClose) * 100).toFixed(2)`; a zero previous close makes
      the quotient Infinity, -Infinity or NaN, which toFixed spells out. */
  function ChangePercentText(change: real, previousClose: real): (s: string)
    ensures |s| >= 3
    ensures previousClose != 0.0 ==> s == Fixed2(change / previousClose * 100.0)
    ensures previousClose != 0.0 ==> SpellsFixed2(s, change / previousClose * 100.0)
    ensures previousClose == 0.0 ==> s in {"Infinity", "-Infinity", "NaN"}
    ensures previousClose == 0.0 ==> (s == "NaN" <==> change == 0.0) && (s[0] == '-' <==> change < 0.0)
  {
    if previousClose != 0.0 then Fixed2(change / previousClose * 100.0)
    else if change > 0.0 then "Infinity"
    else if change < 0.0 then "-Infinity"
    else "NaN"
  }

  /** getMarketData: `chart` is the decoded `chart.result` list, `Err` when the
      request or the decoding fails. An empty list is an error. The record keeps
      the caller's symbol, not the Yahoo ticker. */
  function GetMarketData(symbol: string, chart: Result<seq<ChartMeta>>, now: int): (r: Result<MarketData>)
    ensures r.Ok? <==> chart.Ok? && |chart.value| > 0
    ensures chart == Ok([]) ==> r == Err("No chart data received from Yahoo Finance")
    ensures r.Ok? ==> var meta := chart.value[0];
      && r.value.symbol == symbol
      && r.value.source == SourceName
      && r.value.price == meta.regularMarketPrice
      && r.value.change24h + meta.previousClose == meta.regularMarketPrice
      && (r.value.change24h > 0.0 <==> meta.regularMarketPrice > meta.previousClose)
      && r.value.volume24h == meta.regularMarketVolume
      && r.value.lastUpdate == now
    ensures r.Ok? ==> var cp := r.value.changePercent; |cp| >= 1 && cp[|cp| - 1] == '%'
    ensures r.Ok? ==> r.value.changePercent == ChangePercentText(r.value.change24h, chart.value[0].previousClose) + "%"
  {
    match chart
    case Err(m) => Err(m)
    case Ok(results) =>
      if results == [] then Err("No chart data received from Yahoo Finance")
      else
        var meta := results[0];
        var change := meta.regularMarketPrice - meta.previousClose;
        Ok(MarketData(symbol, meta.regularMarketPrice, change,
          ChangePercentText(change, meta.previousClose) + "%", meta.regularMarketVolume, now, SourceName))
  }
}
