/** src/services/marketDataService.ts: the aggregator over the three adapters.
    An adapter call is given as the value its promise settles to. */
module MarketDataService {
  import opened Wrappers
  import opened MarketTypes
  import BinanceService
  import AlphaVantageService
  import YahooFinanceService

  datatype Source = YahooFinance | AlphaVantage | Binance

  function Name(s: Source): string {
    match s
    case YahooFinance => YahooFinanceService.SourceName
    case AlphaVantage => AlphaVantageService.SourceName
    case Binance => BinanceService.SourceName
  }

  /** The order in which getMarketData tries the sources. */
  const Sources: seq<Source> := [YahooFinance, AlphaVantage, Binance]

  const AllFailed := "All market data sources failed"

  /** `order[i]` succeeds and every source before it fails. */
  predicate FirstSuccessAt(order: seq<Source>, attempt: Source -> Result<MarketData>, i: int) {
    0 <= i < |order| && attempt(order[i]).Ok? && forall j :: 0 <= j < i ==> attempt(order[j]).Err?
  }

  /** The first source in `order` whose call succeeds, its record re-tagged with
      the source's name; the aggregate error when every call fails. */
  function FirstSuccess(order: seq<Source>, attempt: Source -> Result<MarketData>): (r: Result<MarketData>)
    ensures r.Err? <==> forall i :: 0 <= i < |order| ==> attempt(order[i]).Err?
    ensures r.Err? ==> r.message == AllFailed
    ensures r.Ok? ==> (exists i :: FirstSuccessAt(order, attempt, i)
                                 && r.value == attempt(order[i]).value.(source := Name(order[i])))
  {
    if order == [] then Err(AllFailed)
    else
      var first := attempt(order[0]);
      if first.Ok? then Ok(first.value.(source := Name(order[0])))
      else
        var rest := FirstSuccess(order[1..], attempt);
        assert rest.Ok? ==> (exists i :: FirstSuccessAt(order, attempt, i)
                                       && rest.value == attempt(order[i]).value.(source := Name(order[i]))) by {
          if rest.Ok? {
            var k :| FirstSuccessAt(order[1..], attempt, k)
              && rest.value == attempt(order[1..][k]).value.(source := Name(order[1..][k]));
            forall j | 0 <= j < k + 1 ensures attempt(order[j]).Err? {
              if j > 0 { assert order[j] == order[1..][j - 1]; }
            }
            assert FirstSuccessAt(order, attempt, k + 1);
          }
        }
        rest
  }

  /** What each adapter's getMarketData settles to, from the decoded responses. */
  function Adapters(
    symbol: string,
    yahooChart: Result<seq<YahooFinanceService.ChartMeta>>,
    alphaQuote: Result<Option<AlphaVantageService.GlobalQuote>>,
    binanceTicker: Result<BinanceService.Ticker24h>,
    binancePrice: Result<real>,
    now: int): (attempt: Source -> Result<MarketData>)
    ensures attempt(YahooFinance) == YahooFinanceService.GetMarketData(symbol, yahooChart, now)
    ensures attempt(AlphaVantage) == AlphaVantageService.GetMarketData(symbol, alphaQuote, now)
    ensures attempt(Binance) == BinanceService.GetMarketData(symbol, binanceTicker, binancePrice, now)
  {
    (s: Source) =>
      match s
      case YahooFinance => YahooFinanceService.GetMarketData(symbol, yahooChart, now)
      case AlphaVantage => AlphaVantageService.GetMarketData(symbol, alphaQuote, now)
      case Binance => BinanceService.GetMarketData(symbol, binanceTicker, binancePrice, now)
  }

  /** getMarketData: the sources are tried in order and the loop returns at the
      first success, so `consulted` ends at the succeeding source. */
  method GetMarketData(attempt: Source -> Result<MarketData>) returns (r: Result<MarketData>, consulted: seq<Source>)
    ensures r == FirstSuccess(Sources, attempt)
    ensures consulted <= Sources && |consulted| >= 1
    ensures forall i :: 0 <= i < |consulted| - 1 ==> attempt(consulted[i]).Err?
    ensures r.Ok? ==> (
      var last := consulted[|consulted| - 1];
      attempt(last).Ok? && r.value == attempt(last).value.(source := Name(last)))
    ensures r.Err? <==> consulted == Sources && attempt(consulted[|consulted| - 1]).Err?
  {
    consulted := [];
    for i := 0 to |Sources|
      invariant consulted == Sources[..i]
      invariant forall j :: 0 <= j < i ==> attempt(Sources[j]).Err?
    {
      var source := Sources[i];
      consulted := consulted + [source];
      var data := attempt(source);
      if data.Ok? {
        FirstSuccessIs(Sources, attempt, i);
        r := Ok(data.value.(source := Name(source)));
        return;
      }
    }
    r := Err(AllFailed);
  }

  /** The first success determines the result. */
  lemma FirstSuccessIs(order: seq<Source>, attempt: Source -> Result<MarketData>, k: int)
    requires FirstSuccessAt(order, attempt, k)
    ensures FirstSuccess(order, attempt) == Ok(attempt(order[k]).value.(source := Name(order[k])))
  {
    var r := FirstSuccess(order, attempt);
    var i :| FirstSuccessAt(order, attempt, i) && r.value == attempt(order[i]).value.(source := Name(order[i]));
    assert !(i < k) && !(k < i);
  }

  /** The aggregator over the real adapters: Yahoo Finance's quote when its
      chart call succeeds, otherwise Alpha Vantage's, otherwise Binance's,
      otherwise the aggregate error. Each adapter already tags its record with
      its own name, so the re-tagging changes nothing. */
  lemma AdapterPriority(
    symbol: string,
    yahooChart: Result<seq<YahooFinanceService.ChartMeta>>,
    alphaQuote: Result<Option<AlphaVantageService.GlobalQuote>>,
    binanceTicker: Result<BinanceService.Ticker24h>,
    binancePrice: Result<real>,
    now: int)
    ensures var attempt := Adapters(symbol, yahooChart, alphaQuote, binanceTicker, binancePrice, now);
      var r := FirstSuccess(Sources, attempt);
      var y := YahooFinanceService.GetMarketData(symbol, yahooChart, now);
      var a := AlphaVantageService.GetMarketData(symbol, alphaQuote, now);
      var b := BinanceService.GetMarketData(symbol, binanceTicker, binancePrice, now);
      && (y.Ok? ==> r == y)
      && (y.Err? && a.Ok? ==> r == a)
      && (y.Err? && a.Err? && b.Ok? ==> r == b)
      && (y.Err? && a.Err? && b.Err? ==> r == Err(AllFailed))
  {
    var attempt := Adapters(symbol, yahooChart, alphaQuote, binanceTicker, binancePrice, now);
    var y := YahooFinanceService.GetMarketData(symbol, yahooChart, now);
    var a := AlphaVantageService.GetMarketData(symbol, alphaQuote, now);
    var b := BinanceService.GetMarketData(symbol, binanceTicker, binancePrice, now);
    if y.Ok? {
      FirstSuccessIs(Sources, attempt, 0);
    } else if a.Ok? {
      FirstSuccessIs(Sources, attempt, 1);
    } else if b.Ok? {
      FirstSuccessIs(Sources, attempt, 2);
    }
  }

  /** getTechnicalData: only Alpha Vantage is consulted and its failure is passed on. */
  function GetTechnicalData(
    symbol: string,
    emaResponse: Result<Option<seq<Option<real>>>>,
    rsiResponse: Result<Option<seq<Option<real>>>>,
    quoteResponse: Result<Option<AlphaVantageService.GlobalQuote>>,
    now: int): (r: Result<TechnicalData>)
    ensures r == AlphaVantageService.GetTechnicalData(symbol, emaResponse, rsiResponse, quoteResponse, now)
  {
    AlphaVantageService.GetTechnicalData(symbol, emaResponse, rsiResponse, quoteResponse, now)
  }

  /** getWhaleTransactions: a rejected Binance call becomes the empty list. */
  function GetWhaleTransactions(binance: Result<seq<WhaleTransaction>>): (txs: seq<WhaleTransaction>)
    ensures binance.Err? ==> txs == []
    ensures binance.Ok? ==> txs == binance.value
  {
    match binance
    case Ok(v) => v
    case Err(_) => []
  }

  /** Binance's own call never rejects, so the aggregator returns its list, at most ten long. */
  lemma WhalesFromBinance(trades: Result<seq<BinanceService.AggTrade>>, tickerVolume: Result<real>)
    ensures var txs := GetWhaleTransactions(Ok(BinanceService.GetWhaleTransactions(trades, tickerVolume)));
      txs == BinanceService.GetWhaleTransactions(trades, tickerVolume) && |txs| <= BinanceService.MaxWhales
  {
  }
}
