/** src/services/binanceService.ts: the Binance adapter. The HTTP requests and
    the WebSocket are outside the model; their decoded results are parameters. */
module BinanceService {
  import opened Wrappers
  import opened Seqs
  import opened JsBuiltins
  import JsObject
  import opened MarketTypes

  const SourceName := "Binance"
  const DefaultTicker := "BTCUSDT"
  const DefaultThreshold: real := 1000.0
  /** How many whale transactions one call returns at most. */
  const MaxWhales: nat := 10

  /** Binance has no NASDAQ listing: both NASDAQ symbols are proxied by BTC. */
  const SymbolMap: map<string, string> := map[
    "NAS100" := "BTCUSDT",
    "NASDAQ" := "BTCUSDT",
    "BTCUSD" := "BTCUSDT",
    "ETHUSD" := "ETHUSDT",
    "ADAUSD" := "ADAUSDT",
    "SOLUSD" := "SOLUSDT"]

  /** convertSymbol, with the lookup restricted to the table's own entries. */
  function ConvertSymbol(symbol: string): (ticker: string)
    ensures ticker in SymbolMap.Values
    ensures symbol in SymbolMap ==> ticker == SymbolMap[symbol]
    ensures symbol !in SymbolMap ==> ticker == DefaultTicker
  {
    if symbol in SymbolMap then SymbolMap[symbol]
    else assert SymbolMap["NAS100"] == DefaultTicker; DefaultTicker
  }

  /** What `symbolMap[symbol] || 'BTCUSDT'` yields in JavaScript: a ticker, or an
      inherited Object.prototype member (a function or object, which is truthy). */
  datatype Converted = Ticker(name: string) | PrototypeMember(name: string)

  function ConvertSymbolAsWritten(symbol: string): (c: Converted)
    ensures symbol !in JsObject.PrototypeMembers ==> c == Ticker(ConvertSymbol(symbol))
    ensures c.PrototypeMember? <==> symbol in JsObject.PrototypeMembers
  {
    match JsObject.Get(SymbolMap, symbol)
    case Own(v) => Ticker(v)
    case Inherited(name) => PrototypeMember(name)
    case Absent => Ticker(DefaultTicker)
  }

  /** The symbol "toString" is not translated to the default ticker. */
  lemma ConvertSymbolAsWrittenMissesDefault()
    ensures ConvertSymbolAsWritten("toString") != Ticker(DefaultTicker)
    ensures ConvertSymbol("toString") == DefaultTicker
  {
  }

  /** calculateWhaleThreshold: 0.1% of the average hourly volume of the 24 h
      ticker, or the default when the ticker request fails. `volume` is the
      ticker's parsed `volume` field. */
  function WhaleThreshold(volume: Result<real>): (threshold: real)
    ensures volume.Err? ==> threshold == 1000.0
    ensures volume.Ok? ==> threshold * 24000.0 == volume.value
  {
    match volume
    case Ok(v) => v / 24.0 * 0.001
    case Err(_) => DefaultThreshold
  }

  /** calculateConfidence: ten times the trade-to-threshold ratio, rounded, at
      most 100. Its one caller only passes trades above the threshold; with a
      zero threshold the ratio is +Infinity in JavaScript, hence 100. */
  function CalculateConfidence(tradeAmount: real, threshold: real): (pct: int)
    requires tradeAmount > threshold
    ensures pct <= 100
    ensures threshold > 0.0 ==> pct >= 10
    ensures threshold == 0.0 ==> pct == 100
  {
    if threshold == 0.0 then 100
    else
      var ratio := tradeAmount / threshold;
      assert threshold > 0.0 ==> ratio > 1.0 by {
        if threshold > 0.0 {
          assert (ratio - 1.0) * threshold == tradeAmount - threshold;
        }
      }
      var r := Round(ratio * 10.0);
      if r <= 100 then r else 100
  }

  /** getConfidenceLevel: buckets at 75 and 50, both bounds inclusive. */
  function ConfidenceLevel(pct: int): (c: Confidence)
    ensures c == High <==> pct >= 75
    ensures c == Medium <==> 50 <= pct < 75
    ensures c == Low <==> pct < 50
  {
    if pct >= 75 then High
    else if pct >= 50 then Medium
    else Low
  }

  /** For a fixed non-negative threshold a larger trade never lands in a lower bucket. */
  lemma {:induction false} ConfidenceMonotone(q1: real, q2: real, threshold: real)
    requires 0.0 <= threshold < q1 <= q2
    ensures CalculateConfidence(q1, threshold) <= CalculateConfidence(q2, threshold)
    ensures ConfidenceRank(ConfidenceLevel(CalculateConfidence(q1, threshold)))
         <= ConfidenceRank(ConfidenceLevel(CalculateConfidence(q2, threshold)))
  {
    if threshold > 0.0 {
      assert q1 / threshold <= q2 / threshold by {
        assert (q2 / threshold - q1 / threshold) * threshold == q2 - q1;
      }
      RoundMonotone(q1 / threshold * 10.0, q2 / threshold * 10.0);
    }
  }

  /** The bucket boundaries are on the percentage, not the ratio: a trade of
      7.5 thresholds is the first high one and 5 thresholds the first medium one. */
  lemma ConfidenceBoundaries(threshold: real)
    requires threshold > 0.0
    ensures ConfidenceLevel(CalculateConfidence(7.5 * threshold, threshold)) == High
    ensures ConfidenceLevel(CalculateConfidence(5.0 * threshold, threshold)) == Medium
    ensures ConfidenceLevel(CalculateConfidence(4.9 * threshold, threshold)) == Low
  {
    assert 7.5 * threshold / threshold == 7.5;
    assert 5.0 * threshold / threshold == 5.0;
    assert 4.9 * threshold / threshold == 4.9;
  }

  /** One element of the aggTrades response: `a` the aggregate trade id, `q` the
      quantity, `p` the price, `T` the trade time, `m` whether the buyer is the maker. */
  datatype AggTrade = AggTrade(a: nat, q: real, p: real, T: int, m: bool)

  /** The `filter` step: trades strictly above the threshold, in their order. */
  function LargeTrades(trades: seq<AggTrade>, threshold: real): (large: seq<AggTrade>)
    ensures |large| <= |trades|
    ensures forall i :: 0 <= i < |large| ==> large[i].q > threshold
    ensures forall tr :: tr in large <==> tr in trades && tr.q > threshold
  {
    if trades == [] then []
    else if trades[0].q > threshold then [trades[0]] + LargeTrades(trades[1..], threshold)
    else LargeTrades(trades[1..], threshold)
  }

  /** Filtering commutes with concatenation, so relative order is kept. */
  lemma {:induction false} LargeTradesConcat(a: seq<AggTrade>, b: seq<AggTrade>, threshold: real)
    ensures LargeTrades(a + b, threshold) == LargeTrades(a, threshold) + LargeTrades(b, threshold)
  {
    if a == [] {
      assert a + b == b;
    } else {
      assert (a + b)[1..] == a[1..] + b;
      LargeTradesConcat(a[1..], b, threshold);
    }
  }

  /** The `map` step for one trade. */
  function ToWhaleTransaction(trade: AggTrade, threshold: real): (tx: WhaleTransaction)
    requires trade.q > threshold
    ensures tx.side == Sell <==> trade.m
    ensures tx.amount == trade.q > threshold && tx.price == trade.p
    ensures tx.amountUsd == trade.q * trade.p
    ensures tx.id == NatToString(trade.a) && tx.timestamp == trade.T
    ensures tx.confidence == ConfidenceLevel(CalculateConfidence(trade.q, threshold))
    ensures tx.source == Some(SourceName)
  {
    WhaleTransaction(
      id := NatToString(trade.a),
      timestamp := trade.T,
      side := if trade.m then Sell else Buy,
      amount := trade.q,
      amountUsd := trade.q * trade.p,
      price := trade.p,
      confidence := ConfidenceLevel(CalculateConfidence(trade.q, threshold)),
      source := Some(SourceName))
  }

  /** The filter/map/slice pipeline once the trades and the threshold are known:
      the i-th result is the i-th large trade, and there are at most ten. */
  function WhalesFromTrades(trades: seq<AggTrade>, threshold: real): (txs: seq<WhaleTransaction>)
    ensures |txs| <= MaxWhales
    ensures |txs| == |Take(LargeTrades(trades, threshold), MaxWhales)|
    ensures forall i :: 0 <= i < |txs| ==>
      txs[i] == ToWhaleTransaction(LargeTrades(trades, threshold)[i], threshold)
  {
    var large := LargeTrades(trades, threshold);
    var mapped := seq(|large|, i requires 0 <= i < |large| => ToWhaleTransaction(large[i], threshold));
    Take(mapped, MaxWhales)
  }

  /** getWhaleTransactions: any failure of the trades request yields the empty list;
      a failed ticker request only changes the threshold to the default. */
  function GetWhaleTransactions(trades: Result<seq<AggTrade>>, tickerVolume: Result<real>)
    : (txs: seq<WhaleTransaction>)
    ensures trades.Err? ==> txs == []
    ensures |txs| <= MaxWhales
    ensures forall i :: 0 <= i < |txs| ==> txs[i].amount > WhaleThreshold(tickerVolume)
    ensures tickerVolume.Err? ==> forall i :: 0 <= i < |txs| ==> txs[i].amount > 1000.0
    ensures trades.Ok? ==> txs == WhalesFromTrades(trades.value, WhaleThreshold(tickerVolume))
  {
    match trades
    case Err(_) => []
    case Ok(ts) => WhalesFromTrades(ts, WhaleThreshold(tickerVolume))
  }

  /** Every returned transaction is at least at the 10% confidence mark when the
      threshold is positive. */
  lemma {:induction false} WhaleConfidenceAtLeastTen(trades: seq<AggTrade>, threshold: real, i: nat)
    requires threshold > 0.0
    requires i < |WhalesFromTrades(trades, threshold)|
    ensures CalculateConfidence(WhalesFromTrades(trades, threshold)[i].amount, threshold) >= 10
  {
    var large := LargeTrades(trades, threshold);
    assert WhalesFromTrades(trades, threshold)[i] == ToWhaleTransaction(large[i], threshold);
  }

  /** The two fields getMarketData reads from the 24 h ticker. */
  datatype Ticker24h = Ticker24h(priceChange: real, priceChangePercent: string, quoteVolume: real)

  /** getMarketData: both requests must succeed; the percentage text is passed
      through with a '%' appended. */
  function GetMarketData(symbol: string, ticker: Result<Ticker24h>, price: Result<real>, now: int)
    : (r: Result<MarketData>)
    ensures r.Ok? <==> ticker.Ok? && price.Ok?
    ensures r.Ok? ==> r.value.symbol == symbol && r.value.source == SourceName
    ensures r.Ok? ==> r.value.price == price.value && r.value.change24h == ticker.value.priceChange
    ensures r.Ok? ==> r.value.changePercent == ticker.value.priceChangePercent + "%"
    ensures r.Ok? ==> r.value.volume24h == ticker.value.quoteVolume && r.value.lastUpdate == now
  {
    if ticker.Err? then Err(ticker.message)
    else if price.Err? then Err(price.message)
    else
      var t := ticker.value;
      Ok(MarketData(symbol, price.value, t.priceChange, t.priceChangePercent + "%", t.quoteVolume, now, SourceName))
  }
}
