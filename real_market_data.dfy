/** src/hooks/useRealMarketData.ts: the hook that feeds the dashboard from the
    aggregator. Its four state slots are the fields of a class; each setter
    call of the hook is a method. The polling timers and the random choice of
    when to refresh are outside the model; the continuations they run are methods. */
module RealMarketData {
  import opened Wrappers
  import opened Seqs
  import opened JsBuiltins
  import opened MarketTypes
  import BinanceService
  import MarketDataService

  const Symbol := "NAS100"
  const MaxWhales: nat := 10
  const MaxSignals: nat := 20
  const FallbackFloor: real := 23000.0
  const FallbackReference: real := 23455.0

  /** The RSI signal of one call: overbought above 70, oversold below 30, none in between. */
  function RsiSignal(technical: TechnicalData, volume: real, now: nat): (s: Option<TradingSignal>)
    ensures s.Some? <==> technical.rsi > 70.0 || technical.rsi < 30.0
    ensures s.Some? ==> && s.value.id == "rsi-" + NatToString(now)
                        && s.value.confidence == High && s.value.kind == TechnicalBreakout
                        && s.value.title == (if technical.rsi > 70.0 then OverboughtWarning else OversoldOpportunity)
                        && s.value.features == Features(technical.currentPrice, volume, Some(technical.rsi), None)
  {
    var features := Features(technical.currentPrice, volume, Some(technical.rsi), None);
    if technical.rsi > 70.0 then
      Some(TradingSignal("rsi-" + NatToString(now), OverboughtWarning, now, Symbol, High, TechnicalBreakout, features))
    else if technical.rsi < 30.0 then
      Some(TradingSignal("rsi-" + NatToString(now), OversoldOpportunity, now, Symbol, High, TechnicalBreakout, features))
    else None
  }

  /** The EMA signal of one call: present exactly when EMA50 is above EMA200. */
  function EmaSignal(technical: TechnicalData, volume: real, now: nat): (s: Option<TradingSignal>)
    ensures s.Some? <==> technical.ema50 > technical.ema200
    ensures s.Some? ==> && s.value.id == "ema-" + NatToString(now)
                        && s.value.confidence == Medium && s.value.kind == EmaCross
                        && s.value.features == Features(technical.currentPrice, volume, None, None)
  {
    if technical.ema50 > technical.ema200 then
      Some(TradingSignal("ema-" + NatToString(now), UptrendConfirmed, now, Symbol, Medium, EmaCross,
        Features(technical.currentPrice, volume, None, None)))
    else None
  }

  function OptionToSeq<T>(o: Option<T>): (s: seq<T>)
    ensures o.None? ==> s == []
    ensures o.Some? ==> s == [o.value]
  {
    if o.Some? then [o.value] else []
  }

  /** The `newSignals` array that generateSignalsFromTechnical fills: RSI signal first, then EMA. */
  function NewSignals(technical: TechnicalData, volume: real, now: nat): (s: seq<TradingSignal>)
    ensures |s| <= 2
    ensures s == [] <==> 30.0 <= technical.rsi <= 70.0 && technical.ema50 <= technical.ema200
    ensures forall i :: 0 <= i < |s| ==> s[i].timestamp == now && s[i].symbol == Symbol
  {
    OptionToSeq(RsiSignal(technical, volume, now)) + OptionToSeq(EmaSignal(technical, volume, now))
  }

  /** At most two signals per call, at most one of them an RSI signal, and two
      signals of one call never share an id. */
  lemma {:induction false} NewSignalsShape(technical: TechnicalData, volume: real, now: nat)
    ensures var s := NewSignals(technical, volume, now);
      && |s| <= 2
      && (|s| == 0 <==> 30.0 <= technical.rsi <= 70.0 && technical.ema50 <= technical.ema200)
      && (forall i :: 0 <= i < |s| ==> s[i].kind == TechnicalBreakout ==> i == 0)
      && (|s| == 2 ==> s[0].id != s[1].id && s[0].kind == TechnicalBreakout && s[1].kind == EmaCross)
  {
    var s := NewSignals(technical, volume, now);
    if |s| == 2 {
      assert s[0].id[0] == 'r' && s[1].id[0] == 'e';
    }
  }

  /** Transactions of `incoming` whose id does not already occur in `prev`, in order. */
  function FreshWhales(incoming: seq<WhaleTransaction>, prev: seq<WhaleTransaction>): (r: seq<WhaleTransaction>)
    ensures forall w :: w in r <==> w in incoming && !HasId(prev, w.id)
    ensures |r| <= |incoming|
  {
    if incoming == [] then []
    else if HasId(prev, incoming[0].id) then FreshWhales(incoming[1..], prev)
    else [incoming[0]] + FreshWhales(incoming[1..], prev)
  }

  /** `prev.some(existing => existing.id === id)`. */
  predicate HasId(prev: seq<WhaleTransaction>, id: string) {
    exists i :: 0 <= i < |prev| && prev[i].id == id
  }

  predicate DistinctIds(s: seq<WhaleTransaction>) {
    forall i, j :: 0 <= i < j < |s| ==> s[i].id != s[j].id
  }

  /** The whale update: fresh incoming transactions go in front of the existing
      ones and the list is cut to ten. */
  function MergeWhales(prev: seq<WhaleTransaction>, incoming: seq<WhaleTransaction>): (r: seq<WhaleTransaction>)
    ensures |r| <= MaxWhales
    ensures r <= FreshWhales(incoming, prev) + prev
    ensures |prev| + |FreshWhales(incoming, prev)| <= MaxWhales ==> r == FreshWhales(incoming, prev) + prev
    ensures |r| == if |prev| + |FreshWhales(incoming, prev)| <= MaxWhales
                   then |prev| + |FreshWhales(incoming, prev)| else MaxWhales
  {
    Take(FreshWhales(incoming, prev) + prev, MaxWhales)
  }

  /** One incoming transaction is kept exactly when its id is new. */
  lemma FreshWhalesSingleton(w: WhaleTransaction, prev: seq<WhaleTransaction>)
    ensures FreshWhales([w], prev) == if HasId(prev, w.id) then [] else [w]
  {
    assert [w][1..] == [];
  }

  /** The filter works transaction by transaction: filtering a concatenation
      is concatenating the filtered parts. */
  lemma {:induction false} FreshWhalesConcat(a: seq<WhaleTransaction>, b: seq<WhaleTransaction>,
                                            prev: seq<WhaleTransaction>)
    ensures FreshWhales(a + b, prev) == FreshWhales(a, prev) + FreshWhales(b, prev)
  {
    if a != [] {
      var head := if HasId(prev, a[0].id) then [] else [a[0]];
      assert FreshWhales(a + b, prev) == head + FreshWhales(a[1..] + b, prev) by {
        assert (a + b)[0] == a[0] && (a + b)[1..] == a[1..] + b;
      }
      assert FreshWhales(a, prev) == head + FreshWhales(a[1..], prev);
      FreshWhalesConcat(a[1..], b, prev);
      assert head + (FreshWhales(a[1..], prev) + FreshWhales(b, prev))
          == (head + FreshWhales(a[1..], prev)) + FreshWhales(b, prev);
    } else {
      assert a + b == b;
    }
  }

  lemma {:induction false} FreshWhalesDistinct(incoming: seq<WhaleTransaction>, prev: seq<WhaleTransaction>)
    requires DistinctIds(incoming)
    ensures DistinctIds(FreshWhales(incoming, prev))
  {
    if incoming != [] {
      assert DistinctIds(incoming[1..]);
      FreshWhalesDistinct(incoming[1..], prev);
      var rest := FreshWhales(incoming[1..], prev);
      if !HasId(prev, incoming[0].id) {
        forall w | w in rest ensures w.id != incoming[0].id {
          var k :| 0 <= k < |incoming[1..]| && incoming[1..][k] == w;
          assert incoming[k + 1] == w;
        }
        var r := [incoming[0]] + rest;
        forall i, j | 0 <= i < j < |r| ensures r[i].id != r[j].id {
          if i == 0 { assert r[j] in rest; } else { assert r[i] == rest[i - 1] && r[j] == rest[j - 1]; }
        }
      }
    }
  }

  /** The merge keeps ids distinct when both lists have distinct ids. */
  lemma {:induction false} MergeWhalesDistinct(prev: seq<WhaleTransaction>, incoming: seq<WhaleTransaction>)
    requires DistinctIds(prev) && DistinctIds(incoming)
    ensures DistinctIds(MergeWhales(prev, incoming))
  {
    FreshWhalesDistinct(incoming, prev);
    var added := FreshWhales(incoming, prev);
    var all := added + prev;
    forall i, j | 0 <= i < j < |all| ensures all[i].id != all[j].id {
      if j < |added| {
        assert all[i] == added[i] && all[j] == added[j];
      } else if i < |added| {
        assert all[i] in added;
        assert all[j] == prev[j - |added|];
      } else {
        assert all[i] == prev[i - |added|] && all[j] == prev[j - |added|];
      }
    }
    var r := MergeWhales(prev, incoming);
    forall i, j | 0 <= i < j < |r| ensures r[i].id != r[j].id {
      assert r[i] == all[i] && r[j] == all[j];
    }
  }

  /** One tick of the fallback simulation: a random step of at most 10 either
      way, floored at 23000; the change is measured from 23455. */
  function FallbackStep(prev: MarketData, draw: real, now: int): (m: MarketData)
    requires 0.0 <= draw < 1.0
    ensures m.price >= FallbackFloor
    ensures m.price == Max(prev.price + (draw - 0.5) * 20.0, FallbackFloor)
    ensures prev.price >= FallbackFloor + 10.0 ==> prev.price - 10.0 <= m.price < prev.price + 10.0
    ensures m.change24h == m.price - FallbackReference
    ensures |m.changePercent| >= 5 && m.changePercent[|m.changePercent| - 1] == '%'
    ensures m.changePercent[0] == '-' <==> m.change24h < 0.0
    ensures SpellsFixed2(m.changePercent[..|m.changePercent| - 1], m.change24h / FallbackReference * 100.0)
    ensures m == prev.(price := m.price, change24h := m.change24h, changePercent := m.changePercent, lastUpdate := now)
  {
    var newPrice := Max(prev.price + (draw - 0.5) * 20.0, FallbackFloor);
    var change := newPrice - FallbackReference;
    var digits := Fixed2(change / FallbackReference * 100.0);
    assert (digits + "%")[..|digits|] == digits;
    prev.(price := newPrice, change24h := change, changePercent := digits + "%", lastUpdate := now)
  }

  const PlaceholderTechnical := TechnicalData(0.0, 0.0, 0.0, 50.0, 0.0, 0.0, 0.0, Sideways, false)
  const FallbackTechnical :=
    TechnicalData(23512.34, 23445.67, 23123.89, 67.8, 23450.0, 23650.0, 23580.50, Bullish, false)

  class RealMarketDataHook {
    var marketData: MarketData
    var whaleTransactions: seq<WhaleTransaction>
    var technicalData: TechnicalData
    var signals: seq<TradingSignal>
    var isLoading: bool
    var hasError: bool

    ghost predicate Valid()
      reads this
    {
      |whaleTransactions| <= MaxWhales && |signals| <= MaxSignals
    }

    constructor (now: int)
      ensures Valid() && isLoading && !hasError
      ensures marketData == MarketData(Symbol, 23580.50, 0.0, "0.00%", 0.0, now, "Loading...")
      ensures whaleTransactions == [] && signals == [] && technicalData == PlaceholderTechnical
    {
      marketData := MarketData(Symbol, 23580.50, 0.0, "0.00%", 0.0, now, "Loading...");
      whaleTransactions := [];
      technicalData := PlaceholderTechnical;
      signals := [];
      isLoading := true;
      hasError := false;
    }

    /** generateSignalsFromTechnical: `volume` is the market volume the calling
        render saw. The new signals go in front and the list is cut to twenty;
        nothing changes when no signal is generated. */
    method GenerateSignalsFromTechnical(technical: TechnicalData, volume: real, now: nat)
      requires Valid()
      modifies this`signals
      ensures Valid()
      ensures NewSignals(technical, volume, now) == [] ==> signals == old(signals)
      ensures NewSignals(technical, volume, now) != [] ==>
        signals == Take(NewSignals(technical, volume, now) + old(signals), MaxSignals)
    {
      var newSignals: seq<TradingSignal> := [];
      var features := Features(technical.currentPrice, volume, Some(technical.rsi), None);
      if technical.rsi > 70.0 {
        newSignals := newSignals + [TradingSignal("rsi-" + NatToString(now), OverboughtWarning, now, Symbol, High,
          TechnicalBreakout, features)];
      } else if technical.rsi < 30.0 {
        newSignals := newSignals + [TradingSignal("rsi-" + NatToString(now), OversoldOpportunity, now, Symbol, High,
          TechnicalBreakout, features)];
      }
      if technical.ema50 > technical.ema200 {
        newSignals := newSignals + [TradingSignal("ema-" + NatToString(now), UptrendConfirmed, now, Symbol, Medium,
          EmaCross, Features(technical.currentPrice, volume, None, None))];
      }
      assert newSignals == NewSignals(technical, volume, now);
      if |newSignals| > 0 {
        signals := Take(newSignals + signals, MaxSignals);
      }
    }

    /** loadFallbackData: the placeholder quote and indicators (the timer it
        starts runs FallbackTick). */
    method LoadFallbackData(now: int)
      modifies this`marketData, this`technicalData
      ensures marketData == MarketData(Symbol, 23580.50, 125.75, "0.54%", 125000000.0, now, "Mock Data (API unavailable)")
      ensures technicalData == FallbackTechnical
    {
      marketData := MarketData(Symbol, 23580.50, 125.75, "0.54%", 125000000.0, now, "Mock Data (API unavailable)");
      technicalData := FallbackTechnical;
    }

    /** loadInitialData: the three aggregator calls settle together. The whale
        list is the aggregator's, from Binance's decoded trades and ticker
        volume. When the quote and the indicators both arrive, the slots are set
        and signals are generated with the volume of the mounting render (the
        callback's stale `marketData`); otherwise the error flag is raised and
        the fallback loaded. */
    method LoadInitialData(market: Result<MarketData>, technical: Result<TechnicalData>,
                           trades: Result<seq<BinanceService.AggTrade>>, tickerVolume: Result<real>, now: nat)
      requires Valid()
      modifies this
      ensures Valid() && !isLoading
      ensures hasError <==> market.Err? || technical.Err?
      ensures !hasError ==> && marketData == market.value && technicalData == technical.value
                            && whaleTransactions == MarketDataService.GetWhaleTransactions(
                                 Ok(BinanceService.GetWhaleTransactions(trades, tickerVolume)))
      ensures !hasError && NewSignals(technical.value, old(marketData.volume24h), now) != [] ==>
        signals == Take(NewSignals(technical.value, old(marketData.volume24h), now) + old(signals), MaxSignals)
      ensures !hasError && NewSignals(technical.value, old(marketData.volume24h), now) == [] ==>
        signals == old(signals)
      ensures hasError ==> && technicalData == FallbackTechnical
                           && marketData == MarketData(Symbol, 23580.50, 125.75, "0.54%", 125000000.0, now,
                                                       "Mock Data (API unavailable)")
                           && whaleTransactions == old(whaleTransactions) && signals == old(signals)
    {
      isLoading := true;
      hasError := false;
      var renderVolume := marketData.volume24h;
      var whales := MarketDataService.GetWhaleTransactions(Ok(BinanceService.GetWhaleTransactions(trades, tickerVolume)));
      if market.Ok? && technical.Ok? {
        marketData := market.value;
        technicalData := technical.value;
        whaleTransactions := whales;
        GenerateSignalsFromTechnical(technical.value, renderVolume, now);
      } else {
        hasError := true;
        LoadFallbackData(now);
      }
      isLoading := false;
    }

    /** One tick of the fallback interval. */
    method FallbackTick(draw: real, now: int)
      requires 0.0 <= draw < 1.0
      modifies this`marketData
      ensures marketData == FallbackStep(old(marketData), draw, now)
      ensures marketData.price >= FallbackFloor
    {
      marketData := FallbackStep(marketData, draw, now);
    }

    /** The subscription callback: the pushed snapshot replaces the current one. */
    method OnMarketUpdate(data: MarketData)
      modifies this`marketData
      ensures marketData == data
    {
      marketData := data;
    }

    /** A periodic indicator refresh that succeeded. */
    method OnTechnicalRefreshed(technical: TechnicalData)
      modifies this`technicalData
      ensures technicalData == technical
    {
      technicalData := technical;
    }

    /** A periodic whale refresh that succeeded: merge, deduplicate by id, cut to ten. */
    method OnWhalesRefreshed(whales: seq<WhaleTransaction>)
      requires Valid()
      modifies this`whaleTransactions
      ensures Valid()
      ensures whaleTransactions == MergeWhales(old(whaleTransactions), whales)
      ensures DistinctIds(old(whaleTransactions)) && DistinctIds(whales) ==> DistinctIds(whaleTransactions)
    {
      if DistinctIds(whaleTransactions) && DistinctIds(whales) {
        MergeWhalesDistinct(whaleTransactions, whales);
      }
      whaleTransactions := MergeWhales(whaleTransactions, whales);
    }

    /** clearSignals. */
    method ClearSignals()
      requires Valid()
      modifies this`signals
      ensures Valid() && signals == []
    {
      signals := [];
    }
  }
}
