/** src/hooks/useMockData.ts: the simulated feed. Its four state slots are the
    fields of a class; one run of the 3-second interval is the method Tick, which
    takes the values Math.random() returns during the run as parameters. */
module MockData {
  import opened Wrappers
  import opened Seqs
  import opened JsBuiltins
  import opened MarketTypes

  const Symbol := "NAS100_i"
  const PriceFloor: real := 13300.0
  const ReferencePrice: real := 13324.50
  const MaxWhales: nat := 10
  const MaxSignals: nat := 20

  /** This hook's own market record: the service record without `source`. */
  datatype MockMarketData = MockMarketData(
    symbol: string, price: real, change24h: real, changePercent: string, volume24h: real, lastUpdate: int)

  /** The Math.random() results one tick uses, named by what they decide. */
  datatype TickDraws = TickDraws(
    priceMove: real, volumeGrowth: real, rsiMove: real, pullback: real,
    whaleGate: real, whaleSide: real, whaleAmount: real, whaleAmountUsd: real, whaleConfidence: real,
    signalGate: real, signalTitle: real, signalConfidence: real, signalType: real, signalWhaleActivity: real)

  predicate Unit(x: real) { 0.0 <= x < 1.0 }

  predicate ValidDraws(d: TickDraws) {
    && Unit(d.priceMove) && Unit(d.volumeGrowth) && Unit(d.rsiMove) && Unit(d.pullback)
    && Unit(d.whaleGate) && Unit(d.whaleSide) && Unit(d.whaleAmount) && Unit(d.whaleAmountUsd)
    && Unit(d.whaleConfidence) && Unit(d.signalGate) && Unit(d.signalTitle) && Unit(d.signalConfidence)
    && Unit(d.signalType) && Unit(d.signalWhaleActivity)
  }

  /** `['high', 'medium', 'low'][Math.floor(r * 3)]`. */
  function PickConfidence(r: real): (c: Confidence)
    requires Unit(r)
    ensures r < 1.0 / 3.0 <==> c == High
    ensures 1.0 / 3.0 <= r < 2.0 / 3.0 <==> c == Medium
    ensures 2.0 / 3.0 <= r <==> c == Low
  {
    [High, Medium, Low][(r * 3.0).Floor]
  }

  /** `signalTypes[Math.floor(r * 5)]`. */
  function PickSignalType(r: real): (t: SignalType)
    requires Unit(r)
    ensures r < 0.2 <==> t == VolumeSpike
    ensures 0.2 <= r < 0.4 <==> t == WhaleActivity
    ensures 0.4 <= r < 0.6 <==> t == TechnicalBreakout
    ensures 0.6 <= r < 0.8 <==> t == EmaCross
    ensures 0.8 <= r <==> t == SupportBreak
  {
    [VolumeSpike, WhaleActivity, TechnicalBreakout, EmaCross, SupportBreak][(r * 5.0).Floor]
  }

  /** The change text: '+' for a non-negative change, the change as a
      percentage of 13324.50 to two places, then '%'. */
  function ChangeText(change: real): (s: string)
    ensures |s| >= 5 && s[|s| - 1] == '%'
    ensures s[0] == '+' <==> change >= 0.0
    ensures var text := s[..|s| - 1];
      SpellsFixed2(if change >= 0.0 then text[1..] else text, change / ReferencePrice * 100.0)
  {
    var x := change / ReferencePrice * 100.0;
    assert change >= 0.0 <==> x >= 0.0;
    PlusPercent(x)
  }

  /** `x` to two places with a '+' in front when it is not negative, then '%'. */
  function PlusPercent(x: real): (s: string)
    ensures |s| >= 5 && s[|s| - 1] == '%'
    ensures s[0] == '+' <==> x >= 0.0
    ensures SpellsFixed2(if x >= 0.0 then s[1..|s| - 1] else s[..|s| - 1], x)
  {
    var digits := Fixed2(x);
    if x >= 0.0 then
      var s := "+" + digits + "%";
      assert s[1..|s| - 1] == digits;
      s
    else
      var s := digits + "%";
      assert s[..|s| - 1] == digits;
      s
  }

  /** The market updater: a step of at most 10 either way floored at 13300, the
      change measured from 13324.50, a '+' sign for a non-negative change, and
      the volume grown by less than ten million. */
  function NextMarket(prev: MockMarketData, d: TickDraws, now: int): (m: MockMarketData)
    requires ValidDraws(d)
    ensures m.price >= PriceFloor
    ensures m.price == Max(prev.price + (d.priceMove - 0.5) * 20.0, PriceFloor)
    ensures m.change24h == m.price - ReferencePrice
    ensures |m.changePercent| >= 5 && m.changePercent[|m.changePercent| - 1] == '%'
    ensures m.changePercent[0] == '+' <==> m.change24h >= 0.0
    ensures prev.volume24h <= m.volume24h < prev.volume24h + 10000000.0
    ensures m.symbol == prev.symbol && m.lastUpdate == now
  {
    var newPrice := Max(prev.price + (d.priceMove - 0.5) * 20.0, PriceFloor);
    var change := newPrice - ReferencePrice;
    prev.(
      price := newPrice,
      change24h := change,
      changePercent := ChangeText(change),
      volume24h := prev.volume24h + d.volumeGrowth * 10000000.0,
      lastUpdate := now)
  }

  /** The updater's change text is ChangeText of its change, so it spells the
      change as a percentage of 13324.50, rounded to hundredths, after the sign. */
  lemma NextMarketText(prev: MockMarketData, d: TickDraws, now: int)
    requires ValidDraws(d)
    ensures NextMarket(prev, d, now).changePercent == ChangeText(NextMarket(prev, d, now).change24h)
  {
  }

  /** The indicator updater: the price the tick's render saw, RSI moved by less
      than 2.5 either way and clamped into [0, 100], a pullback one time in ten. */
  function NextTechnical(prev: TechnicalData, renderPrice: real, d: TickDraws): (t: TechnicalData)
    requires ValidDraws(d)
    ensures 0.0 <= t.rsi <= 100.0
    ensures 0.0 <= prev.rsi + (d.rsiMove - 0.5) * 5.0 <= 100.0 ==> t.rsi == prev.rsi + (d.rsiMove - 0.5) * 5.0
    ensures t.currentPrice == renderPrice
    ensures t.pullbackSignal <==> d.pullback > 0.9
    ensures t == prev.(currentPrice := renderPrice, rsi := t.rsi, pullbackSignal := t.pullbackSignal)
  {
    prev.(
      currentPrice := renderPrice,
      rsi := Max(Min(prev.rsi + (d.rsiMove - 0.5) * 5.0, 100.0), 0.0),
      pullbackSignal := d.pullback > 0.9)
  }

  /** The occasional whale: rounded sizes, 500..2500 units worth 1M..3M dollars. */
  function NewWhale(d: TickDraws, renderPrice: real, now: nat): (w: WhaleTransaction)
    requires ValidDraws(d)
    ensures 500.0 <= w.amount <= 2500.0 && 1000000.0 <= w.amountUsd <= 3000000.0
    ensures w.side == Buy <==> d.whaleSide > 0.5
    ensures w.id == NatToString(now) && w.timestamp == now && w.price == renderPrice && w.source == None
    ensures w.confidence == PickConfidence(d.whaleConfidence)
  {
    WhaleTransaction(
      id := NatToString(now),
      timestamp := now,
      side := if d.whaleSide > 0.5 then Buy else Sell,
      amount := Round(d.whaleAmount * 2000.0 + 500.0) as real,
      amountUsd := Round(d.whaleAmountUsd * 2000000.0 + 1000000.0) as real,
      price := renderPrice,
      confidence := PickConfidence(d.whaleConfidence),
      source := None)
  }

  /** The occasional signal, built from the values the tick's render saw. */
  function NewSignal(d: TickDraws, render: MockMarketData, renderRsi: real, now: nat): (s: TradingSignal)
    requires ValidDraws(d)
    ensures s.id == NatToString(now) && s.timestamp == now && s.symbol == Symbol
    ensures s.confidence == PickConfidence(d.signalConfidence) && s.kind == PickSignalType(d.signalType)
    ensures s.title == BullishSignal <==> d.signalTitle > 0.5
    ensures s.features == Features(render.price, render.volume24h, Some(renderRsi), Some(d.signalWhaleActivity > 0.7))
  {
    TradingSignal(
      id := NatToString(now),
      title := if d.signalTitle > 0.5 then BullishSignal else BearishWarning,
      timestamp := now,
      symbol := Symbol,
      confidence := PickConfidence(d.signalConfidence),
      kind := PickSignalType(d.signalType),
      features := Features(render.price, render.volume24h, Some(renderRsi), Some(d.signalWhaleActivity > 0.7)))
  }

  /** The indicators the feed starts from. */
  const InitialTechnical :=
    TechnicalData(13440.50, 13420.75, 13390.25, 65.2, 13380.0, 13480.0, 13450.25, Bullish, false)

  /** The three sample whales, five, ten and fifteen minutes before `now`. */
  function InitialWhales(now: int): (ws: seq<WhaleTransaction>)
    ensures |ws| == 3 && ws[0].id == "1" && ws[1].id == "2" && ws[2].id == "3"
    ensures forall i :: 0 <= i < |ws| ==> ws[i].timestamp == now - 300000 * (i + 1) && ws[i].source == None
  {
    [ WhaleTransaction("1", now - 300000, Buy, 1500.0, 2100000.0, 13440.50, High, None),
      WhaleTransaction("2", now - 600000, Sell, 2200.0, 2950000.0, 13455.75, Medium, None),
      WhaleTransaction("3", now - 900000, Buy, 800.0, 1070000.0, 13420.25, High, None) ]
  }

  /** The two sample signals, three and eight minutes before `now`. */
  function InitialSignals(now: int): (ss: seq<TradingSignal>)
    ensures |ss| == 2 && ss[0].id == "1" && ss[1].id == "2"
    ensures ss[0].timestamp == now - 180000 && ss[1].timestamp == now - 480000
    ensures forall i :: 0 <= i < |ss| ==> ss[i].symbol == Symbol
  {
    [ TradingSignal("1", WhaleBuyWithVolume, now - 180000, Symbol, High, WhaleActivity,
        Features(13445.50, 2100000000.0, Some(65.2), Some(true))),
      TradingSignal("2", Ema50Crossed100, now - 480000, Symbol, Medium, EmaCross,
        Features(13430.25, 1890000000.0, Some(62.8), None)) ]
  }

  class MockFeed {
    var marketData: MockMarketData
    var technicalData: TechnicalData
    var whaleTransactions: seq<WhaleTransaction>
    var signals: seq<TradingSignal>

    ghost predicate Valid()
      reads this
    {
      && marketData.price >= PriceFloor
      && 0.0 <= technicalData.rsi <= 100.0
      && |whaleTransactions| <= MaxWhales
      && |signals| <= MaxSignals
    }

    /** The hook's initial state; `now` is the mount time. */
    constructor (now: int)
      ensures Valid()
      ensures marketData == MockMarketData(Symbol, 13450.25, 125.75, "+0.94%", 2340000000.0, now)
      ensures technicalData == InitialTechnical
      ensures whaleTransactions == InitialWhales(now) && signals == InitialSignals(now)
    {
      marketData := MockMarketData(Symbol, 13450.25, 125.75, "+0.94%", 2340000000.0, now);
      technicalData := InitialTechnical;
      whaleTransactions := InitialWhales(now);
      signals := InitialSignals(now);
    }

    /** One run of the interval. The updaters see the previous slot values; the
        whale and the signal are built from the values of the render that
        created the interval, which are the values before this tick. */
    method Tick(d: TickDraws, now: nat)
      requires Valid() && ValidDraws(d)
      modifies this
      ensures Valid()
      ensures marketData == NextMarket(old(marketData), d, now)
      ensures technicalData == NextTechnical(old(technicalData), old(marketData.price), d)
      ensures marketData.volume24h >= old(marketData.volume24h)
      ensures whaleTransactions == if d.whaleGate > 0.85
        then PrependBounded(NewWhale(d, old(marketData.price), now), old(whaleTransactions), MaxWhales)
        else old(whaleTransactions)
      ensures signals == if d.signalGate > 0.92
        then PrependBounded(NewSignal(d, old(marketData), old(technicalData.rsi), now), old(signals), MaxSignals)
        else old(signals)
    {
      var render := marketData;
      var renderRsi := technicalData.rsi;
      StepIndicators(d, now);
      if d.whaleGate > 0.85 {
        AddWhale(NewWhale(d, render.price, now));
      }
      if d.signalGate > 0.92 {
        AddSignal(NewSignal(d, render, renderRsi, now));
      }
    }

    /** The two updaters of one tick (setMarketData and setTechnicalData), both
        from the previous slot values. */
    method StepIndicators(d: TickDraws, now: nat)
      requires Valid() && ValidDraws(d)
      modifies this`marketData, this`technicalData
      ensures Valid()
      ensures marketData == NextMarket(old(marketData), d, now)
      ensures technicalData == NextTechnical(old(technicalData), old(marketData.price), d)
    {
      marketData, technicalData := NextMarket(marketData, d, now), NextTechnical(technicalData, marketData.price, d);
    }

    /** setWhaleTransactions with the new whale: it goes in front and the list is cut to ten. */
    method AddWhale(w: WhaleTransaction)
      requires Valid()
      modifies this`whaleTransactions
      ensures Valid()
      ensures whaleTransactions == PrependBounded(w, old(whaleTransactions), MaxWhales)
    {
      whaleTransactions := PrependBounded(w, whaleTransactions, MaxWhales);
    }

    /** setSignals with the new signal: it goes in front and the list is cut to twenty. */
    method AddSignal(s: TradingSignal)
      requires Valid()
      modifies this`signals
      ensures Valid()
      ensures signals == PrependBounded(s, old(signals), MaxSignals)
    {
      signals := PrependBounded(s, signals, MaxSignals);
    }

    /** clearSignals. */
    method ClearSignals()
      requires Valid()
      modifies this`signals
      ensures Valid() && signals == []
    {
      signals := [];
    }
  }
}
