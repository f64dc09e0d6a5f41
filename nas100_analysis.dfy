/** src/components/trading/NAS100Analysis.tsx: the analysis panel's decision
    rules over its built-in snapshot: the whales' net dollar flow, a risk level
    and a final signal. */
module Nas100Analysis {
  import opened Wrappers
  import opened JsBuiltins

  /** One row of the whale table: its type label and its amount text ("$2.2M"). */
  datatype WhaleActivity = WhaleActivity(kind: string, amount: string)

  datatype RiskLevel = HighRisk | MediumRisk | LowRisk
  datatype FinalSignal = SellLikely | BuyLikely | Wait

  /** The buy label; every other label counts as a sell. */
  const Buy := "خرید"
  const Sell := "فروش"

  /** JS numbers where NaN can arise: None is NaN, which absorbs every sum. */
  function Add(x: Option<real>, y: Option<real>): (r: Option<real>)
    ensures r.Some? <==> x.Some? && y.Some?
    ensures r.Some? ==> r.value == x.value + y.value
  {
    if x.Some? && y.Some? then Some(x.value + y.value) else None
  }

  /** The amount in millions, parsed after removing every '$' and 'M'; plus
      for a buy and minus otherwise. */
  function Signed(w: WhaleActivity): (r: Option<real>)
    ensures r.None? <==> ParseFloat(RemoveAll(w.amount, {'$', 'M'})).None?
    ensures r.Some? && w.kind == Buy ==> r.value == ParseFloat(RemoveAll(w.amount, {'$', 'M'})).value
    ensures r.Some? && w.kind != Buy ==> r.value == -ParseFloat(RemoveAll(w.amount, {'$', 'M'})).value
  {
    match ParseFloat(RemoveAll(w.amount, {'$', 'M'}))
    case None => None
    case Some(v) => Some(if w.kind == Buy then v else -v)
  }

  /** The reduce over the rows from the left, with accumulator `acc`, each row
      contributing `amount(row)`: the accumulator plus the sum of the rows. */
  function FlowFrom(amount: WhaleActivity -> Option<real>, acc: Option<real>, acts: seq<WhaleActivity>): (r: Option<real>)
    ensures r == Add(acc, Total(amount, acts))
    decreases acts
  {
    if acts == [] then acc else FlowFrom(amount, Add(acc, amount(acts[0])), acts[1..])
  }

  /** whaleNetFlow: the reduce started at 0 over the signed amounts, which is
      their sum. */
  function NetFlow(acts: seq<WhaleActivity>): (r: Option<real>)
    ensures r == Total(Signed, acts)
  {
    FlowFrom(Signed, Some(0.0), acts)
  }

  /** The reference sum, from the right. */
  function Total(amount: WhaleActivity -> Option<real>, acts: seq<WhaleActivity>): Option<real>
  {
    if acts == [] then Some(0.0) else Add(amount(acts[0]), Total(amount, acts[1..]))
  }

  /** Pulling any one row out of the sum. */
  lemma {:induction false} TotalRemove(amount: WhaleActivity -> Option<real>, acts: seq<WhaleActivity>, k: nat)
    requires k < |acts|
    ensures Total(amount, acts) == Add(amount(acts[k]), Total(amount, acts[..k] + acts[k + 1..]))
  {
    var rest := acts[..k] + acts[k + 1..];
    if k > 0 {
      var tail := acts[1..];
      TotalRemove(amount, tail, k - 1);
      assert rest[0] == acts[0];
      assert rest[1..] == tail[..k - 1] + tail[k..];
      assert tail[k - 1] == acts[k];
      AddSwap(amount(acts[0]), amount(acts[k]), Total(amount, rest[1..]));
    } else {
      assert rest == acts[1..];
    }
  }

  lemma AddSwap(x: Option<real>, y: Option<real>, z: Option<real>)
    ensures Add(x, Add(y, z)) == Add(y, Add(x, z))
  {
  }

  /** The sum does not depend on the order of the rows. */
  lemma {:induction false} TotalPermutation(amount: WhaleActivity -> Option<real>, a: seq<WhaleActivity>, b: seq<WhaleActivity>)
    requires multiset(a) == multiset(b)
    ensures Total(amount, a) == Total(amount, b)
    decreases |a|
  {
    if a != [] {
      var k := MatchFirst(a, b);
      TotalPermutation(amount, a[1..], b[..k] + b[k + 1..]);
      TotalRemove(amount, b, k);
    } else {
      assert |b| == |multiset(b)| == 0;
    }
  }

  /** Where the first element of `a` sits in its permutation `b`, and what is left. */
  lemma MatchFirst<T>(a: seq<T>, b: seq<T>) returns (k: nat)
    requires a != [] && multiset(a) == multiset(b)
    ensures k < |b| && b[k] == a[0]
    ensures multiset(a[1..]) == multiset(b[..k] + b[k + 1..])
  {
    assert a[0] in multiset(b);
    k :| 0 <= k < |b| && b[k] == a[0];
    assert a == [a[0]] + a[1..];
    assert b == b[..k] + [b[k]] + b[k + 1..];
    calc {
      multiset(a[1..]);
      multiset(a) - multiset{a[0]};
      multiset(b) - multiset{b[k]};
      multiset(b[..k]) + multiset(b[k + 1..]);
      multiset(b[..k] + b[k + 1..]);
    }
  }

  /** The net flow is the sum of the signed amounts, whatever the order of the rows. */
  lemma NetFlowOrderIndependent(a: seq<WhaleActivity>, b: seq<WhaleActivity>)
    requires multiset(a) == multiset(b)
    ensures NetFlow(a) == Total(Signed, a)
    ensures NetFlow(a) == NetFlow(b)
  {
    TotalPermutation(Signed, a, b);
  }

  /** A comparison with NaN is false. */
  predicate Less(x: Option<real>, y: real) { x.Some? && x.value < y }
  predicate Greater(x: Option<real>, y: real) { x.Some? && x.value > y }

  function Risk(rsi: real, flow: Option<real>): (r: RiskLevel)
    ensures r == HighRisk <==> rsi > 90.0 && Less(flow, -2.0)
    ensures r == LowRisk <==> rsi < 30.0 && Greater(flow, 2.0)
    ensures r == MediumRisk <==> !(rsi > 90.0 && Less(flow, -2.0)) && !(rsi < 30.0 && Greater(flow, 2.0))
  {
    if rsi > 90.0 && Less(flow, -2.0) then HighRisk
    else if rsi < 30.0 && Greater(flow, 2.0) then LowRisk
    else MediumRisk
  }

  function Signal(rsi: real, flow: Option<real>): (s: FinalSignal)
    ensures s == SellLikely <==> rsi > 85.0 && Less(flow, -1.0)
    ensures s == BuyLikely <==> rsi < 40.0 && Greater(flow, 1.0)
    ensures s == Wait <==> !(rsi > 85.0 && Less(flow, -1.0)) && !(rsi < 40.0 && Greater(flow, 1.0))
  {
    if rsi > 85.0 && Less(flow, -1.0) then SellLikely
    else if rsi < 40.0 && Greater(flow, 1.0) then BuyLikely
    else Wait
  }

  /** The signal thresholds are looser than the risk thresholds, so a high risk
      always comes with a sell and a low risk with a buy. */
  lemma RiskAgreesWithSignal(rsi: real, flow: Option<real>)
    ensures Risk(rsi, flow) == HighRisk ==> Signal(rsi, flow) == SellLikely
    ensures Risk(rsi, flow) == LowRisk ==> Signal(rsi, flow) == BuyLikely
  {
  }

  /** The panel's snapshot: RSI 93.5 and three whale rows. */
  const BuiltInRsi: real := 93.5
  const BuiltInWhales := [
    WhaleActivity(Sell, "$2.2M"), WhaleActivity(Sell, "$2.9M"), WhaleActivity(Buy, "$1.1M")]

  /** "$a.bM" loses its '$' and 'M' to become "a.b". */
  lemma StripDollarMillions(a: char, b: char)
    requires IsDigit(a) && IsDigit(b)
    ensures RemoveAll(['$', a, '.', b, 'M'], {'$', 'M'}) == [a, '.', b]
  {
    var cs := {'$', 'M'};
    var s := ['$', a, '.', b, 'M'];
    assert s[1..] == [a, '.', b, 'M'] && s[1..][1..] == ['.', b, 'M'];
    assert s[1..][1..][1..] == [b, 'M'] && s[1..][1..][1..][1..] == ['M'];
    assert RemoveAll(['M'], cs) == [] by { assert ['M'][1..] == []; }
    assert RemoveAll([b, 'M'], cs) == [b];
    assert RemoveAll(['.', b, 'M'], cs) == ['.', b];
    assert RemoveAll([a, '.', b, 'M'], cs) == [a, '.', b];
  }

  /** "a.b" parses to a + b/10. */
  lemma ParseOneDecimal(a: char, b: char)
    requires IsDigit(a) && IsDigit(b)
    ensures ParseFloat([a, '.', b]) == Some(DigitValue(a) as real + DigitValue(b) as real / 10.0)
  {
    var t := [a, '.', b];
    assert TrimStart(t) == t;
    assert ParseSigned(t) == ParseUnsigned(t);
    assert t == [a] + ['.', b] && [b] == [b] + [];
    SingleDigitPrefix(a, ['.', b]);
    SingleDigitPrefix(b, []);
    assert t[|[a]|..] == ['.', b] && ['.', b][1..] == [b];
    OneDecimalValue(a, b);
  }

  lemma OneDecimalValue(a: char, b: char)
    requires IsDigit(a) && IsDigit(b)
    ensures DecimalValue([a], [b]) == DigitValue(a) as real + DigitValue(b) as real / 10.0
  {
    assert FractionValue([b][1..]) == 0.0;
    SingleDigitValue(a);
    SingleDigitValue(b);
  }

  /** A digit followed by a non-digit is a one-digit run. */
  lemma SingleDigitPrefix(d: char, rest: string)
    requires IsDigit(d) && (rest == [] || !IsDigit(rest[0]))
    ensures DigitPrefix([d] + rest) == [d]
  {
    assert ([d] + rest)[1..] == rest;
  }

  lemma SingleDigitValue(d: char)
    requires IsDigit(d)
    ensures DigitsValue([d]) == DigitValue(d)
  {
    assert [d][..0] == [];
  }

  /** The table's amount text "$a.bM" stands for a + b/10 millions. */
  lemma AmountOf(w: WhaleActivity, a: char, b: char)
    requires IsDigit(a) && IsDigit(b) && w.amount == ['$', a, '.', b, 'M']
    ensures Signed(w).Some?
    ensures Signed(w).value == if w.kind == Buy
      then DigitValue(a) as real + DigitValue(b) as real / 10.0
      else -(DigitValue(a) as real + DigitValue(b) as real / 10.0)
  {
    StripDollarMillions(a, b);
    var t := RemoveAll(w.amount, {'$', 'M'});
    assert t == [a, '.', b];
    ParseOneDecimal(a, b);
    assert ParseFloat(t) == ParseFloat([a, '.', b]);
  }

  /** What the snapshot's rows are worth, in signed millions. */
  const BuiltInValues: seq<real> := [-2.2, -2.9, 1.1]

  /** The snapshot's rows are worth -2.2, -2.9 and +1.1 million. */
  lemma BuiltInAmount(k: nat)
    requires k < 3
    ensures Signed(BuiltInWhales[k]) == Some(BuiltInValues[k])
  {
    var w := BuiltInWhales[k];
    if k == 0 {
      assert w == WhaleActivity(Sell, ['$', '2', '.', '2', 'M']);
      assert Sell != Buy by { assert Sell[0] != Buy[0]; }
      assert DigitValue('2') == 2;
      AmountOf(w, '2', '2');
    } else if k == 1 {
      assert w == WhaleActivity(Sell, ['$', '2', '.', '9', 'M']);
      assert Sell != Buy by { assert Sell[0] != Buy[0]; }
      assert DigitValue('2') == 2 && DigitValue('9') == 9;
      AmountOf(w, '2', '9');
    } else {
      assert w == WhaleActivity(Buy, ['$', '1', '.', '1', 'M']);
      assert DigitValue('1') == 1;
      AmountOf(w, '1', '1');
    }
  }

  /** Three rows worth -2.2, -2.9 and +1.1 million add up to -4.0. */
  lemma FlowOfThree(w: seq<WhaleActivity>)
    requires |w| == 3
    requires Signed(w[0]) == Some(-2.2) && Signed(w[1]) == Some(-2.9) && Signed(w[2]) == Some(1.1)
    ensures NetFlow(w) == Some(-4.0)
  {
    assert w[1..][1..][1..] == [];
    assert FlowFrom(Signed, Some(0.0), w) == FlowFrom(Signed, Some(-2.2), w[1..]);
    assert FlowFrom(Signed, Some(-2.2), w[1..]) == FlowFrom(Signed, Some(-5.1), w[1..][1..]);
    assert FlowFrom(Signed, Some(-5.1), w[1..][1..]) == FlowFrom(Signed, Some(-4.0), []);
  }

  /** On the snapshot the flow is 1.1 - 2.2 - 2.9 = -4.0 million, the risk is
      high and the signal is a likely sell. */
  lemma BuiltInAnalysis()
    ensures NetFlow(BuiltInWhales) == Some(-4.0)
    ensures Risk(BuiltInRsi, NetFlow(BuiltInWhales)) == HighRisk
    ensures Signal(BuiltInRsi, NetFlow(BuiltInWhales)) == SellLikely
  {
    BuiltInAmount(0);
    BuiltInAmount(1);
    BuiltInAmount(2);
    FlowOfThree(BuiltInWhales);
  }
}
