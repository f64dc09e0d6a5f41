/** src/components/portfolio/PortfolioOverview.tsx: the summary figures over the
    sample positions. */
module PortfolioOverview {
  import opened Wrappers

  datatype Position = Position(
    symbol: string, quantity: real, avgPrice: real, currentPrice: real,
    value: real, pnl: real, pnlPercent: real, allocation: real)

  const MockPositions := [
    Position("NAS100", 10.0, 13200.0, 13586.60, 135866.0, 3866.0, 2.93, 65.0),
    Position("SPX500", 5.0, 4420.0, 4456.30, 22281.50, 181.50, 0.82, 25.0),
    Position("EURUSD", 100000.0, 1.0845, 1.0867, 10867.0, 220.0, 2.03, 10.0)]

  /** The reference sums of the value and PnL columns, from the right. */
  function ValueSum(ps: seq<Position>): real {
    if ps == [] then 0.0 else ps[0].value + ValueSum(ps[1..])
  }

  function PnLSum(ps: seq<Position>): real {
    if ps == [] then 0.0 else ps[0].pnl + PnLSum(ps[1..])
  }

  /** `reduce((sum, pos) => sum + pos.value, acc)`: the accumulator plus the column sum. */
  function ValueFrom(acc: real, ps: seq<Position>): (r: real)
    ensures r == acc + ValueSum(ps)
    decreases ps
  {
    if ps == [] then acc else ValueFrom(acc + ps[0].value, ps[1..])
  }

  /** `reduce((sum, pos) => sum + pos.pnl, acc)`: the accumulator plus the column sum. */
  function PnLFrom(acc: real, ps: seq<Position>): (r: real)
    ensures r == acc + PnLSum(ps)
    decreases ps
  {
    if ps == [] then acc else PnLFrom(acc + ps[0].pnl, ps[1..])
  }

  /** totalValue: the value column's sum, never negative when no position is. */
  function TotalValue(ps: seq<Position>): (r: real)
    ensures r == ValueSum(ps)
    ensures (forall i :: 0 <= i < |ps| ==> ps[i].value >= 0.0) ==> r >= 0.0
  {
    NonNegativeValues(ps);
    ValueFrom(0.0, ps)
  }

  /** totalPnL: the PnL column's sum. */
  function TotalPnL(ps: seq<Position>): (r: real)
    ensures r == PnLSum(ps)
  {
    PnLFrom(0.0, ps)
  }

  lemma {:induction false} NonNegativeValues(ps: seq<Position>)
    ensures (forall i :: 0 <= i < |ps| ==> ps[i].value >= 0.0) ==> ValueSum(ps) >= 0.0
  {
    if ps != [] {
      NonNegativeValues(ps[1..]);
      assert forall i :: 0 <= i < |ps[1..]| ==> ps[1..][i] == ps[i + 1];
    }
  }

  /** The sums split anywhere. */
  lemma {:induction false} SumsSplit(a: seq<Position>, b: seq<Position>)
    ensures ValueSum(a + b) == ValueSum(a) + ValueSum(b)
    ensures PnLSum(a + b) == PnLSum(a) + PnLSum(b)
  {
    if a == [] {
      assert a + b == b;
    } else {
      assert (a + b)[0] == a[0] && (a + b)[1..] == a[1..] + b;
      SumsSplit(a[1..], b);
    }
  }

  /** The totals add over concatenated portfolios. */
  lemma TotalsAdd(a: seq<Position>, b: seq<Position>)
    ensures TotalValue(a + b) == TotalValue(a) + TotalValue(b)
    ensures TotalPnL(a + b) == TotalPnL(a) + TotalPnL(b)
  {
    SumsSplit(a, b);
  }

  /** totalPnLPercent: the gain over the cost basis `totalValue - totalPnL`, in
      percent; None where the basis is zero and JS divides by zero, which stands
      for Infinity, -Infinity and NaN alike (a positive PnL on a zero basis
      would show "+Infinity%"). */
  function PnLPercent(totalValue: real, totalPnL: real): (r: Option<real>)
    ensures r.None? <==> totalValue == totalPnL
    ensures r.Some? ==> r.value * (totalValue - totalPnL) == totalPnL * 100.0
  {
    if totalValue == totalPnL then None else Some(totalPnL / (totalValue - totalPnL) * 100.0)
  }

  /** The percent card's sign prefix. */
  function SignPrefix(x: real): (s: string)
    ensures s == "+" <==> x >= 0.0
    ensures s == "" <==> x < 0.0
  {
    if x >= 0.0 then "+" else ""
  }

  /** With a positive cost basis the percent has the sign of the PnL, so the
      percent card shows '+' exactly when the PnL card does. */
  lemma PercentSignFollowsPnL(totalValue: real, totalPnL: real)
    requires totalValue - totalPnL > 0.0
    ensures PnLPercent(totalValue, totalPnL).Some?
    ensures PnLPercent(totalValue, totalPnL).value >= 0.0 <==> totalPnL >= 0.0
    ensures PnLPercent(totalValue, totalPnL).value > 0.0 <==> totalPnL > 0.0
    ensures SignPrefix(PnLPercent(totalValue, totalPnL).value) == SignPrefix(totalPnL)
  {
    var basis := totalValue - totalPnL;
    var p := PnLPercent(totalValue, totalPnL).value;
    assert p * basis == totalPnL * 100.0;
    if p < 0.0 {
      assert p * basis < 0.0;
    }
    if p > 0.0 {
      assert p * basis > 0.0;
    }
  }

  /** The sample portfolio is worth 169014.5 with a gain of 4267.5, on a
      positive cost basis. */
  lemma MockTotals()
    ensures TotalValue(MockPositions) == 169014.5
    ensures TotalPnL(MockPositions) == 4267.5
    ensures TotalValue(MockPositions) - TotalPnL(MockPositions) > 0.0
  {
  }
}
