/** Performance figures of a list of trades. */
module Metrics {
  import opened Models
  import opened Backtest

  datatype ProfitFactor = Ratio(value: real) | Infinite

  datatype BacktestMetrics = BacktestMetrics(
    trades: nat,
    wins: nat,
    losses: nat,
    winRate: real,
    grossPnl: real,
    netPnl: real,
    fees: real,
    fundingCost: real,
    expectancy: real,
    profitFactor: ProfitFactor,
    maxDrawdownPct: real,
    turnoverUsdt: real,
    costShareOfAbsGross: real)

  function SumOf(ts: seq<SimulatedTrade>, f: SimulatedTrade -> real): real {
    if ts == [] then 0.0 else SumOf(ts[..|ts| - 1], f) + f(ts[|ts| - 1])
  }

  function CountOf(ts: seq<SimulatedTrade>, p: SimulatedTrade -> bool): (n: nat)
    ensures n <= |ts|
  {
    if ts == [] then 0 else CountOf(ts[..|ts| - 1], p) + if p(ts[|ts| - 1]) then 1 else 0
  }

  function Net(t: SimulatedTrade): real { t.netPnl }
  function Gross(t: SimulatedTrade): real { t.grossPnl }
  function Fees(t: SimulatedTrade): real { t.fees }
  function Funding(t: SimulatedTrade): real { t.fundingCost }
  function Gain(t: SimulatedTrade): real { if t.netPnl > 0.0 then t.netPnl else 0.0 }
  function Loss(t: SimulatedTrade): real { if t.netPnl < 0.0 then -t.netPnl else 0.0 }
  function Turnover(t: SimulatedTrade): real { Abs(t.quantity * t.entryPrice) + Abs(t.quantity * t.exitPrice) }
  predicate Won(t: SimulatedTrade) { t.netPnl > 0.0 }
  predicate Lost(t: SimulatedTrade) { t.netPnl < 0.0 }

  /** Equity after the first `k` trades. */
  function Equity(start: real, ts: seq<SimulatedTrade>, k: nat): real
    requires k <= |ts|
  {
    start + SumOf(ts[..k], Net)
  }

  /** The highest equity seen so far, the start included. */
  function Peak(start: real, ts: seq<SimulatedTrade>, k: nat): real
    requires k <= |ts|
  {
    if k == 0 then start else MaxReal(Peak(start, ts, k - 1), Equity(start, ts, k))
  }

  /** The relative drop from the running peak after the first `k` trades. */
  function Drop(start: real, ts: seq<SimulatedTrade>, k: nat): real
    requires k <= |ts|
  {
    var peak := Peak(start, ts, k);
    if peak > 0.0 then (peak - Equity(start, ts, k)) / peak else 0.0
  }

  function Factor(profit: real, loss: real): ProfitFactor {
    if loss > 0.0 then Ratio(profit / loss) else if profit > 0.0 then Infinite else Ratio(0.0)
  }

  /** The figure is the largest of the drops, and zero when there is none. */
  ghost predicate LargestDrop(start: real, ts: seq<SimulatedTrade>, n: nat, dd: real)
    requires n <= |ts|
  {
    && dd >= 0.0
    && (forall k | 1 <= k <= n :: Drop(start, ts, k) <= dd)
    && (dd == 0.0 || exists k :: 1 <= k <= n && Drop(start, ts, k) == dd)
  }

  function MaxDrop(start: real, ts: seq<SimulatedTrade>, k: nat): (r: real)
    requires k <= |ts|
    ensures r >= 0.0
  {
    if k == 0 then 0.0 else MaxReal(MaxDrop(start, ts, k - 1), Drop(start, ts, k))
  }

  function MetricsOf(ts: seq<SimulatedTrade>, start: real): BacktestMetrics {
    var n, wins, net := |ts|, CountOf(ts, Won), SumOf(ts, Net);
    var gross, fees, funding := SumOf(ts, Gross), SumOf(ts, Fees), SumOf(ts, Funding);
    BacktestMetrics(n, wins, CountOf(ts, Lost), if n == 0 then 0.0 else wins as real / n as real,
                    gross, net, fees, funding,
                    if n == 0 then 0.0 else net / n as real, Factor(SumOf(ts, Gain), SumOf(ts, Loss)),
                    MaxDrop(start, ts, n),
                    SumOf(ts, Turnover), Abs(fees + funding) / MaxReal(Abs(gross), 0.000000000001))
  }

  /** The drawdown figure is the largest relative drop from the running peak, over all positions. */
  lemma {:induction false} MaxDropIsLargest(start: real, ts: seq<SimulatedTrade>, k: nat)
    requires k <= |ts|
    ensures LargestDrop(start, ts, k, MaxDrop(start, ts, k))
  {
    hide LargestDrop, Drop;
    if k == 0 {
      NoDrop(start, ts);
    } else {
      MaxDropIsLargest(start, ts, k - 1);
      DropGrows(start, ts, k - 1, MaxDrop(start, ts, k - 1));
    }
  }

  lemma DropGrows(start: real, ts: seq<SimulatedTrade>, i: nat, before: real)
    requires i < |ts| && LargestDrop(start, ts, i, before)
    ensures LargestDrop(start, ts, i + 1, MaxReal(before, Drop(start, ts, i + 1)))
  {
    hide Equity, Peak, Drop;
    var after := MaxReal(before, Drop(start, ts, i + 1));
    if after == before && before != 0.0 {
      var k :| 1 <= k <= i && Drop(start, ts, k) == before;
      assert Drop(start, ts, k) == after;
    } else if after != before {
      assert Drop(start, ts, i + 1) == after;
    }
  }

  lemma NoDrop(start: real, ts: seq<SimulatedTrade>)
    ensures LargestDrop(start, ts, 0, 0.0)
  {
  }

  method Total(ts: seq<SimulatedTrade>, f: SimulatedTrade -> real) returns (sum: real)
    ensures sum == SumOf(ts, f)
  {
    sum := 0.0;
    for i := 0 to |ts|
      invariant sum == SumOf(ts[..i], f)
    {
      assert ts[..i + 1][..i] == ts[..i];
      sum := sum + f(ts[i]);
    }
    assert ts[..|ts|] == ts;
  }

  method Count(ts: seq<SimulatedTrade>, p: SimulatedTrade -> bool) returns (n: nat)
    ensures n == CountOf(ts, p)
  {
    n := 0;
    for i := 0 to |ts|
      invariant n == CountOf(ts[..i], p)
    {
      assert ts[..i + 1][..i] == ts[..i];
      n := n + if p(ts[i]) then 1 else 0;
    }
    assert ts[..|ts|] == ts;
  }

  /** The drawdown loop: one pass with a running equity and a running peak. */
  method MaxDrawdown(ts: seq<SimulatedTrade>, start: real) returns (maxDrop: real)
    ensures maxDrop == MaxDrop(start, ts, |ts|)
  {
    var equity, peak := start, start;
    maxDrop := 0.0;
    StartEquity(start, ts);
    for i := 0 to |ts|
      invariant equity == Equity(start, ts, i) && peak == Peak(start, ts, i)
      invariant maxDrop == MaxDrop(start, ts, i)
    {
      NextEquity(start, ts, i);
      equity := equity + ts[i].netPnl;
      peak := MaxReal(peak, equity);
      if peak > 0.0 {
        maxDrop := MaxReal(maxDrop, (peak - equity) / peak);
      }
    }
  }

  lemma NextEquity(start: real, ts: seq<SimulatedTrade>, i: nat)
    requires i < |ts|
    ensures Equity(start, ts, i + 1) == Equity(start, ts, i) + ts[i].netPnl
  {
    assert ts[..i + 1][..i] == ts[..i];
  }

  method MetricsFromTrades(ts: seq<SimulatedTrade>, start: real) returns (m: BacktestMetrics)
    ensures m == MetricsOf(ts, start)
  {
    hide SumOf, CountOf, MaxDrop;
    var wins := Count(ts, Won);
    var losses := Count(ts, Lost);
    var profit := Total(ts, Gain);
    var loss := Total(ts, Loss);
    var drawdown := MaxDrawdown(ts, start);
    var gross := Total(ts, Gross);
    var fees := Total(ts, Fees);
    var funding := Total(ts, Funding);
    var net := Total(ts, Net);
    var turnover := Total(ts, Turnover);
    var n := |ts|;
    m := BacktestMetrics(n, wins, losses, if n == 0 then 0.0 else wins as real / n as real, gross, net, fees, funding,
                         if n == 0 then 0.0 else net / n as real, Factor(profit, loss), drawdown, turnover,
                         Abs(fees + funding) / MaxReal(Abs(gross), 0.000000000001));
  }

  // ---- What the figures mean together ----

  /** The running peak is an equity the account really had and never less than any it had before. */
  lemma {:induction false} PeakIsHighest(start: real, ts: seq<SimulatedTrade>, k: nat)
    requires k <= |ts|
    ensures forall j | 0 <= j <= k :: Equity(start, ts, j) <= Peak(start, ts, k)
    ensures exists j :: 0 <= j <= k && Equity(start, ts, j) == Peak(start, ts, k)
  {
    hide Equity;
    if k == 0 {
      assert Equity(start, ts, 0) == start by { assert ts[..0] == []; StartEquity(start, ts); }
    } else {
      PeakIsHighest(start, ts, k - 1);
      var j :| 0 <= j <= k - 1 && Equity(start, ts, j) == Peak(start, ts, k - 1);
      assert Equity(start, ts, if Equity(start, ts, k) > Peak(start, ts, k - 1) then k else j) == Peak(start, ts, k);
    }
  }

  lemma StartEquity(start: real, ts: seq<SimulatedTrade>)
    ensures Equity(start, ts, 0) == start
  {
    assert ts[..0] == [];
  }

  /** When each trade's net is its gross less fees and funding, so are the totals. */
  lemma {:induction false} NetIsGrossLessCosts(ts: seq<SimulatedTrade>)
    requires forall t | t in ts :: t.netPnl == t.grossPnl - t.fees - t.fundingCost
    ensures SumOf(ts, Net) == SumOf(ts, Gross) - SumOf(ts, Fees) - SumOf(ts, Funding)
    ensures SumOf(ts, Net) == SumOf(ts, Gain) - SumOf(ts, Loss)
    ensures CountOf(ts, Won) + CountOf(ts, Lost) <= |ts|
  {
    if ts != [] {
      assert ts[|ts| - 1] in ts;
      NetIsGrossLessCosts(ts[..|ts| - 1]);
    }
  }

  lemma OneMoreSum(ts: seq<SimulatedTrade>, t: SimulatedTrade, f: SimulatedTrade -> real)
    ensures SumOf([], f) == 0.0 && SumOf(ts + [t], f) == SumOf(ts, f) + f(t)
  {
    assert (ts + [t])[..|ts|] == ts;
  }

  lemma OneMoreCount(ts: seq<SimulatedTrade>, t: SimulatedTrade, p: SimulatedTrade -> bool)
    ensures CountOf([], p) == 0 && CountOf(ts + [t], p) == CountOf(ts, p) + if p(t) then 1 else 0
  {
    assert (ts + [t])[..|ts|] == ts;
  }

  /** The figures of no trades are zero; one more trade adds itself to the counts, and its own numbers to the totals. */
  lemma FiguresAddUp(ts: seq<SimulatedTrade>, t: SimulatedTrade, start: real)
    ensures
      var z := MetricsOf([], start);
      && z.trades == z.wins == z.losses == 0 && z.grossPnl == z.netPnl == z.fees == z.fundingCost == 0.0
      && z.turnoverUsdt == 0.0
    ensures
      var m, n := MetricsOf(ts, start), MetricsOf(ts + [t], start);
      var paid, got := t.quantity * t.entryPrice, t.quantity * t.exitPrice;
      && n.trades == m.trades + 1
      && n.wins == m.wins + (if t.netPnl > 0.0 then 1 else 0)
      && n.losses == m.losses + (if t.netPnl < 0.0 then 1 else 0)
      && n.grossPnl == m.grossPnl + t.grossPnl && n.netPnl == m.netPnl + t.netPnl && n.fees == m.fees + t.fees
      && n.fundingCost == m.fundingCost + t.fundingCost
      && n.turnoverUsdt == m.turnoverUsdt + (if paid < 0.0 then -paid else paid) + (if got < 0.0 then -got else got)
  {
    OneMoreSum(ts, t, Gross);
    OneMoreSum(ts, t, Net);
    OneMoreSum(ts, t, Fees);
    OneMoreSum(ts, t, Funding);
    OneMoreSum(ts, t, Turnover);
    OneMoreCount(ts, t, Won);
    OneMoreCount(ts, t, Lost);
    hide SumOf, CountOf, MaxDrop, Factor;
  }

  /** What the trades won altogether, and what they lost. */
  function Profit(ts: seq<SimulatedTrade>): real {
    if ts == [] then 0.0
    else
      var net := ts[|ts| - 1].netPnl;
      Profit(ts[..|ts| - 1]) + if net > 0.0 then net else 0.0
  }

  function Deficit(ts: seq<SimulatedTrade>): real {
    if ts == [] then 0.0
    else
      var net := ts[|ts| - 1].netPnl;
      Deficit(ts[..|ts| - 1]) + if net < 0.0 then -net else 0.0
  }

  lemma {:induction false} GainsAndLosses(ts: seq<SimulatedTrade>)
    ensures SumOf(ts, Gain) == Profit(ts) && SumOf(ts, Loss) == Deficit(ts)
  {
    if ts != [] {
      GainsAndLosses(ts[..|ts| - 1]);
    }
  }

  /** The expectancy is the net of one trade, the win rate the share of winners; both are zero without trades. */
  lemma AveragesMean(ts: seq<SimulatedTrade>, start: real)
    ensures
      var m := MetricsOf(ts, start);
      && m.trades == |ts|
      && m.expectancy * m.trades as real == m.netPnl && m.winRate * m.trades as real == m.wins as real
      && (ts == [] ==> m.expectancy == 0.0 && m.winRate == 0.0)
  {
    if ts == [] {
      assert SumOf(ts, Net) == 0.0 && CountOf(ts, Won) == 0;
    } else {
      Restores(SumOf(ts, Net), |ts| as real);
      Restores(CountOf(ts, Won) as real, |ts| as real);
    }
    hide SumOf, CountOf, MaxDrop, Factor;
  }

  lemma FactorMeans(profit: real, loss: real)
    ensures loss > 0.0 ==> Factor(profit, loss).Ratio? && Factor(profit, loss).value * loss == profit
    ensures loss <= 0.0 ==> Factor(profit, loss) == if profit > 0.0 then Infinite else Ratio(0.0)
  {
  }

  /** The profit factor is what was won over what was lost: infinite without a loss, zero without either. */
  lemma ProfitFactorMeans(ts: seq<SimulatedTrade>, start: real)
    ensures
      var f := MetricsOf(ts, start).profitFactor;
      && (Deficit(ts) > 0.0 ==> f.Ratio? && f.value * Deficit(ts) == Profit(ts))
      && (Deficit(ts) <= 0.0 ==> f == if Profit(ts) > 0.0 then Infinite else Ratio(0.0))
  {
    GainsAndLosses(ts);
    FactorMeans(Profit(ts), Deficit(ts));
    hide SumOf, CountOf, MaxDrop, Profit, Deficit, Factor;
  }

  /** The cost share is the costs over the gross, which counts as at least a trillionth; the drawdown is the largest
      relative drop. */
  lemma CostShareMeans(ts: seq<SimulatedTrade>, start: real)
    ensures
      var m := MetricsOf(ts, start);
      var gross, costs := if m.grossPnl < 0.0 then -m.grossPnl else m.grossPnl, m.fees + m.fundingCost;
      && m.costShareOfAbsGross * (if gross > 0.000000000001 then gross else 0.000000000001)
         == (if costs < 0.0 then -costs else costs)
      && LargestDrop(start, ts, |ts|, m.maxDrawdownPct)
  {
    MaxDropIsLargest(start, ts, |ts|);
    Restores(Abs(SumOf(ts, Fees) + SumOf(ts, Funding)), MaxReal(Abs(SumOf(ts, Gross)), 0.000000000001));
    hide SumOf, CountOf, MaxDrop, Factor, LargestDrop;
  }

  lemma Restores(x: real, y: real)
    requires y != 0.0
    ensures x / y * y == x
  {
  }

  /** After `k` trades the equity is at most a share `d` below a positive peak. */
  predicate FallsWithin(start: real, ts: seq<SimulatedTrade>, k: nat, d: real)
    requires k <= |ts|
  {
    Peak(start, ts, k) > 0.0 ==> Peak(start, ts, k) - Equity(start, ts, k) <= d * Peak(start, ts, k)
  }

  /** It is exactly that far below one. */
  predicate FallsBy(start: real, ts: seq<SimulatedTrade>, k: nat, d: real)
    requires k <= |ts|
  {
    Peak(start, ts, k) > 0.0 && Peak(start, ts, k) - Equity(start, ts, k) == d * Peak(start, ts, k)
  }

  /** The drawdown is a share of the running peak: nowhere does the equity fall by more than that, and unless it is zero
      it falls by exactly that somewhere. */
  lemma DrawdownMeans(ts: seq<SimulatedTrade>, start: real)
    ensures
      var d := MetricsOf(ts, start).maxDrawdownPct;
      && d >= 0.0
      && (forall k | 1 <= k <= |ts| :: FallsWithin(start, ts, k, d))
      && (d == 0.0 || exists k :: 1 <= k <= |ts| && FallsBy(start, ts, k, d))
  {
    MaxDropIsLargest(start, ts, |ts|);
    hide SumOf, CountOf, MaxDrop, Drop, FallsWithin, FallsBy, Factor;
    var d := MetricsOf(ts, start).maxDrawdownPct;
    forall k | 1 <= k <= |ts| ensures FallsWithin(start, ts, k, d) {
      DropMeans(start, ts, k, d);
    }
    if d != 0.0 {
      var k :| 1 <= k <= |ts| && Drop(start, ts, k) == d;
      DropMeans(start, ts, k, d);
    }
  }

  lemma DropMeans(start: real, ts: seq<SimulatedTrade>, k: nat, d: real)
    requires k <= |ts| && d >= 0.0
    ensures FallsWithin(start, ts, k, d) <==> Drop(start, ts, k) <= d
    ensures d != 0.0 ==> (FallsBy(start, ts, k, d) <==> Drop(start, ts, k) == d)
  {
    hide Peak, Equity;
    var peak, gap := Peak(start, ts, k), Peak(start, ts, k) - Equity(start, ts, k);
    if peak > 0.0 {
      Restores(gap, peak);
      Compares(gap / peak, d, peak);
      Compares(d, gap / peak, peak);
    }
  }

  lemma Compares(x: real, y: real, z: real)
    requires z > 0.0
    ensures x <= y <==> x * z <= y * z
  {
    if x <= y {
      MulGrows(x, y, z);
    } else {
      MulStrictlyGrows(y, x, z);
    }
  }

  /** The equity starts at the start and moves by each trade's net. */
  lemma EquityMeans(start: real, ts: seq<SimulatedTrade>, k: nat)
    requires k < |ts|
    ensures Equity(start, ts, 0) == start
    ensures Equity(start, ts, k + 1) == Equity(start, ts, k) + ts[k].netPnl
  {
    StartEquity(start, ts);
    NextEquity(start, ts, k);
    hide Equity;
  }
}
