/** Higher costs change no decision and improve no trade. */
module BacktestCosts {
  import opened Models
  import opened Market
  import opened Signals
  import opened History
  import opened Backtest
  import opened Metrics
  import opened BacktestRun
  import opened BacktestProofs

  // ---- One trade ----

  function NetOf(notional: real, d: Direction, base: real, exit: real, friction: real, fee: real): real
    requires EntryPrice(base, d, friction) != 0.0
  {
    var p := PnlOf(notional, d, EntryPrice(base, d, friction), ExitPrice(exit, d, friction), fee);
    p.gross - p.fees
  }

  /** The exit value of a position bought for `notional`. */
  function ExitValue(notional: real, entryPrice: real, exitPrice: real): real
    requires entryPrice != 0.0
  {
    Mul(notional / entryPrice, exitPrice)
  }

  lemma PnlByValue(notional: real, d: Direction, entryPrice: real, exitPrice: real, fee: real)
    requires notional > 0.0 && entryPrice > 0.0 && exitPrice > 0.0
    ensures
      var p, value := PnlOf(notional, d, entryPrice, exitPrice, fee), ExitValue(notional, entryPrice, exitPrice);
      && value > 0.0
      && p.gross == Sign(d) * (value - notional)
      && p.fees == Mul(notional, fee) + Mul(value, fee)
  {
    var q := notional / entryPrice;
    assert q > 0.0 && q * entryPrice == notional;
    var value := ExitValue(notional, entryPrice, exitPrice);
    MulStrictlyGrows(0.0, q, exitPrice);
    assert value == q * exitPrice;
    assert q * (exitPrice - entryPrice) == value - notional;
  }

  lemma ValueMoves(notional: real, p1: real, p2: real, x1: real, x2: real)
    requires notional > 0.0 && 0.0 < p1 <= p2 && 0.0 < x2 <= x1
    ensures ExitValue(notional, p2, x2) <= ExitValue(notional, p1, x1)
  {
    Quotients(notional, p1, p2);
    MulGrows(notional / p2, notional / p1, x2);
    assert notional / p1 >= 0.0;
    Commute(notional / p1, x1);
    Commute(notional / p1, x2);
    MulGrows(x2, x1, notional / p1);
  }

  lemma Commute(x: real, y: real)
    ensures Mul(x, y) == Mul(y, x)
  {
  }

  lemma Quotients(n: real, p1: real, p2: real)
    requires n > 0.0 && 0.0 < p1 <= p2
    ensures 0.0 < n / p2 <= n / p1
  {
    var a, b := n / p1, n / p2;
    assert a * p1 == n && b * p2 == n && b > 0.0;
    assert b * p1 <= b * p2;
    assert (a - b) * p1 >= 0.0;
  }

  lemma FeesGrow(value: real, fee1: real, fee2: real)
    requires value >= 0.0 && fee1 <= fee2
    ensures Mul(value, fee1) <= Mul(value, fee2)
  {
    Commute(value, fee1);
    Commute(value, fee2);
    MulGrows(fee1, fee2, value);
  }

  /** Value less its fee grows with the value while the fee is at most one, and so does value plus fee above minus
      one. */
  lemma AfterFee(v: real, w: real, fee: real)
    requires v <= w
    ensures fee <= 1.0 ==> v - Mul(v, fee) <= w - Mul(w, fee)
    ensures fee >= -1.0 ==> v + Mul(v, fee) <= w + Mul(w, fee)
  {
    assert v - Mul(v, fee) == Mul(1.0 - fee, v) && w - Mul(w, fee) == Mul(1.0 - fee, w);
    assert v + Mul(v, fee) == Mul(1.0 + fee, v) && w + Mul(w, fee) == Mul(1.0 + fee, w);
    Commute(1.0 - fee, v);
    Commute(1.0 - fee, w);
    Commute(1.0 + fee, v);
    Commute(1.0 + fee, w);
    if fee <= 1.0 { MulGrows(v, w, 1.0 - fee); }
    if fee >= -1.0 { MulGrows(v, w, 1.0 + fee); }
  }

  lemma FrictionMoves(base: real, f1: real, f2: real)
    requires base > 0.0 && -1.0 < f1 <= f2 < 1.0
    ensures 0.0 < Mul(base, 1.0 + f1) <= Mul(base, 1.0 + f2)
    ensures 0.0 < Mul(base, 1.0 - f2) <= Mul(base, 1.0 - f1)
  {
    Commute(base, 1.0 + f1);
    Commute(base, 1.0 + f2);
    Commute(base, 1.0 - f1);
    Commute(base, 1.0 - f2);
    MulStrictlyGrows(0.0, 1.0 + f1, base);
    MulGrows(1.0 + f1, 1.0 + f2, base);
    MulStrictlyGrows(0.0, 1.0 - f2, base);
    MulGrows(1.0 - f2, 1.0 - f1, base);
    assert Mul(0.0, base) == 0.0;
    hide Mul;
  }

  lemma SignedPrices(base: real, friction: real)
    ensures EntryPrice(base, LONG, friction) == Mul(base, 1.0 + friction)
            && ExitPrice(base, LONG, friction) == Mul(base, 1.0 - friction)
    ensures EntryPrice(base, SHORT, friction) == Mul(base, 1.0 - friction)
            && ExitPrice(base, SHORT, friction) == Mul(base, 1.0 + friction)
  {
    assert 1.0 + Sign(SHORT) * friction == 1.0 - friction;
    assert 1.0 - Sign(SHORT) * friction == 1.0 + friction;
  }

  /** More friction makes a buyer pay more and receive less, and a seller the reverse. */
  lemma PricesMove(d: Direction, base: real, exit: real, f1: real, f2: real)
    requires base > 0.0 && exit > 0.0 && -1.0 < f1 <= f2 < 1.0 && !d.PASS?
    ensures EntryPrice(base, d, f1) > 0.0 && EntryPrice(base, d, f2) > 0.0
    ensures ExitPrice(exit, d, f1) > 0.0 && ExitPrice(exit, d, f2) > 0.0
    ensures d.LONG? ==>
              EntryPrice(base, d, f1) <= EntryPrice(base, d, f2) && ExitPrice(exit, d, f2) <= ExitPrice(exit, d, f1)
    ensures d.SHORT? ==>
              EntryPrice(base, d, f2) <= EntryPrice(base, d, f1) && ExitPrice(exit, d, f1) <= ExitPrice(exit, d, f2)
  {
    hide EntryPrice, ExitPrice, Mul;
    FrictionMoves(base, f1, f2);
    FrictionMoves(exit, f1, f2);
    SignedPrices(base, f1);
    SignedPrices(base, f2);
    SignedPrices(exit, f1);
    SignedPrices(exit, f2);
  }

  /** The costs of two runs: friction below one, fee rate at most one, the second no cheaper than the first. */
  predicate NoCheaper(f1: real, f2: real, fee1: real, fee2: real) {
    -1.0 < f1 <= f2 < 1.0 && -1.0 <= fee1 <= fee2 && fee1 <= 1.0
  }

  lemma TradeNoBetter(notional: real, d: Direction, base: real, exit: real, f1: real, f2: real, fee1: real, fee2: real)
    requires notional > 0.0 && base > 0.0 && exit > 0.0 && !d.PASS? && NoCheaper(f1, f2, fee1, fee2)
    ensures EntryPrice(base, d, f1) != 0.0 && EntryPrice(base, d, f2) != 0.0
    ensures NetOf(notional, d, base, exit, f2, fee2) <= NetOf(notional, d, base, exit, f1, fee1)
  {
    hide EntryPrice, ExitPrice, PnlOf, ExitValue, Mul;
    PricesMove(d, base, exit, f1, f2);
    var p1, p2 := EntryPrice(base, d, f1), EntryPrice(base, d, f2);
    var x1, x2 := ExitPrice(exit, d, f1), ExitPrice(exit, d, f2);
    PnlByValue(notional, d, p1, x1, fee1);
    PnlByValue(notional, d, p2, x2, fee2);
    var v1, v2 := ExitValue(notional, p1, x1), ExitValue(notional, p2, x2);
    if d.LONG? {
      ValueMoves(notional, p1, p2, x1, x2);
      AfterFee(v2, v1, fee1);
    } else {
      ValueMoves(notional, p2, p1, x2, x1);
      AfterFee(v1, v2, fee1);
    }
    FeesGrow(notional, fee1, fee2);
    FeesGrow(v2, fee1, fee2);
  }

  // ---- A whole run ----

  ghost predicate PositivePrices(rows: seq<HistoricalBar>) {
    forall i | 0 <= i < |rows| :: rows[i].open > 0.0 && rows[i].low > 0.0 && rows[i].close > 0.0
  }

  /** Exit bases are positive: a stop that is hit or passed the entry check lies at a positive level. */
  ghost predicate PositiveExits(t: Track) {
    && (forall i | 0 <= i < |t.fills| :: t.fills[i].exitBase > 0.0)
    && (t.position.Some? ==>
          var s := t.position.value.signal;
          s.direction.SHORT? && s.invalidation.Some? ==> s.invalidation.value > 0.0)
  }

  lemma BarKeepsPositive(rules: Rules, row: HistoricalBar, idx: nat, last: bool, t: Track)
    requires PositiveExits(t) && Tracked(rules, idx, t) && row.open > 0.0 && row.low > 0.0 && row.close > 0.0
    ensures PositiveExits(OnBar(rules, row, idx, last, t))
  {
    hide Observe, InWindow, Disjoint, FillOk;
  }

  lemma {:induction false} ExitsStayPositive(rules: Rules, symbol: string, rows: seq<HistoricalBar>, k: nat)
    requires k <= |rows| && PositivePrices(rows)
    ensures PositiveExits(TrackAt(rules, symbol, rows, k))
  {
    hide OnBar;
    if k > 0 {
      ExitsStayPositive(rules, symbol, rows, k - 1);
      TrackAtTracked(rules, symbol, rows, k - 1);
      BarKeepsPositive(rules, rows[k - 1], k - 1, k == |rows|, TrackAt(rules, symbol, rows, k - 1));
    }
  }

  lemma AllExitsPositive(rules: Rules, symbol: string, rows: seq<HistoricalBar>)
    requires rows != [] && PositivePrices(rows)
    ensures forall i | 0 <= i < |AllFills(rules, symbol, rows)| :: AllFills(rules, symbol, rows)[i].exitBase > 0.0
  {
    ExitsStayPositive(rules, symbol, rows, |rows|);
    hide TrackAt;
  }

  /** The same decision, possibly at another price. */
  predicate SameDecision(a: SimulatedTrade, b: SimulatedTrade) {
    && a.symbol == b.symbol && a.direction == b.direction && a.setup == b.setup
    && a.signalTimeMs == b.signalTimeMs && a.entryTimeMs == b.entryTimeMs && a.exitTimeMs == b.exitTimeMs
    && a.exitReason == b.exitReason && a.holdingBars == b.holdingBars && a.fundingCost == b.fundingCost
  }

  /** Two configurations that differ in costs only. */
  predicate OnlyCostsDiffer(a: BacktestConfig, b: BacktestConfig) {
    b == a.(takerFeeBps := b.takerFeeBps, assumedSpreadBps := b.assumedSpreadBps, slippageBps := b.slippageBps)
  }

  lemma FillNoBetter(symbol: string, rows: seq<HistoricalBar>, a: BacktestConfig, b: BacktestConfig,
                     funding: seq<FundingPoint>, f: Fill)
    requires OnlyCostsDiffer(a, b) && NoCheaper(FrictionFraction(a), FrictionFraction(b), FeeRate(a), FeeRate(b))
    requires a.notional > 0.0 && !f.holding.signal.direction.PASS? && f.exitBase > 0.0
    requires f.holding.entryIdx < |rows| && f.exitIdx < |rows| && f.holding.signalIdx < |rows|
             && rows[f.holding.entryIdx].open > 0.0
    ensures FillPriceable(rows, a, f) && FillPriceable(rows, b, f)
    ensures SameDecision(TradeOf(symbol, rows, a, funding, f), TradeOf(symbol, rows, b, funding, f))
    ensures TradeOf(symbol, rows, b, funding, f).netPnl <= TradeOf(symbol, rows, a, funding, f).netPnl
  {
    var d := f.holding.signal.direction;
    TradeNoBetter(a.notional, d, rows[f.holding.entryIdx].open, f.exitBase,
                  FrictionFraction(a), FrictionFraction(b), FeeRate(a), FeeRate(b));
    hide PnlOf, EntryPrice, ExitPrice, FundingCost, FrictionFraction, FeeRate;
  }

  lemma {:induction false} SumNoBetter(xs: seq<SimulatedTrade>, ys: seq<SimulatedTrade>)
    requires |xs| == |ys| && forall i | 0 <= i < |xs| :: ys[i].netPnl <= xs[i].netPnl
    ensures SumOf(ys, Net) <= SumOf(xs, Net)
  {
    if xs != [] {
      SumNoBetter(xs[..|xs| - 1], ys[..|ys| - 1]);
    }
  }

  /** The trades of `y` are those of `x`, none of them better off. */
  ghost predicate NoneBetter(x: seq<SimulatedTrade>, y: seq<SimulatedTrade>) {
    |x| == |y| && forall i | 0 <= i < |x| :: SameDecision(x[i], y[i]) && y[i].netPnl <= x[i].netPnl
  }

  lemma FillsNoBetter(rules: Rules, symbol: string, rows: seq<HistoricalBar>, a: BacktestConfig, b: BacktestConfig,
                      funding: seq<FundingPoint>)
    requires OnlyCostsDiffer(a, b) && NoCheaper(FrictionFraction(a), FrictionFraction(b), FeeRate(a), FeeRate(b))
    requires rows != [] && PositivePrices(rows) && a.notional > 0.0
    ensures
      var fills := AllFills(rules, symbol, rows);
      && AllPriceable(rows, a, fills) && AllPriceable(rows, b, fills)
      && NoneBetter(Priced(symbol, rows, a, funding, fills), Priced(symbol, rows, b, funding, fills))
  {
    AllFillsOk(rules, symbol, rows);
    AllExitsPositive(rules, symbol, rows);
    hide AllFills, TradeOf, FillPriceable, SameDecision, OnlyCostsDiffer, NoCheaper;
    var fills := AllFills(rules, symbol, rows);
    forall i | 0 <= i < |fills|
      ensures FillPriceable(rows, a, fills[i]) && FillPriceable(rows, b, fills[i])
      ensures SameDecision(TradeOf(symbol, rows, a, funding, fills[i]), TradeOf(symbol, rows, b, funding, fills[i]))
      ensures TradeOf(symbol, rows, b, funding, fills[i]).netPnl <= TradeOf(symbol, rows, a, funding, fills[i]).netPnl
    {
      assert FillOk(rules, |rows|, fills[i]);
      FillNoBetter(symbol, rows, a, b, funding, fills[i]);
    }
  }

  /** With positive prices, raising the costs changes no trade's bars, direction or reason, and leaves no
      trade and no total better off. */
  lemma CostsOnlyCost(rows: seq<HistoricalBar>, a: BacktestConfig, b: BacktestConfig, evaluate: SymbolState -> Signal,
                      funding: seq<FundingPoint>, window: Window)
    requires OnlyCostsDiffer(a, b) && NoCheaper(FrictionFraction(a), FrictionFraction(b), FeeRate(a), FeeRate(b))
    requires PositivePrices(rows)
    ensures
      var x, y := OutcomeOf(rows, a, evaluate, funding, window), OutcomeOf(rows, b, evaluate, funding, window);
      && (x.Raised? ==> x == y)
      && (x.Ran? ==>
            && y.Ran? && NoneBetter(x.result.trades, y.result.trades)
            && y.result.metrics.netPnl <= x.result.metrics.netPnl)
  {
    hide FillPriceable, SameDecision, Ordered, SumOf, CountOf, TrackAt, AllFills, DataFault, NoCheaper,
      FrictionFraction, AllPriceable;
    if a.maxHoldingBars >= 1 && a.notional > 0.0 && rows != [] {
      OrderedSize(rows);
      OrderedPositive(rows);
      var ordered := Ordered(rows);
      var symbol, rules := ordered[0].symbol, RulesOf(a, evaluate, window);
      FillsNoBetter(rules, symbol, ordered, a, b, funding);
      var fills := AllFills(rules, symbol, ordered);
      SumNoBetter(Priced(symbol, ordered, a, funding, fills), Priced(symbol, ordered, b, funding, fills));
    }
  }

  lemma OrderedPositive(rows: seq<HistoricalBar>)
    requires PositivePrices(rows)
    ensures PositivePrices(Ordered(rows))
  {
    var ordered := Ordered(rows);
    forall i | 0 <= i < |ordered| ensures ordered[i].open > 0.0 && ordered[i].low > 0.0 && ordered[i].close > 0.0 {
      assert ordered[i] in multiset(rows);
    }
  }
}
