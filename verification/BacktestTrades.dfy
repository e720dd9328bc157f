/** What the evaluator is shown, what a trade is worth, and when a run is refused, in the numbers of the inputs. */
module BacktestTrades {
  import opened Models
  import opened Market
  import opened Signals
  import opened History
  import opened Backtest
  import opened BacktestDecisions
  import opened BacktestProofs
  import opened BacktestRun
  import Prices = BacktestPrices
  import Sorting

  // ---- The evaluator's state ----

  /** After `k` bars the evaluator sees the last of them, at most 256, oldest first, and of bar `k - 1` its flow, its
      book with missing depths as zero, and its times. */
  lemma StateOnBars(rules: Rules, symbol: string, rows: seq<HistoricalBar>, k: nat)
    requires 0 < k <= |rows|
    ensures
      var s, r := TrackAt(rules, symbol, rows, k).state, rows[k - 1];
      && s.symbol == symbol
      && |s.bars| == (if k < 256 then k else 256)
      && (forall i | 0 <= i < |s.bars| ::
            var row := rows[k - |s.bars| + i];
            s.bars[i] == Bar(row.open, row.high, row.low, row.close, row.volume))
      && s.takerBuyQuote == r.takerBuyQuote
      && s.takerSellQuote == (if r.quoteVolume > r.takerBuyQuote then r.quoteVolume - r.takerBuyQuote else 0.0)
      && s.bestBid == r.bestBid && s.bestAsk == r.bestAsk
      && s.bidDepth == (if r.bidDepth.Some? then r.bidDepth.value else 0.0)
      && s.askDepth == (if r.askDepth.Some? then r.askDepth.value else 0.0)
      && s.flowBucketStartMs == Some(r.openTimeMs) && s.lastEventTimeMs == Some(r.closeTimeMs)
  {
    hide TrackAt, OnBar, Window256, PushBar, HistoricalBar.HasBook;
    StateIsHistory(rules, symbol, rows, k);
    LastBars(rows[..k]);
    Prices.NextBar(rules, symbol, rows, k - 1);
    StateStep(rules, rows[k - 1], k - 1, k == |rows|, TrackAt(rules, symbol, rows, k - 1));
  }

  lemma LastBars(rows: seq<HistoricalBar>)
    ensures
      var w := Window256(rows);
      && |w| == (if |rows| < 256 then |rows| else 256)
      && forall i | 0 <= i < |w| ::
           var row := rows[|rows| - |w| + i];
           w[i] == Bar(row.open, row.high, row.low, row.close, row.volume)
  {
    var all := seq(|rows|, i requires 0 <= i < |rows| => rows[i].AsBar());
    var w := Window256(rows);
    assert w == all[|rows| - |w|..];
    hide Window256;
    forall i | 0 <= i < |w| ensures w[i] == rows[|rows| - |w| + i].AsBar() {
      assert w[i] == all[|rows| - |w| + i];
    }
  }

  // ---- A trade's numbers ----

  /** The rates a position pays: those of its symbol stamped after its entry and not after its exit. */
  lemma FundingCounts(points: seq<FundingPoint>, p: FundingPoint, symbol: string, entryMs: int, exitMs: int)
    ensures FundingRate([], symbol, entryMs, exitMs) == 0.0
    ensures FundingRate(points + [p], symbol, entryMs, exitMs)
            == FundingRate(points, symbol, entryMs, exitMs)
               + (if p.symbol == symbol && entryMs < p.timestampMs && p.timestampMs <= exitMs then p.rate else 0.0)
  {
    assert (points + [p])[..|points|] == points;
  }

  /** A trade names its signal and its bars. */
  lemma TradeNames(symbol: string, rows: seq<HistoricalBar>, cfg: BacktestConfig, funding: seq<FundingPoint>, f: Fill)
    requires FillPriceable(rows, cfg, f)
    ensures
      var t, h := TradeOf(symbol, rows, cfg, funding, f), f.holding;
      && t.symbol == symbol && t.direction == h.signal.direction && t.setup == h.signal.setup
      && t.signalTimeMs == rows[h.signalIdx].closeTimeMs
      && t.entryTimeMs == rows[h.entryIdx].openTimeMs && t.exitTimeMs == rows[f.exitIdx].closeTimeMs
      && t.exitReason == f.reason && t.holdingBars == f.exitIdx - h.entryIdx + 1
  {
    hide EntryPrice, ExitPrice, PnlOf, FundingCost, FrictionFraction, FeeRate;
  }

  lemma TradeParts(symbol: string, rows: seq<HistoricalBar>, cfg: BacktestConfig, funding: seq<FundingPoint>, f: Fill)
    requires FillPriceable(rows, cfg, f)
    ensures
      var t, d := TradeOf(symbol, rows, cfg, funding, f), f.holding.signal.direction;
      && t.entryPrice == EntryPrice(rows[f.holding.entryIdx].open, d, FrictionFraction(cfg)) != 0.0
      && t.exitPrice == ExitPrice(f.exitBase, d, FrictionFraction(cfg))
      && Pnl(t.quantity, t.grossPnl, t.fees) == PnlOf(cfg.notional, d, t.entryPrice, t.exitPrice, FeeRate(cfg))
      && t.fundingCost == FundingCost(funding, symbol, d, t.entryTimeMs, t.exitTimeMs, cfg.notional)
      && t.netPnl == t.grossPnl - t.fees - t.fundingCost
  {
    hide EntryPrice, ExitPrice, PnlOf, FundingCost, FrictionFraction, FeeRate;
  }

  /** Its prices are its bars' prices made worse by half the spread and the slippage. */
  lemma TradePrices(symbol: string, rows: seq<HistoricalBar>, cfg: BacktestConfig, funding: seq<FundingPoint>, f: Fill)
    requires FillPriceable(rows, cfg, f)
    ensures
      var t, long := TradeOf(symbol, rows, cfg, funding, f), f.holding.signal.direction.LONG?;
      var open, friction := rows[f.holding.entryIdx].open, (cfg.assumedSpreadBps / 2.0 + cfg.slippageBps) / 10000.0;
      && t.entryPrice == (if long then open + open * friction else open - open * friction)
      && t.exitPrice == (if long then f.exitBase - f.exitBase * friction else f.exitBase + f.exitBase * friction)
  {
    hide TradeOf;
    TradeParts(symbol, rows, cfg, funding, f);
    EntryNumbers(rows[f.holding.entryIdx].open, f.holding.signal.direction, FrictionFraction(cfg));
    ExitNumbers(f.exitBase, f.holding.signal.direction, FrictionFraction(cfg));
    hide EntryPrice, ExitPrice, PnlOf, FundingCost;
  }

  /** Its quantity is the notional at its entry price, it pays the fee on what it paid and on what it got, and a long
      pays the funding that a short receives. */
  lemma TradeInNumbers(symbol: string, rows: seq<HistoricalBar>, cfg: BacktestConfig, funding: seq<FundingPoint>,
                       f: Fill)
    requires FillPriceable(rows, cfg, f)
    ensures
      var t, long := TradeOf(symbol, rows, cfg, funding, f), f.holding.signal.direction.LONG?;
      var paid, got := t.quantity * t.entryPrice, t.quantity * t.exitPrice;
      var rates := cfg.notional * FundingRate(funding, symbol, t.entryTimeMs, t.exitTimeMs);
      && paid == cfg.notional
      && t.grossPnl == (if long then got - paid else paid - got)
      && t.fees == cfg.takerFeeBps / 10000.0
                   * ((if paid < 0.0 then -paid else paid) + (if got < 0.0 then -got else got))
      && t.fundingCost == (if long then rates else -rates)
      && t.netPnl == t.grossPnl - t.fees - t.fundingCost
  {
    hide TradeOf, EntryPrice, ExitPrice, FundingRate, FrictionFraction;
    var t, d := TradeOf(symbol, rows, cfg, funding, f), f.holding.signal.direction;
    TradeParts(symbol, rows, cfg, funding, f);
    PnlNumbers(cfg.notional, d, t.entryPrice, t.exitPrice, cfg.takerFeeBps / 10000.0);
    FundingNumbers(funding, symbol, d, t.entryTimeMs, t.exitTimeMs, cfg.notional);
    hide PnlOf, FundingCost;
  }

  lemma EntryNumbers(open: real, d: Direction, friction: real)
    ensures EntryPrice(open, d, friction) == if d.LONG? then open + open * friction else open - open * friction
  {
  }

  lemma ExitNumbers(base: real, d: Direction, friction: real)
    ensures ExitPrice(base, d, friction) == if d.LONG? then base - base * friction else base + base * friction
  {
  }

  lemma PnlNumbers(notional: real, d: Direction, entryPrice: real, exitPrice: real, feeRate: real)
    requires entryPrice != 0.0
    ensures
      var p := PnlOf(notional, d, entryPrice, exitPrice, feeRate);
      var paid, got := p.quantity * entryPrice, p.quantity * exitPrice;
      && paid == notional
      && p.gross == (if d.LONG? then got - paid else paid - got)
      && p.fees == feeRate * ((if paid < 0.0 then -paid else paid) + (if got < 0.0 then -got else got))
  {
    var q := notional / entryPrice;
    Restored(notional, entryPrice);
    Difference(q, exitPrice, entryPrice);
    CommonRate(q * entryPrice, q * exitPrice, feeRate);
    OneSigned(q * (exitPrice - entryPrice));
  }

  lemma Restored(x: real, y: real)
    requires y != 0.0
    ensures x / y * y == x
  {
  }

  lemma Difference(q: real, a: real, b: real)
    ensures q * (a - b) == q * a - q * b
  {
  }

  lemma CommonRate(a: real, b: real, rate: real)
    ensures Abs(a) * rate + Abs(b) * rate
            == rate * ((if a < 0.0 then -a else a) + (if b < 0.0 then -b else b))
  {
    var x, y := Abs(a), Abs(b);
    assert x * rate + y * rate == rate * (x + y);
  }

  lemma OneSigned(x: real)
    ensures x * 1.0 == x && x * -1.0 == -x
  {
  }

  lemma FundingNumbers(points: seq<FundingPoint>, symbol: string, d: Direction, entryMs: int, exitMs: int,
                       notional: real)
    ensures
      var rates := notional * FundingRate(points, symbol, entryMs, exitMs);
      FundingCost(points, symbol, d, entryMs, exitMs, notional) == if d.LONG? then rates else -rates
  {
    hide FundingRate;
    var r := FundingRate(points, symbol, entryMs, exitMs);
    assert notional * 1.0 * r == notional * r && notional * -1.0 * r == -(notional * r);
  }

  // ---- Whole runs ----

  /** The rows are one symbol's, each opens before it closes, and each has a book if one is asked for. */
  ghost predicate Usable(rows: seq<HistoricalBar>, requireBook: bool) {
    && (forall a, b | a in rows && b in rows :: a.symbol == b.symbol)
    && (forall a | a in rows :: a.openTimeMs < a.closeTimeMs)
    && (requireBook ==> forall a | a in rows ::
          && a.bestBid.Some? && a.bestAsk.Some? && a.bidDepth.Some? && a.askDepth.Some?
          && a.bestBid.value > 0.0 && a.bestAsk.value >= a.bestBid.value
          && a.bidDepth.value >= 0.0 && a.askDepth.value >= 0.0)
  }

  /** No two rows open together. */
  ghost predicate OpensDiffer(rows: seq<HistoricalBar>) {
    forall i, j | 0 <= i < j < |rows| :: rows[i].openTimeMs != rows[j].openTimeMs
  }

  /** Nothing is bought or sold at a price of zero. */
  ghost predicate NoZeroEntry(rows: seq<HistoricalBar>, cfg: BacktestConfig, fills: seq<Fill>) {
    var friction := (cfg.assumedSpreadBps / 2.0 + cfg.slippageBps) / 10000.0;
    forall f | f in fills ::
      && f.holding.entryIdx < |rows|
      && var open := rows[f.holding.entryIdx].open;
      (if f.holding.signal.direction.LONG? then open + open * friction else open - open * friction) != 0.0
  }

  lemma SameMembersUsable(rows: seq<HistoricalBar>, others: seq<HistoricalBar>, requireBook: bool)
    requires forall a :: a in rows <==> a in others
    ensures Usable(rows, requireBook) <==> Usable(others, requireBook)
  {
  }

  lemma NoFaultMeans(rows: seq<HistoricalBar>, requireBook: bool)
    requires rows != []
    ensures DataFault(rows, requireBook).None? ==> Usable(rows, requireBook)
    ensures DataFault(rows, requireBook).None? ==>
              !exists i :: 0 < i < |rows| && rows[i].openTimeMs <= rows[i - 1].openTimeMs
  {
    if DataFault(rows, requireBook).None? {
      forall a | a in rows
        ensures a.symbol == rows[0].symbol && a.openTimeMs < a.closeTimeMs && (requireBook ==> a.HasBook())
      {
        var i :| 0 <= i < |rows| && rows[i] == a;
      }
    }
  }

  lemma UsableHasNoFault(rows: seq<HistoricalBar>, requireBook: bool)
    requires rows != [] && Usable(rows, requireBook)
    requires !exists i :: 0 < i < |rows| && rows[i].openTimeMs <= rows[i - 1].openTimeMs
    ensures DataFault(rows, requireBook).None?
  {
    assert forall i | 0 <= i < |rows| :: rows[i] in rows;
  }

  lemma UsableIff(rows: seq<HistoricalBar>, requireBook: bool)
    requires rows != []
    ensures Ordered(rows) != []
    ensures DataFault(Ordered(rows), requireBook).None? <==> Usable(rows, requireBook) && OpensDiffer(rows)
  {
    OrderedSize(rows);
    Sorting.SortedMembers(rows, OpenTime);
    Sorting.SortDistinct(rows, 0, OpenTime);
    Sorting.SortAscending(rows, OpenTime);
    assert Ordered(rows) == Sorting.SortBy(rows, OpenTime);
    hide Ordered, Sorting.DistinctKeys, DataFault, Usable, OpensDiffer;
    StrictIff(Ordered(rows));
    DistinctOpens(rows);
    SameMembersUsable(rows, Ordered(rows), requireBook);
    NoFaultMeans(Ordered(rows), requireBook);
    if Usable(rows, requireBook) && OpensDiffer(rows) {
      UsableHasNoFault(Ordered(rows), requireBook);
    }
  }

  lemma DistinctOpens(rows: seq<HistoricalBar>)
    ensures Sorting.DistinctKeys(rows, OpenTime) <==> OpensDiffer(rows)
  {
    if Sorting.DistinctKeys(rows, OpenTime) {
      forall i, j | 0 <= i < j < |rows| ensures rows[i].openTimeMs != rows[j].openTimeMs {
        assert OpenTime(rows[i]) != OpenTime(rows[j]);
      }
    }
  }

  /** In ordered rows times that repeat repeat next to each other. */
  lemma StrictIff(rows: seq<HistoricalBar>)
    requires Sorting.Ascending(rows, OpenTime)
    ensures Sorting.DistinctKeys(rows, OpenTime) <==>
              !exists i :: 0 < i < |rows| && rows[i].openTimeMs <= rows[i - 1].openTimeMs
  {
    if i :| 0 < i < |rows| && rows[i].openTimeMs <= rows[i - 1].openTimeMs {
      assert OpenTime(rows[i - 1]) <= OpenTime(rows[i]);
      assert OpenTime(rows[i - 1]) == OpenTime(rows[i]);
    } else {
      forall i, j | 0 <= i < j < |rows| ensures OpenTime(rows[i]) != OpenTime(rows[j]) {
        assert OpenTime(rows[i]) <= OpenTime(rows[j - 1]) && rows[j - 1].openTimeMs < rows[j].openTimeMs;
      }
    }
  }

  lemma PriceableIff(rows: seq<HistoricalBar>, cfg: BacktestConfig, fills: seq<Fill>, rules: Rules)
    requires forall i | 0 <= i < |fills| :: FillOk(rules, |rows|, fills[i])
    ensures AllPriceable(rows, cfg, fills) <==> NoZeroEntry(rows, cfg, fills)
  {
    var friction := FrictionFraction(cfg);
    assert friction == (cfg.assumedSpreadBps / 2.0 + cfg.slippageBps) / 10000.0;
    hide FrictionFraction;
    forall i | 0 <= i < |fills|
      ensures FillPriceable(rows, cfg, fills[i]) <==>
                var open := rows[fills[i].holding.entryIdx].open;
                (if fills[i].holding.signal.direction.LONG? then open + open * friction
                 else open - open * friction) != 0.0
    {
      assert FillOk(rules, |rows|, fills[i]);
      EntryNumbers(rows[fills[i].holding.entryIdx].open, fills[i].holding.signal.direction, friction);
      hide EntryPrice;
    }
    hide FillPriceable;
    if NoZeroEntry(rows, cfg, fills) {
      forall i | 0 <= i < |fills| ensures FillPriceable(rows, cfg, fills[i]) {
        assert fills[i] in fills;
      }
    }
  }

  /** A run is refused exactly for bad settings, for rows of mixed symbols, for rows that do not open before they close
      or that open together, for a missing book, or for an entry at a price of zero. */
  lemma RunsIff(rows: seq<HistoricalBar>, cfg: BacktestConfig, evaluate: SymbolState -> Signal,
                funding: seq<FundingPoint>, window: Window)
    ensures
      OutcomeOf(rows, cfg, evaluate, funding, window).Ran? <==>
        && cfg.maxHoldingBars >= 1 && cfg.notional > 0.0
        && (rows == []
            || (Usable(rows, cfg.requireBook) && OpensDiffer(rows)
                && |Ordered(rows)| == |rows|
                && NoZeroEntry(Ordered(rows), cfg,
                               AllFills(RulesOf(cfg, evaluate, window), rows[0].symbol, Ordered(rows)))))
  {
    if rows != [] {
      UsableIff(rows, cfg.requireBook);
      OrderedSize(rows);
      var rules, os := RulesOf(cfg, evaluate, window), Ordered(rows);
      if Usable(rows, cfg.requireBook) {
        Sorting.SortedMembers(rows, OpenTime);
        assert os[0] in os && rows[0] in rows;
        AllFillsOk(rules, rows[0].symbol, os);
        PriceableIff(os, cfg, AllFills(rules, rows[0].symbol, os), rules);
      }
      hide Ordered, AllFills, AllPriceable, NoZeroEntry, Priced, DataFault, Usable, OpensDiffer, TrackAt, RulesOf;
    }
  }

  /** A run's trades are, in order, the priced positions of its ordered bars, entered and left as the bars ask. */
  lemma RunTrades(rows: seq<HistoricalBar>, cfg: BacktestConfig, evaluate: SymbolState -> Signal,
                  funding: seq<FundingPoint>, window: Window)
    requires rows != [] && OutcomeOf(rows, cfg, evaluate, funding, window).Ran?
    ensures
      var r, os := OutcomeOf(rows, cfg, evaluate, funding, window).result, Ordered(rows);
      var rules := Rules(cfg.maxHoldingBars, window, evaluate);
      && os != [] && r.symbol == rows[0].symbol
      && var fills := AllFills(rules, r.symbol, os);
      && |r.trades| == |fills|
      && forall i | 0 <= i < |fills| ::
           && Prices.EnteredAt(rules, os, fills[i].holding) && Prices.LeftAt(rules, os, fills[i])
           && FillPriceable(os, cfg, fills[i]) && r.trades[i] == TradeOf(r.symbol, os, cfg, funding, fills[i])
  {
    var rules, os := Rules(cfg.maxHoldingBars, window, evaluate), Ordered(rows);
    OrderedSize(rows);
    UsableIff(rows, cfg.requireBook);
    Sorting.SortedMembers(rows, OpenTime);
    assert os[0] in os && rows[0] in rows;
    Prices.TradesOnPrices(rules, rows[0].symbol, os);
    hide Ordered, AllFills, TradeOf, FillPriceable, Prices.EnteredAt, Prices.LeftAt, DataFault, TrackAt, OpensDiffer;
  }

  /** A signal is counted as skipped exactly when it could have been taken but for the open of its bar. */
  lemma SkipsCount(rules: Rules, symbol: string, rows: seq<HistoricalBar>, k: nat)
    requires 0 < k < |rows|
    ensures TrackAt(rules, symbol, rows, 1).skipped == 0
    ensures
      var t := TrackAt(rules, symbol, rows, k);
      var s := rules.evaluate(t.state);
      TrackAt(rules, symbol, rows, k + 1).skipped - t.skipped ==
        if t.position.None? && !s.direction.PASS? && Prices.OpensWithin(rules.window, rows[k])
           && !Prices.OpensClear(s, rows[k])
        then 1 else 0
  {
    Prices.TracksAreReady(rules, symbol, rows, k);
    Prices.NextBar(rules, symbol, rows, k);
    Prices.NextBar(rules, symbol, rows, 0);
    assert TrackAt(rules, symbol, rows, 0) == Start(symbol);
    hide TrackAt, Observe, StopHit;
  }
}
