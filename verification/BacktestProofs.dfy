/** No look-ahead, disjoint trades, and balancing results. */
module BacktestProofs {
  import opened Market
  import opened Signals
  import opened History
  import opened Backtest
  import opened Metrics
  import opened BacktestRun
  import Sorting

  // ---- No look-ahead ----

  /** The two tracks differ at most in whether a signal waits for a bar that the shorter run does not have. */
  predicate SameButPending(t: Track, u: Track) {
    t == u.(pending := t.pending)
  }

  lemma {:induction false} TrackIgnoresLater(rules: Rules, symbol: string, rows: seq<HistoricalBar>,
                                             later: seq<HistoricalBar>, k: nat)
    requires k <= |rows| && later != []
    ensures k < |rows| ==> TrackAt(rules, symbol, rows, k) == TrackAt(rules, symbol, rows + later, k)
    ensures SameButPending(TrackAt(rules, symbol, rows, k), TrackAt(rules, symbol, rows + later, k))
  {
    hide Enter, Exit, Observe;
    if k > 0 {
      TrackIgnoresLater(rules, symbol, rows, later, k - 1);
      assert (rows + later)[k - 1] == rows[k - 1];
    }
  }

  /** Closed fills of a prefix of the data are a prefix of the fills of all of it. */
  lemma FillsIgnoreLater(rules: Rules, symbol: string, rows: seq<HistoricalBar>, later: seq<HistoricalBar>)
    requires rows != []
    ensures ClosedFills(rules, symbol, rows) <= AllFills(rules, symbol, rows + later)
  {
    hide TrackAt;
    if later == [] {
      assert rows + later == rows;
    } else {
      TrackIgnoresLater(rules, symbol, rows, later, |rows|);
      FillsGrow(rules, symbol, rows + later, |rows|, |rows + later|);
    }
  }

  /** The trades a run closed by its rules, without a forced close at the end of the data. */
  function RuleTrades(ts: seq<SimulatedTrade>): seq<SimulatedTrade> {
    if ts != [] && ts[|ts| - 1].exitReason.DATA_END? then ts[..|ts| - 1] else ts
  }

  lemma TradeIgnoresLater(symbol: string, rows: seq<HistoricalBar>, later: seq<HistoricalBar>, cfg: BacktestConfig,
                          funding: seq<FundingPoint>, f: Fill)
    requires FillPriceable(rows, cfg, f)
    ensures FillPriceable(rows + later, cfg, f)
    ensures TradeOf(symbol, rows + later, cfg, funding, f) == TradeOf(symbol, rows, cfg, funding, f)
  {
    var all := rows + later;
    assert all[f.holding.entryIdx] == rows[f.holding.entryIdx] && all[f.exitIdx] == rows[f.exitIdx];
    assert all[f.holding.signalIdx] == rows[f.holding.signalIdx];
    hide PnlOf, FundingCost, EntryPrice, ExitPrice, FrictionFraction;
  }

  /** Every later bar opens after every earlier one. */
  ghost predicate OpensAfter(rows: seq<HistoricalBar>, later: seq<HistoricalBar>) {
    forall r, l | r in rows && l in later :: r.openTimeMs < l.openTimeMs
  }

  lemma OrderedAppends(rows: seq<HistoricalBar>, later: seq<HistoricalBar>)
    requires OpensAfter(rows, later)
    ensures Ordered(rows + later) == Ordered(rows) + Ordered(later)
  {
    assert Sorting.Below(rows, later, OpenTime);
    Sorting.SortAppends(rows, later, OpenTime);
  }

  ghost predicate NeverForced(fills: seq<Fill>) {
    forall i | 0 <= i < |fills| :: !fills[i].reason.DATA_END?
  }

  lemma BarNeverForces(rules: Rules, row: HistoricalBar, idx: nat, last: bool, t: Track)
    requires NeverForced(t.fills)
    ensures NeverForced(OnBar(rules, row, idx, last, t).fills)
  {
    hide Observe, StopHit, InvalidBeforeEntry, InWindow;
  }

  lemma {:induction false} RulesNeverForce(rules: Rules, symbol: string, rows: seq<HistoricalBar>, k: nat)
    requires k <= |rows|
    ensures NeverForced(TrackAt(rules, symbol, rows, k).fills)
  {
    hide OnBar;
    if k > 0 {
      RulesNeverForce(rules, symbol, rows, k - 1);
      BarNeverForces(rules, rows[k - 1], k - 1, k == |rows|, TrackAt(rules, symbol, rows, k - 1));
    }
  }

  /** The trades of the rules are the priced fills of the rules. */
  lemma RuleTradesArePriced(rules: Rules, symbol: string, rows: seq<HistoricalBar>, cfg: BacktestConfig,
                            funding: seq<FundingPoint>)
    requires rows != [] && AllPriceable(rows, cfg, AllFills(rules, symbol, rows))
    ensures AllPriceable(rows, cfg, ClosedFills(rules, symbol, rows))
    ensures RuleTrades(Priced(symbol, rows, cfg, funding, AllFills(rules, symbol, rows)))
         == Priced(symbol, rows, cfg, funding, ClosedFills(rules, symbol, rows))
  {
    RulesNeverForce(rules, symbol, rows, |rows|);
    hide TrackAt, FillPriceable, Priceable;
    var closed, all := ClosedFills(rules, symbol, rows), AllFills(rules, symbol, rows);
    assert closed <= all;
    forall i | 0 <= i < |closed| ensures FillPriceable(rows, cfg, closed[i]) {
      assert closed[i] == all[i];
    }
    var ts := Priced(symbol, rows, cfg, funding, all);
    if all != closed {
      assert all[..|all| - 1] == closed;
      assert ts[|ts| - 1].exitReason.DATA_END?;
    } else if ts != [] {
      assert ts[|ts| - 1].exitReason == all[|all| - 1].reason;
    }
  }

  lemma {:induction false} PricedPrefix(symbol: string, rows: seq<HistoricalBar>, later: seq<HistoricalBar>,
                                        cfg: BacktestConfig, funding: seq<FundingPoint>, fills: seq<Fill>,
                                        more: seq<Fill>)
    requires AllPriceable(rows, cfg, fills) && fills <= more && AllPriceable(rows + later, cfg, more)
    ensures Priced(symbol, rows, cfg, funding, fills) <= Priced(symbol, rows + later, cfg, funding, more)
  {
    hide TradeOf, Priced;
    var a, b := Priced(symbol, rows, cfg, funding, fills), Priced(symbol, rows + later, cfg, funding, more);
    forall i | 0 <= i < |fills| ensures a[i] == b[i] {
      assert FillPriceable(rows, cfg, fills[i]) && fills[i] == more[i];
      TradeIgnoresLater(symbol, rows, later, cfg, funding, fills[i]);
    }
  }

  /** Whatever bars come later, the trades the rules closed on the earlier ones stand: same trades, same prices. */
  lemma NoLookAhead(rows: seq<HistoricalBar>, later: seq<HistoricalBar>, cfg: BacktestConfig,
                    evaluate: SymbolState -> Signal, funding: seq<FundingPoint>, window: Window)
    requires OpensAfter(rows, later)
    ensures
      var x := OutcomeOf(rows, cfg, evaluate, funding, window);
      var y := OutcomeOf(rows + later, cfg, evaluate, funding, window);
      x.Ran? && y.Ran? ==> RuleTrades(x.result.trades) <= y.result.trades
  {
    if rows != [] && OutcomeOf(rows, cfg, evaluate, funding, window).Ran?
      && OutcomeOf(rows + later, cfg, evaluate, funding, window).Ran? {
      hide TrackAt, AllPriceable, Priced, DataFault, MetricsOf;
      OrderedAppends(rows, later);
      hide Ordered;
      var a, b, rules := Ordered(rows), Ordered(later), RulesOf(cfg, evaluate, window);
      OrderedSize(rows);
      var symbol := a[0].symbol;
      assert (a + b)[0].symbol == symbol;
      RuleTradesArePriced(rules, symbol, a, cfg, funding);
      FillsIgnoreLater(rules, symbol, a, b);
      PricedPrefix(symbol, a, b, cfg, funding, ClosedFills(rules, symbol, a), AllFills(rules, symbol, a + b));
    } else {
      hide TrackAt, AllPriceable, Priced, DataFault, MetricsOf, Ordered;
    }
  }

  // ---- Structure ----

  function Held(f: Fill): int {
    f.exitIdx - f.holding.entryIdx + 1
  }

  function TotalHeld(fills: seq<Fill>): int {
    if fills == [] then 0 else TotalHeld(fills[..|fills| - 1]) + Held(fills[|fills| - 1])
  }

  lemma AllFillsOk(rules: Rules, symbol: string, rows: seq<HistoricalBar>)
    requires rows != []
    ensures forall i | 0 <= i < |AllFills(rules, symbol, rows)| ::
              FillOk(rules, |rows|, AllFills(rules, symbol, rows)[i])
    ensures Disjoint(AllFills(rules, symbol, rows))
  {
    TrackAtTracked(rules, symbol, rows, |rows|);
    hide TrackAt;
  }

  lemma {:induction false} HeldBars(rules: Rules, n: nat, fills: seq<Fill>)
    requires forall i | 0 <= i < |fills| :: FillOk(rules, n, fills[i])
    requires Disjoint(fills)
    ensures fills == [] ==> TotalHeld(fills) == 0
    ensures fills != [] ==> TotalHeld(fills) <= fills[|fills| - 1].exitIdx
  {
    if |fills| > 1 {
      var front := fills[..|fills| - 1];
      assert forall i | 0 <= i < |front| :: front[i] == fills[i];
      HeldBars(rules, n, front);
      assert FillOk(rules, n, fills[|fills| - 1]) && FillOk(rules, n, fills[|fills| - 2]);
      assert fills[|fills| - 2].exitIdx < fills[|fills| - 1].holding.entryIdx;
    } else if |fills| == 1 {
      assert FillOk(rules, n, fills[0]);
      assert fills[..0] == [];
    }
  }

  /** Trades never overlap, each is entered on the bar right after its signal's and held for one to the
      allowed number of bars, and together they hold at most all bars but the first. */
  lemma TradesAreDisjoint(rules: Rules, symbol: string, rows: seq<HistoricalBar>)
    requires rows != []
    ensures
      var fills := AllFills(rules, symbol, rows);
      && (forall i | 0 <= i < |fills| ::
            && fills[i].holding.signalIdx + 1 == fills[i].holding.entryIdx <= fills[i].exitIdx < |rows|
            && 1 <= Held(fills[i]) <= MaxHold(rules))
      && Disjoint(fills)
      && TotalHeld(fills) <= |rows| - 1
  {
    hide AllFills;
    AllFillsOk(rules, symbol, rows);
    HeldBars(rules, |rows|, AllFills(rules, symbol, rows));
    var fills := AllFills(rules, symbol, rows);
    forall i | 0 <= i < |fills|
      ensures fills[i].holding.signalIdx + 1 == fills[i].holding.entryIdx <= fills[i].exitIdx < |rows|
              && 1 <= Held(fills[i]) <= MaxHold(rules)
    {
      assert FillOk(rules, |rows|, fills[i]);
    }
  }

  /** The reported totals agree with each other and with the trades. */
  lemma ResultBalances(rows: seq<HistoricalBar>, cfg: BacktestConfig, evaluate: SymbolState -> Signal,
                       funding: seq<FundingPoint>, window: Window)
    ensures
      var o := OutcomeOf(rows, cfg, evaluate, funding, window);
      o.Ran? ==>
        var r := o.result;
        && r.metrics.netPnl == r.metrics.grossPnl - r.metrics.fees - r.metrics.fundingCost
        && r.metrics.wins + r.metrics.losses <= r.metrics.trades == |r.trades|
        && LargestDrop(cfg.startingEquity, r.trades, |r.trades|, r.metrics.maxDrawdownPct)
  {
    hide TrackAt, AllFills, DataFault, Ordered, SumOf, CountOf, MaxDrop, LargestDrop, Turnover;
    if OutcomeOf(rows, cfg, evaluate, funding, window).Ran? {
      var r := OutcomeOf(rows, cfg, evaluate, funding, window).result;
      forall t | t in r.trades ensures t.netPnl == t.grossPnl - t.fees - t.fundingCost {
      }
      NetIsGrossLessCosts(r.trades);
      MaxDropIsLargest(cfg.startingEquity, r.trades, |r.trades|);
    }
  }
}
