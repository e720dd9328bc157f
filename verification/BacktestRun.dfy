/** One backtest over unsorted rows, and the loop that runs it. */
module BacktestRun {
  import opened Models
  import opened Market
  import opened Signals
  import opened History
  import opened Backtest
  import opened Metrics
  import Sorting

  datatype BacktestFault = InvalidConfig | MixedSymbols | BadBarTimes | NotIncreasing | MissingBook | ZeroEntryPrice

  datatype BacktestResult = BacktestResult(symbol: string, trades: seq<SimulatedTrade>, metrics: BacktestMetrics,
                                           skipped: nat)

  datatype Outcome = Ran(result: BacktestResult) | Raised(fault: BacktestFault)

  function Ordered(rows: seq<HistoricalBar>): seq<HistoricalBar> {
    Sorting.SortBy(rows, OpenTime)
  }

  /** The first data fault of ordered, non-empty rows. */
  function DataFault(rows: seq<HistoricalBar>, requireBook: bool): Option<BacktestFault>
    requires rows != []
  {
    if exists i :: 0 <= i < |rows| && rows[i].symbol != rows[0].symbol then Some(MixedSymbols)
    else if exists i :: 0 <= i < |rows| && rows[i].openTimeMs >= rows[i].closeTimeMs then Some(BadBarTimes)
    else if exists i :: 0 < i < |rows| && rows[i].openTimeMs <= rows[i - 1].openTimeMs then Some(NotIncreasing)
    else if requireBook && exists i :: 0 <= i < |rows| && !rows[i].HasBook() then Some(MissingBook)
    else None
  }

  function RulesOf(cfg: BacktestConfig, evaluate: SymbolState -> Signal, window: Window): Rules {
    Rules(cfg.maxHoldingBars, window, evaluate)
  }

  predicate FillPriceable(rows: seq<HistoricalBar>, cfg: BacktestConfig, f: Fill) {
    Priceable(f.holding, rows, cfg) && f.exitIdx < |rows| && f.holding.signalIdx < |rows|
  }

  predicate AllPriceable(rows: seq<HistoricalBar>, cfg: BacktestConfig, fills: seq<Fill>) {
    forall i | 0 <= i < |fills| :: FillPriceable(rows, cfg, fills[i])
  }

  /** The fills as trades, in order. */
  function Priced(symbol: string, rows: seq<HistoricalBar>, cfg: BacktestConfig, funding: seq<FundingPoint>,
                  fills: seq<Fill>): (ts: seq<SimulatedTrade>)
    requires AllPriceable(rows, cfg, fills)
    ensures |ts| == |fills|
    ensures forall i | 0 <= i < |ts| ::
              FillPriceable(rows, cfg, fills[i]) && ts[i] == TradeOf(symbol, rows, cfg, funding, fills[i])
  {
    if fills == [] then []
    else
      assert forall i | 0 <= i < |fills| - 1 :: fills[..|fills| - 1][i] == fills[i];
      Priced(symbol, rows, cfg, funding, fills[..|fills| - 1])
        + [TradeOf(symbol, rows, cfg, funding, fills[|fills| - 1])]
  }

  function OutcomeOf(rows: seq<HistoricalBar>, cfg: BacktestConfig, evaluate: SymbolState -> Signal,
                     funding: seq<FundingPoint>, window: Window): Outcome {
    if cfg.maxHoldingBars < 1 || cfg.notional <= 0.0 then Raised(InvalidConfig)
    else if rows == [] then Ran(BacktestResult("", [], MetricsOf([], cfg.startingEquity), 0))
    else
      var ordered := Ordered(rows);
      if DataFault(ordered, cfg.requireBook).Some? then Raised(DataFault(ordered, cfg.requireBook).value)
      else
        var symbol, rules := ordered[0].symbol, RulesOf(cfg, evaluate, window);
        var fills := AllFills(rules, symbol, ordered);
        if !AllPriceable(ordered, cfg, fills) then Raised(ZeroEntryPrice)
        else
          var trades := Priced(symbol, ordered, cfg, funding, fills);
          Ran(BacktestResult(symbol, trades, MetricsOf(trades, cfg.startingEquity),
                             TrackAt(rules, symbol, ordered, |ordered|).skipped))
  }

  /** Fills are only ever added, and an open position either stays or becomes the next fill. */
  ghost predicate Survives(t: Track, u: Track) {
    && t.fills <= u.fills
    && (t.position.Some? ==>
          || (u.position == t.position && u.fills == t.fills)
          || (|t.fills| < |u.fills| && u.fills[|t.fills|].holding == t.position.value))
  }

  lemma BarSurvives(rules: Rules, row: HistoricalBar, idx: nat, last: bool, t: Track)
    ensures Survives(t, OnBar(rules, row, idx, last, t))
  {
    hide Observe, StopHit, InvalidBeforeEntry, InWindow, ExitOf;
  }

  lemma SurvivesChains(t: Track, u: Track, w: Track)
    requires Survives(t, u) && Survives(u, w)
    ensures Survives(t, w)
  {
  }

  lemma {:induction false} FillsGrow(rules: Rules, symbol: string, rows: seq<HistoricalBar>, j: nat, k: nat)
    requires j <= k <= |rows|
    ensures Survives(TrackAt(rules, symbol, rows, j), TrackAt(rules, symbol, rows, k))
  {
    hide OnBar;
    if j < k {
      FillsGrow(rules, symbol, rows, j, k - 1);
      BarSurvives(rules, rows[k - 1], k - 1, k == |rows|, TrackAt(rules, symbol, rows, k - 1));
      SurvivesChains(TrackAt(rules, symbol, rows, j), TrackAt(rules, symbol, rows, k - 1),
                     TrackAt(rules, symbol, rows, k));
    }
  }

  /** So a position whose entry price is zero shows up among the fills whatever happens later. */
  lemma ZeroEntryIsSeen(rules: Rules, symbol: string, rows: seq<HistoricalBar>, cfg: BacktestConfig, k: nat)
    requires k <= |rows| && rows != [] && TrackAt(rules, symbol, rows, k).position.Some?
    requires !Priceable(TrackAt(rules, symbol, rows, k).position.value, rows, cfg)
    ensures !AllPriceable(rows, cfg, AllFills(rules, symbol, rows))
  {
    hide TrackAt, Priceable;
    FillsGrow(rules, symbol, rows, k, |rows|);
    var h := TrackAt(rules, symbol, rows, k).position.value;
    var fills := AllFills(rules, symbol, rows);
    var at := |TrackAt(rules, symbol, rows, k).fills|;
    if TrackAt(rules, symbol, rows, |rows|).position == TrackAt(rules, symbol, rows, k).position {
      assert fills[|fills| - 1].holding == h;
      assert !FillPriceable(rows, cfg, fills[|fills| - 1]);
    } else {
      assert fills[at].holding == h;
      assert !FillPriceable(rows, cfg, fills[at]);
    }
  }

  lemma PastFillIsSeen(rules: Rules, symbol: string, rows: seq<HistoricalBar>, cfg: BacktestConfig, k: nat, i: nat)
    requires k <= |rows| && rows != [] && i < |TrackAt(rules, symbol, rows, k).fills|
    requires !Priceable(TrackAt(rules, symbol, rows, k).fills[i].holding, rows, cfg)
    ensures !AllPriceable(rows, cfg, AllFills(rules, symbol, rows))
  {
    hide TrackAt, Priceable;
    FillsGrow(rules, symbol, rows, k, |rows|);
    var fills := AllFills(rules, symbol, rows);
    assert fills[i] == TrackAt(rules, symbol, rows, k).fills[i];
    assert !FillPriceable(rows, cfg, fills[i]);
  }

  lemma PricedSnoc(symbol: string, rows: seq<HistoricalBar>, cfg: BacktestConfig, funding: seq<FundingPoint>,
                   fills: seq<Fill>, f: Fill)
    requires AllPriceable(rows, cfg, fills) && FillPriceable(rows, cfg, f)
    ensures AllPriceable(rows, cfg, fills + [f])
    ensures Priced(symbol, rows, cfg, funding, fills + [f])
            == Priced(symbol, rows, cfg, funding, fills) + [TradeOf(symbol, rows, cfg, funding, f)]
  {
    assert (fills + [f])[..|fills|] == fills;
    forall i | 0 <= i < |fills + [f]| ensures FillPriceable(rows, cfg, (fills + [f])[i]) {
    }
  }

  method RunBacktest(rows: seq<HistoricalBar>, cfg: BacktestConfig, evaluate: SymbolState -> Signal,
                     funding: seq<FundingPoint>, window: Window)
    returns (outcome: Outcome)
    ensures outcome == OutcomeOf(rows, cfg, evaluate, funding, window)
  {
    hide AllFills, TrackAt, Ordered, DataFault, MetricsOf;
    if cfg.maxHoldingBars < 1 || cfg.notional <= 0.0 { return Raised(InvalidConfig); }
    if rows == [] {
      var none := MetricsFromTrades([], cfg.startingEquity);
      return Ran(BacktestResult("", [], none, 0));
    }
    var ordered := Ordered(rows);
    assert ordered != [] by { OrderedSize(rows); }
    var fault := DataFault(ordered, cfg.requireBook);
    if fault.Some? { return Raised(fault.value); }
    var trades, skipped, ok := Simulate(ordered, cfg, evaluate, funding, window);
    if !ok { return Raised(ZeroEntryPrice); }
    var metrics := MetricsFromTrades(trades, cfg.startingEquity);
    outcome := Ran(BacktestResult(ordered[0].symbol, trades, metrics, skipped));
  }

  lemma OrderedSize(rows: seq<HistoricalBar>)
    ensures |Ordered(rows)| == |rows|
  {
  }

  /** The loop over completed bars, with the open trade and the waiting signal as its state. */
  method Simulate(rows: seq<HistoricalBar>, cfg: BacktestConfig, evaluate: SymbolState -> Signal,
                  funding: seq<FundingPoint>, window: Window)
    returns (trades: seq<SimulatedTrade>, skipped: nat, ok: bool)
    requires rows != []
    ensures
      var rules, symbol := RulesOf(cfg, evaluate, window), rows[0].symbol;
      && (ok <==> AllPriceable(rows, cfg, AllFills(rules, symbol, rows)))
      && (ok ==> trades == Priced(symbol, rows, cfg, funding, AllFills(rules, symbol, rows))
                 && skipped == TrackAt(rules, symbol, rows, |rows|).skipped)
  {
    hide TradeOf, ExitOf, Observe, InvalidBeforeEntry, InWindow, AllPriceable, Priced, EntryPrice, FrictionFraction,
      Tracked, TrackAt;
    var rules, symbol := RulesOf(cfg, evaluate, window), rows[0].symbol;
    var state := NewSymbolState(symbol);
    var pending: Option<Pending> := None;
    var position: Option<Holding> := None;
    ghost var fills: seq<Fill> := [];
    trades, skipped := [], 0;
    NothingPriced(symbol, rows, cfg, funding);
    StartTracked(rules, symbol);
    TrackStarts(rules, symbol, rows);
    for idx := 0 to |rows|
      invariant TrackAt(rules, symbol, rows, idx) == Track(state, pending, position, fills, skipped)
      invariant Tracked(rules, idx, Track(state, pending, position, fills, skipped))
      invariant AllPriceable(rows, cfg, fills) && trades == Priced(symbol, rows, cfg, funding, fills)
      invariant position.Some? ==> Priceable(position.value, rows, cfg)
    {
      var row := rows[idx];
      ghost var before := Track(state, pending, position, fills, skipped);
      OnBarTracked(rules, row, idx, idx + 1 == |rows|, before);
      NextTrack(rules, symbol, rows, idx);
      EnteredInside(rules, row, idx, before);
      if position.None? && pending.Some? {
        var p := pending.value;
        pending := None;
        if InWindow(window, row.openTimeMs) {
          if InvalidBeforeEntry(row, p.signal) {
            skipped := skipped + 1;
          } else {
            position := Some(Holding(p.signal, p.signalIdx, idx));
          }
        }
      }
      assert Enter(rules, row, idx, before) == Track(state, pending, position, fills, skipped);
      if position.Some? && EntryPrice(rows[position.value.entryIdx].open, position.value.signal.direction,
                                      FrictionFraction(cfg)) == 0.0 {
        ok := false;
        EnteredZero(rules, symbol, rows, cfg, idx, before);
        return;
      }
      if position.Some? {
        var exit := ExitOf(rules, row, idx, position.value);
        if exit.Some? {
          var f := Fill(position.value, idx, exit.value.1, exit.value.0);
          trades := trades + [TradeOf(symbol, rows, cfg, funding, f)];
          PricedSnoc(symbol, rows, cfg, funding, fills, f);
          fills := fills + [f];
          position := None;
        }
      }
      assert Exit(rules, row, idx, Enter(rules, row, idx, before)) == Track(state, pending, position, fills, skipped);
      state := Observe(state, row);
      var signal := evaluate(state);
      if position.None? && pending.None? && !signal.direction.PASS? && idx + 1 < |rows| {
        pending := Some(Pending(signal, idx));
      }
    }
    ok := true;
    HeldInside(rules, |rows|, Track(state, pending, position, fills, skipped));
    if position.Some? {
      var f := Fill(position.value, |rows| - 1, rows[|rows| - 1].close, DATA_END);
      trades := trades + [TradeOf(symbol, rows, cfg, funding, f)];
      PricedSnoc(symbol, rows, cfg, funding, fills, f);
    }
  }

  lemma TrackStarts(rules: Rules, symbol: string, rows: seq<HistoricalBar>)
    ensures TrackAt(rules, symbol, rows, 0) == Start(symbol)
  {
  }

  lemma StartTracked(rules: Rules, symbol: string)
    ensures Tracked(rules, 0, Start(symbol))
  {
  }

  lemma EnteredInside(rules: Rules, row: HistoricalBar, idx: nat, t: Track)
    requires Tracked(rules, idx, t)
    ensures var u := Enter(rules, row, idx, t);
            u.position.Some? ==> u.position.value.signalIdx < u.position.value.entryIdx <= idx
  {
  }

  lemma HeldInside(rules: Rules, k: nat, t: Track)
    requires Tracked(rules, k, t)
    ensures t.position.Some? ==> t.position.value.signalIdx < t.position.value.entryIdx < k
  {
  }

  lemma NothingPriced(symbol: string, rows: seq<HistoricalBar>, cfg: BacktestConfig, funding: seq<FundingPoint>)
    ensures AllPriceable(rows, cfg, []) && Priced(symbol, rows, cfg, funding, []) == []
  {
  }

  lemma EnteredSurvives(rules: Rules, row: HistoricalBar, idx: nat, last: bool, t: Track)
    ensures Enter(rules, row, idx, t).fills == t.fills
    ensures Survives(Enter(rules, row, idx, t), OnBar(rules, row, idx, last, t))
  {
    hide Observe, InvalidBeforeEntry, InWindow, ExitOf;
  }

  lemma NextTrack(rules: Rules, symbol: string, rows: seq<HistoricalBar>, idx: nat)
    requires idx < |rows|
    ensures
      var row, t := rows[idx], TrackAt(rules, symbol, rows, idx);
      TrackAt(rules, symbol, rows, idx + 1)
        == Backtest.Evaluate(rules, row, idx, idx + 1 == |rows|, Exit(rules, row, idx, Enter(rules, row, idx, t)))
  {
    hide Backtest.Evaluate, Exit, Enter;
  }

  /** The same for a position that is entered on the bar at hand and may close on it. */
  lemma EnteredZero(rules: Rules, symbol: string, rows: seq<HistoricalBar>, cfg: BacktestConfig, idx: nat, t: Track)
    requires idx < |rows| && t == TrackAt(rules, symbol, rows, idx)
    requires Enter(rules, rows[idx], idx, t).position.Some?
    requires !Priceable(Enter(rules, rows[idx], idx, t).position.value, rows, cfg)
    ensures !AllPriceable(rows, cfg, AllFills(rules, symbol, rows))
  {
    EnteredSurvives(rules, rows[idx], idx, idx + 1 == |rows|, t);
    assert TrackAt(rules, symbol, rows, idx + 1) == OnBar(rules, rows[idx], idx, idx + 1 == |rows|, t);
    hide TrackAt, OnBar, Enter, Priceable, AllPriceable, AllFills;
    if TrackAt(rules, symbol, rows, idx + 1).position == Enter(rules, rows[idx], idx, t).position {
      ZeroEntryIsSeen(rules, symbol, rows, cfg, idx + 1);
    } else {
      PastFillIsSeen(rules, symbol, rows, cfg, idx + 1, |t.fills|);
    }
  }
}
