/** The bar-by-bar backtester: decisions at completed bars, executions at the next open. */
module Backtest {
  import opened Models
  import opened Market
  import opened Signals
  import opened History

  datatype BacktestConfig = BacktestConfig(
    startingEquity: real,
    notional: real,
    takerFeeBps: real,
    assumedSpreadBps: real,
    slippageBps: real,
    maxHoldingBars: int,
    requireBook: bool)

  datatype Reason = INVALIDATION_STOP | MAX_HOLD | WINDOW_END | DATA_END

  datatype SimulatedTrade = SimulatedTrade(
    symbol: string,
    direction: Direction,
    setup: Setup,
    signalTimeMs: int,
    entryTimeMs: int,
    exitTimeMs: int,
    entryPrice: real,
    exitPrice: real,
    quantity: real,
    grossPnl: real,
    fees: real,
    fundingCost: real,
    netPnl: real,
    exitReason: Reason,
    holdingBars: int)

  // ---- Decisions: which bars are bought and sold, and why ----

  datatype Window = Window(start: Option<int>, end: Option<int>)

  predicate InWindow(w: Window, time: int) {
    (w.start.Some? ==> time >= w.start.value) && (w.end.Some? ==> time < w.end.value)
  }

  /** What decides about entries and exits; the evaluator is any function of the symbol state. */
  datatype Rules = Rules(maxHold: int, window: Window, evaluate: SymbolState -> Signal)

  datatype Pending = Pending(signal: Signal, signalIdx: nat)

  datatype Holding = Holding(signal: Signal, signalIdx: nat, entryIdx: nat)

  datatype Fill = Fill(holding: Holding, exitIdx: nat, exitBase: real, reason: Reason)

  datatype Track = Track(state: SymbolState, pending: Option<Pending>, position: Option<Holding>, fills: seq<Fill>,
                         skipped: nat)

  predicate InvalidBeforeEntry(row: HistoricalBar, s: Signal) {
    match s.invalidation
    case None => false
    case Some(level) =>
      if s.direction.LONG? then row.open <= level else if s.direction.SHORT? then row.open >= level else true
  }

  predicate StopHit(row: HistoricalBar, s: Signal) {
    s.invalidation.Some?
    && if s.direction.LONG? then row.low <= s.invalidation.value else row.high >= s.invalidation.value
  }

  /** The exit a position takes on a bar: stop first, then holding time, then the end of the window. */
  function ExitOf(rules: Rules, row: HistoricalBar, idx: int, h: Holding): Option<(Reason, real)> {
    if StopHit(row, h.signal) then Some((INVALIDATION_STOP, h.signal.invalidation.value))
    else if idx - h.entryIdx + 1 >= rules.maxHold then Some((MAX_HOLD, row.close))
    else if rules.window.end.Some? && row.closeTimeMs >= rules.window.end.value then Some((WINDOW_END, row.close))
    else None
  }

  /** A signal of the prior bar is executed at this bar's open, or dropped. */
  function Enter(rules: Rules, row: HistoricalBar, idx: nat, t: Track): Track {
    if t.position.Some? || t.pending.None? then t
    else
      var p := t.pending.value;
      var u := t.(pending := None);
      if !InWindow(rules.window, row.openTimeMs) then u
      else if InvalidBeforeEntry(row, p.signal) then u.(skipped := u.skipped + 1)
      else u.(position := Some(Holding(p.signal, p.signalIdx, idx)))
  }

  function Exit(rules: Rules, row: HistoricalBar, idx: nat, t: Track): Track {
    if t.position.None? then t
    else
      var h := t.position.value;
      match ExitOf(rules, row, idx, h)
      case None => t
      case Some(e) => t.(position := None, fills := t.fills + [Fill(h, idx, e.1, e.0)])
  }

  /** The completed bar reaches the symbol state. */
  function Observe(state: SymbolState, row: HistoricalBar): SymbolState {
    state.(bars := PushBar(state.bars, row.AsBar()),
           takerBuyQuote := row.takerBuyQuote,
           takerSellQuote := row.TakerSellQuote(),
           flowBucketStartMs := Some(row.openTimeMs),
           bestBid := row.bestBid,
           bestAsk := row.bestAsk,
           bidDepth := if row.bidDepth.Some? then row.bidDepth.value else 0.0,
           askDepth := if row.askDepth.Some? then row.askDepth.value else 0.0,
           lastEventTimeMs := Some(row.closeTimeMs))
  }

  /** A fresh signal waits for the next bar, when there is one. */
  function Evaluate(rules: Rules, row: HistoricalBar, idx: nat, last: bool, t: Track): Track {
    var state := Observe(t.state, row);
    var signal := rules.evaluate(state);
    var u := t.(state := state);
    if t.position.None? && t.pending.None? && !signal.direction.PASS? && !last then
      u.(pending := Some(Pending(signal, idx)))
    else u
  }

  function OnBar(rules: Rules, row: HistoricalBar, idx: nat, last: bool, t: Track): Track {
    Evaluate(rules, row, idx, last, Exit(rules, row, idx, Enter(rules, row, idx, t)))
  }

  function Start(symbol: string): Track {
    Track(NewSymbolState(symbol), None, None, [], 0)
  }

  /** The track after the first `k` bars. */
  function TrackAt(rules: Rules, symbol: string, rows: seq<HistoricalBar>, k: nat): Track
    requires k <= |rows|
  {
    if k == 0 then Start(symbol)
    else OnBar(rules, rows[k - 1], k - 1, k == |rows|, TrackAt(rules, symbol, rows, k - 1))
  }

  /** Trades closed by the rules, before any forced close at the end of the data. */
  function ClosedFills(rules: Rules, symbol: string, rows: seq<HistoricalBar>): seq<Fill> {
    TrackAt(rules, symbol, rows, |rows|).fills
  }

  function AllFills(rules: Rules, symbol: string, rows: seq<HistoricalBar>): seq<Fill>
    requires rows != []
  {
    var t := TrackAt(rules, symbol, rows, |rows|);
    if t.position.None? then t.fills
    else t.fills + [Fill(t.position.value, |rows| - 1, rows[|rows| - 1].close, DATA_END)]
  }

  // ---- Pricing: what a decision costs ----

  function FrictionFraction(cfg: BacktestConfig): real {
    (cfg.assumedSpreadBps / 2.0 + cfg.slippageBps) / 10000.0
  }

  function FeeRate(cfg: BacktestConfig): real {
    cfg.takerFeeBps / 10000.0
  }

  function EntryPrice(base: real, d: Direction, friction: real): real {
    base * (1.0 + Sign(d) * friction)
  }

  function ExitPrice(base: real, d: Direction, friction: real): real {
    base * (1.0 - Sign(d) * friction)
  }

  predicate Charged(p: FundingPoint, symbol: string, entryMs: int, exitMs: int) {
    p.symbol == symbol && entryMs < p.timestampMs <= exitMs
  }

  /** The sum of the rates charged while the position was open. */
  function FundingRate(points: seq<FundingPoint>, symbol: string, entryMs: int, exitMs: int): real {
    if points == [] then 0.0
    else
      var p := points[|points| - 1];
      FundingRate(points[..|points| - 1], symbol, entryMs, exitMs)
      + if Charged(p, symbol, entryMs, exitMs) then p.rate else 0.0
  }

  function FundingCost(points: seq<FundingPoint>, symbol: string, d: Direction, entryMs: int, exitMs: int,
                       notional: real): real {
    notional * Sign(d) * FundingRate(points, symbol, entryMs, exitMs)
  }

  datatype Pnl = Pnl(quantity: real, gross: real, fees: real)

  function PnlOf(notional: real, d: Direction, entryPrice: real, exitPrice: real, feeRate: real): Pnl
    requires entryPrice != 0.0
  {
    var quantity := notional / entryPrice;
    Pnl(quantity, quantity * (exitPrice - entryPrice) * Sign(d),
        Abs(quantity * entryPrice) * feeRate + Abs(quantity * exitPrice) * feeRate)
  }

  /** Entries at a price of zero divide by zero. */
  predicate Priceable(h: Holding, rows: seq<HistoricalBar>, cfg: BacktestConfig) {
    h.entryIdx < |rows| && EntryPrice(rows[h.entryIdx].open, h.signal.direction, FrictionFraction(cfg)) != 0.0
  }

  function TradeOf(symbol: string, rows: seq<HistoricalBar>, cfg: BacktestConfig, funding: seq<FundingPoint>,
                   f: Fill): SimulatedTrade
    requires Priceable(f.holding, rows, cfg) && f.exitIdx < |rows| && f.holding.signalIdx < |rows|
  {
    var h, d := f.holding, f.holding.signal.direction;
    var entry, exit := rows[h.entryIdx], rows[f.exitIdx];
    var entryPrice := EntryPrice(entry.open, d, FrictionFraction(cfg));
    var exitPrice := ExitPrice(f.exitBase, d, FrictionFraction(cfg));
    var pnl := PnlOf(cfg.notional, d, entryPrice, exitPrice, FeeRate(cfg));
    var cost := FundingCost(funding, symbol, d, entry.openTimeMs, exit.closeTimeMs, cfg.notional);
    SimulatedTrade(symbol, d, h.signal.setup, rows[h.signalIdx].closeTimeMs, entry.openTimeMs, exit.closeTimeMs,
                   entryPrice, exitPrice, pnl.quantity, pnl.gross, pnl.fees, cost, pnl.gross - pnl.fees - cost,
                   f.reason, f.exitIdx - h.entryIdx + 1)
  }

  // ---- Structure of the decisions ----

  ghost predicate FillOk(rules: Rules, n: nat, f: Fill) {
    && !f.holding.signal.direction.PASS?
    && f.holding.signalIdx + 1 == f.holding.entryIdx <= f.exitIdx < n
    && f.exitIdx - f.holding.entryIdx + 1 <= MaxHold(rules)
  }

  function MaxHold(rules: Rules): int {
    if rules.maxHold < 1 then 1 else rules.maxHold
  }

  /** Each fill starts after the one before it has ended. */
  ghost predicate Disjoint(fills: seq<Fill>) {
    forall i, j | 0 <= i < j < |fills| :: fills[i].exitIdx < fills[j].holding.entryIdx
  }

  /** After `k` bars: past fills are over, an open position is within its time, a pending signal is the last bar's. */
  ghost predicate Tracked(rules: Rules, k: nat, t: Track) {
    && (forall i | 0 <= i < |t.fills| :: FillOk(rules, k, t.fills[i]))
    && Disjoint(t.fills)
    && (t.position.Some? ==>
          var h := t.position.value;
          && t.pending.None? && !h.signal.direction.PASS?
          && h.signalIdx + 1 == h.entryIdx < k && k - h.entryIdx < MaxHold(rules)
          && forall i | 0 <= i < |t.fills| :: t.fills[i].exitIdx < h.entryIdx)
    && (t.pending.Some? ==> !t.pending.value.signal.direction.PASS? && t.pending.value.signalIdx + 1 == k)
  }

  lemma OnBarTracked(rules: Rules, row: HistoricalBar, idx: nat, last: bool, t: Track)
    requires Tracked(rules, idx, t)
    ensures Tracked(rules, idx + 1, OnBar(rules, row, idx, last, t))
  {
    hide Observe, StopHit, InvalidBeforeEntry, InWindow;
    var u := Enter(rules, row, idx, t);
    var w := Exit(rules, row, idx, u);
    forall i | 0 <= i < |w.fills| ensures FillOk(rules, idx + 1, w.fills[i]) {
      if i < |t.fills| {
        assert FillOk(rules, idx, t.fills[i]);
      }
    }
  }

  lemma {:induction false} TrackAtTracked(rules: Rules, symbol: string, rows: seq<HistoricalBar>, k: nat)
    requires k <= |rows|
    ensures Tracked(rules, k, TrackAt(rules, symbol, rows, k))
  {
    hide OnBar;
    if k > 0 {
      TrackAtTracked(rules, symbol, rows, k - 1);
      OnBarTracked(rules, rows[k - 1], k - 1, k == |rows|, TrackAt(rules, symbol, rows, k - 1));
    }
  }
}
