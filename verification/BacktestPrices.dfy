/** When simulated positions are entered and left, and what they earn, in the prices and times of the bars. */
module BacktestPrices {
  import opened Models
  import opened Market
  import opened Signals
  import opened History
  import opened Backtest
  import opened BacktestDecisions
  import opened BacktestProofs
  import opened BacktestRun

  // ---- Exits ----

  /** The bar trades strictly on the winning side of the signal's invalidation. */
  predicate TradesClear(s: Signal, row: HistoricalBar) {
    s.invalidation.Some? ==>
      if s.direction.LONG? then row.low > s.invalidation.value else row.high < s.invalidation.value
  }

  /** The bar opens there. */
  predicate OpensClear(s: Signal, row: HistoricalBar) {
    s.invalidation.Some? ==>
      if s.direction.LONG? then row.open > s.invalidation.value else row.open < s.invalidation.value
  }

  /** The bar opens at or after the start of the window and before its end. */
  predicate OpensWithin(w: Window, row: HistoricalBar) {
    && (w.start.Some? ==> w.start.value <= row.openTimeMs)
    && (w.end.Some? ==> row.openTimeMs < w.end.value)
  }

  /** On its `n`th bar a position still has time: bars left to hold, and a close before the end of the window. */
  predicate HasTime(rules: Rules, row: HistoricalBar, n: int) {
    n < rules.maxHold && (rules.window.end.Some? ==> row.closeTimeMs < rules.window.end.value)
  }

  /** From its entry to before bar `k` every bar traded clear of the invalidation and left the position time. */
  ghost predicate RanOn(rules: Rules, rows: seq<HistoricalBar>, h: Holding, k: nat) {
    k <= |rows| && forall j | h.entryIdx <= j < k ::
      TradesClear(h.signal, rows[j]) && HasTime(rules, rows[j], j - h.entryIdx + 1)
  }

  /** The position was left on the first bar that asked for it: at the invalidation when the bar traded at or through
      that, else at the close once its bars were used up, else at the close once the window was over; at the last
      close only if no bar ever asked. */
  ghost predicate LeftAt(rules: Rules, rows: seq<HistoricalBar>, f: Fill) {
    && f.holding.entryIdx <= f.exitIdx < |rows| && RanOn(rules, rows, f.holding, f.exitIdx)
    && var s, row, n := f.holding.signal, rows[f.exitIdx], f.exitIdx - f.holding.entryIdx + 1;
    match f.reason
    case INVALIDATION_STOP =>
      && s.invalidation == Some(f.exitBase)
      && if s.direction.LONG? then row.low <= f.exitBase else row.high >= f.exitBase
    case MAX_HOLD => TradesClear(s, row) && n >= rules.maxHold && f.exitBase == row.close
    case WINDOW_END =>
      && TradesClear(s, row) && n < rules.maxHold && f.exitBase == row.close
      && rules.window.end.Some? && row.closeTimeMs >= rules.window.end.value
    case DATA_END =>
      && TradesClear(s, row) && HasTime(rules, row, n) && f.exitBase == row.close && f.exitIdx == |rows| - 1
  }

  /** Entered at the open of the bar after its signal's, within the window and strictly clear of the invalidation. */
  predicate EnteredAt(rules: Rules, rows: seq<HistoricalBar>, h: Holding) {
    && h.signalIdx + 1 == h.entryIdx < |rows|
    && (h.signal.direction.LONG? || h.signal.direction.SHORT?)
    && OpensWithin(rules.window, rows[h.entryIdx]) && OpensClear(h.signal, rows[h.entryIdx])
  }

  /** What an exit means on prices. */
  lemma ExitMeans(rules: Rules, row: HistoricalBar, idx: int, h: Holding)
    ensures
      var e, n := ExitOf(rules, row, idx, h), idx - h.entryIdx + 1;
      && (e.None? <==> TradesClear(h.signal, row) && HasTime(rules, row, n))
      && (e.Some? ==>
            match e.value.0
            case INVALIDATION_STOP =>
              && h.signal.invalidation == Some(e.value.1)
              && if h.signal.direction.LONG? then row.low <= e.value.1 else row.high >= e.value.1
            case MAX_HOLD => TradesClear(h.signal, row) && n >= rules.maxHold && e.value.1 == row.close
            case WINDOW_END =>
              && TradesClear(h.signal, row) && n < rules.maxHold && e.value.1 == row.close
              && rules.window.end.Some? && row.closeTimeMs >= rules.window.end.value
            case DATA_END => false)
  {
  }

  lemma EntryMeans(rules: Rules, symbol: string, rows: seq<HistoricalBar>, h: Holding)
    requires EntryJustified(rules, symbol, rows, h)
    ensures EnteredAt(rules, rows, h)
  {
    hide TrackAt;
  }

  lemma HeldMeans(rules: Rules, rows: seq<HistoricalBar>, h: Holding, k: nat)
    requires HeldThrough(rules, rows, h, k)
    ensures RanOn(rules, rows, h, k)
  {
    hide ExitOf, TradesClear, HasTime;
    forall j | h.entryIdx <= j < k
      ensures TradesClear(h.signal, rows[j]) && HasTime(rules, rows[j], j - h.entryIdx + 1)
    {
      ExitMeans(rules, rows[j], j, h);
    }
  }

  lemma RuleFillMeans(rules: Rules, symbol: string, rows: seq<HistoricalBar>, f: Fill)
    requires FillJustified(rules, symbol, rows, f) && f.holding.entryIdx <= f.exitIdx
    ensures EnteredAt(rules, rows, f.holding) && LeftAt(rules, rows, f)
  {
    hide ExitOf, TradesClear, HasTime, EntryJustified, HeldThrough, RanOn;
    EntryMeans(rules, symbol, rows, f.holding);
    HeldMeans(rules, rows, f.holding, f.exitIdx);
    ExitMeans(rules, rows[f.exitIdx], f.exitIdx, f.holding);
  }

  lemma ForcedFillMeans(rules: Rules, symbol: string, rows: seq<HistoricalBar>, f: Fill)
    requires rows != [] && f.reason.DATA_END? && f.holding.entryIdx <= f.exitIdx
    requires EntryJustified(rules, symbol, rows, f.holding) && HeldThrough(rules, rows, f.holding, |rows|)
    requires f.exitIdx == |rows| - 1 && f.exitBase == rows[|rows| - 1].close
    ensures EnteredAt(rules, rows, f.holding) && LeftAt(rules, rows, f)
  {
    EntryMeans(rules, symbol, rows, f.holding);
    HeldMeans(rules, rows, f.holding, |rows|);
    hide EntryJustified, HeldThrough, TradesClear, HasTime, EnteredAt;
    assert TradesClear(f.holding.signal, rows[f.exitIdx])
        && HasTime(rules, rows[f.exitIdx], f.exitIdx - f.holding.entryIdx + 1);
  }

  /** Every trade of a run was entered and left on the bars and at the prices the strategy asks for. */
  lemma TradesOnPrices(rules: Rules, symbol: string, rows: seq<HistoricalBar>)
    requires rows != []
    ensures
      var fills := AllFills(rules, symbol, rows);
      forall i | 0 <= i < |fills| :: EnteredAt(rules, rows, fills[i].holding) && LeftAt(rules, rows, fills[i])
  {
    TradesAreJustified(rules, symbol, rows);
    AllFillsOk(rules, symbol, rows);
    hide AllFills, EntryJustified, HeldThrough, FillJustified, EnteredAt, LeftAt;
    var fills := AllFills(rules, symbol, rows);
    forall i | 0 <= i < |fills| ensures EnteredAt(rules, rows, fills[i].holding) && LeftAt(rules, rows, fills[i]) {
      assert FillOk(rules, |rows|, fills[i]);
      if fills[i].reason.DATA_END? {
        ForcedFillMeans(rules, symbol, rows, fills[i]);
      } else {
        RuleFillMeans(rules, symbol, rows, fills[i]);
      }
    }
  }

  // ---- Entries ----

  /** Some trade is on over the whole of bars `k - 1` and `k`: entered before `k` and not left before it. */
  ghost predicate OnAcross(fills: seq<Fill>, k: nat) {
    exists i :: 0 <= i < |fills| && fills[i].holding.entryIdx < k <= fills[i].exitIdx
  }

  /** The signal of the bar before is taken at bar `k`: it has a side, and the bar opens within the window and clear
      of the invalidation. */
  ghost predicate Taken(rules: Rules, symbol: string, rows: seq<HistoricalBar>, k: nat)
    requires k < |rows|
  {
    var s := rules.evaluate(TrackAt(rules, symbol, rows, k).state);
    (s.direction.LONG? || s.direction.SHORT?) && OpensWithin(rules.window, rows[k]) && OpensClear(s, rows[k])
  }

  /** The track stands ready at bar `k`: a position, or the last bar's signal waiting, or neither as it has no side. */
  ghost predicate Ready(rules: Rules, symbol: string, rows: seq<HistoricalBar>, k: nat)
    requires 0 < k < |rows|
  {
    var t := TrackAt(rules, symbol, rows, k);
    var s := rules.evaluate(t.state);
    t.position.None? ==> t.pending == if s.direction.PASS? then None else Some(Pending(s, k - 1))
  }

  lemma EvaluatesReady(rules: Rules, row: HistoricalBar, idx: nat, t: Track)
    requires t.position.Some? ==> t.pending.None?
    ensures
      var u := OnBar(rules, row, idx, false, t);
      var s := rules.evaluate(u.state);
      u.position.None? ==> u.pending == if s.direction.PASS? then None else Some(Pending(s, idx))
  {
    hide Observe, StopHit, InvalidBeforeEntry, InWindow;
  }

  lemma TracksAreReady(rules: Rules, symbol: string, rows: seq<HistoricalBar>, k: nat)
    requires 0 < k < |rows|
    ensures Ready(rules, symbol, rows, k)
  {
    TrackAtTracked(rules, symbol, rows, k - 1);
    EvaluatesReady(rules, rows[k - 1], k - 1, TrackAt(rules, symbol, rows, k - 1));
    hide OnBar;
  }

  /** Who holds the position after the entry at bar `k`. */
  lemma EntersWhenReady(rules: Rules, symbol: string, rows: seq<HistoricalBar>, k: nat)
    requires 0 < k < |rows|
    ensures
      var t := TrackAt(rules, symbol, rows, k);
      var u := Enter(rules, rows[k], k, t);
      && (t.position.Some? ==> u == t)
      && (t.position.None? ==>
            && (u.position.Some? <==> Taken(rules, symbol, rows, k))
            && (u.position.Some? ==> u.position.value.entryIdx == k))
  {
    TracksAreReady(rules, symbol, rows, k);
    hide TrackAt;
  }

  lemma BarEndsLater(rules: Rules, row: HistoricalBar, idx: nat, last: bool, t: Track)
    ensures
      var u := OnBar(rules, row, idx, last, t);
      && t.fills <= u.fills
      && forall i | |t.fills| <= i < |u.fills| :: u.fills[i].exitIdx == idx
  {
    hide Observe, StopHit, InWindow, InvalidBeforeEntry, ExitOf;
  }

  /** Fills made after the first `j` bars end on bar `j` or later. */
  lemma {:induction false} LaterFillsEndLater(rules: Rules, symbol: string, rows: seq<HistoricalBar>, j: nat, k: nat)
    requires j <= k <= |rows|
    ensures
      var a, b := TrackAt(rules, symbol, rows, j).fills, TrackAt(rules, symbol, rows, k).fills;
      a <= b && forall i | |a| <= i < |b| :: j <= b[i].exitIdx
  {
    hide OnBar;
    if j < k {
      LaterFillsEndLater(rules, symbol, rows, j, k - 1);
      BarEndsLater(rules, rows[k - 1], k - 1, k == |rows|, TrackAt(rules, symbol, rows, k - 1));
    }
  }

  /** A position that is open after `k` bars shows up among the fills, and ends on bar `k` or later. */
  lemma PositionBecomesFill(rules: Rules, symbol: string, rows: seq<HistoricalBar>, k: nat) returns (i: nat)
    requires k < |rows| && TrackAt(rules, symbol, rows, k).position.Some?
    ensures
      var fills := AllFills(rules, symbol, rows);
      && i < |fills| && fills[i].holding == TrackAt(rules, symbol, rows, k).position.value
      && k <= fills[i].exitIdx
  {
    FillsGrow(rules, symbol, rows, k, |rows|);
    LaterFillsEndLater(rules, symbol, rows, k, |rows|);
    hide TrackAt;
    i := |TrackAt(rules, symbol, rows, k).fills|;
  }

  lemma EnteredPersists(rules: Rules, row: HistoricalBar, idx: nat, last: bool, t: Track)
    requires Enter(rules, row, idx, t).position.Some?
    ensures
      var h, u := Enter(rules, row, idx, t).position.value, OnBar(rules, row, idx, last, t);
      u.position == Some(h) || (u.fills != [] && u.fills[|u.fills| - 1].holding == h)
  {
    hide Observe, StopHit, InWindow, InvalidBeforeEntry, ExitOf, Enter;
  }

  /** So does one that is entered at bar `k`. */
  lemma EntryBecomesFill(rules: Rules, symbol: string, rows: seq<HistoricalBar>, k: nat) returns (i: nat)
    requires k < |rows|
    requires Enter(rules, rows[k], k, TrackAt(rules, symbol, rows, k)).position.Some?
    ensures
      var fills := AllFills(rules, symbol, rows);
      i < |fills| && fills[i].holding == Enter(rules, rows[k], k, TrackAt(rules, symbol, rows, k)).position.value
  {
    hide TrackAt, AllFills, Enter, OnBar;
    EnteredPersists(rules, rows[k], k, k + 1 == |rows|, TrackAt(rules, symbol, rows, k));
    FillsStay(rules, symbol, rows, k + 1);
    NextBar(rules, symbol, rows, k);
    var t := TrackAt(rules, symbol, rows, k + 1);
    if t.position != Some(Enter(rules, rows[k], k, TrackAt(rules, symbol, rows, k)).position.value) {
      i := |t.fills| - 1;
    } else if k + 1 < |rows| {
      i := PositionBecomesFill(rules, symbol, rows, k + 1);
    } else {
      i := |t.fills|;
    }
  }

  lemma NextBar(rules: Rules, symbol: string, rows: seq<HistoricalBar>, k: nat)
    requires k < |rows|
    ensures TrackAt(rules, symbol, rows, k + 1)
            == OnBar(rules, rows[k], k, k + 1 == |rows|, TrackAt(rules, symbol, rows, k))
  {
    hide OnBar;
  }

  /** The fills after `k` bars stay what they are, and a position open at the end follows them. */
  lemma FillsStay(rules: Rules, symbol: string, rows: seq<HistoricalBar>, k: nat)
    requires k <= |rows| && rows != []
    ensures
      var t, all := TrackAt(rules, symbol, rows, k), AllFills(rules, symbol, rows);
      && t.fills <= all
      && (k == |rows| && t.position.Some? ==> |t.fills| < |all| && all[|t.fills|].holding == t.position.value)
  {
    LaterFillsEndLater(rules, symbol, rows, k, |rows|);
    hide TrackAt;
  }

  lemma SpansApart(fills: seq<Fill>, k: nat, i: nat)
    requires Disjoint(fills) && i < |fills| && fills[i].holding.entryIdx == k
    requires forall j | 0 <= j < |fills| :: fills[j].holding.entryIdx <= fills[j].exitIdx
    ensures !OnAcross(fills, k)
  {
    forall j | 0 <= j < |fills| ensures !(fills[j].holding.entryIdx < k <= fills[j].exitIdx) {
    }
  }

  /** A trade is entered at bar `k` exactly when none is on across it and the signal of the bar before is taken
      there. */
  lemma EntriesExact(rules: Rules, symbol: string, rows: seq<HistoricalBar>, k: nat)
    requires 0 < k < |rows|
    ensures
      var fills := AllFills(rules, symbol, rows);
      (exists i :: 0 <= i < |fills| && fills[i].holding.entryIdx == k) <==>
        !OnAcross(fills, k) && Taken(rules, symbol, rows, k)
  {
    AllFillsOk(rules, symbol, rows);
    TrackAtTracked(rules, symbol, rows, k);
    EntersWhenReady(rules, symbol, rows, k);
    hide TrackAt, AllFills, Enter, Taken, OnAcross;
    var fills := AllFills(rules, symbol, rows);
    forall j | 0 <= j < |fills| ensures fills[j].holding.entryIdx <= fills[j].exitIdx {
      assert FillOk(rules, |rows|, fills[j]);
    }
    if i :| 0 <= i < |fills| && fills[i].holding.entryIdx == k {
      SpansApart(fills, k, i);
      EntryWasTaken(rules, symbol, rows, i);
    }
    if !OnAcross(fills, k) && Taken(rules, symbol, rows, k) {
      if TrackAt(rules, symbol, rows, k).position.Some? {
        var i := PositionBecomesFill(rules, symbol, rows, k);
        AcrossAt(fills, k, i);
      } else {
        var i := EntryBecomesFill(rules, symbol, rows, k);
      }
    }
  }

  lemma AcrossAt(fills: seq<Fill>, k: nat, i: nat)
    requires i < |fills| && fills[i].holding.entryIdx < k <= fills[i].exitIdx
    ensures OnAcross(fills, k)
  {
  }

  lemma EntryWasTaken(rules: Rules, symbol: string, rows: seq<HistoricalBar>, i: nat)
    requires rows != [] && i < |AllFills(rules, symbol, rows)|
    ensures
      var h := AllFills(rules, symbol, rows)[i].holding;
      && 0 < h.entryIdx < |rows| && Taken(rules, symbol, rows, h.entryIdx)
      && h.signal == rules.evaluate(TrackAt(rules, symbol, rows, h.entryIdx).state)
  {
    TradesAreJustified(rules, symbol, rows);
    TradesOnPrices(rules, symbol, rows);
    hide AllFills, TrackAt, LeftAt, HeldThrough, OpensWithin, OpensClear;
    var f := AllFills(rules, symbol, rows)[i];
    assert EnteredAt(rules, rows, f.holding);
    assert EntryJustified(rules, symbol, rows, f.holding);
  }
}
