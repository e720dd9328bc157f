/** Why each simulated trade was entered and left exactly where it was. */
module BacktestDecisions {
  import opened Models
  import opened Market
  import opened History
  import opened Backtest

  // ---- What the evaluator sees ----

  /** The bars the bounded history holds after the given rows. */
  function Window256(rows: seq<HistoricalBar>): seq<Bar> {
    var all := seq(|rows|, i requires 0 <= i < |rows| => rows[i].AsBar());
    if |all| > MAX_BARS then all[|all| - MAX_BARS..] else all
  }

  /** After `k` bars the evaluator's state is the last bars up to `k`, and the flow, book and time of bar `k - 1`. */
  lemma {:induction false} StateIsHistory(rules: Rules, symbol: string, rows: seq<HistoricalBar>, k: nat)
    requires k <= |rows|
    ensures
      var s := TrackAt(rules, symbol, rows, k).state;
      && s.symbol == symbol && s.bars == Window256(rows[..k])
      && (k > 0 ==>
            var r := rows[k - 1];
            && s.takerBuyQuote == r.takerBuyQuote && s.takerSellQuote == r.TakerSellQuote()
            && s.bestBid == r.bestBid && s.bestAsk == r.bestAsk
            && (r.HasBook() ==> s.bidDepth == r.bidDepth.value && s.askDepth == r.askDepth.value)
            && s.flowBucketStartMs == Some(r.openTimeMs) && s.lastEventTimeMs == Some(r.closeTimeMs))
  {
    if k > 0 {
      StateIsHistory(rules, symbol, rows, k - 1);
      StateStep(rules, rows[k - 1], k - 1, k == |rows|, TrackAt(rules, symbol, rows, k - 1));
      WindowGrows(rows[..k - 1], rows[k - 1]);
      assert rows[..k - 1] + [rows[k - 1]] == rows[..k];
      hide OnBar, PushBar, Window256, HistoricalBar.AsBar;
    }
  }

  lemma StateStep(rules: Rules, row: HistoricalBar, idx: nat, last: bool, t: Track)
    ensures OnBar(rules, row, idx, last, t).state == Observe(t.state, row)
  {
    hide Observe, StopHit, InvalidBeforeEntry, InWindow;
  }

  lemma WindowGrows(rows: seq<HistoricalBar>, row: HistoricalBar)
    ensures PushBar(Window256(rows), row.AsBar()) == Window256(rows + [row])
  {
    hide HistoricalBar.AsBar;
  }

  // ---- Entries and exits ----

  /** The position was entered on the evaluator's signal over all bars before it, and the entry was allowed. */
  ghost predicate EntryJustified(rules: Rules, symbol: string, rows: seq<HistoricalBar>, h: Holding) {
    && h.signalIdx + 1 == h.entryIdx < |rows|
    && h.signal == rules.evaluate(TrackAt(rules, symbol, rows, h.entryIdx).state) && !h.signal.direction.PASS?
    && InWindow(rules.window, rows[h.entryIdx].openTimeMs)
    && !InvalidBeforeEntry(rows[h.entryIdx], h.signal)
  }

  /** No bar from the entry to before `k` called for an exit. */
  ghost predicate HeldThrough(rules: Rules, rows: seq<HistoricalBar>, h: Holding, k: nat) {
    k <= |rows| && forall j | h.entryIdx <= j < k :: ExitOf(rules, rows[j], j, h).None?
  }

  /** The trade was left on the first bar that called for an exit, at that exit's price and reason. */
  ghost predicate FillJustified(rules: Rules, symbol: string, rows: seq<HistoricalBar>, f: Fill) {
    && EntryJustified(rules, symbol, rows, f.holding)
    && f.exitIdx < |rows| && HeldThrough(rules, rows, f.holding, f.exitIdx)
    && ExitOf(rules, rows[f.exitIdx], f.exitIdx, f.holding) == Some((f.reason, f.exitBase))
  }

  ghost predicate TrackJustified(rules: Rules, symbol: string, rows: seq<HistoricalBar>, k: nat, t: Track) {
    && k <= |rows|
    && (forall i | 0 <= i < |t.fills| :: FillJustified(rules, symbol, rows, t.fills[i]))
    && (t.position.Some? ==>
          && t.pending.None?
          && EntryJustified(rules, symbol, rows, t.position.value) && HeldThrough(rules, rows, t.position.value, k))
    && (t.pending.Some? ==>
          && t.pending.value.signalIdx + 1 == k && !t.pending.value.signal.direction.PASS?
          && t.pending.value.signal == rules.evaluate(t.state))
  }

  lemma EnterJustified(rules: Rules, symbol: string, rows: seq<HistoricalBar>, k: nat)
    requires k < |rows| && TrackJustified(rules, symbol, rows, k, TrackAt(rules, symbol, rows, k))
    ensures
      var u := Enter(rules, rows[k], k, TrackAt(rules, symbol, rows, k));
      && u.fills == TrackAt(rules, symbol, rows, k).fills && u.pending.None?
      && (u.position.Some? ==>
          EntryJustified(rules, symbol, rows, u.position.value) && HeldThrough(rules, rows, u.position.value, k))
  {
    hide TrackAt, InvalidBeforeEntry, InWindow, ExitOf;
  }

  lemma ExitJustified(rules: Rules, symbol: string, rows: seq<HistoricalBar>, k: nat, u: Track)
    requires k < |rows| && u.pending.None?
    requires forall i | 0 <= i < |u.fills| :: FillJustified(rules, symbol, rows, u.fills[i])
    requires u.position.Some? ==>
               EntryJustified(rules, symbol, rows, u.position.value) && HeldThrough(rules, rows, u.position.value, k)
    ensures
      var w := Exit(rules, rows[k], k, u);
      && w.pending.None?
      && (forall i | 0 <= i < |w.fills| :: FillJustified(rules, symbol, rows, w.fills[i]))
      && (w.position.Some? ==>
          EntryJustified(rules, symbol, rows, w.position.value) && HeldThrough(rules, rows, w.position.value, k + 1))
  {
    hide EntryJustified, ExitOf;
    var w := Exit(rules, rows[k], k, u);
    forall i | 0 <= i < |w.fills| ensures FillJustified(rules, symbol, rows, w.fills[i]) {
      if i < |u.fills| {
        assert FillJustified(rules, symbol, rows, u.fills[i]);
      }
    }
  }

  lemma EvaluateJustified(rules: Rules, symbol: string, rows: seq<HistoricalBar>, k: nat, last: bool, w: Track)
    requires k < |rows| && w.pending.None?
    requires forall i | 0 <= i < |w.fills| :: FillJustified(rules, symbol, rows, w.fills[i])
    requires w.position.Some? ==>
               && EntryJustified(rules, symbol, rows, w.position.value)
               && HeldThrough(rules, rows, w.position.value, k + 1)
    ensures TrackJustified(rules, symbol, rows, k + 1, Evaluate(rules, rows[k], k, last, w))
  {
    hide Observe, FillJustified, EntryJustified, HeldThrough;
  }

  lemma {:induction false} TrackStaysJustified(rules: Rules, symbol: string, rows: seq<HistoricalBar>, k: nat)
    requires k <= |rows|
    ensures TrackJustified(rules, symbol, rows, k, TrackAt(rules, symbol, rows, k))
  {
    if k > 0 {
      TrackStaysJustified(rules, symbol, rows, k - 1);
      EnterJustified(rules, symbol, rows, k - 1);
      var u := Enter(rules, rows[k - 1], k - 1, TrackAt(rules, symbol, rows, k - 1));
      ExitJustified(rules, symbol, rows, k - 1, u);
      EvaluateJustified(rules, symbol, rows, k - 1, k == |rows|, Exit(rules, rows[k - 1], k - 1, u));
      hide Enter, Exit, Evaluate, FillJustified, EntryJustified, HeldThrough;
    }
  }

  /** Every trade follows the evaluator's signal over the bars before its entry, and leaves on the first bar
      that calls for an exit, with that exit's price and reason; one still open at the end was never called out. */
  lemma TradesAreJustified(rules: Rules, symbol: string, rows: seq<HistoricalBar>)
    requires rows != []
    ensures
      var fills := AllFills(rules, symbol, rows);
      forall i | 0 <= i < |fills| ::
        if fills[i].reason.DATA_END?
        then EntryJustified(rules, symbol, rows, fills[i].holding) && HeldThrough(rules, rows, fills[i].holding, |rows|)
             && fills[i].exitIdx == |rows| - 1 && fills[i].exitBase == rows[|rows| - 1].close
        else FillJustified(rules, symbol, rows, fills[i])
  {
    TrackStaysJustified(rules, symbol, rows, |rows|);
    RuleReasons(rules, symbol, rows);
    hide TrackAt, EntryJustified, HeldThrough, ExitOf;
  }

  /** The rules never give the forced reason themselves. */
  lemma RuleReasons(rules: Rules, symbol: string, rows: seq<HistoricalBar>)
    ensures forall f | FillJustified(rules, symbol, rows, f) :: !f.reason.DATA_END?
  {
  }

  // ---- Funding ----

  /** Funding of adjoining holding periods adds up: no point is charged twice or missed. */
  lemma {:induction false} FundingAdds(points: seq<FundingPoint>, symbol: string, a: int, b: int, c: int)
    requires a <= b <= c
    ensures FundingRate(points, symbol, a, c) == FundingRate(points, symbol, a, b) + FundingRate(points, symbol, b, c)
  {
    if points != [] {
      FundingAdds(points[..|points| - 1], symbol, a, b, c);
    }
  }
}
