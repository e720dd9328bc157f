/** Selection on training data only, out-of-sample trades in disjoint test bars, and stability under new bars. */
module WalkForwardProofs {
  import opened Models
  import opened Market
  import opened Signals
  import opened History
  import opened Backtest
  import opened Metrics
  import opened BacktestRun
  import opened BacktestProofs
  import opened WalkForward
  import Sorting

  // ---- Selection ----

  function OnTraining(train: seq<HistoricalBar>, s: Setting, i: nat): Outcome
    requires i < |s.candidates|
  {
    OutcomeOf(train, s.cfg, s.candidates[i], s.funding, ANYTIME)
  }

  predicate Qualifies(train: seq<HistoricalBar>, s: Setting, i: nat)
    requires i < |s.candidates|
  {
    OnTraining(train, s, i).Ran? && OnTraining(train, s, i).result.metrics.trades >= s.wf.minTrainTrades
  }

  function RankOf(train: seq<HistoricalBar>, s: Setting, i: nat): Ranked
    requires i < |s.candidates| && Qualifies(train, s, i)
  {
    var m := OnTraining(train, s, i).result.metrics;
    Ranked(m.expectancy, m.netPnl, i, m)
  }

  /** The ranked list holds exactly the candidates that qualify, each with its own figures. */
  lemma {:induction false} RankedAreQualified(train: seq<HistoricalBar>, s: Setting, n: nat)
    requires n <= |s.candidates| && Train(train, s, n).Trained?
    ensures forall r :: r in Train(train, s, n).ranked <==>
              r.index < n && Qualifies(train, s, r.index) && r == RankOf(train, s, r.index)
  {
    hide OutcomeOf;
    if n > 0 {
      RankedAreQualified(train, s, n - 1);
    }
  }

  lemma {:induction false} NoneBeatsBest(ranked: seq<Ranked>)
    requires ranked != []
    ensures forall r | r in ranked :: !Beats(r, Best(ranked))
  {
    if |ranked| > 1 {
      var front, last := ranked[..|ranked| - 1], ranked[|ranked| - 1];
      NoneBeatsBest(front);
      forall r | r in ranked ensures !Beats(r, Best(ranked)) {
        assert r in front || r == last;
      }
    }
  }

  /** The selected candidate qualifies on the training bars and no other qualifying candidate beats it; none
      is selected exactly when none qualifies. */
  lemma SelectionIsMaximal(rows: seq<HistoricalBar>, s: Setting, start: nat, number: nat)
    requires FoldFits(s.wf, |rows|, start)
    ensures
      var train := rows[start..start + s.wf.trainBars];
      var run := RunFold(rows, s, start, number);
      run.FoldRan? ==>
        && (run.fold.selected.None? <==> forall i | 0 <= i < |s.candidates| :: !Qualifies(train, s, i))
        && (run.fold.selected.Some? ==>
              && run.fold.selected.value < |s.candidates| && Qualifies(train, s, run.fold.selected.value)
              && forall i | 0 <= i < |s.candidates| && Qualifies(train, s, i) ::
                   !Beats(RankOf(train, s, i), RankOf(train, s, run.fold.selected.value)))
  {
    hide OutcomeOf, Train, Qualifies, Beats, Best, Context, TestWindow, RankOf;
    var train := rows[start..start + s.wf.trainBars];
    if RunFold(rows, s, start, number).FoldRan? {
      var ranked := TrainingOf(rows, s, start).ranked;
      RankedAreQualified(train, s, |s.candidates|);
      if ranked != [] {
        NoneBeatsBest(ranked);
        assert Qualifies(train, s, Best(ranked).index);
      }
      forall i | 0 <= i < |s.candidates| && Qualifies(train, s, i)
        ensures ranked != [] && !Beats(RankOf(train, s, i), Best(ranked))
      {
        RankIndex(train, s, i);
        assert RankOf(train, s, i) in ranked;
      }
    }
  }

  lemma RankIndex(train: seq<HistoricalBar>, s: Setting, i: nat)
    requires i < |s.candidates| && Qualifies(train, s, i)
    ensures RankOf(train, s, i).index == i
  {
    hide OutcomeOf;
  }

  /** Bars at or after the end of training have no say in the selection. */
  lemma SelectionIgnoresTest(rows: seq<HistoricalBar>, other: seq<HistoricalBar>, s: Setting, start: nat, number: nat)
    requires FoldFits(s.wf, |rows|, start) && FoldFits(s.wf, |other|, start)
    requires rows[..start + s.wf.trainBars] == other[..start + s.wf.trainBars]
    ensures TrainingOf(rows, s, start) == TrainingOf(other, s, start)
    ensures
      var a, b := RunFold(rows, s, start, number), RunFold(other, s, start, number);
      a.FoldRan? && b.FoldRan? ==> a.fold.selected == b.fold.selected && a.fold.trainMetrics == b.fold.trainMetrics
  {
    hide OutcomeOf, Train, Best, Context, TestWindow;
    var end := start + s.wf.trainBars;
    assert rows[start..end] == rows[..end][start..] && other[start..end] == other[..end][start..];
  }

  // ---- New bars ----

  lemma RunFoldIgnoresLater(rows: seq<HistoricalBar>, later: seq<HistoricalBar>, s: Setting, start: nat, number: nat)
    requires FoldFits(s.wf, |rows|, start)
    ensures RunFold(rows + later, s, start, number) == RunFold(rows, s, start, number)
  {
    hide OutcomeOf, Train, Best;
    var all, mid, end := rows + later, start + s.wf.trainBars, start + s.wf.trainBars + s.wf.testBars;
    assert all[start..mid] == rows[start..mid];
    assert Context(all, s.wf, start) == Context(rows, s.wf, start) by {
      var from := ContextStart(s.wf, start);
      if from < end {
        assert all[from..end] == rows[from..end];
      }
    }
    assert all[start] == rows[start] && all[mid - 1] == rows[mid - 1] && all[mid] == rows[mid]
      && all[end - 1] == rows[end - 1];
    hide Context;
  }

  lemma CountGrows(wf: WalkForwardConfig, size: nat, more: nat)
    requires ValidSizes(wf) && size <= more
    ensures FoldCount(wf, size) <= FoldCount(wf, more)
  {
    var n := FoldCount(wf, size);
    if n > 0 {
      FoldsFit(wf, size, n - 1);
      FoldsFit(wf, more, n - 1);
      hide FoldCount;
    }
  }

  lemma {:induction false} FoldsIgnoreLater(rows: seq<HistoricalBar>, later: seq<HistoricalBar>, s: Setting, k: nat)
    requires ValidSizes(s.wf) && k <= FoldCount(s.wf, |rows|)
    ensures k <= FoldCount(s.wf, |rows + later|)
    ensures Folds(rows + later, s, k) == Folds(rows, s, k)
  {
    hide RunFold, FoldCount;
    CountGrows(s.wf, |rows|, |rows + later|);
    if k > 0 {
      FoldsIgnoreLater(rows, later, s, k - 1);
      FoldsFit(s.wf, |rows|, k - 1);
      RunFoldIgnoresLater(rows, later, s, StartOf(s.wf, k - 1), k - 1);
    }
  }

  lemma {:induction false} FoldsGrow(rows: seq<HistoricalBar>, s: Setting, j: nat, k: nat)
    requires ValidSizes(s.wf) && j <= k <= FoldCount(s.wf, |rows|) && Folds(rows, s, k).Walk?
    ensures Folds(rows, s, j).Walk?
    ensures Folds(rows, s, j).folds <= Folds(rows, s, k).folds && Folds(rows, s, j).trades <= Folds(rows, s, k).trades
  {
    hide RunFold, FoldCount;
    if j < k {
      FoldsGrow(rows, s, j, k - 1);
    }
  }

  /** Appending later bars only appends folds and out-of-sample trades. */
  lemma LaterBarsOnlyAppend(rows: seq<HistoricalBar>, later: seq<HistoricalBar>, s: Setting)
    requires OpensAfter(rows, later)
    ensures
      var a, b := WalkOf(rows, s), WalkOf(rows + later, s);
      a.Walked? && b.Walked? ==> a.result.folds <= b.result.folds && a.result.trades <= b.result.trades
  {
    hide Folds, FoldCount, MetricsOf;
    if rows != [] && WalkOf(rows, s).Walked? && WalkOf(rows + later, s).Walked? {
      OrderedAppends(rows, later);
      OrderedSize(rows);
      hide Ordered;
      var a, b := Ordered(rows), Ordered(later);
      CountGrows(s.wf, |a|, |a + b|);
      FoldsIgnoreLater(a, b, s, FoldCount(s.wf, |a|));
      FoldsGrow(a + b, s, FoldCount(s.wf, |a|), FoldCount(s.wf, |a + b|));
    }
  }

  // ---- Out-of-sample trades ----

  /** Every entry lies in the trading window. */
  ghost predicate EntriesInWindow(rules: Rules, rows: seq<HistoricalBar>, t: Track) {
    && (forall i | 0 <= i < |t.fills| ::
          t.fills[i].holding.entryIdx < |rows| && InWindow(rules.window, rows[t.fills[i].holding.entryIdx].openTimeMs))
    && (t.position.Some? ==>
          t.position.value.entryIdx < |rows| && InWindow(rules.window, rows[t.position.value.entryIdx].openTimeMs))
  }

  lemma {:induction false} EntriesStayInWindow(rules: Rules, symbol: string, rows: seq<HistoricalBar>, k: nat)
    requires k <= |rows|
    ensures EntriesInWindow(rules, rows, TrackAt(rules, symbol, rows, k))
  {
    hide OnBar, EntriesInWindow;
    if k == 0 {
      StartInWindow(rules, symbol, rows);
    } else {
      EntriesStayInWindow(rules, symbol, rows, k - 1);
      BarKeepsInWindow(rules, rows, k - 1, k == |rows|, TrackAt(rules, symbol, rows, k - 1));
    }
  }

  lemma StartInWindow(rules: Rules, symbol: string, rows: seq<HistoricalBar>)
    ensures EntriesInWindow(rules, rows, Start(symbol))
  {
  }

  lemma BarKeepsInWindow(rules: Rules, rows: seq<HistoricalBar>, idx: nat, last: bool, t: Track)
    requires idx < |rows| && EntriesInWindow(rules, rows, t)
    ensures EntriesInWindow(rules, rows, OnBar(rules, rows[idx], idx, last, t))
  {
    hide Observe, InvalidBeforeEntry, ExitOf, InWindow;
  }

  datatype Span = Span(entry: nat, exit: nat)

  /** The trade was entered at the open of one bar and left at the close of another. */
  predicate Spans(rows: seq<HistoricalBar>, span: Span, t: SimulatedTrade) {
    && span.entry <= span.exit < |rows|
    && t.entryTimeMs == rows[span.entry].openTimeMs && t.exitTimeMs == rows[span.exit].closeTimeMs
  }

  /** One span for each trade, in order, none overlapping, all within the bars from `lo` to before `hi`. */
  ghost predicate Laid(rows: seq<HistoricalBar>, spans: seq<Span>, ts: seq<SimulatedTrade>, lo: int, hi: int) {
    && |spans| == |ts|
    && (forall i | 0 <= i < |ts| :: Spans(rows, spans[i], ts[i]) && lo <= spans[i].entry && spans[i].exit < hi)
    && (forall i, j | 0 <= i < j < |spans| :: spans[i].exit < spans[j].entry)
  }

  /** A fill within `n` bars that was entered in the window. */
  ghost predicate FillIn(rules: Rules, rows: seq<HistoricalBar>, f: Fill) {
    f.holding.entryIdx <= f.exitIdx < |rows| && InWindow(rules.window, rows[f.holding.entryIdx].openTimeMs)
  }

  lemma FillsAreIn(rules: Rules, symbol: string, rows: seq<HistoricalBar>)
    requires rows != []
    ensures forall i | 0 <= i < |AllFills(rules, symbol, rows)| :: FillIn(rules, rows, AllFills(rules, symbol, rows)[i])
    ensures Disjoint(AllFills(rules, symbol, rows))
  {
    AllFillsOk(rules, symbol, rows);
    EntriesStayInWindow(rules, symbol, rows, |rows|);
    hide TrackAt, InWindow, Disjoint;
    var fills := AllFills(rules, symbol, rows);
    forall i | 0 <= i < |fills| ensures FillIn(rules, rows, fills[i]) {
      assert FillOk(rules, |rows|, fills[i]);
    }
  }

  /** Ordered, non-empty rows: what a successful run over them returns. */
  lemma RunOverOrdered(rows: seq<HistoricalBar>, cfg: BacktestConfig, evaluate: SymbolState -> Signal,
                       funding: seq<FundingPoint>, window: Window)
    requires rows != [] && Sorting.Ascending(rows, OpenTime) && OutcomeOf(rows, cfg, evaluate, funding, window).Ran?
    ensures
      var fills := AllFills(RulesOf(cfg, evaluate, window), rows[0].symbol, rows);
      && AllPriceable(rows, cfg, fills)
      && OutcomeOf(rows, cfg, evaluate, funding, window).result.trades
        == Priced(rows[0].symbol, rows, cfg, funding, fills)
      && forall i | 0 < i < |rows| :: rows[i - 1].openTimeMs < rows[i].openTimeMs
  {
    hide Sorting.SortBy, AllFills, AllPriceable, Priced, MetricsOf, DataFault, TrackAt;
    Sorting.SortOfAscending(rows, OpenTime);
    NoFaultIncreasing(rows, cfg.requireBook);
  }

  lemma NoFaultIncreasing(rows: seq<HistoricalBar>, requireBook: bool)
    requires rows != []
    ensures DataFault(rows, requireBook).None? ==> forall i | 0 < i < |rows| ::
              rows[i - 1].openTimeMs < rows[i].openTimeMs
  {
  }

  /** In strictly ordered bars an earlier bar opens strictly earlier. */
  lemma OpensBefore(rows: seq<HistoricalBar>, from: nat, to: nat, lo: nat, e: nat)
    requires Sorting.Ascending(rows, OpenTime) && from < to <= |rows| && from + e < lo < to
    requires forall i | 0 < i < to - from :: rows[from..to][i - 1].openTimeMs < rows[from..to][i].openTimeMs
    ensures rows[from + e].openTimeMs < rows[lo].openTimeMs
  {
    assert rows[from..to][e + 1] == rows[from + e + 1]
        && rows[from..to][(e + 1) - 1].openTimeMs < rows[from..to][e + 1].openTimeMs;
    assert OpenTime(rows[from + e + 1]) <= OpenTime(rows[lo]);
  }

  lemma FillIsLaid(rows: seq<HistoricalBar>, from: nat, to: nat, lo: nat, rules: Rules, symbol: string,
                   cfg: BacktestConfig,
                   funding: seq<FundingPoint>, f: Fill)
    requires Sorting.Ascending(rows, OpenTime) && from < to <= |rows| && lo < to
    requires forall i | 0 < i < to - from :: rows[from..to][i - 1].openTimeMs < rows[from..to][i].openTimeMs
    requires rules.window.start == Some(rows[lo].openTimeMs)
    requires FillPriceable(rows[from..to], cfg, f) && FillIn(rules, rows[from..to], f)
    ensures Spans(rows, Span(from + f.holding.entryIdx, from + f.exitIdx),
                  TradeOf(symbol, rows[from..to], cfg, funding, f))
    ensures lo <= from + f.holding.entryIdx && from + f.exitIdx < to
  {
    var e := f.holding.entryIdx;
    assert rows[from..to][e] == rows[from + e] && rows[from..to][f.exitIdx] == rows[from + f.exitIdx];
    if from + e < lo {
      OpensBefore(rows, from, to, lo, e);
      assert false;
    }
    hide PnlOf, FundingCost;
  }

  /** The trades of a run over a stretch of ordered bars, located in all of them. */
  lemma RunIsLaid(rows: seq<HistoricalBar>, from: nat, to: nat, lo: nat, cfg: BacktestConfig,
                  evaluate: SymbolState -> Signal,
                  funding: seq<FundingPoint>, window: Window) returns (spans: seq<Span>)
    requires Sorting.Ascending(rows, OpenTime) && from < to <= |rows| && lo < to
    requires window.start == Some(rows[lo].openTimeMs)
    requires OutcomeOf(rows[from..to], cfg, evaluate, funding, window).Ran?
    ensures Laid(rows, spans, OutcomeOf(rows[from..to], cfg, evaluate, funding, window).result.trades, lo, to)
  {
    hide OutcomeOf, AllFills, TradeOf, FillPriceable, Spans, FillIn, DataFault, Priced;
    var ctx := rows[from..to];
    var symbol, rules := ctx[0].symbol, RulesOf(cfg, evaluate, window);
    RunOverOrdered(ctx, cfg, evaluate, funding, window);
    FillsAreIn(rules, symbol, ctx);
    var fills := AllFills(rules, symbol, ctx);
    var ts := Priced(symbol, ctx, cfg, funding, fills);
    spans := seq(|fills|, i requires 0 <= i < |fills| => Span(from + fills[i].holding.entryIdx,
                                                              from + fills[i].exitIdx));
    forall i | 0 <= i < |ts| ensures Spans(rows, spans[i], ts[i]) && lo <= spans[i].entry && spans[i].exit < to {
      assert FillIn(rules, ctx, fills[i]) && FillPriceable(ctx, cfg, fills[i]);
      FillIsLaid(rows, from, to, lo, rules, symbol, cfg, funding, fills[i]);
    }
  }

  /** The out-of-sample trades of one fold lie inside its test bars. */
  lemma FoldIsLaid(rows: seq<HistoricalBar>, s: Setting, start: nat, number: nat) returns (spans: seq<Span>)
    requires Sorting.Ascending(rows, OpenTime) && FoldFits(s.wf, |rows|, start)
    ensures
      var run := RunFold(rows, s, start, number);
      run.FoldRan? ==> Laid(rows, spans, run.trades, start + s.wf.trainBars, start + s.wf.trainBars + s.wf.testBars)
  {
    hide OutcomeOf, Train, Best, Spans;
    spans := [];
    var from, mid, to := ContextStart(s.wf, start), start + s.wf.trainBars, start + s.wf.trainBars + s.wf.testBars;
    if RunFold(rows, s, start, number).FoldRan? && TrainingOf(rows, s, start).ranked != [] {
      var best := Best(TrainingOf(rows, s, start).ranked);
      if from < to {
        spans := RunIsLaid(rows, from, to, mid, s.cfg, s.candidates[best.index], s.funding,
                           TestWindow(rows, s.wf, start));
      } else {
        EmptyRun(s.cfg, s.candidates[best.index], s.funding, TestWindow(rows, s.wf, start));
      }
    }
  }

  lemma EmptyRun(cfg: BacktestConfig, evaluate: SymbolState -> Signal, funding: seq<FundingPoint>, window: Window)
    ensures OutcomeOf([], cfg, evaluate, funding, window).Ran? ==>
              OutcomeOf([], cfg, evaluate, funding, window).result.trades == []
  {
  }

  lemma LaidJoins(rows: seq<HistoricalBar>, a: seq<Span>, x: seq<SimulatedTrade>, b: seq<Span>, y: seq<SimulatedTrade>,
                  lo: int, mid: int, mid2: int, hi: int)
    requires Laid(rows, a, x, lo, mid) && Laid(rows, b, y, mid2, hi) && mid <= mid2 && lo <= mid2 && mid <= hi
    ensures Laid(rows, a + b, x + y, lo, hi)
  {
    hide Spans;
  }

  lemma {:induction false} FoldsAreLaid(rows: seq<HistoricalBar>, s: Setting, k: nat) returns (spans: seq<Span>)
    requires Sorting.Ascending(rows, OpenTime)
    requires ValidSizes(s.wf) && s.wf.stepBars >= s.wf.testBars && k <= FoldCount(s.wf, |rows|)
             && Folds(rows, s, k).Walk?
    ensures Laid(rows, spans, Folds(rows, s, k).trades, s.wf.trainBars, TestEnd(s.wf, k))
  {
    hide RunFold, FoldCount, Spans;
    spans := [];
    if k > 0 {
      FoldsFit(s.wf, |rows|, k - 1);
      var front := FoldsAreLaid(rows, s, k - 1);
      var last := FoldIsLaid(rows, s, StartOf(s.wf, k - 1), k - 1);
      spans := front + last;
      EndsGrow(s.wf, k);
      var t := StartOf(s.wf, k - 1) + s.wf.trainBars;
      LaidJoins(rows, front, Folds(rows, s, k - 1).trades, last, RunFold(rows, s, StartOf(s.wf, k - 1), k - 1).trades,
                s.wf.trainBars, TestEnd(s.wf, k - 1), t, t + s.wf.testBars);
    }
  }

  /** Where the test bars of the first `k` folds end. */
  function TestEnd(wf: WalkForwardConfig, k: nat): int
    requires ValidSizes(wf)
  {
    if k == 0 then wf.trainBars else StartOf(wf, k - 1) + wf.trainBars + wf.testBars
  }

  lemma EndsGrow(wf: WalkForwardConfig, k: nat)
    requires ValidSizes(wf) && wf.stepBars >= wf.testBars && k > 0
    ensures StartOf(wf, k - 1) >= 0 && TestEnd(wf, k - 1) <= StartOf(wf, k - 1) + wf.trainBars
    ensures TestEnd(wf, k) == StartOf(wf, k - 1) + wf.trainBars + wf.testBars
  {
    if k > 1 {
      NextStart(wf, k - 2);
    }
  }

  /** With a step of at least the test size, the out-of-sample trades of a whole walk never overlap and lie
      within test bars. */
  lemma OutOfSampleDisjoint(rows: seq<HistoricalBar>, s: Setting) returns (spans: seq<Span>)
    requires s.wf.stepBars >= s.wf.testBars
    ensures WalkOf(rows, s).Walked? ==>
              Laid(Ordered(rows), spans, WalkOf(rows, s).result.trades, s.wf.trainBars, |rows|)
  {
    hide Folds, FoldCount, MetricsOf, Spans;
    spans := [];
    if rows != [] && WalkOf(rows, s).Walked? {
      Sorting.SortAscending(rows, OpenTime);
      OrderedSize(rows);
      var ordered := Ordered(rows);
      hide Ordered;
      var count := FoldCount(s.wf, |ordered|);
      spans := FoldsAreLaid(ordered, s, count);
      if count > 0 {
        FoldsFit(s.wf, |ordered|, count - 1);
      }
      LaidWithin(ordered, spans, Folds(ordered, s, count).trades, s.wf.trainBars, TestEnd(s.wf, count), |rows|);
    }
  }

  lemma LaidWithin(rows: seq<HistoricalBar>, spans: seq<Span>, ts: seq<SimulatedTrade>, lo: int, hi: int, end: int)
    requires Laid(rows, spans, ts, lo, hi) && end == |rows|
    ensures Laid(rows, spans, ts, lo, end)
  {
  }
}
