/** What a walk reports, fold by fold, in terms of backtests of its candidates on given bars. */
module WalkForwardFolds {
  import opened Models
  import opened Market
  import opened Signals
  import opened History
  import opened Backtest
  import opened Metrics
  import opened BacktestRun
  import opened WalkForward
  import opened WalkForwardProofs
  import Prices = BacktestPrices
  import Sorting

  /** A candidate's backtest on the training bars, without any restriction on entries. */
  function OnTrainingBars(rows: seq<HistoricalBar>, s: Setting, start: nat, i: nat): Outcome
    requires FoldFits(s.wf, |rows|, start) && i < |s.candidates|
  {
    OutcomeOf(rows[start..start + s.wf.trainBars], s.cfg, s.candidates[i], s.funding, Window(None, None))
  }

  /** The bars a fold is judged on: the last training bars, as many as the warm-up asks for and there are, and the test
      bars. A negative warm-up drops test bars instead. */
  function JudgedOn(rows: seq<HistoricalBar>, wf: WalkForwardConfig, start: nat): seq<HistoricalBar>
    requires FoldFits(wf, |rows|, start)
  {
    var mid, end := start + wf.trainBars, start + wf.trainBars + wf.testBars;
    if wf.warmupBars >= wf.trainBars then rows[start..end]
    else if wf.warmupBars > -wf.testBars then rows[mid - wf.warmupBars..end]
    else []
  }

  /** A candidate's backtest there, entries allowed from the first test open to the last test close. */
  function OnTestBars(rows: seq<HistoricalBar>, s: Setting, start: nat, i: nat): Outcome
    requires FoldFits(s.wf, |rows|, start) && i < |s.candidates|
  {
    var mid, end := start + s.wf.trainBars, start + s.wf.trainBars + s.wf.testBars;
    OutcomeOf(JudgedOn(rows, s.wf, start), s.cfg, s.candidates[i], s.funding,
              Window(Some(rows[mid].openTimeMs), Some(rows[end - 1].closeTimeMs + 1)))
  }

  lemma JudgedOnMeans(rows: seq<HistoricalBar>, wf: WalkForwardConfig, start: nat)
    requires FoldFits(wf, |rows|, start)
    ensures Context(rows, wf, start) == JudgedOn(rows, wf, start)
  {
  }

  lemma BestOfRanked(train: seq<HistoricalBar>, s: Setting)
    requires Train(train, s, |s.candidates|).Trained? && Train(train, s, |s.candidates|).ranked != []
    ensures
      var best := Best(Train(train, s, |s.candidates|).ranked);
      && best.index < |s.candidates| && OnTraining(train, s, best.index).Ran?
      && best.metrics == OnTraining(train, s, best.index).result.metrics
  {
    RankedAreQualified(train, s, |s.candidates|);
    hide OnTraining, Best, Train;
    assert Best(Train(train, s, |s.candidates|).ranked) in Train(train, s, |s.candidates|).ranked;
  }

  lemma TrainingMeans(rows: seq<HistoricalBar>, s: Setting, start: nat, i: nat)
    requires FoldFits(s.wf, |rows|, start) && i < |s.candidates|
    ensures OnTraining(rows[start..start + s.wf.trainBars], s, i) == OnTrainingBars(rows, s, start, i)
  {
    hide OutcomeOf;
  }

  lemma JudgingMeans(rows: seq<HistoricalBar>, s: Setting, start: nat, i: nat)
    requires FoldFits(s.wf, |rows|, start) && i < |s.candidates|
    ensures Judge(rows, s, start, i) == OnTestBars(rows, s, start, i)
  {
    hide OutcomeOf, Context, JudgedOn;
    JudgedOnMeans(rows, s.wf, start);
    var mid, end := start + s.wf.trainBars, start + s.wf.trainBars + s.wf.testBars;
    assert TestWindow(rows, s.wf, start) == Window(Some(rows[mid].openTimeMs), Some(rows[end - 1].closeTimeMs + 1));
    hide TestWindow;
  }

  /** A fold names its bars. */
  lemma FoldNames(rows: seq<HistoricalBar>, s: Setting, start: nat, number: nat)
    requires FoldFits(s.wf, |rows|, start) && RunFold(rows, s, start, number).FoldRan?
    ensures
      var f, mid, end := RunFold(rows, s, start, number).fold, start + s.wf.trainBars,
                         start + s.wf.trainBars + s.wf.testBars;
      && f.number == number
      && f.trainStartMs == rows[start].openTimeMs && f.trainEndMs == rows[mid - 1].closeTimeMs
      && f.testStartMs == rows[mid].openTimeMs && f.testEndMs == rows[end - 1].closeTimeMs
  {
    hide TrainingOf, Judge, Best;
  }

  /** It reports the training metrics, the test metrics and the trades of the very candidate it selected; without a
      selection it reports none. */
  lemma FoldReports(rows: seq<HistoricalBar>, s: Setting, start: nat, number: nat)
    requires FoldFits(s.wf, |rows|, start) && RunFold(rows, s, start, number).FoldRan?
    ensures
      var run := RunFold(rows, s, start, number);
      var f := run.fold;
      && (f.selected.None? ==> f.trainMetrics.None? && f.testMetrics.None? && run.trades == [])
      && (f.selected.Some? ==>
            var i := f.selected.value;
            && i < |s.candidates|
            && OnTrainingBars(rows, s, start, i).Ran? && OnTestBars(rows, s, start, i).Ran?
            && f.trainMetrics == Some(OnTrainingBars(rows, s, start, i).result.metrics)
            && f.testMetrics == Some(OnTestBars(rows, s, start, i).result.metrics)
            && run.trades == OnTestBars(rows, s, start, i).result.trades)
  {
    NothingSelected(rows, s, start, number);
    hide RunFold, TrainingOf, Best, Judge, OnTrainingBars, OnTestBars;
    if TrainingOf(rows, s, start).ranked != [] {
      BestSelected(rows, s, start, number);
      BestTrained(rows, s, start);
      JudgingMeans(rows, s, start, Best(TrainingOf(rows, s, start).ranked).index);
    }
  }

  lemma BestTrained(rows: seq<HistoricalBar>, s: Setting, start: nat)
    requires FoldFits(s.wf, |rows|, start)
    requires TrainingOf(rows, s, start).Trained? && TrainingOf(rows, s, start).ranked != []
    ensures
      var best := Best(TrainingOf(rows, s, start).ranked);
      && best.index < |s.candidates| && OnTrainingBars(rows, s, start, best.index).Ran?
      && best.metrics == OnTrainingBars(rows, s, start, best.index).result.metrics
  {
    hide Train, Best, OnTraining, OnTrainingBars, Qualifies;
    BestOfRanked(rows[start..start + s.wf.trainBars], s);
    TrainingMeans(rows, s, start, Best(TrainingOf(rows, s, start).ranked).index);
  }

  lemma NothingSelected(rows: seq<HistoricalBar>, s: Setting, start: nat, number: nat)
    requires FoldFits(s.wf, |rows|, start) && RunFold(rows, s, start, number).FoldRan?
    ensures TrainingOf(rows, s, start).Trained?
    ensures
      var run := RunFold(rows, s, start, number);
      TrainingOf(rows, s, start).ranked == [] ==>
        run.fold.selected.None? && run.fold.trainMetrics.None? && run.fold.testMetrics.None? && run.trades == []
  {
    hide TrainingOf, Judge, Best, FoldHeader;
    EmptyHeader(rows, s.wf, start, number);
  }

  lemma BestSelected(rows: seq<HistoricalBar>, s: Setting, start: nat, number: nat)
    requires FoldFits(s.wf, |rows|, start) && RunFold(rows, s, start, number).FoldRan?
    requires TrainingOf(rows, s, start).Trained? && TrainingOf(rows, s, start).ranked != []
    ensures
      var run, best := RunFold(rows, s, start, number), Best(TrainingOf(rows, s, start).ranked);
      && best.index < |s.candidates| && Judge(rows, s, start, best.index).Ran?
      && run.fold.selected == Some(best.index) && run.fold.trainMetrics == Some(best.metrics)
      && run.fold.testMetrics == Some(Judge(rows, s, start, best.index).result.metrics)
      && run.trades == Judge(rows, s, start, best.index).result.trades
  {
    hide Judge, Best, FoldHeader, Train;
  }

  lemma EmptyHeader(rows: seq<HistoricalBar>, wf: WalkForwardConfig, start: nat, number: nat)
    requires FoldFits(wf, |rows|, start)
    ensures
      var f := FoldHeader(rows, wf, start, number);
      f.selected.None? && f.trainMetrics.None? && f.testMetrics.None?
  {
  }

  /** The candidate ran on the training bars and made enough trades there. */
  predicate EnoughTrades(rows: seq<HistoricalBar>, s: Setting, start: nat, i: nat)
    requires FoldFits(s.wf, |rows|, start) && i < |s.candidates|
  {
    && OnTrainingBars(rows, s, start, i).Ran?
    && OnTrainingBars(rows, s, start, i).result.metrics.trades >= s.wf.minTrainTrades
  }

  /** Candidate `j` is no better than candidate `i`: a lower expectancy, or the same with a lower net, or the same again
      and it does not come later. */
  predicate NoBetter(j: nat, m: BacktestMetrics, i: nat, best: BacktestMetrics) {
    || m.expectancy < best.expectancy
    || (m.expectancy == best.expectancy && (m.netPnl < best.netPnl || (m.netPnl == best.netPnl && j <= i)))
  }

  /** A fold selects the best of the candidates with enough training trades, and none exactly when there is none. */
  lemma FoldSelects(rows: seq<HistoricalBar>, s: Setting, start: nat, number: nat)
    requires FoldFits(s.wf, |rows|, start) && RunFold(rows, s, start, number).FoldRan?
    ensures
      var chosen := RunFold(rows, s, start, number).fold.selected;
      && (chosen.None? <==> forall j | 0 <= j < |s.candidates| :: !EnoughTrades(rows, s, start, j))
      && (chosen.Some? ==>
            var i := chosen.value;
            && i < |s.candidates| && EnoughTrades(rows, s, start, i)
            && forall j | 0 <= j < |s.candidates| && EnoughTrades(rows, s, start, j) ::
                 NoBetter(j, OnTrainingBars(rows, s, start, j).result.metrics,
                          i, OnTrainingBars(rows, s, start, i).result.metrics))
  {
    SelectionIsMaximal(rows, s, start, number);
    var train := rows[start..start + s.wf.trainBars];
    forall j | 0 <= j < |s.candidates|
      ensures Qualifies(train, s, j) <==> EnoughTrades(rows, s, start, j)
    {
      TrainingMeans(rows, s, start, j);
      hide OnTraining, OnTrainingBars;
    }
    hide Qualifies, EnoughTrades, OnTrainingBars, RunFold, Beats, RankOf, ValidSizes, NoBetter;
    var chosen := RunFold(rows, s, start, number).fold.selected;
    if chosen.Some? {
      var i := chosen.value;
      forall j | 0 <= j < |s.candidates| && EnoughTrades(rows, s, start, j)
        ensures NoBetter(j, OnTrainingBars(rows, s, start, j).result.metrics,
                         i, OnTrainingBars(rows, s, start, i).result.metrics)
      {
        NotBeaten(rows, s, start, j, i);
      }
    }
  }

  lemma NotBeaten(rows: seq<HistoricalBar>, s: Setting, start: nat, j: nat, i: nat)
    requires FoldFits(s.wf, |rows|, start) && i < |s.candidates| && j < |s.candidates|
    requires EnoughTrades(rows, s, start, i) && EnoughTrades(rows, s, start, j)
    requires
      var train := rows[start..start + s.wf.trainBars];
      && Qualifies(train, s, i) && Qualifies(train, s, j)
      && !Beats(RankOf(train, s, j), RankOf(train, s, i))
    ensures NoBetter(j, OnTrainingBars(rows, s, start, j).result.metrics,
                     i, OnTrainingBars(rows, s, start, i).result.metrics)
  {
    TrainingMeans(rows, s, start, j);
    TrainingMeans(rows, s, start, i);
    hide OnTraining, OnTrainingBars;
  }

  /** The rules a candidate is judged by: entries from the first test open to the last test close. */
  function TestRules(rows: seq<HistoricalBar>, s: Setting, start: nat, i: nat): Rules
    requires FoldFits(s.wf, |rows|, start) && i < |s.candidates|
  {
    var mid, end := start + s.wf.trainBars, start + s.wf.trainBars + s.wf.testBars;
    Rules(s.cfg.maxHoldingBars, Window(Some(rows[mid].openTimeMs), Some(rows[end - 1].closeTimeMs + 1)),
          s.candidates[i])
  }

  function TestFills(rows: seq<HistoricalBar>, s: Setting, start: nat, i: nat): seq<Fill>
    requires FoldFits(s.wf, |rows|, start) && i < |s.candidates| && JudgedOn(rows, s.wf, start) != []
  {
    var bars := JudgedOn(rows, s.wf, start);
    AllFills(TestRules(rows, s, start, i), bars[0].symbol, bars)
  }

  /** On ordered bars the trades of a candidate's test are the priced positions of the bars it is judged on. */
  lemma TestTrades(rows: seq<HistoricalBar>, s: Setting, start: nat, i: nat)
    requires FoldFits(s.wf, |rows|, start) && i < |s.candidates| && Sorting.Ascending(rows, OpenTime)
    requires OnTestBars(rows, s, start, i).Ran? && JudgedOn(rows, s.wf, start) != []
    ensures
      var bars, fills := JudgedOn(rows, s.wf, start), TestFills(rows, s, start, i);
      && AllPriceable(bars, s.cfg, fills)
      && OnTestBars(rows, s, start, i).result.trades == Priced(bars[0].symbol, bars, s.cfg, s.funding, fills)
  {
    hide OutcomeOf, AllFills, AllPriceable, Priced, JudgedOn, Sorting.Ascending;
    StretchAscending(rows, s.wf, start);
    OrderedRun(JudgedOn(rows, s.wf, start), s.cfg, s.candidates[i], s.funding, TestRules(rows, s, start, i));
  }

  lemma OrderedRun(bars: seq<HistoricalBar>, cfg: BacktestConfig, evaluate: SymbolState -> Signal,
                   funding: seq<FundingPoint>, rules: Rules)
    requires bars != [] && Sorting.Ascending(bars, OpenTime)
    requires rules == Rules(cfg.maxHoldingBars, rules.window, evaluate)
    requires OutcomeOf(bars, cfg, evaluate, funding, rules.window).Ran?
    ensures AllPriceable(bars, cfg, AllFills(rules, bars[0].symbol, bars))
    ensures OutcomeOf(bars, cfg, evaluate, funding, rules.window).result.trades
            == Priced(bars[0].symbol, bars, cfg, funding, AllFills(rules, bars[0].symbol, bars))
  {
    hide OutcomeOf, AllFills, AllPriceable, Priced, Sorting.Ascending;
    RunOverOrdered(bars, cfg, evaluate, funding, rules.window);
  }

  /** They are entered exactly where the signal of the bar before is taken while no other trade is on: it has a side,
      and its bar opens from the first test open to the last test close and clear of the invalidation. */
  lemma TestEntriesExact(rows: seq<HistoricalBar>, s: Setting, start: nat, i: nat, k: nat)
    requires FoldFits(s.wf, |rows|, start) && i < |s.candidates| && 0 < k < |JudgedOn(rows, s.wf, start)|
    ensures
      var bars, fills := JudgedOn(rows, s.wf, start), TestFills(rows, s, start, i);
      var mid, end := start + s.wf.trainBars, start + s.wf.trainBars + s.wf.testBars;
      var signal := s.candidates[i](TrackAt(TestRules(rows, s, start, i), bars[0].symbol, bars, k).state);
      (exists n :: 0 <= n < |fills| && fills[n].holding.entryIdx == k) <==>
        && !Prices.OnAcross(fills, k) && !signal.direction.PASS?
        && rows[mid].openTimeMs <= bars[k].openTimeMs <= rows[end - 1].closeTimeMs
        && Prices.OpensClear(signal, bars[k])
  {
    hide AllFills, TrackAt, Prices.OnAcross, Prices.OpensClear, JudgedOn;
    var bars := JudgedOn(rows, s.wf, start);
    Prices.EntriesExact(TestRules(rows, s, start, i), bars[0].symbol, bars, k);
  }

  lemma StretchAscending(rows: seq<HistoricalBar>, wf: WalkForwardConfig, start: nat)
    requires FoldFits(wf, |rows|, start) && Sorting.Ascending(rows, OpenTime)
    ensures Sorting.Ascending(JudgedOn(rows, wf, start), OpenTime)
  {
    var bars := JudgedOn(rows, wf, start);
    var from := if wf.warmupBars >= wf.trainBars then start else start + wf.trainBars - wf.warmupBars;
    forall i, j | 0 <= i < j < |bars| ensures OpenTime(bars[i]) <= OpenTime(bars[j]) {
      assert bars[i] == rows[from + i] && bars[j] == rows[from + j];
    }
  }

  // ---- The whole walk ----

  function Flattened(parts: seq<seq<SimulatedTrade>>): seq<SimulatedTrade> {
    if parts == [] then [] else Flattened(parts[..|parts| - 1]) + parts[|parts| - 1]
  }

  /** Folds start a step apart. */
  lemma StartsAreSteps(wf: WalkForwardConfig, k: nat)
    requires ValidSizes(wf)
    ensures StartOf(wf, 0) == 0 && StartOf(wf, k + 1) == StartOf(wf, k) + wf.stepBars
  {
  }

  /** The fold that starts after `k` steps. */
  function FoldAt(rows: seq<HistoricalBar>, s: Setting, k: nat): FoldRun
    requires ValidSizes(s.wf) && FoldFits(s.wf, |rows|, StartOf(s.wf, k))
  {
    RunFold(rows, s, StartOf(s.wf, k), k)
  }

  lemma {:induction false} FoldsInOrder(rows: seq<HistoricalBar>, s: Setting, n: nat)
    returns (parts: seq<seq<SimulatedTrade>>)
    requires ValidSizes(s.wf) && n <= FoldCount(s.wf, |rows|) && Folds(rows, s, n).Walk?
    ensures forall k: nat | k < n :: FoldFits(s.wf, |rows|, StartOf(s.wf, k)) && FoldAt(rows, s, k).FoldRan?
    ensures |Folds(rows, s, n).folds| == |parts| == n
    ensures forall k | 0 <= k < n ::
              Folds(rows, s, n).folds[k] == FoldAt(rows, s, k).fold && parts[k] == FoldAt(rows, s, k).trades
    ensures Folds(rows, s, n).trades == Flattened(parts)
  {
    hide RunFold, FoldCount;
    if n == 0 {
      parts := [];
    } else {
      FoldsFit(s.wf, |rows|, n - 1);
      var front := FoldsInOrder(rows, s, n - 1);
      parts := front + [FoldAt(rows, s, n - 1).trades];
      assert parts[..n - 1] == front;
    }
  }

  lemma WalkIsFolds(rows: seq<HistoricalBar>, s: Setting)
    requires rows != [] && WalkOf(rows, s).Walked?
    ensures
      var os := Ordered(rows);
      && ValidSizes(s.wf) && |os| == |rows| && os != []
      && var w := Folds(os, s, FoldCount(s.wf, |os|));
      && w.Walk?
      && WalkOf(rows, s).result
         == WalkResult(os[0].symbol, w.folds, w.trades, MetricsOf(w.trades, s.cfg.startingEquity))
  {
    OrderedSize(rows);
    hide Ordered, FoldCount, MetricsOf, Folds;
  }

  /** A walk that succeeds reports, over the rows in order, the fold of every step at which training and test bars still
      fit, the trades of these folds one after the other, and the metrics of all of them. */
  lemma WalkReports(rows: seq<HistoricalBar>, s: Setting) returns (parts: seq<seq<SimulatedTrade>>)
    requires rows != [] && WalkOf(rows, s).Walked?
    ensures
      var r, os := WalkOf(rows, s).result, Ordered(rows);
      && ValidSizes(s.wf) && |os| == |rows| && os != []
      && (forall k: nat :: StartOf(s.wf, k) + s.wf.trainBars + s.wf.testBars <= |rows| <==> k < |r.folds|)
      && (forall k: nat | k < |r.folds| ::
            && FoldFits(s.wf, |os|, StartOf(s.wf, k)) && FoldAt(os, s, k).FoldRan?
            && r.folds[k] == FoldAt(os, s, k).fold)
      && |parts| == |r.folds|
      && (forall k: nat | k < |r.folds| ::
            FoldFits(s.wf, |os|, StartOf(s.wf, k)) && parts[k] == FoldAt(os, s, k).trades)
      && r.trades == Flattened(parts) && r.metrics == MetricsOf(r.trades, s.cfg.startingEquity)
      && r.symbol == os[0].symbol
  {
    WalkIsFolds(rows, s);
    var os := Ordered(rows);
    hide WalkOf, Ordered, FoldAt, FoldCount, Flattened, MetricsOf, Folds, StartOf;
    var n := FoldCount(s.wf, |os|);
    parts := FoldsInOrder(os, s, n);
    forall k: nat ensures StartOf(s.wf, k) + s.wf.trainBars + s.wf.testBars <= |rows| <==> k < n {
      FoldsFit(s.wf, |os|, k);
    }
  }

  /** When a walk is refused before any fold: without candidates, and, given rows, with a size that is not positive. */
  lemma WalkRefused(rows: seq<HistoricalBar>, s: Setting)
    ensures WalkOf(rows, s) == WalkFailed(NoCandidates) <==> s.candidates == []
    ensures WalkOf(rows, s) == WalkFailed(BadWindowSizes) <==>
              && s.candidates != [] && rows != []
              && (s.wf.trainBars <= 0 || s.wf.testBars <= 0 || s.wf.stepBars <= 0)
    ensures s.candidates != [] && rows == [] ==>
              WalkOf(rows, s) == Walked(WalkResult("", [], [], MetricsOf([], s.cfg.startingEquity)))
  {
    hide Ordered, Folds, MetricsOf;
  }
}
