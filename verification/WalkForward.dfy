/** Rolling selection of a candidate on training bars, judged on the bars right after them. */
module WalkForward {
  import opened Models
  import opened Market
  import opened Signals
  import opened History
  import opened Backtest
  import opened Metrics
  import opened BacktestRun

  datatype WalkForwardConfig = WalkForwardConfig(
    trainBars: int,
    testBars: int,
    stepBars: int,
    warmupBars: int,
    minTrainTrades: int)

  datatype Fold = Fold(
    number: nat,
    trainStartMs: int,
    trainEndMs: int,
    testStartMs: int,
    testEndMs: int,
    selected: Option<nat>,
    trainMetrics: Option<BacktestMetrics>,
    testMetrics: Option<BacktestMetrics>)

  datatype WalkResult = WalkResult(symbol: string, folds: seq<Fold>, trades: seq<SimulatedTrade>,
                                   metrics: BacktestMetrics)

  datatype WalkFault = NoCandidates | BadWindowSizes | BacktestRaised(fault: BacktestFault)

  datatype WalkOutcome = Walked(result: WalkResult) | WalkFailed(fault: WalkFault)

  type Candidate = SymbolState -> Signal

  /** Everything a walk is given besides the bars. */
  datatype Setting = Setting(candidates: seq<Candidate>, cfg: BacktestConfig, wf: WalkForwardConfig,
                             funding: seq<FundingPoint>)

  predicate ValidSizes(wf: WalkForwardConfig) {
    wf.trainBars > 0 && wf.testBars > 0 && wf.stepBars > 0
  }

  const ANYTIME := Window(None, None)

  // ---- Selection ----

  datatype Ranked = Ranked(expectancy: real, net: real, index: nat, metrics: BacktestMetrics)

  /** Higher expectancy first, then higher net, then the later candidate. */
  predicate Beats(a: Ranked, b: Ranked) {
    || a.expectancy > b.expectancy
    || (a.expectancy == b.expectancy && (a.net > b.net || (a.net == b.net && a.index > b.index)))
  }

  datatype Training = Trained(ranked: seq<Ranked>) | TrainingRaised(fault: BacktestFault)

  /** The first `n` candidates on the training bars, those with enough trades ranked. */
  function Train(train: seq<HistoricalBar>, s: Setting, n: nat): (t: Training)
    requires n <= |s.candidates|
    ensures t.Trained? ==> forall i | 0 <= i < |t.ranked| :: t.ranked[i].index < n
  {
    if n == 0 then Trained([])
    else
      var front := Train(train, s, n - 1);
      if front.TrainingRaised? then front
      else
        var o := OutcomeOf(train, s.cfg, s.candidates[n - 1], s.funding, ANYTIME);
        if o.Raised? then TrainingRaised(o.fault)
        else if o.result.metrics.trades < s.wf.minTrainTrades then front
        else Trained(front.ranked
                     + [Ranked(o.result.metrics.expectancy, o.result.metrics.netPnl, n - 1, o.result.metrics)])
  }

  function Best(ranked: seq<Ranked>): (r: Ranked)
    requires ranked != []
    ensures r in ranked
  {
    if |ranked| == 1 then ranked[0]
    else
      var best, last := Best(ranked[..|ranked| - 1]), ranked[|ranked| - 1];
      if Beats(last, best) then last else best
  }

  // ---- One fold ----

  function Slice(rows: seq<HistoricalBar>, from: nat, to: nat): seq<HistoricalBar>
    requires to <= |rows|
  {
    if from >= to then [] else rows[from..to]
  }

  datatype FoldRun = FoldRan(fold: Fold, trades: seq<SimulatedTrade>) | FoldRaised(fault: BacktestFault)

  predicate FoldFits(wf: WalkForwardConfig, size: nat, start: nat) {
    ValidSizes(wf) && start + wf.trainBars + wf.testBars <= size
  }

  /** The bars an out-of-sample run sees: some warm-up from the training bars, then the test bars. */
  function Context(rows: seq<HistoricalBar>, wf: WalkForwardConfig, start: nat): seq<HistoricalBar>
    requires FoldFits(wf, |rows|, start)
  {
    Slice(rows, ContextStart(wf, start), start + wf.trainBars + wf.testBars)
  }

  function ContextStart(wf: WalkForwardConfig, start: nat): nat {
    var early := start + wf.trainBars - wf.warmupBars;
    if early > start then early else start
  }

  function TestWindow(rows: seq<HistoricalBar>, wf: WalkForwardConfig, start: nat): Window
    requires FoldFits(wf, |rows|, start)
  {
    Window(Some(rows[start + wf.trainBars].openTimeMs),
           Some(rows[start + wf.trainBars + wf.testBars - 1].closeTimeMs + 1))
  }

  function TrainingOf(rows: seq<HistoricalBar>, s: Setting, start: nat): Training
    requires FoldFits(s.wf, |rows|, start)
  {
    Train(rows[start..start + s.wf.trainBars], s, |s.candidates|)
  }

  function FoldHeader(rows: seq<HistoricalBar>, wf: WalkForwardConfig, start: nat, number: nat): Fold
    requires FoldFits(wf, |rows|, start)
  {
    Fold(number, rows[start].openTimeMs, rows[start + wf.trainBars - 1].closeTimeMs,
         rows[start + wf.trainBars].openTimeMs, rows[start + wf.trainBars + wf.testBars - 1].closeTimeMs,
         None, None, None)
  }

  /** What the selected candidate does on the test bars. */
  function Judge(rows: seq<HistoricalBar>, s: Setting, start: nat, index: nat): Outcome
    requires FoldFits(s.wf, |rows|, start) && index < |s.candidates|
  {
    OutcomeOf(Context(rows, s.wf, start), s.cfg, s.candidates[index], s.funding, TestWindow(rows, s.wf, start))
  }

  function RunFold(rows: seq<HistoricalBar>, s: Setting, start: nat, number: nat): FoldRun
    requires FoldFits(s.wf, |rows|, start)
  {
    var training := TrainingOf(rows, s, start);
    var header := FoldHeader(rows, s.wf, start, number);
    if training.TrainingRaised? then FoldRaised(training.fault)
    else if training.ranked == [] then FoldRan(header, [])
    else
      var best := Best(training.ranked);
      var o := Judge(rows, s, start, best.index);
      if o.Raised? then FoldRaised(o.fault)
      else FoldRan(header.(selected := Some(best.index), trainMetrics := Some(best.metrics),
                           testMetrics := Some(o.result.metrics)),
                   o.result.trades)
  }

  // ---- All folds ----

  /** How many folds fit, in closed form. */
  function FoldCount(wf: WalkForwardConfig, size: nat): nat
    requires ValidSizes(wf)
  {
    if size < wf.trainBars + wf.testBars then 0 else (size - wf.trainBars - wf.testBars) / wf.stepBars + 1
  }

  datatype Walk = Walk(folds: seq<Fold>, trades: seq<SimulatedTrade>) | WalkRaised(fault: BacktestFault)

  function StartOf(wf: WalkForwardConfig, k: nat): nat
    requires ValidSizes(wf)
  {
    k * wf.stepBars
  }

  /** The first `k` folds. */
  function Folds(rows: seq<HistoricalBar>, s: Setting, k: nat): Walk
    requires ValidSizes(s.wf) && k <= FoldCount(s.wf, |rows|)
  {
    if k == 0 then Walk([], [])
    else
      var front := Folds(rows, s, k - 1);
      if front.WalkRaised? then front
      else
        assert FoldFits(s.wf, |rows|, StartOf(s.wf, k - 1)) by { FoldsFit(s.wf, |rows|, k - 1); }
        var f := RunFold(rows, s, StartOf(s.wf, k - 1), k - 1);
        if f.FoldRaised? then WalkRaised(f.fault) else Walk(front.folds + [f.fold], front.trades + f.trades)
  }

  /** The closed form counts exactly the starts at which a fold fits. */
  lemma FoldsFit(wf: WalkForwardConfig, size: nat, k: nat)
    requires ValidSizes(wf)
    ensures FoldFits(wf, size, StartOf(wf, k)) <==> k < FoldCount(wf, size)
  {
    if size >= wf.trainBars + wf.testBars {
      MultiplesUpTo(size - wf.trainBars - wf.testBars, wf.stepBars, k);
    }
  }

  lemma MultiplesUpTo(room: nat, step: nat, k: nat)
    requires step > 0
    ensures k * step <= room <==> k <= room / step
  {
    var q := room / step;
    assert q * step <= room < (q + 1) * step;
    if k <= q {
      assert k * step <= q * step;
    } else {
      assert k * step >= (q + 1) * step;
    }
  }

  function WalkOf(rows: seq<HistoricalBar>, s: Setting): WalkOutcome {
    if s.candidates == [] then WalkFailed(NoCandidates)
    else if rows == [] then Walked(WalkResult("", [], [], MetricsOf([], s.cfg.startingEquity)))
    else if !ValidSizes(s.wf) then WalkFailed(BadWindowSizes)
    else
      var ordered := Ordered(rows);
      var w := Folds(ordered, s, FoldCount(s.wf, |ordered|));
      if w.WalkRaised? then WalkFailed(BacktestRaised(w.fault))
      else Walked(WalkResult(ordered[0].symbol, w.folds, w.trades, MetricsOf(w.trades, s.cfg.startingEquity)))
  }

  // ---- The loops ----

  method RankCandidates(train: seq<HistoricalBar>, s: Setting) returns (training: Training)
    ensures training == Train(train, s, |s.candidates|)
  {
    hide OutcomeOf;
    var ranked: seq<Ranked> := [];
    for i := 0 to |s.candidates|
      invariant Train(train, s, i) == Trained(ranked)
    {
      var o := RunBacktest(train, s.cfg, s.candidates[i], s.funding, ANYTIME);
      if o.Raised? {
        RaisedStays(train, s, i + 1, |s.candidates|);
        return TrainingRaised(o.fault);
      }
      if o.result.metrics.trades >= s.wf.minTrainTrades {
        ranked := ranked + [Ranked(o.result.metrics.expectancy, o.result.metrics.netPnl, i, o.result.metrics)];
      }
    }
    training := Trained(ranked);
  }

  lemma {:induction false} RaisedStays(train: seq<HistoricalBar>, s: Setting, i: nat, n: nat)
    requires i <= n <= |s.candidates| && Train(train, s, i).TrainingRaised?
    ensures Train(train, s, n) == Train(train, s, i)
  {
    hide OutcomeOf;
    if i < n {
      RaisedStays(train, s, i, n - 1);
    }
  }

  /** The greatest of the ranked candidates: the first of the list sorted in descending order. */
  method PickBest(ranked: seq<Ranked>) returns (best: Ranked)
    requires ranked != []
    ensures best == Best(ranked) && best in ranked
  {
    best := ranked[0];
    assert ranked[..1] == [ranked[0]];
    for i := 1 to |ranked|
      invariant best == Best(ranked[..i]) && best in ranked
    {
      assert ranked[..i + 1][..i] == ranked[..i];
      if Beats(ranked[i], best) {
        best := ranked[i];
      }
    }
    assert ranked[..|ranked|] == ranked;
  }

  method RunOneFold(rows: seq<HistoricalBar>, s: Setting, start: nat, number: nat) returns (f: FoldRun)
    requires FoldFits(s.wf, |rows|, start)
    ensures f == RunFold(rows, s, start, number)
  {
    hide OutcomeOf, Train, Best, Context, TestWindow;
    var training := RankCandidates(rows[start..start + s.wf.trainBars], s);
    if training.TrainingRaised? {
      return FoldRaised(training.fault);
    }
    var header := FoldHeader(rows, s.wf, start, number);
    if training.ranked == [] {
      return FoldRan(header, []);
    }
    var best := PickBest(training.ranked);
    var o := RunBacktest(Context(rows, s.wf, start), s.cfg, s.candidates[best.index], s.funding,
                         TestWindow(rows, s.wf, start));
    if o.Raised? {
      return FoldRaised(o.fault);
    }
    f := FoldRan(header.(selected := Some(best.index), trainMetrics := Some(best.metrics),
                         testMetrics := Some(o.result.metrics)),
                 o.result.trades);
  }

  lemma {:induction false} WalkRaisedStays(rows: seq<HistoricalBar>, s: Setting, j: nat, k: nat)
    requires ValidSizes(s.wf) && j <= k <= FoldCount(s.wf, |rows|) && Folds(rows, s, j).WalkRaised?
    ensures Folds(rows, s, k) == Folds(rows, s, j)
  {
    hide RunFold, FoldCount;
    if j < k {
      WalkRaisedStays(rows, s, j, k - 1);
    }
  }

  method RunWalkForward(rows: seq<HistoricalBar>, s: Setting) returns (outcome: WalkOutcome)
    ensures outcome == WalkOf(rows, s)
  {
    hide RunFold, Ordered, MetricsOf, FoldCount;
    if s.candidates == [] { return WalkFailed(NoCandidates); }
    if rows == [] {
      var none := MetricsFromTrades([], s.cfg.startingEquity);
      return Walked(WalkResult("", [], [], none));
    }
    if !ValidSizes(s.wf) { return WalkFailed(BadWindowSizes); }
    var ordered := Ordered(rows);
    assert ordered != [] by { OrderedSize(rows); }
    ghost var count := FoldCount(s.wf, |ordered|);
    var folds: seq<Fold> := [];
    var trades: seq<SimulatedTrade> := [];
    var number, trainStart := 0, 0;
    while trainStart + s.wf.trainBars + s.wf.testBars <= |ordered|
      invariant 0 <= number <= count && trainStart == StartOf(s.wf, number)
      invariant Folds(ordered, s, number) == Walk(folds, trades)
      decreases |ordered| - trainStart
    {
      FoldsFit(s.wf, |ordered|, number);
      var f := RunOneFold(ordered, s, trainStart, number);
      if f.FoldRaised? {
        WalkRaisedStays(ordered, s, number + 1, count);
        return WalkFailed(BacktestRaised(f.fault));
      }
      folds, trades := folds + [f.fold], trades + f.trades;
      NextStart(s.wf, number);
      number, trainStart := number + 1, trainStart + s.wf.stepBars;
    }
    FoldsFit(s.wf, |ordered|, number);
    assert number == count;
    var metrics := MetricsFromTrades(trades, s.cfg.startingEquity);
    outcome := Walked(WalkResult(ordered[0].symbol, folds, trades, metrics));
  }

  lemma NextStart(wf: WalkForwardConfig, k: nat)
    requires ValidSizes(wf)
    ensures StartOf(wf, k + 1) == StartOf(wf, k) + wf.stepBars
  {
  }
}
