/** Volatility, structure, flow and the signal gates. */
module Signals {
  import opened Models
  import opened Market

  datatype Signal = Signal(
    symbol: string,
    direction: Direction,
    strength: real,
    setup: Setup,
    invalidation: Option<real>,
    gridMode: GridMode)

  datatype SignalConfig = SignalConfig(
    structureLookback: int,
    maxSpreadBps: real,
    minExpansion: real,
    strongExpansion: real,
    minFlowAbs: real,
    minBookAbs: real,
    entryThreshold: real,
    minDirectionalStopBps: real,
    neutralEnabled: bool,
    neutralMaxExpansion: real,
    neutralMaxFlowAbs: real,
    neutralMaxBookAbs: real,
    neutralEntryThreshold: real)

  function Sum(xs: seq<real>): real {
    if xs == [] then 0.0 else Sum(xs[..|xs| - 1]) + xs[|xs| - 1]
  }

  function TrueRange(previous: Bar, bar: Bar): (r: real)
    ensures r >= 0.0
  {
    MaxReal(bar.high - bar.low, MaxReal(Abs(bar.high - previous.close), Abs(bar.low - previous.close)))
  }

  function TrueRanges(bars: seq<Bar>): seq<real> {
    if |bars| < 2 then []
    else seq(|bars| - 1, i requires 0 <= i < |bars| - 1 => TrueRange(bars[i], bars[i + 1]))
  }

  method ComputeTrueRanges(bars: seq<Bar>) returns (out: seq<real>)
    ensures out == TrueRanges(bars)
  {
    out := [];
    if |bars| < 2 {
      return;
    }
    var previousClose := bars[0].close;
    for i := 1 to |bars|
      invariant previousClose == bars[i - 1].close
      invariant |out| == i - 1
      invariant forall k | 0 <= k < i - 1 :: out[k] == TrueRange(bars[k], bars[k + 1])
    {
      var bar := bars[i];
      out := out + [MaxReal(bar.high - bar.low, MaxReal(Abs(bar.high - previousClose), Abs(bar.low - previousClose)))];
      previousClose := bar.close;
    }
  }

  const NATR_PERIOD: nat := 14
  const SHORT_WINDOW: nat := 10
  const LONG_WINDOW: nat := 50

  /** The last `n` true ranges. */
  function Recent(xs: seq<real>, n: nat): seq<real>
    requires n <= |xs|
  {
    xs[|xs| - n..]
  }

  function Natr(bars: seq<Bar>): Option<real> {
    var trs := TrueRanges(bars);
    if |trs| < NATR_PERIOD || bars[|bars| - 1].close <= 0.0 then None
    else Some(Sum(Recent(trs, NATR_PERIOD)) / NATR_PERIOD as real / bars[|bars| - 1].close)
  }

  function VolatilityExpansion(bars: seq<Bar>): Option<real> {
    var trs := TrueRanges(bars);
    if |trs| < LONG_WINDOW then None
    else
      var shortV := Sum(Recent(trs, SHORT_WINDOW)) / SHORT_WINDOW as real;
      var longV := Sum(Recent(trs, LONG_WINDOW)) / LONG_WINDOW as real;
      if longV <= 0.0 then None else Some(shortV / longV)
  }

  lemma {:induction false} SumSplit(xs: seq<real>, ys: seq<real>)
    ensures Sum(xs + ys) == Sum(xs) + Sum(ys)
  {
    if ys == [] {
      assert xs + ys == xs;
    } else {
      assert (xs + ys)[..|xs + ys| - 1] == xs + ys[..|ys| - 1];
      SumSplit(xs, ys[..|ys| - 1]);
    }
  }

  lemma {:induction false} SumNonNegative(xs: seq<real>)
    requires forall i | 0 <= i < |xs| :: xs[i] >= 0.0
    ensures Sum(xs) >= 0.0
  {
    if xs != [] {
      SumNonNegative(xs[..|xs| - 1]);
    }
  }

  /** Short-window expansion forces a positive NATR: true ranges are never negative. */
  lemma ExpansionImpliesNatr(bars: seq<Bar>)
    requires VolatilityExpansion(bars).Some? && VolatilityExpansion(bars).value > 0.0
    requires bars[|bars| - 1].close > 0.0
    ensures Natr(bars).Some? && Natr(bars).value > 0.0
  {
    var trs := TrueRanges(bars);
    var shortSum, longSum := Sum(Recent(trs, SHORT_WINDOW)), Sum(Recent(trs, LONG_WINDOW));
    PositiveNumerator(shortSum / SHORT_WINDOW as real, longSum / LONG_WINDOW as real);
    assert shortSum > 0.0;
    var older := trs[|trs| - NATR_PERIOD..|trs| - SHORT_WINDOW];
    assert Recent(trs, NATR_PERIOD) == older + Recent(trs, SHORT_WINDOW);
    SumSplit(older, Recent(trs, SHORT_WINDOW));
    SumNonNegative(older);
    PositiveQuotient(Sum(Recent(trs, NATR_PERIOD)) / NATR_PERIOD as real, bars[|bars| - 1].close);
  }

  lemma PositiveNumerator(x: real, y: real)
    requires y > 0.0 && x / y > 0.0
    ensures x > 0.0
  {
    assert x == (x / y) * y;
  }

  lemma PositiveQuotient(x: real, y: real)
    requires x > 0.0 && y > 0.0
    ensures x / y > 0.0
  {
  }

  function Imbalance(x: real, y: real): real {
    var total := x + y;
    if total <= 0.0 then 0.0 else (x - y) / total
  }

  function SpreadBps(bid: Option<real>, ask: Option<real>): Option<real> {
    if !UsableBook(bid, ask) then None
    else Some((ask.value - bid.value) / ((bid.value + ask.value) / 2.0) * 10000.0)
  }

  /** The mid of a usable book, else the last close; absent when neither is positive. */
  function ReferencePrice(state: SymbolState): (r: Option<real>)
    ensures r.Some? ==> r.value > 0.0
  {
    if UsableBook(state.bestBid, state.bestAsk) then Some((state.bestBid.value + state.bestAsk.value) / 2.0)
    else if state.bars != [] && state.bars[|state.bars| - 1].close > 0.0 then Some(state.bars[|state.bars| - 1].close)
    else None
  }

  datatype Structure = Structure(direction: int, setup: Setup, invalidation: Option<real>)

  function Highest(bars: seq<Bar>): real
    requires bars != []
  {
    if |bars| == 1 then bars[0].high else MaxReal(Highest(bars[..|bars| - 1]), bars[|bars| - 1].high)
  }

  function Lowest(bars: seq<Bar>): real
    requires bars != []
  {
    if |bars| == 1 then bars[0].low else MinReal(Lowest(bars[..|bars| - 1]), bars[|bars| - 1].low)
  }

  function DetectStructure(bars: seq<Bar>, lookback: int): Structure
    requires lookback > 0
  {
    if |bars| < lookback + 1 then Structure(0, WARMUP, None)
    else
      var cur := bars[|bars| - 1];
      var prior := bars[|bars| - lookback - 1..|bars| - 1];
      var hi, lo := Highest(prior), Lowest(prior);
      if cur.close > hi then Structure(1, BREAKOUT_ACCEPTANCE, Some(hi))
      else if cur.close < lo then Structure(-1, BREAKOUT_ACCEPTANCE, Some(lo))
      else if cur.high > hi && cur.close < hi then Structure(-1, FAILED_BREAKOUT_SWEEP, Some(cur.high))
      else if cur.low < lo && cur.close > lo then Structure(1, FAILED_BREAKOUT_SWEEP, Some(cur.low))
      else Structure(0, RANGE, None)
  }

  /** Round half to even at a power of ten. */
  function RoundAt(x: real, scale: real): real
    requires scale > 0.0
  {
    var y := x * scale;
    var f := y.Floor;
    var d := y - f as real;
    (if d < 0.5 then f else if d > 0.5 then f + 1 else if f % 2 == 0 then f else f + 1) as real / scale
  }

  function Clamp01(x: real): (r: real)
    ensures 0.0 <= r <= 1.0
  {
    MinReal(1.0, MaxReal(0.0, x))
  }

  function PassSignal(symbol: string): Signal {
    Signal(symbol, PASS, 0.0, PassReason(""), None, NO_GRID)
  }

  const TINY: real := 0.000000001

  function NeutralStrength(vx: real, ti: real, bi: real, cfg: SignalConfig): (r: real)
    ensures 0.45 <= r <= 1.0
  {
    var compression := Clamp01((cfg.neutralMaxExpansion - vx) / MaxReal(0.05, cfg.neutralMaxExpansion - 0.70));
    var flowBalance := 1.0 - MinReal(1.0, Abs(ti) / MaxReal(cfg.neutralMaxFlowAbs, TINY));
    var bookBalance := 1.0 - MinReal(1.0, Abs(bi) / MaxReal(cfg.neutralMaxBookAbs, TINY));
    NonNegativeQuotient(Abs(ti), MaxReal(cfg.neutralMaxFlowAbs, TINY));
    NonNegativeQuotient(Abs(bi), MaxReal(cfg.neutralMaxBookAbs, TINY));
    0.45 + 0.25 * compression + 0.20 * flowBalance + 0.10 * bookBalance
  }

  function DirectionalStrength(side: int, vx: real, ti: real, bi: real, cfg: SignalConfig): (r: real)
    ensures 0.35 <= r <= 1.0
  {
    var volScore := Clamp01((vx - cfg.minExpansion) / MaxReal(0.01, cfg.strongExpansion - cfg.minExpansion));
    var flowSupport := MaxReal(0.0, side as real * ti) / MaxReal(cfg.minFlowAbs, TINY);
    var bookSupport := MaxReal(0.0, side as real * bi) / MaxReal(cfg.minBookAbs, TINY);
    NonNegativeQuotient(MaxReal(0.0, side as real * ti), MaxReal(cfg.minFlowAbs, TINY));
    NonNegativeQuotient(MaxReal(0.0, side as real * bi), MaxReal(cfg.minBookAbs, TINY));
    0.35 + 0.25 * volScore + 0.25 * MinReal(1.0, flowSupport) + 0.15 * MinReal(1.0, bookSupport)
  }

  lemma NonNegativeQuotient(x: real, y: real)
    requires x >= 0.0 && y > 0.0
    ensures x / y >= 0.0
  {
  }

  function NeutralSignal(state: SymbolState, vx: real, ti: real, bi: real, cfg: SignalConfig): Signal {
    var strength := NeutralStrength(vx, ti, bi, cfg);
    if !cfg.neutralEnabled || vx > cfg.neutralMaxExpansion || Abs(ti) > cfg.neutralMaxFlowAbs
       || Abs(bi) > cfg.neutralMaxBookAbs || strength < cfg.neutralEntryThreshold
    then PassSignal(state.symbol)
    else Signal(state.symbol, PASS, RoundAt(strength, 10000.0), RANGE_NEUTRAL, None, NEUTRAL_GRID)
  }

  /** The stop must be on the losing side of the reference and far enough from it. */
  predicate StopGeometryOk(side: int, invalidation: real, reference: real, minStopBps: real)
    requires reference > 0.0
  {
    if side > 0 then invalidation < reference && (reference - invalidation) / reference * 10000.0 >= minStopBps
    else invalidation > reference && (invalidation - reference) / reference * 10000.0 >= minStopBps
  }

  function DirectionalSignal(state: SymbolState, structure: Structure, vx: real, ti: real, bi: real,
                             cfg: SignalConfig): Signal {
    var reference := ReferencePrice(state);
    if vx < cfg.minExpansion || reference.None? || structure.invalidation.None? || structure.invalidation.value <= 0.0
       || !StopGeometryOk(structure.direction, structure.invalidation.value, reference.value, cfg.minDirectionalStopBps)
    then PassSignal(state.symbol)
    else
      var strength := DirectionalStrength(structure.direction, vx, ti, bi, cfg);
      if strength < cfg.entryThreshold then PassSignal(state.symbol)
      else
        var direction := if structure.direction > 0 then LONG else SHORT;
        Signal(state.symbol, direction, RoundAt(strength, 10000.0), structure.setup, structure.invalidation,
               if direction.LONG? then LONG_GRID else SHORT_GRID)
  }

  function Evaluate(state: SymbolState, cfg: SignalConfig): Signal
    requires cfg.structureLookback > 0
  {
    var nv := Natr(state.bars);
    var vx := VolatilityExpansion(state.bars);
    var structure := DetectStructure(state.bars, cfg.structureLookback);
    var ti := Imbalance(state.takerBuyQuote, state.takerSellQuote);
    var bi := Imbalance(state.bidDepth, state.askDepth);
    var spread := SpreadBps(state.bestBid, state.bestAsk);
    if nv.None? || vx.None? then PassSignal(state.symbol)
    else if spread.None? || spread.value > cfg.maxSpreadBps then PassSignal(state.symbol)
    else if structure.direction == 0 then NeutralSignal(state, vx.value, ti, bi, cfg)
    else DirectionalSignal(state, structure, vx.value, ti, bi, cfg)
  }

  // ---- What the structure and the strength mean ----

  lemma {:induction false} HighestMeans(bars: seq<Bar>)
    requires bars != []
    ensures forall b | b in bars :: b.high <= Highest(bars)
    ensures exists b :: b in bars && b.high == Highest(bars)
  {
    if |bars| == 1 {
      assert bars[0] in bars;
    } else {
      var front, last := bars[..|bars| - 1], bars[|bars| - 1];
      HighestMeans(front);
      var b :| b in front && b.high == Highest(front);
      assert b in bars && last in bars;
      assert forall x | x in bars :: x in front || x == last;
    }
  }

  lemma {:induction false} LowestMeans(bars: seq<Bar>)
    requires bars != []
    ensures forall b | b in bars :: b.low >= Lowest(bars)
    ensures exists b :: b in bars && b.low == Lowest(bars)
  {
    if |bars| == 1 {
      assert bars[0] in bars;
    } else {
      var front, last := bars[..|bars| - 1], bars[|bars| - 1];
      LowestMeans(front);
      var b :| b in front && b.low == Lowest(front);
      assert b in bars && last in bars;
      assert forall x | x in bars :: x in front || x == last;
    }
  }

  predicate AboveAll(price: real, bars: seq<Bar>) {
    forall b | b in bars :: price > b.high
  }

  predicate BelowAll(price: real, bars: seq<Bar>) {
    forall b | b in bars :: price < b.low
  }

  /** A breakout is a close beyond every bar of the lookback; a failed one reaches beyond them all and closes
      back inside; anything else has no direction. The invalidation is the level that was left behind. */
  lemma StructureMeans(bars: seq<Bar>, lookback: int)
    requires lookback > 0 && |bars| > lookback
    ensures
      var s, cur, prior := DetectStructure(bars, lookback), bars[|bars| - 1], bars[|bars| - lookback - 1..|bars| - 1];
      && (s.setup.BREAKOUT_ACCEPTANCE? && s.direction == 1 <==> AboveAll(cur.close, prior))
      && (s.setup.BREAKOUT_ACCEPTANCE? && s.direction == -1 <==>
          BelowAll(cur.close, prior) && !AboveAll(cur.close, prior))
      && (s.setup.FAILED_BREAKOUT_SWEEP? && s.direction == -1 ==>
            AboveAll(cur.high, prior) && !AboveAll(cur.close, prior) && s.invalidation == Some(cur.high))
      && (s.setup.FAILED_BREAKOUT_SWEEP? && s.direction == 1 ==>
            BelowAll(cur.low, prior) && !BelowAll(cur.close, prior) && s.invalidation == Some(cur.low))
      && (s.direction == 0 <==> s.invalidation.None?)
      && (s.setup.BREAKOUT_ACCEPTANCE? ==>
            if s.direction == 1 then s.invalidation.value < cur.close else s.invalidation.value > cur.close)
  {
    var prior := bars[|bars| - lookback - 1..|bars| - 1];
    HighestMeans(prior);
    LowestMeans(prior);
    hide Highest, Lowest;
  }

  lemma RoundedWithin(x: real)
    requires 0.0 <= x <= 1.0
    ensures 0.0 <= RoundAt(x, 10000.0) <= 1.0
  {
    var y := x * 10000.0;
    assert 0.0 <= y <= 10000.0;
    var f := y.Floor;
    assert 0 <= f <= 10000;
    if f == 10000 {
      assert y == 10000.0;
    }
  }

  /** Every signal's strength lies between zero and one. */
  lemma StrengthBounds(state: SymbolState, cfg: SignalConfig)
    requires cfg.structureLookback > 0
    ensures 0.0 <= Evaluate(state, cfg).strength <= 1.0
  {
    hide Natr, VolatilityExpansion, DetectStructure, Imbalance, SpreadBps, ReferencePrice, NeutralStrength,
      DirectionalStrength, RoundAt, StopGeometryOk;
    var structure := DetectStructure(state.bars, cfg.structureLookback);
    var vx := VolatilityExpansion(state.bars);
    if vx.Some? {
      var ti := Imbalance(state.takerBuyQuote, state.takerSellQuote);
      var bi := Imbalance(state.bidDepth, state.askDepth);
      RoundedWithin(NeutralStrength(vx.value, ti, bi, cfg));
      RoundedWithin(DirectionalStrength(structure.direction, vx.value, ti, bi, cfg));
    }
  }
}
