/** When the evaluator gives a signal, and how strong it is, in the numbers of the market state. */
module SignalNumbers {
  import opened Models
  import opened Market
  import opened Signals

  // ---- Scores ----

  /** A score that is 0 up to `from`, 1 from `from + width` on, and rises evenly in between. */
  predicate Ramp(x: real, from: real, width: real, score: real) {
    && (x <= from ==> score == 0.0)
    && (x >= from + width ==> score == 1.0)
    && (from < x < from + width ==> score * width == x - from)
  }

  predicate Larger(x: real, a: real, b: real) {
    x >= a && x >= b && (x == a || x == b)
  }

  lemma ClampedIsRamp(x: real, from: real, width: real)
    requires width > 0.0
    ensures Ramp(x, from, width, Clamp01((x - from) / width))
  {
    var q := (x - from) / width;
    assert q * width == x - from;
    if x <= from {
      assert q <= 0.0;
    } else if x >= from + width {
      assert q >= 1.0;
    } else {
      assert 0.0 < q < 1.0 by { Quotient(x - from, width); }
    }
  }

  lemma Quotient(a: real, b: real)
    requires 0.0 < a < b
    ensures 0.0 < a / b < 1.0
  {
    var q := a / b;
    assert q * b == a;
    if q >= 1.0 {
      MulGrows(1.0, q, b);
    } else if q <= 0.0 {
      MulGrows(q, 0.0, b);
    }
  }

  lemma SupportIsRamp(x: real, width: real)
    requires width > 0.0
    ensures Ramp(x, 0.0, width, MinReal(1.0, MaxReal(0.0, x) / width))
  {
    if x >= width {
      assert x / width >= 1.0;
    } else if x > 0.0 {
      Quotient(x, width);
    }
  }

  /** A directional strength is 0.35 plus a quarter of the expansion score, a quarter of the flow score and 0.15 of the
      book score; flow and book count only on the side of the structure. */
  lemma DirectionalStrengthMeans(side: int, vx: real, ti: real, bi: real, cfg: SignalConfig)
    returns (expansion: real, flow: real, book: real, width: real, flowWidth: real, bookWidth: real)
    requires side == 1 || side == -1
    ensures DirectionalStrength(side, vx, ti, bi, cfg) == 0.35 + 0.25 * expansion + 0.25 * flow + 0.15 * book
    ensures Larger(width, 0.01, cfg.strongExpansion - cfg.minExpansion)
    ensures Larger(flowWidth, 0.000000001, cfg.minFlowAbs) && Larger(bookWidth, 0.000000001, cfg.minBookAbs)
    ensures Ramp(vx, cfg.minExpansion, width, expansion)
    ensures Ramp(if side == 1 then ti else -ti, 0.0, flowWidth, flow)
    ensures Ramp(if side == 1 then bi else -bi, 0.0, bookWidth, book)
  {
    width := MaxReal(0.01, cfg.strongExpansion - cfg.minExpansion);
    flowWidth, bookWidth := MaxReal(cfg.minFlowAbs, TINY), MaxReal(cfg.minBookAbs, TINY);
    var flowOn, bookOn := side as real * ti, side as real * bi;
    assert flowOn == if side == 1 then ti else -ti;
    assert bookOn == if side == 1 then bi else -bi;
    ClampedIsRamp(vx, cfg.minExpansion, width);
    SupportIsRamp(flowOn, flowWidth);
    SupportIsRamp(bookOn, bookWidth);
    expansion := Clamp01((vx - cfg.minExpansion) / width);
    flow := MinReal(1.0, MaxReal(0.0, flowOn) / flowWidth);
    book := MinReal(1.0, MaxReal(0.0, bookOn) / bookWidth);
    hide Ramp, Clamp01;
  }

  /** A neutral strength is 0.45 plus a quarter of the compression score, a fifth of how balanced the flow is and a
      tenth of how balanced the book is. */
  lemma NeutralStrengthMeans(vx: real, ti: real, bi: real, cfg: SignalConfig)
    returns (compression: real, flow: real, book: real, width: real, flowWidth: real, bookWidth: real)
    ensures NeutralStrength(vx, ti, bi, cfg) == 0.45 + 0.25 * compression + 0.20 * (1.0 - flow) + 0.10 * (1.0 - book)
    ensures Larger(width, 0.05, cfg.neutralMaxExpansion - 0.70)
    ensures Larger(flowWidth, 0.000000001, cfg.neutralMaxFlowAbs)
    ensures Larger(bookWidth, 0.000000001, cfg.neutralMaxBookAbs)
    ensures Ramp(cfg.neutralMaxExpansion - vx, 0.0, width, compression)
    ensures Ramp(if ti < 0.0 then -ti else ti, 0.0, flowWidth, flow)
    ensures Ramp(if bi < 0.0 then -bi else bi, 0.0, bookWidth, book)
  {
    width := MaxReal(0.05, cfg.neutralMaxExpansion - 0.70);
    flowWidth, bookWidth := MaxReal(cfg.neutralMaxFlowAbs, TINY), MaxReal(cfg.neutralMaxBookAbs, TINY);
    ClampedIsRamp(cfg.neutralMaxExpansion - vx, 0.0, width);
    SupportIsRamp(Abs(ti), flowWidth);
    SupportIsRamp(Abs(bi), bookWidth);
    compression := Clamp01((cfg.neutralMaxExpansion - vx) / width);
    flow, book := MinReal(1.0, Abs(ti) / flowWidth), MinReal(1.0, Abs(bi) / bookWidth);
    hide Ramp, Clamp01;
  }

  // ---- Inputs ----

  /** An imbalance is the difference over the sum, and nothing without a positive sum. */
  lemma ImbalanceMeans(x: real, y: real)
    ensures x + y > 0.0 ==> Imbalance(x, y) * (x + y) == x - y
    ensures x + y <= 0.0 ==> Imbalance(x, y) == 0.0
  {
  }

  /** The spread is there for a book that is present, positive and not crossed, and is within a limit exactly when the
      gap is within that many ten-thousandths of the mid price. */
  lemma SpreadMeans(bid: Option<real>, ask: Option<real>, limit: real)
    ensures SpreadBps(bid, ask).Some? <==> bid.Some? && ask.Some? && bid.value > 0.0 && ask.value >= bid.value
    ensures SpreadBps(bid, ask).Some? ==>
              (SpreadBps(bid, ask).value <= limit <==>
               (ask.value - bid.value) * 10000.0 <= limit * ((bid.value + ask.value) / 2.0))
  {
    if SpreadBps(bid, ask).Some? {
      Scaled(ask.value - bid.value, (bid.value + ask.value) / 2.0, limit);
    }
  }

  lemma Scaled(gap: real, mid: real, limit: real)
    requires mid > 0.0
    ensures gap / mid * 10000.0 <= limit <==> gap * 10000.0 <= limit * mid
  {
    var q := gap / mid;
    assert q * mid == gap;
    if q * 10000.0 <= limit {
      MulGrows(q * 10000.0, limit, mid);
      assert (q * 10000.0) * mid == gap * 10000.0;
    } else {
      MulStrictlyGrows(limit, q * 10000.0, mid);
      assert (q * 10000.0) * mid == gap * 10000.0;
    }
  }

  /** The price a signal is judged at: the mid of a usable book, else a positive last close. */
  lemma ReferenceMeans(state: SymbolState)
    ensures
      var usable := && state.bestBid.Some? && state.bestAsk.Some? && state.bestBid.value > 0.0
                    && state.bestAsk.value >= state.bestBid.value;
      ReferencePrice(state) ==
        if usable then Some((state.bestBid.value + state.bestAsk.value) / 2.0)
        else if state.bars != [] && state.bars[|state.bars| - 1].close > 0.0
        then Some(state.bars[|state.bars| - 1].close)
        else None
  {
  }

  /** A true range is the widest of the bar's own range and its reaches from the close before. */
  lemma TrueRangeMeans(previous: Bar, bar: Bar)
    ensures
      var r, own, up, down := TrueRange(previous, bar), bar.high - bar.low, bar.high - previous.close,
                              bar.low - previous.close;
      && r >= own && r >= up && r >= -up && r >= down && r >= -down
      && (r == own || r == up || r == -up || r == down || r == -down)
  {
  }

  /** Sums of the last ranges of the bars, newest last. */
  function LastRanges(bars: seq<Bar>, n: nat): real
    requires n < |bars|
  {
    if n == 0 then 0.0
    else LastRanges(bars, n - 1) + TrueRange(bars[|bars| - n - 1], bars[|bars| - n])
  }

  lemma {:induction false} RecentSums(bars: seq<Bar>, n: nat)
    requires n < |bars| && |bars| >= 2
    ensures |TrueRanges(bars)| == |bars| - 1
    ensures Sum(Recent(TrueRanges(bars), n)) == LastRanges(bars, n)
  {
    var trs := TrueRanges(bars);
    if n > 0 {
      RecentSums(bars, n - 1);
      hide TrueRange;
      assert Recent(trs, n) == [trs[|trs| - n]] + Recent(trs, n - 1);
      SumSplit([trs[|trs| - n]], Recent(trs, n - 1));
      SumOne(trs[|trs| - n]);
    }
  }

  lemma SumOne(x: real)
    ensures Sum([x]) == x
  {
    assert [x][..0] == [];
  }

  /** The volatility is the mean of the last `n` = 14 true ranges over the last close, given one bar more and a positive
      close. */
  lemma NatrMeans(bars: seq<Bar>, n: nat)
    requires n == 14
    ensures Natr(bars).Some? <==> |bars| > n && bars[|bars| - 1].close > 0.0
    ensures Natr(bars).Some? ==> Natr(bars).value * bars[|bars| - 1].close * n as real == LastRanges(bars, n)
  {
    hide LastRanges, Sum;
    if |bars| > n {
      RecentSums(bars, n);
      var total, close := LastRanges(bars, n), bars[|bars| - 1].close;
      hide TrueRanges;
      if close > 0.0 {
        Undone(total / n as real, close);
      }
    }
  }

  lemma Undone(x: real, y: real)
    requires y != 0.0
    ensures x / y * y == x
  {
  }

  /** The expansion is the mean of the last `m` = 10 true ranges over the mean of the last `n` = 50, given one bar more
      and some range in them. */
  lemma ExpansionMeans(bars: seq<Bar>, m: nat, n: nat)
    requires m == 10 && n == 50
    ensures VolatilityExpansion(bars).Some? <==> |bars| > n && LastRanges(bars, n) > 0.0
    ensures VolatilityExpansion(bars).Some? ==>
              VolatilityExpansion(bars).value * (LastRanges(bars, n) / n as real) == LastRanges(bars, m) / m as real
  {
    hide LastRanges, Sum;
    if |bars| > n {
      RecentSums(bars, m);
      RecentSums(bars, n);
      hide TrueRanges;
      if LastRanges(bars, n) > 0.0 {
        Undone(LastRanges(bars, m) / m as real, LastRanges(bars, n) / n as real);
      }
    }
  }

  /** Rounding goes to the nearest of the multiples, and to the even one in the middle between two. */
  lemma RoundAtMeans(x: real, scale: real) returns (k: int)
    requires scale > 0.0
    ensures RoundAt(x, scale) * scale == k as real
    ensures -0.5 <= k as real - x * scale <= 0.5
    ensures (k as real - x * scale == 0.5 || k as real - x * scale == -0.5) ==> k % 2 == 0
  {
    var y := x * scale;
    var f := y.Floor;
    k := if y - f as real < 0.5 then f else if y - f as real > 0.5 then f + 1 else if f % 2 == 0 then f else f + 1;
    Undone(k as real, scale);
  }

  /** The greatest high of the bars, or the least low. */
  ghost predicate IsTop(bars: seq<Bar>, x: real) {
    (forall b | b in bars :: b.high <= x) && exists b :: b in bars && b.high == x
  }

  ghost predicate IsBottom(bars: seq<Bar>, x: real) {
    (forall b | b in bars :: b.low >= x) && exists b :: b in bars && b.low == x
  }

  /** The structure of the last bar against the bars of the lookback before it, between their top and their bottom. */
  lemma StructureExact(bars: seq<Bar>, lookback: int) returns (top: real, bottom: real)
    requires lookback > 0
    ensures |bars| <= lookback ==> DetectStructure(bars, lookback) == Structure(0, WARMUP, None)
    ensures
      |bars| > lookback ==>
        var cur, prior := bars[|bars| - 1], bars[|bars| - lookback - 1..|bars| - 1];
        && IsTop(prior, top) && IsBottom(prior, bottom)
        && DetectStructure(bars, lookback) ==
             if cur.close > top then Structure(1, BREAKOUT_ACCEPTANCE, Some(top))
             else if cur.close < bottom then Structure(-1, BREAKOUT_ACCEPTANCE, Some(bottom))
             else if cur.high > top && cur.close < top then Structure(-1, FAILED_BREAKOUT_SWEEP, Some(cur.high))
             else if cur.low < bottom && cur.close > bottom then Structure(1, FAILED_BREAKOUT_SWEEP, Some(cur.low))
             else Structure(0, RANGE, None)
  {
    top, bottom := 0.0, 0.0;
    if |bars| > lookback {
      var prior := bars[|bars| - lookback - 1..|bars| - 1];
      HighestMeans(prior);
      LowestMeans(prior);
      top, bottom := Highest(prior), Lowest(prior);
      hide Highest, Lowest;
    }
  }

  // ---- Which signal ----

  /** Enough history and a spread within its limit. */
  predicate Quotable(state: SymbolState, cfg: SignalConfig) {
    && Natr(state.bars).Some? && VolatilityExpansion(state.bars).Some?
    && SpreadBps(state.bestBid, state.bestAsk).Some?
    && SpreadBps(state.bestBid, state.bestAsk).value <= cfg.maxSpreadBps
  }

  /** A neutral signal comes exactly of a quotable range that is quiet, balanced and scores enough. */
  lemma NeutralSignalIff(state: SymbolState, cfg: SignalConfig)
    requires cfg.structureLookback > 0
    ensures
      var e := Evaluate(state, cfg);
      var ti, bi := Imbalance(state.takerBuyQuote, state.takerSellQuote), Imbalance(state.bidDepth, state.askDepth);
      && (e.gridMode.NEUTRAL_GRID? <==>
            && Quotable(state, cfg) && DetectStructure(state.bars, cfg.structureLookback).direction == 0
            && cfg.neutralEnabled && VolatilityExpansion(state.bars).value <= cfg.neutralMaxExpansion
            && -cfg.neutralMaxFlowAbs <= ti <= cfg.neutralMaxFlowAbs
            && -cfg.neutralMaxBookAbs <= bi <= cfg.neutralMaxBookAbs
            && NeutralStrength(VolatilityExpansion(state.bars).value, ti, bi, cfg) >= cfg.neutralEntryThreshold)
      && (e.gridMode.NEUTRAL_GRID? ==>
            e == Signal(state.symbol, PASS,
                        RoundAt(NeutralStrength(VolatilityExpansion(state.bars).value, ti, bi, cfg), 10000.0),
                        RANGE_NEUTRAL, None, NEUTRAL_GRID))
  {
    hide Natr, VolatilityExpansion, DetectStructure, Imbalance, SpreadBps, NeutralStrength, DirectionalStrength,
      RoundAt, ReferencePrice, StopGeometryOk;
  }

  /** The stop lies on the losing side of the reference, at least so many ten-thousandths of it away. */
  predicate StopFarEnough(side: int, invalidation: real, reference: real, minStopBps: real) {
    var gap := if side > 0 then reference - invalidation else invalidation - reference;
    gap > 0.0 && gap * 10000.0 >= minStopBps * reference
  }

  lemma StopGeometryMeans(side: int, invalidation: real, reference: real, minStopBps: real)
    requires reference > 0.0
    ensures StopGeometryOk(side, invalidation, reference, minStopBps)
            <==> StopFarEnough(side, invalidation, reference, minStopBps)
  {
    var gap := if side > 0 then reference - invalidation else invalidation - reference;
    AtLeast(gap, reference, minStopBps);
  }

  lemma AtLeast(gap: real, mid: real, limit: real)
    requires mid > 0.0
    ensures gap / mid * 10000.0 >= limit <==> gap * 10000.0 >= limit * mid
  {
    var q := gap / mid;
    assert q * mid == gap;
    assert (q * 10000.0) * mid == gap * 10000.0;
    if q * 10000.0 >= limit {
      MulGrows(limit, q * 10000.0, mid);
    } else {
      MulStrictlyGrows(q * 10000.0, limit, mid);
    }
  }

  /** A directional signal comes exactly of a quotable structure with enough expansion, a reference, an invalidation far
      enough on its losing side, and a score at the threshold; it is the structure's own side, setup and stop. */
  lemma DirectionalSignalIff(state: SymbolState, cfg: SignalConfig)
    requires cfg.structureLookback > 0
    ensures
      var e, st := Evaluate(state, cfg), DetectStructure(state.bars, cfg.structureLookback);
      var ti, bi := Imbalance(state.takerBuyQuote, state.takerSellQuote), Imbalance(state.bidDepth, state.askDepth);
      && (e.gridMode.LONG_GRID? || e.gridMode.SHORT_GRID? <==>
            && Quotable(state, cfg) && st.direction != 0
            && VolatilityExpansion(state.bars).value >= cfg.minExpansion
            && ReferencePrice(state).Some? && st.invalidation.Some? && st.invalidation.value > 0.0
            && StopFarEnough(st.direction, st.invalidation.value, ReferencePrice(state).value,
                             cfg.minDirectionalStopBps)
            && DirectionalStrength(st.direction, VolatilityExpansion(state.bars).value, ti, bi, cfg)
               >= cfg.entryThreshold)
      && (e.gridMode.LONG_GRID? || e.gridMode.SHORT_GRID? ==>
            e == Signal(state.symbol, if st.direction > 0 then LONG else SHORT,
                        RoundAt(DirectionalStrength(st.direction, VolatilityExpansion(state.bars).value, ti, bi, cfg),
                                10000.0),
                        st.setup, st.invalidation, if st.direction > 0 then LONG_GRID else SHORT_GRID))
  {
    hide Natr, VolatilityExpansion, DetectStructure, Imbalance, SpreadBps, NeutralStrength, DirectionalStrength,
      RoundAt, ReferencePrice, StopGeometryOk, StopFarEnough;
    var st := DetectStructure(state.bars, cfg.structureLookback);
    if ReferencePrice(state).Some? && st.invalidation.Some? {
      StopGeometryMeans(st.direction, st.invalidation.value, ReferencePrice(state).value, cfg.minDirectionalStopBps);
    }
  }

  /** Every other state gives no signal at all. */
  lemma OtherwiseNoSignal(state: SymbolState, cfg: SignalConfig)
    requires cfg.structureLookback > 0
    ensures
      var e := Evaluate(state, cfg);
      e.gridMode.NO_GRID? ==> e.direction.PASS? && e.strength == 0.0 && e.invalidation.None? && e.symbol == state.symbol
  {
    hide Natr, VolatilityExpansion, DetectStructure, Imbalance, SpreadBps, NeutralStrength, DirectionalStrength,
      RoundAt, ReferencePrice, StopGeometryOk;
  }
}
