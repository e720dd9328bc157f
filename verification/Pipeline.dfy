/** From a signal through risk to a plan on one unchanged market state. */
module Pipeline {
  import opened Models
  import opened Market
  import opened Signals
  import opened Grid

  /** Rounding to cents keeps a positive size positive exactly above half a cent. */
  lemma CentsPositiveIff(size: real)
    requires size > 0.0
    ensures RoundAt(size, 100.0) > 0.0 <==> size > 0.005
  {
    var y := size * 100.0;
    if size > 0.005 {
      assert y > 0.5;
    } else {
      assert y <= 0.5 && y.Floor == 0;
    }
  }

  /** A directional signal on the state it was computed from: consistent, warmed up, stopped on the right side. */
  predicate SoundSignal(state: SymbolState, s: Signal) {
    && (s.direction.LONG? <==> s.gridMode.LONG_GRID?)
    && (s.direction.SHORT? <==> s.gridMode.SHORT_GRID?)
    && s.symbol == state.symbol
    && Natr(state.bars).Some? && Natr(state.bars).value > 0.0
    && ReferencePrice(state).Some?
    && s.invalidation.Some? && s.invalidation.value > 0.0
    && !WrongSide(s.direction, s.invalidation.value, ReferencePrice(state).value)
  }

  /** A stop that is far enough from the reference is on the losing side of it. */
  lemma StopIsOnItsSide(side: int, invalidation: real, reference: real, minStopBps: real)
    requires reference > 0.0 && StopGeometryOk(side, invalidation, reference, minStopBps)
    ensures if side > 0 then invalidation < reference else invalidation > reference
  {
  }

  lemma DirectionalShape(state: SymbolState, structure: Structure, vx: real, ti: real, bi: real, cfg: SignalConfig)
    requires !DirectionalSignal(state, structure, vx, ti, bi, cfg).direction.PASS?
    ensures
      var s := DirectionalSignal(state, structure, vx, ti, bi, cfg);
      && (s.direction.LONG? <==> s.gridMode.LONG_GRID?) && (s.direction.SHORT? <==> s.gridMode.SHORT_GRID?)
      && s.symbol == state.symbol && vx >= cfg.minExpansion && ReferencePrice(state).Some?
      && s.invalidation.Some? && s.invalidation.value > 0.0
      && !WrongSide(s.direction, s.invalidation.value, ReferencePrice(state).value)
  {
    hide StopGeometryOk, DirectionalStrength, RoundAt;
    StopIsOnItsSide(structure.direction, structure.invalidation.value, ReferencePrice(state).value,
                    cfg.minDirectionalStopBps);
    hide ReferencePrice;
  }

  /** Only the directional branch gives a side. */
  lemma DirectionalBranch(state: SymbolState, cfg: SignalConfig)
    requires cfg.structureLookback > 0 && !Evaluate(state, cfg).direction.PASS?
    ensures Natr(state.bars).Some? && VolatilityExpansion(state.bars).Some?
    ensures Evaluate(state, cfg)
            == DirectionalSignal(state, DetectStructure(state.bars, cfg.structureLookback),
                                 VolatilityExpansion(state.bars).value,
                                 Imbalance(state.takerBuyQuote, state.takerSellQuote),
                                 Imbalance(state.bidDepth, state.askDepth), cfg)
  {
    hide Natr, VolatilityExpansion, DetectStructure, Imbalance, SpreadBps, DirectionalSignal, NeutralStrength, RoundAt;
  }

  lemma ExpandingNatr(bars: seq<Bar>)
    requires Natr(bars).Some? && VolatilityExpansion(bars).Some? && VolatilityExpansion(bars).value > 0.0
    ensures Natr(bars).value > 0.0
  {
    ExpansionImpliesNatr(bars);
    hide TrueRanges, Sum, VolatilityExpansion;
  }

  lemma DirectionalFacts(state: SymbolState, cfg: SignalConfig)
    requires cfg.structureLookback > 0 && cfg.minExpansion > 0.0
    requires !Evaluate(state, cfg).direction.PASS?
    ensures SoundSignal(state, Evaluate(state, cfg))
  {
    DirectionalBranch(state, cfg);
    hide Evaluate, DetectStructure, Imbalance, DirectionalSignal, VolatilityExpansion, ReferencePrice, WrongSide, Natr;
    DirectionalShape(state, DetectStructure(state.bars, cfg.structureLookback), VolatilityExpansion(state.bars).value,
                     Imbalance(state.takerBuyQuote, state.takerSellQuote),
                     Imbalance(state.bidDepth, state.askDepth), cfg);
    ExpandingNatr(state.bars);
  }

  /** What a directional signal promises about the state it was computed from. */
  lemma DirectionalSignalFacts(state: SymbolState, cfg: SignalConfig)
    requires cfg.structureLookback > 0 && cfg.minExpansion > 0.0
    ensures !Evaluate(state, cfg).direction.PASS? ==> SoundSignal(state, Evaluate(state, cfg))
  {
    hide Evaluate, SoundSignal;
    if !Evaluate(state, cfg).direction.PASS? {
      DirectionalFacts(state, cfg);
    }
  }

  /** `n` spacings stay short of the whole price. */
  predicate LadderFits(spacing: real, n: int) {
    Mul(spacing, n as real) < 1.0
  }

  /** A long ladder runs out exactly when its deepest level does; a short ladder never does. */
  lemma LadderExhaustion(reference: real, d: Direction, spacing: real, n: int)
    requires reference > 0.0 && spacing > 0.0 && n >= 1
    ensures d.LONG? ==> (Exhausted(reference, Sign(d), spacing, n) <==> !LadderFits(spacing, n))
    ensures !d.LONG? ==> !Exhausted(reference, Sign(d), spacing, n)
  {
    hide StepPrice;
    if d.LONG? {
      LevelSign(reference, spacing, n);
      forall i | 1 <= i <= n && LadderFits(spacing, n)
        ensures LevelPositive(reference, 1.0, spacing, i)
      {
        FitsShorter(spacing, i, n);
        LevelSign(reference, spacing, i);
      }
    } else {
      forall i | 1 <= i <= n
        ensures LevelPositive(reference, -1.0, spacing, i)
      {
        StepOrder(reference, -1.0, spacing, 0.0, i as real);
      }
    }
  }

  lemma FitsShorter(spacing: real, i: int, n: int)
    requires spacing > 0.0 && i <= n && LadderFits(spacing, n)
    ensures LadderFits(spacing, i)
  {
    Monotone(spacing, i as real, n as real);
    hide Mul;
  }

  lemma LevelSign(reference: real, spacing: real, i: int)
    requires reference > 0.0
    ensures LevelPositive(reference, 1.0, spacing, i) <==> LadderFits(spacing, i)
  {
    var x := 1.0 - spacing * i as real;
    if x > 0.0 {
      PositiveProduct(reference, x);
    } else if x < 0.0 {
      PositiveProduct(reference, -x);
      assert reference * x == -(reference * -x);
    }
  }

  lemma Monotone(x: real, a: real, b: real)
    requires x > 0.0 && a <= b
    ensures Mul(x, a) <= Mul(x, b)
  {
  }

  lemma ApprovalFacts(signal: Signal, expired: bool, positions: seq<PositionView>, cfg: RiskConfig)
    requires Decide(signal, expired, positions, cfg).approved
    ensures
      var d := Decide(signal, expired, positions, cfg);
      && d.leverage == cfg.leverage
      && RawSize(signal, positions, cfg) > 0.0
      && d.notionalUsdt == RoundAt(RawSize(signal, positions, cfg), 100.0)
      && (d.notionalUsdt > 0.0 <==> RawSize(signal, positions, cfg) > 0.005)
  {
    CentsPositiveIff(RawSize(signal, positions, cfg));
    hide RoundAt, RawSize;
  }

  lemma DirectionalPlanIff(signal: Signal, decision: RiskDecision, state: SymbolState, cfg: GridConfig)
    requires decision.approved && (signal.gridMode.LONG_GRID? || signal.gridMode.SHORT_GRID?)
    requires signal.invalidation.Some? && signal.invalidation.value > 0.0
    requires Natr(state.bars).Some? && Natr(state.bars).value > 0.0
    requires ReferencePrice(state).Some?
    requires !WrongSide(signal.direction, signal.invalidation.value, ReferencePrice(state).value)
    ensures PlanFor(signal, decision, state, cfg).Planned? <==>
              && decision.leverage >= 1
              && decision.notionalUsdt > 0.0
              && state.lastEventTimeMs.Some?
              && (signal.direction.LONG? ==>
                  LadderFits(SpacingBps(Natr(state.bars).value, cfg) / 10000.0, cfg.entryLevels - 1))
  {
    hide Natr, ReferencePrice, SpacingBps, Exhausted, LadderFits, DirectionalPlan, WrongSide;
    var spacing := SpacingBps(Natr(state.bars).value, cfg) / 10000.0;
    LadderExhaustion(ReferencePrice(state).value, signal.direction, spacing, cfg.entryLevels - 1);
  }

  /** A directional signal the risk hub approves becomes a plan exactly when leverage, the rounded size,
      the event stamp and the deepest long level allow it: no other planner fault is reachable. */
  lemma DirectionalPipeline(state: SymbolState, scfg: SignalConfig, expired: bool, positions: seq<PositionView>,
                            rcfg: RiskConfig, gcfg: GridConfig)
    requires scfg.structureLookback > 0 && scfg.minExpansion > 0.0
    ensures
      var signal := Evaluate(state, scfg);
      var decision := Decide(signal, expired, positions, rcfg);
      !signal.direction.PASS? && decision.approved ==>
        && Natr(state.bars).Some?
        && (PlanFor(signal, decision, state, gcfg).Planned? <==>
              && rcfg.leverage >= 1
              && RawSize(signal, positions, rcfg) > 0.005
              && state.lastEventTimeMs.Some?
              && (signal.direction.LONG? ==>
                  LadderFits(SpacingBps(Natr(state.bars).value, gcfg) / 10000.0, gcfg.entryLevels - 1)))
  {
    DirectionalSignalFacts(state, scfg);
    hide Evaluate;
    var signal := Evaluate(state, scfg);
    var decision := Decide(signal, expired, positions, rcfg);
    if !signal.direction.PASS? && decision.approved {
      ApprovalFacts(signal, expired, positions, rcfg);
      hide Decide, RawSize, PlanFor, LadderFits, SpacingBps, RoundAt;
      DirectionalPlanIff(signal, decision, state, gcfg);
    }
  }

  /** Under the bound the configuration can be checked for, approval alone decides. */
  lemma BoundedSpacingNeverRunsOut(volatility: real, cfg: GridConfig)
    requires (cfg.entryLevels - 1) as real * cfg.maxSpacingBps < 10000.0
    ensures LadderFits(SpacingBps(volatility, cfg) / 10000.0, cfg.entryLevels - 1)
  {
    FitsBelow(SpacingBps(volatility, cfg), cfg.maxSpacingBps, (cfg.entryLevels - 1) as real);
  }

  lemma FitsBelow(bps: real, limit: real, n: real)
    requires n > 0.0 && bps <= limit && n * limit < 10000.0
    ensures Mul(bps / 10000.0, n) < 1.0
  {
    var x, y := bps / 10000.0, limit / 10000.0;
    Monotone(n, x, y);
    BelowOne(n, limit);
    Commutes(x, n);
    hide Mul;
  }

  lemma Commutes(x: real, y: real)
    ensures Mul(x, y) == Mul(y, x)
  {
  }

  lemma BelowOne(n: real, limit: real)
    requires n * limit < 10000.0
    ensures Mul(n, limit / 10000.0) < 1.0
  {
    var y := limit / 10000.0;
    assert limit == 10000.0 * y;
    assert n * limit == 10000.0 * (n * y);
  }

  /** The size that rounds to nothing: approved, and still no plan. */
  lemma ApprovedHalfCentFails(state: SymbolState, scfg: SignalConfig, positions: seq<PositionView>, rcfg: RiskConfig,
                              gcfg: GridConfig)
    requires scfg.structureLookback > 0 && scfg.minExpansion > 0.0
    ensures
      var signal := Evaluate(state, scfg);
      var decision := Decide(signal, false, positions, rcfg);
      !signal.direction.PASS? && decision.approved && RawSize(signal, positions, rcfg) <= 0.005 ==>
        PlanFor(signal, decision, state, gcfg) == Faulted(InvalidAllocation)
  {
    DirectionalSignalFacts(state, scfg);
    hide Evaluate;
    var signal := Evaluate(state, scfg);
    if Decide(signal, false, positions, rcfg).approved && RawSize(signal, positions, rcfg) <= 0.005 {
      CentsPositiveIff(RawSize(signal, positions, rcfg));
    }
    hide RoundAt, RawSize;
  }
}
