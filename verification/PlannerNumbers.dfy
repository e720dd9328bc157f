/** What the risk hub approves and what the planner plans, in numbers. */
module PlannerNumbers {
  import opened Models
  import opened Market
  import opened Signals
  import opened Grid
  import Numbers = SignalNumbers

  // ---- Risk ----

  /** What is in use is the sum of the sizes of the positions. */
  lemma UsedMeans(positions: seq<PositionView>, p: PositionView)
    ensures UsedNotional([]) == 0.0
    ensures UsedNotional(positions + [p])
            == UsedNotional(positions) + if p.notionalUsdt < 0.0 then -p.notionalUsdt else p.notionalUsdt
  {
    assert (positions + [p])[..|positions|] == positions;
  }

  /** The size before rounding is the least of the base size, the limit per trade and the room left. */
  function Least(base: real, limit: real, room: real): real {
    if base <= limit && base <= room then base else if limit <= room then limit else room
  }

  lemma SizeMeans(signal: Signal, positions: seq<PositionView>, cfg: RiskConfig)
    ensures RawSize(signal, positions, cfg)
            == Least(cfg.baseNotional * (0.75 + signal.strength), cfg.maxNotionalPerTrade,
                     cfg.maxTotalNotional - UsedNotional(positions))
  {
    hide UsedNotional;
  }

  lemma TakenMeans(positions: seq<PositionView>, symbol: string)
    ensures (exists i :: 0 <= i < |positions| && positions[i].symbol == symbol) <==>
            exists p :: p in positions && p.symbol == symbol
  {
    if p :| p in positions && p.symbol == symbol {
      var i :| 0 <= i < |positions| && positions[i] == p;
    }
  }

  /** A signal is approved exactly when it asks for a grid, is not expired, finds a free slot, no position on its symbol
      and room, and the base size and the limit per trade are above zero. */
  lemma ApprovedIff(signal: Signal, expired: bool, positions: seq<PositionView>, cfg: RiskConfig)
    ensures Decide(signal, expired, positions, cfg).approved <==>
              && signal.gridMode != NO_GRID && !expired
              && |positions| < cfg.maxPositions && !(exists p :: p in positions && p.symbol == signal.symbol)
              && UsedNotional(positions) < cfg.maxTotalNotional
              && cfg.baseNotional * (0.75 + signal.strength) > 0.0 && cfg.maxNotionalPerTrade > 0.0
  {
    SizeMeans(signal, positions, cfg);
    TakenMeans(positions, signal.symbol);
    hide UsedNotional, RoundAt, RawSize;
  }

  /** The approved size is that, to the nearest cent. */
  lemma ApprovedSize(signal: Signal, expired: bool, positions: seq<PositionView>, cfg: RiskConfig) returns (cents: int)
    requires Decide(signal, expired, positions, cfg).approved
    ensures
      var d := Decide(signal, expired, positions, cfg);
      var size := Least(cfg.baseNotional * (0.75 + signal.strength), cfg.maxNotionalPerTrade,
                        cfg.maxTotalNotional - UsedNotional(positions));
      && d.leverage == cfg.leverage
      && d.notionalUsdt * 100.0 == cents as real && -0.5 <= cents as real - size * 100.0 <= 0.5
  {
    SizeMeans(signal, positions, cfg);
    cents := Numbers.RoundAtMeans(RawSize(signal, positions, cfg), 100.0);
    DecidedSize(signal, expired, positions, cfg);
    hide UsedNotional, RoundAt, RawSize, Decide, Least;
  }

  lemma DecidedSize(signal: Signal, expired: bool, positions: seq<PositionView>, cfg: RiskConfig)
    requires Decide(signal, expired, positions, cfg).approved
    ensures Decide(signal, expired, positions, cfg)
            == RiskDecision(true, RoundAt(RawSize(signal, positions, cfg), 100.0), cfg.leverage)
  {
    hide UsedNotional, RoundAt, RawSize;
  }

  // ---- Spacing ----

  /** The spacing follows the volatility between its bounds, and stays on a bound beyond it. */
  lemma SpacingMeans(volatility: real, cfg: GridConfig)
    ensures
      var s, wanted := SpacingBps(volatility, cfg), volatility * 10000.0 * cfg.spacingNatrMultiplier;
      && (wanted <= cfg.minSpacingBps ==> s == cfg.minSpacingBps)
      && (cfg.minSpacingBps <= wanted <= cfg.maxSpacingBps ==> s == wanted)
      && (wanted >= cfg.maxSpacingBps ==> s == cfg.maxSpacingBps)
  {
  }

  // ---- Plans ----

  /** `n` spacings below the reference, or above it. */
  function Below(reference: real, spacingBps: real, n: real): real {
    reference - reference * (spacingBps / 10000.0 * n)
  }

  function Above(reference: real, spacingBps: real, n: real): real {
    reference + reference * (spacingBps / 10000.0 * n)
  }

  lemma StepMeans(reference: real, spacingBps: real, n: real)
    ensures StepPrice(reference, 1.0, spacingBps / 10000.0, n) == Below(reference, spacingBps, n)
    ensures StepPrice(reference, -1.0, spacingBps / 10000.0, n) == Above(reference, spacingBps, n)
  {
    var x := spacingBps / 10000.0 * n;
    assert 1.0 * (spacingBps / 10000.0) * n == x && -1.0 * (spacingBps / 10000.0) * n == -x;
    assert reference * (1.0 - x) == reference - reference * x;
    assert reference * (1.0 - -x) == reference + reference * x;
  }

  lemma {:induction false} DirectionalLevelAt(d: Direction, reference: real, spacing: real, starter: real,
                                              perLimit: real, n: nat, i: nat)
    requires i < n
    ensures
      DirectionalEntries(d, reference, spacing, starter, perLimit, n)[i]
      == if i == 0 then GridEntryLevel(0, MARKET, reference, starter, d)
         else GridEntryLevel(i, LIMIT, StepPrice(reference, Sign(d), spacing, i as real), perLimit, d)
  {
    hide StepPrice;
    if i < n - 1 {
      DirectionalLevelAt(d, reference, spacing, starter, perLimit, n - 1, i);
    }
  }

  lemma {:induction false} NeutralLevelsAt(reference: real, spacing: real, perLevel: real, levels: int, n: nat, i: nat)
    requires 1 <= i <= n
    ensures
      var es := NeutralEntries(reference, spacing, perLevel, levels, n);
      && es[2 * i - 2] == GridEntryLevel(i, LIMIT, StepPrice(reference, 1.0, spacing, i as real), perLevel, LONG)
      && es[2 * i - 1] == GridEntryLevel(levels + i, LIMIT, StepPrice(reference, -1.0, spacing, i as real), perLevel,
                                         SHORT)
  {
    hide StepPrice;
    if i < n {
      NeutralLevelsAt(reference, spacing, perLevel, levels, n - 1, i);
    }
  }

  /** A directional plan starts with its share at the reference, then has its LIMIT levels, evenly spaced on the losing
      side, with equal parts of the rest, and takes profit so many spacings on the winning side. */
  lemma DirectionalPlanNumbers(signal: Signal, decision: RiskDecision, reference: real, spacingBps: real,
                               invalidation: real, eventMs: int, cfg: GridConfig)
    requires signal.direction.LONG? || signal.direction.SHORT?
    ensures
      var p := DirectionalPlan(signal, decision, reference, spacingBps, invalidation, eventMs, cfg);
      var total, long := decision.notionalUsdt, signal.direction.LONG?;
      var rest := total - total * cfg.starterFraction;
      && p.campaignId == CampaignId(signal.symbol, signal.gridMode, signal.setup, eventMs)
      && p.symbol == signal.symbol && p.direction == signal.direction && p.mode == signal.gridMode
      && p.referencePrice == reference && p.totalNotional == total && p.leverage == decision.leverage
      && p.spacingBps == spacingBps && p.invalidation == invalidation && p.expiresAtMs == 0
      && p.takeProfit == (if long then Above(reference, spacingBps, cfg.takeProfitSteps)
                          else Below(reference, spacingBps, cfg.takeProfitSteps))
      && |p.entries| == cfg.entryLevels
      && p.entries[0] == GridEntryLevel(0, MARKET, reference, total * cfg.starterFraction, signal.direction)
      && forall i | 1 <= i < cfg.entryLevels ::
           && p.entries[i].index == i && p.entries[i].kind == LIMIT && p.entries[i].direction == signal.direction
           && p.entries[i].notionalUsdt * (cfg.entryLevels - 1) as real == rest
           && p.entries[i].price == if long then Below(reference, spacingBps, i as real)
                                    else Above(reference, spacingBps, i as real)
  {
    var p := DirectionalPlan(signal, decision, reference, spacingBps, invalidation, eventMs, cfg);
    var total, d := decision.notionalUsdt, signal.direction;
    var starter, perLimit := StarterNotional(total, cfg), LimitNotional(total, cfg);
    StepMeans(reference, spacingBps, cfg.takeProfitSteps);
    Numbers.Undone(total - starter, (cfg.entryLevels - 1) as real);
    DirectionalLevelAt(d, reference, spacingBps / 10000.0, starter, perLimit, cfg.entryLevels, 0);
    hide StepPrice, Below, Above, DirectionalEntries, StarterNotional, LimitNotional;
    forall i | 1 <= i < cfg.entryLevels
      ensures
        && p.entries[i].index == i && p.entries[i].kind == LIMIT && p.entries[i].direction == d
        && p.entries[i].notionalUsdt == perLimit
        && p.entries[i].price == if d.LONG? then Below(reference, spacingBps, i as real)
                                 else Above(reference, spacingBps, i as real)
    {
      DirectionalLevelAt(d, reference, spacingBps / 10000.0, starter, perLimit, cfg.entryLevels, i);
      StepMeans(reference, spacingBps, i as real);
    }
  }

  /** A neutral plan has equal buys below and sells above the reference, evenly spaced, both stops so many spacings
      away, both targets at the reference, and a time to live. */
  lemma NeutralPlanNumbers(signal: Signal, decision: RiskDecision, reference: real, spacingBps: real, eventMs: int,
                           cfg: GridConfig)
    ensures
      var p := NeutralPlan(signal, decision, reference, spacingBps, eventMs, cfg);
      var total, levels := decision.notionalUsdt, cfg.neutralLevelsPerSide;
      && p.campaignId == CampaignId(signal.symbol, signal.gridMode, signal.setup, eventMs)
      && p.symbol == signal.symbol && p.direction == PASS && p.mode == NEUTRAL_GRID
      && p.referencePrice == reference && p.totalNotional == total && p.leverage == decision.leverage
      && p.spacingBps == spacingBps
      && p.neutralLongInvalidation == Some(Below(reference, spacingBps, cfg.neutralStopSteps))
      && p.neutralShortInvalidation == Some(Above(reference, spacingBps, cfg.neutralStopSteps))
      && p.neutralLongTakeProfit == Some(reference) && p.neutralShortTakeProfit == Some(reference)
      && p.expiresAtMs == eventMs + (cfg.neutralTtlSeconds * 1000.0).Floor
      && |p.entries| == 2 * levels
      && forall i | 1 <= i <= levels ::
           var buy, sell := p.entries[2 * i - 2], p.entries[2 * i - 1];
           && buy.index == i && buy.kind == LIMIT && buy.direction == LONG
           && buy.price == Below(reference, spacingBps, i as real)
           && buy.notionalUsdt * (2 * levels) as real == total
           && sell.index == levels + i && sell.kind == LIMIT && sell.direction == SHORT
           && sell.price == Above(reference, spacingBps, i as real)
           && sell.notionalUsdt * (2 * levels) as real == total
  {
    var p := NeutralPlan(signal, decision, reference, spacingBps, eventMs, cfg);
    var total, levels := decision.notionalUsdt, cfg.neutralLevelsPerSide;
    var perLevel := NeutralNotional(total, cfg);
    StepMeans(reference, spacingBps, cfg.neutralStopSteps);
    Numbers.Undone(total, (2 * levels) as real);
    assert perLevel * (2 * levels) as real == total;
    hide StepPrice, Below, Above, NeutralEntries, NeutralNotional;
    forall i | 1 <= i <= levels
      ensures
        var buy, sell := p.entries[2 * i - 2], p.entries[2 * i - 1];
        && buy.index == i && buy.kind == LIMIT && buy.direction == LONG && buy.notionalUsdt == perLevel
        && buy.price == Below(reference, spacingBps, i as real)
        && sell.index == levels + i && sell.kind == LIMIT && sell.direction == SHORT && sell.notionalUsdt == perLevel
        && sell.price == Above(reference, spacingBps, i as real)
    {
      NeutralLevelsAt(reference, spacingBps / 10000.0, perLevel, levels, levels, i);
      StepMeans(reference, spacingBps, i as real);
    }
  }

  predicate BuyAboveZero(reference: real, spacingBps: real, i: int) {
    Below(reference, spacingBps, i as real) > 0.0
  }

  /** Every buy of a ladder of `n` levels stays above zero. */
  ghost predicate StaysPositive(reference: real, spacingBps: real, n: int) {
    forall i | 1 <= i <= n :: BuyAboveZero(reference, spacingBps, i)
  }

  lemma LevelSigns(reference: real, spacingBps: real, i: int)
    requires reference > 0.0 && spacingBps > 0.0 && i >= 1
    ensures LevelPositive(reference, 1.0, spacingBps / 10000.0, i) <==> BuyAboveZero(reference, spacingBps, i)
    ensures LevelPositive(reference, -1.0, spacingBps / 10000.0, i)
  {
    StepMeans(reference, spacingBps, i as real);
    StepOrder(reference, -1.0, spacingBps / 10000.0, 0.0, i as real);
    hide StepPrice, Below, Above;
  }

  lemma NotExhaustedMeans(reference: real, spacingBps: real, n: int)
    requires reference > 0.0 && spacingBps > 0.0
    ensures Exhausted(reference, 1.0, spacingBps / 10000.0, n) <==> !StaysPositive(reference, spacingBps, n)
    ensures !Exhausted(reference, -1.0, spacingBps / 10000.0, n)
  {
    hide LevelPositive, BuyAboveZero;
    var spacing := spacingBps / 10000.0;
    forall i | 1 <= i <= n ensures LevelPositive(reference, -1.0, spacing, i) {
      LevelSigns(reference, spacingBps, i);
    }
    if StaysPositive(reference, spacingBps, n) {
      forall i | 1 <= i <= n ensures LevelPositive(reference, 1.0, spacing, i) {
        LevelSigns(reference, spacingBps, i);
      }
    } else {
      var i :| 1 <= i <= n && !BuyAboveZero(reference, spacingBps, i);
      LevelSigns(reference, spacingBps, i);
    }
  }

  /** Exactly when there is a plan: the decision is an approval of a grid with a positive size and a leverage,
      volatility, reference and event stamp are there, a one-sided signal has a positive invalidation on its losing
      side, and every buy level of the ladder stays above zero. */
  lemma PlannedIff(signal: Signal, decision: RiskDecision, state: SymbolState, cfg: GridConfig)
    ensures
      PlanFor(signal, decision, state, cfg).Planned? <==>
        && decision.approved && signal.gridMode != NO_GRID && decision.notionalUsdt > 0.0 && decision.leverage >= 1
        && Natr(state.bars).Some? && Natr(state.bars).value > 0.0
        && ReferencePrice(state).Some? && state.lastEventTimeMs.Some?
        && var reference, spacing := ReferencePrice(state).value, SpacingBps(Natr(state.bars).value, cfg);
        if signal.gridMode == NEUTRAL_GRID then StaysPositive(reference, spacing, cfg.neutralLevelsPerSide)
        else
          && signal.invalidation.Some? && signal.invalidation.value > 0.0
          && if signal.direction.LONG?
             then signal.invalidation.value < reference && StaysPositive(reference, spacing, cfg.entryLevels - 1)
             else signal.invalidation.value > reference
  {
    hide Natr, ReferencePrice, SpacingBps, Exhausted, NeutralPlan, DirectionalPlan, StaysPositive;
    if Natr(state.bars).Some? && ReferencePrice(state).Some? {
      var reference, spacing := ReferencePrice(state).value, SpacingBps(Natr(state.bars).value, cfg);
      NotExhaustedMeans(reference, spacing, cfg.neutralLevelsPerSide);
      NotExhaustedMeans(reference, spacing, cfg.entryLevels - 1);
    }
  }

  /** A plan is one of the two above, on the state's reference, volatility and stamp. */
  lemma PlanIsOneOfTwo(signal: Signal, decision: RiskDecision, state: SymbolState, cfg: GridConfig)
    requires PlanFor(signal, decision, state, cfg).Planned?
    ensures Natr(state.bars).Some? && ReferencePrice(state).Some? && state.lastEventTimeMs.Some?
    ensures
      var reference, spacing := ReferencePrice(state).value, SpacingBps(Natr(state.bars).value, cfg);
      PlanFor(signal, decision, state, cfg).plan ==
        if signal.gridMode == NEUTRAL_GRID
        then NeutralPlan(signal, decision, reference, spacing, state.lastEventTimeMs.value, cfg)
        else if signal.invalidation.Some?
        then DirectionalPlan(signal, decision, reference, spacing, signal.invalidation.value,
                             state.lastEventTimeMs.value, cfg)
        else PlanFor(signal, decision, state, cfg).plan
  {
    hide Natr, ReferencePrice, SpacingBps, Exhausted, NeutralPlan, DirectionalPlan;
  }

  /** Without a plan the fault is the first check that fails, in the order they are made. */
  lemma FaultIsFirst(signal: Signal, decision: RiskDecision, state: SymbolState, cfg: GridConfig)
    requires PlanFor(signal, decision, state, cfg).Faulted?
    ensures
      var neutral, inv := signal.gridMode == NEUTRAL_GRID, signal.invalidation;
      PlanFor(signal, decision, state, cfg).fault ==
        if !decision.approved then NotApproved
        else if signal.gridMode == NO_GRID then NotAGrid
        else if !neutral && (inv.None? || inv.value <= 0.0) then InvalidationRequired
        else if decision.notionalUsdt <= 0.0 || decision.leverage < 1 then InvalidAllocation
        else if Natr(state.bars).None? || Natr(state.bars).value <= 0.0 then WarmupIncomplete
        else if ReferencePrice(state).None? then NoReferencePrice
        else
          var reference, spacing := ReferencePrice(state).value, SpacingBps(Natr(state.bars).value, cfg);
          if neutral then
            if !StaysPositive(reference, spacing, cfg.neutralLevelsPerSide) then LevelNotPositive else NoEventTime
          else if signal.direction.LONG? && inv.value >= reference then InvalidationWrongSide
          else if !signal.direction.LONG? && inv.value <= reference then InvalidationWrongSide
          else if signal.direction.LONG? && !StaysPositive(reference, spacing, cfg.entryLevels - 1)
          then LevelNotPositive
          else NoEventTime
  {
    hide Natr, ReferencePrice, SpacingBps, Exhausted, NeutralPlan, DirectionalPlan, StaysPositive;
    if Natr(state.bars).Some? && ReferencePrice(state).Some? {
      var reference, spacing := ReferencePrice(state).value, SpacingBps(Natr(state.bars).value, cfg);
      NotExhaustedMeans(reference, spacing, cfg.neutralLevelsPerSide);
      NotExhaustedMeans(reference, spacing, cfg.entryLevels - 1);
    }
  }
}
