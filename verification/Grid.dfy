/** Risk sizing and the bounded grid plan. */
module Grid {
  import opened Models
  import opened Market
  import opened Signals

  datatype PositionView = PositionView(symbol: string, direction: Direction, notionalUsdt: real)

  datatype RiskConfig = RiskConfig(
    maxPositions: int,
    maxTotalNotional: real,
    baseNotional: real,
    maxNotionalPerTrade: real,
    leverage: int)

  datatype RiskDecision = RiskDecision(approved: bool, notionalUsdt: real, leverage: int)

  const REJECTED := RiskDecision(false, 0.0, 1)

  function UsedNotional(positions: seq<PositionView>): real {
    if positions == [] then 0.0
    else UsedNotional(positions[..|positions| - 1]) + Abs(positions[|positions| - 1].notionalUsdt)
  }

  /** The size before rounding to cents. */
  function RawSize(signal: Signal, positions: seq<PositionView>, cfg: RiskConfig): real {
    MinReal(cfg.baseNotional * (0.75 + signal.strength),
            MinReal(cfg.maxNotionalPerTrade, cfg.maxTotalNotional - UsedNotional(positions)))
  }

  function Decide(signal: Signal, expired: bool, positions: seq<PositionView>, cfg: RiskConfig): RiskDecision {
    if signal.gridMode.NO_GRID? || expired then REJECTED
    else if |positions| >= cfg.maxPositions then REJECTED
    else if exists i :: 0 <= i < |positions| && positions[i].symbol == signal.symbol then REJECTED
    else if cfg.maxTotalNotional - UsedNotional(positions) <= 0.0 then REJECTED
    else
      var size := RawSize(signal, positions, cfg);
      if size <= 0.0 then REJECTED else RiskDecision(true, RoundAt(size, 100.0), cfg.leverage)
  }

  datatype GridSettings = GridSettings(
    entryLevels: int,
    starterFraction: real,
    spacingNatrMultiplier: real,
    minSpacingBps: real,
    maxSpacingBps: real,
    takeProfitSteps: real,
    neutralLevelsPerSide: int,
    neutralStopSteps: real,
    neutralTtlSeconds: real)

  predicate ValidSettings(c: GridSettings) {
    && 2 <= c.entryLevels <= 6
    && 0.0 < c.starterFraction < 1.0
    && c.spacingNatrMultiplier > 0.0
    && 0.0 < c.minSpacingBps <= c.maxSpacingBps
    && c.takeProfitSteps > 0.0
    && 1 <= c.neutralLevelsPerSide <= 3
    && c.neutralStopSteps > c.neutralLevelsPerSide as real
    && c.neutralTtlSeconds > 0.0
  }

  type GridConfig = c: GridSettings | ValidSettings(c)
    witness GridSettings(4, 0.40, 0.35, 15.0, 120.0, 1.5, 2, 3.0, 300.0)

  datatype EntryKind = MARKET | LIMIT

  datatype GridEntryLevel = GridEntryLevel(index: int, kind: EntryKind, price: real, notionalUsdt: real,
                                           direction: Direction)

  datatype GridPlan = GridPlan(
    campaignId: CampaignId,
    symbol: string,
    direction: Direction,
    referencePrice: real,
    totalNotional: real,
    leverage: int,
    spacingBps: real,
    invalidation: real,
    takeProfit: real,
    entries: seq<GridEntryLevel>,
    mode: GridMode,
    neutralLongInvalidation: Option<real>,
    neutralLongTakeProfit: Option<real>,
    neutralShortInvalidation: Option<real>,
    neutralShortTakeProfit: Option<real>,
    expiresAtMs: int)

  datatype PlanFault =
    | NotApproved | NotAGrid | InvalidationRequired | InvalidAllocation | WarmupIncomplete | NoReferencePrice
    | LevelNotPositive | NoEventTime | InvalidationWrongSide

  datatype PlanResult = Planned(plan: GridPlan) | Faulted(fault: PlanFault)

  function SpacingBps(volatility: real, cfg: GridConfig): (r: real)
    ensures 0.0 < r <= cfg.maxSpacingBps
  {
    MinReal(cfg.maxSpacingBps, MaxReal(cfg.minSpacingBps, volatility * 10000.0 * cfg.spacingNatrMultiplier))
  }

  /** `steps` spacings away from the reference, on the losing side of a `side` position. */
  function StepPrice(reference: real, side: real, spacing: real, steps: real): real {
    reference * (1.0 - side * spacing * steps)
  }

  function DirectionalLevel(d: Direction, reference: real, spacing: real, notional: real, index: int): GridEntryLevel {
    GridEntryLevel(index, LIMIT, StepPrice(reference, Sign(d), spacing, index as real), notional, d)
  }

  /** The first `n` directional entries: the starter, then the pullback ladder. */
  function DirectionalEntries(d: Direction, reference: real, spacing: real, starter: real, perLimit: real,
                              n: nat): (r: seq<GridEntryLevel>)
    ensures |r| == n
  {
    if n == 0 then []
    else if n == 1 then [GridEntryLevel(0, MARKET, reference, starter, d)]
    else DirectionalEntries(d, reference, spacing, starter, perLimit, n - 1)
         + [DirectionalLevel(d, reference, spacing, perLimit, n - 1)]
  }

  /** The first `n` pairs of the two-sided ladder of `levels` levels a side. */
  function NeutralEntries(reference: real, spacing: real, perLevel: real, levels: int, n: nat): (r: seq<GridEntryLevel>)
    ensures |r| == 2 * n
  {
    if n == 0 then []
    else NeutralEntries(reference, spacing, perLevel, levels, n - 1)
         + [GridEntryLevel(n, LIMIT, StepPrice(reference, 1.0, spacing, n as real), perLevel, LONG),
            GridEntryLevel(levels + n, LIMIT, StepPrice(reference, -1.0, spacing, n as real), perLevel, SHORT)]
  }

  function StarterNotional(total: real, cfg: GridConfig): real {
    total * cfg.starterFraction
  }

  function LimitNotional(total: real, cfg: GridConfig): real {
    (total - StarterNotional(total, cfg)) / (cfg.entryLevels - 1) as real
  }

  function NeutralNotional(total: real, cfg: GridConfig): real {
    total / (2 * cfg.neutralLevelsPerSide) as real
  }

  function NeutralPlan(signal: Signal, decision: RiskDecision, reference: real, spacingBps: real, eventMs: int,
                       cfg: GridConfig): GridPlan {
    var spacing := spacingBps / 10000.0;
    var levels := cfg.neutralLevelsPerSide;
    GridPlan(CampaignId(signal.symbol, signal.gridMode, signal.setup, eventMs), signal.symbol, PASS, reference,
             decision.notionalUsdt, decision.leverage, spacingBps, 0.0, reference,
             NeutralEntries(reference, spacing, NeutralNotional(decision.notionalUsdt, cfg), levels, levels),
             NEUTRAL_GRID,
             Some(StepPrice(reference, 1.0, spacing, cfg.neutralStopSteps)), Some(reference),
             Some(StepPrice(reference, -1.0, spacing, cfg.neutralStopSteps)), Some(reference),
             eventMs + (cfg.neutralTtlSeconds * 1000.0).Floor)
  }

  function DirectionalPlan(signal: Signal, decision: RiskDecision, reference: real, spacingBps: real,
                           invalidation: real, eventMs: int, cfg: GridConfig): GridPlan {
    var spacing := spacingBps / 10000.0;
    var starter := StarterNotional(decision.notionalUsdt, cfg);
    var perLimit := LimitNotional(decision.notionalUsdt, cfg);
    GridPlan(CampaignId(signal.symbol, signal.gridMode, signal.setup, eventMs), signal.symbol, signal.direction,
             reference, decision.notionalUsdt, decision.leverage, spacingBps, invalidation,
             StepPrice(reference, -Sign(signal.direction), spacing, cfg.takeProfitSteps),
             DirectionalEntries(signal.direction, reference, spacing, starter, perLimit, cfg.entryLevels),
             signal.gridMode, None, None, None, None, 0)
  }

  predicate WrongSide(d: Direction, invalidation: real, reference: real) {
    if d.LONG? then invalidation >= reference else invalidation <= reference
  }

  predicate LevelPositive(reference: real, side: real, spacing: real, index: int) {
    StepPrice(reference, side, spacing, index as real) > 0.0
  }

  /** Some of the levels 1..n of a `side` ladder is at or below zero. */
  predicate Exhausted(reference: real, side: real, spacing: real, n: int) {
    exists i :: 1 <= i <= n && !LevelPositive(reference, side, spacing, i)
  }

  function PlanFor(signal: Signal, decision: RiskDecision, state: SymbolState, cfg: GridConfig): PlanResult {
    if !decision.approved then Faulted(NotApproved)
    else if signal.gridMode.NO_GRID? then Faulted(NotAGrid)
    else if !signal.gridMode.NEUTRAL_GRID? && (signal.invalidation.None? || signal.invalidation.value <= 0.0) then
      Faulted(InvalidationRequired)
    else if decision.notionalUsdt <= 0.0 || decision.leverage < 1 then Faulted(InvalidAllocation)
    else
      var volatility := Natr(state.bars);
      if volatility.None? || volatility.value <= 0.0 then Faulted(WarmupIncomplete)
      else if ReferencePrice(state).None? then Faulted(NoReferencePrice)
      else
        var reference := ReferencePrice(state).value;
        var spacingBps := SpacingBps(volatility.value, cfg);
        if signal.gridMode.NEUTRAL_GRID? then
          if Exhausted(reference, 1.0, spacingBps / 10000.0, cfg.neutralLevelsPerSide) then Faulted(LevelNotPositive)
          else if state.lastEventTimeMs.None? then Faulted(NoEventTime)
          else Planned(NeutralPlan(signal, decision, reference, spacingBps, state.lastEventTimeMs.value, cfg))
        else if WrongSide(signal.direction, signal.invalidation.value, reference) then Faulted(InvalidationWrongSide)
        else if Exhausted(reference, Sign(signal.direction), spacingBps / 10000.0, cfg.entryLevels - 1) then
          Faulted(LevelNotPositive)
        else if state.lastEventTimeMs.None? then Faulted(NoEventTime)
        else Planned(DirectionalPlan(signal, decision, reference, spacingBps, signal.invalidation.value,
                                     state.lastEventTimeMs.value, cfg))
  }

  method BuildGridPlan(signal: Signal, decision: RiskDecision, state: SymbolState, cfg: GridConfig)
    returns (result: PlanResult)
    ensures result == PlanFor(signal, decision, state, cfg)
  {
    hide Natr, ReferencePrice, SpacingBps, NeutralPlan, DirectionalPlan, Exhausted;
    if !decision.approved { return Faulted(NotApproved); }
    if signal.gridMode.NO_GRID? { return Faulted(NotAGrid); }
    if !signal.gridMode.NEUTRAL_GRID? && (signal.invalidation.None? || signal.invalidation.value <= 0.0) {
      return Faulted(InvalidationRequired);
    }
    if decision.notionalUsdt <= 0.0 || decision.leverage < 1 { return Faulted(InvalidAllocation); }
    var volatility := Natr(state.bars);
    if volatility.None? || volatility.value <= 0.0 { return Faulted(WarmupIncomplete); }
    var price := ReferencePrice(state);
    if price.None? { return Faulted(NoReferencePrice); }
    var reference := price.value;
    var spacingBps := SpacingBps(volatility.value, cfg);
    if signal.gridMode.NEUTRAL_GRID? {
      result := BuildNeutral(signal, decision, state, reference, spacingBps, cfg);
    } else {
      if WrongSide(signal.direction, signal.invalidation.value, reference) { return Faulted(InvalidationWrongSide); }
      result := BuildDirectional(signal, decision, state, reference, spacingBps, signal.invalidation.value, cfg);
    }
  }

  method BuildNeutral(signal: Signal, decision: RiskDecision, state: SymbolState, reference: real, spacingBps: real,
                      cfg: GridConfig)
    returns (result: PlanResult)
    ensures Exhausted(reference, 1.0, spacingBps / 10000.0, cfg.neutralLevelsPerSide) ==>
              result == Faulted(LevelNotPositive)
    ensures !Exhausted(reference, 1.0, spacingBps / 10000.0, cfg.neutralLevelsPerSide) ==>
              result == if state.lastEventTimeMs.None? then Faulted(NoEventTime)
                        else Planned(NeutralPlan(signal, decision, reference, spacingBps, state.lastEventTimeMs.value,
                                                 cfg))
  {
    hide StepPrice, NeutralNotional;
    var spacing := spacingBps / 10000.0;
    var levels := cfg.neutralLevelsPerSide;
    var perLevel := NeutralNotional(decision.notionalUsdt, cfg);
    var entries: seq<GridEntryLevel> := [];
    for index := 1 to levels + 1
      invariant entries == NeutralEntries(reference, spacing, perLevel, levels, index - 1)
      invariant forall i | 1 <= i < index :: LevelPositive(reference, 1.0, spacing, i)
    {
      var buyPrice := StepPrice(reference, 1.0, spacing, index as real);
      var sellPrice := StepPrice(reference, -1.0, spacing, index as real);
      if buyPrice <= 0.0 {
        assert !LevelPositive(reference, 1.0, spacing, index);
        return Faulted(LevelNotPositive);
      }
      entries := entries + [GridEntryLevel(index, LIMIT, buyPrice, perLevel, LONG)];
      entries := entries + [GridEntryLevel(levels + index, LIMIT, sellPrice, perLevel, SHORT)];
    }
    if state.lastEventTimeMs.None? {
      return Faulted(NoEventTime);
    }
    var eventMs := state.lastEventTimeMs.value;
    result := Planned(GridPlan(
      CampaignId(signal.symbol, signal.gridMode, signal.setup, eventMs), signal.symbol, PASS, reference,
      decision.notionalUsdt, decision.leverage, spacingBps, 0.0, reference, entries, NEUTRAL_GRID,
      Some(StepPrice(reference, 1.0, spacing, cfg.neutralStopSteps)), Some(reference),
      Some(StepPrice(reference, -1.0, spacing, cfg.neutralStopSteps)), Some(reference),
      eventMs + (cfg.neutralTtlSeconds * 1000.0).Floor));
  }

  method BuildDirectional(signal: Signal, decision: RiskDecision, state: SymbolState, reference: real, spacingBps: real,
                          invalidation: real, cfg: GridConfig)
    returns (result: PlanResult)
    ensures Exhausted(reference, Sign(signal.direction), spacingBps / 10000.0, cfg.entryLevels - 1) ==>
              result == Faulted(LevelNotPositive)
    ensures !Exhausted(reference, Sign(signal.direction), spacingBps / 10000.0, cfg.entryLevels - 1) ==>
              result == if state.lastEventTimeMs.None? then Faulted(NoEventTime)
                        else Planned(DirectionalPlan(signal, decision, reference, spacingBps, invalidation,
                                                     state.lastEventTimeMs.value, cfg))
  {
    hide StepPrice, StarterNotional, LimitNotional;
    var spacing := spacingBps / 10000.0;
    var side := Sign(signal.direction);
    var starter := StarterNotional(decision.notionalUsdt, cfg);
    var perLimit := LimitNotional(decision.notionalUsdt, cfg);
    var entries := [GridEntryLevel(0, MARKET, reference, starter, signal.direction)];
    for index := 1 to cfg.entryLevels
      invariant entries == DirectionalEntries(signal.direction, reference, spacing, starter, perLimit, index)
      invariant forall i | 1 <= i < index :: LevelPositive(reference, side, spacing, i)
    {
      var price := StepPrice(reference, side, spacing, index as real);
      if price <= 0.0 {
        assert !LevelPositive(reference, side, spacing, index);
        return Faulted(LevelNotPositive);
      }
      entries := entries + [GridEntryLevel(index, LIMIT, price, perLimit, signal.direction)];
    }
    if state.lastEventTimeMs.None? {
      return Faulted(NoEventTime);
    }
    var eventMs := state.lastEventTimeMs.value;
    result := Planned(GridPlan(
      CampaignId(signal.symbol, signal.gridMode, signal.setup, eventMs), signal.symbol, signal.direction, reference,
      decision.notionalUsdt, decision.leverage, spacingBps, invalidation,
      StepPrice(reference, -side, spacing, cfg.takeProfitSteps), entries, signal.gridMode, None, None, None, None, 0));
  }

  // ---- Geometry of a plan ----

  function Allotted(entries: seq<GridEntryLevel>, d: Direction): real {
    if entries == [] then 0.0
    else Allotted(entries[..|entries| - 1], d)
         + if entries[|entries| - 1].direction == d then entries[|entries| - 1].notionalUsdt else 0.0
  }

  ghost predicate DistinctIndices(entries: seq<GridEntryLevel>) {
    forall i, j | 0 <= i < |entries| && 0 <= j < |entries| && entries[i].index == entries[j].index :: i == j
  }

  ghost predicate LadderLevelOk(l: GridEntryLevel, reference: real) {
    && l.kind.LIMIT?
    && l.price > 0.0 && l.notionalUsdt > 0.0
    && (l.direction.LONG? || l.direction.SHORT?)
    && (l.direction.LONG? ==> l.price < reference)
    && (l.direction.SHORT? ==> l.price > reference)
  }

  /** Starter at the reference, ladder strictly on the losing side, stop and target on either side of it all. */
  ghost predicate DirectionalShape(p: GridPlan) {
    && !p.mode.NEUTRAL_GRID? && !p.mode.NO_GRID?
    && p.referencePrice > 0.0 && p.totalNotional > 0.0
    && |p.entries| >= 2
    && p.entries[0].kind.MARKET? && p.entries[0].price == p.referencePrice && p.entries[0].notionalUsdt > 0.0
    && (forall i | 0 <= i < |p.entries| :: p.entries[i].direction == p.direction && p.entries[i].index == i)
    && (forall i | 1 <= i < |p.entries| ::
          && p.entries[i].kind.LIMIT? && p.entries[i].price > 0.0 && p.entries[i].notionalUsdt > 0.0
          && if p.direction.LONG? then p.entries[i].price < p.referencePrice else p.entries[i].price > p.referencePrice)
    && Allotted(p.entries, p.direction) == p.totalNotional
    && p.invalidation > 0.0
    && (if p.direction.LONG? then p.invalidation < p.referencePrice < p.takeProfit
        else p.takeProfit < p.referencePrice < p.invalidation)
  }

  /** Buys below and sells above the reference, both stops beyond every level, half the notional a side. */
  ghost predicate NeutralShape(p: GridPlan) {
    && p.mode.NEUTRAL_GRID? && p.direction.PASS?
    && p.referencePrice > 0.0 && p.totalNotional > 0.0
    && p.entries != []
    && p.neutralLongInvalidation.Some? && p.neutralShortInvalidation.Some?
    && p.neutralLongTakeProfit == Some(p.referencePrice) && p.neutralShortTakeProfit == Some(p.referencePrice)
    && DistinctIndices(p.entries)
    && (forall i | 0 <= i < |p.entries| ::
          && LadderLevelOk(p.entries[i], p.referencePrice)
          && (p.entries[i].direction.LONG? ==> p.neutralLongInvalidation.value < p.entries[i].price)
          && (p.entries[i].direction.SHORT? ==> p.entries[i].price < p.neutralShortInvalidation.value))
    && Allotted(p.entries, LONG) == p.totalNotional / 2.0
    && Allotted(p.entries, SHORT) == p.totalNotional / 2.0
  }

  ghost predicate WellShaped(p: GridPlan) {
    DirectionalShape(p) || NeutralShape(p)
  }

  lemma StepOrder(reference: real, side: real, spacing: real, a: real, b: real)
    requires reference > 0.0 && spacing > 0.0 && 0.0 <= a < b
    ensures side == 1.0 ==> StepPrice(reference, side, spacing, b) < StepPrice(reference, side, spacing, a)
    ensures side == -1.0 ==> StepPrice(reference, side, spacing, a) < StepPrice(reference, side, spacing, b)
    ensures StepPrice(reference, side, spacing, 0.0) == reference
  {
    assert spacing * a < spacing * b;
    Scale(reference, spacing * a, spacing * b);
  }

  lemma Scale(x: real, a: real, b: real)
    requires x > 0.0 && a < b
    ensures x * (1.0 - b) < x * (1.0 - a)
    ensures x * (1.0 + a) < x * (1.0 + b)
  {
  }

  lemma {:induction false} DirectionalEntriesShape(d: Direction, reference: real, spacing: real, starter: real,
                                                   perLimit: real, n: nat)
    requires n >= 1 && reference > 0.0 && spacing > 0.0
    requires !Exhausted(reference, Sign(d), spacing, n - 1)
    ensures
      var es := DirectionalEntries(d, reference, spacing, starter, perLimit, n);
      && es[0] == GridEntryLevel(0, MARKET, reference, starter, d)
      && (forall i | 0 <= i < n :: es[i].index == i && es[i].direction == d)
      && (forall i | 1 <= i < n ::
            && es[i].kind.LIMIT? && es[i].notionalUsdt == perLimit && es[i].price > 0.0
            && if d.LONG? then es[i].price < reference else es[i].price > reference)
  {
    hide StepPrice;
    if n > 1 {
      DirectionalEntriesShape(d, reference, spacing, starter, perLimit, n - 1);
      StepOrder(reference, Sign(d), spacing, 0.0, (n - 1) as real);
      assert LevelPositive(reference, Sign(d), spacing, n - 1);
    }
  }

  function Times(n: nat, x: real): real {
    if n == 0 then 0.0 else Times(n - 1, x) + x
  }

  lemma {:induction false} TimesIsProduct(n: nat, x: real)
    ensures Times(n, x) == n as real * x
  {
    if n > 0 {
      TimesIsProduct(n - 1, x);
    }
  }

  lemma {:induction false} DirectionalAllotment(d: Direction, reference: real, spacing: real, starter: real,
                                                perLimit: real, n: nat)
    requires n >= 1
    ensures Allotted(DirectionalEntries(d, reference, spacing, starter, perLimit, n), d)
            == starter + Times(n - 1, perLimit)
  {
    var es := DirectionalEntries(d, reference, spacing, starter, perLimit, n);
    if n == 1 {
      assert es[..0] == [];
    } else {
      DirectionalAllotment(d, reference, spacing, starter, perLimit, n - 1);
      assert es[..n - 1] == DirectionalEntries(d, reference, spacing, starter, perLimit, n - 1);
    }
  }

  lemma {:induction false} NeutralAllotment(reference: real, spacing: real, perLevel: real, levels: int, n: nat)
    ensures Allotted(NeutralEntries(reference, spacing, perLevel, levels, n), LONG) == Times(n, perLevel)
    ensures Allotted(NeutralEntries(reference, spacing, perLevel, levels, n), SHORT) == Times(n, perLevel)
  {
    hide StepPrice;
    if n > 0 {
      NeutralAllotment(reference, spacing, perLevel, levels, n - 1);
      var es := NeutralEntries(reference, spacing, perLevel, levels, n);
      var prior := NeutralEntries(reference, spacing, perLevel, levels, n - 1);
      assert es[..|es| - 1] == prior + [es[|es| - 2]];
      assert es[..|es| - 1][..|es| - 2] == prior;
    }
  }

  lemma {:induction false} NeutralEntriesShape(reference: real, spacing: real, perLevel: real, levels: int, n: nat,
                                               stopSteps: real)
    requires 0 <= n <= levels && reference > 0.0 && spacing > 0.0 && perLevel > 0.0 && stopSteps > levels as real
    requires !Exhausted(reference, 1.0, spacing, levels)
    ensures
      var es := NeutralEntries(reference, spacing, perLevel, levels, n);
      && (forall i | 0 <= i < |es| ::
            && LadderLevelOk(es[i], reference)
            && (es[i].direction.LONG? ==>
                1 <= es[i].index <= n && StepPrice(reference, 1.0, spacing, stopSteps) < es[i].price)
            && (es[i].direction.SHORT? ==>
                levels < es[i].index <= levels + n && es[i].price < StepPrice(reference, -1.0, spacing, stopSteps)))
      && DistinctIndices(es)
  {
    hide StepPrice;
    if n > 0 {
      NeutralEntriesShape(reference, spacing, perLevel, levels, n - 1, stopSteps);
      var es := NeutralEntries(reference, spacing, perLevel, levels, n);
      var prior := NeutralEntries(reference, spacing, perLevel, levels, n - 1);
      assert LevelPositive(reference, 1.0, spacing, n);
      StepOrder(reference, 1.0, spacing, 0.0, n as real);
      StepOrder(reference, -1.0, spacing, 0.0, n as real);
      StepOrder(reference, 1.0, spacing, n as real, stopSteps);
      StepOrder(reference, -1.0, spacing, n as real, stopSteps);
      assert forall i | 0 <= i < |prior| :: es[i] == prior[i];
    }
  }

  lemma NeutralPlanShape(signal: Signal, decision: RiskDecision, reference: real, spacingBps: real, eventMs: int,
                         cfg: GridConfig)
    requires decision.notionalUsdt > 0.0 && reference > 0.0 && spacingBps > 0.0
    requires !Exhausted(reference, 1.0, spacingBps / 10000.0, cfg.neutralLevelsPerSide)
    ensures NeutralShape(NeutralPlan(signal, decision, reference, spacingBps, eventMs, cfg))
  {
    hide StepPrice, Exhausted;
    var total, levels, spacing := decision.notionalUsdt, cfg.neutralLevelsPerSide, spacingBps / 10000.0;
    var perLevel := NeutralNotional(total, cfg);
    NeutralShare(total, cfg);
    hide NeutralNotional;
    NeutralEntriesShape(reference, spacing, perLevel, levels, levels, cfg.neutralStopSteps);
    NeutralAllotment(reference, spacing, perLevel, levels, levels);
    hide Allotted, NeutralEntries;
  }

  lemma DirectionalPlanShape(signal: Signal, decision: RiskDecision, reference: real, spacingBps: real,
                             invalidation: real, eventMs: int, cfg: GridConfig)
    requires decision.notionalUsdt > 0.0 && reference > 0.0 && spacingBps > 0.0 && invalidation > 0.0
    requires !WrongSide(signal.direction, invalidation, reference)
    requires !signal.gridMode.NEUTRAL_GRID? && !signal.gridMode.NO_GRID?
    requires !Exhausted(reference, Sign(signal.direction), spacingBps / 10000.0, cfg.entryLevels - 1)
    ensures DirectionalShape(DirectionalPlan(signal, decision, reference, spacingBps, invalidation, eventMs, cfg))
  {
    hide StepPrice, Exhausted;
    var total, spacing, d := decision.notionalUsdt, spacingBps / 10000.0, signal.direction;
    var starter, perLimit := StarterNotional(total, cfg), LimitNotional(total, cfg);
    DirectionalShare(total, cfg);
    hide StarterNotional, LimitNotional;
    DirectionalEntriesShape(d, reference, spacing, starter, perLimit, cfg.entryLevels);
    DirectionalAllotment(d, reference, spacing, starter, perLimit, cfg.entryLevels);
    StepOrder(reference, -Sign(d), spacing, 0.0, cfg.takeProfitSteps);
    hide Allotted, DirectionalEntries;
  }

  /** Every plan the planner returns has the shape execution and paper trading rely on. */
  lemma PlansAreWellShaped(signal: Signal, decision: RiskDecision, state: SymbolState, cfg: GridConfig)
    requires PlanFor(signal, decision, state, cfg).Planned?
    ensures WellShaped(PlanFor(signal, decision, state, cfg).plan)
    ensures PlanFor(signal, decision, state, cfg).plan.totalNotional == decision.notionalUsdt
  {
    hide Natr, ReferencePrice, SpacingBps, Exhausted, NeutralShape, DirectionalShape, WrongSide;
    var reference := ReferencePrice(state).value;
    var spacingBps := SpacingBps(Natr(state.bars).value, cfg);
    if signal.gridMode.NEUTRAL_GRID? {
      NeutralPlanShape(signal, decision, reference, spacingBps, state.lastEventTimeMs.value, cfg);
    } else {
      DirectionalPlanShape(signal, decision, reference, spacingBps, signal.invalidation.value,
                           state.lastEventTimeMs.value, cfg);
    }
  }

  lemma NeutralShare(total: real, cfg: GridConfig)
    requires total > 0.0
    ensures NeutralNotional(total, cfg) > 0.0
    ensures Times(cfg.neutralLevelsPerSide, NeutralNotional(total, cfg)) == total / 2.0
  {
    var levels := cfg.neutralLevelsPerSide;
    var per := total / (2 * levels) as real;
    PositiveQuotient(total, (2 * levels) as real);
    assert per * (2 * levels) as real == total;
    TimesIsProduct(levels, per);
  }

  lemma DirectionalShare(total: real, cfg: GridConfig)
    requires total > 0.0
    ensures StarterNotional(total, cfg) > 0.0 && LimitNotional(total, cfg) > 0.0
    ensures StarterNotional(total, cfg) + Times(cfg.entryLevels - 1, LimitNotional(total, cfg)) == total
  {
    var n := cfg.entryLevels - 1;
    Scale(total, 0.0, cfg.starterFraction);
    var rest := total - total * cfg.starterFraction;
    assert rest == total * (1.0 - cfg.starterFraction);
    PositiveProduct(total, 1.0 - cfg.starterFraction);
    PositiveProduct(total, cfg.starterFraction);
    PositiveQuotient(rest, n as real);
    var per := LimitNotional(total, cfg);
    assert per == rest / n as real;
    TimesIsProduct(n, per);
    Undivide(rest, n as real);
  }

  lemma Undivide(x: real, y: real)
    requires y != 0.0
    ensures y * (x / y) == x
  {
  }

  lemma PositiveProduct(x: real, y: real)
    requires x > 0.0 && y > 0.0
    ensures x * y > 0.0
  {
  }
}
