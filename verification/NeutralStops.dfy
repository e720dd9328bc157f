/** When a planned neutral grid has no stop for its long side, and what becomes of it. */
module NeutralStops {
  import opened Models
  import opened Market
  import opened Store
  import opened Signals
  import opened Grid
  import opened Adapter
  import opened Campaign

  /** The spacings to the stop span the whole price. */
  predicate StopOutOfReach(spacingBps: real, stopSteps: real) {
    spacingBps * stopSteps >= 10000.0
  }

  lemma StopSign(reference: real, spacingBps: real, steps: real)
    requires reference > 0.0
    ensures StepPrice(reference, 1.0, spacingBps / 10000.0, steps) <= 0.0 <==> StopOutOfReach(spacingBps, steps)
  {
    var spacing := spacingBps / 10000.0;
    var x := 1.0 - spacing * steps;
    assert spacingBps * steps == 10000.0 * (spacing * steps) by {
      assert spacingBps == 10000.0 * spacing;
    }
    if x > 0.0 {
      PositiveProduct(reference, x);
    } else if x < 0.0 {
      PositiveProduct(reference, -x);
      assert reference * x == -(reference * -x);
    }
  }

  /** The planner gives a neutral grid no usable long stop exactly when its stop steps reach down to zero; the
      short side always has both exits. */
  lemma LongStopMissingIff(signal: Signal, decision: RiskDecision, state: SymbolState, cfg: GridConfig)
    requires PlanFor(signal, decision, state, cfg).Planned? && signal.gridMode.NEUTRAL_GRID?
    ensures Natr(state.bars).Some?
    ensures
      var r := RecordFor(PlanFor(signal, decision, state, cfg).plan);
      && (Protection(r, LONG).None? <==> StopOutOfReach(SpacingBps(Natr(state.bars).value, cfg), cfg.neutralStopSteps))
      && Protection(r, SHORT).Some?
  {
    hide Natr, ReferencePrice, SpacingBps, NeutralEntries, LimitIds, StopOutOfReach, StepPrice;
    var reference, bps := ReferencePrice(state).value, SpacingBps(Natr(state.bars).value, cfg);
    StopSign(reference, bps, cfg.neutralStopSteps);
    StepOrder(reference, -1.0, bps / 10000.0, 0.0, cfg.neutralStopSteps);
  }

  /** So a bound on the configuration rules it out. */
  lemma BoundedStopNeverMissing(signal: Signal, decision: RiskDecision, state: SymbolState, cfg: GridConfig)
    requires PlanFor(signal, decision, state, cfg).Planned? && signal.gridMode.NEUTRAL_GRID?
    requires !StopOutOfReach(cfg.maxSpacingBps, cfg.neutralStopSteps)
    ensures Protection(RecordFor(PlanFor(signal, decision, state, cfg).plan), LONG).Some?
  {
    LongStopMissingIff(signal, decision, state, cfg);
    hide PlanFor, RecordFor, Natr;
    NearerStop(SpacingBps(Natr(state.bars).value, cfg), cfg.maxSpacingBps, cfg.neutralStopSteps);
  }

  lemma NearerStop(bps: real, limit: real, steps: real)
    requires bps <= limit && steps > 0.0 && !StopOutOfReach(limit, steps)
    ensures !StopOutOfReach(bps, steps)
  {
    assert (limit - bps) * steps >= 0.0;
  }

  /** Once such a campaign is exposed on that side, cleanup and recovery both raise, whatever the exchange would
      answer, and leave all as it is: an unprotected position and no halt of their own. */
  lemma UnprotectableStays(v: Venue, w: World, symbol: string)
    requires HasActive(w.db, symbol) && Exposed(w.db.account.positions, symbol)
    requires var r, d := w.db.campaigns[symbol], StoredDirection(w.db.account.positions[symbol]);
             r.mode.NEUTRAL_GRID? && !r.activated && Protection(r, d).None?
    ensures RecoverOne(v, w, symbol) == Step(w, false)
    ensures CleanupIfFlat(v, w, symbol) == Cleaning(w, CleanupRaised)
  {
    hide Protection, StoredDirection, NeutralStopPhase, CompleteProtection, ProtectionFailed, FlatCleanup,
      ActiveCampaign, Exposed;
  }

  // ---- Such a plan is made, and opens ----

  lemma {:induction false} ConstantSum(xs: seq<real>, c: real)
    requires forall i | 0 <= i < |xs| :: xs[i] == c
    ensures Sum(xs) == |xs| as real * c
  {
    if xs != [] {
      ConstantSum(xs[..|xs| - 1], c);
      assert |xs| as real * c == (|xs| - 1) as real * c + c;
    }
  }

  const WIDE_STOP: GridSettings := GridSettings(4, 0.4, 0.35, 15.0, 120.0, 1.5, 1, 100.0, 300.0)

  function SwingingMarket(): SymbolState {
    SymbolState("BTCUSDT", seq(15, i requires 0 <= i < 15 => Bar(100.0, 103.0, 97.0, 100.0, 1.0)), 0.0, 0.0, None,
                Some(100.0), Some(100.0), 1.0, 1.0, Some(0))
  }

  function TwoLevels(): seq<GridEntryLevel> {
    [GridEntryLevel(1, LIMIT, 98.8, 300.0, LONG), GridEntryLevel(2, LIMIT, 101.2, 300.0, SHORT)]
  }

  lemma SwingingNatr()
    ensures Natr(SwingingMarket().bars) == Some(0.06)
  {
    var trs := TrueRanges(SwingingMarket().bars);
    ConstantSum(Recent(trs, NATR_PERIOD), 6.0);
  }

  lemma WideStopPlan()
    ensures ValidSettings(WIDE_STOP)
    ensures
      var signal := Signal("BTCUSDT", PASS, 0.5, RANGE_NEUTRAL, None, NEUTRAL_GRID);
      var result := PlanFor(signal, RiskDecision(true, 600.0, 1), SwingingMarket(), WIDE_STOP);
      && result.Planned? && result.plan.mode.NEUTRAL_GRID? && result.plan.symbol == "BTCUSDT"
      && result.plan.entries == TwoLevels()
      && Protection(RecordFor(result.plan), LONG).None?
  {
    SwingingNatr();
    hide Natr;
  }

  const COARSE_RULES: SymbolRules := SymbolRules(1.0, 1.0, 1.0, 5.0)

  /** An exchange that accepts what it is sent, each order under an id of its own. */
  function Willing(): Venue {
    Venue((i: nat) => Accepted(if i == 0 then "1" else if i == 1 then "2" else ""), (i: nat) => 100.0,
          (s: string) => Some(COARSE_RULES), (i: nat) => None, 0.0)
  }

  lemma LimitAccepted(w: World, d: Direction, price: real, key: IdKey)
    requires ExecutionReady(w.db) && !d.PASS? && 98.0 <= price < 102.0
    ensures
      var p := PlaceLimit(Willing(), w, "BTCUSDT", d, 300.0, price, key);
      p.receipt.Some? && p.world.db == w.db
  {
    hide ExecutionReady;
    var rounded := RoundDown(price, 1.0);
    assert 98.0 <= rounded < 102.0;
    assert 2.0 <= 300.0 / rounded < 4.0;
    var quantity := RoundDown(300.0 / rounded, 1.0);
    assert 2.0 <= quantity < 4.0;
    assert Mul(quantity, rounded) >= 196.0;
    hide RoundDown, Mul;
  }

  lemma TwoLevelsRest(w: World, plan: GridPlan)
    requires ExecutionReady(w.db) && plan.mode.NEUTRAL_GRID? && plan.symbol == "BTCUSDT"
    ensures
      var l := PlaceLadder(Willing(), w, plan, TwoLevels(), []);
      l.ok && l.world.db == w.db
  {
    hide PlaceLimit, ExecutionReady, Willing;
    var first, second := TwoLevels()[0], TwoLevels()[1];
    var p := PlaceLimit(Willing(), w, plan.symbol, LONG, 300.0, first.price, LevelKey(plan.campaignId, first.index));
    LimitAccepted(w, LONG, first.price, LevelKey(plan.campaignId, first.index));
    LimitAccepted(p.world, SHORT, second.price, LevelKey(plan.campaignId, second.index));
    assert TwoLevels()[1..] == [second] && [second][1..] == [];
  }

  lemma WillingNamesApart()
    ensures UniqueIds(Willing())
  {
  }

  lemma PreparesFresh(db: Db, plan: GridPlan)
    requires db.campaigns == map[]
    ensures Prepare(db, plan).Some? && Prepare(db, plan).value.account == db.account
    ensures ExecutionReady(Prepare(db, plan).value) == ExecutionReady(db)
  {
    hide RecordFor;
  }

  /** A ladder that rests on a flat store has opened. */
  lemma FlatLadderOpens(v: Venue, w: World, plan: GridPlan)
    requires plan.mode.NEUTRAL_GRID? && Prepare(w.db, plan).Some?
    requires
      var l := PlaceLadder(v, w.(db := Prepare(w.db, plan).value), plan, plan.entries, []);
      l.ok && !Exposed(l.world.db.account.positions, plan.symbol)
    ensures OpenCampaign(v, w, plan).outcome.Opened?
  {
    var l := PlaceLadder(v, w.(db := Prepare(w.db, plan).value), plan, plan.entries, []);
    LadderKeepsDb(v, w.(db := Prepare(w.db, plan).value), plan, plan.entries, []);
    PreparedRegisters(w.db, plan);
    hide PlaceLadder, Exposed, RecordFor, InstallProtection, KeepActivated, NeutralOpenFailed, OrderIds;
  }

  /** A valid configuration and market for which the planner makes such a grid, and an exchange on which it opens. */
  lemma WideStopOpens(w: World)
    requires ExecutionReady(w.db) && w.db.campaigns == map[] && w.db.account.positions == map[]
    ensures ValidSettings(WIDE_STOP)
    ensures
      var signal := Signal("BTCUSDT", PASS, 0.5, RANGE_NEUTRAL, None, NEUTRAL_GRID);
      var result := PlanFor(signal, RiskDecision(true, 600.0, 1), SwingingMarket(), WIDE_STOP);
      && result.Planned?
      && Protection(RecordFor(result.plan), LONG).None?
      && OpenCampaign(Willing(), w, result.plan).outcome.Opened?
  {
    var signal := Signal("BTCUSDT", PASS, 0.5, RANGE_NEUTRAL, None, NEUTRAL_GRID);
    WideStopPlan();
    var plan := PlanFor(signal, RiskDecision(true, 600.0, 1), SwingingMarket(), WIDE_STOP).plan;
    hide PlanFor, Protection, PlaceLadder, RecordFor, ExecutionReady, TwoLevels, OpenCampaign, Prepare, Willing,
      UniqueIds, SwingingMarket;
    PreparesFresh(w.db, plan);
    TwoLevelsRest(w.(db := Prepare(w.db, plan).value), plan);
    FlatLadderOpens(Willing(), w, plan);
  }
}
