/** A neutral opening that is interrupted after its first entry has filled. */
module PartialFills {
  import opened Models
  import opened Store
  import opened Signals
  import opened Grid
  import opened Adapter
  import opened Campaign
  import opened NeutralStops

  /** The first order is accepted and fills in part while it is, the next is refused, the third is accepted. */
  function Filling(): Venue {
    Venue((i: nat) => if i == 0 then Accepted("1") else if i == 2 then Accepted("") else Refused, (i: nat) => 100.0,
          (s: string) => Some(COARSE_RULES),
          (i: nat) => if i == 0 then Some(FilledPositions()) else None, 0.0)
  }

  function FilledPositions(): PositionTable {
    map["BTCUSDT" := StoredPosition("BTCUSDT", LONG, 2.0, 98.0, 196.0, 0)]
  }

  lemma FirstLevel(w: World, key: IdKey)
    requires ExecutionReady(w.db) && w.tick == 0
    ensures
      var p := PlaceLimit(Filling(), w, "BTCUSDT", LONG, 300.0, 98.8, key);
      && p.receipt.Some? && p.receipt.value.orderId == "1" && p.world.tick == 1
      && p.world.db == w.db.(account := w.db.account.(positions := FilledPositions()))
  {
    hide ExecutionReady;
    var rounded := RoundDown(98.8, 1.0);
    assert rounded == 98.0;
    assert 3.0 <= 300.0 / rounded < 4.0;
    var quantity := RoundDown(300.0 / rounded, 1.0);
    assert quantity == 3.0 && Mul(quantity, rounded) >= 196.0;
    hide RoundDown, Mul;
  }

  lemma SecondLevel(w: World, key: IdKey)
    requires ExecutionReady(w.db) && w.tick == 1
    ensures
      var p := PlaceLimit(Filling(), w, "BTCUSDT", SHORT, 300.0, 101.2, key);
      p.receipt.None? && p.world == w.(tick := 2)
  {
    hide ExecutionReady;
    var rounded := RoundDown(101.2, 1.0);
    assert rounded == 101.0;
    assert 2.0 <= 300.0 / rounded < 3.0;
    var quantity := RoundDown(300.0 / rounded, 1.0);
    assert quantity == 2.0 && Mul(quantity, rounded) >= 196.0;
    hide RoundDown, Mul;
  }

  /** The first entry rests, and the position it has gained is known when the second is refused. */
  lemma FirstRests(w: World, plan: GridPlan) returns (r: Receipt)
    requires ExecutionReady(w.db) && w.tick == 0 && plan.mode.NEUTRAL_GRID? && plan.symbol == "BTCUSDT"
    ensures
      var l := PlaceLadder(Filling(), w, plan, TwoLevels(), []);
      && !l.ok && l.placed == [r] && r.orderId == "1" && l.world.tick == 2
      && l.world.db == w.db.(account := w.db.account.(positions := FilledPositions()))
      && l.world.ex.resting == w.ex.resting + {LimitOrder("BTCUSDT", LONG, r)}
  {
    hide PlaceLimit, ExecutionReady, Filling, FilledPositions;
    var first, second := TwoLevels()[0], TwoLevels()[1];
    var p := PlaceLimit(Filling(), w, plan.symbol, LONG, 300.0, first.price, LevelKey(plan.campaignId, first.index));
    FirstLevel(w, LevelKey(plan.campaignId, first.index));
    StillReady(w.db, FilledPositions());
    SecondLevel(p.world, LevelKey(plan.campaignId, second.index));
    r := p.receipt.value;
    assert TwoLevels()[1..] == [second] && [] + [r] == [r];
  }

  lemma StillReady(db: Db, positions: PositionTable)
    ensures ExecutionReady(db.(account := db.account.(positions := positions))) == ExecutionReady(db)
  {
  }

  /** The position is sold and the record closed for good; the entry is not cancelled. */
  lemma ClosesPosition(w: World, plan: GridPlan, ids: seq<string>)
    requires w.tick == 2 && plan.symbol == "BTCUSDT" && w.db.account.positions == FilledPositions()
    requires plan.symbol in w.db.campaigns
    ensures
      var after := NeutralOpenFailed(Filling(), w, plan, ids);
      && after.db.halted && !HasActive(after.db, plan.symbol) && after.ex.resting == w.ex.resting
  {
    assert RoundDown(2.0, 1.0) == 2.0;
    hide Rollback, RoundDown;
  }

  lemma BrokenLadderFails(v: Venue, w: World, plan: GridPlan)
    requires plan.mode.NEUTRAL_GRID? && Prepare(w.db, plan).Some?
    requires !PlaceLadder(v, w.(db := Prepare(w.db, plan).value), plan, plan.entries, []).ok
    ensures
      var l := PlaceLadder(v, w.(db := Prepare(w.db, plan).value), plan, plan.entries, []);
      && plan.symbol in l.world.db.campaigns
      && OpenCampaign(v, w, plan) == Attempt(NeutralOpenFailed(v, l.world, plan, OrderIds(l.placed)), OpenFailed)
  {
    LadderKeepsDb(v, w.(db := Prepare(w.db, plan).value), plan, plan.entries, []);
    PreparedRegisters(w.db, plan);
    hide PlaceLadder, NeutralOpenFailed, OrderIds, RecordFor, ActivatePosition;
  }

  lemma InactiveIsLeftAlone(v: Venue, w: World, symbol: string)
    requires !HasActive(w.db, symbol)
    ensures CleanupIfFlat(v, w, symbol).world == w && RecoverOne(v, w, symbol).world == w
  {
  }

  /** A plan of the planner and an exchange on which the opening raises halted, with one of its entries still
      resting although its campaign is no longer active, so that no cleanup and no recovery cancels it. */
  lemma PartialFillLeavesEntry(w: World) returns (r: Receipt)
    requires ExecutionReady(w.db) && w.tick == 0 && w.db.campaigns == map[]
    ensures ValidSettings(WIDE_STOP)
    ensures
      var signal := Signal("BTCUSDT", PASS, 0.5, RANGE_NEUTRAL, None, NEUTRAL_GRID);
      var result := PlanFor(signal, RiskDecision(true, 600.0, 1), SwingingMarket(), WIDE_STOP);
      && result.Planned?
      && var o := OpenCampaign(Filling(), w, result.plan);
      && o.outcome.OpenFailed? && o.world.db.halted && !HasActive(o.world.db, "BTCUSDT")
      && o.world.ex.resting == w.ex.resting + {LimitOrder("BTCUSDT", LONG, r)}
      && (forall v :: CleanupIfFlat(v, o.world, "BTCUSDT").world == o.world)
      && (forall v :: RecoverOne(v, o.world, "BTCUSDT").world == o.world)
  {
    var signal := Signal("BTCUSDT", PASS, 0.5, RANGE_NEUTRAL, None, NEUTRAL_GRID);
    WideStopPlan();
    var plan := PlanFor(signal, RiskDecision(true, 600.0, 1), SwingingMarket(), WIDE_STOP).plan;
    hide PlanFor, PlaceLadder, RecordFor, ExecutionReady, TwoLevels, Filling, FilledPositions, NeutralOpenFailed,
      Protection, OrderIds, OpenCampaign, Prepare, SwingingMarket, HasActive, CleanupIfFlat, RecoverOne;
    PreparesFresh(w.db, plan);
    var w0 := w.(db := Prepare(w.db, plan).value);
    r := FirstRests(w0, plan);
    BrokenLadderFails(Filling(), w, plan);
    var l := PlaceLadder(Filling(), w0, plan, TwoLevels(), []);
    ClosesPosition(l.world, plan, OrderIds(l.placed));
    var after := OpenCampaign(Filling(), w, plan).world;
    forall v
      ensures CleanupIfFlat(v, after, "BTCUSDT").world == after && RecoverOne(v, after, "BTCUSDT").world == after
    {
      InactiveIsLeftAlone(v, after, "BTCUSDT");
    }
  }
}
