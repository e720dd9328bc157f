/** What a fully opened campaign buys, against what was approved. */
module CampaignSizing {
  import opened Models
  import opened Market
  import opened Signals
  import opened Grid
  import opened Adapter
  import opened Campaign
  import opened CampaignOpening

  /** Quantity times sizing price, over a list of receipts. */
  function Worth(rs: seq<Receipt>): real {
    if rs == [] then 0.0 else Worth(rs[..|rs| - 1]) + Mul(rs[|rs| - 1].quantity, rs[|rs| - 1].price)
  }

  /** One step of quantity at each sizing price. */
  function StepWorth(step: real, rs: seq<Receipt>): real {
    if rs == [] then 0.0 else StepWorth(step, rs[..|rs| - 1]) + Mul(step, rs[|rs| - 1].price)
  }

  /** A sized receipt: within its share, short of it by less than one step, on the step and tick grids. */
  ghost predicate Sized(r: SymbolRules, level: GridEntryLevel, receipt: Receipt) {
    && IsMultiple(receipt.quantity, r.step) && receipt.quantity >= r.minQty
    && Mul(receipt.quantity, receipt.price) <= level.notionalUsdt
    && level.notionalUsdt < Mul(receipt.quantity, receipt.price) + Mul(r.step, receipt.price)
  }

  lemma LimitSized(v: Venue, plan: GridPlan, level: GridEntryLevel, receipt: Receipt)
    requires ReceiptFor(v, plan, level, receipt) && level.price > 0.0
    ensures v.rules(plan.symbol).Some? && Sized(v.rules(plan.symbol).value, level, receipt)
    ensures IsMultiple(receipt.price, v.rules(plan.symbol).value.tick) && receipt.price <= level.price
  {
    var r := v.rules(plan.symbol).value;
    QuantityBound(r, level.notionalUsdt, receipt.price);
    RoundDownBound(level.price, r.tick);
  }

  lemma StarterSized(v: Venue, plan: GridPlan, starter: Receipt)
    requires StarterFor(v, plan, starter)
    ensures v.rules(plan.symbol).Some? && Sized(v.rules(plan.symbol).value, plan.entries[0], starter)
  {
    QuantityBound(v.rules(plan.symbol).value, plan.entries[0].notionalUsdt, plan.referencePrice);
  }

  lemma {:induction false} SumsSized(r: SymbolRules, d: Direction, levels: seq<GridEntryLevel>, rs: seq<Receipt>)
    requires |rs| == |levels| && levels != []
    requires forall i | 0 <= i < |rs| :: levels[i].direction == d && Sized(r, levels[i], rs[i])
    ensures Worth(rs) <= Allotted(levels, d) < Worth(rs) + StepWorth(r.step, rs)
  {
    hide IsMultiple, Mul;
    var n := |rs| - 1;
    assert Sized(r, levels[n], rs[n]);
    assert levels[n].direction == d;
    if n > 0 {
      forall i | 0 <= i < n ensures levels[..n][i].direction == d && Sized(r, levels[..n][i], rs[..n][i]) {
        assert levels[i].direction == d && Sized(r, levels[i], rs[i]);
      }
      SumsSized(r, d, levels[..n], rs[..n]);
    }
  }

  /** All quantities of an opened campaign are step multiples, all limit prices tick multiples at or below
      their level, and together they are worth at most the approved notional, short of it by less than one
      step at each sizing price. */
  lemma OpenedWithinApproval(v: Venue, plan: GridPlan, before: Exchange, after: Exchange, starter: Receipt,
                             rs: seq<Receipt>)
    ensures DirectionalShape(plan) && FullyOpen(v, plan, before, after, starter, rs) ==>
      && v.rules(plan.symbol).Some?
      && var r, all := v.rules(plan.symbol).value, [starter] + rs;
      && Worth(all) <= plan.totalNotional < Worth(all) + StepWorth(r.step, all)
      && (forall i | 0 <= i < |all| :: IsMultiple(all[i].quantity, r.step) && all[i].quantity >= r.minQty)
      && (forall i | 0 <= i < |rs| :: IsMultiple(rs[i].price, r.tick) && rs[i].price <= plan.entries[i + 1].price)
  {
    if DirectionalShape(plan) && FullyOpen(v, plan, before, after, starter, rs) {
      SizedAll(v, plan, before, after, starter, rs);
      hide Sized, FullyOpen;
      SumsSized(v.rules(plan.symbol).value, plan.direction, plan.entries, [starter] + rs);
    }
  }

  lemma SizedAll(v: Venue, plan: GridPlan, before: Exchange, after: Exchange, starter: Receipt, rs: seq<Receipt>)
    requires DirectionalShape(plan) && FullyOpen(v, plan, before, after, starter, rs)
    ensures v.rules(plan.symbol).Some? && |rs| + 1 == |plan.entries|
    ensures
      var r, all := v.rules(plan.symbol).value, [starter] + rs;
      && (forall i | 0 <= i < |all| :: Sized(r, plan.entries[i], all[i]) && plan.entries[i].direction == plan.direction)
      && (forall i | 0 <= i < |all| :: IsMultiple(all[i].quantity, r.step) && all[i].quantity >= r.minQty)
      && (forall i | 0 <= i < |rs| :: IsMultiple(rs[i].price, r.tick) && rs[i].price <= plan.entries[i + 1].price)
  {
    hide Mul, QuantityFor, RoundDown, IsMultiple, OrdersFor, IdsOf;
    var r, all := v.rules(plan.symbol).value, [starter] + rs;
    StarterSized(v, plan, starter);
    forall i | 0 <= i < |rs|
      ensures Sized(r, plan.entries[i + 1], rs[i]) && IsMultiple(rs[i].price, r.tick)
              && rs[i].price <= plan.entries[i + 1].price
    {
      assert plan.entries[1..][i] == plan.entries[i + 1];
      LimitSized(v, plan, plan.entries[i + 1], rs[i]);
    }
    forall i | 0 <= i < |all| ensures Sized(r, plan.entries[i], all[i]) {
      if i > 0 {
        assert all[i] == rs[i - 1] && plan.entries[(i - 1) + 1] == plan.entries[i];
        assert Sized(r, plan.entries[(i - 1) + 1], rs[i - 1]);
      }
    }
  }

  /** The same for a plan straight from the planner, against the risk decision behind it. */
  lemma DecisionBoundsOpening(signal: Signal, decision: RiskDecision, state: SymbolState, cfg: GridConfig, v: Venue,
                              w: World)
    returns (starter: Receipt, rs: seq<Receipt>)
    ensures
      var p := PlanFor(signal, decision, state, cfg);
      p.Planned? && !p.plan.mode.NEUTRAL_GRID? && OpenCampaign(v, w, p.plan).outcome.Opened? ==>
        && FullyOpen(v, p.plan, w.ex, OpenCampaign(v, w, p.plan).world.ex, starter, rs)
        && v.rules(p.plan.symbol).Some?
        && Worth([starter] + rs) <= decision.notionalUsdt
        && decision.notionalUsdt < Worth([starter] + rs) + StepWorth(v.rules(p.plan.symbol).value.step, [starter] + rs)
  {
    hide PlanFor, OpenCampaign, FullyOpen, DirectionalShape, NeutralShape;
    starter, rs := Receipt(NoId, "", 0.0, 0.0), [];
    var p := PlanFor(signal, decision, state, cfg);
    if p.Planned? && !p.plan.mode.NEUTRAL_GRID? && OpenCampaign(v, w, p.plan).outcome.Opened? {
      PlansAreWellShaped(signal, decision, state, cfg);
      starter, rs := OpenDirectionalAtomic(v, w, p.plan);
      ShapeByMode(p.plan);
      OpenedWithinApproval(v, p.plan, w.ex, OpenCampaign(v, w, p.plan).world.ex, starter, rs);
    }
  }

  lemma ShapeByMode(plan: GridPlan)
    requires WellShaped(plan) && !plan.mode.NEUTRAL_GRID?
    ensures DirectionalShape(plan)
  {
  }
}
