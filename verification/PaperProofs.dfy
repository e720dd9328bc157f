/** Outcome signs and conservation of the paper broker, for every plan of the planner and every tick sequence. */
module PaperProofs {
  import opened Models
  import opened Grid
  import opened Paper

  // ---- Sums over fills ----

  /** What a position earns fill by fill when it is left at `price`. */
  function PerFill(fills: seq<PaperFill>, price: real, side: real): real {
    if fills == [] then 0.0
    else
      var f := fills[|fills| - 1];
      PerFill(fills[..|fills| - 1], price, side) + Mul(side * f.quantity, price - f.price)
  }

  lemma {:induction false} PerFillTotals(fills: seq<PaperFill>, price: real, side: real)
    ensures PerFill(fills, price, side) == side * (Mul(Quantity(fills), price) - CostBasis(fills))
  {
    if fills != [] {
      var front, f := fills[..|fills| - 1], fills[|fills| - 1];
      PerFillTotals(front, price, side);
      OneMore(side, f.quantity, price, f.price, Quantity(front), CostBasis(front));
    }
  }

  lemma OneMore(side: real, q: real, price: real, at: real, total: real, basis: real)
    ensures side * (Mul(total, price) - basis) + Mul(side * q, price - at)
            == side * (Mul(total + q, price) - (basis + Mul(q, at)))
  {
    var a, b, c := total * price, q * price, q * at;
    assert Mul(total + q, price) == a + b;
    assert Mul(side * q, price - at) == side * (b - c) by {
      assert (side * q) * (price - at) == side * (q * (price - at));
      assert q * (price - at) == b - c;
    }
    assert side * (a - basis) + side * (b - c) == side * ((a + b) - (basis + c));
  }

  /** The average-entry formula is the per-fill sum. */
  lemma RealizedIsPerFill(c: PaperCampaign, price: real)
    requires Quantity(c.fills) > 0.0 && !PositionDirection(c).PASS?
    ensures RealizedPnl(c, price) == PerFill(c.fills, price, Sign(PositionDirection(c)))
  {
    var q, basis, side := Quantity(c.fills), CostBasis(c.fills), Sign(PositionDirection(c));
    PerFillTotals(c.fills, price, side);
    Average(q, basis, price, side);
    hide PerFill;
  }

  lemma Average(q: real, basis: real, price: real, side: real)
    requires q > 0.0
    ensures q * (price - basis / q) * side == side * (Mul(q, price) - basis)
  {
    var average := basis / q;
    assert q * average == basis;
    assert q * (price - average) == Mul(q, price) - basis;
  }

  lemma {:induction false} PerFillSign(fills: seq<PaperFill>, price: real, side: real)
    requires side == 1.0 || side == -1.0
    requires forall i | 0 <= i < |fills| :: fills[i].quantity > 0.0
    ensures fills != [] && (forall i | 0 <= i < |fills| :: side * (price - fills[i].price) > 0.0) ==>
              PerFill(fills, price, side) > 0.0
    ensures fills != [] && (forall i | 0 <= i < |fills| :: side * (price - fills[i].price) < 0.0) ==>
              PerFill(fills, price, side) < 0.0
  {
    if fills != [] {
      var front, f := fills[..|fills| - 1], fills[|fills| - 1];
      PerFillSign(front, price, side);
      TermSign(side, f.quantity, price - f.price);
      if front == [] {
        assert PerFill(front, price, side) == 0.0;
      }
      assert forall i | 0 <= i < |front| :: front[i] == fills[i];
    }
  }

  lemma TermSign(side: real, q: real, gap: real)
    requires q > 0.0
    ensures side * gap > 0.0 ==> Mul(side * q, gap) > 0.0
    ensures side * gap < 0.0 ==> Mul(side * q, gap) < 0.0
  {
    assert (side * q) * gap == q * (side * gap);
  }

  lemma {:induction false} QuantityPositive(fills: seq<PaperFill>)
    requires forall i | 0 <= i < |fills| :: fills[i].quantity > 0.0
    ensures Quantity(fills) >= 0.0 && (fills != [] ==> Quantity(fills) > 0.0)
  {
    if fills != [] {
      QuantityPositive(fills[..|fills| - 1]);
    }
  }

  // ---- What fills come from ----

  function StopOf(p: GridPlan, d: Direction): real {
    if !p.mode.NEUTRAL_GRID? then p.invalidation
    else if d.LONG? then (if p.neutralLongInvalidation.Some? then p.neutralLongInvalidation.value else 0.0)
    else (if p.neutralShortInvalidation.Some? then p.neutralShortInvalidation.value else 0.0)
  }

  function TargetOf(p: GridPlan, d: Direction): real {
    if p.mode.NEUTRAL_GRID? then p.referencePrice else p.takeProfit
  }

  /** Strictly between stop and target of its side. */
  predicate Between(p: GridPlan, d: Direction, price: real) {
    if d.LONG? then StopOf(p, d) < price < TargetOf(p, d) else TargetOf(p, d) < price < StopOf(p, d)
  }

  predicate FillOf(l: GridEntryLevel, f: PaperFill) {
    && l.price > 0.0 && l.notionalUsdt > 0.0
    && f == PaperFill(l.index, l.price, l.notionalUsdt, l.notionalUsdt / l.price, l.direction)
  }

  ghost predicate FromPlan(p: GridPlan, d: Direction, f: PaperFill) {
    && f.direction == d && f.quantity > 0.0 && Between(p, d, f.price)
    && exists j :: 0 <= j < |p.entries| && FillOf(p.entries[j], f)
  }

  /** Every fill is a level of the plan, on one side, between stop and target, and no level fills twice. */
  ghost predicate FillsOk(p: GridPlan, d: Direction, fills: seq<PaperFill>) {
    && (forall i | 0 <= i < |fills| :: FromPlan(p, d, fills[i]))
    && (forall i, j | 0 <= i < j < |fills| :: fills[i].levelIndex != fills[j].levelIndex)
  }

  predicate Sided(d: Direction) {
    d.LONG? || d.SHORT?
  }

  /** An open campaign. */
  ghost predicate CampaignOk(c: PaperCampaign) {
    && c.open && WellShaped(c.plan)
    && (if c.plan.mode.NEUTRAL_GRID? then c.activeDirection.None? <==> c.fills == []
        else c.activeDirection == Some(c.plan.direction) && c.fills != [])
    && (c.activeDirection.Some? ==> Sided(c.activeDirection.value) && FillsOk(c.plan, c.activeDirection.value, c.fills))
  }

  /** A closed campaign: its profit is the per-fill sum, positive at the target, negative at the stop, and
      nothing when it expired unfilled. */
  ghost predicate ClosedOk(c: PaperCampaign) {
    && !c.open && WellShaped(c.plan) && c.closeReason.Some? && c.closePrice.Some?
    && match c.closeReason.value
       case EXPIRED => c.plan.mode.NEUTRAL_GRID? && c.fills == [] && c.realizedPnl == 0.0
       case STOP => Settled(c) && c.realizedPnl < 0.0
       case TAKE_PROFIT => Settled(c) && c.realizedPnl > 0.0
  }

  ghost predicate Settled(c: PaperCampaign) {
    && c.activeDirection.Some? && Sided(c.activeDirection.value)
    && (!c.plan.mode.NEUTRAL_GRID? ==> c.activeDirection.value == c.plan.direction)
    && c.fills != [] && FillsOk(c.plan, c.activeDirection.value, c.fills)
    && c.closePrice.Some? && c.realizedPnl == PerFill(c.fills, c.closePrice.value, Sign(c.activeDirection.value))
  }

  lemma LevelsDistinct(p: GridPlan)
    requires WellShaped(p)
    ensures DistinctIndices(p.entries)
  {
  }

  lemma LevelUsable(p: GridPlan, j: nat, d: Direction)
    requires WellShaped(p) && j < |p.entries| && Sided(d)
    requires p.mode.NEUTRAL_GRID? ==> p.entries[j].direction == d
    requires !p.mode.NEUTRAL_GRID? ==> p.direction == d
    ensures p.entries[j].price > 0.0 && p.entries[j].notionalUsdt > 0.0 && p.entries[j].direction == d
    ensures p.entries[j].notionalUsdt / p.entries[j].price > 0.0
    ensures if d.LONG? then p.entries[j].price < TargetOf(p, d) else p.entries[j].price > TargetOf(p, d)
    ensures p.mode.NEUTRAL_GRID? || j == 0 ==> Between(p, d, p.entries[j].price)
  {
    PositiveRatio(p.entries[j].notionalUsdt, p.entries[j].price);
    if p.mode.NEUTRAL_GRID? {
      assert LadderLevelOk(p.entries[j], p.referencePrice);
    }
    hide Allotted;
  }

  lemma PositiveRatio(x: real, y: real)
    ensures x > 0.0 && y > 0.0 ==> x / y > 0.0
  {
  }

  lemma AddFill(p: GridPlan, d: Direction, fills: seq<PaperFill>, l: GridEntryLevel, j: nat)
    requires FillsOk(p, d, fills) && j < |p.entries| && p.entries[j] == l && l.direction == d
    requires l.price > 0.0 && l.notionalUsdt > 0.0 && l.notionalUsdt / l.price > 0.0 && Between(p, d, l.price)
    requires l.index !in FilledIndices(fills)
    ensures FillsOk(p, d, fills + [PaperFill(l.index, l.price, l.notionalUsdt, l.notionalUsdt / l.price, d)])
    ensures FilledIndices(fills + [PaperFill(l.index, l.price, l.notionalUsdt, l.notionalUsdt / l.price, d)])
            == FilledIndices(fills) + {l.index}
  {
    var f := PaperFill(l.index, l.price, l.notionalUsdt, l.notionalUsdt / l.price, d);
    assert FillOf(p.entries[j], f);
    var more := fills + [f];
    assert more[|fills|] == f;
    assert forall i | 0 <= i < |fills| :: more[i] == fills[i];
    forall i | 0 <= i < |more| ensures FromPlan(p, d, more[i]) {
      if i < |fills| {
        assert FromPlan(p, d, fills[i]);
      }
    }
    assert forall i | 0 <= i < |fills| :: fills[i].levelIndex in FilledIndices(fills);
  }

  // ---- Further fills of a position ----

  /** Levels from `m` on are not yet filled beyond what was filled before the loop. */
  ghost predicate OnlyEarlier(p: GridPlan, fills: seq<PaperFill>, filled: set<int>, m: nat) {
    forall i | i in FilledIndices(fills) ::
        i in filled || exists j :: 0 <= j < m && j < |p.entries| && p.entries[j].index == i
  }

  /** With the exits not hit, the loop over the levels from `m` on keeps the fills in order and never fails. */
  lemma {:induction false} FillReachedOk(c: PaperCampaign, m: nat, filled: set<int>, d: Direction, bid: real, ask: real)
    requires c.open && WellShaped(c.plan) && m <= |c.plan.entries| && Sided(d) && bid <= ask
    requires !c.plan.mode.NEUTRAL_GRID? ==> c.plan.direction == d
    requires FillsOk(c.plan, d, c.fills) && OnlyEarlier(c.plan, c.fills, filled, m)
    requires if d.LONG? then bid > StopOf(c.plan, d) else ask < StopOf(c.plan, d)
    ensures
      var f := FillReached(c, c.plan.entries[m..], filled, d, c.plan.mode.NEUTRAL_GRID?, bid, ask);
      && f.fault.None? && f.campaign == c.(fills := f.campaign.fills)
      && c.fills <= f.campaign.fills && FillsOk(c.plan, d, f.campaign.fills)
    decreases |c.plan.entries| - m
  {
    hide WellShaped, FillsOk, OnlyEarlier, Between, StopOf;
    var p := c.plan;
    if m < |p.entries| {
      var l := p.entries[m];
      assert p.entries[m..][0] == l && p.entries[m..][1..] == p.entries[m + 1..];
      if l.index in filled || (p.mode.NEUTRAL_GRID? && l.direction != d) || !Reached(d, l.price, bid, ask) {
        SkipLevel(p, c.fills, filled, m);
        FillReachedOk(c, m + 1, filled, d, bid, ask);
      } else {
        LevelUsable(p, m, d);
        ReachedIsBetween(p, d, l.price, bid, ask);
        FreshIndex(p, c.fills, filled, m);
        AddFill(p, d, c.fills, l, m);
        var f := Fill(c, l.index, l.price, l.notionalUsdt, d);
        TakeLevel(p, c.fills, f.campaign.fills, filled, m);
        FillReachedOk(f.campaign, m + 1, filled, d, bid, ask);
      }
    }
  }

  lemma ReachedIsBetween(p: GridPlan, d: Direction, price: real, bid: real, ask: real)
    requires Sided(d) && Reached(d, price, bid, ask) && bid <= ask
    requires if d.LONG? then bid > StopOf(p, d) else ask < StopOf(p, d)
    requires if d.LONG? then price < TargetOf(p, d) else price > TargetOf(p, d)
    ensures Between(p, d, price)
  {
  }

  lemma SkipLevel(p: GridPlan, fills: seq<PaperFill>, filled: set<int>, m: nat)
    requires OnlyEarlier(p, fills, filled, m)
    ensures OnlyEarlier(p, fills, filled, m + 1)
  {
    hide FilledIndices;
    forall i | i in FilledIndices(fills) && i !in filled
      ensures exists j :: 0 <= j < m + 1 && j < |p.entries| && p.entries[j].index == i
    {
      var j :| 0 <= j < m && j < |p.entries| && p.entries[j].index == i;
      assert 0 <= j < m + 1;
    }
  }

  lemma FreshIndex(p: GridPlan, fills: seq<PaperFill>, filled: set<int>, m: nat)
    requires WellShaped(p) && m < |p.entries| && OnlyEarlier(p, fills, filled, m) && p.entries[m].index !in filled
    ensures p.entries[m].index !in FilledIndices(fills)
  {
    LevelsDistinct(p);
    hide WellShaped, FilledIndices;
  }

  lemma TakeLevel(p: GridPlan, fills: seq<PaperFill>, more: seq<PaperFill>, filled: set<int>, m: nat)
    requires OnlyEarlier(p, fills, filled, m) && m < |p.entries|
    requires FilledIndices(more) == FilledIndices(fills) + {p.entries[m].index}
    ensures OnlyEarlier(p, more, filled, m + 1)
  {
    hide FilledIndices;
    SkipLevel(p, fills, filled, m);
    forall i | i in FilledIndices(more) && i !in filled
      ensures exists j :: 0 <= j < m + 1 && j < |p.entries| && p.entries[j].index == i
    {
      if i == p.entries[m].index {
        assert 0 <= m < m + 1;
      }
    }
  }

  // ---- Closing ----

  lemma CloseOk(c: PaperCampaign, d: Direction, reason: CloseReason, bid: real, ask: real, price: real)
    requires CampaignOk(c) && c.activeDirection == Some(d)
    requires ExitPrice(d, StopOf(c.plan, d), TargetOf(c.plan, d), bid, ask) == Some((reason, price))
    ensures ClosedOk(Close(c, price, reason))
  {
    hide WellShaped;
    var fills, side := c.fills, Sign(d);
    forall i | 0 <= i < |fills|
      ensures
        && fills[i].quantity > 0.0
        && if reason.STOP? then side * (price - fills[i].price) < 0.0 else side * (price - fills[i].price) > 0.0
    {
      assert FromPlan(c.plan, d, fills[i]);
    }
    QuantityPositive(fills);
    RealizedIsPerFill(c, price);
    PerFillSign(fills, price, side);
    hide RealizedPnl, PerFill;
  }

  lemma ManageOk(c: PaperCampaign, m: nat, d: Direction, bid: real, ask: real)
    requires CampaignOk(c) && c.activeDirection == Some(d) && bid <= ask
    requires m <= |c.plan.entries| && m <= 1 && (m == 1 ==> !c.plan.mode.NEUTRAL_GRID?)
    ensures
      var f := Manage(c, d, StopOf(c.plan, d), TargetOf(c.plan, d), c.plan.entries[m..], c.plan.mode.NEUTRAL_GRID?,
                      bid, ask);
      && f.fault.None? && c.fills <= f.campaign.fills && f.campaign.plan == c.plan
      && (if f.campaign.open then CampaignOk(f.campaign) else ClosedOk(f.campaign))
  {
    hide WellShaped, FillsOk, ClosedOk, StopOf, TargetOf;
    var e := ExitPrice(d, StopOf(c.plan, d), TargetOf(c.plan, d), bid, ask);
    if e.Some? {
      CloseOk(c, d, e.value.0, bid, ask, e.value.1);
    } else {
      FillReachedOk(c, m, FilledIndices(c.fills), d, bid, ask);
    }
  }
}
