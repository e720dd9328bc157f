/** What one quote fills, closes and expires, in terms of the plan's levels and the two prices. */
module PaperQuotes {
  import opened Models
  import opened Market
  import opened Grid
  import opened Paper
  import opened PaperProofs
  import opened PaperRuns
  import Sorting

  /** A resting buy is reached when the ask comes down to it, a resting sell when the bid comes up to it. */
  predicate Crossed(l: GridEntryLevel, bid: real, ask: real) {
    if l.direction.LONG? then ask <= l.price else bid >= l.price
  }

  /** The LIMIT levels of one side that the quote reaches, from the `m`th entry on. */
  ghost function CrossedFrom(p: GridPlan, m: nat, d: Direction, bid: real, ask: real): set<int> {
    set j | m <= j < |p.entries| && p.entries[j].kind.LIMIT? && p.entries[j].direction == d
            && Crossed(p.entries[j], bid, ask) :: p.entries[j].index
  }

  /** All of them. */
  ghost function CrossedLevels(p: GridPlan, d: Direction, bid: real, ask: real): set<int> {
    set l | l in p.entries && l.kind.LIMIT? && l.direction == d && Crossed(l, bid, ask) :: l.index
  }

  /** The fill of a LIMIT level of the side that the quote reaches and that was not filled before: at the level's own
      price, for its own notional. */
  ghost predicate FreshFill(p: GridPlan, d: Direction, bid: real, ask: real, filled: set<int>, f: PaperFill) {
    exists l :: l in p.entries && l.kind.LIMIT? && l.direction == d && Crossed(l, bid, ask) && l.index !in filled
      && l.price > 0.0 && f == PaperFill(l.index, l.price, l.notionalUsdt, l.notionalUsdt / l.price, d)
  }

  lemma OneMoreIndex(fills: seq<PaperFill>, f: PaperFill)
    ensures FilledIndices(fills + [f]) == FilledIndices(fills) + {f.levelIndex}
  {
    var more := fills + [f];
    assert more[|fills|] == f;
    assert forall i | 0 <= i < |fills| :: more[i] == fills[i];
    forall k | k in FilledIndices(fills) ensures k in FilledIndices(more) {
      var i :| 0 <= i < |fills| && fills[i].levelIndex == k;
      assert more[i].levelIndex == k;
    }
  }

  /** A ladder level of a planner's plan: a LIMIT level with a price and a share, of the side it is filled for. */
  lemma LadderLevel(p: GridPlan, j: nat, d: Direction)
    requires WellShaped(p) && j < |p.entries| && Sided(d) && (p.mode.NEUTRAL_GRID? || j > 0)
    requires if p.mode.NEUTRAL_GRID? then p.entries[j].direction == d else p.direction == d
    ensures p.entries[j].kind.LIMIT? && p.entries[j].direction == d
    ensures p.entries[j].price > 0.0 && p.entries[j].notionalUsdt > 0.0
  {
    LevelUsable(p, j, d);
    hide Allotted;
    if p.mode.NEUTRAL_GRID? {
      assert LadderLevelOk(p.entries[j], p.referencePrice);
    }
  }

  lemma CrossedStep(p: GridPlan, m: nat, d: Direction, bid: real, ask: real)
    requires m < |p.entries|
    ensures CrossedFrom(p, m, d, bid, ask) ==
            CrossedFrom(p, m + 1, d, bid, ask)
            + if p.entries[m].kind.LIMIT? && p.entries[m].direction == d && Crossed(p.entries[m], bid, ask)
              then {p.entries[m].index} else {}
  {
    hide Crossed;
  }

  /** The fill loop fills exactly the levels the quote reaches, each once. */
  lemma {:induction false} LoopFills(c: PaperCampaign, m: nat, filled: set<int>, d: Direction, bid: real, ask: real)
    requires WellShaped(c.plan) && m <= |c.plan.entries| && Sided(d) && (m > 0 || c.plan.mode.NEUTRAL_GRID?)
    requires !c.plan.mode.NEUTRAL_GRID? ==> c.plan.direction == d
    requires filled <= FilledIndices(c.fills)
    ensures
      var f := FillReached(c, c.plan.entries[m..], filled, d, c.plan.mode.NEUTRAL_GRID?, bid, ask);
      && f.fault.None? && f.campaign == c.(fills := f.campaign.fills) && c.fills <= f.campaign.fills
      && FilledIndices(f.campaign.fills) == FilledIndices(c.fills) + CrossedFrom(c.plan, m, d, bid, ask)
      && forall i | |c.fills| <= i < |f.campaign.fills| ::
           FreshFill(c.plan, d, bid, ask, filled, f.campaign.fills[i])
    decreases |c.plan.entries| - m
  {
    hide WellShaped, FilledIndices, Crossed, CrossedFrom, FreshFill;
    var p := c.plan;
    if m == |p.entries| {
      NoneLeft(p, d, bid, ask);
    } else {
      var l := p.entries[m];
      assert p.entries[m..][0] == l && p.entries[m..][1..] == p.entries[m + 1..];
      CrossedStep(p, m, d, bid, ask);
      if p.mode.NEUTRAL_GRID? && l.direction != d {
        LoopFills(c, m + 1, filled, d, bid, ask);
      } else {
        LadderLevel(p, m, d);
        ReachedMeans(l, d, bid, ask);
        if l.index in filled || !Crossed(l, bid, ask) {
          LoopFills(c, m + 1, filled, d, bid, ask);
        } else {
          var f := Fill(c, l.index, l.price, l.notionalUsdt, d);
          OneMoreIndex(c.fills, f.campaign.fills[|c.fills|]);
          LoopFills(f.campaign, m + 1, filled, d, bid, ask);
          FreshAt(p, d, bid, ask, filled, l);
        }
      }
    }
  }

  lemma NoneLeft(p: GridPlan, d: Direction, bid: real, ask: real)
    ensures CrossedFrom(p, |p.entries|, d, bid, ask) == {}
  {
  }

  lemma ReachedMeans(l: GridEntryLevel, d: Direction, bid: real, ask: real)
    requires l.direction == d
    ensures Reached(d, l.price, bid, ask) <==> Crossed(l, bid, ask)
  {
  }

  lemma FreshAt(p: GridPlan, d: Direction, bid: real, ask: real, filled: set<int>, l: GridEntryLevel)
    requires l in p.entries && l.kind.LIMIT? && l.direction == d && Crossed(l, bid, ask) && l.index !in filled
    requires l.price > 0.0
    ensures FreshFill(p, d, bid, ask, filled, PaperFill(l.index, l.price, l.notionalUsdt, l.notionalUsdt / l.price, d))
  {
  }

  /** The starter is a MARKET entry, so the loop over the entries after it sees every LIMIT level. */
  lemma AllLevelsSeen(p: GridPlan, d: Direction, bid: real, ask: real)
    requires WellShaped(p)
    ensures CrossedLevels(p, d, bid, ask) == CrossedFrom(p, if p.mode.NEUTRAL_GRID? then 0 else 1, d, bid, ask)
  {
    EntriesPresent(p);
    if !p.mode.NEUTRAL_GRID? {
      StarterUsable(p);
    }
    hide WellShaped, Crossed;
    var m := if p.mode.NEUTRAL_GRID? then 0 else 1;
    forall k | k in CrossedLevels(p, d, bid, ask) ensures k in CrossedFrom(p, m, d, bid, ask) {
      var l :| l in p.entries && l.kind.LIMIT? && l.direction == d && Crossed(l, bid, ask) && l.index == k;
      var j :| 0 <= j < |p.entries| && p.entries[j] == l;
    }
    forall k | k in CrossedFrom(p, m, d, bid, ask) ensures k in CrossedLevels(p, d, bid, ask) {
      var j :| m <= j < |p.entries| && p.entries[j].kind.LIMIT? && p.entries[j].direction == d
             && Crossed(p.entries[j], bid, ask) && p.entries[j].index == k;
      assert p.entries[j] in p.entries;
    }
  }

  // ---- The exits ----

  /** The stop of a side: the plan's own, or that side's of a two-sided plan. */
  function StopLevel(p: GridPlan, d: Direction): Option<real> {
    if !p.mode.NEUTRAL_GRID? then Some(p.invalidation)
    else if d.LONG? then p.neutralLongInvalidation else p.neutralShortInvalidation
  }

  function TargetLevel(p: GridPlan, d: Direction): Option<real> {
    if !p.mode.NEUTRAL_GRID? then Some(p.takeProfit)
    else if d.LONG? then p.neutralLongTakeProfit else p.neutralShortTakeProfit
  }

  /** A long leaves at the bid, a short at the ask. */
  function LeavingPrice(d: Direction, bid: real, ask: real): real {
    if d.LONG? then bid else ask
  }

  predicate AtStop(p: GridPlan, d: Direction, bid: real, ask: real) {
    StopLevel(p, d).Some? && if d.LONG? then bid <= StopLevel(p, d).value else ask >= StopLevel(p, d).value
  }

  predicate AtTarget(p: GridPlan, d: Direction, bid: real, ask: real) {
    TargetLevel(p, d).Some? && if d.LONG? then bid >= TargetLevel(p, d).value else ask <= TargetLevel(p, d).value
  }

  /** What a quote makes of a position on one side: at the stop it is closed with a STOP, else at the target with a
      TAKE_PROFIT, at the price it leaves at, with nothing more filled; otherwise it stays open and exactly the
      levels of its side that the quote reaches are filled besides those filled before. */
  ghost predicate Managed(c: PaperCampaign, d: Direction, after: PaperCampaign, bid: real, ask: real) {
    if AtStop(c.plan, d, bid, ask) || AtTarget(c.plan, d, bid, ask) then
      && !after.open && after.fills == c.fills
      && after.closeReason == Some(if AtStop(c.plan, d, bid, ask) then STOP else TAKE_PROFIT)
      && after.closePrice == Some(LeavingPrice(d, bid, ask))
      && after.realizedPnl == PerFill(c.fills, LeavingPrice(d, bid, ask), if d.LONG? then 1.0 else -1.0)
    else
      && after == c.(fills := after.fills) && c.fills <= after.fills
      && FilledIndices(after.fills) == FilledIndices(c.fills) + CrossedLevels(c.plan, d, bid, ask)
      && forall i | |c.fills| <= i < |after.fills| ::
           FreshFill(c.plan, d, bid, ask, FilledIndices(c.fills), after.fills[i])
  }

  lemma LevelsMean(p: GridPlan, d: Direction)
    requires WellShaped(p) && Sided(d) && (!p.mode.NEUTRAL_GRID? ==> p.direction == d)
    ensures StopLevel(p, d) == Some(StopOf(p, d)) && TargetLevel(p, d) == Some(TargetOf(p, d))
  {
    if p.mode.NEUTRAL_GRID? {
      NeutralExits(p, d);
    }
    hide WellShaped;
  }

  lemma ExitMeans(p: GridPlan, d: Direction, bid: real, ask: real)
    requires Sided(d) && StopLevel(p, d) == Some(StopOf(p, d)) && TargetLevel(p, d) == Some(TargetOf(p, d))
    ensures
      var e := ExitPrice(d, StopOf(p, d), TargetOf(p, d), bid, ask);
      && (e.Some? <==> AtStop(p, d, bid, ask) || AtTarget(p, d, bid, ask))
      && (e.Some? ==> e.value == (if AtStop(p, d, bid, ask) then STOP else TAKE_PROFIT, LeavingPrice(d, bid, ask)))
  {
  }

  lemma PositionManaged(c: PaperCampaign, d: Direction, bid: real, ask: real)
    requires CampaignOk(c) && c.activeDirection == Some(d)
    ensures
      var m := if c.plan.mode.NEUTRAL_GRID? then 0 else 1;
      && m <= |c.plan.entries|
      && Managed(c, d, Manage(c, d, StopOf(c.plan, d), TargetOf(c.plan, d), c.plan.entries[m..],
                              c.plan.mode.NEUTRAL_GRID?, bid, ask).campaign, bid, ask)
  {
    var p := c.plan;
    EntriesPresent(p);
    LevelsMean(p, d);
    ExitMeans(p, d, bid, ask);
    hide WellShaped, StopOf, TargetOf, AtStop, AtTarget, LeavingPrice, ExitPrice, CrossedLevels, CrossedFrom, FreshFill,
      FilledIndices, PerFill;
    var m := if p.mode.NEUTRAL_GRID? then 0 else 1;
    if AtStop(p, d, bid, ask) || AtTarget(p, d, bid, ask) {
      FillsAmount(c, d);
      RealizedIsPerFill(c, LeavingPrice(d, bid, ask));
      hide RealizedPnl, FillsOk;
    } else {
      LoopFills(c, m, FilledIndices(c.fills), d, bid, ask);
      AllLevelsSeen(p, d, bid, ask);
    }
  }

  lemma FillsAmount(c: PaperCampaign, d: Direction)
    requires CampaignOk(c) && c.activeDirection == Some(d)
    ensures Quantity(c.fills) > 0.0
  {
    hide WellShaped;
    forall i | 0 <= i < |c.fills| ensures c.fills[i].quantity > 0.0 {
      assert FromPlan(c.plan, d, c.fills[i]);
    }
    QuantityPositive(c.fills);
  }

  // ---- The first touch ----

  /** Some LIMIT level of the side is reached. */
  ghost predicate SideCrossed(p: GridPlan, d: Direction, bid: real, ask: real) {
    exists l :: l in p.entries && l.kind.LIMIT? && l.direction == d && Crossed(l, bid, ask)
  }

  /** The side a quote gives an armed two-sided campaign: the one whose levels it reaches, if any. */
  ghost function SideOf(p: GridPlan, bid: real, ask: real): Option<Direction> {
    if SideCrossed(p, LONG, bid, ask) then Some(LONG) else if SideCrossed(p, SHORT, bid, ask) then Some(SHORT) else None
  }

  /** Filling distinct levels that are not filled yet fills exactly these. */
  lemma {:induction false} AllAreFilled(c: PaperCampaign, levels: seq<GridEntryLevel>, d: Direction, bid: real,
                                        ask: real)
    requires WellShaped(c.plan) && c.plan.mode.NEUTRAL_GRID? && Sided(d)
    requires forall l | l in levels :: l in c.plan.entries && l.direction == d && Crossed(l, bid, ask)
    ensures
      var f := FillAll(c, levels, d);
      && f.campaign == c.(fills := f.campaign.fills) && c.fills <= f.campaign.fills
      && FilledIndices(f.campaign.fills) == FilledIndices(c.fills) + (set l | l in levels :: l.index)
      && forall i | |c.fills| <= i < |f.campaign.fills| :: FreshFill(c.plan, d, bid, ask, {}, f.campaign.fills[i])
    decreases levels
  {
    hide WellShaped, FilledIndices, Crossed, FreshFill;
    if levels != [] {
      var l := levels[0];
      assert l in levels;
      var j :| 0 <= j < |c.plan.entries| && c.plan.entries[j] == l;
      LadderLevel(c.plan, j, d);
      var f := Fill(c, l.index, l.price, l.notionalUsdt, d);
      OneMoreIndex(c.fills, f.campaign.fills[|c.fills|]);
      FreshAt(c.plan, d, bid, ask, {}, l);
      AllAreFilled(f.campaign, levels[1..], d, bid, ask);
      assert (set x | x in levels :: x.index) == {l.index} + set x | x in levels[1..] :: x.index;
    }
  }

  lemma TouchedMeans(p: GridPlan, bid: real, ask: real)
    requires WellShaped(p) && p.mode.NEUTRAL_GRID?
    ensures forall l :: l in Touched(p.entries, bid, ask) <==> l in p.entries && l.kind.LIMIT? && Crossed(l, bid, ask)
    ensures forall l | l in p.entries :: Sided(l.direction)
  {
    hide Allotted, Touched;
    forall l | l in p.entries ensures l.kind.LIMIT? && Sided(l.direction) {
      var j :| 0 <= j < |p.entries| && p.entries[j] == l;
      assert LadderLevelOk(p.entries[j], p.referencePrice);
    }
  }

  /** On an armed two-sided campaign a quote reaches levels of one side at most; it takes that side and fills exactly
      these levels, or changes nothing. */
  lemma FirstTouchExact(c: PaperCampaign, bid: real, ask: real)
    requires CampaignOk(c) && c.plan.mode.NEUTRAL_GRID? && c.activeDirection.None? && bid <= ask
    ensures
      var after, side := FirstTouch(c, bid, ask).campaign, SideOf(c.plan, bid, ask);
      && (side.None? ==> after == c)
      && (side.Some? ==>
            && after == c.(activeDirection := side, fills := after.fills)
            && FilledIndices(after.fills) == CrossedLevels(c.plan, side.value, bid, ask) != {}
            && forall i | 0 <= i < |after.fills| ::
                 FreshFill(c.plan, side.value, bid, ask, {}, after.fills[i]))
  {
    var p, touched := c.plan, Touched(c.plan.entries, bid, ask);
    TouchedMeans(p, bid, ask);
    assert c.fills == [];
    hide WellShaped, Touched, Crossed;
    if touched == [] {
      NothingTouched(p, touched, bid, ask);
    } else {
      assert touched[0] in touched;
      var d := touched[0].direction;
      forall l | l in touched ensures l.direction == d {
        OneSideCrossed(p, bid, ask, l, touched[0]);
      }
      assert forall i | 0 <= i < |touched| :: touched[i] in touched;
      SideIs(p, touched, d, bid, ask);
      Sorting.SortedMembers(touched, LevelIndex);
      var sorted := Sorting.SortBy(touched, LevelIndex);
      hide Sorting.SortBy, SideOf, FreshFill;
      AllAreFilled(c.(activeDirection := Some(d)), sorted, d, bid, ask);
      assert touched[0] in sorted && touched[0].index in CrossedLevels(p, d, bid, ask);
      assert (set l | l in sorted :: l.index) == CrossedLevels(p, d, bid, ask);
    }
  }

  lemma OneSideCrossed(p: GridPlan, bid: real, ask: real, a: GridEntryLevel, b: GridEntryLevel)
    requires WellShaped(p) && p.mode.NEUTRAL_GRID? && bid <= ask && a in p.entries && b in p.entries
    requires Crossed(a, bid, ask) && Crossed(b, bid, ask) && Sided(a.direction) && Sided(b.direction)
    ensures a.direction == b.direction
  {
    OneSideTouched(p, bid, ask, a, b);
    hide WellShaped;
  }

  lemma NothingTouched(p: GridPlan, touched: seq<GridEntryLevel>, bid: real, ask: real)
    requires forall l :: l in touched <==> l in p.entries && l.kind.LIMIT? && Crossed(l, bid, ask)
    requires touched == []
    ensures SideOf(p, bid, ask).None?
  {
    hide Crossed;
  }

  lemma SideIs(p: GridPlan, touched: seq<GridEntryLevel>, d: Direction, bid: real, ask: real)
    requires forall l :: l in touched <==> l in p.entries && l.kind.LIMIT? && Crossed(l, bid, ask)
    requires touched != [] && Sided(d) && forall l | l in touched :: l.direction == d
    ensures SideOf(p, bid, ask) == Some(d)
  {
    hide Crossed;
    assert touched[0] in touched;
  }

  // ---- A whole quote ----

  /** An armed two-sided campaign is past its time. */
  predicate PastTime(p: GridPlan, eventMs: Option<int>) {
    p.expiresAtMs != 0 && eventMs.Some? && eventMs.value >= p.expiresAtMs
  }

  /** What a quote makes of a planner's campaign that has a side: see `Managed`. */
  lemma QuoteManages(c: PaperCampaign, bid: real, ask: real, eventMs: Option<int>)
    requires CampaignOk(c) && c.activeDirection.Some?
    ensures Managed(c, c.activeDirection.value, OnQuote(c, bid, ask, eventMs).campaign, bid, ask)
  {
    var d, p := c.activeDirection.value, c.plan;
    PositionManaged(c, d, bid, ask);
    hide WellShaped, Managed, Manage, FillsOk;
    if p.mode.NEUTRAL_GRID? {
      NeutralExits(p, d);
      assert p.entries[0..] == p.entries;
    } else {
      EntriesPresent(p);
    }
  }

  /** What it makes of an armed two-sided one: past its time it expires at the mid price with nothing filled and nothing
      earned; otherwise it takes the side whose levels are reached and is managed on it with these filled, or, when no
      level is reached, stays as it is. */
  lemma QuoteOnArmed(c: PaperCampaign, bid: real, ask: real, eventMs: Option<int>)
    requires CampaignOk(c) && c.activeDirection.None? && bid <= ask
    ensures
      var after, side := OnQuote(c, bid, ask, eventMs).campaign, SideOf(c.plan, bid, ask);
      && c.fills == []
      && (PastTime(c.plan, eventMs) <==> !after.open && after.closeReason == Some(EXPIRED))
      && (PastTime(c.plan, eventMs) ==>
            after == c.(open := false, closeReason := Some(EXPIRED), closePrice := Some((bid + ask) / 2.0),
                        realizedPnl := 0.0))
      && (!PastTime(c.plan, eventMs) && side.None? ==> after == c)
      && (!PastTime(c.plan, eventMs) && side.Some? ==>
            var touched := FirstTouch(c, bid, ask).campaign;
            && touched.activeDirection == side
            && FilledIndices(touched.fills) == CrossedLevels(c.plan, side.value, bid, ask)
            && Managed(touched, side.value, after, bid, ask))
  {
    FirstTouchOk(c, bid, ask);
    FirstTouchExact(c, bid, ask);
    assert Quantity([]) == 0.0;
    var touched := FirstTouch(c, bid, ask).campaign;
    OpenIsOpen(touched);
    if touched.activeDirection.Some? && !PastTime(c.plan, eventMs) {
      QuoteManages(touched, bid, ask, eventMs);
      NotExpired(touched, touched.activeDirection.value, OnQuote(touched, bid, ask, eventMs).campaign, bid, ask);
    }
    OpenIsOpen(c);
    hide FirstTouch, ManageNeutral, Managed, FilledIndices, CrossedLevels, SideOf, FreshFill, FillsOk, WellShaped;
  }

  lemma NotExpired(c: PaperCampaign, d: Direction, after: PaperCampaign, bid: real, ask: real)
    requires Managed(c, d, after, bid, ask) && c.open
    ensures after.open || after.closeReason != Some(EXPIRED)
  {
    hide AtStop, AtTarget, LeavingPrice, CrossedLevels, FreshFill, PerFill, FilledIndices;
  }

  lemma OpenIsOpen(c: PaperCampaign)
    ensures CampaignOk(c) ==> c.open
  {
  }

  /** A planner's campaign that is open on a side after a quote holds the levels it held before and every LIMIT level of
      that side the quote reaches, no other; each new fill is at its level's price, for its level's notional. */
  lemma QuoteFillsExactly(c: PaperCampaign, bid: real, ask: real, eventMs: Option<int>)
    requires CampaignOk(c) && bid <= ask
    ensures
      var after := OnQuote(c, bid, ask, eventMs).campaign;
      after.open && after.activeDirection.Some? ==>
        var d := after.activeDirection.value;
        && c.fills <= after.fills
        && FilledIndices(after.fills) == FilledIndices(c.fills) + CrossedLevels(c.plan, d, bid, ask)
        && forall i | |c.fills| <= i < |after.fills| ::
             FreshFill(c.plan, d, bid, ask, FilledIndices(c.fills), after.fills[i])
  {
    hide CrossedLevels, FreshFill, AtStop, AtTarget, OnQuote, FirstTouch, PerFill, LeavingPrice, WellShaped, FillsOk;
    var after := OnQuote(c, bid, ask, eventMs).campaign;
    if c.activeDirection.Some? {
      QuoteManages(c, bid, ask, eventMs);
    } else {
      QuoteOnArmed(c, bid, ask, eventMs);
      FirstTouchExact(c, bid, ask);
      var touched := FirstTouch(c, bid, ask).campaign;
      assert FilledIndices(c.fills) == {};
      if after.open && after.activeDirection.Some? {
        var d := after.activeDirection.value;
        hide FilledIndices;
        forall i | 0 <= i < |after.fills| ensures FreshFill(c.plan, d, bid, ask, {}, after.fills[i]) {
          if i < |touched.fills| {
            assert after.fills[i] == touched.fills[i];
          } else {
            FreshAgain(c.plan, d, bid, ask, FilledIndices(touched.fills), after.fills[i]);
          }
        }
      }
    }
  }

  lemma FreshAgain(p: GridPlan, d: Direction, bid: real, ask: real, filled: set<int>, f: PaperFill)
    requires FreshFill(p, d, bid, ask, filled, f)
    ensures FreshFill(p, d, bid, ask, {}, f)
  {
    hide Crossed;
  }

  // ---- The broker ----

  /** A planner's directional plan opens with its starter filled, at the reference price and for its share; a two-sided
      one opens armed, with nothing filled and no side. */
  lemma OpeningFills(p: GridPlan)
    requires WellShaped(p) && (p.mode.NEUTRAL_GRID? || Sided(p.direction))
    ensures
      var c := Prepared(p).campaign;
      && p.entries != [] && Prepared(p).fault.None?
      && c.plan == p && c.open && c.realizedPnl == 0.0 && c.closeReason.None? && c.closePrice.None?
      && (p.mode.NEUTRAL_GRID? ==> c.fills == [] && c.activeDirection.None?)
      && (!p.mode.NEUTRAL_GRID? ==>
            var starter := p.entries[0];
            && starter.kind.MARKET? && starter.price == p.referencePrice > 0.0
            && c.activeDirection == Some(p.direction)
            && c.fills == [PaperFill(starter.index, starter.price, starter.notionalUsdt,
                                     starter.notionalUsdt / starter.price, p.direction)])
  {
    PreparedOk(p);
    if !p.mode.NEUTRAL_GRID? {
      StarterUsable(p);
    }
    hide Allotted;
  }

  /** A tick on a symbol with an open campaign quotes it when bid and ask are there, positive and not crossed, and puts
      it back, or files it away once closed; any other tick leaves every campaign as it is. */
  lemma TickQuotes(b: Broker, state: SymbolState)
    ensures
      var after := OnState(b, state).broker;
      var quoted :=
        && state.symbol in b.campaigns && state.bestBid.Some? && state.bestAsk.Some?
        && state.bestBid.value > 0.0 && state.bestAsk.value >= state.bestBid.value;
      && (!quoted ==> after.campaigns == b.campaigns && after.closed == b.closed)
      && (quoted ==>
            var c := OnQuote(b.campaigns[state.symbol], state.bestBid.value, state.bestAsk.value,
                             state.lastEventTimeMs).campaign;
            if c.open then after.campaigns == b.campaigns[state.symbol := c] && after.closed == b.closed
            else after.campaigns == b.campaigns - {state.symbol} && after.closed == b.closed + [c])
      && LastEvent(after, state.symbol) == state.lastEventTimeMs
  {
    hide OnQuote;
  }
}
