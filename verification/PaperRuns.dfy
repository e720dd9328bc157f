/** Whole runs of the paper broker. */
module PaperRuns {
  import opened Models
  import opened Grid
  import opened Paper
  import opened PaperProofs
  import Sorting

  // ---- The first touch ----

  ghost predicate NoRepeats(levels: seq<GridEntryLevel>) {
    forall i, j | 0 <= i < j < |levels| :: levels[i].index != levels[j].index
  }

  ghost predicate Avoids(levels: seq<GridEntryLevel>, taken: set<int>) {
    forall i | 0 <= i < |levels| :: levels[i].index !in taken
  }

  /** Usable levels of one side of the plan. */
  ghost predicate SideLevels(p: GridPlan, d: Direction, levels: seq<GridEntryLevel>) {
    forall l | l in levels :: l in p.entries && l.direction == d
  }

  lemma {:induction false} TouchedDistinct(levels: seq<GridEntryLevel>, bid: real, ask: real)
    requires DistinctIndices(levels)
    ensures NoRepeats(Touched(levels, bid, ask))
  {
    if levels != [] {
      var front, last := levels[..|levels| - 1], levels[|levels| - 1];
      assert forall i | 0 <= i < |front| :: front[i] == levels[i];
      TouchedDistinct(front, bid, ask);
      var touched := Touched(front, bid, ask);
      forall i | 0 <= i < |touched| ensures touched[i].index != last.index {
        assert touched[i] in front;
        var j :| 0 <= j < |front| && front[j] == touched[i];
        assert levels[j].index == touched[i].index;
      }
    }
  }

  lemma {:induction false} InsertDistinct(levels: seq<GridEntryLevel>, l: GridEntryLevel)
    requires NoRepeats(levels) && forall i | 0 <= i < |levels| :: levels[i].index != l.index
    ensures NoRepeats(Sorting.Insert(levels, l, LevelIndex))
  {
    if levels != [] && LevelIndex(levels[|levels| - 1]) > LevelIndex(l) {
      var front, last := levels[..|levels| - 1], levels[|levels| - 1];
      InsertDistinct(front, l);
      var r := Sorting.Insert(front, l, LevelIndex);
      forall i | 0 <= i < |r| ensures r[i].index != last.index {
        assert r[i] in multiset(r) && multiset(r) == multiset(front) + multiset{l};
        assert r[i] in front || r[i] == l;
      }
    }
  }

  lemma {:induction false} SortDistinct(levels: seq<GridEntryLevel>)
    requires NoRepeats(levels)
    ensures NoRepeats(Sorting.SortBy(levels, LevelIndex))
  {
    if levels != [] {
      var front, last := levels[..|levels| - 1], levels[|levels| - 1];
      SortDistinct(front);
      var r := Sorting.SortBy(front, LevelIndex);
      Sorting.SortedMembers(front, LevelIndex);
      forall i | 0 <= i < |r| ensures r[i].index != last.index {
        assert r[i] in front;
        var j :| 0 <= j < |front| && front[j] == r[i];
        assert levels[j].index == r[i].index;
      }
      InsertDistinct(r, last);
    }
  }

  /** Filling distinct levels of one side of a neutral plan never fails. */
  lemma {:induction false} FillAllOk(c: PaperCampaign, levels: seq<GridEntryLevel>, d: Direction)
    requires WellShaped(c.plan) && c.plan.mode.NEUTRAL_GRID? && Sided(d) && FillsOk(c.plan, d, c.fills)
    requires SideLevels(c.plan, d, levels) && NoRepeats(levels) && Avoids(levels, FilledIndices(c.fills))
    ensures
      var f := FillAll(c, levels, d);
      && f.fault.None? && f.campaign == c.(fills := f.campaign.fills)
      && c.fills <= f.campaign.fills && FillsOk(c.plan, d, f.campaign.fills)
      && (levels != [] ==> f.campaign.fills != [])
    decreases levels
  {
    hide WellShaped, FillsOk, FilledIndices;
    if levels != [] {
      var l := levels[0];
      assert l in levels && l in c.plan.entries;
      var j :| 0 <= j < |c.plan.entries| && c.plan.entries[j] == l;
      LevelUsable(c.plan, j, d);
      AddFill(c.plan, d, c.fills, l, j);
      var f := Fill(c, l.index, l.price, l.notionalUsdt, d);
      assert forall i | 0 <= i < |levels| - 1 :: levels[1..][i] == levels[i + 1];
      FillAllOk(f.campaign, levels[1..], d);
    }
  }

  /** A quote never touches both sides of a plan. */
  lemma OneSideTouched(p: GridPlan, bid: real, ask: real, a: GridEntryLevel, b: GridEntryLevel)
    requires WellShaped(p) && p.mode.NEUTRAL_GRID? && bid <= ask
    requires a in p.entries && b in p.entries && Touches(a, bid, ask) && Touches(b, bid, ask)
    ensures a.direction == b.direction
  {
    var i :| 0 <= i < |p.entries| && p.entries[i] == a;
    var j :| 0 <= j < |p.entries| && p.entries[j] == b;
    assert LadderLevelOk(p.entries[i], p.referencePrice) && LadderLevelOk(p.entries[j], p.referencePrice);
    hide Allotted;
  }

  lemma FirstTouchOk(c: PaperCampaign, bid: real, ask: real)
    requires CampaignOk(c) && c.plan.mode.NEUTRAL_GRID? && c.activeDirection.None? && bid <= ask
    ensures var f := FirstTouch(c, bid, ask);
            f.fault.None? && CampaignOk(f.campaign) && f.campaign.plan == c.plan && c.fills <= f.campaign.fills
  {
    var p, touched := c.plan, Touched(c.plan.entries, bid, ask);
    LevelsDistinct(p);
    hide WellShaped;
    if touched != [] {
      var d := touched[0].direction;
      assert touched[0] in touched;
      forall i | 0 <= i < |touched| ensures touched[i].direction == d {
        assert touched[i] in touched;
        OneSideTouched(p, bid, ask, touched[i], touched[0]);
      }
      var sorted := Sorting.SortBy(touched, LevelIndex);
      Sorting.SortedMembers(touched, LevelIndex);
      TouchedDistinct(p.entries, bid, ask);
      SortDistinct(touched);
      hide Sorting.SortBy, Touched;
      assert sorted != [];
      FillAllOk(c.(activeDirection := Some(d)), sorted, d);
    }
  }

  // ---- One quote ----

  lemma NeutralExits(p: GridPlan, d: Direction)
    requires WellShaped(p) && p.mode.NEUTRAL_GRID? && Sided(d)
    ensures p.neutralLongInvalidation.Some? && p.neutralShortInvalidation.Some?
    ensures p.neutralLongTakeProfit == Some(TargetOf(p, d)) && p.neutralShortTakeProfit == Some(TargetOf(p, d))
    ensures StopOf(p, d) == if d.LONG? then p.neutralLongInvalidation.value else p.neutralShortInvalidation.value
  {
    hide Allotted;
  }

  lemma ManageNeutralOk(c: PaperCampaign, bid: real, ask: real)
    requires CampaignOk(c) && c.plan.mode.NEUTRAL_GRID? && c.activeDirection.Some? && bid <= ask
    ensures var f := ManageNeutral(c, bid, ask);
            && f.fault.None? && c.fills <= f.campaign.fills && f.campaign.plan == c.plan
            && (if f.campaign.open then CampaignOk(f.campaign) else ClosedOk(f.campaign))
  {
    var d := c.activeDirection.value;
    NeutralExits(c.plan, d);
    assert c.plan.entries[0..] == c.plan.entries;
    ManageOk(c, 0, d, bid, ask);
    hide Manage, CampaignOk, ClosedOk, StopOf, TargetOf;
  }

  /** No quote on a campaign of the planner ever fails, and every close comes out with the right sign. */
  lemma OnQuoteOk(c: PaperCampaign, bid: real, ask: real, eventMs: Option<int>)
    requires CampaignOk(c) && bid <= ask
    ensures var f := OnQuote(c, bid, ask, eventMs);
            && f.fault.None? && c.fills <= f.campaign.fills && f.campaign.plan == c.plan
            && (if f.campaign.open then CampaignOk(f.campaign) else ClosedOk(f.campaign))
  {
    if c.plan.mode.NEUTRAL_GRID? {
      if c.activeDirection.Some? {
        ManageNeutralOk(c, bid, ask);
        hide ManageNeutral, CampaignOk, ClosedOk;
      } else {
        assert Quantity(c.fills) == 0.0;
        FirstTouchOk(c, bid, ask);
        var f := FirstTouch(c, bid, ask);
        if f.campaign.activeDirection.Some? {
          ManageNeutralOk(f.campaign, bid, ask);
        }
        hide ManageNeutral, FirstTouch, WellShaped;
      }
    } else {
      EntriesPresent(c.plan);
      ManageOk(c, 1, c.plan.direction, bid, ask);
      hide Manage, WellShaped, FillsOk, ClosedOk;
    }
  }

  lemma EntriesPresent(p: GridPlan)
    requires WellShaped(p)
    ensures p.entries != []
  {
  }

  /** A plan of the planner opens with its starter filled, or armed with nothing filled. */
  lemma PreparedOk(p: GridPlan)
    requires WellShaped(p)
    ensures Prepared(p).fault.None? ==> CampaignOk(Prepared(p).campaign) && Prepared(p).campaign.plan == p
    ensures Prepared(p).fault.None? <==> p.mode.NEUTRAL_GRID? || Sided(p.direction)
  {
    EntriesPresent(p);
    if p.mode.NEUTRAL_GRID? {
      AllLimit(p);
      hide WellShaped;
    } else {
      StarterUsable(p);
      var l := p.entries[0];
      if Sided(p.direction) {
        LevelUsable(p, 0, p.direction);
        hide WellShaped;
        AddFill(p, p.direction, [], l, 0);
        assert [] + [PaperFill(l.index, l.price, l.notionalUsdt, l.notionalUsdt / l.price, p.direction)]
            == [PaperFill(l.index, l.price, l.notionalUsdt, l.notionalUsdt / l.price, p.direction)];
      }
    }
  }

  lemma StarterUsable(p: GridPlan)
    requires WellShaped(p) && !p.mode.NEUTRAL_GRID?
    ensures p.entries != [] && p.entries[0].kind.MARKET? && p.entries[0].price > 0.0 && p.entries[0].notionalUsdt > 0.0
  {
    hide Allotted;
  }

  lemma AllLimit(p: GridPlan)
    requires WellShaped(p) && p.mode.NEUTRAL_GRID?
    ensures forall i | 0 <= i < |p.entries| :: p.entries[i].kind.LIMIT?
  {
    hide Allotted;
    forall i | 0 <= i < |p.entries| ensures p.entries[i].kind.LIMIT? {
      assert LadderLevelOk(p.entries[i], p.referencePrice);
    }
  }
}
