/** The paper broker as objects: campaigns that are filled and closed in place, and the broker that owns them. */
module PaperBroker {
  import opened Models
  import opened Market
  import opened Grid
  import opened Paper
  import Sorting

  class GridCampaign {
    const plan: GridPlan
    var open: bool
    var fills: seq<PaperFill>
    var realizedPnl: real
    var closeReason: Option<CloseReason>
    var closePrice: Option<real>
    var activeDirection: Option<Direction>

    ghost function View(): PaperCampaign
      reads this
    {
      PaperCampaign(plan, open, fills, realizedPnl, closeReason, closePrice, activeDirection)
    }

    constructor (plan: GridPlan)
      ensures this.plan == plan && View() == NewCampaign(plan)
    {
      this.plan := plan;
      open, fills, realizedPnl := true, [], 0.0;
      closeReason, closePrice, activeDirection := None, None, None;
    }

    method FillLevel(index: int, price: real, notional: real, d: Direction) returns (fault: Option<PaperFault>)
      modifies this`fills
      ensures Filled(View(), fault) == Fill(old(View()), index, price, notional, d)
    {
      if notional <= 0.0 || price <= 0.0 { return Some(InvalidFill); }
      if d.PASS? { return Some(FillNeedsDirection); }
      fills := fills + [PaperFill(index, price, notional, notional / price, d)];
      fault := None;
    }

    /** The loop over resting levels that have not been filled before this quote. */
    method FillReachedLevels(levels: seq<GridEntryLevel>, d: Direction, ownSideOnly: bool, bid: real, ask: real)
      returns (fault: Option<PaperFault>)
      modifies this`fills
      ensures Filled(View(), fault) == FillReached(old(View()), levels, FilledIndices(old(fills)), d, ownSideOnly, bid,
                                                   ask)
    {
      hide Fill, Reached, FilledIndices;
      var filled := FilledIndices(fills);
      for i := 0 to |levels|
        invariant FillReached(View(), levels[i..], filled, d, ownSideOnly, bid, ask)
                  == FillReached(old(View()), levels, filled, d, ownSideOnly, bid, ask)
      {
        var level := levels[i];
        assert levels[i..][1..] == levels[i + 1..];
        if level.index in filled || (ownSideOnly && level.direction != d) { continue; }
        if Reached(d, level.price, bid, ask) {
          fault := FillLevel(level.index, level.price, level.notionalUsdt, d);
          if fault.Some? { return; }
        }
      }
      fault := None;
    }

    method FillFirstTouch(bid: real, ask: real) returns (fault: Option<PaperFault>)
      modifies this`fills, this`activeDirection
      ensures Filled(View(), fault) == FirstTouch(old(View()), bid, ask)
    {
      hide Fill, Touched, FillAll;
      var touched := Touched(plan.entries, bid, ask);
      if touched == [] { return None; }
      if exists i :: 0 <= i < |touched| && touched[i].direction != touched[0].direction { return Some(AmbiguousFill); }
      var d := touched[0].direction;
      activeDirection := Some(d);
      fault := FillLevels(Sorting.SortBy(touched, LevelIndex), d);
    }

    method FillLevels(levels: seq<GridEntryLevel>, d: Direction) returns (fault: Option<PaperFault>)
      modifies this`fills
      ensures Filled(View(), fault) == FillAll(old(View()), levels, d)
    {
      hide Fill;
      for i := 0 to |levels|
        invariant FillAll(View(), levels[i..], d) == FillAll(old(View()), levels, d)
      {
        var level := levels[i];
        assert levels[i..][1..] == levels[i + 1..];
        if level.direction == d {
          fault := FillLevel(level.index, level.price, level.notionalUsdt, d);
          if fault.Some? { return; }
        }
      }
      fault := None;
    }

    method CloseAt(price: real, reason: CloseReason)
      modifies this
      ensures View() == Close(old(View()), price, reason)
    {
      var d := if activeDirection.Some? then activeDirection.value else plan.direction;
      var quantity := Quantity(fills);
      realizedPnl := if quantity > 0.0 && !d.PASS? then quantity * (price - AverageEntry(fills)) * Sign(d) else 0.0;
      open := false;
      closeReason := Some(reason);
      closePrice := Some(price);
    }

    method ManagePosition(d: Direction, stop: real, target: real, levels: seq<GridEntryLevel>, ownSideOnly: bool,
                          bid: real, ask: real)
      returns (fault: Option<PaperFault>)
      modifies this
      ensures Filled(View(), fault) == Manage(old(View()), d, stop, target, levels, ownSideOnly, bid, ask)
    {
      hide Close, FillReached, FilledIndices;
      if d.LONG? {
        if bid <= stop { CloseAt(bid, STOP); return None; }
        if bid >= target { CloseAt(bid, TAKE_PROFIT); return None; }
      } else {
        if ask >= stop { CloseAt(ask, STOP); return None; }
        if ask <= target { CloseAt(ask, TAKE_PROFIT); return None; }
      }
      fault := FillReachedLevels(levels, d, ownSideOnly, bid, ask);
    }

    method ManageNeutralPosition(bid: real, ask: real) returns (fault: Option<PaperFault>)
      requires activeDirection.Some?
      modifies this
      ensures Filled(View(), fault) == ManageNeutral(old(View()), bid, ask)
    {
      hide Manage;
      var d := activeDirection.value;
      var stop := if d.LONG? then plan.neutralLongInvalidation else plan.neutralShortInvalidation;
      var target := if d.LONG? then plan.neutralLongTakeProfit else plan.neutralShortTakeProfit;
      if stop.None? || target.None? { return Some(ProtectionIncomplete); }
      fault := ManagePosition(d, stop.value, target.value, plan.entries, true, bid, ask);
    }

    method Quote(bid: real, ask: real, eventMs: Option<int>) returns (fault: Option<PaperFault>)
      modifies this
      ensures Filled(View(), fault) == OnQuote(old(View()), bid, ask, eventMs)
    {
      hide Manage, ManageNeutral, FirstTouch, Close;
      if plan.mode.NEUTRAL_GRID? {
        if activeDirection.None? {
          if plan.expiresAtMs != 0 && eventMs.Some? && eventMs.value >= plan.expiresAtMs {
            CloseAt((bid + ask) / 2.0, EXPIRED);
            return None;
          }
          fault := FillFirstTouch(bid, ask);
          if fault.Some? || activeDirection.None? { return; }
        }
        fault := ManageNeutralPosition(bid, ask);
      } else {
        fault := ManagePosition(plan.direction, plan.invalidation, plan.takeProfit,
                                if plan.entries == [] then [] else plan.entries[1..], false, bid, ask);
      }
    }
  }

  ghost function ViewsOf(cs: seq<GridCampaign>): (r: seq<PaperCampaign>)
    reads cs
    ensures |r| == |cs|
  {
    if cs == [] then [] else ViewsOf(cs[..|cs| - 1]) + [cs[|cs| - 1].View()]
  }

  class PaperGridBroker {
    var campaigns: map<string, GridCampaign>
    var closed: seq<GridCampaign>
    var suppress: bool
    var lastEvent: map<string, Option<int>>
    var recent: map<string, (GridCampaign, Option<int>)>

    /** Open campaigns are objects of their own: not shared between symbols, nor with closed ones. */
    ghost predicate Valid()
      reads this`campaigns, this`closed, this`recent
    {
      && (forall s, t | s in campaigns && t in campaigns && s != t :: campaigns[s] != campaigns[t])
      && (forall s, i | s in campaigns && 0 <= i < |closed| :: campaigns[s] != closed[i])
      && (forall s, t | s in campaigns && t in recent :: campaigns[s] != recent[t].0)
    }

    ghost function OpenViews(): map<string, PaperCampaign>
      reads this`campaigns, set s | s in campaigns :: campaigns[s]
    {
      map s | s in campaigns :: campaigns[s].View()
    }

    ghost function ClosedViews(): seq<PaperCampaign>
      reads this`closed, closed
    {
      ViewsOf(closed)
    }

    ghost function RecentViews(): map<string, Recent>
      reads this`recent, set s | s in recent :: recent[s].0
    {
      map s | s in recent :: Recent(recent[s].0.View(), recent[s].1)
    }

    ghost function Objects(): set<object>
      reads this
    {
      (set s | s in campaigns :: campaigns[s]) + (set i | 0 <= i < |closed| :: closed[i])
        + (set s | s in recent :: recent[s].0)
    }

    ghost function View(): Broker
      reads this, Objects()
    {
      Broker(OpenViews(), ClosedViews(), suppress, lastEvent, RecentViews())
    }

    constructor (suppress: bool)
      ensures Valid() && View() == Broker(map[], [], suppress, map[], map[])
    {
      campaigns, closed, lastEvent, recent := map[], [], map[], map[];
      this.suppress := suppress;
      new;
      assert ClosedViews() == [];
    }

    method Taken(symbol: string) returns (taken: bool)
      ensures taken <==> ActiveCampaign(View(), symbol).Some?
    {
      if symbol in campaigns { return true; }
      if !suppress || symbol !in recent { return false; }
      taken := recent[symbol].1 == if symbol in lastEvent then lastEvent[symbol] else None;
    }

    /** A new object takes the symbol. */
    method Register(symbol: string, campaign: GridCampaign)
      requires Valid() && campaign !in Objects()
      modifies this`campaigns
      ensures Valid()
      ensures OpenViews() == old(OpenViews())[symbol := campaign.View()]
    {
      campaigns := campaigns[symbol := campaign];
    }

    method Open(plan: GridPlan) returns (fault: Option<PaperFault>)
      requires Valid()
      modifies this`campaigns
      ensures Valid() && Opened(View(), fault) == OpenCampaign(old(View()), plan)
    {
      hide Fill, ActiveCampaign, Prepared, OpenViews, ClosedViews, RecentViews, Valid, GridCampaign.View;
      assert forall s | s in recent :: allocated(recent[s].0);
      var taken := Taken(plan.symbol);
      if taken { return Some(AlreadyActive); }
      var campaign := new GridCampaign(plan);
      fault := PrepareCampaign(campaign);
      if fault.Some? { return; }
      Register(plan.symbol, campaign);
    }

    /** The starter of a directional plan is filled at once; a two-sided plan is only checked. */
    method PrepareCampaign(campaign: GridCampaign) returns (fault: Option<PaperFault>)
      requires campaign.View() == NewCampaign(campaign.plan)
      modifies campaign
      ensures fault == Prepared(campaign.plan).fault
      ensures fault.None? ==> campaign.View() == Prepared(campaign.plan).campaign
    {
      hide Fill;
      var plan := campaign.plan;
      if plan.mode.NEUTRAL_GRID? {
        if plan.entries == [] || exists i :: 0 <= i < |plan.entries| && !plan.entries[i].kind.LIMIT? {
          return Some(NotAllLimit);
        }
        return None;
      }
      if plan.entries == [] { return Some(NoStarter); }
      var starter := plan.entries[0];
      if !starter.kind.MARKET? { return Some(FirstNotMarket); }
      campaign.activeDirection := Some(plan.direction);
      fault := campaign.FillLevel(starter.index, starter.price, starter.notionalUsdt, plan.direction);
    }

    method Note(symbol: string, eventMs: Option<int>)
      requires Valid()
      modifies this`lastEvent, this`recent
      ensures Valid()
      ensures lastEvent == old(lastEvent)[symbol := eventMs]
      ensures RecentViews() ==
                if symbol in old(RecentViews()) && old(RecentViews())[symbol].eventMs != eventMs
                then old(RecentViews()) - {symbol}
                               else old(RecentViews())
    {
      lastEvent := lastEvent[symbol := eventMs];
      if symbol in recent && recent[symbol].1 != eventMs {
        recent := recent - {symbol};
      }
    }

    /** A campaign that has just been closed leaves the open ones. */
    method FileAway(symbol: string, eventMs: Option<int>)
      requires Valid() && symbol in campaigns
      modifies this`campaigns, this`closed, this`recent
      ensures Valid()
      ensures OpenViews() == old(OpenViews()) - {symbol}
      ensures ClosedViews() == old(ClosedViews()) + [old(campaigns[symbol].View())]
      ensures RecentViews() ==
                if suppress then old(RecentViews())[symbol := Recent(old(campaigns[symbol].View()), eventMs)]
                else old(RecentViews())
    {
      hide GridCampaign.View, Valid, OpenViews, ClosedViews;
      var campaign := campaigns[symbol];
      DropOpen(symbol);
      if suppress {
        Remember(symbol, campaign, eventMs);
      }
      AddClosed(campaign);
    }

    method DropOpen(symbol: string)
      requires Valid() && symbol in campaigns
      modifies this`campaigns
      ensures Valid()
      ensures OpenViews() == old(OpenViews()) - {symbol}
      ensures forall s | s in campaigns :: campaigns[s] != old(campaigns)[symbol]
    {
      hide GridCampaign.View;
      campaigns := campaigns - {symbol};
    }

    method Remember(symbol: string, campaign: GridCampaign, eventMs: Option<int>)
      requires Valid() && forall s | s in campaigns :: campaigns[s] != campaign
      modifies this`recent
      ensures Valid()
      ensures RecentViews() == old(RecentViews())[symbol := Recent(campaign.View(), eventMs)]
    {
      hide GridCampaign.View;
      recent := recent[symbol := (campaign, eventMs)];
    }

    method AddClosed(campaign: GridCampaign)
      requires Valid() && forall s | s in campaigns :: campaigns[s] != campaign
      modifies this`closed
      ensures Valid()
      ensures ClosedViews() == old(ClosedViews()) + [campaign.View()]
    {
      hide GridCampaign.View;
      assert (closed + [campaign])[..|closed|] == closed;
      closed := closed + [campaign];
    }

    lemma OpenAt(symbol: string)
      ensures symbol in OpenViews() <==> symbol in campaigns
      ensures symbol in campaigns ==> OpenViews()[symbol] == campaigns[symbol].View()
    {
    }

    method OnEvent(state: SymbolState) returns (fault: Option<PaperFault>)
      requires Valid()
      modifies this, if state.symbol in campaigns then {campaigns[state.symbol]} else {}
      ensures Valid() && Opened(View(), fault) == OnState(old(View()), state)
    {
      hide OnQuote, Noted, OpenViews, ClosedViews, RecentViews, Valid;
      var symbol := state.symbol;
      OpenAt(symbol);
      Note(symbol, state.lastEventTimeMs);
      NotedParts(old(View()), symbol, state.lastEventTimeMs);
      assert View() == Noted(old(View()), symbol, state.lastEventTimeMs);
      if symbol !in campaigns || !UsableBook(state.bestBid, state.bestAsk) { return None; }
      fault := QuoteOpen(symbol, state.bestBid.value, state.bestAsk.value, state.lastEventTimeMs);
      if !campaigns[symbol].open {
        FileAway(symbol, state.lastEventTimeMs);
      }
    }

    /** The quote reaches the symbol's own campaign and no other object. */
    method QuoteOpen(symbol: string, bid: real, ask: real, eventMs: Option<int>) returns (fault: Option<PaperFault>)
      requires Valid() && symbol in campaigns
      modifies campaigns[symbol]
      ensures Valid()
      ensures Filled(campaigns[symbol].View(), fault) == OnQuote(old(campaigns[symbol].View()), bid, ask, eventMs)
      ensures OpenViews() == old(OpenViews())[symbol := campaigns[symbol].View()]
      ensures ClosedViews() == old(ClosedViews()) && RecentViews() == old(RecentViews())
    {
      hide OnQuote, GridCampaign.View;
      fault := campaigns[symbol].Quote(bid, ask, eventMs);
    }
  }

  lemma NotedParts(b: Broker, symbol: string, eventMs: Option<int>)
    ensures Noted(b, symbol, eventMs) == b.(lastEvent := b.lastEvent[symbol := eventMs],
              recent := if symbol in b.recent && b.recent[symbol].eventMs != eventMs then b.recent - {symbol}
                else b.recent)
  {
  }
}
