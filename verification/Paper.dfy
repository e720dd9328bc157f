/** The paper broker: one bounded campaign per symbol, filled and closed tick by tick. */
module Paper {
  import opened Models
  import opened Market
  import opened Grid
  import Sorting

  datatype PaperFill = PaperFill(levelIndex: int, price: real, notionalUsdt: real, quantity: real, direction: Direction)

  datatype CloseReason = STOP | TAKE_PROFIT | EXPIRED

  datatype PaperCampaign = PaperCampaign(
    plan: GridPlan,
    open: bool,
    fills: seq<PaperFill>,
    realizedPnl: real,
    closeReason: Option<CloseReason>,
    closePrice: Option<real>,
    activeDirection: Option<Direction>)

  function FilledIndices(fills: seq<PaperFill>): set<int> {
    set i | 0 <= i < |fills| :: fills[i].levelIndex
  }

  function Quantity(fills: seq<PaperFill>): real {
    if fills == [] then 0.0 else Quantity(fills[..|fills| - 1]) + fills[|fills| - 1].quantity
  }

  function FilledNotional(fills: seq<PaperFill>): real {
    if fills == [] then 0.0 else FilledNotional(fills[..|fills| - 1]) + fills[|fills| - 1].notionalUsdt
  }

  /** Quantity times price, summed. */
  function CostBasis(fills: seq<PaperFill>): real {
    if fills == [] then 0.0
    else CostBasis(fills[..|fills| - 1]) + Mul(fills[|fills| - 1].quantity, fills[|fills| - 1].price)
  }

  function AverageEntry(fills: seq<PaperFill>): real {
    if Quantity(fills) <= 0.0 then 0.0 else CostBasis(fills) / Quantity(fills)
  }

  datatype PaperFault =
    | AlreadyActive | NotAllLimit | NoStarter | FirstNotMarket | InvalidFill | FillNeedsDirection
    | AmbiguousFill | ProtectionIncomplete

  /** A campaign after some fills, and the error that stopped them, if any. */
  datatype Filled = Filled(campaign: PaperCampaign, fault: Option<PaperFault>)

  function Fill(c: PaperCampaign, index: int, price: real, notional: real, d: Direction): Filled {
    if notional <= 0.0 || price <= 0.0 then Filled(c, Some(InvalidFill))
    else if d.PASS? then Filled(c, Some(FillNeedsDirection))
    else Filled(c.(fills := c.fills + [PaperFill(index, price, notional, notional / price, d)]), None)
  }

  /** A resting level of side `d` is reached by the quote. */
  predicate Reached(d: Direction, price: real, bid: real, ask: real) {
    if d.LONG? then ask <= price else bid >= price
  }

  /** Fills, in order, every reached level not yet filled; a two-sided plan considers its own side only. */
  function FillReached(c: PaperCampaign, levels: seq<GridEntryLevel>, filled: set<int>, d: Direction, ownSideOnly: bool,
                       bid: real, ask: real): Filled
    decreases levels
  {
    if levels == [] then Filled(c, None)
    else
      var l := levels[0];
      if l.index in filled || (ownSideOnly && l.direction != d) || !Reached(d, l.price, bid, ask) then
        FillReached(c, levels[1..], filled, d, ownSideOnly, bid, ask)
      else
        var f := Fill(c, l.index, l.price, l.notionalUsdt, d);
        if f.fault.Some? then f else FillReached(f.campaign, levels[1..], filled, d, ownSideOnly, bid, ask)
  }

  predicate Touches(l: GridEntryLevel, bid: real, ask: real) {
    (l.direction.LONG? && ask <= l.price) || (l.direction.SHORT? && bid >= l.price)
  }

  function Touched(levels: seq<GridEntryLevel>, bid: real, ask: real): (r: seq<GridEntryLevel>)
    ensures forall l :: l in r <==> l in levels && Touches(l, bid, ask)
  {
    if levels == [] then []
    else
      var front, last := Touched(levels[..|levels| - 1], bid, ask), levels[|levels| - 1];
      assert levels == levels[..|levels| - 1] + [last];
      if Touches(last, bid, ask) then front + [last] else front
  }

  function LevelIndex(l: GridEntryLevel): int {
    l.index
  }

  /** Fills the given levels in order. */
  function FillAll(c: PaperCampaign, levels: seq<GridEntryLevel>, d: Direction): Filled
    decreases levels
  {
    if levels == [] then Filled(c, None)
    else if levels[0].direction != d then FillAll(c, levels[1..], d)
    else
      var f := Fill(c, levels[0].index, levels[0].price, levels[0].notionalUsdt, d);
      if f.fault.Some? then f else FillAll(f.campaign, levels[1..], d)
  }

  /** The first touch of an armed neutral grid decides its side. */
  function FirstTouch(c: PaperCampaign, bid: real, ask: real): Filled {
    var touched := Touched(c.plan.entries, bid, ask);
    if touched == [] then Filled(c, None)
    else if exists i :: 0 <= i < |touched| && touched[i].direction != touched[0].direction then
      Filled(c, Some(AmbiguousFill))
    else
      var d := touched[0].direction;
      FillAll(c.(activeDirection := Some(d)), Sorting.SortBy(touched, LevelIndex), d)
  }

  function PositionDirection(c: PaperCampaign): Direction {
    if c.activeDirection.Some? then c.activeDirection.value else c.plan.direction
  }

  function RealizedPnl(c: PaperCampaign, price: real): real {
    var d := PositionDirection(c);
    if Quantity(c.fills) > 0.0 && !d.PASS? then Quantity(c.fills) * (price - AverageEntry(c.fills)) * Sign(d) else 0.0
  }

  function Close(c: PaperCampaign, price: real, reason: CloseReason): PaperCampaign {
    c.(open := false, realizedPnl := RealizedPnl(c, price), closeReason := Some(reason), closePrice := Some(price))
  }

  /** Stop or target of a position, at the price it is left at. */
  function ExitPrice(d: Direction, stop: real, target: real, bid: real, ask: real): Option<(CloseReason, real)> {
    if d.LONG? then
      if bid <= stop then Some((STOP, bid)) else if bid >= target then Some((TAKE_PROFIT, bid)) else None
    else
      if ask >= stop then Some((STOP, ask)) else if ask <= target then Some((TAKE_PROFIT, ask)) else None
  }

  /** Manages an exposed side: exits first, then further fills. */
  function Manage(c: PaperCampaign, d: Direction, stop: real, target: real, levels: seq<GridEntryLevel>,
                  ownSideOnly: bool, bid: real, ask: real): Filled {
    match ExitPrice(d, stop, target, bid, ask)
    case Some(e) => Filled(Close(c, e.1, e.0), None)
    case None => FillReached(c, levels, FilledIndices(c.fills), d, ownSideOnly, bid, ask)
  }

  function ManageNeutral(c: PaperCampaign, bid: real, ask: real): Filled
    requires c.activeDirection.Some?
  {
    var d, p := c.activeDirection.value, c.plan;
    var stop := if d.LONG? then p.neutralLongInvalidation else p.neutralShortInvalidation;
    var target := if d.LONG? then p.neutralLongTakeProfit else p.neutralShortTakeProfit;
    if stop.None? || target.None? then Filled(c, Some(ProtectionIncomplete))
    else Manage(c, d, stop.value, target.value, p.entries, true, bid, ask)
  }

  /** One usable quote on an open campaign. */
  function OnQuote(c: PaperCampaign, bid: real, ask: real, eventMs: Option<int>): Filled {
    var p := c.plan;
    if p.mode.NEUTRAL_GRID? then
      if c.activeDirection.Some? then ManageNeutral(c, bid, ask)
      else if p.expiresAtMs != 0 && eventMs.Some? && eventMs.value >= p.expiresAtMs then
        Filled(Close(c, (bid + ask) / 2.0, EXPIRED), None)
      else
        var f := FirstTouch(c, bid, ask);
        if f.fault.Some? || f.campaign.activeDirection.None? then f else ManageNeutral(f.campaign, bid, ask)
    else
      Manage(c, p.direction, p.invalidation, p.takeProfit, if p.entries == [] then [] else p.entries[1..],
             false, bid, ask)
  }

  // ---- The broker ----

  datatype Recent = Recent(campaign: PaperCampaign, eventMs: Option<int>)

  datatype Broker = Broker(
    campaigns: map<string, PaperCampaign>,
    closed: seq<PaperCampaign>,
    suppress: bool,
    lastEvent: map<string, Option<int>>,
    recent: map<string, Recent>)

  function LastEvent(b: Broker, symbol: string): Option<int> {
    if symbol in b.lastEvent then b.lastEvent[symbol] else None
  }

  /** The campaign that keeps a symbol taken: the open one, or the one closed on the latest event. */
  function ActiveCampaign(b: Broker, symbol: string): Option<PaperCampaign> {
    if symbol in b.campaigns then Some(b.campaigns[symbol])
    else if !b.suppress || symbol !in b.recent then None
    else if b.recent[symbol].eventMs == LastEvent(b, symbol) then Some(b.recent[symbol].campaign)
    else None
  }

  datatype Opened = Opened(broker: Broker, fault: Option<PaperFault>)

  function NewCampaign(plan: GridPlan): PaperCampaign {
    PaperCampaign(plan, true, [], 0.0, None, None, None)
  }

  /** The campaign a plan starts with. */
  function Prepared(plan: GridPlan): Filled {
    var c := NewCampaign(plan);
    if plan.mode.NEUTRAL_GRID? then
      if plan.entries == [] || exists i :: 0 <= i < |plan.entries| && !plan.entries[i].kind.LIMIT? then
        Filled(c, Some(NotAllLimit))
      else Filled(c, None)
    else if plan.entries == [] then Filled(c, Some(NoStarter))
    else
      var starter := plan.entries[0];
      if !starter.kind.MARKET? then Filled(c, Some(FirstNotMarket))
      else Fill(c.(activeDirection := Some(plan.direction)), starter.index, starter.price, starter.notionalUsdt,
                plan.direction)
  }

  function OpenCampaign(b: Broker, plan: GridPlan): Opened {
    if ActiveCampaign(b, plan.symbol).Some? then Opened(b, Some(AlreadyActive))
    else
      var f := Prepared(plan);
      if f.fault.Some? then Opened(b, f.fault)
      else Opened(b.(campaigns := b.campaigns[plan.symbol := f.campaign]), None)
  }

  /** The event is noted; a different stamp than the closing one frees the symbol. */
  function Noted(b: Broker, symbol: string, eventMs: Option<int>): Broker {
    var c := b.(lastEvent := b.lastEvent[symbol := eventMs]);
    if symbol in b.recent && b.recent[symbol].eventMs != eventMs then c.(recent := b.recent - {symbol}) else c
  }

  /** The campaign is put back, or filed away once closed. */
  function Stored(b: Broker, symbol: string, c: PaperCampaign, eventMs: Option<int>): Broker {
    if c.open then b.(campaigns := b.campaigns[symbol := c])
    else
      b.(campaigns := b.campaigns - {symbol},
         closed := b.closed + [c],
         recent := if b.suppress then b.recent[symbol := Recent(c, eventMs)] else b.recent)
  }

  function OnState(b: Broker, state: SymbolState): Opened {
    var symbol, eventMs := state.symbol, state.lastEventTimeMs;
    var n := Noted(b, symbol, eventMs);
    if symbol !in b.campaigns || !UsableBook(state.bestBid, state.bestAsk) then Opened(n, None)
    else
      var f := OnQuote(b.campaigns[symbol], state.bestBid.value, state.bestAsk.value, eventMs);
      Opened(Stored(n, symbol, f.campaign, eventMs), f.fault)
  }
}
