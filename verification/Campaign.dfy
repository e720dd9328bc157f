/** Opening, protecting, recovering and cleaning up one bounded campaign per symbol. */
module Campaign {
  import opened Models
  import opened Store
  import opened Grid
  import opened Adapter

  function RecordFor(plan: GridPlan): CampaignRecord {
    var neutral := plan.mode.NEUTRAL_GRID?;
    CampaignRecord(
      plan.campaignId, plan.symbol, if neutral then PASS else plan.direction, Opening, plan.referencePrice,
      plan.totalNotional, plan.leverage, plan.spacingBps, plan.invalidation, plan.takeProfit,
      if neutral then NoId else SgId(StarterKey(plan.campaignId)),
      LimitIds(plan.campaignId, plan.entries),
      SgId(StopKey(plan.campaignId)), SgId(TakeProfitKey(plan.campaignId)),
      plan.mode, !neutral, plan.expiresAtMs,
      plan.neutralLongInvalidation, plan.neutralLongTakeProfit,
      plan.neutralShortInvalidation, plan.neutralShortTakeProfit)
  }

  function LimitIds(campaign: CampaignId, entries: seq<GridEntryLevel>): (ids: seq<ClientId>)
    ensures forall id | id in ids :: id.SgId? && id.key.LevelKey? && id.key.campaign == campaign
  {
    if entries == [] then []
    else
      var front := LimitIds(campaign, entries[..|entries| - 1]);
      var level := entries[|entries| - 1];
      if level.kind.LIMIT? then front + [SgId(LevelKey(campaign, level.index))] else front
  }

  /** The ids of a campaign's stop and target. */
  function ExitIds(campaign: CampaignId): set<ClientId> {
    {SgId(StopKey(campaign)), SgId(TakeProfitKey(campaign))}
  }

  predicate HasActive(db: Db, symbol: string) {
    symbol in db.campaigns && ActiveCampaign(db.campaigns[symbol].status)
  }

  /** Ownership of the symbol, refused while another campaign is active there. */
  function Prepare(db: Db, plan: GridPlan): Option<Db> {
    if HasActive(db, plan.symbol) then None
    else Some(db.(campaigns := db.campaigns[plan.symbol := RecordFor(plan)]))
  }

  function WithStatus(db: Db, symbol: string, status: CampaignStatus): (after: Db)
    ensures after == db.(campaigns := after.campaigns)
  {
    if symbol in db.campaigns then db.(campaigns := db.campaigns[symbol := db.campaigns[symbol].(status := status)])
    else db
  }

  function Mark(w: World, symbol: string, status: CampaignStatus): World {
    w.(db := WithStatus(w.db, symbol, status))
  }

  function Stop(w: World, reason: HaltReason): World {
    w.(db := Halt(w.db, reason))
  }

  function StoredDirection(p: StoredPosition): Direction {
    if p.direction.LONG? then LONG else SHORT
  }

  // ---- Opening ----

  datatype OpenOutcome = Opened(starterOrderId: string, limitOrderIds: seq<string>) | AlreadyActive | OpenFailed

  datatype Attempt = Attempt(world: World, outcome: OpenOutcome)

  /** Both triggers are checked before any exposure is taken. */
  function StarterPhase(v: Venue, w: World, plan: GridPlan): (p: Placement)
    ensures OnlyPositions(w.db, p.world.db)
    ensures Quiet(v) ==> p.world.db == w.db
    ensures p.receipt.None? ==> p.world.ex == w.ex && Tidy(w, p.world)
    ensures !ExecutionReady(w.db) ==> p.receipt.None?
    ensures p.receipt.Some? ==>
              var r := p.receipt.value;
              && plan.entries != [] && plan.entries[0].notionalUsdt > 0.0 && v.rules(plan.symbol).Some?
                 && plan.referencePrice > 0.0
              && QuantityFor(v.rules(plan.symbol).value, plan.entries[0].notionalUsdt, plan.referencePrice)
                == Some(r.quantity)
              && r.price == plan.referencePrice
              && w.tick < p.world.tick && v.answer(p.world.tick - 1) == Accepted(r.orderId)
              && !plan.direction.PASS?
              && p.world.ex == w.ex.(
                   market := w.ex.market
                     + [MarketOrder(plan.symbol, SgId(StarterKey(plan.campaignId)), plan.direction, r.quantity,
                                    r.price, false)],
                   issued := w.ex.issued + {r.orderId})
  {
    if plan.entries == [] then Placement(w, None)
    else
      var c1 := ValidateExit(v, w, plan.symbol, plan.direction, plan.invalidation, STOP_MARKET);
      if !c1.ok then Placement(c1.world, None)
      else
        var c2 := ValidateExit(v, c1.world, plan.symbol, plan.direction, plan.takeProfit, TAKE_PROFIT_MARKET);
        if !c2.ok then Placement(c2.world, None)
        else PlaceEntry(v, c2.world, plan.symbol, plan.direction, plan.entries[0].notionalUsdt, plan.leverage,
                        StarterKey(plan.campaignId), plan.referencePrice)
  }

  function LevelDirection(plan: GridPlan, level: GridEntryLevel): Direction {
    if plan.mode.NEUTRAL_GRID? then level.direction else plan.direction
  }

  datatype Ladder = Ladder(world: World, placed: seq<Receipt>, ok: bool)

  /** Places the levels in order; stops at the first that fails. */
  function PlaceLadder(v: Venue, w: World, plan: GridPlan, levels: seq<GridEntryLevel>, placed: seq<Receipt>): Ladder
    decreases levels
  {
    if levels == [] then Ladder(w, placed, true)
    else
      var level := levels[0];
      if plan.mode.NEUTRAL_GRID? && (!level.kind.LIMIT? || level.direction.PASS?) then Ladder(w, placed, false)
      else
        var p := PlaceLimit(v, w, plan.symbol, LevelDirection(plan, level), level.notionalUsdt, level.price,
                            LevelKey(plan.campaignId, level.index));
        if p.receipt.None? then Ladder(p.world, placed, false)
        else PlaceLadder(v, p.world, plan, levels[1..], placed + [p.receipt.value])
  }

  function OrderIds(rs: seq<Receipt>): seq<string> {
    seq(|rs|, i requires 0 <= i < |rs| => rs[i].orderId)
  }

  /** The starter filled but its stop was not accepted: close it, and halt either way. */
  function UnprotectedStarter(v: Venue, w: World, plan: GridPlan, quantity: real): (after: World)
    ensures Tidy(w, after)
  {
    var c := PlaceReduceOnly(v, w, plan.symbol, plan.direction, quantity,
                             EmergencyKey(plan.campaignId, EmergencyClose));
    if c.ok then Stop(Mark(c.world, plan.symbol, Failed), GridStopPlacementFailed(plan.symbol))
    else Mark(Stop(c.world, GridUnprotectedPosition(plan.symbol)), plan.symbol, Degraded)
  }

  function DegradeOpen(w: World, plan: GridPlan): (after: World)
    ensures Tidy(w, after)
  {
    Stop(Mark(w, plan.symbol, Degraded), GridOpenDegraded(plan.symbol))
  }

  /** From the filled starter on: protection first, then the ladder. */
  function ProtectAndLadder(v: Venue, w: World, plan: GridPlan, starter: Receipt): Attempt
    requires plan.entries != []
  {
    var stop := PlaceExit(v, w, plan.symbol, plan.direction, plan.invalidation, STOP_MARKET, StopKey(plan.campaignId));
    if !stop.ok then Attempt(UnprotectedStarter(v, stop.world, plan, starter.quantity), OpenFailed)
    else
      var tp := PlaceExit(v, stop.world, plan.symbol, plan.direction, plan.takeProfit, TAKE_PROFIT_MARKET,
                          TakeProfitKey(plan.campaignId));
      if !tp.ok then Attempt(DegradeOpen(tp.world, plan), OpenFailed)
      else
        var l := PlaceLadder(v, tp.world, plan, plan.entries[1..], []);
        if !l.ok then Attempt(DegradeOpen(l.world, plan), OpenFailed)
        else Attempt(Mark(l.world, plan.symbol, Active), Opened(starter.orderId, OrderIds(l.placed)))
  }

  function OpenDirectional(v: Venue, w: World, plan: GridPlan): Attempt {
    var prepared := Prepare(w.db, plan);
    if prepared.None? then Attempt(w, AlreadyActive)
    else
      var s := StarterPhase(v, w.(db := prepared.value), plan);
      if s.receipt.None? then Attempt(Mark(s.world, plan.symbol, Failed), OpenFailed)
      else ProtectAndLadder(v, s.world, plan, s.receipt.value)
  }

  // ---- Neutral protection ----

  datatype Step = Step(world: World, ok: bool)

  function Protection(r: CampaignRecord, d: Direction): Option<(real, real)> {
    var stop := if d.LONG? then r.neutralLongInvalidation else r.neutralShortInvalidation;
    var tp := if d.LONG? then r.neutralLongTakeProfit else r.neutralShortTakeProfit;
    if stop.None? || tp.None? || stop.value <= 0.0 || tp.value <= 0.0 then None else Some((stop.value, tp.value))
  }

  /** An active stored order of this id on the side opposite to `d`, with an exchange id to cancel it by. */
  predicate CancelableOpposite(orders: OrderTable, id: ClientId, d: Direction) {
    id in orders && ActiveOrder(orders[id].status) && orders[id].side != EntrySide(d)
      && orders[id].exchangeOrderId != ""
  }

  function CancelOpposite(v: Venue, w: World, symbol: string, d: Direction, ids: seq<ClientId>): (s: Step)
    ensures OnlyPositions(w.db, s.world.db)
    ensures Quiet(v) ==> s.world.db == w.db
    ensures s.world.ex == w.ex.(resting := s.world.ex.resting) && s.world.ex.resting <= w.ex.resting
    decreases ids
    ensures Tidy(w, s.world)
  {
    if ids == [] then Step(w, true)
    else if !CancelableOpposite(w.db.account.orders, ids[0], d) then CancelOpposite(v, w, symbol, d, ids[1..])
    else
      var c := CancelOrder(v, w, symbol, w.db.account.orders[ids[0]].exchangeOrderId);
      if c.result.Broken? then Step(c.world, false)
      else CancelOpposite(v, c.world, symbol, d, ids[1..])
  }

  /** A stored position on a campaign that is already activated: keep one side only, refuse a flip. */
  function KeepActivated(v: Venue, w: World, r: CampaignRecord, d: Direction, quantity: real): (s: Step)
    ensures Tidy(w, s.world)
  {
    if r.direction != d then
      var c := PlaceReduceOnly(v, w, r.symbol, d, quantity, EmergencyKey(r.campaignId, DirectionFlipClose));
      Step(Stop(Mark(c.world, r.symbol, Degraded), NeutralDirectionFlip(r.symbol)), false)
    else CancelOpposite(v, w, r.symbol, d, r.limitIds)
  }

  function ProtectionFailed(v: Venue, w: World, r: CampaignRecord, d: Direction, quantity: real): (after: World)
    ensures Tidy(w, after)
  {
    var c := PlaceReduceOnly(v, w, r.symbol, d, quantity, EmergencyKey(r.campaignId, NeutralProtectionEmergencyClose));
    if c.ok then Stop(Mark(c.world, r.symbol, Failed), NeutralProtectionFailed(r.symbol))
    else Stop(Mark(c.world, r.symbol, Degraded), NeutralUnprotectedPosition(r.symbol))
  }

  /** Both triggers are checked, then the stop is submitted. */
  function NeutralStopPhase(v: Venue, w: World, r: CampaignRecord, d: Direction, stop: real, tp: real): (c: Call)
    ensures OnlyPositions(w.db, c.world.db)
    ensures Quiet(v) ==> c.world.db == w.db
    ensures !c.ok ==> c.world.ex == w.ex
    ensures c.ok ==>
              c.world.ex == w.ex.(algos := w.ex.algos[SgId(StopKey(r.campaignId)) :=
                                                      ExitFor(v, r.symbol, d, STOP_MARKET, stop)],
                                  accepted := w.ex.accepted + {SgId(StopKey(r.campaignId))})
    ensures Tidy(w, c.world)
  {
    var c1 := ValidateExit(v, w, r.symbol, d, stop, STOP_MARKET);
    if !c1.ok then c1
    else
      var c2 := ValidateExit(v, c1.world, r.symbol, d, tp, TAKE_PROFIT_MARKET);
      if !c2.ok then c2 else PlaceExit(v, c2.world, r.symbol, d, stop, STOP_MARKET, StopKey(r.campaignId))
  }

  function ActivateNeutral(w: World, r: CampaignRecord, d: Direction): World
    requires r.symbol in w.db.campaigns
  {
    var activated := w.db.campaigns[r.symbol].(direction := d, activated := true, status := Active);
    w.(db := w.db.(campaigns := w.db.campaigns[r.symbol := activated]))
  }

  /** With the stop in place: the target, the other side's entries, the activation. */
  function CompleteProtection(v: Venue, w: World, r: CampaignRecord, d: Direction, target: real): (s: Step)
    requires r.symbol in w.db.campaigns
    ensures Tidy(w, s.world)
  {
    var tp := PlaceExit(v, w, r.symbol, d, target, TAKE_PROFIT_MARKET, TakeProfitKey(r.campaignId));
    if !tp.ok then Step(Stop(Mark(tp.world, r.symbol, Degraded), NeutralOpenDegraded(r.symbol)), false)
    else
      var c := CancelOpposite(v, tp.world, r.symbol, d, r.limitIds);
      if !c.ok || !w.db.campaigns[r.symbol].mode.NEUTRAL_GRID? then
        Step(Stop(Mark(c.world, r.symbol, Degraded), NeutralOpenDegraded(r.symbol)), false)
      else Step(ActivateNeutral(c.world, r, d), true)
  }

  function InstallProtection(v: Venue, w: World, r: CampaignRecord, d: Direction, quantity: real): (s: Step)
    requires r.symbol in w.db.campaigns
    ensures Tidy(w, s.world)
  {
    var p := Protection(r, d);
    if p.None? then Step(w, false)
    else
      var stop := NeutralStopPhase(v, w, r, d, p.value.0, p.value.1);
      if !stop.ok then Step(ProtectionFailed(v, stop.world, r, d, quantity), false)
      else CompleteProtection(v, stop.world, r, d, p.value.1)
  }

  /** Turns the first exposure of an armed neutral campaign into a protected one-sided position. */
  function ActivatePosition(v: Venue, w: World, r: CampaignRecord): (s: Step)
    requires r.symbol in w.db.campaigns
    ensures Tidy(w, s.world)
  {
    if !Exposed(w.db.account.positions, r.symbol) then Step(w, true)
    else
      var position := w.db.account.positions[r.symbol];
      var d := StoredDirection(position);
      if r.activated then KeepActivated(v, w, r, d, position.quantity)
      else InstallProtection(v, w, r, d, position.quantity)
  }

  // ---- Neutral opening ----

  /** Cancels what was placed; an order without an id cannot be cancelled and is skipped. */
  function Rollback(v: Venue, w: World, symbol: string, orderIds: seq<string>): (s: Step)
    ensures OnlyPositions(w.db, s.world.db)
    ensures Quiet(v) ==> s.world.db == w.db
    ensures s.world.ex == w.ex.(resting := s.world.ex.resting)
    decreases orderIds
    ensures Tidy(w, s.world)
  {
    if orderIds == [] then Step(w, true)
    else if orderIds[0] == "" then Rollback(v, w, symbol, orderIds[1..])
    else
      var c := CancelOrder(v, w, symbol, orderIds[0]);
      if c.result.Broken? then Step(c.world, false)
      else Rollback(v, c.world, symbol, orderIds[1..])
  }

  function NeutralOpenFailed(v: Venue, w: World, plan: GridPlan, orderIds: seq<string>): (after: World)
    ensures Tidy(w, after)
  {
    if !Exposed(w.db.account.positions, plan.symbol) then
      var rolled := Rollback(v, w, plan.symbol, orderIds);
      if !rolled.ok then Mark(Stop(rolled.world, NeutralPartialOpenCleanupFailed(plan.symbol)), plan.symbol, Degraded)
      else Mark(rolled.world, plan.symbol, Failed)
    else
      var position := w.db.account.positions[plan.symbol];
      var c := PlaceReduceOnly(v, w, plan.symbol, StoredDirection(position), position.quantity,
                               EmergencyKey(plan.campaignId, NeutralOpenEmergencyClose));
      if !c.ok then Stop(Mark(c.world, plan.symbol, Degraded), NeutralUnprotectedPosition(plan.symbol))
      else Stop(Mark(c.world, plan.symbol, Failed), NeutralPartialFillDuringOpen(plan.symbol))
  }

  lemma PreparedRegisters(db: Db, plan: GridPlan)
    requires Prepare(db, plan).Some?
    ensures plan.symbol in Prepare(db, plan).value.campaigns
  {
  }

  function OpenNeutral(v: Venue, w: World, plan: GridPlan): Attempt {
    var prepared := Prepare(w.db, plan);
    if prepared.None? then Attempt(w, AlreadyActive)
    else
      var l := PlaceLadder(v, w.(db := prepared.value), plan, plan.entries, []);
      LadderKeepsDb(v, w.(db := prepared.value), plan, plan.entries, []);
      if !l.ok then Attempt(NeutralOpenFailed(v, l.world, plan, OrderIds(l.placed)), OpenFailed)
      else
        var w1 := Mark(l.world, plan.symbol, Active);
        var a := ActivatePosition(v, w1, w1.db.campaigns[plan.symbol]);
        if a.ok then Attempt(a.world, Opened("", OrderIds(l.placed)))
        else Attempt(NeutralOpenFailed(v, a.world, plan, OrderIds(l.placed)), OpenFailed)
  }

  lemma {:induction false} LadderKeepsDb(v: Venue, w: World, plan: GridPlan, levels: seq<GridEntryLevel>,
                                         placed: seq<Receipt>)
    ensures OnlyPositions(w.db, PlaceLadder(v, w, plan, levels, placed).world.db)
    decreases levels
  {
    hide PlaceLimit;
    if levels != [] {
      var level := levels[0];
      var p := PlaceLimit(v, w, plan.symbol, LevelDirection(plan, level), level.notionalUsdt, level.price,
                          LevelKey(plan.campaignId, level.index));
      if p.receipt.Some? {
        LadderKeepsDb(v, p.world, plan, levels[1..], placed + [p.receipt.value]);
      }
    }
  }

  function OpenCampaign(v: Venue, w: World, plan: GridPlan): Attempt {
    if plan.mode.NEUTRAL_GRID? then OpenNeutral(v, w, plan) else OpenDirectional(v, w, plan)
  }

  // ---- Cleanup ----

  datatype Sweep = Sweep(world: World, pending: bool, ok: bool)

  /** An owned limit order that still rests as far as the store knows. */
  predicate SweepableOrder(orders: OrderTable, id: ClientId) {
    id in orders && ActiveOrder(orders[id].status) && orders[id].exchangeOrderId != ""
  }

  predicate SweepableAlgo(algos: AlgoTable, id: ClientId) {
    id in algos && ActiveAlgo(algos[id].status)
  }

  function SweepOrders(v: Venue, w: World, symbol: string, ids: seq<ClientId>, pending: bool): (s: Sweep)
    ensures OnlyPositions(w.db, s.world.db)
    ensures Quiet(v) ==> s.world.db == w.db
    ensures s.world.ex == w.ex.(resting := s.world.ex.resting)
    decreases ids
    ensures Tidy(w, s.world)
  {
    if ids == [] then Sweep(w, pending, true)
    else if !SweepableOrder(w.db.account.orders, ids[0]) then SweepOrders(v, w, symbol, ids[1..], pending)
    else
      var c := CancelOrder(v, w, symbol, w.db.account.orders[ids[0]].exchangeOrderId);
      if c.result.Broken? then Sweep(c.world, pending, false)
      else SweepOrders(v, c.world, symbol, ids[1..], pending || c.result.Missing?)
  }

  function SweepAlgos(v: Venue, w: World, ids: seq<ClientId>, pending: bool): (s: Sweep)
    ensures OnlyPositions(w.db, s.world.db)
    ensures Quiet(v) ==> s.world.db == w.db
    ensures s.world.ex == w.ex.(algos := s.world.ex.algos)
    decreases ids
    ensures Tidy(w, s.world)
  {
    if ids == [] then Sweep(w, pending, true)
    else if !SweepableAlgo(w.db.account.algos, ids[0]) then SweepAlgos(v, w, ids[1..], pending)
    else
      var c := CancelAlgo(v, w, ids[0]);
      if c.result.Broken? then Sweep(c.world, pending, false)
      else SweepAlgos(v, c.world, ids[1..], pending || c.result.Missing?)
  }

  function SweepAll(v: Venue, w: World, r: CampaignRecord): (s: Sweep)
    ensures OnlyPositions(w.db, s.world.db)
    ensures Quiet(v) ==> s.world.db == w.db
    ensures s.world.ex == w.ex.(resting := s.world.ex.resting, algos := s.world.ex.algos)
    ensures Tidy(w, s.world)
  {
    var o := SweepOrders(v, w, r.symbol, r.limitIds, false);
    if !o.ok then o else SweepAlgos(v, o.world, [r.stopId, r.takeProfitId], o.pending)
  }

  datatype CleanResult = CleanedUp | NotYet | CleanupRaised

  datatype Cleaning = Cleaning(world: World, result: CleanResult)

  function FlatCleanup(v: Venue, w: World, r: CampaignRecord): (c: Cleaning)
    ensures Tidy(w, c.world)
  {
    var s := SweepAll(v, w, r);
    if !s.ok then Cleaning(Stop(Mark(s.world, r.symbol, Degraded), GridCleanupFailed(r.symbol)), CleanupRaised)
    else if Exposed(s.world.db.account.positions, r.symbol) then
      Cleaning(Stop(Mark(s.world, r.symbol, Degraded), GridCleanupRace(r.symbol)), CleanupRaised)
    else if s.pending then Cleaning(s.world, NotYet)
    else Cleaning(Mark(s.world, r.symbol, Closed), CleanedUp)
  }

  function CleanupIfFlat(v: Venue, w: World, symbol: string): (c: Cleaning)
    ensures Tidy(w, c.world)
  {
    if !HasActive(w.db, symbol) then Cleaning(w, NotYet)
    else
      var r := w.db.campaigns[symbol];
      if r.mode.NEUTRAL_GRID? && Exposed(w.db.account.positions, symbol) then
        var a := ActivatePosition(v, w, r);
        Cleaning(a.world, if a.ok then NotYet else CleanupRaised)
      else if r.mode.NEUTRAL_GRID? && !r.activated then Cleaning(w, NotYet)
      else if Exposed(w.db.account.positions, symbol) then Cleaning(w, NotYet)
      else FlatCleanup(v, w, r)
  }

  // ---- Recovery ----

  /** The position is only allowed to continue with its own STOP and TP active in the store. */
  function RequireProtection(w: World, symbol: string): (s: Step)
    requires symbol in w.db.campaigns
    ensures s.world.db.account == w.db.account && s.world.ex == w.ex
    ensures s.world.db.halted == (w.db.halted || !s.ok) && s.world.db.ready == (w.db.ready && s.ok)
    ensures Tidy(w, s.world)
  {
    var r := w.db.campaigns[symbol];
    if !SweepableAlgo(w.db.account.algos, r.stopId) then
      Step(Stop(Mark(w, symbol, Degraded), GridRecoveryMissingStop(symbol)), false)
    else if !SweepableAlgo(w.db.account.algos, r.takeProfitId) then
      Step(Stop(Mark(w, symbol, Degraded), GridRecoveryMissingTp(symbol)), false)
    else Step(Mark(w, symbol, Active), true)
  }

  function RecoverFlat(v: Venue, w: World, symbol: string): (s: Step)
    ensures Tidy(w, s.world)
  {
    var c := CleanupIfFlat(v, w, symbol);
    Step(c.world, !c.result.CleanupRaised?)
  }

  function RecoverExposedNeutral(v: Venue, w: World, symbol: string): (s: Step)
    requires symbol in w.db.campaigns && Exposed(w.db.account.positions, symbol)
    ensures Tidy(w, s.world)
  {
    var r := w.db.campaigns[symbol];
    if !r.activated then ActivatePosition(v, w, r)
    else if r.direction != StoredDirection(w.db.account.positions[symbol]) then
      Step(Stop(Mark(w, symbol, Degraded), NeutralDirectionFlip(symbol)), false)
    else CancelOpposite(v, w, symbol, r.direction, r.limitIds)
  }

  function RecoverOne(v: Venue, w: World, symbol: string): (s: Step)
    ensures Tidy(w, s.world)
  {
    if !HasActive(w.db, symbol) then Step(w, true)
    else
      var r := w.db.campaigns[symbol];
      var exposed := Exposed(w.db.account.positions, symbol);
      if r.mode.NEUTRAL_GRID? && !exposed then
        if r.activated then RecoverFlat(v, w, symbol) else Step(Mark(w, symbol, Active), true)
      else if r.mode.NEUTRAL_GRID? then
        var s := RecoverExposedNeutral(v, w, symbol);
        if !s.ok || symbol !in s.world.db.campaigns then s else RequireProtection(s.world, symbol)
      else if !exposed then RecoverFlat(v, w, symbol)
      else RequireProtection(w, symbol)
  }

  /** The registry's symbols in the order they are visited; stops at the first that fails. */
  function Recover(v: Venue, w: World, symbols: seq<string>): (s: Step)
    decreases symbols
    ensures Tidy(w, s.world)
  {
    if symbols == [] then Step(w, true)
    else
      var s := RecoverOne(v, w, symbols[0]);
      if !s.ok then s else Recover(v, s.world, symbols[1..])
  }

  ghost predicate Distinct(symbols: seq<string>) {
    forall i, j | 0 <= i < j < |symbols| :: symbols[i] != symbols[j]
  }

  /** Every registered symbol exactly once. */
  ghost predicate Enumerates(symbols: seq<string>, campaigns: CampaignTable) {
    Distinct(symbols) && forall s :: s in symbols <==> s in campaigns
  }
}
