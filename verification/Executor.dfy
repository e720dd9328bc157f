/** The adapter, the campaign registry and the executor as objects that change the store and the exchange
    step by step; each method is proved to do what its specification function says. */
module Executor {
  import opened Models
  import opened Store
  import opened Grid
  import opened Adapter
  import opened Campaign

  class BinanceRestExecutionAdapter {
    const venue: Venue
    const store: StateStore
    var ex: Exchange
    var tick: nat

    ghost function Now(): World
      reads this, store
    {
      World(store.View(), ex, tick)
    }

    constructor (venue: Venue, store: StateStore)
      ensures this.venue == venue && this.store == store
      ensures ex == Exchange({}, map[], {}, [], {}) && tick == 0
    {
      this.venue := venue;
      this.store := store;
      ex, tick := Exchange({}, map[], {}, [], {}), 0;
    }

    /** One awaited call: its answer is used up and reported positions are taken in. */
    method Suspend()
      modifies this`tick, store`positions
      ensures Now() == Await(venue, old(Now()))
    {
      var news := venue.news(tick);
      if news.Some? {
        store.positions := news.value;
      }
      tick := tick + 1;
    }

    method PlaceEntryReceipt(symbol: string, d: Direction, notional: real, leverage: int, key: IdKey, reference: real)
      returns (receipt: Option<Receipt>)
      modifies this`ex, this`tick, store`positions
      ensures Placement(Now(), receipt) == PlaceEntry(venue, old(Now()), symbol, d, notional, leverage, key, reference)
    {
      hide Await, QuantityFor;
      if d.PASS? || notional <= 0.0 || leverage < 1 { return None; }
      if !store.readyFlag || store.isHalted { return None; }
      if reference <= 0.0 || venue.rules(symbol).None? { return None; }
      var quantity := QuantityFor(venue.rules(symbol).value, notional, reference);
      if quantity.None? { return None; }
      var reply := venue.answer(tick);
      Suspend();
      if !reply.Accepted? { return None; }
      ex := ex.(market := ex.market + [MarketOrder(symbol, SgId(key), d, quantity.value, reference, false)],
                issued := ex.issued + {reply.id});
      receipt := Some(Receipt(SgId(key), reply.id, quantity.value, reference));
    }

    method PlaceLimitEntryReceipt(symbol: string, d: Direction, notional: real, price: real, key: IdKey)
      returns (receipt: Option<Receipt>)
      modifies this`ex, this`tick, store`positions
      ensures Placement(Now(), receipt) == PlaceLimit(venue, old(Now()), symbol, d, notional, price, key)
    {
      hide Await, QuantityFor, RoundDown;
      if d.PASS? || notional <= 0.0 || price <= 0.0 { return None; }
      if !store.readyFlag || store.isHalted { return None; }
      if venue.rules(symbol).None? || venue.rules(symbol).value.tick <= 0.0 { return None; }
      var rounded := RoundDown(price, venue.rules(symbol).value.tick);
      if rounded <= 0.0 { return None; }
      var quantity := QuantityFor(venue.rules(symbol).value, notional, rounded);
      if quantity.None? { return None; }
      var reply := venue.answer(tick);
      Suspend();
      if !reply.Accepted? { return None; }
      var r := Receipt(SgId(key), reply.id, quantity.value, rounded);
      ex := ex.(resting := ex.resting + {LimitOrder(symbol, d, r)}, issued := ex.issued + {reply.id});
      receipt := Some(r);
    }

    method ValidateProtectiveExit(symbol: string, d: Direction, trigger: real, kind: ExitKind) returns (ok: bool)
      modifies this`tick
      ensures Call(Now(), ok) == ValidateExit(venue, old(Now()), symbol, d, trigger, kind)
    {
      hide RoundDown, TriggerSafe;
      if d.PASS? || trigger <= 0.0 || venue.rules(symbol).None? || venue.rules(symbol).value.tick <= 0.0 {
        return false;
      }
      var reference := venue.price(tick);
      tick := tick + 1;
      ok := reference > 0.0 && TriggerSafe(kind, d, RoundDown(trigger, venue.rules(symbol).value.tick), reference,
                                           venue.guard);
    }

    method PlaceProtectiveExit(symbol: string, d: Direction, trigger: real, kind: ExitKind, key: IdKey)
      returns (ok: bool)
      modifies this`ex, this`tick, store`positions
      ensures Call(Now(), ok) == PlaceExit(venue, old(Now()), symbol, d, trigger, kind, key)
    {
      hide Await, ValidateExit;
      ok := ValidateProtectiveExit(symbol, d, trigger, kind);
      if ok {
        ok := venue.answer(tick).Accepted?;
        Suspend();
        if ok {
          ex := ex.(algos := ex.algos[SgId(key) := ExitFor(venue, symbol, d, kind, trigger)],
                    accepted := ex.accepted + {SgId(key)});
        }
      }
    }

    method PlaceReduceOnlyMarket(symbol: string, d: Direction, quantity: real, key: IdKey) returns (ok: bool)
      modifies this`ex, this`tick, store`positions
      ensures Call(Now(), ok) == PlaceReduceOnly(venue, old(Now()), symbol, d, quantity, key)
    {
      hide Await, RoundDown;
      if d.PASS? || venue.rules(symbol).None? || venue.rules(symbol).value.step <= 0.0 { return false; }
      var rounded := RoundDown(quantity, venue.rules(symbol).value.step);
      if rounded < venue.rules(symbol).value.minQty { return false; }
      ok := venue.answer(tick).Accepted?;
      Suspend();
      if ok {
        ex := ex.(market := ex.market + [MarketOrder(symbol, SgId(key), d, rounded, 0.0, true)]);
      }
    }

    method CancelRestingOrder(symbol: string, orderId: string) returns (result: CancelResult)
      modifies this`ex, this`tick, store`positions
      ensures Cancel(Now(), result) == CancelOrder(venue, old(Now()), symbol, orderId)
    {
      hide Await;
      var reply := venue.answer(tick);
      Suspend();
      if reply.Refused? { return Broken; }
      ex := ex.(resting := WithoutOrder(ex.resting, symbol, orderId));
      result := if reply.NotFound? then Missing else Canceled;
    }

    method CancelAlgoOrder(clientId: ClientId) returns (result: CancelResult)
      modifies this`ex, this`tick, store`positions
      ensures Cancel(Now(), result) == CancelAlgo(venue, old(Now()), clientId)
    {
      hide Await;
      if clientId.NoId? { return Broken; }
      var reply := venue.answer(tick);
      Suspend();
      if reply.Refused? { return Broken; }
      ex := ex.(algos := ex.algos - {clientId});
      result := if reply.NotFound? then Missing else Canceled;
    }
  }

  class GridCampaignRegistry {
    const store: StateStore

    constructor (store: StateStore)
      ensures this.store == store
    {
      this.store := store;
    }

    /** The active campaign of a symbol. */
    method ActiveRecord(symbol: string) returns (r: Option<CampaignRecord>)
      ensures r.Some? <==> HasActive(store.View(), symbol)
      ensures r.Some? ==> r.value == store.campaigns[symbol]
    {
      if symbol in store.campaigns && ActiveCampaign(store.campaigns[symbol].status) {
        return Some(store.campaigns[symbol]);
      }
      return None;
    }

    method PrepareCampaign(plan: GridPlan) returns (ok: bool)
      modifies store`campaigns
      ensures ok <==> Prepare(old(store.View()), plan).Some?
      ensures ok ==> store.View() == Prepare(old(store.View()), plan).value
      ensures !ok ==> store.View() == old(store.View())
    {
      hide RecordFor;
      var active := ActiveRecord(plan.symbol);
      if active.Some? { return false; }
      store.SaveCampaign(FreshRecord(plan));
      return true;
    }

    static function FreshRecord(plan: GridPlan): (r: CampaignRecord)
      ensures r == RecordFor(plan) && r.symbol == plan.symbol
    {
      RecordFor(plan)
    }

    method SetStatus(symbol: string, status: CampaignStatus)
      modifies store`campaigns
      ensures store.View() == WithStatus(old(store.View()), symbol, status)
    {
      if symbol in store.campaigns {
        store.SaveCampaign(store.campaigns[symbol].(status := status));
      }
    }

    method ActivateNeutralCampaign(symbol: string, d: Direction) returns (ok: bool)
      modifies store`campaigns
      ensures ok <==> symbol in old(store.campaigns) && old(store.campaigns)[symbol].mode.NEUTRAL_GRID?
      ensures store.campaigns ==
                if ok then old(store.campaigns)[symbol :=
                             old(store.campaigns)[symbol].(direction := d, activated := true, status := Active)]
                                 else old(store.campaigns)
    {
      if symbol !in store.campaigns || !store.campaigns[symbol].mode.NEUTRAL_GRID? { return false; }
      store.SaveCampaign(store.campaigns[symbol].(direction := d, activated := true, status := Active));
      return true;
    }
  }

  class GridCampaignExecutor {
    const adapter: BinanceRestExecutionAdapter
    const store: StateStore
    const registry: GridCampaignRegistry

    ghost predicate Valid() {
      adapter.store == store && registry.store == store
    }

    ghost function Now(): World
      reads adapter, adapter.store
    {
      adapter.Now()
    }

    constructor (adapter: BinanceRestExecutionAdapter)
      ensures Valid() && this.adapter == adapter
    {
      this.adapter := adapter;
      store := adapter.store;
      registry := new GridCampaignRegistry(adapter.store);
    }

    method Open(plan: GridPlan) returns (outcome: OpenOutcome)
      requires Valid()
      modifies adapter`ex, adapter`tick, store
      ensures Attempt(Now(), outcome) == OpenCampaign(adapter.venue, old(Now()), plan)
    {
      hide Campaign.OpenNeutral, Campaign.OpenDirectional;
      if plan.mode.NEUTRAL_GRID? {
        outcome := OpenTwoSided(plan);
      } else {
        outcome := OpenOneSided(plan);
      }
    }

    method OpenOneSided(plan: GridPlan) returns (outcome: OpenOutcome)
      requires Valid()
      modifies adapter`ex, adapter`tick, store
      ensures Attempt(Now(), outcome) == OpenDirectional(adapter.venue, old(Now()), plan)
    {
      hide PlaceExit, PlaceEntry, ValidateExit, PlaceLadder, UnprotectedStarter, Prepare, WithStatus, Halt, OrderIds;
      var prepared := registry.PrepareCampaign(plan);
      if !prepared { return AlreadyActive; }
      var starter: Option<Receipt> := None;
      if plan.entries != [] {
        var stopSafe := adapter.ValidateProtectiveExit(plan.symbol, plan.direction, plan.invalidation, STOP_MARKET);
        if stopSafe {
          var targetSafe := adapter.ValidateProtectiveExit(plan.symbol, plan.direction, plan.takeProfit,
                                                           TAKE_PROFIT_MARKET);
          if targetSafe {
            starter := adapter.PlaceEntryReceipt(plan.symbol, plan.direction, plan.entries[0].notionalUsdt,
                                                 plan.leverage, StarterKey(plan.campaignId), plan.referencePrice);
          }
        }
      }
      if starter.None? {
        registry.SetStatus(plan.symbol, Failed);
        return OpenFailed;
      }
      outcome := Protect(plan, starter.value);
    }

    /** From the filled starter on. */
    method Protect(plan: GridPlan, starter: Receipt) returns (outcome: OpenOutcome)
      requires Valid() && plan.entries != []
      modifies adapter`ex, adapter`tick, store
      ensures Attempt(Now(), outcome) == ProtectAndLadder(adapter.venue, old(Now()), plan, starter)
    {
      hide PlaceExit, PlaceReduceOnly, PlaceLadder, WithStatus, Halt, OrderIds;
      var stop := adapter.PlaceProtectiveExit(plan.symbol, plan.direction, plan.invalidation, STOP_MARKET,
                                              StopKey(plan.campaignId));
      if !stop {
        var closed := adapter.PlaceReduceOnlyMarket(plan.symbol, plan.direction, starter.quantity,
                                                    EmergencyKey(plan.campaignId, EmergencyClose));
        if closed {
          registry.SetStatus(plan.symbol, Failed);
          store.HaltFor(GridStopPlacementFailed(plan.symbol));
        } else {
          store.HaltFor(GridUnprotectedPosition(plan.symbol));
          registry.SetStatus(plan.symbol, Degraded);
        }
        return OpenFailed;
      }
      var target := adapter.PlaceProtectiveExit(plan.symbol, plan.direction, plan.takeProfit, TAKE_PROFIT_MARKET,
                                                TakeProfitKey(plan.campaignId));
      var placed: seq<Receipt> := [];
      var complete := target;
      if target {
        placed, complete := PlaceLevels(plan, plan.entries[1..]);
      }
      if !complete {
        registry.SetStatus(plan.symbol, Degraded);
        store.HaltFor(GridOpenDegraded(plan.symbol));
        return OpenFailed;
      }
      registry.SetStatus(plan.symbol, Active);
      outcome := Opened(starter.orderId, OrderIds(placed));
    }

    /** The placement loop both openings share. */
    method PlaceLevels(plan: GridPlan, levels: seq<GridEntryLevel>) returns (placed: seq<Receipt>, complete: bool)
      requires Valid()
      modifies adapter`ex, adapter`tick, store`positions
      ensures Ladder(Now(), placed, complete) == PlaceLadder(adapter.venue, old(Now()), plan, levels, [])
    {
      hide PlaceLimit;
      placed := [];
      var i := 0;
      while i < |levels|
        invariant 0 <= i <= |levels|
        invariant PlaceLadder(adapter.venue, Now(), plan, levels[i..], placed)
                  == PlaceLadder(adapter.venue, old(Now()), plan, levels, [])
      {
        var level := levels[i];
        assert levels[i..][1..] == levels[i + 1..];
        if plan.mode.NEUTRAL_GRID? && (!level.kind.LIMIT? || level.direction.PASS?) {
          return placed, false;
        }
        var receipt := adapter.PlaceLimitEntryReceipt(plan.symbol, LevelDirection(plan, level), level.notionalUsdt,
                                                      level.price, LevelKey(plan.campaignId, level.index));
        if receipt.None? {
          return placed, false;
        }
        placed := placed + [receipt.value];
        i := i + 1;
      }
      complete := true;
    }

    method OpenTwoSided(plan: GridPlan) returns (outcome: OpenOutcome)
      requires Valid()
      modifies adapter`ex, adapter`tick, store
      ensures Attempt(Now(), outcome) == OpenNeutral(adapter.venue, old(Now()), plan)
    {
      hide PlaceLadder, ActivatePosition, NeutralOpenFailed, Prepare, OrderIds;
      var prepared := registry.PrepareCampaign(plan);
      if !prepared { return AlreadyActive; }
      assert plan.symbol in store.campaigns by { PreparedRegisters(old(store.View()), plan); }
      var placed, complete := PlaceLevels(plan, plan.entries);
      if complete {
        registry.SetStatus(plan.symbol, Active);
        complete := ActivateExposure(store.campaigns[plan.symbol]);
      }
      if complete {
        return Opened("", OrderIds(placed));
      }
      UndoNeutral(plan, OrderIds(placed));
      outcome := OpenFailed;
    }

    /** The handler of a failed neutral opening. */
    method UndoNeutral(plan: GridPlan, orderIds: seq<string>)
      requires Valid()
      modifies adapter`ex, adapter`tick, store
      ensures Now() == NeutralOpenFailed(adapter.venue, old(Now()), plan, orderIds)
    {
      hide PlaceReduceOnly, Rollback, WithStatus, Halt, StoredDirection;
      if plan.symbol !in store.positions || store.positions[plan.symbol].quantity == 0.0 {
        var undone := CancelPlaced(plan.symbol, orderIds);
        if !undone {
          store.HaltFor(NeutralPartialOpenCleanupFailed(plan.symbol));
          registry.SetStatus(plan.symbol, Degraded);
        } else {
          registry.SetStatus(plan.symbol, Failed);
        }
        return;
      }
      var position := store.positions[plan.symbol];
      var closed := adapter.PlaceReduceOnlyMarket(plan.symbol, StoredDirection(position), position.quantity,
                                                  EmergencyKey(plan.campaignId, NeutralOpenEmergencyClose));
      registry.SetStatus(plan.symbol, if closed then Failed else Degraded);
      store.HaltFor(if closed then NeutralPartialFillDuringOpen(plan.symbol)
                    else NeutralUnprotectedPosition(plan.symbol));
    }

    method CancelPlaced(symbol: string, orderIds: seq<string>) returns (ok: bool)
      requires Valid()
      modifies adapter`ex, adapter`tick, store`positions
      ensures Campaign.Step(Now(), ok) == Rollback(adapter.venue, old(Now()), symbol, orderIds)
    {
      hide CancelOrder;
      for i := 0 to |orderIds|
        invariant Rollback(adapter.venue, Now(), symbol, orderIds[i..])
                  == Rollback(adapter.venue, old(Now()), symbol, orderIds)
      {
        assert orderIds[i..][1..] == orderIds[i + 1..];
        if orderIds[i] != "" {
          var result := adapter.CancelRestingOrder(symbol, orderIds[i]);
          if result.Broken? { return false; }
        }
      }
      ok := true;
    }

    method CancelOppositeEntries(record: CampaignRecord, d: Direction) returns (ok: bool)
      requires Valid()
      modifies adapter`ex, adapter`tick, store`positions
      ensures Campaign.Step(Now(), ok) == CancelOpposite(adapter.venue, old(Now()), record.symbol, d, record.limitIds)
    {
      hide CancelOrder;
      var ids := record.limitIds;
      for i := 0 to |ids|
        invariant CancelOpposite(adapter.venue, Now(), record.symbol, d, ids[i..])
                  == CancelOpposite(adapter.venue, old(Now()), record.symbol, d, ids)
      {
        assert ids[i..][1..] == ids[i + 1..];
        var order := GetOrder(store.orders, ids[i]);
        if order.None? || !ActiveOrder(order.value.status) { continue; }
        if order.value.side == EntrySide(d) || order.value.exchangeOrderId == "" { continue; }
        var result := adapter.CancelRestingOrder(record.symbol, order.value.exchangeOrderId);
        if result.Broken? { return false; }
      }
      ok := true;
    }

    /** Activates a neutral campaign whose symbol the store shows as exposed. */
    method ActivateExposure(record: CampaignRecord) returns (ok: bool)
      requires Valid() && record.symbol in store.campaigns
      modifies adapter`ex, adapter`tick, store
      ensures Campaign.Step(Now(), ok) == ActivatePosition(adapter.venue, old(Now()), record)
    {
      hide PlaceReduceOnly, CancelOpposite, InstallProtection, WithStatus, Halt, StoredDirection;
      if record.symbol !in store.positions || store.positions[record.symbol].quantity == 0.0 { return true; }
      var position := store.positions[record.symbol];
      var d := StoredDirection(position);
      if !record.activated {
        ok := InstallExits(record, d, position.quantity);
      } else if record.direction != d {
        var _ := adapter.PlaceReduceOnlyMarket(record.symbol, d, position.quantity,
                                               EmergencyKey(record.campaignId, DirectionFlipClose));
        registry.SetStatus(record.symbol, Degraded);
        store.HaltFor(NeutralDirectionFlip(record.symbol));
        ok := false;
      } else {
        ok := CancelOppositeEntries(record, d);
      }
    }

    method InstallExits(record: CampaignRecord, d: Direction, quantity: real) returns (ok: bool)
      requires Valid() && record.symbol in store.campaigns
      modifies adapter`ex, adapter`tick, store
      ensures Campaign.Step(Now(), ok) == InstallProtection(adapter.venue, old(Now()), record, d, quantity)
    {
      hide PlaceReduceOnly, NeutralStopPhase, CompleteProtection, Protection, WithStatus, Halt;
      var prices := Protection(record, d);
      if prices.None? { return false; }
      var stopPlaced := PlaceCheckedStop(record, d, prices.value.0, prices.value.1);
      if !stopPlaced {
        var closed := adapter.PlaceReduceOnlyMarket(record.symbol, d, quantity,
                                                    EmergencyKey(record.campaignId, NeutralProtectionEmergencyClose));
        registry.SetStatus(record.symbol, if closed then Failed else Degraded);
        store.HaltFor(if closed then NeutralProtectionFailed(record.symbol)
                      else NeutralUnprotectedPosition(record.symbol));
        return false;
      }
      ok := CompleteExits(record, d, prices.value.1);
    }

    /** The target, the other side's entries, the activation; any failure halts behind the stop. */
    method CompleteExits(record: CampaignRecord, d: Direction, target: real) returns (ok: bool)
      requires Valid() && record.symbol in store.campaigns
      modifies adapter`ex, adapter`tick, store
      ensures Campaign.Step(Now(), ok) == CompleteProtection(adapter.venue, old(Now()), record, d, target)
    {
      hide PlaceExit, CancelOpposite, WithStatus, Halt;
      ok := adapter.PlaceProtectiveExit(record.symbol, d, target, TAKE_PROFIT_MARKET, TakeProfitKey(record.campaignId));
      if ok {
        ok := CancelOppositeEntries(record, d);
      }
      if ok {
        ok := registry.ActivateNeutralCampaign(record.symbol, d);
      }
      if !ok {
        registry.SetStatus(record.symbol, Degraded);
        store.HaltFor(NeutralOpenDegraded(record.symbol));
      }
    }

    /** Both triggers are checked before the stop is submitted. */
    method PlaceCheckedStop(record: CampaignRecord, d: Direction, stop: real, target: real) returns (placed: bool)
      requires Valid()
      modifies adapter`ex, adapter`tick, store`positions
      ensures Call(Now(), placed) == NeutralStopPhase(adapter.venue, old(Now()), record, d, stop, target)
    {
      hide PlaceExit, ValidateExit;
      placed := adapter.ValidateProtectiveExit(record.symbol, d, stop, STOP_MARKET);
      if placed {
        placed := adapter.ValidateProtectiveExit(record.symbol, d, target, TAKE_PROFIT_MARKET);
      }
      if placed {
        placed := adapter.PlaceProtectiveExit(record.symbol, d, stop, STOP_MARKET, StopKey(record.campaignId));
      }
    }

    method CleanUpIfFlat(symbol: string) returns (result: CleanResult)
      requires Valid()
      modifies adapter`ex, adapter`tick, store
      ensures Cleaning(Now(), result) == CleanupIfFlat(adapter.venue, old(Now()), symbol)
    {
      hide ActivatePosition, FlatCleanup, ActiveCampaign;
      var active := registry.ActiveRecord(symbol);
      if active.None? { return NotYet; }
      var record := active.value;
      var exposed := symbol in store.positions && store.positions[symbol].quantity != 0.0;
      if record.mode.NEUTRAL_GRID? {
        if exposed {
          var activated := ActivateExposure(record);
          return if activated then NotYet else CleanupRaised;
        }
        if !record.activated { return NotYet; }
      }
      if exposed { return NotYet; }
      result := SweepFlat(record);
    }

    /** Cancels what a flat campaign still has on the exchange, then closes it. */
    method SweepFlat(record: CampaignRecord) returns (result: CleanResult)
      requires Valid()
      modifies adapter`ex, adapter`tick, store
      ensures Cleaning(Now(), result) == FlatCleanup(adapter.venue, old(Now()), record)
    {
      hide SweepOrders, SweepAlgos, WithStatus, Halt;
      var ok, pending := SweepLimits(record);
      if ok {
        ok, pending := SweepExits([record.stopId, record.takeProfitId], pending);
      }
      if !ok {
        registry.SetStatus(record.symbol, Degraded);
        store.HaltFor(GridCleanupFailed(record.symbol));
        return CleanupRaised;
      }
      if record.symbol in store.positions && store.positions[record.symbol].quantity != 0.0 {
        registry.SetStatus(record.symbol, Degraded);
        store.HaltFor(GridCleanupRace(record.symbol));
        return CleanupRaised;
      }
      if pending { return NotYet; }
      registry.SetStatus(record.symbol, Closed);
      result := CleanedUp;
    }

    method SweepLimits(record: CampaignRecord) returns (ok: bool, pending: bool)
      requires Valid()
      modifies adapter`ex, adapter`tick, store`positions
      ensures Sweep(Now(), pending, ok) == SweepOrders(adapter.venue, old(Now()), record.symbol, record.limitIds, false)
    {
      hide CancelOrder;
      var ids := record.limitIds;
      pending := false;
      for i := 0 to |ids|
        invariant SweepOrders(adapter.venue, Now(), record.symbol, ids[i..], pending)
               == SweepOrders(adapter.venue, old(Now()), record.symbol, ids, false)
      {
        assert ids[i..][1..] == ids[i + 1..];
        var order := GetOrder(store.orders, ids[i]);
        if order.Some? && ActiveOrder(order.value.status) && order.value.exchangeOrderId != "" {
          var result := adapter.CancelRestingOrder(record.symbol, order.value.exchangeOrderId);
          if result.Broken? { return false, pending; }
          pending := pending || result.Missing?;
        }
      }
      ok := true;
    }

    method SweepExits(ids: seq<ClientId>, already: bool) returns (ok: bool, pending: bool)
      requires Valid()
      modifies adapter`ex, adapter`tick, store`positions
      ensures Sweep(Now(), pending, ok) == SweepAlgos(adapter.venue, old(Now()), ids, already)
    {
      hide CancelAlgo;
      pending := already;
      for i := 0 to |ids|
        invariant SweepAlgos(adapter.venue, Now(), ids[i..], pending)
                  == SweepAlgos(adapter.venue, old(Now()), ids, already)
      {
        assert ids[i..][1..] == ids[i + 1..];
        var algo := GetAlgo(store.algos, ids[i]);
        if algo.Some? && ActiveAlgo(algo.value.status) {
          var result := adapter.CancelAlgoOrder(ids[i]);
          if result.Broken? { return false, pending; }
          pending := pending || result.Missing?;
        }
      }
      ok := true;
    }

    /** Visits the registered campaigns one by one; false when it raises. */
    method RecoverAfterReconciliation(symbols: seq<string>) returns (ok: bool)
      requires Valid()
      modifies adapter`ex, adapter`tick, store
      ensures Campaign.Step(Now(), ok) == Recover(adapter.venue, old(Now()), symbols)
    {
      hide RecoverOne;
      for i := 0 to |symbols|
        invariant Recover(adapter.venue, Now(), symbols[i..]) == Recover(adapter.venue, old(Now()), symbols)
      {
        assert symbols[i..][1..] == symbols[i + 1..];
        var recovered := RecoverSymbol(symbols[i]);
        if !recovered { return false; }
      }
      ok := true;
    }

    method RecoverSymbol(symbol: string) returns (ok: bool)
      requires Valid()
      modifies adapter`ex, adapter`tick, store
      ensures Campaign.Step(Now(), ok) == RecoverOne(adapter.venue, old(Now()), symbol)
    {
      hide CleanupIfFlat, RecoverExposedNeutral, RequireProtection, WithStatus, ActiveCampaign;
      var active := registry.ActiveRecord(symbol);
      if active.None? { return true; }
      var record := active.value;
      if symbol !in store.positions || store.positions[symbol].quantity == 0.0 {
        if record.mode.NEUTRAL_GRID? && !record.activated {
          registry.SetStatus(symbol, Active);
          return true;
        }
        var result := CleanUpIfFlat(symbol);
        return !result.CleanupRaised?;
      }
      if record.mode.NEUTRAL_GRID? {
        ok := RecoverNeutral(symbol);
        if !ok || symbol !in store.campaigns { return ok; }
      }
      ok := CheckProtection(symbol);
    }

    method RecoverNeutral(symbol: string) returns (ok: bool)
      requires Valid() && symbol in store.campaigns && Exposed(store.positions, symbol)
      modifies adapter`ex, adapter`tick, store
      ensures Campaign.Step(Now(), ok) == RecoverExposedNeutral(adapter.venue, old(Now()), symbol)
    {
      hide ActivatePosition, CancelOpposite, WithStatus, Halt, StoredDirection;
      var record := store.campaigns[symbol];
      var d := StoredDirection(store.positions[symbol]);
      if !record.activated {
        ok := ActivateExposure(record);
      } else if record.direction != d {
        registry.SetStatus(symbol, Degraded);
        store.HaltFor(NeutralDirectionFlip(symbol));
        ok := false;
      } else {
        ok := CancelOppositeEntries(record, d);
      }
    }

    method CheckProtection(symbol: string) returns (ok: bool)
      requires Valid() && symbol in store.campaigns
      modifies store
      ensures Campaign.Step(Now(), ok) == RequireProtection(old(Now()), symbol)
    {
      hide WithStatus, Halt;
      var record := store.campaigns[symbol];
      var stop, target := GetAlgo(store.algos, record.stopId), GetAlgo(store.algos, record.takeProfitId);
      if stop.None? || !ActiveAlgo(stop.value.status) {
        registry.SetStatus(symbol, Degraded);
        store.HaltFor(GridRecoveryMissingStop(symbol));
        return false;
      }
      if target.None? || !ActiveAlgo(target.value.status) {
        registry.SetStatus(symbol, Degraded);
        store.HaltFor(GridRecoveryMissingTp(symbol));
        return false;
      }
      registry.SetStatus(symbol, Active);
      ok := true;
    }
  }
}
