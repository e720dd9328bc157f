/** What is sent to the exchange, and when, in the numbers of the call, the symbol's rules and the market. */
module ExchangeNumbers {
  import opened Models
  import opened Store
  import opened Grid
  import opened Adapter
  import opened Campaign
  import opened CampaignCleanup
  import opened CampaignOpening
  import opened NeutralOpening
  import Recovery = CampaignRecovery

  // ---- Triggers ----

  /** Below the price by more than the guard for a long's stop and a short's target, above it by more for the others. */
  predicate Beyond(kind: ExitKind, d: Direction, trigger: real, price: real, guard: real) {
    if kind.STOP_MARKET? <==> d.LONG? then trigger < price - price * guard else trigger > price + price * guard
  }

  lemma TriggerMeans(kind: ExitKind, d: Direction, trigger: real, price: real, guard: real)
    ensures TriggerSafe(kind, d, trigger, price, guard) <==> Beyond(kind, d, trigger, price, guard)
  {
    assert price * (1.0 - guard) == price - price * guard;
    assert price * (1.0 + guard) == price + price * guard;
  }

  /** The trigger of an exit is the tick at or below the price asked for. */
  ghost predicate TickAtOrBelow(t: real, price: real, tick: real) {
    IsMultiple(t, tick) && 0.0 <= t <= price < t + tick
  }

  /** The exit asked for passes at moment `i`: it has a side, a price and a tick, and its trigger lies beyond the market
      price of that moment. */
  ghost predicate PassesAt(v: Venue, symbol: string, d: Direction, kind: ExitKind, price: real, i: nat) {
    && !d.PASS? && price > 0.0 && v.rules(symbol).Some? && v.rules(symbol).value.tick > 0.0 && v.price(i) > 0.0
    && exists t :: TickAtOrBelow(t, price, v.rules(symbol).value.tick) && Beyond(kind, d, t, v.price(i), v.guard)
  }

  lemma OneTick(t: real, u: real, price: real, tick: real)
    requires tick > 0.0 && TickAtOrBelow(t, price, tick) && TickAtOrBelow(u, price, tick)
    ensures t == u
  {
    var j :| MultipleBy(t, tick, j);
    var k :| MultipleBy(u, tick, k);
    TicksApart(j, k, tick);
    TicksApart(k, j, tick);
  }

  lemma TicksApart(j: int, k: int, tick: real)
    requires tick > 0.0
    ensures j < k ==> Mul(j as real, tick) + tick <= Mul(k as real, tick)
  {
    if j < k {
      MulGrows((j + 1) as real, k as real, tick);
      assert Mul((j + 1) as real, tick) == Mul(j as real, tick) + tick;
    }
  }

  lemma PassesMeans(v: Venue, symbol: string, d: Direction, kind: ExitKind, price: real, i: nat)
    requires !d.PASS?
    ensures Recovery.Passes(v, symbol, d, kind, price, i) <==> PassesAt(v, symbol, d, kind, price, i)
  {
    if price > 0.0 && v.rules(symbol).Some? && v.rules(symbol).value.tick > 0.0 {
      var tick := v.rules(symbol).value.tick;
      var t := RoundDown(price, tick);
      RoundDownBound(price, tick);
      TriggerMeans(kind, d, t, v.price(i), v.guard);
      assert TickAtOrBelow(t, price, tick);
      hide RoundDown, TriggerSafe, Beyond, TickAtOrBelow, IsMultiple;
      forall u | TickAtOrBelow(u, price, tick) ensures u == t {
        OneTick(t, u, price, tick);
      }
    }
  }

  /** An exit is accepted exactly when it passes at the moment it is submitted and the exchange takes it; it then stands
      under its id with its side, its kind and its trigger. */
  lemma ExitAcceptedIff(v: Venue, w: World, symbol: string, d: Direction, price: real, kind: ExitKind, key: IdKey)
    ensures
      var c := PlaceExit(v, w, symbol, d, price, kind, key);
      && (c.ok <==> PassesAt(v, symbol, d, kind, price, w.tick) && v.answer(w.tick + 1).Accepted?)
      && (c.ok ==>
            && SgId(key) in c.world.ex.algos
            && var e := c.world.ex.algos[SgId(key)];
            && e.symbol == symbol && e.direction == d && e.kind == kind
            && TickAtOrBelow(e.trigger, price, v.rules(symbol).value.tick)
            && Beyond(kind, d, e.trigger, v.price(w.tick), v.guard))
  {
    if !d.PASS? {
      PassesMeans(v, symbol, d, kind, price, w.tick);
      Recovery.PlaceExitIff(v, w, symbol, d, price, kind, key);
      if PlaceExit(v, w, symbol, d, price, kind, key).ok {
        RoundDownBound(price, v.rules(symbol).value.tick);
        TriggerMeans(kind, d, RoundDown(price, v.rules(symbol).value.tick), v.price(w.tick), v.guard);
      }
    }
    hide RoundDown, TriggerSafe, Beyond, IsMultiple, PassesAt;
  }

  // ---- Sizes ----

  /** The size for a notional is the most whole steps it pays for at the price, and there is one exactly when the step
      is positive, the size is at least the minimum, and its worth at least the minimum worth, if one is set. */
  lemma SizedIff(r: SymbolRules, notional: real, price: real) returns (steps: int)
    requires price > 0.0 && notional >= 0.0
    ensures r.step <= 0.0 ==> QuantityFor(r, notional, price).None?
    ensures r.step > 0.0 ==>
              var size := steps as real * r.step;
              && steps >= 0 && size * price <= notional < (size + r.step) * price
              && (QuantityFor(r, notional, price).Some? <==>
                  size >= r.minQty && (r.minNotional == 0.0 || size * price >= r.minNotional))
              && (QuantityFor(r, notional, price).Some? ==> QuantityFor(r, notional, price).value == size)
  {
    hide QuantityFor, RoundDown, IsMultiple, Truncate;
    steps := 0;
    RuledSize(r, notional, price);
    if r.step > 0.0 {
      var value := notional / price;
      Paid(notional, price);
      RoundDownBound(value, r.step);
      steps := Truncate(value / r.step);
      WholeSteps(value, r.step);
      Worths(RoundDown(value, r.step), value, r.step, price);
    }
  }

  lemma RuledSize(r: SymbolRules, notional: real, price: real)
    requires price > 0.0
    ensures r.step <= 0.0 ==> QuantityFor(r, notional, price).None?
    ensures r.step > 0.0 ==>
              var size := RoundDown(notional / price, r.step);
              QuantityFor(r, notional, price)
              == if size >= r.minQty && (r.minNotional == 0.0 || size * price >= r.minNotional) then Some(size)
                 else None
  {
    hide RoundDown;
  }

  lemma Paid(notional: real, price: real)
    requires price > 0.0 && notional >= 0.0
    ensures notional / price * price == notional && notional / price >= 0.0
  {
  }

  lemma WholeSteps(value: real, step: real)
    requires value >= 0.0 && step > 0.0
    ensures RoundDown(value, step) == Truncate(value / step) as real * step && Truncate(value / step) >= 0
  {
    StepsNotNegative(value, step);
    hide Truncate;
  }

  lemma StepsNotNegative(value: real, step: real)
    requires value >= 0.0 && step > 0.0
    ensures Truncate(value / step) >= 0
  {
    assert value / step >= 0.0;
  }

  lemma Worths(size: real, value: real, step: real, price: real)
    requires size <= value < size + step && price > 0.0
    ensures size * price <= value * price < (size + step) * price
  {
    MulGrows(size, value, price);
    MulStrictlyGrows(value, size + step, price);
  }

  // ---- Orders ----

  /** A market entry is sent exactly with a side, a size that passes the rules, a leverage, an open gate and a taker; it
      is then the one new market order. */
  lemma EntrySentIff(v: Venue, w: World, symbol: string, d: Direction, notional: real, leverage: int, key: IdKey,
                     reference: real)
    ensures
      var p := PlaceEntry(v, w, symbol, d, notional, leverage, key, reference);
      && (p.receipt.Some? <==>
            && (d.LONG? || d.SHORT?) && notional > 0.0 && leverage >= 1 && w.db.ready && !w.db.halted
            && reference > 0.0 && v.rules(symbol).Some?
            && QuantityFor(v.rules(symbol).value, notional, reference).Some? && v.answer(w.tick).Accepted?)
      && (p.receipt.Some? ==>
            var size := QuantityFor(v.rules(symbol).value, notional, reference).value;
            && p.receipt.value.quantity == size && p.receipt.value.orderId == v.answer(w.tick).id
            && p.world.ex == w.ex.(market := w.ex.market + [MarketOrder(symbol, SgId(key), d, size, reference, false)],
                                   issued := w.ex.issued + {v.answer(w.tick).id}))
      && (p.receipt.None? ==> p.world.ex == w.ex)
  {
    hide QuantityFor;
  }

  /** A limit entry is sent exactly with a side, a price of at least a tick, a size that passes the rules at the tick at
      or below it, an open gate and a taker; it then rests at that tick. */
  lemma LimitSentIff(v: Venue, w: World, symbol: string, d: Direction, notional: real, price: real, key: IdKey, t: real)
    requires
      price > 0.0 && v.rules(symbol).Some? && v.rules(symbol).value.tick > 0.0 ==>
        TickAtOrBelow(t, price, v.rules(symbol).value.tick)
    ensures
      var p := PlaceLimit(v, w, symbol, d, notional, price, key);
      && (p.receipt.Some? <==>
            && (d.LONG? || d.SHORT?) && notional > 0.0 && price > 0.0 && w.db.ready && !w.db.halted
            && v.rules(symbol).Some? && v.rules(symbol).value.tick > 0.0 && t > 0.0
            && QuantityFor(v.rules(symbol).value, notional, t).Some? && v.answer(w.tick).Accepted?)
      && (p.receipt.Some? ==>
            var size, id := QuantityFor(v.rules(symbol).value, notional, t).value, v.answer(w.tick).id;
            p.world.ex == w.ex.(resting := w.ex.resting + {RestingOrder(symbol, SgId(key), id, d, size, t)},
                                issued := w.ex.issued + {id}))
      && (p.receipt.None? ==> p.world.ex == w.ex)
  {
    if price > 0.0 && v.rules(symbol).Some? && v.rules(symbol).value.tick > 0.0 {
      var tick := v.rules(symbol).value.tick;
      RoundDownBound(price, tick);
      assert TickAtOrBelow(RoundDown(price, tick), price, tick);
      OneTick(t, RoundDown(price, tick), price, tick);
    }
    hide QuantityFor, RoundDown, TickAtOrBelow;
  }

  /** A reduce-only order is sent exactly with a side, a positive step, a size of at least the minimum after rounding
      down to the step `t`, and a taker; the gate has no say. */
  lemma ReduceOnlySentIff(v: Venue, w: World, symbol: string, d: Direction, quantity: real, key: IdKey, t: real)
    requires
      v.rules(symbol).Some? && v.rules(symbol).value.step > 0.0 ==>
        TickAtOrBelow(t, quantity, v.rules(symbol).value.step)
    ensures
      var c := PlaceReduceOnly(v, w, symbol, d, quantity, key);
      && (c.ok <==>
            && (d.LONG? || d.SHORT?) && v.rules(symbol).Some? && v.rules(symbol).value.step > 0.0
            && t >= v.rules(symbol).value.minQty && v.answer(w.tick).Accepted?)
      && c.world.ex == if c.ok then w.ex.(market := w.ex.market + [MarketOrder(symbol, SgId(key), d, t, 0.0, true)])
                       else w.ex
  {
    if v.rules(symbol).Some? && v.rules(symbol).value.step > 0.0 {
      var step := v.rules(symbol).value.step;
      RoundDownBound(quantity, step);
      assert TickAtOrBelow(RoundDown(quantity, step), quantity, step);
      OneTick(t, RoundDown(quantity, step), quantity, step);
    }
    hide RoundDown, TickAtOrBelow;
  }

  // ---- Openings ----

  /** The record an opening registers: the plan's numbers, the ids of its starter, levels and exits, and no side yet
      when the plan is two-sided. */
  lemma RegisteredRecord(plan: GridPlan)
    ensures
      var r, neutral := RecordFor(plan), plan.mode.NEUTRAL_GRID?;
      && r.campaignId == plan.campaignId && r.symbol == plan.symbol && r.status == CampaignStatus.Opening
      && r.direction == (if neutral then PASS else plan.direction) && r.mode == plan.mode && r.activated == !neutral
      && r.referencePrice == plan.referencePrice && r.totalNotional == plan.totalNotional
      && r.leverage == plan.leverage && r.spacingBps == plan.spacingBps
      && r.invalidation == plan.invalidation && r.takeProfit == plan.takeProfit
      && r.starterId == (if neutral then NoId else SgId(StarterKey(plan.campaignId)))
      && r.stopId == SgId(StopKey(plan.campaignId)) && r.takeProfitId == SgId(TakeProfitKey(plan.campaignId))
      && (forall id :: id in r.limitIds <==>
            exists i :: 0 <= i < |plan.entries| && plan.entries[i].kind.LIMIT?
              && id == SgId(LevelKey(plan.campaignId, plan.entries[i].index)))
      && r.expiresAtMs == plan.expiresAtMs
      && r.neutralLongInvalidation == plan.neutralLongInvalidation
      && r.neutralLongTakeProfit == plan.neutralLongTakeProfit
      && r.neutralShortInvalidation == plan.neutralShortInvalidation
      && r.neutralShortTakeProfit == plan.neutralShortTakeProfit
  {
    LimitIdsListed(plan.campaignId, plan.entries);
    hide LimitIds;
  }

  /** A starter is bought exactly when the stop and then the target pass at the prices of their moments, and its entry
      is taken after that: no exposure is taken that could not be protected then. */
  lemma StarterBoughtIff(v: Venue, w: World, plan: GridPlan)
    ensures
      StarterPhase(v, w, plan).receipt.Some? <==>
        && plan.entries != [] && plan.leverage >= 1 && plan.entries[0].notionalUsdt > 0.0
        && PassesAt(v, plan.symbol, plan.direction, STOP_MARKET, plan.invalidation, w.tick)
        && PassesAt(v, plan.symbol, plan.direction, TAKE_PROFIT_MARKET, plan.takeProfit, w.tick + 1)
        && w.db.ready && !w.db.halted && plan.referencePrice > 0.0
        && QuantityFor(v.rules(plan.symbol).value, plan.entries[0].notionalUsdt, plan.referencePrice).Some?
        && v.answer(w.tick + 2).Accepted?
  {
    hide ValidateExit, PlaceEntry, PassesAt, QuantityFor;
    var d := plan.direction;
    if plan.entries != [] {
      ValidMeans(v, w, plan.symbol, d, plan.invalidation, STOP_MARKET);
      var c1 := ValidateExit(v, w, plan.symbol, d, plan.invalidation, STOP_MARKET);
      if c1.ok {
        ValidMeans(v, c1.world, plan.symbol, d, plan.takeProfit, TAKE_PROFIT_MARKET);
        var c2 := ValidateExit(v, c1.world, plan.symbol, d, plan.takeProfit, TAKE_PROFIT_MARKET);
        if c2.ok {
          EntrySentIff(v, c2.world, plan.symbol, d, plan.entries[0].notionalUsdt, plan.leverage,
                       StarterKey(plan.campaignId), plan.referencePrice);
        }
      }
    }
  }

  lemma ValidMeans(v: Venue, w: World, symbol: string, d: Direction, price: real, kind: ExitKind)
    ensures
      var c := ValidateExit(v, w, symbol, d, price, kind);
      && (c.ok <==> PassesAt(v, symbol, d, kind, price, w.tick))
      && (c.ok ==> !d.PASS? && v.rules(symbol).Some? && c.world.tick == w.tick + 1 && c.world.db == w.db)
  {
    if !d.PASS? {
      PassesMeans(v, symbol, d, kind, price, w.tick);
      Recovery.ValidateExitIff(v, w, symbol, d, price, kind);
    }
    hide TriggerSafe, RoundDown;
  }

  // ---- Activation ----

  /** The stored position of a two-sided campaign that is not activated yet gets its side's exits: when activation
      succeeds the record is active on the position's side, and the exchange holds a stop and a target of that side at
      the record's prices for it, both of which passed when they were submitted. */
  lemma ActivationInNumbers(v: Venue, w: World, r: CampaignRecord)
    requires r.symbol in w.db.campaigns && w.db.campaigns[r.symbol].mode.NEUTRAL_GRID? && !r.activated
    requires r.symbol in w.db.account.positions && w.db.account.positions[r.symbol].quantity != 0.0
    requires ActivatePosition(v, w, r).ok
    ensures
      var long, after := w.db.account.positions[r.symbol].direction.LONG?, ActivatePosition(v, w, r).world;
      var d := if long then LONG else SHORT;
      var stop := if long then r.neutralLongInvalidation else r.neutralShortInvalidation;
      var target := if long then r.neutralLongTakeProfit else r.neutralShortTakeProfit;
      && after.db.campaigns == w.db.campaigns[r.symbol :=
           w.db.campaigns[r.symbol].(direction := d, activated := true, status := CampaignStatus.Active)]
      && stop.Some? && stop.value > 0.0 && target.Some? && target.value > 0.0 && v.rules(r.symbol).Some?
      && SgId(StopKey(r.campaignId)) in after.ex.algos && SgId(TakeProfitKey(r.campaignId)) in after.ex.algos
      && var s, t := after.ex.algos[SgId(StopKey(r.campaignId))], after.ex.algos[SgId(TakeProfitKey(r.campaignId))];
      && s.symbol == t.symbol == r.symbol && s.direction == t.direction == d
      && s.kind == STOP_MARKET && t.kind == TAKE_PROFIT_MARKET
      && TickAtOrBelow(s.trigger, stop.value, v.rules(r.symbol).value.tick)
      && TickAtOrBelow(t.trigger, target.value, v.rules(r.symbol).value.tick)
      && PassesAt(v, r.symbol, d, STOP_MARKET, stop.value, w.tick + 2)
      && PassesAt(v, r.symbol, d, TAKE_PROFIT_MARKET, target.value, w.tick + 4)
  {
    var position := w.db.account.positions[r.symbol];
    var d := if position.direction.LONG? then LONG else SHORT;
    assert StoredDirection(position) == d;
    assert ActivatePosition(v, w, r) == InstallProtection(v, w, r, d, position.quantity);
    hide ActivatePosition, InstallProtection, PassesAt, RoundDown;
    Recovery.InstallProtectionIff(v, w, r, d, position.quantity);
    InstallProtectionOutcome(v, w, r, d, position.quantity);
    var prices := Protection(r, d).value;
    PassesMeans(v, r.symbol, d, STOP_MARKET, prices.0, w.tick + 2);
    PassesMeans(v, r.symbol, d, TAKE_PROFIT_MARKET, prices.1, w.tick + 4);
    ExitMeans(v, r.symbol, d, STOP_MARKET, prices.0);
    ExitMeans(v, r.symbol, d, TAKE_PROFIT_MARKET, prices.1);
    hide ExitFor, TickAtOrBelow, OppositeTargets, Recovery.Passes;
  }

  /** A position on the side an activated campaign does not have is never kept: execution halts, the campaign is
      degraded, and the most that is sent is one reduce-only order against the position, of as many whole steps as it
      holds. */
  lemma FlipIsSold(v: Venue, w: World, r: CampaignRecord, t: real)
    requires r.symbol in w.db.campaigns && r.activated
    requires r.symbol in w.db.account.positions && w.db.account.positions[r.symbol].quantity != 0.0
    requires (w.db.account.positions[r.symbol].direction.LONG? && r.direction != LONG)
             || (!w.db.account.positions[r.symbol].direction.LONG? && r.direction != SHORT)
    requires
      v.rules(r.symbol).Some? && v.rules(r.symbol).value.step > 0.0 ==>
        TickAtOrBelow(t, w.db.account.positions[r.symbol].quantity, v.rules(r.symbol).value.step)
    ensures
      var s, d := ActivatePosition(v, w, r), if w.db.account.positions[r.symbol].direction.LONG? then LONG else SHORT;
      && !s.ok && s.world.db.halted
      && s.world.db.campaigns == w.db.campaigns[r.symbol := w.db.campaigns[r.symbol].(status := Degraded)]
      && (|| s.world.ex == w.ex
          || s.world.ex == w.ex.(
               market := w.ex.market + [MarketOrder(r.symbol, SgId(EmergencyKey(r.campaignId, DirectionFlipClose)), d,
                                                    t, 0.0, true)]))
  {
    var position := w.db.account.positions[r.symbol];
    var d := if position.direction.LONG? then LONG else SHORT;
    ReduceOnlySentIff(v, w, r.symbol, d, position.quantity, EmergencyKey(r.campaignId, DirectionFlipClose), t);
    hide PlaceReduceOnly, TickAtOrBelow;
  }

  lemma ExitMeans(v: Venue, symbol: string, d: Direction, kind: ExitKind, price: real)
    requires v.rules(symbol).Some? && v.rules(symbol).value.tick > 0.0 && price >= 0.0
    ensures
      var e := ExitFor(v, symbol, d, kind, price);
      && e.symbol == symbol && e.direction == d && e.kind == kind
      && TickAtOrBelow(e.trigger, price, v.rules(symbol).value.tick)
  {
    RoundDownBound(price, v.rules(symbol).value.tick);
    hide RoundDown, IsMultiple;
  }

  /** A campaign that is fully opened on one side has a stop and a target of that side at the plan's prices. */
  lemma OpenedExits(v: Venue, w: World, plan: GridPlan)
    requires !plan.mode.NEUTRAL_GRID? && OpenCampaign(v, w, plan).outcome.Opened?
    ensures
      var algos := OpenCampaign(v, w, plan).world.ex.algos;
      && v.rules(plan.symbol).Some?
      && SgId(StopKey(plan.campaignId)) in algos && SgId(TakeProfitKey(plan.campaignId)) in algos
      && var s, t := algos[SgId(StopKey(plan.campaignId))], algos[SgId(TakeProfitKey(plan.campaignId))];
      && s.symbol == t.symbol == plan.symbol && s.direction == t.direction == plan.direction
      && s.kind == STOP_MARKET && t.kind == TAKE_PROFIT_MARKET
      && TickAtOrBelow(s.trigger, plan.invalidation, v.rules(plan.symbol).value.tick)
      && TickAtOrBelow(t.trigger, plan.takeProfit, v.rules(plan.symbol).value.tick)
  {
    var starter, rs := OpenDirectionalAtomic(v, w, plan);
    OpenedWasChecked(v, w, plan);
    ExitMeans(v, plan.symbol, plan.direction, STOP_MARKET, plan.invalidation);
    ExitMeans(v, plan.symbol, plan.direction, TAKE_PROFIT_MARKET, plan.takeProfit);
    hide OpenCampaign, ExitFor, TickAtOrBelow, RecordFor, ReceiptFor, OrdersFor, IdsOf, StarterFor;
  }

  lemma OpenedWasChecked(v: Venue, w: World, plan: GridPlan)
    requires !plan.mode.NEUTRAL_GRID? && OpenCampaign(v, w, plan).outcome.Opened?
    ensures v.rules(plan.symbol).Some? && v.rules(plan.symbol).value.tick > 0.0
    ensures plan.invalidation > 0.0 && plan.takeProfit > 0.0
  {
    hide ProtectAndLadder, PlaceEntry, RecordFor, HasActive;
  }

  // ---- What a halt says ----

  /** The handlers halt for what they found: a starter without its stop, closed again or not; an opening that broke off
      with its stop in place; a position without protection, closed again or not. */
  lemma HaltsNameTheirCause(v: Venue, w: World, plan: GridPlan, r: CampaignRecord, d: Direction, quantity: real)
    requires r.symbol in w.db.campaigns
    ensures
      var sold := PlaceReduceOnly(v, w, plan.symbol, plan.direction, quantity,
                                  EmergencyKey(plan.campaignId, EmergencyClose)).ok;
      UnprotectedStarter(v, w, plan, quantity).db.haltReason
      == if sold then GridStopPlacementFailed(plan.symbol) else GridUnprotectedPosition(plan.symbol)
    ensures DegradeOpen(w, plan).db.halted && DegradeOpen(w, plan).db.haltReason == GridOpenDegraded(plan.symbol)
    ensures
      var sold := PlaceReduceOnly(v, w, r.symbol, d, quantity,
                                  EmergencyKey(r.campaignId, NeutralProtectionEmergencyClose)).ok;
      ProtectionFailed(v, w, r, d, quantity).db.haltReason
      == if sold then NeutralProtectionFailed(r.symbol) else NeutralUnprotectedPosition(r.symbol)
  {
    hide PlaceReduceOnly;
  }
}
