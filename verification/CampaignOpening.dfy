/** Opening a campaign is all or nothing, or it halts. */
module CampaignOpening {
  import opened Models
  import opened Store
  import opened Grid
  import opened Adapter
  import opened Campaign

  // ---- The ladder ----

  /** The receipt of one level: its own id, the tick at or below its price, the size of its share. */
  predicate ReceiptFor(v: Venue, plan: GridPlan, level: GridEntryLevel, r: Receipt) {
    && r.clientId == SgId(LevelKey(plan.campaignId, level.index))
    && level.notionalUsdt > 0.0
    && v.rules(plan.symbol).Some? && v.rules(plan.symbol).value.tick > 0.0
    && r.price == RoundDown(level.price, v.rules(plan.symbol).value.tick) && r.price > 0.0
    && QuantityFor(v.rules(plan.symbol).value, level.notionalUsdt, r.price) == Some(r.quantity)
  }

  function OrdersFor(plan: GridPlan, levels: seq<GridEntryLevel>, rs: seq<Receipt>): set<RestingOrder>
    requires |rs| <= |levels|
  {
    set i | 0 <= i < |rs| :: LimitOrder(plan.symbol, LevelDirection(plan, levels[i]), rs[i])
  }

  function IdsOf(rs: seq<Receipt>): set<string> {
    set i | 0 <= i < |rs| :: rs[i].orderId
  }

  /** Between the two worlds exactly the first |rs| levels came to rest, each under the id it was answered with. */
  ghost predicate Laddered(v: Venue, plan: GridPlan, levels: seq<GridEntryLevel>, before: World, after: World,
                           rs: seq<Receipt>) {
    && |rs| <= |levels|
    && (forall i | 0 <= i < |rs| :: ReceiptFor(v, plan, levels[i], rs[i]))
    && before.tick <= after.tick
    && (forall i | 0 <= i < |rs| :: Answered(v, before.tick, after.tick, rs[i].orderId))
    && OnlyPositions(before.db, after.db)
    && after.ex == before.ex.(resting := before.ex.resting + OrdersFor(plan, levels, rs),
                              issued := before.ex.issued + IdsOf(rs))
  }

  lemma LadderedStep(v: Venue, plan: GridPlan, levels: seq<GridEntryLevel>, before: World, mid: World, after: World,
                     r: Receipt, rest: seq<Receipt>)
    requires levels != [] && ReceiptFor(v, plan, levels[0], r)
    requires mid.tick == before.tick + 1 && v.answer(before.tick) == Accepted(r.orderId)
    requires OnlyPositions(before.db, mid.db)
    requires mid.ex == before.ex.(resting := before.ex.resting
                                  + {LimitOrder(plan.symbol, LevelDirection(plan, levels[0]), r)},
                                  issued := before.ex.issued + {r.orderId})
    requires Laddered(v, plan, levels[1..], mid, after, rest)
    ensures Laddered(v, plan, levels, before, after, [r] + rest)
  {
    hide ReceiptFor, OrdersFor, IdsOf, Answered;
    var rs := [r] + rest;
    assert forall i | 0 < i < |rs| :: rs[i] == rest[i - 1] && levels[i] == levels[1..][i - 1];
    Grown(plan, levels, r, rest);
    forall i | 0 <= i < |rs| ensures Answered(v, before.tick, after.tick, rs[i].orderId) {
      if i == 0 {
        AnsweredAt(v, before.tick, after.tick, before.tick, r.orderId);
      } else {
        AnsweredWider(v, mid.tick, after.tick, before.tick, rest[i - 1].orderId);
      }
    }
  }

  lemma AnsweredAt(v: Venue, from: nat, to: nat, i: nat, id: string)
    requires from <= i < to && v.answer(i) == Accepted(id)
    ensures Answered(v, from, to, id)
  {
  }

  lemma AnsweredWider(v: Venue, from: nat, to: nat, earlier: nat, id: string)
    requires Answered(v, from, to, id) && earlier <= from
    ensures Answered(v, earlier, to, id)
  {
  }

  lemma Grown(plan: GridPlan, levels: seq<GridEntryLevel>, r: Receipt, rest: seq<Receipt>)
    requires |rest| < |levels|
    ensures OrdersFor(plan, levels, [r] + rest) ==
            {LimitOrder(plan.symbol, LevelDirection(plan, levels[0]), r)} + OrdersFor(plan, levels[1..], rest)
    ensures IdsOf([r] + rest) == {r.orderId} + IdsOf(rest)
  {
    hide LimitOrder, LevelDirection;
    var rs := [r] + rest;
    assert rs[0] == r;
    forall i | 0 <= i < |rest| ensures rs[i + 1] == rest[i] && levels[i + 1] == levels[1..][i] {
    }
    forall i | 0 < i < |rs| ensures rs[i] == rest[i - 1] && levels[i] == levels[1..][i - 1] {
    }
    forall o | o in OrdersFor(plan, levels[1..], rest) ensures o in OrdersFor(plan, levels, rs) {
      var i :| 0 <= i < |rest| && o == LimitOrder(plan.symbol, LevelDirection(plan, levels[1..][i]), rest[i]);
      assert o == LimitOrder(plan.symbol, LevelDirection(plan, levels[i + 1]), rs[i + 1]);
    }
    forall id | id in IdsOf(rest) ensures id in IdsOf(rs) {
      var i :| 0 <= i < |rest| && id == rest[i].orderId;
      assert id == rs[i + 1].orderId;
    }
  }

  lemma Continues(placed: seq<Receipt>, r: Receipt, all: seq<Receipt>)
    requires |placed| + 1 <= |all| && all[..|placed| + 1] == placed + [r]
    ensures all[..|placed|] == placed && all[|placed|..] == [r] + all[|placed| + 1..]
  {
    assert all[|placed|] == (placed + [r])[|placed|];
    assert all[..|placed|] == all[..|placed| + 1][..|placed|];
  }

  lemma {:induction false} LadderPlaces(v: Venue, w: World, plan: GridPlan, levels: seq<GridEntryLevel>,
                                        placed: seq<Receipt>)
    ensures
      var l := PlaceLadder(v, w, plan, levels, placed);
      && |placed| <= |l.placed| && l.placed[..|placed|] == placed
      && Laddered(v, plan, levels, w, l.world, l.placed[|placed|..])
      && (l.ok ==> |l.placed| == |placed| + |levels|)
      && (!ExecutionReady(w.db) && levels != [] ==> !l.ok && l.placed == placed && l.world == w)
    decreases levels
  {
    hide PlaceLimit, LevelDirection, ExecutionReady, Laddered, QuantityFor;
    var l := PlaceLadder(v, w, plan, levels, placed);
    Unmoved(v, plan, levels, w, l.world);
    if l.placed == placed {
      assert l.placed[|placed|..] == [];
    }
    if levels != [] && !(plan.mode.NEUTRAL_GRID? && (!levels[0].kind.LIMIT? || levels[0].direction.PASS?)) {
      var level := levels[0];
      var p := PlaceLimit(v, w, plan.symbol, LevelDirection(plan, level), level.notionalUsdt, level.price,
                          LevelKey(plan.campaignId, level.index));
      if p.receipt.Some? {
        var r := p.receipt.value;
        LadderPlaces(v, p.world, plan, levels[1..], placed + [r]);
        Continues(placed, r, l.placed);
        LadderedStep(v, plan, levels, w, p.world, l.world, r, l.placed[|placed| + 1..]);
      }
    }
  }

  lemma Unmoved(v: Venue, plan: GridPlan, levels: seq<GridEntryLevel>, w: World, after: World)
    ensures OnlyPositions(w.db, after.db) && after.ex == w.ex && w.tick <= after.tick ==>
              Laddered(v, plan, levels, w, after, [])
  {
    assert OrdersFor(plan, levels, []) == {} && IdsOf([]) == {};
  }

  lemma {:induction false} LimitIdsListed(campaign: CampaignId, entries: seq<GridEntryLevel>)
    ensures forall id :: id in LimitIds(campaign, entries) <==>
              exists i :: 0 <= i < |entries| && entries[i].kind.LIMIT?
                && id == SgId(LevelKey(campaign, entries[i].index))
  {
    if entries != [] {
      var n := |entries| - 1;
      LimitIdsListed(campaign, entries[..n]);
      forall id ensures id in LimitIds(campaign, entries) <==>
                exists i :: 0 <= i < |entries| && entries[i].kind.LIMIT?
                  && id == SgId(LevelKey(campaign, entries[i].index))
      {
        if id in LimitIds(campaign, entries[..n]) {
          var i :| 0 <= i < n && entries[..n][i].kind.LIMIT? && id == SgId(LevelKey(campaign, entries[..n][i].index));
          assert entries[i] == entries[..n][i];
        }
        if i :| 0 <= i < |entries| && entries[i].kind.LIMIT? && id == SgId(LevelKey(campaign, entries[i].index)) {
          assert i < n ==> entries[..n][i] == entries[i];
        }
      }
    }
  }

  /** The levels a plan rests: all of a neutral one, all but the starter of a directional one. */
  function LadderOf(plan: GridPlan): seq<GridEntryLevel> {
    if plan.mode.NEUTRAL_GRID? || plan.entries == [] then plan.entries else plan.entries[1..]
  }

  lemma RestingIsOwned(v: Venue, plan: GridPlan, level: GridEntryLevel, j: nat, r: Receipt)
    requires j < |plan.entries| && plan.entries[j] == level && level.kind.LIMIT? && ReceiptFor(v, plan, level, r)
    ensures r.clientId in RecordFor(plan).limitIds
  {
    LimitIdsListed(plan.campaignId, plan.entries);
    hide QuantityFor, LimitIds;
  }

  lemma OwnedIsLimit(plan: GridPlan, id: ClientId) returns (j: nat)
    requires id in RecordFor(plan).limitIds
    ensures j < |plan.entries| && plan.entries[j].kind.LIMIT?
    ensures id == SgId(LevelKey(plan.campaignId, plan.entries[j].index))
  {
    LimitIdsListed(plan.campaignId, plan.entries);
    hide LimitIds;
    j :| 0 <= j < |plan.entries| && plan.entries[j].kind.LIMIT?
      && id == SgId(LevelKey(plan.campaignId, plan.entries[j].index));
  }

  /** For a plan of the planner every order that came to rest is owned by the registered campaign, and once the
      whole ladder rests the campaign owns nothing else. */
  lemma LadderIsOwned(v: Venue, plan: GridPlan, before: World, after: World, rs: seq<Receipt>)
    requires WellShaped(plan) && Laddered(v, plan, LadderOf(plan), before, after, rs)
    ensures forall i | 0 <= i < |rs| :: rs[i].clientId in RecordFor(plan).limitIds
    ensures |rs| == |LadderOf(plan)| ==> forall id | id in RecordFor(plan).limitIds ::
              exists i :: 0 <= i < |rs| && rs[i].clientId == id
  {
    LadderLevels(plan);
    hide WellShaped, LadderOf, ReceiptFor, RecordFor, OrdersFor, IdsOf, Answered;
    forall i | 0 <= i < |rs| ensures rs[i].clientId in RecordFor(plan).limitIds {
      LadderLevelAt(plan, i);
      RestingIsOwned(v, plan, LadderOf(plan)[i], i + Skipped(plan), rs[i]);
    }
    if |rs| == |LadderOf(plan)| {
      forall id | id in RecordFor(plan).limitIds ensures exists i :: 0 <= i < |rs| && rs[i].clientId == id {
        var j := OwnedIsLimit(plan, id);
        LadderLevelOf(plan, j);
        ReceiptNamed(v, plan, LadderOf(plan)[j - Skipped(plan)], rs[j - Skipped(plan)]);
      }
    }
  }

  lemma ReceiptNamed(v: Venue, plan: GridPlan, level: GridEntryLevel, r: Receipt)
    requires ReceiptFor(v, plan, level, r)
    ensures r.clientId == SgId(LevelKey(plan.campaignId, level.index))
  {
  }

  /** The starter is not part of the ladder. */
  function Skipped(plan: GridPlan): nat {
    if plan.mode.NEUTRAL_GRID? || plan.entries == [] then 0 else 1
  }

  lemma LadderLevelAt(plan: GridPlan, i: nat)
    requires i < |LadderOf(plan)|
    ensures i + Skipped(plan) < |plan.entries| && plan.entries[i + Skipped(plan)] == LadderOf(plan)[i]
  {
  }

  lemma LadderLevelOf(plan: GridPlan, j: nat)
    requires j < |plan.entries| && plan.entries[j].kind.LIMIT?
    requires plan.mode.NEUTRAL_GRID? || plan.entries[0].kind.MARKET?
    ensures 0 <= j - Skipped(plan) < |LadderOf(plan)| && LadderOf(plan)[j - Skipped(plan)] == plan.entries[j]
  {
  }

  /** In a plan of the planner the levels to rest are the LIMIT entries. */
  lemma LadderLevels(plan: GridPlan)
    requires WellShaped(plan)
    ensures plan.entries != [] && (plan.mode.NEUTRAL_GRID? || plan.entries[0].kind.MARKET?)
    ensures forall i | 0 <= i < |LadderOf(plan)| :: LadderOf(plan)[i].kind.LIMIT?
    ensures forall i | 0 <= i < |plan.entries| && (plan.mode.NEUTRAL_GRID? || i > 0) :: plan.entries[i].kind.LIMIT?
  {
    hide Allotted;
    forall i | 0 <= i < |plan.entries| && (plan.mode.NEUTRAL_GRID? || i > 0) ensures plan.entries[i].kind.LIMIT? {
      if plan.mode.NEUTRAL_GRID? {
        assert LadderLevelOk(plan.entries[i], plan.referencePrice);
      }
    }
  }

  // ---- Directional ----

  function Starter(plan: GridPlan, r: Receipt): MarketOrder {
    MarketOrder(plan.symbol, SgId(StarterKey(plan.campaignId)), plan.direction, r.quantity, plan.referencePrice, false)
  }

  function EmergencyOrder(plan: GridPlan, quantity: real): MarketOrder {
    MarketOrder(plan.symbol, SgId(EmergencyKey(plan.campaignId, EmergencyClose)), plan.direction, quantity, 0.0, true)
  }

  predicate StarterFor(v: Venue, plan: GridPlan, r: Receipt) {
    && plan.entries != [] && plan.entries[0].notionalUsdt > 0.0
    && plan.referencePrice > 0.0 && r.price == plan.referencePrice
    && v.rules(plan.symbol).Some?
    && QuantityFor(v.rules(plan.symbol).value, plan.entries[0].notionalUsdt, plan.referencePrice) == Some(r.quantity)
  }

  function WithStop(v: Venue, plan: GridPlan, algos: map<ClientId, ExitOrder>): map<ClientId, ExitOrder> {
    algos[SgId(StopKey(plan.campaignId)) := ExitFor(v, plan.symbol, plan.direction, STOP_MARKET, plan.invalidation)]
  }

  /** The plan's stop and target, each under its own id. */
  function WithExits(v: Venue, plan: GridPlan, algos: map<ClientId, ExitOrder>): map<ClientId, ExitOrder> {
    WithStop(v, plan, algos)[SgId(TakeProfitKey(plan.campaignId)) :=
                             ExitFor(v, plan.symbol, plan.direction, TAKE_PROFIT_MARKET, plan.takeProfit)]
  }

  /** The whole directional campaign is on the exchange: starter, both exits and every ladder level. */
  ghost predicate FullyOpen(v: Venue, plan: GridPlan, before: Exchange, after: Exchange, starter: Receipt,
                            rs: seq<Receipt>) {
    && StarterFor(v, plan, starter) && |rs| == |plan.entries| - 1
    && (forall i | 0 <= i < |rs| :: ReceiptFor(v, plan, plan.entries[1..][i], rs[i]))
    && after == Exchange(before.resting + OrdersFor(plan, plan.entries[1..], rs),
                         WithExits(v, plan, before.algos), before.accepted + ExitIds(plan.campaignId),
                         before.market + [Starter(plan, starter)],
                         before.issued + {starter.orderId} + IdsOf(rs))
  }

  /** The starter was bought and at once sold again in full; nothing else was placed. */
  ghost predicate BoughtAndClosed(v: Venue, plan: GridPlan, before: Exchange, after: Exchange, starter: Receipt) {
    && StarterFor(v, plan, starter)
    && after == before.(market := before.market + [Starter(plan, starter), EmergencyOrder(plan, starter.quantity)],
                        issued := before.issued + {starter.orderId})
  }

  /** The starter is all that reached the exchange: its stop was refused, and so was the emergency close. */
  ghost predicate StarterAlone(v: Venue, plan: GridPlan, before: Exchange, after: Exchange, starter: Receipt) {
    && StarterFor(v, plan, starter)
    && after == before.(market := before.market + [Starter(plan, starter)], issued := before.issued + {starter.orderId})
  }

  /** The plan's stop stands behind the starter; of the rest the exchange holds the target and a first part of
      the ladder, or nothing yet. */
  ghost predicate StoppedShort(v: Venue, plan: GridPlan, before: Exchange, after: Exchange, starter: Receipt,
                               rs: seq<Receipt>) {
    && StarterFor(v, plan, starter) && plan.entries != [] && |rs| <= |plan.entries| - 1
    && (forall i | 0 <= i < |rs| :: ReceiptFor(v, plan, plan.entries[1..][i], rs[i]))
    && after == before.(market := before.market + [Starter(plan, starter)],
                        algos := after.algos, accepted := after.accepted,
                        resting := before.resting + OrdersFor(plan, plan.entries[1..], rs),
                        issued := before.issued + {starter.orderId} + IdsOf(rs))
    && ((rs == [] && after.algos == WithStop(v, plan, before.algos)
         && after.accepted == before.accepted + {SgId(StopKey(plan.campaignId))})
        || (after.algos == WithExits(v, plan, before.algos)
            && after.accepted == before.accepted + ExitIds(plan.campaignId)))
  }

  predicate Recorded(w: World, after: World, plan: GridPlan, status: CampaignStatus) {
    after.db.campaigns == w.db.campaigns[plan.symbol := RecordFor(plan).(status := status)]
  }

  lemma SizedInSteps(r: SymbolRules, notional: real, price: real)
    requires notional > 0.0 && price > 0.0 && QuantityFor(r, notional, price).Some?
    ensures r.step > 0.0
    ensures RoundDown(QuantityFor(r, notional, price).value, r.step) == QuantityFor(r, notional, price).value
  {
    QuantityBound(r, notional, price);
    RoundDownOfMultiple(QuantityFor(r, notional, price).value, r.step);
  }

  lemma UnprotectedStarterHalts(v: Venue, w: World, plan: GridPlan, before: Exchange, r: Receipt)
    requires StarterFor(v, plan, r) && plan.symbol in w.db.campaigns
    requires w.ex == before.(market := before.market + [Starter(plan, r)], issued := before.issued + {r.orderId})
    ensures var after := UnprotectedStarter(v, w, plan, r.quantity);
            && after.db.halted
            && ((BoughtAndClosed(v, plan, before, after.ex, r)
                 && after.db.campaigns == w.db.campaigns[plan.symbol := w.db.campaigns[plan.symbol].(status := Failed)])
                || (after.ex == w.ex
                    && after.db.campaigns == w.db.campaigns[plan.symbol :=
                                                            w.db.campaigns[plan.symbol].(status := Degraded)]))
  {
    SizedInSteps(v.rules(plan.symbol).value, plan.entries[0].notionalUsdt, plan.referencePrice);
    hide PlaceReduceOnly, QuantityFor, RoundDown;
    var c := PlaceReduceOnly(v, w, plan.symbol, plan.direction, r.quantity,
                             EmergencyKey(plan.campaignId, EmergencyClose));
    if c.ok {
      assert c.world.ex.market == before.market + [Starter(plan, r), EmergencyOrder(plan, r.quantity)];
    }
  }

  /** The starter is on the exchange and its campaign is registered as opening. */
  ghost predicate Started(v: Venue, w: World, mid: World, plan: GridPlan, starter: Receipt) {
    && StarterFor(v, plan, starter)
    && mid.ex == w.ex.(market := w.ex.market + [Starter(plan, starter)], issued := w.ex.issued + {starter.orderId})
    && Recorded(w, mid, plan, Opening) && mid.db.halted == w.db.halted
  }

  /** What opening a directional campaign may come to: everything is placed and the campaign is active; or
      it raises, and then either nothing reached the exchange, or execution is halted. A failed campaign
      holds no exposure: its starter was never bought or was sold again in full. A degraded one has its stop
      standing, unless even the emergency close of the bare starter was refused. */
  ghost predicate DirectionalOutcome(v: Venue, w: World, plan: GridPlan, o: Attempt, starter: Receipt,
                                     rs: seq<Receipt>) {
    match o.outcome
    case AlreadyActive => HasActive(w.db, plan.symbol) && o.world == w
    case Opened(starterId, limitIds) =>
      && !HasActive(w.db, plan.symbol)
      && starterId == starter.orderId && limitIds == OrderIds(rs)
      && FullyOpen(v, plan, w.ex, o.world.ex, starter, rs)
      && Recorded(w, o.world, plan, Active) && o.world.db.halted == w.db.halted
    case OpenFailed =>
      && !HasActive(w.db, plan.symbol)
      && ((Recorded(w, o.world, plan, Failed) && o.world.ex == w.ex)
          || (Recorded(w, o.world, plan, Failed) && o.world.db.halted
              && BoughtAndClosed(v, plan, w.ex, o.world.ex, starter))
          || (Recorded(w, o.world, plan, Degraded) && o.world.db.halted
              && (StarterAlone(v, plan, w.ex, o.world.ex, starter)
                  || StoppedShort(v, plan, w.ex, o.world.ex, starter, rs))))
  }

  lemma Remarked(w: World, mid: World, plan: GridPlan, status: CampaignStatus)
    requires Recorded(w, mid, plan, Opening)
    ensures Recorded(w, Mark(mid, plan.symbol, status), plan, status)
  {
    hide RecordFor;
    var r, campaigns := RecordFor(plan), w.db.campaigns;
    assert campaigns[plan.symbol := r.(status := Opening)][plan.symbol := r.(status := status)]
        == campaigns[plan.symbol := r.(status := status)];
  }

  lemma AfterStarter(v: Venue, w: World, mid: World, plan: GridPlan, starter: Receipt) returns (rs: seq<Receipt>)
    requires !HasActive(w.db, plan.symbol) && plan.entries != [] && Started(v, w, mid, plan, starter)
    ensures DirectionalOutcome(v, w, plan, ProtectAndLadder(v, mid, plan, starter), starter, rs)
  {
    hide PlaceExit, PlaceLadder, UnprotectedStarter, StarterFor, ReceiptFor, OrdersFor, IdsOf, HasActive,
      BoughtAndClosed, Recorded, RecordFor, Mark, Stop,
      ExitFor, StarterAlone, StoppedShort, Answered, DegradeOpen;
    rs := [];
    var stop := PlaceExit(v, mid, plan.symbol, plan.direction, plan.invalidation, STOP_MARKET,
                          StopKey(plan.campaignId));
    if !stop.ok {
      RecordKept(w, mid, stop.world, plan);
      UnprotectedOutcome(v, w, stop.world, plan, starter);
    } else {
      var tp := PlaceExit(v, stop.world, plan.symbol, plan.direction, plan.takeProfit, TAKE_PROFIT_MARKET,
                          TakeProfitKey(plan.campaignId));
      RecordKept(w, mid, tp.world, plan);
      if !tp.ok {
        Degrades(w, tp.world, plan);
        BareStop(v, w, mid, tp.world, plan, starter);
      } else {
        LadderPlaces(v, tp.world, plan, plan.entries[1..], []);
        var l := PlaceLadder(v, tp.world, plan, plan.entries[1..], []);
        rs := l.placed;
        assert l.placed[0..] == rs;
        RecordKept(w, mid, l.world, plan);
        if l.ok {
          Remarked(w, l.world, plan, Active);
          Assembled(v, w, mid, tp.world, l.world, plan, starter, rs);
          MarkKeeps(l.world, plan.symbol, Active);
        } else {
          Degrades(w, l.world, plan);
          PartOfLadder(v, w, mid, tp.world, l.world, plan, starter, rs);
        }
      }
    }
  }

  lemma MarkKeeps(w: World, symbol: string, status: CampaignStatus)
    ensures Mark(w, symbol, status).ex == w.ex && Mark(w, symbol, status).db.halted == w.db.halted
  {
  }

  lemma RecordKept(w: World, mid: World, after: World, plan: GridPlan)
    requires Recorded(w, mid, plan, Opening) && OnlyPositions(mid.db, after.db)
    ensures Recorded(w, after, plan, Opening)
  {
  }

  lemma Degrades(w: World, mid: World, plan: GridPlan)
    requires Recorded(w, mid, plan, Opening)
    ensures DegradeOpen(mid, plan).db.halted && Recorded(w, DegradeOpen(mid, plan), plan, Degraded)
    ensures DegradeOpen(mid, plan).ex == mid.ex
  {
    Remarked(w, mid, plan, Degraded);
    hide Mark, RecordFor;
  }

  lemma UnprotectedOutcome(v: Venue, w: World, mid: World, plan: GridPlan, starter: Receipt)
    requires Started(v, w, mid, plan, starter)
    ensures var after := UnprotectedStarter(v, mid, plan, starter.quantity);
            && after.db.halted
            && ((Recorded(w, after, plan, Failed) && BoughtAndClosed(v, plan, w.ex, after.ex, starter))
                || (Recorded(w, after, plan, Degraded) && StarterAlone(v, plan, w.ex, after.ex, starter)))
  {
    hide UnprotectedStarter, StarterFor, BoughtAndClosed, RecordFor;
    UnprotectedStarterHalts(v, mid, plan, w.ex, starter);
    Remarked(w, mid, plan, Failed);
    Remarked(w, mid, plan, Degraded);
  }

  lemma BareStop(v: Venue, w: World, mid: World, stopped: World, plan: GridPlan, starter: Receipt)
    requires plan.entries != [] && Started(v, w, mid, plan, starter)
    requires stopped.ex == mid.ex.(algos := WithStop(v, plan, mid.ex.algos),
                                   accepted := mid.ex.accepted + {SgId(StopKey(plan.campaignId))})
    ensures StoppedShort(v, plan, w.ex, stopped.ex, starter, [])
  {
    hide StarterFor, Recorded, WithStop;
    assert OrdersFor(plan, plan.entries[1..], []) == {} && IdsOf([]) == {};
  }

  lemma PartOfLadder(v: Venue, w: World, mid: World, tp: World, l: World, plan: GridPlan, starter: Receipt,
                     rs: seq<Receipt>)
    requires plan.entries != [] && Started(v, w, mid, plan, starter)
    requires tp.ex.resting == mid.ex.resting && tp.ex.market == mid.ex.market && tp.ex.issued == mid.ex.issued
    requires tp.ex.algos == WithExits(v, plan, mid.ex.algos)
    requires tp.ex.accepted == mid.ex.accepted + {SgId(StopKey(plan.campaignId))}
             + {SgId(TakeProfitKey(plan.campaignId))}
    requires Laddered(v, plan, plan.entries[1..], tp, l, rs)
    ensures StoppedShort(v, plan, w.ex, l.ex, starter, rs)
  {
    hide ReceiptFor, StarterFor, OrdersFor, IdsOf, Recorded, WithExits, Answered;
    assert l.ex.accepted == w.ex.accepted + ExitIds(plan.campaignId);
  }

  lemma Assembled(v: Venue, w: World, mid: World, tp: World, l: World, plan: GridPlan, starter: Receipt,
                  rs: seq<Receipt>)
    requires plan.entries != [] && Started(v, w, mid, plan, starter)
    requires tp.ex.resting == mid.ex.resting && tp.ex.market == mid.ex.market && tp.ex.issued == mid.ex.issued
    requires tp.ex.algos == WithExits(v, plan, mid.ex.algos)
    requires tp.ex.accepted == mid.ex.accepted + {SgId(StopKey(plan.campaignId))}
             + {SgId(TakeProfitKey(plan.campaignId))}
    requires Laddered(v, plan, plan.entries[1..], tp, l, rs) && |rs| == |plan.entries| - 1
    ensures FullyOpen(v, plan, w.ex, l.ex, starter, rs)
  {
    hide ReceiptFor, StarterFor, OrdersFor, IdsOf, Recorded, WithExits;
    assert l.ex.accepted == w.ex.accepted + ExitIds(plan.campaignId);
  }

  lemma OpenDirectionalAtomic(v: Venue, w: World, plan: GridPlan) returns (starter: Receipt, rs: seq<Receipt>)
    requires !plan.mode.NEUTRAL_GRID?
    ensures DirectionalOutcome(v, w, plan, OpenCampaign(v, w, plan), starter, rs)
  {
    hide StarterPhase, ProtectAndLadder, RecordFor, DirectionalOutcome, QuantityFor, Mark;
    starter, rs := Receipt(NoId, "", 0.0, 0.0), [];
    var prepared := Prepare(w.db, plan);
    if prepared.None? {
      Refuses(v, w, plan, starter);
    } else {
      var w0 := w.(db := prepared.value);
      PreparedIsOpening(plan);
      var s := StarterPhase(v, w0, plan);
      if s.receipt.None? {
        NothingStarted(v, w, s.world, plan, starter);
      } else {
        starter := s.receipt.value;
        rs := AfterStarter(v, w, s.world, plan, starter);
      }
    }
  }

  lemma PreparedIsOpening(plan: GridPlan)
    ensures RecordFor(plan) == RecordFor(plan).(status := Opening) && RecordFor(plan).symbol == plan.symbol
  {
  }

  lemma Refuses(v: Venue, w: World, plan: GridPlan, r: Receipt)
    requires HasActive(w.db, plan.symbol)
    ensures DirectionalOutcome(v, w, plan, Attempt(w, AlreadyActive), r, [])
  {
  }

  lemma NothingStarted(v: Venue, w: World, mid: World, plan: GridPlan, r: Receipt)
    requires !HasActive(w.db, plan.symbol) && Recorded(w, mid, plan, Opening) && mid.ex == w.ex
    ensures DirectionalOutcome(v, w, plan, Attempt(Mark(mid, plan.symbol, Failed), OpenFailed), r, [])
  {
    Remarked(w, mid, plan, Failed);
    MarkKeeps(mid, plan.symbol, Failed);
    hide Mark, Recorded;
  }
}
