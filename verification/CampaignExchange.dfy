/** What every step of the executor keeps of the exchange: each named order rests under an id of its own. */
module CampaignExchange {
  import opened Models
  import opened Store
  import opened Grid
  import opened Adapter
  import opened Campaign
  import opened CampaignOpening

  /** Time went on and no id was forgotten; new ids came with answers given meanwhile, and every new order that
      has a name rests under an issued one. */
  ghost predicate Advances(v: Venue, w: World, after: World) {
    && w.tick <= after.tick && w.ex.issued <= after.ex.issued
    && (forall id | id in after.ex.issued :: id in w.ex.issued || Answered(v, w.tick, after.tick, id))
    && (forall o | o in after.ex.resting :: o in w.ex.resting || o.orderId == "" || o.orderId in after.ex.issued)
  }

  lemma AnsweredBefore(v: Venue, from: nat, to: nat, i: nat)
    requires UniqueIds(v) && to <= i && v.answer(i).Accepted? && v.answer(i).id != ""
    ensures !Answered(v, from, to, v.answer(i).id)
  {
  }

  /** As long as the exchange names no two orders alike, its ids stay in order and none to come is taken. */
  lemma AdvancingIsSafe(v: Venue, w: World, after: World)
    requires UniqueIds(v) && ExchangeSafe(v, w) && Advances(v, w, after)
    ensures ExchangeSafe(v, after)
  {
    forall i: nat | after.tick <= i && v.answer(i).Accepted? && v.answer(i).id != ""
      ensures v.answer(i).id !in after.ex.issued
    {
      AnsweredBefore(v, w.tick, after.tick, i);
    }
    hide Answered;
  }

  lemma AdvancesChain(v: Venue, a: World, b: World, c: World)
    requires Advances(v, a, b) && Advances(v, b, c)
    ensures Advances(v, a, c)
  {
    forall id | id in c.ex.issued && id !in a.ex.issued ensures Answered(v, a.tick, c.tick, id) {
      if id in b.ex.issued {
        var i: nat :| a.tick <= i < b.tick && v.answer(i) == Accepted(id);
        AnsweredAt(v, a.tick, c.tick, i, id);
      } else {
        AnsweredWider(v, b.tick, c.tick, a.tick, id);
      }
    }
  }

  lemma TidyAdvances(v: Venue, w: World, after: World)
    requires Tidy(w, after)
    ensures Advances(v, w, after)
  {
  }

  lemma LadderAdvances(v: Venue, plan: GridPlan, levels: seq<GridEntryLevel>, before: World, after: World,
                       rs: seq<Receipt>)
    requires Laddered(v, plan, levels, before, after, rs)
    ensures Advances(v, before, after)
  {
    hide ReceiptFor, LevelDirection, Answered;
    forall o | o in after.ex.resting && o !in before.ex.resting ensures o.orderId in after.ex.issued {
      var i :| 0 <= i < |rs| && o == LimitOrder(plan.symbol, LevelDirection(plan, levels[i]), rs[i]);
      assert rs[i].orderId in IdsOf(rs);
    }
  }

  /** Only what the exchange holds and the time matter. */
  lemma AdvancesAs(v: Venue, w: World, after: World, w1: World, after1: World)
    requires Advances(v, w, after)
    requires w1.ex == w.ex && w1.tick == w.tick && after1.ex == after.ex && after1.tick == after.tick
    ensures Advances(v, w1, after1)
  {
  }

  lemma StarterAdvances(v: Venue, w: World, plan: GridPlan)
    ensures Advances(v, w, StarterPhase(v, w, plan).world)
  {
    hide QuantityFor;
    var p := StarterPhase(v, w, plan);
    if p.receipt.Some? {
      AnsweredAt(v, w.tick, p.world.tick, p.world.tick - 1, p.receipt.value.orderId);
    }
    hide StarterPhase;
  }

  lemma MarkAdvances(v: Venue, w: World, symbol: string, status: CampaignStatus, plan: GridPlan)
    ensures Advances(v, w, Mark(w, symbol, status)) && Advances(v, w, DegradeOpen(w, plan))
  {
  }

  lemma AfterStarterAdvances(v: Venue, w: World, plan: GridPlan, starter: Receipt)
    requires plan.entries != []
    ensures Advances(v, w, ProtectAndLadder(v, w, plan, starter).world)
  {
    hide PlaceExit, PlaceLadder, UnprotectedStarter, DegradeOpen, Laddered, Advances, Mark;
    var after := ProtectAndLadder(v, w, plan, starter).world;
    var stop := PlaceExit(v, w, plan.symbol, plan.direction, plan.invalidation, STOP_MARKET, StopKey(plan.campaignId));
    TidyAdvances(v, w, stop.world);
    var end := UnprotectedStarter(v, stop.world, plan, starter.quantity);
    TidyAdvances(v, stop.world, end);
    AdvancesChain(v, w, stop.world, end);
    if stop.ok {
      var tp := PlaceExit(v, stop.world, plan.symbol, plan.direction, plan.takeProfit, TAKE_PROFIT_MARKET,
                          TakeProfitKey(plan.campaignId));
      TidyAdvances(v, stop.world, tp.world);
      AdvancesChain(v, w, stop.world, tp.world);
      MarkAdvances(v, tp.world, plan.symbol, Active, plan);
      var l := PlaceLadder(v, tp.world, plan, plan.entries[1..], []);
      LadderPlaces(v, tp.world, plan, plan.entries[1..], []);
      LadderAdvances(v, plan, plan.entries[1..], tp.world, l.world, l.placed[0..]);
      AdvancesChain(v, w, tp.world, l.world);
      MarkAdvances(v, l.world, plan.symbol, Active, plan);
      AdvancesChain(v, w, if tp.ok then l.world else tp.world, after);
    }
  }

  lemma DirectionalAdvances(v: Venue, w: World, plan: GridPlan)
    ensures Advances(v, w, OpenDirectional(v, w, plan).world)
  {
    hide StarterPhase, ProtectAndLadder, Advances, Mark, QuantityFor;
    TidyAdvances(v, w, w);
    var prepared := Prepare(w.db, plan);
    if prepared.Some? {
      var w0 := w.(db := prepared.value);
      var s := StarterPhase(v, w0, plan);
      StarterAdvances(v, w0, plan);
      if s.receipt.None? {
        MarkAdvances(v, s.world, plan.symbol, Failed, plan);
      } else {
        AfterStarterAdvances(v, s.world, plan, s.receipt.value);
      }
      AdvancesChain(v, w0, s.world, OpenDirectional(v, w, plan).world);
      AdvancesAs(v, w0, OpenDirectional(v, w, plan).world, w, OpenDirectional(v, w, plan).world);
    }
  }

  lemma NeutralAdvances(v: Venue, w: World, plan: GridPlan)
    ensures Advances(v, w, OpenNeutral(v, w, plan).world)
  {
    hide PlaceLadder, ActivatePosition, NeutralOpenFailed, Laddered, Advances, Mark, OrderIds;
    TidyAdvances(v, w, w);
    var prepared := Prepare(w.db, plan);
    if prepared.Some? {
      var w0 := w.(db := prepared.value);
      PreparedRegisters(w.db, plan);
      hide Prepare;
      var after := OpenNeutral(v, w, plan).world;
      var l := PlaceLadder(v, w0, plan, plan.entries, []);
      LadderPlaces(v, w0, plan, plan.entries, []);
      LadderKeepsDb(v, w0, plan, plan.entries, []);
      LadderAdvances(v, plan, plan.entries, w0, l.world, l.placed[0..]);
      ArmedAdvances(v, l.world, plan, OrderIds(l.placed));
      AdvancesChain(v, w0, l.world, after);
      AdvancesAs(v, w0, after, w, after);
    }
  }

  /** However the activation of the armed ladder ends, and however its failure is handled. */
  lemma ArmedAdvances(v: Venue, w: World, plan: GridPlan, ids: seq<string>)
    requires plan.symbol in w.db.campaigns
    ensures plan.symbol in Mark(w, plan.symbol, Active).db.campaigns
    ensures Advances(v, w, NeutralOpenFailed(v, w, plan, ids))
    ensures
      var w1 := Mark(w, plan.symbol, Active);
      var a := ActivatePosition(v, w1, w1.db.campaigns[plan.symbol]);
      Advances(v, w, a.world) && Advances(v, w, NeutralOpenFailed(v, a.world, plan, ids))
  {
    var w1 := Mark(w, plan.symbol, Active);
    assert plan.symbol in w1.db.campaigns;
    MarkAdvances(v, w, plan.symbol, Active, plan);
    hide ActivatePosition, NeutralOpenFailed, Advances, Mark;
    var a := ActivatePosition(v, w1, w1.db.campaigns[plan.symbol]);
    TidyAdvances(v, w, NeutralOpenFailed(v, w, plan, ids));
    TidyAdvances(v, w1, a.world);
    TidyAdvances(v, a.world, NeutralOpenFailed(v, a.world, plan, ids));
    AdvancesChain(v, w, w1, a.world);
    AdvancesChain(v, w, a.world, NeutralOpenFailed(v, a.world, plan, ids));
  }

  /** Opening, cleaning up and recovering rest orders only under ids the exchange gave out meanwhile. */
  lemma OpenAdvances(v: Venue, w: World, plan: GridPlan)
    ensures Advances(v, w, OpenCampaign(v, w, plan).world)
  {
    hide Advances, OpenNeutral, OpenDirectional;
    if plan.mode.NEUTRAL_GRID? {
      NeutralAdvances(v, w, plan);
    } else {
      DirectionalAdvances(v, w, plan);
    }
  }
}
