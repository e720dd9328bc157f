/** What the executor's steps leave alone: other symbols' campaigns, the account tables, an open gate. */
module CampaignFrame {
  import opened Models
  import opened Store
  import opened Grid
  import opened Adapter
  import opened Campaign
  import opened CampaignInvariant

  // ---- Recovery of one symbol leaves the others alone ----

  ghost predicate OnlyTouches(w: World, after: World, symbol: string) {
    && after.db.campaigns.Keys == w.db.campaigns.Keys
    && (forall t | t in w.db.campaigns && t != symbol :: after.db.campaigns[t] == w.db.campaigns[t])
    && (symbol in w.db.campaigns ==> SameCampaign(w.db.campaigns[symbol], after.db.campaigns[symbol]))
    && (w.db.halted ==> after.db.halted)
  }

  lemma StatusTouches(w: World, w1: World, symbol: string, status: CampaignStatus)
    requires w.db.halted ==> w1.db.halted
    requires w1.db.campaigns == w.db.campaigns
             || (symbol in w.db.campaigns
                 && w1.db.campaigns == w.db.campaigns[symbol := w.db.campaigns[symbol].(status := status)])
    ensures OnlyTouches(w, w1, symbol)
  {
  }

  lemma MarkingTouches(w: World, w1: World, symbol: string, status: CampaignStatus, reason: HaltReason)
    requires OnlyPositions(w.db, w1.db)
    ensures OnlyTouches(w, Mark(w1, symbol, status), symbol)
    ensures OnlyTouches(w, Stop(Mark(w1, symbol, status), reason), symbol)
    ensures OnlyTouches(w, w1, symbol)
  {
    hide OnlyTouches;
    StatusTouches(w, Mark(w1, symbol, status), symbol, status);
    StatusTouches(w, Stop(Mark(w1, symbol, status), reason), symbol, status);
    StatusTouches(w, w1, symbol, status);
  }

  lemma InstallProtectionTouches(v: Venue, w: World, r: CampaignRecord, d: Direction, quantity: real)
    requires r.symbol in w.db.campaigns
    ensures OnlyTouches(w, InstallProtection(v, w, r, d, quantity).world, r.symbol)
  {
    hide PlaceExit, PlaceReduceOnly, NeutralStopPhase, CancelOpposite, Protection, Mark, Stop, OnlyTouches,
      ActivateNeutral;
    var s, p := r.symbol, Protection(r, d);
    if p.None? {
      MarkingTouches(w, w, s, Active, NoReason);
    } else {
      var stop := NeutralStopPhase(v, w, r, d, p.value.0, p.value.1);
      if !stop.ok {
        var c := PlaceReduceOnly(v, stop.world, s, d, quantity,
                                 EmergencyKey(r.campaignId, NeutralProtectionEmergencyClose));
        MarkingTouches(w, c.world, s, Failed, NeutralProtectionFailed(s));
        MarkingTouches(w, c.world, s, Degraded, NeutralUnprotectedPosition(s));
      } else {
        var tp := PlaceExit(v, stop.world, s, d, p.value.1, TAKE_PROFIT_MARKET, TakeProfitKey(r.campaignId));
        MarkingTouches(w, tp.world, s, Degraded, NeutralOpenDegraded(s));
        var c := CancelOpposite(v, tp.world, s, d, r.limitIds);
        MarkingTouches(w, c.world, s, Degraded, NeutralOpenDegraded(s));
        ActivatingTouches(w, c.world, r, d);
      }
    }
  }

  lemma ActivatingTouches(w: World, w1: World, r: CampaignRecord, d: Direction)
    requires r.symbol in w.db.campaigns && OnlyPositions(w.db, w1.db)
    ensures OnlyTouches(w, ActivateNeutral(w1, r, d), r.symbol)
  {
  }

  lemma ActivationTouches(v: Venue, w: World, r: CampaignRecord)
    requires r.symbol in w.db.campaigns
    ensures OnlyTouches(w, ActivatePosition(v, w, r).world, r.symbol)
  {
    hide InstallProtection, PlaceReduceOnly, CancelOpposite, StoredDirection, Mark, Stop, OnlyTouches;
    var s := r.symbol;
    MarkingTouches(w, w, s, Active, NoReason);
    if Exposed(w.db.account.positions, s) {
      var position := w.db.account.positions[s];
      var d := StoredDirection(position);
      var c := PlaceReduceOnly(v, w, s, d, position.quantity, EmergencyKey(r.campaignId, DirectionFlipClose));
      MarkingTouches(w, c.world, s, Degraded, NeutralDirectionFlip(s));
      MarkingTouches(w, CancelOpposite(v, w, s, d, r.limitIds).world, s, Active, NoReason);
      InstallProtectionTouches(v, w, r, d, position.quantity);
    }
  }

  lemma CleanupTouches(v: Venue, w: World, symbol: string)
    ensures OnlyTouches(w, CleanupIfFlat(v, w, symbol).world, symbol)
  {
    hide SweepAll, ActivatePosition, Mark, Stop, OnlyTouches, ActiveCampaign;
    MarkingTouches(w, w, symbol, Active, NoReason);
    if HasActive(w.db, symbol) {
      var r := w.db.campaigns[symbol];
      ActivationTouches(v, w, r);
      var s := SweepAll(v, w, r);
      MarkingTouches(w, s.world, symbol, Degraded, GridCleanupFailed(symbol));
      MarkingTouches(w, s.world, symbol, Degraded, GridCleanupRace(symbol));
      MarkingTouches(w, s.world, symbol, Closed, NoReason);
    }
  }

  lemma RequireProtectionTouches(w: World, symbol: string)
    requires symbol in w.db.campaigns
    ensures OnlyTouches(w, RequireProtection(w, symbol).world, symbol)
  {
    hide Mark, Stop, OnlyTouches, SweepableAlgo;
    MarkingTouches(w, w, symbol, Degraded, GridRecoveryMissingStop(symbol));
    MarkingTouches(w, w, symbol, Degraded, GridRecoveryMissingTp(symbol));
    MarkingTouches(w, w, symbol, Active, NoReason);
  }

  lemma NeutralRecoveryTouches(v: Venue, w: World, symbol: string)
    requires symbol in w.db.campaigns && Exposed(w.db.account.positions, symbol)
    ensures OnlyTouches(w, RecoverExposedNeutral(v, w, symbol).world, symbol)
  {
    hide ActivatePosition, CancelOpposite, StoredDirection, Mark, Stop, OnlyTouches;
    var r := w.db.campaigns[symbol];
    ActivationTouches(v, w, r);
    MarkingTouches(w, w, symbol, Degraded, NeutralDirectionFlip(symbol));
    MarkingTouches(w, CancelOpposite(v, w, symbol, r.direction, r.limitIds).world, symbol, Active, NoReason);
  }

  lemma TouchesChain(a: World, b: World, c: World, symbol: string)
    requires OnlyTouches(a, b, symbol) && OnlyTouches(b, c, symbol)
    ensures OnlyTouches(a, c, symbol)
  {
  }

  lemma ExposedRecoveryTouches(v: Venue, w: World, symbol: string)
    requires symbol in w.db.campaigns && Exposed(w.db.account.positions, symbol)
    ensures symbol in RecoverExposedNeutral(v, w, symbol).world.db.campaigns
    ensures OnlyTouches(w, RequireProtection(RecoverExposedNeutral(v, w, symbol).world, symbol).world, symbol)
    ensures OnlyTouches(w, RecoverExposedNeutral(v, w, symbol).world, symbol)
  {
    hide RecoverExposedNeutral, RequireProtection;
    NeutralRecoveryTouches(v, w, symbol);
    var mid := RecoverExposedNeutral(v, w, symbol).world;
    RequireProtectionTouches(mid, symbol);
    TouchesChain(w, mid, RequireProtection(mid, symbol).world, symbol);
  }

  lemma RecoveryTouches(v: Venue, w: World, symbol: string)
    ensures OnlyTouches(w, RecoverOne(v, w, symbol).world, symbol)
  {
    hide CleanupIfFlat, RecoverExposedNeutral, RequireProtection, Mark, Stop, ActiveCampaign, OnlyTouches, Exposed;
    MarkingTouches(w, w, symbol, Active, NoReason);
    CleanupTouches(v, w, symbol);
    if HasActive(w.db, symbol) {
      RequireProtectionTouches(w, symbol);
      if Exposed(w.db.account.positions, symbol) {
        ExposedRecoveryTouches(v, w, symbol);
      }
    }
  }

  // ---- The account tables and the gate ----

  /** The account tables are as they were, and so are halt and gate, unless execution was halted. */
  predicate Calm(w: World, after: World) {
    && after.db.account == w.db.account
    && ((after.db.halted == w.db.halted && after.db.ready == w.db.ready) || (after.db.halted && !after.db.ready))
  }

  lemma ActivationCalm(v: Venue, w: World, r: CampaignRecord)
    requires Quiet(v) && r.symbol in w.db.campaigns
    ensures Calm(w, ActivatePosition(v, w, r).world)
  {
    hide CancelOpposite, PlaceReduceOnly, PlaceExit, NeutralStopPhase, StoredDirection, Protection;
  }

  lemma CleanupCalm(v: Venue, w: World, symbol: string)
    requires Quiet(v)
    ensures Calm(w, CleanupIfFlat(v, w, symbol).world)
  {
    hide SweepAll, ActivatePosition, Quiet, ActiveCampaign, Exposed;
    if HasActive(w.db, symbol) {
      ActivationCalm(v, w, w.db.campaigns[symbol]);
    }
  }

  lemma RecoveryCalm(v: Venue, w: World, symbol: string)
    requires Quiet(v)
    ensures Calm(w, RecoverOne(v, w, symbol).world)
  {
    hide CleanupIfFlat, RecoverExposedNeutral, RequireProtection, Quiet, ActiveCampaign, Exposed, SweepableAlgo;
    CleanupCalm(v, w, symbol);
    if HasActive(w.db, symbol) && Exposed(w.db.account.positions, symbol) {
      NeutralRecoveryCalm(v, w, symbol);
    }
  }

  lemma NeutralRecoveryCalm(v: Venue, w: World, symbol: string)
    requires Quiet(v) && symbol in w.db.campaigns && Exposed(w.db.account.positions, symbol)
    ensures Calm(w, RecoverExposedNeutral(v, w, symbol).world)
  {
    hide ActivatePosition, CancelOpposite, Quiet, StoredDirection;
    ActivationCalm(v, w, w.db.campaigns[symbol]);
  }

  lemma {:induction false} RecoverCalm(v: Venue, w: World, symbols: seq<string>)
    requires Quiet(v)
    ensures Calm(w, Recover(v, w, symbols).world)
    ensures w.db.halted ==> Recover(v, w, symbols).world.db.halted
    ensures Recover(v, w, symbols).world.db.campaigns.Keys == w.db.campaigns.Keys
    decreases symbols
  {
    hide RecoverOne, Quiet;
    if symbols != [] {
      RecoveryCalm(v, w, symbols[0]);
      RecoveryTouches(v, w, symbols[0]);
      RecoverCalm(v, RecoverOne(v, w, symbols[0]).world, symbols[1..]);
    }
  }

  // ---- Opening ----

  lemma {:induction false} LadderCalm(v: Venue, w: World, plan: GridPlan, levels: seq<GridEntryLevel>,
                                      placed: seq<Receipt>)
    requires Quiet(v)
    ensures PlaceLadder(v, w, plan, levels, placed).world.db == w.db
    decreases levels
  {
    hide PlaceLimit, Quiet;
    if levels != [] {
      var level := levels[0];
      var p := PlaceLimit(v, w, plan.symbol, LevelDirection(plan, level), level.notionalUsdt, level.price,
                          LevelKey(plan.campaignId, level.index));
      if p.receipt.Some? {
        LadderCalm(v, p.world, plan, levels[1..], placed + [p.receipt.value]);
      }
    }
  }

  lemma MarkingCalm(w: World, symbol: string, status: CampaignStatus, reason: HaltReason)
    ensures Calm(w, Mark(w, symbol, status)) && Calm(w, Stop(Mark(w, symbol, status), reason))
            && Calm(w, Mark(Stop(w, reason), symbol, status))
  {
    hide WithStatus;
  }

  lemma CalmChains(a: World, b: World, c: World)
    requires Calm(a, b) && Calm(b, c)
    ensures Calm(a, c)
  {
  }

  lemma CalmFrom(a: World, b: World, c: World)
    requires a.db == b.db && Calm(b, c)
    ensures Calm(a, c)
  {
  }

  lemma ProtectAndLadderCalm(v: Venue, w: World, plan: GridPlan, starter: Receipt)
    requires Quiet(v) && plan.entries != []
    ensures Calm(w, ProtectAndLadder(v, w, plan, starter).world)
  {
    hide PlaceExit, PlaceReduceOnly, PlaceLadder, Quiet, Mark, Stop, Calm;
    var s := plan.symbol;
    var stop := PlaceExit(v, w, s, plan.direction, plan.invalidation, STOP_MARKET, StopKey(plan.campaignId));
    if !stop.ok {
      var c := PlaceReduceOnly(v, stop.world, s, plan.direction, starter.quantity,
                               EmergencyKey(plan.campaignId, EmergencyClose));
      MarkingCalm(c.world, s, Failed, GridStopPlacementFailed(s));
      MarkingCalm(c.world, s, Degraded, GridUnprotectedPosition(s));
      CalmFrom(w, c.world, ProtectAndLadder(v, w, plan, starter).world);
    } else {
      var tp := PlaceExit(v, stop.world, s, plan.direction, plan.takeProfit, TAKE_PROFIT_MARKET,
                          TakeProfitKey(plan.campaignId));
      LadderCalm(v, tp.world, plan, plan.entries[1..], []);
      var l := PlaceLadder(v, tp.world, plan, plan.entries[1..], []);
      MarkingCalm(tp.world, s, Degraded, GridOpenDegraded(s));
      MarkingCalm(l.world, s, Degraded, GridOpenDegraded(s));
      MarkingCalm(l.world, s, Active, NoReason);
      CalmFrom(w, if tp.ok then l.world else tp.world, ProtectAndLadder(v, w, plan, starter).world);
    }
  }

  lemma NeutralOpenFailedCalm(v: Venue, w: World, plan: GridPlan, ids: seq<string>)
    requires Quiet(v)
    ensures Calm(w, NeutralOpenFailed(v, w, plan, ids))
  {
    hide PlaceReduceOnly, Rollback, StoredDirection, Quiet, WithStatus;
  }

  lemma PrepareCalm(w: World, plan: GridPlan)
    ensures Prepare(w.db, plan).Some? ==> Calm(w, w.(db := Prepare(w.db, plan).value))
  {
  }

  lemma OpenCalm(v: Venue, w: World, plan: GridPlan)
    requires Quiet(v)
    ensures Calm(w, OpenCampaign(v, w, plan).world)
  {
    hide StarterPhase, ProtectAndLadder, OpenNeutral, Prepare, Calm, Quiet, Mark;
    var after := OpenCampaign(v, w, plan).world;
    if plan.mode.NEUTRAL_GRID? {
      OpenNeutralCalm(v, w, plan);
    } else if Prepare(w.db, plan).Some? {
      var w0 := w.(db := Prepare(w.db, plan).value);
      PrepareCalm(w, plan);
      var s := StarterPhase(v, w0, plan);
      if s.receipt.None? {
        MarkingCalm(s.world, plan.symbol, Failed, NoReason);
      } else {
        ProtectAndLadderCalm(v, s.world, plan, s.receipt.value);
      }
      CalmFrom(w0, s.world, after);
      CalmChains(w, w0, after);
    } else {
      Still(w);
    }
  }

  lemma Still(w: World)
    ensures Calm(w, w)
  {
  }

  lemma OpenNeutralCalm(v: Venue, w: World, plan: GridPlan)
    requires Quiet(v)
    ensures Calm(w, OpenNeutral(v, w, plan).world)
  {
    hide PlaceLadder, ActivatePosition, NeutralOpenFailed, Calm, Quiet, Mark, OrderIds;
    var after := OpenNeutral(v, w, plan).world;
    if Prepare(w.db, plan).None? {
      Still(w);
    } else {
      var w0 := w.(db := Prepare(w.db, plan).value);
      PrepareCalm(w, plan);
      PreparedRegisters(w.db, plan);
      hide Prepare;
      LadderCalm(v, w0, plan, plan.entries, []);
      var l := PlaceLadder(v, w0, plan, plan.entries, []);
      if !l.ok {
        NeutralOpenFailedCalm(v, l.world, plan, OrderIds(l.placed));
      } else {
        ArmedCalm(v, l.world, plan, OrderIds(l.placed));
      }
      CalmFrom(w0, l.world, after);
      CalmChains(w, w0, after);
    }
  }

  lemma ArmedCalm(v: Venue, w: World, plan: GridPlan, ids: seq<string>)
    requires Quiet(v) && plan.symbol in w.db.campaigns
    ensures plan.symbol in Mark(w, plan.symbol, Active).db.campaigns
    ensures
      var w1 := Mark(w, plan.symbol, Active);
      var a := ActivatePosition(v, w1, w1.db.campaigns[plan.symbol]);
      Calm(w, a.world) && Calm(w, NeutralOpenFailed(v, a.world, plan, ids))
  {
    var w1 := Mark(w, plan.symbol, Active);
    MarkingCalm(w, plan.symbol, Active, NoReason);
    assert plan.symbol in w1.db.campaigns;
    hide NeutralOpenFailed, ActivatePosition, Mark, Calm;
    var a := ActivatePosition(v, w1, w1.db.campaigns[plan.symbol]);
    ActivationCalm(v, w1, w1.db.campaigns[plan.symbol]);
    NeutralOpenFailedCalm(v, a.world, plan, ids);
    CalmChains(w, w1, a.world);
    CalmChains(w, a.world, NeutralOpenFailed(v, a.world, plan, ids));
  }
}
