/** What recovery guarantees when it returns: no exposed campaign without its own STOP and TP. */
module CampaignRecovery {
  import opened Models
  import opened Store
  import opened Adapter
  import opened Campaign
  import opened CampaignCleanup
  import opened CampaignFrame

  /** The symbol's exposure, if any, is covered by its campaign's own STOP and TP in the store. */
  predicate Covered(db: Db, symbol: string) {
    HasActive(db, symbol) && Exposed(db.account.positions, symbol) ==>
      && db.campaigns[symbol].status.Active?
      && SweepableAlgo(db.account.algos, db.campaigns[symbol].stopId)
      && SweepableAlgo(db.account.algos, db.campaigns[symbol].takeProfitId)
  }

  /** A recovered symbol's exposure is covered: by a STOP and a TP the store shows as active. */
  lemma RecoverOneCovers(v: Venue, w: World, symbol: string)
    requires Quiet(v) && RecoverOne(v, w, symbol).ok
    ensures Covered(RecoverOne(v, w, symbol).world.db, symbol)
  {
    hide CleanupIfFlat, RecoverExposedNeutral, Quiet, ActiveCampaign, SweepableAlgo;
    RecoveryCalm(v, w, symbol);
  }

  /** Symbols recovered earlier stay covered while others are recovered. */
  lemma CoverStays(v: Venue, w: World, touched: string, symbol: string)
    requires Quiet(v) && RecoverOne(v, w, touched).ok && Covered(w.db, symbol)
    ensures Covered(RecoverOne(v, w, touched).world.db, symbol)
  {
    RecoverOneCovers(v, w, touched);
    RecoveryCalm(v, w, touched);
    RecoveryTouches(v, w, touched);
    hide RecoverOne, SweepableAlgo, Exposed, Quiet;
  }

  lemma {:induction false} RecoverCovers(v: Venue, w: World, symbols: seq<string>, symbol: string)
    requires Quiet(v) && Recover(v, w, symbols).ok
    requires symbol in symbols || Covered(w.db, symbol)
    ensures Covered(Recover(v, w, symbols).world.db, symbol)
    decreases symbols
  {
    hide RecoverOne, Covered, Quiet;
    if symbols != [] {
      RecoverOneCovers(v, w, symbols[0]);
      if Covered(w.db, symbol) {
        CoverStays(v, w, symbols[0], symbol);
      }
      RecoverCovers(v, RecoverOne(v, w, symbols[0]).world, symbols[1..], symbol);
    }
  }

  ghost predicate AllCovered(db: Db) {
    forall s | s in db.campaigns :: Covered(db, s)
  }

  /** When recovery of every registered symbol returns, no active campaign holds an uncovered position. */
  lemma RecoveryCoversEverySymbol(v: Venue, w: World, symbols: seq<string>)
    requires Quiet(v) && Enumerates(symbols, w.db.campaigns) && Recover(v, w, symbols).ok
    ensures AllCovered(Recover(v, w, symbols).world.db)
  {
    hide Recover, Covered, Quiet, Distinct;
    RecoverCalm(v, w, symbols);
    var after := Recover(v, w, symbols).world;
    forall s | s in after.db.campaigns ensures Covered(after.db, s) {
      RecoverCovers(v, w, symbols, s);
    }
  }

  // ---- An armed campaign found exposed ----

  /** The trigger has the rules it needs and passes at the price of that moment. */
  predicate Passes(v: Venue, symbol: string, d: Direction, kind: ExitKind, trigger: real, moment: nat) {
    && trigger > 0.0 && v.rules(symbol).Some? && v.rules(symbol).value.tick > 0.0 && v.price(moment) > 0.0
    && TriggerSafe(kind, d, RoundDown(trigger, v.rules(symbol).value.tick), v.price(moment), v.guard)
  }

  lemma ValidateExitIff(v: Venue, w: World, symbol: string, d: Direction, trigger: real, kind: ExitKind)
    requires !d.PASS?
    ensures var c := ValidateExit(v, w, symbol, d, trigger, kind);
            && (c.ok <==> Passes(v, symbol, d, kind, trigger, w.tick))
            && (c.ok ==> c.world.tick == w.tick + 1)
  {
  }

  lemma PlaceExitIff(v: Venue, w: World, symbol: string, d: Direction, trigger: real, kind: ExitKind, key: IdKey)
    requires !d.PASS?
    ensures var c := PlaceExit(v, w, symbol, d, trigger, kind, key);
            && (c.ok <==> Passes(v, symbol, d, kind, trigger, w.tick) && v.answer(w.tick + 1).Accepted?)
            && (c.ok ==> c.world.tick == w.tick + 2)
  {
    ValidateExitIff(v, w, symbol, d, trigger, kind);
    hide ValidateExit, Passes;
  }

  /** What the market and the exchange have to grant from moment `t` on: both triggers pass, and pass again when
      they are submitted, both exits are accepted, and none of the `n` cancels after them is refused. */
  ghost predicate Granted(v: Venue, symbol: string, d: Direction, exits: (real, real), t: nat, n: nat) {
    && Passes(v, symbol, d, STOP_MARKET, exits.0, t) && Passes(v, symbol, d, TAKE_PROFIT_MARKET, exits.1, t + 1)
    && Passes(v, symbol, d, STOP_MARKET, exits.0, t + 2) && v.answer(t + 3).Accepted?
    && Passes(v, symbol, d, TAKE_PROFIT_MARKET, exits.1, t + 4) && v.answer(t + 5).Accepted?
    && NoRefusal(v, t + 6, n)
  }

  lemma NeutralStopPhaseIff(v: Venue, w: World, r: CampaignRecord, d: Direction, stop: real, tp: real)
    requires !d.PASS?
    ensures
      var c := NeutralStopPhase(v, w, r, d, stop, tp);
      var t := w.tick;
      && (c.ok <==>
            && Passes(v, r.symbol, d, STOP_MARKET, stop, t)
            && Passes(v, r.symbol, d, TAKE_PROFIT_MARKET, tp, t + 1)
            && Passes(v, r.symbol, d, STOP_MARKET, stop, t + 2) && v.answer(t + 3).Accepted?)
      && (c.ok ==> c.world.tick == t + 4)
  {
    hide ValidateExit, PlaceExit, Passes;
    var c1 := ValidateExit(v, w, r.symbol, d, stop, STOP_MARKET);
    ValidateExitIff(v, w, r.symbol, d, stop, STOP_MARKET);
    if c1.ok {
      var c2 := ValidateExit(v, c1.world, r.symbol, d, tp, TAKE_PROFIT_MARKET);
      ValidateExitIff(v, c1.world, r.symbol, d, tp, TAKE_PROFIT_MARKET);
      if c2.ok {
        PlaceExitIff(v, c2.world, r.symbol, d, stop, STOP_MARKET, StopKey(r.campaignId));
      }
    }
  }

  /** Protection is installed exactly when the campaign has exit prices for the side and all is granted. */
  lemma InstallProtectionIff(v: Venue, w: World, r: CampaignRecord, d: Direction, quantity: real)
    requires r.symbol in w.db.campaigns && w.db.campaigns[r.symbol].mode.NEUTRAL_GRID? && !d.PASS?
    ensures InstallProtection(v, w, r, d, quantity).ok <==>
            && Protection(r, d).Some?
            && Granted(v, r.symbol, d, Protection(r, d).value, w.tick,
                       |OppositeTargets(w.db.account.orders, r.limitIds, d)|)
  {
    hide NeutralStopPhase, PlaceExit, Passes, NoRefusal, OppositeTargets, CancelOpposite, Protection, ProtectionFailed,
      Mark, Stop, ActivateNeutral;
    var p := Protection(r, d);
    if p.Some? {
      var stop := NeutralStopPhase(v, w, r, d, p.value.0, p.value.1);
      NeutralStopPhaseIff(v, w, r, d, p.value.0, p.value.1);
      if stop.ok {
        var tp := PlaceExit(v, stop.world, r.symbol, d, p.value.1, TAKE_PROFIT_MARKET, TakeProfitKey(r.campaignId));
        PlaceExitIff(v, stop.world, r.symbol, d, p.value.1, TAKE_PROFIT_MARKET, TakeProfitKey(r.campaignId));
        CancelOppositeExact(v, tp.world, r.symbol, d, r.limitIds);
      }
    }
  }

  /** Exactly when recovery of an armed neutral campaign that is found exposed returns: its exit prices are there,
      market and exchange grant the protection it installs, and the store lists both exits as active already
      before. */
  lemma ArmedExposureRecoversIff(v: Venue, w: World, symbol: string)
    requires HasActive(w.db, symbol) && Exposed(w.db.account.positions, symbol)
    requires w.db.campaigns[symbol].mode.NEUTRAL_GRID? && !w.db.campaigns[symbol].activated
    ensures
      var r, d := w.db.campaigns[symbol], StoredDirection(w.db.account.positions[symbol]);
      RecoverOne(v, w, symbol).ok <==>
        && Protection(r, d).Some?
        && Granted(v, symbol, d, Protection(r, d).value, w.tick, |OppositeTargets(w.db.account.orders, r.limitIds, d)|)
        && SweepableAlgo(w.db.account.algos, r.stopId) && SweepableAlgo(w.db.account.algos, r.takeProfitId)
  {
    var r, d := w.db.campaigns[symbol], StoredDirection(w.db.account.positions[symbol]);
    InstallProtectionIff(v, w, r, d, w.db.account.positions[symbol].quantity);
    NeutralRecoveryTouches(v, w, symbol);
    hide InstallProtection, Granted, Protection, OppositeTargets, ActiveCampaign, SweepableAlgo;
    assert RecoverExposedNeutral(v, w, symbol)
        == InstallProtection(v, w, r, d, w.db.account.positions[symbol].quantity);
    hide RecoverExposedNeutral;
  }

  /** So it never recovers in one go: an exit that recovery itself submits the store does not list yet. */
  lemma ArmedExposureNeverRecovers(v: Venue, w: World, symbol: string)
    requires HasActive(w.db, symbol) && Exposed(w.db.account.positions, symbol)
    requires w.db.campaigns[symbol].mode.NEUTRAL_GRID? && !w.db.campaigns[symbol].activated
    requires var r, algos := w.db.campaigns[symbol], w.db.account.algos;
             !SweepableAlgo(algos, r.stopId) || !SweepableAlgo(algos, r.takeProfitId)
    ensures !RecoverOne(v, w, symbol).ok
  {
    ArmedExposureRecoversIff(v, w, symbol);
    hide RecoverOne, Granted, SweepableAlgo;
  }
}
