/** Runs of the executor: openings, cleanups, recoveries and stream updates in any order. */
module CampaignRuns {
  import opened Models
  import opened Store
  import opened Grid
  import opened Adapter
  import opened Campaign
  import opened CampaignExchange
  import opened CampaignFrame
  import opened CampaignInvariant
  import opened CampaignOpening
  import opened NeutralOpening

  // ---- Opening keeps the records sound ----

  lemma PreparedOwned(w: World, plan: GridPlan)
    requires Prepare(w.db, plan).Some?
    ensures Owned(w.(db := Prepare(w.db, plan).value), plan.symbol)
  {
  }

  lemma MarkStopCommute(w: World, symbol: string, status: CampaignStatus, reason: HaltReason)
    ensures Mark(Stop(w, reason), symbol, status) == Stop(Mark(w, symbol, status), reason)
  {
  }

  lemma UnprotectedStarterSound(v: Venue, w: World, w1: World, plan: GridPlan, quantity: real)
    requires Owned(w, plan.symbol) && Quieter(w, w1)
    ensures Sound(w, plan.symbol, UnprotectedStarter(v, w1, plan, quantity), false)
  {
    hide PlaceReduceOnly, Sound, RecordKeyed, Mark, Stop;
    var c := PlaceReduceOnly(v, w1, plan.symbol, plan.direction, quantity,
                             EmergencyKey(plan.campaignId, EmergencyClose));
    HaltingSound(w, c.world, plan.symbol, Failed, GridStopPlacementFailed(plan.symbol));
    HaltingSound(w, c.world, plan.symbol, Degraded, GridUnprotectedPosition(plan.symbol));
    MarkStopCommute(c.world, plan.symbol, Degraded, GridUnprotectedPosition(plan.symbol));
  }

  lemma ProtectAndLadderSound(v: Venue, w: World, w1: World, plan: GridPlan, starter: Receipt)
    requires Owned(w, plan.symbol) && Quieter(w, w1) && plan.entries != []
             && w.db.campaigns[plan.symbol].campaignId == plan.campaignId
    ensures Sound(w, plan.symbol, ProtectAndLadder(v, w1, plan, starter).world,
                  ProtectAndLadder(v, w1, plan, starter).outcome.Opened?)
  {
    hide PlaceExit, UnprotectedStarter, PlaceLadder, ReceiptFor, OrdersFor, IdsOf, Sound, Mark, Stop;
    var stop := PlaceExit(v, w1, plan.symbol, plan.direction, plan.invalidation, STOP_MARKET, StopKey(plan.campaignId));
    if !stop.ok {
      UnprotectedStarterSound(v, w, stop.world, plan, starter.quantity);
    } else {
      var tp := PlaceExit(v, stop.world, plan.symbol, plan.direction, plan.takeProfit, TAKE_PROFIT_MARKET,
                          TakeProfitKey(plan.campaignId));
      HaltingSound(w, tp.world, plan.symbol, Degraded, GridOpenDegraded(plan.symbol));
      if tp.ok {
        LadderPlaces(v, tp.world, plan, plan.entries[1..], []);
        var l := PlaceLadder(v, tp.world, plan, plan.entries[1..], []);
        HaltingSound(w, l.world, plan.symbol, Degraded, GridOpenDegraded(plan.symbol));
        MarkingSound(w, l.world, plan.symbol, Active);
      }
    }
  }

  lemma NeutralOpenFailedSound(v: Venue, w: World, plan: GridPlan, ids: seq<string>)
    requires Owned(w, plan.symbol)
    ensures Sound(w, plan.symbol, NeutralOpenFailed(v, w, plan, ids), false)
  {
    hide PlaceReduceOnly, Rollback, StoredDirection, Sound, RecordKeyed, Mark, Stop;
    var s := plan.symbol;
    if !Exposed(w.db.account.positions, s) {
      var rolled := Rollback(v, w, s, ids);
      HaltingSound(w, rolled.world, s, Degraded, NeutralPartialOpenCleanupFailed(s));
      MarkStopCommute(rolled.world, s, Degraded, NeutralPartialOpenCleanupFailed(s));
      MarkFailedSound(w, rolled.world, s);
    } else {
      var position := w.db.account.positions[s];
      var c := PlaceReduceOnly(v, w, s, StoredDirection(position), position.quantity,
                               EmergencyKey(plan.campaignId, NeutralOpenEmergencyClose));
      HaltingSound(w, c.world, s, Degraded, NeutralUnprotectedPosition(s));
      HaltingSound(w, c.world, s, Failed, NeutralPartialFillDuringOpen(s));
    }
  }

  lemma MarkFailedSound(w: World, w1: World, symbol: string)
    requires Owned(w, symbol) && Quieter(w, w1)
    ensures Sound(w, symbol, Mark(w1, symbol, Failed), false)
  {
    MarkingSound(w, w1, symbol, Failed);
    hide Mark;
  }

  lemma OpenNeutralSound(v: Venue, w: World, plan: GridPlan)
    requires Prepare(w.db, plan).Some? && plan.mode.NEUTRAL_GRID?
    ensures Sound(w.(db := Prepare(w.db, plan).value), plan.symbol, OpenNeutral(v, w, plan).world,
                  OpenNeutral(v, w, plan).outcome.Opened?)
  {
    hide PlaceLadder, ActivatePosition, NeutralOpenFailed, OrderIds, ReceiptFor, OrdersFor, IdsOf, Sound, Mark;
    var s, w0 := plan.symbol, w.(db := Prepare(w.db, plan).value);
    PreparedOwned(w, plan);
    PreparedIsOpening(plan);
    LadderPlaces(v, w0, plan, plan.entries, []);
    var l := PlaceLadder(v, w0, plan, plan.entries, []);
    if !l.ok {
      OwnedKept(w0, l.world, s);
      NeutralOpenFailedSound(v, l.world, plan, OrderIds(l.placed));
      SoundFrom(w0, l.world, NeutralOpenFailed(v, l.world, plan, OrderIds(l.placed)), s, false);
    } else {
      var w1 := Mark(l.world, s, Active);
      MarkingSound(w0, l.world, s, Active);
      SoundRegisters(w0, w1, s, true);
      var a := ActivatePosition(v, w1, w1.db.campaigns[s]);
      KeysKept(w0, w1, s);
      ActivatePositionSound(v, w1, w1.db.campaigns[s]);
      SoundChains(w0, w1, a.world, s, a.ok);
      if !a.ok {
        SoundRegisters(w1, a.world, s, false);
        NeutralOpenFailedSound(v, a.world, plan, OrderIds(l.placed));
        FailureChains(w0, a.world, NeutralOpenFailed(v, a.world, plan, OrderIds(l.placed)), s);
      }
    }
  }

  lemma KeysKept(w: World, after: World, symbol: string)
    requires Sound(w, symbol, after, true)
    ensures symbol in after.db.campaigns && after.db.campaigns[symbol].symbol == symbol
  {
  }

  lemma OwnedKept(w: World, after: World, symbol: string)
    requires Owned(w, symbol) && Quieter(w, after)
    ensures Owned(after, symbol)
  {
  }

  lemma SoundFrom(w: World, mid: World, after: World, symbol: string, ok: bool)
    requires Quieter(w, mid) && Sound(mid, symbol, after, ok)
    ensures Sound(w, symbol, after, ok)
  {
  }

  lemma SoundRegisters(w: World, after: World, symbol: string, ok: bool)
    requires Sound(w, symbol, after, ok)
    ensures Registered(after, symbol) && Owned(after, symbol)
  {
  }

  lemma FailureChains(w: World, mid: World, after: World, symbol: string)
    requires Sound(w, symbol, mid, false) && Sound(mid, symbol, after, false)
    ensures Sound(w, symbol, after, false)
  {
    ProgressChains(w, mid, after, symbol);
  }

  lemma OpenDirectionalSound(v: Venue, w: World, plan: GridPlan)
    requires Prepare(w.db, plan).Some? && !plan.mode.NEUTRAL_GRID?
    ensures Sound(w.(db := Prepare(w.db, plan).value), plan.symbol, OpenDirectional(v, w, plan).world,
                  OpenDirectional(v, w, plan).outcome.Opened?)
  {
    hide StarterPhase, ProtectAndLadder, QuantityFor, Sound, Mark;
    var w0 := w.(db := Prepare(w.db, plan).value);
    PreparedOwned(w, plan);
    var s := StarterPhase(v, w0, plan);
    if s.receipt.None? {
      MarkFailedSound(w0, s.world, plan.symbol);
    } else {
      ProtectAndLadderSound(v, w0, s.world, plan, s.receipt.value);
    }
  }

  lemma RecordsAfterOpen(w: World, plan: GridPlan, after: World, ok: bool)
    requires RecordsOk(w) && Prepare(w.db, plan).Some?
    requires Sound(w.(db := Prepare(w.db, plan).value), plan.symbol, after, ok)
    ensures RecordsOk(after)
  {
    hide SameCampaign, RecordFor;
    forall s | s in after.db.campaigns ensures RecordOk(after.db.halted, after.ex.accepted, after.db.campaigns[s]) {
      if s != plan.symbol {
        assert s in w.db.campaigns && after.db.campaigns[s] == w.db.campaigns[s];
        assert RecordOk(w.db.halted, w.ex.accepted, w.db.campaigns[s]);
      }
    }
  }

  lemma OpenKeepsRecords(v: Venue, w: World, plan: GridPlan)
    requires RecordsOk(w)
    ensures RecordsOk(OpenCampaign(v, w, plan).world)
  {
    if Prepare(w.db, plan).Some? {
      hide OpenNeutral, OpenDirectional, Sound, RecordsOk, Prepare;
      var o := OpenCampaign(v, w, plan);
      if plan.mode.NEUTRAL_GRID? {
        OpenNeutralSound(v, w, plan);
      } else {
        OpenDirectionalSound(v, w, plan);
      }
      RecordsAfterOpen(w, plan, o.world, o.outcome.Opened?);
    } else {
      hide RecordsOk;
    }
  }

  lemma CleanupKeepsRecords(v: Venue, w: World, symbol: string)
    requires RecordsOk(w)
    ensures RecordsOk(CleanupIfFlat(v, w, symbol).world)
  {
    if HasActive(w.db, symbol) {
      assert Registered(w, symbol);
      CleanupSound(v, w, symbol);
      hide CleanupIfFlat, Progress, SameCampaign, RecordKeyed;
      RecordsAfter(w, CleanupIfFlat(v, w, symbol).world, symbol);
    }
  }

  // ---- Recovery, halted or not ----

  /** What the store lists for a degraded directional campaign the exchange has accepted from the engine. */
  predicate Vouched(w: World, symbol: string) {
    symbol in w.db.campaigns
    && !w.db.campaigns[symbol].mode.NEUTRAL_GRID? && w.db.campaigns[symbol].status.Degraded? ==>
      var r := w.db.campaigns[symbol];
      SweepableAlgo(w.db.account.algos, r.stopId) && SweepableAlgo(w.db.account.algos, r.takeProfitId) ==>
        r.stopId in w.ex.accepted && r.takeProfitId in w.ex.accepted
  }

  ghost predicate Honest(w: World) {
    forall s | s in w.db.campaigns :: Vouched(w, s)
  }

  /** Nothing is degraded while execution is not halted. */
  lemma UnhaltedIsHonest(w: World)
    requires RecordsOk(w) && !w.db.halted
    ensures Honest(w)
  {
    hide RecordKeyed, SweepableAlgo;
    forall s | s in w.db.campaigns ensures Vouched(w, s) {
      assert RecordOk(w.db.halted, w.ex.accepted, w.db.campaigns[s]);
    }
  }

  lemma VouchedRecovers(v: Venue, w: World, symbol: string)
    requires Registered(w, symbol) && Vouched(w, symbol)
    ensures Sound(w, symbol, RecoverOne(v, w, symbol).world, RecoverOne(v, w, symbol).ok)
    ensures Vouched(RecoverOne(v, w, symbol).world, symbol)
  {
    RecoverOneSound(v, w, symbol);
    hide RecoverOne, SweepableAlgo, Exposed;
  }

  lemma OthersStayVouched(w: World, after: World, touched: string, symbol: string)
    requires Progress(w, after, touched) && Tidy(w, after) && symbol != touched && Vouched(w, symbol)
    ensures Vouched(after, symbol)
  {
    hide SweepableAlgo, SameCampaign;
  }

  lemma RecoverOneKeepsRecords(v: Venue, w: World, symbol: string)
    requires RecordsOk(w) && Honest(w)
    ensures RecordsOk(RecoverOne(v, w, symbol).world) && Honest(RecoverOne(v, w, symbol).world)
  {
    var after := RecoverOne(v, w, symbol).world;
    if symbol in w.db.campaigns {
      assert Registered(w, symbol) && Vouched(w, symbol);
      VouchedRecovers(v, w, symbol);
      hide RecoverOne, SameCampaign, RecordKeyed, Vouched, Tidy;
      RecordsAfter(w, after, symbol);
      forall s | s in after.db.campaigns ensures Vouched(after, s) {
        if s != symbol {
          OthersStayVouched(w, after, symbol, s);
        }
      }
    }
  }

  lemma {:induction false} RecoverKeepsRecords(v: Venue, w: World, symbols: seq<string>)
    requires RecordsOk(w) && Honest(w)
    ensures RecordsOk(Recover(v, w, symbols).world)
    decreases symbols
  {
    hide RecoverOne, RecordsOk, Honest;
    if symbols != [] {
      var s := RecoverOne(v, w, symbols[0]);
      RecoverOneKeepsRecords(v, w, symbols[0]);
      if s.ok {
        RecoverKeepsRecords(v, s.world, symbols[1..]);
      }
    }
  }

  /** Recovering a symbol of a sound store leaves it sound exactly when it revives no campaign there. */
  lemma RecoverOneKeepsRecordsIff(v: Venue, w: World, symbol: string)
    requires RecordsOk(w)
    ensures RecordsOk(RecoverOne(v, w, symbol).world) <==> !Revives(w, symbol)
  {
    if symbol in w.db.campaigns {
      assert Registered(w, symbol);
      RecoverOneSoundIff(v, w, symbol);
      if !Revives(w, symbol) {
        RecoverOneSound(v, w, symbol);
        hide RecoverOne, SameCampaign, RecordKeyed, Revives;
        RecordsAfter(w, RecoverOne(v, w, symbol).world, symbol);
      }
    }
  }

  /** A halted store can hold such a campaign: opening degraded it for want of an accepted target, and the stream
      lists one under its id all the same. */
  lemma RevivalHappens(v: Venue) returns (w: World, symbol: string)
    ensures RecordsOk(w) && w.db.halted && Revives(w, symbol)
    ensures !RecordsOk(RecoverOne(v, w, symbol).world)
  {
    hide RecoverOne;
    symbol := "BTCUSDT";
    var id := CampaignId(symbol, LONG_GRID, BREAKOUT_ACCEPTANCE, 0);
    var stop, target := SgId(StopKey(id)), SgId(TakeProfitKey(id));
    var r := CampaignRecord(id, symbol, LONG, Degraded, 100.0, 60.0, 1, 10.0, 90.0, 110.0, SgId(StarterKey(id)), [],
                            stop, target, LONG_GRID, true, 0, None, None, None, None);
    var row := StoredAlgoOrder(stop, "1", symbol, SELL, NEW, "CONDITIONAL", "STOP_MARKET", 90.0, 0.0, true, false,
                               "", 0);
    var algos: AlgoTable := map[stop := row, target := row.(clientAlgoId := target, algoId := "2")];
    var account := Account(map[], algos, map[symbol := StoredPosition(symbol, LONG, 1.0, 100.0, 100.0, 0)], {});
    w := World(Db(account, map[symbol := r], true, GridOpenDegraded(symbol), false, UNSET),
               Exchange({}, map[], {stop}, [], {}), 0);
    RecoverOneKeepsRecordsIff(v, w, symbol);
  }

  // ---- Moves ----

  /** One step of a run. A stream step may replace what the stream owns and what happens on the exchange. */
  datatype Move =
    | OpenMove(plan: GridPlan)
    | CleanupMove(symbol: string)
    | RecoverMove(symbols: seq<string>)
    | StreamMove(db: Db, ex: Exchange)

  /** What a run keeps: sound records, and ids of the exchange in order. */
  ghost predicate Safe(v: Venue, w: World) {
    RecordsOk(w) && ExchangeSafe(v, w)
  }

  /** Streams neither touch campaigns nor lift a halt; what was accepted or issued once stays so, and the
      exchange goes on naming its orders apart. */
  ghost predicate Admissible(v: Venue, w: World, db: Db, ex: Exchange) {
    && db.campaigns == w.db.campaigns && (w.db.halted ==> db.halted)
    && w.ex.accepted <= ex.accepted && w.ex.issued <= ex.issued
    && ExchangeSafe(v, World(db, ex, w.tick))
  }

  ghost function After(v: Venue, w: World, m: Move): World {
    match m
    case OpenMove(plan) => OpenCampaign(v, w, plan).world
    case CleanupMove(symbol) => CleanupIfFlat(v, w, symbol).world
    case RecoverMove(symbols) => Recover(v, w, symbols).world
    case StreamMove(db, ex) => if Admissible(v, w, db, ex) then World(db, ex, w.tick) else w
  }

  ghost function AfterAll(v: Venue, w: World, moves: seq<Move>): World {
    if moves == [] then w else After(v, AfterAll(v, w, moves[..|moves| - 1]), moves[|moves| - 1])
  }

  /** Recovery is only ever run on a store that vouches for its degraded campaigns, as any un-halted one does. */
  ghost predicate Fair(v: Venue, w: World, moves: seq<Move>) {
    forall k | 0 <= k < |moves| && moves[k].RecoverMove? :: Honest(AfterAll(v, w, moves[..k]))
  }

  lemma StreamKeepsRecords(v: Venue, w: World, db: Db, ex: Exchange)
    requires RecordsOk(w) && Admissible(v, w, db, ex)
    ensures RecordsOk(World(db, ex, w.tick))
  {
    forall s | s in db.campaigns ensures RecordOk(db.halted, ex.accepted, db.campaigns[s]) {
      assert RecordOk(w.db.halted, w.ex.accepted, w.db.campaigns[s]);
    }
  }

  lemma MoveKeepsRecords(v: Venue, w: World, m: Move)
    requires RecordsOk(w) && (m.RecoverMove? ==> Honest(w))
    ensures RecordsOk(After(v, w, m))
  {
    hide RecordsOk, OpenCampaign, CleanupIfFlat, Recover, Honest, Admissible;
    match m
    case OpenMove(plan) => OpenKeepsRecords(v, w, plan);
    case CleanupMove(symbol) => CleanupKeepsRecords(v, w, symbol);
    case RecoverMove(symbols) => RecoverKeepsRecords(v, w, symbols);
    case StreamMove(db, ex) => if Admissible(v, w, db, ex) { StreamKeepsRecords(v, w, db, ex); }
  }

  /** No step of the executor spoils the ids; a stream step is only taken if it does not. */
  lemma MoveKeepsExchange(v: Venue, w: World, m: Move)
    requires UniqueIds(v) && ExchangeSafe(v, w)
    ensures ExchangeSafe(v, After(v, w, m))
  {
    hide OpenCampaign, CleanupIfFlat, Recover, ExchangeSafe, UniqueIds, Advances, Tidy;
    match m
    case OpenMove(plan) => OpenAdvances(v, w, plan); AdvancingIsSafe(v, w, After(v, w, m));
    case CleanupMove(symbol) => TidyAdvances(v, w, After(v, w, m)); AdvancingIsSafe(v, w, After(v, w, m));
    case RecoverMove(symbols) => TidyAdvances(v, w, After(v, w, m)); AdvancingIsSafe(v, w, After(v, w, m));
    case StreamMove(db, ex) =>
  }

  lemma {:induction false} RunsKeepExchange(v: Venue, w: World, moves: seq<Move>)
    requires UniqueIds(v) && ExchangeSafe(v, w)
    ensures ExchangeSafe(v, AfterAll(v, w, moves))
  {
    hide ExchangeSafe, After, UniqueIds;
    if moves != [] {
      RunsKeepExchange(v, w, moves[..|moves| - 1]);
      MoveKeepsExchange(v, AfterAll(v, w, moves[..|moves| - 1]), moves[|moves| - 1]);
    }
  }

  /** So a neutral opening is all or nothing, or halts, wherever in a run it comes. */
  lemma EveryNeutralOpeningIsAtomic(v: Venue, w: World, moves: seq<Move>, plan: GridPlan)
    returns (mid: World, at: World, rs: seq<Receipt>)
    requires UniqueIds(v) && w.ex.resting == {} && w.ex.issued == {} && plan.mode.NEUTRAL_GRID?
    ensures NeutralOutcome(v, AfterAll(v, w, moves), plan, OpenCampaign(v, AfterAll(v, w, moves), plan), mid, at, rs)
  {
    RunsKeepExchange(v, w, moves);
    hide AfterAll, NeutralOutcome, OpenCampaign, ExchangeSafe;
    mid, at, rs := OpenNeutralAtomic(v, AfterAll(v, w, moves), plan);
  }

  lemma MoveKeepsSafe(v: Venue, w: World, m: Move)
    requires UniqueIds(v) && Safe(v, w) && (m.RecoverMove? ==> Honest(w))
    ensures Safe(v, After(v, w, m))
  {
    hide After, RecordsOk, ExchangeSafe, UniqueIds, Honest;
    MoveKeepsRecords(v, w, m);
    MoveKeepsExchange(v, w, m);
  }

  /** After every run: no campaign is left half-opened, a degraded one means execution is halted, every active
      directional and every activated neutral campaign has had both its exits accepted, and every named order
      rests under an issued id that no later answer repeats. */
  lemma {:induction false} RunsStaySafe(v: Venue, w: World, moves: seq<Move>)
    requires UniqueIds(v) && Safe(v, w) && Fair(v, w, moves)
    ensures Safe(v, AfterAll(v, w, moves))
  {
    hide Safe, After, UniqueIds, Honest;
    if moves != [] {
      var front := moves[..|moves| - 1];
      assert forall k | 0 <= k < |front| :: front[..k] == moves[..k];
      RunsStaySafe(v, w, front);
      MoveKeepsSafe(v, AfterAll(v, w, front), moves[|moves| - 1]);
    }
  }

  /** A fresh store and exchange are safe. */
  lemma FreshIsSafe(v: Venue, w: World)
    requires w.db == EMPTY_DB && w.ex.resting == {} && w.ex.issued == {}
    ensures Safe(v, w) && Honest(w)
  {
  }

  // ---- Ownership of a symbol ----

  /** The symbol's campaign is still the same one. */
  ghost predicate Continues(w: World, after: World, symbol: string) {
    symbol in w.db.campaigns ==>
      symbol in after.db.campaigns && SameCampaign(w.db.campaigns[symbol], after.db.campaigns[symbol])
  }

  lemma TouchingContinues(w: World, after: World, touched: string, symbol: string)
    requires OnlyTouches(w, after, touched)
    ensures Continues(w, after, symbol)
  {
  }

  lemma ProgressContinues(w: World, after: World, touched: string, symbol: string)
    requires Progress(w, after, touched)
    ensures Continues(w, after, symbol)
  {
  }

  lemma ContinuesChains(a: World, b: World, c: World, symbol: string)
    requires Continues(a, b, symbol) && Continues(b, c, symbol)
    ensures Continues(a, c, symbol)
  {
  }

  lemma {:induction false} RecoverContinues(v: Venue, w: World, symbols: seq<string>, symbol: string)
    ensures Continues(w, Recover(v, w, symbols).world, symbol)
    decreases symbols
  {
    hide RecoverOne, Continues, OnlyTouches;
    if symbols == [] {
      Stays(w, symbol);
    } else {
      var s := RecoverOne(v, w, symbols[0]);
      RecoveryTouches(v, w, symbols[0]);
      TouchingContinues(w, s.world, symbols[0], symbol);
      RecoverContinues(v, s.world, symbols[1..], symbol);
      ContinuesChains(w, s.world, Recover(v, s.world, symbols[1..]).world, symbol);
    }
  }

  lemma Stays(w: World, symbol: string)
    ensures Continues(w, w, symbol)
  {
  }

  lemma CleanupContinues(v: Venue, w: World, touched: string, symbol: string)
    ensures Continues(w, CleanupIfFlat(v, w, touched).world, symbol)
  {
    CleanupTouches(v, w, touched);
    hide CleanupIfFlat;
    TouchingContinues(w, CleanupIfFlat(v, w, touched).world, touched, symbol);
  }

  /** A new campaign takes a symbol only while no campaign is active there. */
  lemma OpenContinues(v: Venue, w: World, plan: GridPlan, symbol: string)
    requires HasActive(w.db, symbol)
    ensures Continues(w, OpenCampaign(v, w, plan).world, symbol)
  {
    hide SameCampaign, OpenNeutral, OpenDirectional;
    if plan.symbol != symbol && Prepare(w.db, plan).Some? {
      var w0 := w.(db := Prepare(w.db, plan).value);
      if plan.mode.NEUTRAL_GRID? {
        OpenNeutralSound(v, w, plan);
      } else {
        OpenDirectionalSound(v, w, plan);
      }
      hide HasActive, RecordKeyed, RecordFor;
      ProgressContinues(w0, OpenCampaign(v, w, plan).world, plan.symbol, symbol);
    } else {
      AlreadyOwned(v, w, plan);
      Stays(w, symbol);
    }
  }

  lemma AlreadyOwned(v: Venue, w: World, plan: GridPlan)
    requires HasActive(w.db, plan.symbol)
    ensures OpenCampaign(v, w, plan) == Attempt(w, AlreadyActive)
  {
  }

  /** No step replaces the campaign of a symbol while it is active. */
  lemma ActiveNeverOverwritten(v: Venue, w: World, m: Move, symbol: string)
    requires HasActive(w.db, symbol)
    ensures Continues(w, After(v, w, m), symbol)
  {
    hide OpenCampaign, CleanupIfFlat, Recover, Continues, HasActive;
    match m
    case OpenMove(plan) => OpenContinues(v, w, plan, symbol);
    case CleanupMove(touched) => CleanupContinues(v, w, touched, symbol);
    case RecoverMove(symbols) => RecoverContinues(v, w, symbols, symbol);
    case StreamMove(db, ex) => StreamContinues(v, w, db, ex, symbol);
  }

  lemma StreamContinues(v: Venue, w: World, db: Db, ex: Exchange, symbol: string)
    ensures Continues(w, After(v, w, StreamMove(db, ex)), symbol)
  {
    hide ExchangeSafe;
  }

  /** So a run that ends with another campaign on the symbol passed through a state with none active there. */
  lemma {:induction false} OverwriteNeedsInactivity(v: Venue, w: World, moves: seq<Move>, symbol: string)
    requires symbol in w.db.campaigns
    requires forall k | 0 <= k <= |moves| :: HasActive(AfterAll(v, w, moves[..k]).db, symbol)
    ensures Continues(w, AfterAll(v, w, moves), symbol)
  {
    hide After, Continues, HasActive;
    if moves == [] {
      Stays(w, symbol);
    } else {
      var front := moves[..|moves| - 1];
      forall k | 0 <= k <= |front| ensures HasActive(AfterAll(v, w, front[..k]).db, symbol) {
        assert front[..k] == moves[..k];
      }
      assert front[..|front|] == front;
      OverwriteNeedsInactivity(v, w, front, symbol);
      ActiveNeverOverwritten(v, AfterAll(v, w, front), moves[|moves| - 1], symbol);
      ContinuesChains(w, AfterAll(v, w, front), AfterAll(v, w, moves), symbol);
    }
  }
}
