/** Recovery, cleanup and the cancelling of one side in terms of stored statuses, sides and quantities. */
module CampaignStatuses {
  import opened Models
  import opened Store
  import opened Adapter
  import opened Campaign
  import opened CampaignInvariant
  import opened CampaignCleanup
  import opened CampaignFrame
  import opened CampaignRecovery

  /** The store shows the exit as one the exchange still works. */
  predicate LiveExit(algos: AlgoTable, id: ClientId) {
    id in algos && algos[id].status in {NEW, WORKING, PENDING}
  }

  /** The resting order is stored under one of the ids, and as one that is still open. */
  ghost predicate OpenLimit(orders: OrderTable, ids: seq<ClientId>, o: RestingOrder) {
    && o.orderId != ""
    && exists id :: id in ids && id in orders && orders[id].exchangeOrderId == o.orderId
         && orders[id].status in {NEW, PARTIALLY_FILLED, PENDING_CANCEL}
  }

  /** As above, and on a side other than the given one. */
  ghost predicate OpenLimitOff(orders: OrderTable, ids: seq<ClientId>, keep: Side, o: RestingOrder) {
    && o.orderId != ""
    && exists id :: id in ids && id in orders && orders[id].exchangeOrderId == o.orderId
         && orders[id].status in {NEW, PARTIALLY_FILLED, PENDING_CANCEL} && orders[id].side != keep
  }

  lemma StatusesMean(orders: OrderTable, algos: AlgoTable, id: ClientId, d: Direction)
    ensures SweepableAlgo(algos, id) <==> LiveExit(algos, id)
    ensures SweepableOrder(orders, id) <==>
              && id in orders && orders[id].exchangeOrderId != ""
              && orders[id].status in {NEW, PARTIALLY_FILLED, PENDING_CANCEL}
    ensures CancelableOpposite(orders, id, d) <==>
              && id in orders && orders[id].exchangeOrderId != ""
              && orders[id].status in {NEW, PARTIALLY_FILLED, PENDING_CANCEL}
              && orders[id].side != if d.LONG? then BUY else SELL
  {
  }

  // ---- Recovery ----

  /** An open campaign with a stored position of some size. */
  predicate Holding(db: Db, symbol: string) {
    && symbol in db.campaigns && db.campaigns[symbol].status in {Opening, Active, Degraded}
    && symbol in db.account.positions && db.account.positions[symbol].quantity != 0.0
  }

  lemma HoldingMeans(db: Db, symbol: string)
    ensures Holding(db, symbol) <==> HasActive(db, symbol) && Exposed(db.account.positions, symbol)
  {
  }

  /** When recovery of all symbols returns, every open campaign with a position is ACTIVE and both its exits are
      stored as NEW, WORKING or PENDING. */
  lemma RecoveredExposureIsProtected(v: Venue, w: World, symbols: seq<string>)
    requires Quiet(v) && Enumerates(symbols, w.db.campaigns) && Recover(v, w, symbols).ok
    ensures
      var db := Recover(v, w, symbols).world.db;
      forall s | Holding(db, s) ::
        && db.campaigns[s].status.Active?
        && LiveExit(db.account.algos, db.campaigns[s].stopId)
        && LiveExit(db.account.algos, db.campaigns[s].takeProfitId)
  {
    RecoveryCoversEverySymbol(v, w, symbols);
    var db := Recover(v, w, symbols).world.db;
    hide Recover, Enumerates, Quiet;
    forall s | Holding(db, s)
      ensures
        && db.campaigns[s].status.Active?
        && LiveExit(db.account.algos, db.campaigns[s].stopId)
        && LiveExit(db.account.algos, db.campaigns[s].takeProfitId)
    {
      CoverMeans(db, s);
    }
  }

  lemma CoverMeans(db: Db, s: string)
    requires Covered(db, s) && Holding(db, s)
    ensures db.campaigns[s].status.Active?
    ensures LiveExit(db.account.algos, db.campaigns[s].stopId)
    ensures LiveExit(db.account.algos, db.campaigns[s].takeProfitId)
  {
  }

  /** A one-sided campaign with a position recovers exactly when both its exits are live in the store; otherwise it
      is degraded and execution halts, for the stop first. */
  lemma OneSidedRecoversIff(v: Venue, w: World, symbol: string)
    requires Holding(w.db, symbol) && !w.db.campaigns[symbol].mode.NEUTRAL_GRID?
    ensures
      var r, algos, s := w.db.campaigns[symbol], w.db.account.algos, RecoverOne(v, w, symbol);
      && (s.ok <==> LiveExit(algos, r.stopId) && LiveExit(algos, r.takeProfitId))
      && s.world.ex == w.ex && s.world.db.account == w.db.account
      && s.world.db.campaigns == w.db.campaigns[symbol := r.(status := if s.ok then Active else Degraded)]
      && (s.ok ==> s.world.db.halted == w.db.halted && s.world.db.ready == w.db.ready)
      && (!s.ok ==>
            && s.world.db.halted && !s.world.db.ready
            && s.world.db.haltReason == if !LiveExit(algos, r.stopId) then GridRecoveryMissingStop(symbol)
                                        else GridRecoveryMissingTp(symbol))
  {
    StatusesMean(w.db.account.orders, w.db.account.algos, w.db.campaigns[symbol].stopId, LONG);
    StatusesMean(w.db.account.orders, w.db.account.algos, w.db.campaigns[symbol].takeProfitId, LONG);
    hide SweepableAlgo, LiveExit, CleanupIfFlat;
  }

  /** An activated neutral campaign with a position recovers exactly when the position is on its side, no cancel
      of the other side is refused, and both its exits are live in the store. */
  lemma ActivatedNeutralRecoversIff(v: Venue, w: World, symbol: string)
    requires Holding(w.db, symbol)
    requires w.db.campaigns[symbol].mode.NEUTRAL_GRID? && w.db.campaigns[symbol].activated
    ensures
      var r, account := w.db.campaigns[symbol], w.db.account;
      var d := if account.positions[symbol].direction.LONG? then LONG else SHORT;
      var s := RecoverOne(v, w, symbol);
      && (s.ok <==>
            && r.direction == d
            && (forall i | w.tick <= i < w.tick + |OppositeTargets(account.orders, r.limitIds, d)| ::
                  !v.answer(i).Refused?)
            && LiveExit(account.algos, r.stopId) && LiveExit(account.algos, r.takeProfitId))
      && (s.ok ==> s.world.db.campaigns == w.db.campaigns[symbol := r.(status := Active)])
      && (r.direction != d ==> s.world.db.halted && s.world.db.haltReason == NeutralDirectionFlip(symbol))
  {
    var r, account := w.db.campaigns[symbol], w.db.account;
    StatusesMean(account.orders, account.algos, r.stopId, LONG);
    StatusesMean(account.orders, account.algos, r.takeProfitId, LONG);
    CancelOppositeExact(v, w, symbol, r.direction, r.limitIds);
    hide SweepableAlgo, LiveExit, CleanupIfFlat, CancelOpposite, OppositeTargets, ActivatePosition, Swept;
  }

  /** An armed neutral campaign found with a position recovers only if both its exits were live before. */
  lemma ArmedNeedsLiveExits(v: Venue, w: World, symbol: string)
    requires Holding(w.db, symbol)
    requires w.db.campaigns[symbol].mode.NEUTRAL_GRID? && !w.db.campaigns[symbol].activated
    ensures RecoverOne(v, w, symbol).ok ==>
              && LiveExit(w.db.account.algos, w.db.campaigns[symbol].stopId)
              && LiveExit(w.db.account.algos, w.db.campaigns[symbol].takeProfitId)
  {
    var r := w.db.campaigns[symbol];
    StatusesMean(w.db.account.orders, w.db.account.algos, r.stopId, LONG);
    StatusesMean(w.db.account.orders, w.db.account.algos, r.takeProfitId, LONG);
    HoldingMeans(w.db, symbol);
    hide SweepableAlgo, LiveExit, RecoverOne, Holding;
    ArmedExposureRecoversIff(v, w, symbol);
  }

  /** So no campaign with a position recovers while one of its exits is missing or not live. */
  lemma MissingExitFails(v: Venue, w: World, symbol: string)
    requires Holding(w.db, symbol)
    requires !LiveExit(w.db.account.algos, w.db.campaigns[symbol].stopId)
             || !LiveExit(w.db.account.algos, w.db.campaigns[symbol].takeProfitId)
    ensures !RecoverOne(v, w, symbol).ok
  {
    hide RecoverOne, LiveExit;
    if !w.db.campaigns[symbol].mode.NEUTRAL_GRID? {
      OneSidedRecoversIff(v, w, symbol);
    } else if w.db.campaigns[symbol].activated {
      ActivatedNeutralRecoversIff(v, w, symbol);
    } else {
      ArmedNeedsLiveExits(v, w, symbol);
    }
  }

  /** And no recovery that visits it returns, whatever is recovered before it. */
  lemma {:induction false} MissingExitStopsRecovery(v: Venue, w: World, symbols: seq<string>, symbol: string)
    requires Quiet(v) && symbol in symbols && Holding(w.db, symbol)
    requires !LiveExit(w.db.account.algos, w.db.campaigns[symbol].stopId)
             || !LiveExit(w.db.account.algos, w.db.campaigns[symbol].takeProfitId)
    ensures !Recover(v, w, symbols).ok
    decreases symbols
  {
    hide RecoverOne, LiveExit, Quiet;
    if symbols[0] == symbol {
      MissingExitFails(v, w, symbol);
    } else if RecoverOne(v, w, symbols[0]).ok {
      RecoveryTouches(v, w, symbols[0]);
      RecoveryCalm(v, w, symbols[0]);
      MissingExitStopsRecovery(v, RecoverOne(v, w, symbols[0]).world, symbols[1..], symbol);
    }
  }

  /** Without a position an armed campaign is made active, any other open one is cleaned up, and a campaign that is
      not open is left alone. */
  lemma FlatRecovers(v: Venue, w: World, symbol: string)
    requires symbol in w.db.campaigns
    requires symbol in w.db.account.positions ==> w.db.account.positions[symbol].quantity == 0.0
    ensures
      var r, s, c := w.db.campaigns[symbol], RecoverOne(v, w, symbol), CleanupIfFlat(v, w, symbol);
      if r.status !in {Opening, Active, Degraded} then s == Step(w, true)
      else if r.mode.NEUTRAL_GRID? && !r.activated then
        s.ok && s.world == w.(db := w.db.(campaigns := w.db.campaigns[symbol := r.(status := Active)]))
      else s.world == c.world && (s.ok <==> !c.result.CleanupRaised?)
  {
    hide CleanupIfFlat;
  }

  // ---- Cleanup ----

  lemma {:induction false} OrderTargetsMean(orders: OrderTable, ids: seq<ClientId>)
    ensures forall id :: id in OrderTargets(orders, ids) <==>
              && id in ids && id in orders && orders[id].exchangeOrderId != ""
              && orders[id].status in {NEW, PARTIALLY_FILLED, PENDING_CANCEL}
  {
    hide SweepableOrder, OrdersKeyed;
    if ids != [] {
      OrderTargetsMean(orders, ids[1..]);
      StatusesMean(orders, map[], ids[0], LONG);
      assert ids == [ids[0]] + ids[1..];
    }
  }

  lemma {:induction false} AlgoTargetsMean(algos: AlgoTable, ids: seq<ClientId>)
    ensures forall id :: id in AlgoTargets(algos, ids) <==> id in ids && LiveExit(algos, id)
  {
    hide SweepableAlgo, LiveExit;
    if ids != [] {
      AlgoTargetsMean(algos, ids[1..]);
      StatusesMean(map[], algos, ids[0], LONG);
      assert ids == [ids[0]] + ids[1..];
    }
  }

  lemma {:induction false} OppositeTargetsMean(orders: OrderTable, ids: seq<ClientId>, d: Direction)
    ensures forall id :: id in OppositeTargets(orders, ids, d) <==>
              && id in ids && id in orders && orders[id].exchangeOrderId != ""
              && orders[id].status in {NEW, PARTIALLY_FILLED, PENDING_CANCEL}
              && orders[id].side != if d.LONG? then BUY else SELL
  {
    hide CancelableOpposite, OrdersKeyed;
    if ids != [] {
      OppositeTargetsMean(orders, ids[1..], d);
      StatusesMean(orders, map[], ids[0], d);
      assert ids == [ids[0]] + ids[1..];
    }
  }

  lemma SweptLimits(orders: OrderTable, resting: set<RestingOrder>, symbol: string, ids: seq<ClientId>)
    ensures forall o :: o in Swept(orders, resting, symbol, OrderTargets(orders, ids)) <==>
              o in resting && o.symbol == symbol && OpenLimit(orders, ids, o)
  {
    OrderTargetsMean(orders, ids);
    hide OrderTargets, OrdersKeyed;
    var swept := Swept(orders, resting, symbol, OrderTargets(orders, ids));
    forall o | o in swept ensures OpenLimit(orders, ids, o) {
      var id :| id in OrderTargets(orders, ids) && id in orders && orders[id].exchangeOrderId == o.orderId;
    }
    forall o | o in resting && o.symbol == symbol && OpenLimit(orders, ids, o) ensures o in swept {
      var id :| id in ids && id in orders && orders[id].exchangeOrderId == o.orderId
             && orders[id].status in {NEW, PARTIALLY_FILLED, PENDING_CANCEL};
      assert id in OrderTargets(orders, ids);
    }
  }

  /** An open campaign without a position that is not merely armed. */
  predicate FlatCampaign(db: Db, symbol: string) {
    && symbol in db.campaigns && db.campaigns[symbol].status in {Opening, Active, Degraded}
    && (symbol in db.account.positions ==> db.account.positions[symbol].quantity == 0.0)
    && (db.campaigns[symbol].mode.NEUTRAL_GRID? ==> db.campaigns[symbol].activated)
  }

  /** When cleanup of a flat campaign answers, true or false, exactly these are gone: its resting limits that the
      store shows as NEW, PARTIALLY_FILLED or PENDING_CANCEL, and those of its two exits it shows as NEW, WORKING
      or PENDING. Whatever the answer, nothing else is. */
  lemma CleanupRemoves(v: Venue, w: World, symbol: string)
    requires FlatCampaign(w.db, symbol) && Registered(w, symbol)
    ensures
      var r, account := w.db.campaigns[symbol], w.db.account;
      var c := CleanupIfFlat(v, w, symbol);
      && (forall o | o in w.ex.resting && o !in c.world.ex.resting ::
            o.symbol == symbol && OpenLimit(account.orders, r.limitIds, o))
      && (forall k | k in w.ex.algos && k !in c.world.ex.algos ::
            k in {r.stopId, r.takeProfitId} && LiveExit(account.algos, k))
      && (!c.result.CleanupRaised? ==>
            && (forall o :: o in c.world.ex.resting <==>
                  o in w.ex.resting && !(o.symbol == symbol && OpenLimit(account.orders, r.limitIds, o)))
            && (forall k :: k in c.world.ex.algos <==>
                  k in w.ex.algos && !(k in {r.stopId, r.takeProfitId} && LiveExit(account.algos, k))))
      && (c.result.CleanedUp? ==> c.world.db.campaigns == w.db.campaigns[symbol := r.(status := Closed)])
  {
    var r, account := w.db.campaigns[symbol], w.db.account;
    CleanupExact(v, w, symbol);
    SweptLimits(account.orders, w.ex.resting, symbol, r.limitIds);
    AlgoTargetsMean(account.algos, ExitList(r));
    hide CleanupIfFlat, Swept, OrderTargets, AlgoTargets, LiveExit, OpenLimit, NoRefusal, SomeMissing, Workload,
      Exposed, RecordOk;
    assert r.symbol == symbol;
  }

  /** When the other side of a ladder was cancelled, exactly its open entries are gone: those on a side other than
      BUY for a long position and other than SELL for a short one. Whatever the answer, nothing else is. */
  lemma OtherSideRemoved(v: Venue, w: World, symbol: string, d: Direction, ids: seq<ClientId>)
    ensures
      var keep := if d.LONG? then BUY else SELL;
      var s := CancelOpposite(v, w, symbol, d, ids);
      && (forall o | o in w.ex.resting && o !in s.world.ex.resting ::
            o.symbol == symbol && OpenLimitOff(w.db.account.orders, ids, keep, o))
      && (s.ok ==> forall o :: o in s.world.ex.resting <==>
                o in w.ex.resting && !(o.symbol == symbol && OpenLimitOff(w.db.account.orders, ids, keep, o)))
  {
    CancelOppositeExact(v, w, symbol, d, ids);
    SweptOther(w.db.account.orders, w.ex.resting, symbol, ids, d);
    hide CancelOpposite, Swept, OppositeTargets, OpenLimitOff, NoRefusal;
  }

  lemma SweptOther(orders: OrderTable, resting: set<RestingOrder>, symbol: string, ids: seq<ClientId>, d: Direction)
    ensures forall o :: o in Swept(orders, resting, symbol, OppositeTargets(orders, ids, d)) <==>
              o in resting && o.symbol == symbol && OpenLimitOff(orders, ids, if d.LONG? then BUY else SELL, o)
  {
    OppositeTargetsMean(orders, ids, d);
    hide OppositeTargets, OrdersKeyed;
    var keep := if d.LONG? then BUY else SELL;
    var swept := Swept(orders, resting, symbol, OppositeTargets(orders, ids, d));
    forall o | o in swept ensures OpenLimitOff(orders, ids, keep, o) {
      var id :| id in OppositeTargets(orders, ids, d) && id in orders && orders[id].exchangeOrderId == o.orderId;
    }
    forall o | o in resting && o.symbol == symbol && OpenLimitOff(orders, ids, keep, o) ensures o in swept {
      var id :| id in ids && id in orders && orders[id].exchangeOrderId == o.orderId
             && orders[id].status in {NEW, PARTIALLY_FILLED, PENDING_CANCEL} && orders[id].side != keep;
      assert id in OppositeTargets(orders, ids, d);
    }
  }

  // ---- Reports that come in while a call is awaited ----

  /** The positions the store shows after the `n` calls from moment `from` on: the last report among them, if any. */
  function LastReport(v: Venue, from: nat, n: nat, before: PositionTable): PositionTable {
    if n == 0 then before
    else if v.news(from + n - 1).Some? then v.news(from + n - 1).value
    else LastReport(v, from, n - 1, before)
  }

  lemma {:induction false} ReportsChain(v: Venue, from: nat, n: nat, before: PositionTable)
    requires n > 0
    ensures LastReport(v, from, n, before)
            == LastReport(v, from + 1, n - 1, if v.news(from).Some? then v.news(from).value else before)
  {
    if n > 1 && v.news(from + n - 1).None? {
      ReportsChain(v, from, n - 1, before);
    }
  }

  lemma CancelTakesReport(v: Venue, w: World, symbol: string, orderId: string)
    ensures CancelOrder(v, w, symbol, orderId).world.db.account.positions
            == if v.news(w.tick).Some? then v.news(w.tick).value else w.db.account.positions
  {
  }

  lemma CancelAlgoTakesReport(v: Venue, w: World, id: ClientId)
    requires id != NoId
    ensures CancelAlgo(v, w, id).world.db.account.positions
            == if v.news(w.tick).Some? then v.news(w.tick).value else w.db.account.positions
  {
  }

  lemma {:induction false} OrderSweepReports(v: Venue, w: World, symbol: string, ids: seq<ClientId>, pending: bool)
    requires SweepOrders(v, w, symbol, ids, pending).ok
    ensures SweepOrders(v, w, symbol, ids, pending).world.db.account.positions
            == LastReport(v, w.tick, |OrderTargets(w.db.account.orders, ids)|, w.db.account.positions)
    decreases ids
  {
    hide CancelOrder, SweepableOrder, LastReport;
    NoReport(v, w.tick, w.db.account.positions);
    if ids != [] {
      if !SweepableOrder(w.db.account.orders, ids[0]) {
        OrderSweepReports(v, w, symbol, ids[1..], pending);
      } else {
        Listed(w.db.account.orders, ids[0]);
        var id := w.db.account.orders[ids[0]].exchangeOrderId;
        var c := CancelOrder(v, w, symbol, id);
        CancelTakesReport(v, w, symbol, id);
        CancelAnswers(v, w, symbol, id);
        OrderSweepReports(v, c.world, symbol, ids[1..], pending || c.result.Missing?);
        ReportsChain(v, w.tick, |OrderTargets(w.db.account.orders, ids)|, w.db.account.positions);
      }
    }
  }

  lemma {:induction false} AlgoSweepReports(v: Venue, w: World, ids: seq<ClientId>, pending: bool)
    requires SweepAlgos(v, w, ids, pending).ok && forall i | 0 <= i < |ids| :: ids[i] != NoId
    ensures SweepAlgos(v, w, ids, pending).world.db.account.positions
            == LastReport(v, w.tick, |AlgoTargets(w.db.account.algos, ids)|, w.db.account.positions)
    decreases ids
  {
    hide CancelAlgo, SweepableAlgo, LastReport;
    NoReport(v, w.tick, w.db.account.positions);
    if ids != [] {
      if !SweepableAlgo(w.db.account.algos, ids[0]) {
        AlgoSweepReports(v, w, ids[1..], pending);
      } else {
        var c := CancelAlgo(v, w, ids[0]);
        CancelAlgoTakesReport(v, w, ids[0]);
        CancelAlgoAnswers(v, w, ids[0]);
        AlgoSweepReports(v, c.world, ids[1..], pending || c.result.Missing?);
        ReportsChain(v, w.tick, |AlgoTargets(w.db.account.algos, ids)|, w.db.account.positions);
      }
    }
  }

  lemma NoReport(v: Venue, from: nat, before: PositionTable)
    ensures LastReport(v, from, 0, before) == before
  {
  }

  lemma {:induction false} ReportsJoin(v: Venue, from: nat, n: nat, m: nat, before: PositionTable)
    ensures LastReport(v, from + n, m, LastReport(v, from, n, before)) == LastReport(v, from, n + m, before)
  {
    if m > 0 && v.news(from + n + m - 1).None? {
      ReportsJoin(v, from, n, m - 1, before);
    }
  }

  lemma SweepTakesReports(v: Venue, w: World, r: CampaignRecord)
    requires r.stopId != NoId && r.takeProfitId != NoId && SweepAll(v, w, r).ok
    ensures SweepAll(v, w, r).world.db.account.positions
            == LastReport(v, w.tick, Workload(w.db, r), w.db.account.positions)
  {
    hide SweepOrders, SweepAlgos, OrderTargets, AlgoTargets, LastReport, Swept;
    var o := SweepOrders(v, w, r.symbol, r.limitIds, false);
    OrderSweepReports(v, w, r.symbol, r.limitIds, false);
    SweepOrdersExact(v, w, r.symbol, r.limitIds, false);
    AlgoSweepReports(v, o.world, ExitList(r), o.pending);
    var n, m := |OrderTargets(w.db.account.orders, r.limitIds)|, |AlgoTargets(w.db.account.algos, ExitList(r))|;
    ReportsJoin(v, w.tick, n, m, w.db.account.positions);
  }

  /** A flat campaign whose position comes back while its orders are cancelled is never closed: when no cancel is
      refused, cleanup raises for that reason exactly when the last report that came in meanwhile shows the position. */
  lemma ReopeningIsSeen(v: Venue, w: World, symbol: string)
    requires FlatCampaign(w.db, symbol) && Registered(w, symbol)
    requires NoRefusal(v, w.tick, Workload(w.db, w.db.campaigns[symbol]))
    ensures
      var r, c := w.db.campaigns[symbol], CleanupIfFlat(v, w, symbol);
      var shown := LastReport(v, w.tick, Workload(w.db, r), w.db.account.positions);
      && (c.result.CleanupRaised? <==> symbol in shown && shown[symbol].quantity != 0.0)
      && (c.result.CleanupRaised? ==>
            && c.world.db.halted && c.world.db.haltReason == GridCleanupRace(symbol)
            && c.world.db.campaigns == w.db.campaigns[symbol := r.(status := Degraded)])
  {
    var r := w.db.campaigns[symbol];
    SweepAllExact(v, w, r);
    SweepTakesReports(v, w, r);
    assert r.symbol == symbol;
    hide SweepAll, NoRefusal, Workload, LastReport, SomeMissing, SweptExchange;
  }
}
