/** Opening a neutral campaign: all resting, rolled back, or halted. */
module NeutralOpening {
  import opened Models
  import opened Store
  import opened Grid
  import opened Adapter
  import opened Campaign
  import opened CampaignCleanup
  import opened CampaignFrame
  import opened CampaignOpening

  function Cleared(resting: set<RestingOrder>, symbol: string, ids: seq<string>): set<RestingOrder> {
    set o | o in resting && !(o.symbol == symbol && o.orderId != "" && o.orderId in ids)
  }

  function Unnamed(orders: set<RestingOrder>): set<RestingOrder> {
    set o | o in orders && o.orderId == ""
  }

  /** A rollback that succeeds removes exactly the orders it was given by name. */
  lemma {:induction false} RollbackClears(v: Venue, w: World, symbol: string, ids: seq<string>)
    ensures var s := Rollback(v, w, symbol, ids);
            s.ok ==> s.world.ex == w.ex.(resting := Cleared(w.ex.resting, symbol, ids))
    decreases ids
  {
    hide CancelOrder;
    if ids == [] {
      assert Cleared(w.ex.resting, symbol, ids) == w.ex.resting;
    } else if ids[0] == "" {
      RollbackClears(v, w, symbol, ids[1..]);
      assert Cleared(w.ex.resting, symbol, ids) == Cleared(w.ex.resting, symbol, ids[1..]);
    } else {
      var c := CancelOrder(v, w, symbol, ids[0]);
      RollbackClears(v, c.world, symbol, ids[1..]);
      var left := WithoutOrder(w.ex.resting, symbol, ids[0]);
      assert Cleared(w.ex.resting, symbol, ids) == Cleared(left, symbol, ids[1..]);
    }
  }

  /** Ids that come with answers still to be given are not taken yet. */
  lemma NamesAreNew(v: Venue, plan: GridPlan, levels: seq<GridEntryLevel>, before: World, after: World,
                    rs: seq<Receipt>)
    requires Unissued(v, before) && Laddered(v, plan, levels, before, after, rs)
    ensures forall i | 0 <= i < |rs| :: rs[i].orderId == "" || rs[i].orderId !in before.ex.issued
  {
    hide ReceiptFor, OrdersFor, IdsOf;
    forall i | 0 <= i < |rs| ensures rs[i].orderId == "" || rs[i].orderId !in before.ex.issued {
      assert Answered(v, before.tick, after.tick, rs[i].orderId);
    }
  }

  /** What the exchange held before a ladder is what is left once the ladder's named orders are gone. */
  lemma ClearingUndoes(v: Venue, plan: GridPlan, levels: seq<GridEntryLevel>, before: World, after: World,
                       rs: seq<Receipt>)
    requires ExchangeSafe(v, before) && Laddered(v, plan, levels, before, after, rs)
    ensures Cleared(after.ex.resting, plan.symbol, OrderIds(rs))
            == before.ex.resting + Unnamed(OrdersFor(plan, levels, rs))
  {
    hide ReceiptFor, LevelDirection;
    NamesAreNew(v, plan, levels, before, after, rs);
    var ids := OrderIds(rs);
    assert forall i | 0 <= i < |rs| :: ids[i] == rs[i].orderId;
    forall o | o in OrdersFor(plan, levels, rs) ensures o.symbol == plan.symbol && o.orderId in ids {
      var i :| 0 <= i < |rs| && o == LimitOrder(plan.symbol, LevelDirection(plan, levels[i]), rs[i]);
      assert ids[i] == o.orderId;
    }
    assert forall o | o in before.ex.resting && o.orderId != "" :: o.orderId !in ids;
  }

  // ---- The failing exits ----

  /** The campaign is marked as given; the others are untouched. */
  ghost predicate StatusOnly(w: World, after: World, symbol: string) {
    && symbol in w.db.campaigns && symbol in after.db.campaigns
    && after.db.campaigns
       == w.db.campaigns[symbol := w.db.campaigns[symbol].(status := after.db.campaigns[symbol].status)]
  }

  ghost predicate FailedOrDegraded(w: World, after: World, symbol: string) {
    StatusOnly(w, after, symbol)
    && (after.db.campaigns[symbol].status.Failed? || after.db.campaigns[symbol].status.Degraded?)
  }

  /** A failed neutral opening halts, unless the store shows the symbol flat and every named order was
      cancelled: then exactly the accepted orders without a name are left. */
  lemma FailedNeutralOpening(v: Venue, w: World, plan: GridPlan, ids: seq<string>)
    requires plan.symbol in w.db.campaigns
    ensures
      var after := NeutralOpenFailed(v, w, plan, ids);
      && FailedOrDegraded(w, after, plan.symbol)
      && (w.db.halted || Exposed(w.db.account.positions, plan.symbol) ==> after.db.halted)
      && (!after.db.halted ==> after.ex == w.ex.(resting := Cleared(w.ex.resting, plan.symbol, ids))
                               && after.db.campaigns[plan.symbol].status.Failed?)
  {
    hide Rollback, PlaceReduceOnly, StoredDirection, Cleared;
    RollbackClears(v, w, plan.symbol, ids);
  }

  /** The record's stop and target for one side, each under its own id. */
  function WithNeutralExits(v: Venue, r: CampaignRecord, d: Direction,
                            algos: map<ClientId, ExitOrder>): map<ClientId, ExitOrder>
    requires Protection(r, d).Some?
  {
    algos[SgId(StopKey(r.campaignId)) := ExitFor(v, r.symbol, d, STOP_MARKET, Protection(r, d).value.0)]
         [SgId(TakeProfitKey(r.campaignId)) := ExitFor(v, r.symbol, d, TAKE_PROFIT_MARKET, Protection(r, d).value.1)]
  }

  /** Activated on one side, with that side's exits accepted and only entries of the other side gone. */
  ghost predicate ActivatedOn(v: Venue, w: World, after: World, r: CampaignRecord, d: Direction) {
    && (d.LONG? || d.SHORT?)
    && r.symbol in w.db.campaigns
    && after.db.campaigns
       == w.db.campaigns[r.symbol := w.db.campaigns[r.symbol].(direction := d, activated := true, status := Active)]
    && after.db.halted == w.db.halted
    && Protection(r, d).Some?
    && after.ex == w.ex.(algos := WithNeutralExits(v, r, d, w.ex.algos),
                         accepted := w.ex.accepted + ExitIds(r.campaignId), resting := after.ex.resting)
    && after.ex.resting <= w.ex.resting
  }

  lemma ProtectionFailedHalts(v: Venue, w: World, r: CampaignRecord, d: Direction, quantity: real)
    requires r.symbol in w.db.campaigns
    ensures var after := ProtectionFailed(v, w, r, d, quantity);
            after.db.halted && FailedOrDegraded(w, after, r.symbol)
  {
    hide PlaceReduceOnly;
  }

  lemma Degrading(w: World, w1: World, symbol: string, reason: HaltReason)
    requires symbol in w.db.campaigns && OnlyPositions(w.db, w1.db)
    ensures FailedOrDegraded(w, Stop(Mark(w1, symbol, Degraded), reason), symbol)
    ensures Stop(Mark(w1, symbol, Degraded), reason).db.halted
  {
  }

  lemma Activates(v: Venue, w: World, w1: World, r: CampaignRecord, d: Direction)
    requires r.symbol in w.db.campaigns && OnlyPositions(w.db, w1.db) && (d.LONG? || d.SHORT?)
    requires w1.ex.market == w.ex.market && w1.ex.issued == w.ex.issued && w1.ex.resting <= w.ex.resting
    requires Protection(r, d).Some? && w1.ex.algos == WithNeutralExits(v, r, d, w.ex.algos)
    requires w1.ex.accepted == w.ex.accepted + {SgId(StopKey(r.campaignId))} + {SgId(TakeProfitKey(r.campaignId))}
    ensures ActivatedOn(v, w, ActivateNeutral(w1, r, d), r, d)
  {
    hide Protection, WithNeutralExits;
    assert w1.ex.accepted == w.ex.accepted + ExitIds(r.campaignId);
  }

  /** Installing protection either activates the campaign with both exits, or halts, or was refused for want
      of exit prices before anything was sent. */
  lemma InstallProtectionOutcome(v: Venue, w: World, r: CampaignRecord, d: Direction, quantity: real)
    requires r.symbol in w.db.campaigns && (d.LONG? || d.SHORT?)
    ensures
      var s := InstallProtection(v, w, r, d, quantity);
      && (s.ok ==> ActivatedOn(v, w, s.world, r, d))
      && (!s.ok ==>
            || (s.world == w && Protection(r, d).None?)
            || (s.world.db.halted && FailedOrDegraded(w, s.world, r.symbol)))
  {
    hide PlaceExit, NeutralStopPhase, CancelOpposite, ProtectionFailed, Protection, FailedOrDegraded, Mark, Stop,
      ActivateNeutral, ActivatedOn;
    var p := Protection(r, d);
    if p.Some? {
      var stop := NeutralStopPhase(v, w, r, d, p.value.0, p.value.1);
      if !stop.ok {
        ProtectionFailedHalts(v, stop.world, r, d, quantity);
        SameBase(w, stop.world, ProtectionFailed(v, stop.world, r, d, quantity), r.symbol);
      } else {
        var tp := PlaceExit(v, stop.world, r.symbol, d, p.value.1, TAKE_PROFIT_MARKET, TakeProfitKey(r.campaignId));
        Degrading(w, tp.world, r.symbol, NeutralOpenDegraded(r.symbol));
        if tp.ok {
          var c := CancelOpposite(v, tp.world, r.symbol, d, r.limitIds);
          Degrading(w, c.world, r.symbol, NeutralOpenDegraded(r.symbol));
          Activates(v, w, c.world, r, d);
        }
      }
    }
  }

  lemma SameBase(w: World, w1: World, after: World, symbol: string)
    requires OnlyPositions(w.db, w1.db) && FailedOrDegraded(w1, after, symbol)
    ensures FailedOrDegraded(w, after, symbol)
  {
  }

  // ---- What a failure leaves on the exchange ----

  /** One reduce-only order was sent and nothing else happened. */
  predicate Sold(v: Venue, before: Exchange, after: Exchange, symbol: string, d: Direction, quantity: real,
                 key: IdKey) {
    && v.rules(symbol).Some? && v.rules(symbol).value.step > 0.0
    && var rounded := RoundDown(quantity, v.rules(symbol).value.step);
    && after == before.(market := before.market + [MarketOrder(symbol, SgId(key), d, rounded, 0.0, true)])
  }

  function WithNeutralStop(v: Venue, r: CampaignRecord, d: Direction,
                           algos: map<ClientId, ExitOrder>): map<ClientId, ExitOrder>
    requires Protection(r, d).Some?
  {
    algos[SgId(StopKey(r.campaignId)) := ExitFor(v, r.symbol, d, STOP_MARKET, Protection(r, d).value.0)]
  }

  /** The entries of the other side the store shows as resting. */
  function OtherSide(w: World, r: CampaignRecord, d: Direction): set<RestingOrder> {
    var orders := w.db.account.orders;
    Swept(orders, w.ex.resting, r.symbol, OppositeTargets(orders, r.limitIds, d))
  }

  /** How far a failing installation of the exits got: not begun, or refused its stop and sold the position, or
      stopped with its stop accepted, or with both exits accepted and some entries of the other side cancelled. */
  ghost predicate StoppedInstalling(v: Venue, w: World, after: World, r: CampaignRecord, d: Direction, quantity: real) {
    || after.ex == w.ex
    || Sold(v, w.ex, after.ex, r.symbol, d, quantity, EmergencyKey(r.campaignId, NeutralProtectionEmergencyClose))
    || (Protection(r, d).Some?
        && after.ex == w.ex.(algos := WithNeutralStop(v, r, d, w.ex.algos),
                             accepted := w.ex.accepted + {SgId(StopKey(r.campaignId))}))
    || (Protection(r, d).Some?
        && after.ex == w.ex.(algos := WithNeutralExits(v, r, d, w.ex.algos),
                             accepted := w.ex.accepted + ExitIds(r.campaignId), resting := after.ex.resting)
        && w.ex.resting - OtherSide(w, r, d) <= after.ex.resting <= w.ex.resting)
  }

  lemma FailingInstallation(v: Venue, w: World, r: CampaignRecord, d: Direction, quantity: real)
    requires r.symbol in w.db.campaigns && !InstallProtection(v, w, r, d, quantity).ok
    ensures StoppedInstalling(v, w, InstallProtection(v, w, r, d, quantity).world, r, d, quantity)
  {
    hide PlaceExit, PlaceReduceOnly, NeutralStopPhase, CancelOpposite, Protection, Mark, Stop, RoundDown, Swept,
      OppositeTargets, NoRefusal, ActivateNeutral, ExitFor;
    var p := Protection(r, d);
    if p.Some? {
      var stop := NeutralStopPhase(v, w, r, d, p.value.0, p.value.1);
      if stop.ok {
        var tp := PlaceExit(v, stop.world, r.symbol, d, p.value.1, TAKE_PROFIT_MARKET, TakeProfitKey(r.campaignId));
        StoppingKeepsExchange(tp.world, r.symbol, Degraded, NeutralOpenDegraded(r.symbol));
        if tp.ok {
          CancelOppositeExact(v, tp.world, r.symbol, d, r.limitIds);
          var c := CancelOpposite(v, tp.world, r.symbol, d, r.limitIds);
          StoppingKeepsExchange(c.world, r.symbol, Degraded, NeutralOpenDegraded(r.symbol));
          assert c.world.ex.accepted == w.ex.accepted + ExitIds(r.campaignId);
        }
      } else {
        var c := PlaceReduceOnly(v, stop.world, r.symbol, d, quantity,
                                 EmergencyKey(r.campaignId, NeutralProtectionEmergencyClose));
        StoppingKeepsExchange(c.world, r.symbol, Failed, NeutralProtectionFailed(r.symbol));
        StoppingKeepsExchange(c.world, r.symbol, Degraded, NeutralUnprotectedPosition(r.symbol));
      }
    }
  }

  lemma StoppingKeepsExchange(w: World, symbol: string, status: CampaignStatus, reason: HaltReason)
    ensures Stop(Mark(w, symbol, status), reason).ex == w.ex && Mark(Stop(w, reason), symbol, status).ex == w.ex
    ensures Mark(w, symbol, status).ex == w.ex
  {
  }

  /** What the failure handler makes of the exchange as it finds it. While the store shows exposure it cancels
      nothing: it sells the position, and is failed, or is refused that, and degraded. On a flat store it cancels
      the named orders, all of them if it ends failed. */
  ghost predicate FailureHandled(v: Venue, plan: GridPlan, at: World, after: World, ids: seq<string>) {
    && plan.symbol in after.db.campaigns
    && var status, positions := after.db.campaigns[plan.symbol].status, at.db.account.positions;
    && (status.Failed? || status.Degraded?) && (status.Degraded? ==> after.db.halted)
    && if Exposed(positions, plan.symbol) then
         && after.db.halted
         && if status.Failed?
            then Sold(v, at.ex, after.ex, plan.symbol, StoredDirection(positions[plan.symbol]),
                      positions[plan.symbol].quantity, EmergencyKey(plan.campaignId, NeutralOpenEmergencyClose))
            else after.ex == at.ex
       else
         && after.ex == at.ex.(resting := after.ex.resting)
         && Cleared(at.ex.resting, plan.symbol, ids) <= after.ex.resting <= at.ex.resting
         && (status.Failed? ==> after.ex.resting == Cleared(at.ex.resting, plan.symbol, ids))
  }

  lemma {:induction false} RollbackKeeps(v: Venue, w: World, symbol: string, ids: seq<string>)
    ensures Cleared(w.ex.resting, symbol, ids) <= Rollback(v, w, symbol, ids).world.ex.resting <= w.ex.resting
    decreases ids
  {
    hide CancelOrder;
    if ids != [] {
      if ids[0] == "" {
        RollbackKeeps(v, w, symbol, ids[1..]);
        assert Cleared(w.ex.resting, symbol, ids) == Cleared(w.ex.resting, symbol, ids[1..]);
      } else {
        var c := CancelOrder(v, w, symbol, ids[0]);
        RollbackKeeps(v, c.world, symbol, ids[1..]);
        var left := WithoutOrder(w.ex.resting, symbol, ids[0]);
        assert Cleared(w.ex.resting, symbol, ids) == Cleared(left, symbol, ids[1..]);
      }
    }
  }

  lemma ExposedFailure(v: Venue, at: World, plan: GridPlan, ids: seq<string>)
    requires plan.symbol in at.db.campaigns && Exposed(at.db.account.positions, plan.symbol)
    ensures FailureHandled(v, plan, at, NeutralOpenFailed(v, at, plan, ids), ids)
  {
    hide Rollback, PlaceReduceOnly, StoredDirection, Cleared, RoundDown;
  }

  lemma FlatFailure(v: Venue, at: World, plan: GridPlan, ids: seq<string>)
    requires plan.symbol in at.db.campaigns && !Exposed(at.db.account.positions, plan.symbol)
    ensures FailureHandled(v, plan, at, NeutralOpenFailed(v, at, plan, ids), ids)
  {
    RollbackClears(v, at, plan.symbol, ids);
    RollbackKeeps(v, at, plan.symbol, ids);
    hide Rollback, PlaceReduceOnly, StoredDirection, Cleared, Exposed, Sold;
  }

  lemma FailureIsHandled(v: Venue, at: World, plan: GridPlan, ids: seq<string>)
    requires plan.symbol in at.db.campaigns
    ensures FailureHandled(v, plan, at, NeutralOpenFailed(v, at, plan, ids), ids)
  {
    hide FailureHandled, NeutralOpenFailed, Exposed;
    if Exposed(at.db.account.positions, plan.symbol) {
      ExposedFailure(v, at, plan, ids);
    } else {
      FlatFailure(v, at, plan, ids);
    }
  }

  /** Every level of the plan rests and the campaign is active. */
  ghost predicate AllResting(v: Venue, w: World, plan: GridPlan, mid: World, rs: seq<Receipt>) {
    && |rs| == |plan.entries| && Laddered(v, plan, plan.entries, w, mid.(db := w.db), rs)
    && Recorded(w, mid, plan, Active) && mid.db.halted == w.db.halted
  }

  /** What a failed opening leaves on the exchange: the ladder as far as it got, what a failing installation of
      the exits did to it once it was complete and the store showed a position, and what the handler made of that. */
  ghost predicate NeutralLeftover(v: Venue, w: World, plan: GridPlan, after: World, mid: World, at: World,
                                  rs: seq<Receipt>) {
    && Laddered(v, plan, plan.entries, w, mid.(db := w.db), rs)
    && var positions := mid.db.account.positions;
    && (at == mid
        || (|rs| == |plan.entries| && Exposed(positions, plan.symbol)
            && StoppedInstalling(v, mid, at, RecordFor(plan), StoredDirection(positions[plan.symbol]),
                                 positions[plan.symbol].quantity)))
    && FailureHandled(v, plan, at, after, OrderIds(rs))
  }

  /** What opening a neutral campaign may come to: every level rests (`mid`) and the campaign is active, with
      no exits while flat and with both exits once exposed; or it raises, and then execution is halted, or the
      campaign is failed and all that is left on the exchange are accepted orders that were given no id. When it
      raises, `mid` is the ladder as far as it got and `at` what the failure handler found. */
  ghost predicate NeutralOutcome(v: Venue, w: World, plan: GridPlan, o: Attempt, mid: World, at: World,
                                 rs: seq<Receipt>) {
    match o.outcome
    case AlreadyActive => HasActive(w.db, plan.symbol) && o.world == w
    case Opened(starterId, limitIds) =>
      && !HasActive(w.db, plan.symbol)
      && starterId == "" && limitIds == OrderIds(rs)
      && AllResting(v, w, plan, mid, rs)
      && (if Exposed(mid.db.account.positions, plan.symbol)
          then ActivatedOn(v, mid, o.world, RecordFor(plan), StoredDirection(mid.db.account.positions[plan.symbol]))
          else o.world == mid)
    case OpenFailed =>
      && !HasActive(w.db, plan.symbol)
      && (Recorded(w, o.world, plan, Failed) || Recorded(w, o.world, plan, Degraded))
      && |rs| <= |plan.entries|
      && NeutralLeftover(v, w, plan, o.world, mid, at, rs)
      && (o.world.db.halted
          || (Recorded(w, o.world, plan, Failed)
              && o.world.ex == w.ex.(resting := w.ex.resting + Unnamed(OrdersFor(plan, plan.entries, rs)),
                                     issued := w.ex.issued + IdsOf(rs))))
  }

  /** The neutral ladder has come to rest as far as it got; the campaign still counts as opening. */
  ghost predicate LadderDone(v: Venue, w: World, mid: World, plan: GridPlan, rs: seq<Receipt>) {
    && !HasActive(w.db, plan.symbol) && ExchangeSafe(v, w)
    && Laddered(v, plan, plan.entries, w, mid.(db := w.db), rs)
    && Recorded(w, mid, plan, Opening) && mid.db.halted == w.db.halted
  }

  lemma FailedLadder(v: Venue, w: World, mid: World, plan: GridPlan, rs: seq<Receipt>)
    requires LadderDone(v, w, mid, plan, rs)
    ensures NeutralOutcome(v, w, plan, Attempt(NeutralOpenFailed(v, mid, plan, OrderIds(rs)), OpenFailed), mid, mid, rs)
  {
    hide NeutralOpenFailed, HasActive, ReceiptFor, OrdersFor, Unnamed, RecordFor, Exposed, Cleared, OrderIds,
      FailureHandled, StoppedInstalling;
    FailureIsHandled(v, mid, plan, OrderIds(rs));
    FailedNeutralOpening(v, mid, plan, OrderIds(rs));
    ClearingUndoes(v, plan, plan.entries, w, mid.(db := w.db), rs);
    Restatus(w, mid, NeutralOpenFailed(v, mid, plan, OrderIds(rs)), plan, Opening);
  }

  lemma Restatus(w: World, mid: World, after: World, plan: GridPlan, status: CampaignStatus)
    requires Recorded(w, mid, plan, status) && FailedOrDegraded(mid, after, plan.symbol)
    ensures Recorded(w, after, plan, Failed) || Recorded(w, after, plan, Degraded)
    ensures after.db.campaigns[plan.symbol].status.Failed? ==> Recorded(w, after, plan, Failed)
  {
    hide RecordFor;
    var r, campaigns, status2 := RecordFor(plan), w.db.campaigns, after.db.campaigns[plan.symbol].status;
    assert campaigns[plan.symbol := r.(status := status)][plan.symbol := r.(status := status2)]
        == campaigns[plan.symbol := r.(status := status2)];
  }

  /** A halted activation stays halted however the rollback goes. */
  lemma FailedActivation(v: Venue, w: World, mid: World, a: World, plan: GridPlan, rs: seq<Receipt>)
    requires !HasActive(w.db, plan.symbol) && |rs| <= |plan.entries|
    requires Recorded(w, mid, plan, Active) && (a == mid || FailedOrDegraded(mid, a, plan.symbol))
    requires a.db.halted || Exposed(a.db.account.positions, plan.symbol)
    requires NeutralLeftover(v, w, plan, NeutralOpenFailed(v, a, plan, OrderIds(rs)), mid, a, rs)
    ensures NeutralOutcome(v, w, plan, Attempt(NeutralOpenFailed(v, a, plan, OrderIds(rs)), OpenFailed), mid, a, rs)
  {
    hide NeutralOpenFailed, HasActive, OrdersFor, Unnamed, RecordFor, Exposed, OrderIds, NeutralLeftover;
    FailedNeutralOpening(v, a, plan, OrderIds(rs));
    if a != mid {
      Restatus(w, mid, a, plan, Active);
      Restatus(w, a, NeutralOpenFailed(v, a, plan, OrderIds(rs)), plan,
               if Recorded(w, a, plan, Failed) then Failed else Degraded);
    } else {
      Restatus(w, mid, NeutralOpenFailed(v, a, plan, OrderIds(rs)), plan, Active);
    }
  }

  lemma LeftByInstallation(v: Venue, w: World, mid: World, plan: GridPlan, rs: seq<Receipt>)
    requires AllResting(v, w, plan, mid, rs) && Exposed(mid.db.account.positions, plan.symbol)
    requires
      var r, position := mid.db.campaigns[plan.symbol], mid.db.account.positions[plan.symbol];
      !InstallProtection(v, mid, r, StoredDirection(position), position.quantity).ok
    ensures
      var r, position := mid.db.campaigns[plan.symbol], mid.db.account.positions[plan.symbol];
      var a := InstallProtection(v, mid, r, StoredDirection(position), position.quantity).world;
      NeutralLeftover(v, w, plan, NeutralOpenFailed(v, a, plan, OrderIds(rs)), mid, a, rs)
  {
    var r, position := mid.db.campaigns[plan.symbol], mid.db.account.positions[plan.symbol];
    var d := StoredDirection(position);
    var a := InstallProtection(v, mid, r, d, position.quantity).world;
    FailingInstallation(v, mid, r, d, position.quantity);
    SameStopped(v, mid, a, r, RecordFor(plan), d, position.quantity);
    InstallationRegisters(v, mid, r, d, position.quantity);
    hide NeutralOpenFailed, InstallProtection, Laddered, Exposed, OrderIds, StoredDirection, Protection, RecordFor,
      FailureHandled, StoppedInstalling;
    FailureIsHandled(v, a, plan, OrderIds(rs));
  }

  lemma InstallationRegisters(v: Venue, w: World, r: CampaignRecord, d: Direction, quantity: real)
    requires r.symbol in w.db.campaigns
    ensures r.symbol in InstallProtection(v, w, r, d, quantity).world.db.campaigns
  {
    InstallProtectionTouches(v, w, r, d, quantity);
    hide InstallProtection;
  }

  lemma SameStopped(v: Venue, w: World, after: World, r: CampaignRecord, s: CampaignRecord, d: Direction,
                    quantity: real)
    requires r.symbol == s.symbol && r.campaignId == s.campaignId && r.limitIds == s.limitIds
    requires Protection(r, d) == Protection(s, d)
    ensures StoppedInstalling(v, w, after, r, d, quantity) ==> StoppedInstalling(v, w, after, s, d, quantity)
  {
    hide Protection, Sold, OppositeTargets, Swept, ExitFor;
  }

  lemma ActivateFresh(v: Venue, w: World, mid: World, plan: GridPlan, rs: seq<Receipt>)
    requires !HasActive(w.db, plan.symbol) && plan.mode.NEUTRAL_GRID? && AllResting(v, w, plan, mid, rs)
    ensures
      var a := ActivatePosition(v, mid, mid.db.campaigns[plan.symbol]);
      NeutralOutcome(v, w, plan,
                     if a.ok then Attempt(a.world, Opened("", OrderIds(rs)))
                     else Attempt(NeutralOpenFailed(v, a.world, plan, OrderIds(rs)), OpenFailed),
                     mid, a.world, rs)
  {
    hide NeutralOpenFailed, InstallProtection, Laddered, Exposed, OrderIds, StoredDirection, Protection, HasActive,
      NeutralLeftover;
    var r := mid.db.campaigns[plan.symbol];
    FreshNeutral(plan);
    hide RecordFor;
    if Exposed(mid.db.account.positions, plan.symbol) {
      ExposedIsStored(mid.db.account.positions, plan.symbol);
      var d := StoredDirection(mid.db.account.positions[plan.symbol]);
      var quantity := mid.db.account.positions[plan.symbol].quantity;
      InstallProtectionOutcome(v, mid, r, d, quantity);
      SamePrices(RecordFor(plan), Active, d);
      SameCampaignActivated(v, mid, InstallProtection(v, mid, r, d, quantity).world, r, RecordFor(plan), d);
      hide ActivatedOn, FailedOrDegraded, Recorded;
      if !InstallProtection(v, mid, r, d, quantity).ok {
        LeftByInstallation(v, w, mid, plan, rs);
        FailedActivation(v, w, mid, InstallProtection(v, mid, r, d, quantity).world, plan, rs);
      }
    }
  }

  lemma FreshNeutral(plan: GridPlan)
    requires plan.mode.NEUTRAL_GRID?
    ensures var r := RecordFor(plan);
            !r.activated && r.symbol == plan.symbol && r.mode == plan.mode && r.campaignId == plan.campaignId
              && r.status.Opening?
  {
  }

  lemma ExposedIsStored(positions: PositionTable, symbol: string)
    requires Exposed(positions, symbol)
    ensures symbol in positions && (StoredDirection(positions[symbol]).LONG?
                                    || StoredDirection(positions[symbol]).SHORT?)
  {
  }

  lemma SamePrices(r: CampaignRecord, status: CampaignStatus, d: Direction)
    ensures Protection(r.(status := status), d) == Protection(r, d)
  {
  }

  lemma SameCampaignActivated(v: Venue, w: World, after: World, r: CampaignRecord, s: CampaignRecord, d: Direction)
    requires r.symbol == s.symbol && r.campaignId == s.campaignId && Protection(r, d) == Protection(s, d)
    ensures ActivatedOn(v, w, after, r, d) ==> ActivatedOn(v, w, after, s, d)
  {
  }

  lemma OpenNeutralAtomic(v: Venue, w: World, plan: GridPlan)
    returns (mid: World, at: World, rs: seq<Receipt>)
    requires plan.mode.NEUTRAL_GRID? && ExchangeSafe(v, w)
    ensures NeutralOutcome(v, w, plan, OpenCampaign(v, w, plan), mid, at, rs)
  {
    hide PlaceLadder, ActivatePosition, NeutralOpenFailed, RecordFor, HasActive, Laddered, NeutralOutcome, OrderIds,
      Mark;
    mid, at, rs := w, w, [];
    var prepared := Prepare(w.db, plan);
    if prepared.None? {
      RefusesNeutral(v, w, plan);
    } else {
      var w0 := w.(db := prepared.value);
      PreparedIsOpening(plan);
      LadderPlaces(v, w0, plan, plan.entries, []);
      var l := PlaceLadder(v, w0, plan, plan.entries, []);
      assert l.placed[0..] == l.placed;
      rs := l.placed;
      mid, at := l.world, l.world;
      LadderFrom(v, w, w0, l.world, plan, rs);
      if l.ok {
        mid := Mark(l.world, plan.symbol, Active);
        Armed(v, w, l.world, plan, rs);
        at := ActivatePosition(v, mid, mid.db.campaigns[plan.symbol]).world;
        ActivateFresh(v, w, mid, plan, rs);
      } else {
        FailedLadder(v, w, mid, plan, rs);
      }
    }
  }

  lemma RefusesNeutral(v: Venue, w: World, plan: GridPlan)
    requires HasActive(w.db, plan.symbol)
    ensures NeutralOutcome(v, w, plan, Attempt(w, AlreadyActive), w, w, [])
  {
  }

  /** A ladder that breaks off: while the store shows exposure all that was placed stays on the exchange, whatever
      becomes of the record; on a flat store a failed opening leaves only orders without a name. */
  lemma InterruptedLadder(v: Venue, w: World, plan: GridPlan, o: Attempt, mid: World, at: World, rs: seq<Receipt>)
    requires ExchangeSafe(v, w) && o.outcome.OpenFailed? && NeutralOutcome(v, w, plan, o, mid, at, rs)
    requires |rs| < |plan.entries|
    ensures
      var placed, left := OrdersFor(plan, plan.entries, rs), o.world.ex.resting;
      && at == mid
      && (Exposed(at.db.account.positions, plan.symbol) ==> o.world.db.halted && left == w.ex.resting + placed)
      && (!Exposed(at.db.account.positions, plan.symbol) && o.world.db.campaigns[plan.symbol].status.Failed? ==>
            left == w.ex.resting + Unnamed(placed))
  {
    hide ReceiptFor, OrdersFor, IdsOf, Unnamed, Cleared, Exposed, HasActive, RecordFor, RoundDown, OrderIds,
      StoppedInstalling, Answered;
    ClearingUndoes(v, plan, plan.entries, w, mid.(db := w.db), rs);
  }

  lemma LadderFrom(v: Venue, w: World, w0: World, l: World, plan: GridPlan, rs: seq<Receipt>)
    requires !HasActive(w.db, plan.symbol) && ExchangeSafe(v, w)
    requires w0.ex == w.ex && w0.tick == w.tick && Recorded(w, w0, plan, Opening) && w0.db.halted == w.db.halted
    requires Laddered(v, plan, plan.entries, w0, l, rs)
    ensures LadderDone(v, w, l, plan, rs)
  {
    hide ReceiptFor, OrdersFor, IdsOf, RecordFor;
  }

  lemma Armed(v: Venue, w: World, l: World, plan: GridPlan, rs: seq<Receipt>)
    requires LadderDone(v, w, l, plan, rs) && |rs| == |plan.entries|
    ensures AllResting(v, w, plan, Mark(l, plan.symbol, Active), rs)
  {
    hide ReceiptFor, OrdersFor, IdsOf, RecordFor, HasActive;
    Remarked(w, l, plan, Active);
    MarkKeeps(l, plan.symbol, Active);
    hide Mark, Recorded;
  }

  /** A rollback leaves nothing behind exactly when the exchange named every order it accepted. */
  lemma NothingLeftIffNamed(plan: GridPlan, levels: seq<GridEntryLevel>, rs: seq<Receipt>)
    requires |rs| <= |levels|
    ensures Unnamed(OrdersFor(plan, levels, rs)) == {} <==> forall i | 0 <= i < |rs| :: rs[i].orderId != ""
  {
    hide LevelDirection;
    if i :| 0 <= i < |rs| && rs[i].orderId == "" {
      assert LimitOrder(plan.symbol, LevelDirection(plan, levels[i]), rs[i]) in Unnamed(OrdersFor(plan, levels, rs));
    }
  }

  /** With the gate closed an attempt opens nothing; at most it reduces a position it finds. */
  lemma ClosedGateOpensNothing(v: Venue, w: World, plan: GridPlan)
    requires !ExecutionReady(w.db) && (plan.mode.NEUTRAL_GRID? ==> plan.entries != [])
    ensures
      var o := OpenCampaign(v, w, plan);
      && !o.outcome.Opened?
      && o.world.ex == w.ex.(market := o.world.ex.market)
      && (!plan.mode.NEUTRAL_GRID? ==> o.world.ex == w.ex)
      && |w.ex.market| <= |o.world.ex.market| && o.world.ex.market[..|w.ex.market|] == w.ex.market
      && (forall i | |w.ex.market| <= i < |o.world.ex.market| :: o.world.ex.market[i].reduceOnly)
  {
    hide PlaceLadder, StarterPhase, ProtectAndLadder, PlaceReduceOnly, StoredDirection, Rollback, Exposed;
    var prepared := Prepare(w.db, plan);
    if prepared.Some? && plan.mode.NEUTRAL_GRID? {
      var w0 := w.(db := prepared.value);
      LadderPlaces(v, w0, plan, plan.entries, []);
      var l := PlaceLadder(v, w0, plan, plan.entries, []);
      assert l.world == w0 && l.placed == [];
      assert OrderIds([]) == [];
      EmptyRollback(v, w0, plan.symbol);
    }
  }

  lemma EmptyRollback(v: Venue, w: World, symbol: string)
    ensures Rollback(v, w, symbol, []) == Step(w, true)
  {
  }

  /** For a plan of the planner the registered exits of a side lie on either side of all its entries; they are
      missing exactly when the long stop is not positive. */
  lemma NeutralExitsBracket(plan: GridPlan, d: Direction)
    requires NeutralShape(plan) && (d.LONG? || d.SHORT?)
    ensures
      var p := Protection(RecordFor(plan), d);
      && (p.None? <==> d.LONG? && plan.neutralLongInvalidation.value <= 0.0)
      && (p.Some? ==> forall i | 0 <= i < |plan.entries| && plan.entries[i].direction == d ::
            if d.LONG? then p.value.0 < plan.entries[i].price < p.value.1
            else p.value.1 < plan.entries[i].price < p.value.0)
  {
    hide Allotted;
    forall i | 0 <= i < |plan.entries| ensures LadderLevelOk(plan.entries[i], plan.referencePrice) {
    }
    SomeShort(plan);
  }

  /** A neutral plan sells somewhere above the reference. */
  lemma SomeShort(plan: GridPlan)
    requires NeutralShape(plan)
    ensures plan.neutralShortInvalidation.value > 0.0
  {
    ShortAllotted(plan.entries);
    hide Allotted;
  }

  lemma {:induction false} ShortAllotted(entries: seq<GridEntryLevel>)
    requires Allotted(entries, SHORT) > 0.0
    ensures exists i :: 0 <= i < |entries| && entries[i].direction.SHORT?
  {
    if entries[|entries| - 1].direction.SHORT? {
      assert 0 <= |entries| - 1 < |entries|;
    } else {
      ShortAllotted(entries[..|entries| - 1]);
      var i :| 0 <= i < |entries| - 1 && entries[..|entries| - 1][i].direction.SHORT?;
      assert entries[i].direction.SHORT?;
    }
  }
}
