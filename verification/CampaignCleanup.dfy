/** Exactly when cleanup closes a campaign, and what it cancels. */
module CampaignCleanup {
  import opened Models
  import opened Store
  import opened Adapter
  import opened Campaign
  import opened CampaignInvariant

  // ---- The sweep against the list of what it must cancel ----

  /** The owned limit orders the store shows as resting, in order. */
  function OrderTargets(orders: OrderTable, ids: seq<ClientId>): (t: seq<ClientId>)
    ensures forall id | id in t :: id in ids && id in orders && SweepableOrder(orders, id)
  {
    if ids == [] then []
    else if SweepableOrder(orders, ids[0]) then [ids[0]] + OrderTargets(orders, ids[1..])
    else OrderTargets(orders, ids[1..])
  }

  function AlgoTargets(algos: AlgoTable, ids: seq<ClientId>): (t: seq<ClientId>)
    ensures forall id | id in t :: id in ids && SweepableAlgo(algos, id)
  {
    if ids == [] then []
    else if SweepableAlgo(algos, ids[0]) then [ids[0]] + AlgoTargets(algos, ids[1..])
    else AlgoTargets(algos, ids[1..])
  }

  /** The `n` answers from moment `from` on. */
  ghost predicate NoRefusal(v: Venue, from: nat, n: nat) {
    forall i | from <= i < from + n :: !v.answer(i).Refused?
  }

  ghost predicate SomeMissing(v: Venue, from: nat, n: nat) {
    exists i :: from <= i < from + n && v.answer(i).NotFound?
  }

  /** Resting orders of the symbol under an exchange id stored for one of `ids`. */
  function Swept(orders: OrderTable, resting: set<RestingOrder>, symbol: string,
                 ids: seq<ClientId>): set<RestingOrder> {
    set o | o in resting && o.symbol == symbol
            && (exists id :: id in ids && id in orders && orders[id].exchangeOrderId == o.orderId)
  }

  lemma AnswersSplit(v: Venue, from: nat, n: nat)
    requires n > 0
    ensures NoRefusal(v, from, n) <==> !v.answer(from).Refused? && NoRefusal(v, from + 1, n - 1)
    ensures SomeMissing(v, from, n) <==> v.answer(from).NotFound? || SomeMissing(v, from + 1, n - 1)
  {
    if v.answer(from).NotFound? {
      assert from <= from < from + n;
    }
  }

  lemma SweptStep(orders: OrderTable, resting: set<RestingOrder>, symbol: string, id: ClientId, rest: seq<ClientId>)
    requires id in orders
    ensures WithoutOrder(resting, symbol, orders[id].exchangeOrderId)
            - Swept(orders, WithoutOrder(resting, symbol, orders[id].exchangeOrderId), symbol, rest)
         == resting - Swept(orders, resting, symbol, [id] + rest)
    ensures WithoutOrder(resting, symbol, orders[id].exchangeOrderId)
            >= resting - Swept(orders, resting, symbol, [id] + rest)
  {
    var all := [id] + rest;
    assert all[0] == id;
    assert forall x | x in rest :: x in all;
  }

  /** The order sweep succeeds exactly when no cancel is refused; it then used one answer for each target,
      cancelled exactly the targets, and reports whether one of them was already gone. */
  lemma {:induction false} SweepOrdersExact(v: Venue, w: World, symbol: string, ids: seq<ClientId>, pending: bool)
    ensures
      var t := OrderTargets(w.db.account.orders, ids);
      var s := SweepOrders(v, w, symbol, ids, pending);
      var left := w.ex.resting - Swept(w.db.account.orders, w.ex.resting, symbol, t);
      && (s.ok <==> NoRefusal(v, w.tick, |t|))
      && (s.ok ==> s.world.tick == w.tick + |t| && (s.pending <==> pending || SomeMissing(v, w.tick, |t|))
                   && s.world.ex.resting == left)
      && left <= s.world.ex.resting <= w.ex.resting
    decreases ids
  {
    hide CancelOrder, NoRefusal, SomeMissing, Swept, SweepableOrder, ActiveOrder, Quiet;
    var orders := w.db.account.orders;
    if ids == [] {
      EmptySweep(v, w, symbol);
    } else if !SweepableOrder(orders, ids[0]) {
      SweepOrdersExact(v, w, symbol, ids[1..], pending);
    } else {
      assert ids[0] in orders by { Listed(orders, ids[0]); }
      var c := CancelOrder(v, w, symbol, orders[ids[0]].exchangeOrderId);
      CancelAnswers(v, w, symbol, orders[ids[0]].exchangeOrderId);
      var rest := OrderTargets(orders, ids[1..]);
      AnswersSplit(v, w.tick, 1 + |rest|);
      SweptStep(orders, w.ex.resting, symbol, ids[0], rest);
      if !c.result.Broken? {
        SweepOrdersExact(v, c.world, symbol, ids[1..], pending || c.result.Missing?);
      }
    }
  }

  lemma Listed(orders: OrderTable, id: ClientId)
    ensures SweepableOrder(orders, id) ==> id in orders
  {
  }

  lemma CancelAnswers(v: Venue, w: World, symbol: string, orderId: string)
    ensures var c := CancelOrder(v, w, symbol, orderId);
            && c.world.tick == w.tick + 1
            && (c.result.Broken? <==> v.answer(w.tick).Refused?)
            && (c.result.Missing? <==> v.answer(w.tick).NotFound?)
  {
  }

  lemma EmptySweep(v: Venue, w: World, symbol: string)
    ensures NoRefusal(v, w.tick, 0) && !SomeMissing(v, w.tick, 0) && Elements([]) == {}
    ensures Swept(w.db.account.orders, w.ex.resting, symbol, []) == {}
  {
  }

  function Elements(ids: seq<ClientId>): set<ClientId> {
    set id | id in ids
  }

  lemma CancelAlgoAnswers(v: Venue, w: World, id: ClientId)
    requires id != NoId
    ensures var c := CancelAlgo(v, w, id);
            && c.world.tick == w.tick + 1
            && (c.result.Broken? <==> v.answer(w.tick).Refused?)
            && (c.result.Missing? <==> v.answer(w.tick).NotFound?)
  {
  }

  /** Exits were only taken away. */
  ghost predicate Shrunk(before: map<ClientId, ExitOrder>, after: map<ClientId, ExitOrder>) {
    after.Keys <= before.Keys && forall k | k in after :: after[k] == before[k]
  }

  lemma ElementsStep(algos: map<ClientId, ExitOrder>, id: ClientId, rest: seq<ClientId>)
    ensures algos - {id} - Elements(rest) == algos - Elements([id] + rest)
    ensures Shrunk(algos, algos - {id}) && Shrunk(algos, algos - Elements([id] + rest)) && Shrunk(algos, algos)
  {
    assert Elements([id] + rest) == {id} + Elements(rest);
  }

  lemma ShrunkChains(a: map<ClientId, ExitOrder>, b: map<ClientId, ExitOrder>, c: map<ClientId, ExitOrder>)
    requires Shrunk(a, b) && Shrunk(b, c)
    ensures Shrunk(a, c)
  {
  }

  lemma {:induction false} SweepAlgosExact(v: Venue, w: World, ids: seq<ClientId>, pending: bool)
    requires forall i | 0 <= i < |ids| :: ids[i] != NoId
    ensures
      var t := AlgoTargets(w.db.account.algos, ids);
      var s := SweepAlgos(v, w, ids, pending);
      var left := w.ex.algos - Elements(t);
      && (s.ok <==> NoRefusal(v, w.tick, |t|))
      && (s.ok ==> s.world.tick == w.tick + |t| && (s.pending <==> pending || SomeMissing(v, w.tick, |t|))
                   && s.world.ex.algos == left)
      && Shrunk(s.world.ex.algos, left) && Shrunk(w.ex.algos, s.world.ex.algos)
    decreases ids
  {
    hide CancelAlgo, NoRefusal, SomeMissing, SweepableAlgo, ActiveAlgo, Elements, Quiet, Shrunk;
    var algos := w.db.account.algos;
    if ids == [] {
      EmptySweep(v, w, "");
      ElementsStep(w.ex.algos, NoId, []);
      assert w.ex.algos - {} == w.ex.algos;
    } else if !SweepableAlgo(algos, ids[0]) {
      SweepAlgosExact(v, w, ids[1..], pending);
    } else {
      var c := CancelAlgo(v, w, ids[0]);
      CancelAlgoAnswers(v, w, ids[0]);
      var rest := AlgoTargets(algos, ids[1..]);
      AnswersSplit(v, w.tick, 1 + |rest|);
      ElementsStep(w.ex.algos, ids[0], rest);
      if !c.result.Broken? {
        SweepAlgosExact(v, c.world, ids[1..], pending || c.result.Missing?);
        ShrunkChains(w.ex.algos, c.world.ex.algos, SweepAlgos(v, w, ids, pending).world.ex.algos);
      }
    }
  }

  // ---- Cleanup ----

  /** Cleanup sweeps this campaign: active, flat, and not merely armed. */
  predicate Sweepable(db: Db, symbol: string) {
    && HasActive(db, symbol) && !Exposed(db.account.positions, symbol)
    && !(db.campaigns[symbol].mode.NEUTRAL_GRID? && !db.campaigns[symbol].activated)
  }

  function ExitList(r: CampaignRecord): seq<ClientId> {
    [r.stopId, r.takeProfitId]
  }

  /** How many cancels a cleanup of this campaign takes when none is refused. */
  function Workload(db: Db, r: CampaignRecord): nat {
    |OrderTargets(db.account.orders, r.limitIds)| + |AlgoTargets(db.account.algos, ExitList(r))|
  }

  /** What is left of the exchange once every target of the cleanup is cancelled. */
  function SweptExchange(db: Db, ex: Exchange, r: CampaignRecord): Exchange {
    ex.(resting := ex.resting
                   - Swept(db.account.orders, ex.resting, r.symbol, OrderTargets(db.account.orders, r.limitIds)),
        algos := ex.algos - Elements(AlgoTargets(db.account.algos, ExitList(r))))
  }

  lemma RangesJoin(v: Venue, from: nat, n: nat, m: nat)
    ensures NoRefusal(v, from, n + m) <==> NoRefusal(v, from, n) && NoRefusal(v, from + n, m)
    ensures SomeMissing(v, from, n + m) <==> SomeMissing(v, from, n) || SomeMissing(v, from + n, m)
  {
    if SomeMissing(v, from, n) {
      var i :| from <= i < from + n && v.answer(i).NotFound?;
      assert from <= i < from + (n + m);
    }
    if SomeMissing(v, from + n, m) {
      var i :| from + n <= i < from + n + m && v.answer(i).NotFound?;
      assert from <= i < from + (n + m);
    }
  }

  lemma SweepAllExact(v: Venue, w: World, r: CampaignRecord)
    requires r.stopId != NoId && r.takeProfitId != NoId
    ensures
      var s := SweepAll(v, w, r);
      && (s.ok <==> NoRefusal(v, w.tick, Workload(w.db, r)))
      && (s.ok ==>
            && (s.pending <==> SomeMissing(v, w.tick, Workload(w.db, r)))
            && s.world.ex == SweptExchange(w.db, w.ex, r))
      && SweptExchange(w.db, w.ex, r).resting <= s.world.ex.resting <= w.ex.resting
      && Shrunk(s.world.ex.algos, SweptExchange(w.db, w.ex, r).algos) && Shrunk(w.ex.algos, s.world.ex.algos)
  {
    hide SweepOrders, SweepAlgos, NoRefusal, SomeMissing, OrderTargets, AlgoTargets, Swept, Elements;
    var t, u := OrderTargets(w.db.account.orders, r.limitIds), AlgoTargets(w.db.account.algos, ExitList(r));
    var o := SweepOrders(v, w, r.symbol, r.limitIds, false);
    SweepOrdersExact(v, w, r.symbol, r.limitIds, false);
    RangesJoin(v, w.tick, |t|, |u|);
    if o.ok {
      SweepAlgosExact(v, o.world, ExitList(r), o.pending);
    }
  }

  /** Cleanup answers true exactly when the campaign was flat at both reads and every cancel succeeded, and
      then it is closed with all it owned removed. A cancel that finds nothing only delays the closing; a
      refused one, or a position that came back, halts. Whatever happens, nothing but the campaign's own
      targets is cancelled. */
  lemma CleanupExact(v: Venue, w: World, symbol: string)
    requires Sweepable(w.db, symbol) && Registered(w, symbol)
    ensures
      var c := CleanupIfFlat(v, w, symbol);
      var r := w.db.campaigns[symbol];
      var n := Workload(w.db, r);
      var reopened := Exposed(c.world.db.account.positions, symbol);
      && (c.result.CleanedUp? <==> NoRefusal(v, w.tick, n) && !SomeMissing(v, w.tick, n) && !reopened)
      && (c.result.NotYet? <==> NoRefusal(v, w.tick, n) && SomeMissing(v, w.tick, n) && !reopened)
      && (c.result.CleanedUp? ==> c.world.db.campaigns == w.db.campaigns[symbol := r.(status := Closed)]
                                  && c.world.db.halted == w.db.halted && c.world.ex == SweptExchange(w.db, w.ex, r))
      && (c.result.NotYet? ==> c.world.db.campaigns == w.db.campaigns && c.world.db.halted == w.db.halted
                               && c.world.ex == SweptExchange(w.db, w.ex, r))
      && (c.result.CleanupRaised? ==>
          c.world.db.halted && c.world.db.campaigns == w.db.campaigns[symbol := r.(status := Degraded)])
      && SweptExchange(w.db, w.ex, r).resting <= c.world.ex.resting <= w.ex.resting
      && Shrunk(c.world.ex.algos, SweptExchange(w.db, w.ex, r).algos) && Shrunk(w.ex.algos, c.world.ex.algos)
      && c.world.ex == w.ex.(resting := c.world.ex.resting, algos := c.world.ex.algos)
  {
    hide SweepAll, NoRefusal, SomeMissing, Workload, SweptExchange, Exposed, ActiveCampaign;
    SweepAllExact(v, w, w.db.campaigns[symbol]);
  }

  /** While the store shows exposure, or there is nothing to sweep, cleanup cancels no exit. */
  lemma CleanupSparesExits(v: Venue, w: World, symbol: string)
    requires !Sweepable(w.db, symbol)
    ensures var c := CleanupIfFlat(v, w, symbol);
            && !c.result.CleanedUp?
            && w.ex.algos.Keys <= c.world.ex.algos.Keys && w.ex.accepted <= c.world.ex.accepted
  {
    if HasActive(w.db, symbol) {
      ActivationAddsExits(v, w, w.db.campaigns[symbol]);
    }
    hide ActivatePosition, ActiveCampaign, Exposed, FlatCleanup;
  }

  lemma ActivationAddsExits(v: Venue, w: World, r: CampaignRecord)
    requires r.symbol in w.db.campaigns
    ensures w.ex.algos.Keys <= ActivatePosition(v, w, r).world.ex.algos.Keys
    ensures w.ex.accepted <= ActivatePosition(v, w, r).world.ex.accepted
  {
    hide CancelOpposite, PlaceReduceOnly, PlaceExit, NeutralStopPhase, StoredDirection, Protection;
  }

  // ---- The other side of a neutral ladder ----

  /** The owned entries of the other side that the store shows as resting, in order. */
  function OppositeTargets(orders: OrderTable, ids: seq<ClientId>, d: Direction): (t: seq<ClientId>)
    ensures forall id | id in t :: id in ids && id in orders && CancelableOpposite(orders, id, d)
  {
    if ids == [] then []
    else if CancelableOpposite(orders, ids[0], d) then [ids[0]] + OppositeTargets(orders, ids[1..], d)
    else OppositeTargets(orders, ids[1..], d)
  }

  lemma OppositeListed(orders: OrderTable, id: ClientId, d: Direction)
    ensures CancelableOpposite(orders, id, d) ==> id in orders && orders[id].side != EntrySide(d)
  {
  }

  /** Keeping one side cancels exactly the other side's owned active entries; it fails only on a refusal. */
  lemma {:induction false} CancelOppositeExact(v: Venue, w: World, symbol: string, d: Direction, ids: seq<ClientId>)
    ensures
      var t := OppositeTargets(w.db.account.orders, ids, d);
      var s := CancelOpposite(v, w, symbol, d, ids);
      var left := w.ex.resting - Swept(w.db.account.orders, w.ex.resting, symbol, t);
      && (s.ok <==> NoRefusal(v, w.tick, |t|))
      && (s.ok ==> s.world.ex.resting == left)
      && left <= s.world.ex.resting <= w.ex.resting
    decreases ids
  {
    hide CancelOrder, NoRefusal, SomeMissing, Swept, CancelableOpposite, ActiveOrder, Quiet;
    var orders := w.db.account.orders;
    if ids == [] {
      EmptySweep(v, w, symbol);
    } else if !CancelableOpposite(orders, ids[0], d) {
      CancelOppositeExact(v, w, symbol, d, ids[1..]);
    } else {
      OppositeListed(orders, ids[0], d);
      var c := CancelOrder(v, w, symbol, orders[ids[0]].exchangeOrderId);
      CancelAnswers(v, w, symbol, orders[ids[0]].exchangeOrderId);
      var rest := OppositeTargets(orders, ids[1..], d);
      AnswersSplit(v, w.tick, 1 + |rest|);
      SweptStep(orders, w.ex.resting, symbol, ids[0], rest);
      if !c.result.Broken? {
        CancelOppositeExact(v, c.world, symbol, d, ids[1..]);
      }
    }
  }
}
