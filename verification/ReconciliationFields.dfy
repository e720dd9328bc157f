/** What it takes for a snapshot to agree with the store, in statuses, quantities and fields. */
module ReconciliationFields {
  import opened Models
  import opened Store
  import opened Reconciliation

  // ---- The last row under a key ----

  /** No later row has its key: of several rows under one key only this one is looked at. */
  ghost predicate LastRow<T(!new), K(!new)>(rs: seq<T>, key: T -> K, i: nat)
    requires i < |rs|
  {
    forall j | i < j < |rs| :: key(rs[j]) != key(rs[i])
  }

  function Latest<T, K(==)>(rs: seq<T>, key: T -> K): map<K, T> {
    if rs == [] then map[] else Latest(rs[..|rs| - 1], key)[key(rs[|rs| - 1]) := rs[|rs| - 1]]
  }

  lemma LastStays<T(!new), K(!new)>(front: seq<T>, last: T, key: T -> K, i: nat)
    requires i < |front|
    ensures LastRow(front + [last], key, i) <==> LastRow(front, key, i) && key(front[i]) != key(last)
  {
    var rs := front + [last];
    assert forall j | 0 <= j < |front| :: rs[j] == front[j];
    if LastRow(rs, key, i) {
      assert key(rs[|front|]) != key(rs[i]);
      forall j | i < j < |front| ensures key(front[j]) != key(front[i]) {
        assert key(rs[j]) != key(rs[i]);
      }
    }
  }

  /** The table of the rows keeps exactly the last one of each key. */
  lemma {:induction false} LatestIsLast<T(!new), K(!new)>(rs: seq<T>, key: T -> K)
    ensures forall i | 0 <= i < |rs| && LastRow(rs, key, i) ::
              key(rs[i]) in Latest(rs, key) && Latest(rs, key)[key(rs[i])] == rs[i]
    ensures forall k | k in Latest(rs, key) ::
              exists i :: 0 <= i < |rs| && LastRow(rs, key, i) && key(rs[i]) == k && rs[i] == Latest(rs, key)[k]
  {
    if rs != [] {
      var front, last := rs[..|rs| - 1], rs[|rs| - 1];
      LatestIsLast(front, key);
      assert rs == front + [last];
      hide LastRow;
      LastIsLast(rs, key);
      forall i | 0 <= i < |rs| && LastRow(rs, key, i)
        ensures key(rs[i]) in Latest(rs, key) && Latest(rs, key)[key(rs[i])] == rs[i]
      {
        if i < |front| {
          LastStays(front, last, key, i);
        }
      }
      forall k | k in Latest(rs, key)
        ensures exists i :: 0 <= i < |rs| && LastRow(rs, key, i) && key(rs[i]) == k && rs[i] == Latest(rs, key)[k]
      {
        if k != key(last) {
          var i :| 0 <= i < |front| && LastRow(front, key, i) && key(front[i]) == k
                 && front[i] == Latest(front, key)[k];
          LastStays(front, last, key, i);
          assert rs[i] == front[i];
        }
      }
    }
  }

  lemma LastIsLast<T(!new), K(!new)>(rs: seq<T>, key: T -> K)
    requires rs != []
    ensures LastRow(rs, key, |rs| - 1)
  {
  }

  // ---- The fields ----

  function OrderId(r: RemoteOrder): ClientId { r.clientOrderId }
  function AlgoId(r: RemoteAlgo): ClientId { r.clientAlgoId }
  function PositionSymbol(r: RemotePosition): string { r.symbol }

  /** The store has the order open, with the same eight fields. */
  predicate OpenOrderEquals(orders: OrderTable, r: RemoteOrder) {
    && r.clientOrderId in orders
    && var l := orders[r.clientOrderId];
    && l.status in {NEW, PARTIALLY_FILLED, PENDING_CANCEL}
    && l.exchangeOrderId == r.exchangeOrderId && l.symbol == r.symbol && l.side == r.side && l.status == r.status
    && l.orderType == r.orderType && l.origQty == r.origQty && l.filledQty == r.filledQty
    && l.reduceOnly == r.reduceOnly
  }

  /** The store has the conditional order live, with the same nine fields, the same quantity unless both close the whole
      position, and no other actual order. */
  predicate LiveAlgoEquals(algos: AlgoTable, r: RemoteAlgo) {
    && r.clientAlgoId in algos
    && var l := algos[r.clientAlgoId];
    && l.status in {NEW, WORKING, PENDING}
    && l.algoId == r.algoId && l.symbol == r.symbol && l.side == r.side && l.status == r.status
    && l.algoType == r.algoType && l.orderType == r.orderType && l.triggerPrice == r.triggerPrice
    && l.closePosition == r.closePosition && l.reduceOnly == r.reduceOnly
    && (!(l.closePosition && r.closePosition) ==> l.quantity == r.quantity)
    && (l.actualOrderId != "" && r.actualOrderId != "" ==> l.actualOrderId == r.actualOrderId)
  }

  /** The store has the position, of some size, with the same side, size and entry price. */
  predicate HeldPositionEquals(positions: PositionTable, r: RemotePosition) {
    && r.symbol in positions
    && var l := positions[r.symbol];
    && l.quantity != 0.0 && l.direction == r.direction && l.quantity == r.quantity && l.entryPrice == r.entryPrice
  }

  /** Every listed row is open in the store with the same fields, and everything open in the store is listed. */
  ghost predicate EqualOpenOrders(orders: OrderTable, rs: seq<RemoteOrder>) {
    && (forall i | 0 <= i < |rs| && LastRow(rs, OrderId, i) :: OpenOrderEquals(orders, rs[i]))
    && (forall c | c in orders && orders[c].status in {NEW, PARTIALLY_FILLED, PENDING_CANCEL} ::
          exists i :: 0 <= i < |rs| && LastRow(rs, OrderId, i) && rs[i].clientOrderId == c)
  }

  ghost predicate EqualLiveAlgos(algos: AlgoTable, rs: seq<RemoteAlgo>) {
    && (forall i | 0 <= i < |rs| && LastRow(rs, AlgoId, i) :: LiveAlgoEquals(algos, rs[i]))
    && (forall c | c in algos && algos[c].status in {NEW, WORKING, PENDING} ::
          exists i :: 0 <= i < |rs| && LastRow(rs, AlgoId, i) && rs[i].clientAlgoId == c)
  }

  ghost predicate EqualPositions(positions: PositionTable, rs: seq<RemotePosition>) {
    && (forall i | 0 <= i < |rs| && LastRow(rs, PositionSymbol, i) :: HeldPositionEquals(positions, rs[i]))
    && (forall s | s in positions && positions[s].quantity != 0.0 ::
          exists i :: 0 <= i < |rs| && LastRow(rs, PositionSymbol, i) && rs[i].symbol == s)
  }

  lemma {:induction false} SameTables(s: Snapshot)
    ensures OrdersById(s.orders) == Latest(s.orders, OrderId)
    ensures AlgosById(s.algos) == Latest(s.algos, AlgoId)
    ensures PositionsBySymbol(s.positions) == Latest(s.positions, PositionSymbol)
    decreases |s.orders| + |s.algos| + |s.positions|
  {
    if s.orders != [] {
      SameTables(s.(orders := s.orders[..|s.orders| - 1]));
    }
    if s.algos != [] {
      SameTables(s.(algos := s.algos[..|s.algos| - 1]));
    }
    if s.positions != [] {
      SameTables(s.(positions := s.positions[..|s.positions| - 1]));
    }
  }

  lemma OpenOrderMeans(orders: OrderTable, r: RemoteOrder)
    ensures forall c :: c in ActiveOrders(orders) <==>
              c in orders && orders[c].status in {NEW, PARTIALLY_FILLED, PENDING_CANCEL}
    ensures OpenOrderEquals(orders, r) <==>
              r.clientOrderId in ActiveOrders(orders) && OrderMatches(ActiveOrders(orders)[r.clientOrderId], r)
  {
    hide OrdersKeyed;
  }

  lemma OrdersAgreeIff(orders: OrderTable, rs: seq<RemoteOrder>)
    ensures
      var lo, ro := ActiveOrders(orders), Latest(rs, OrderId);
      (lo.Keys == ro.Keys && forall c | c in lo :: c in ro && OrderMatches(lo[c], ro[c])) <==>
        EqualOpenOrders(orders, rs)
  {
    hide Latest, OrdersKeyed, OpenOrderEquals, OrderMatches, ActiveOrders, LastRow;
    LatestIsLast(rs, OrderId);
    var lo, ro := ActiveOrders(orders), Latest(rs, OrderId);
    OpenOrderMeans(orders, RemoteOrder(NoId, "", "", BUY, NEW, "", 0.0, 0.0, 0.0, false));
    if lo.Keys == ro.Keys && forall c | c in lo :: c in ro && OrderMatches(lo[c], ro[c]) {
      forall c | c in lo ensures exists i :: 0 <= i < |rs| && LastRow(rs, OrderId, i) && rs[i].clientOrderId == c {
        var i :| 0 <= i < |rs| && LastRow(rs, OrderId, i) && OrderId(rs[i]) == c;
      }
      forall i | 0 <= i < |rs| && LastRow(rs, OrderId, i) ensures OpenOrderEquals(orders, rs[i]) {
        assert OrderId(rs[i]) in lo;
        OpenOrderMeans(orders, rs[i]);
      }
    }
    if EqualOpenOrders(orders, rs) {
      forall c | c in ro ensures c in lo && OrderMatches(lo[c], ro[c]) {
        var i :| 0 <= i < |rs| && LastRow(rs, OrderId, i) && OrderId(rs[i]) == c && rs[i] == ro[c];
        OpenOrderMeans(orders, rs[i]);
      }
    }
  }

  lemma LiveAlgoMeans(algos: AlgoTable, r: RemoteAlgo)
    ensures forall c :: c in ActiveAlgos(algos) <==> c in algos && algos[c].status in {NEW, WORKING, PENDING}
    ensures LiveAlgoEquals(algos, r) <==>
              r.clientAlgoId in ActiveAlgos(algos) && AlgoMatches(ActiveAlgos(algos)[r.clientAlgoId], r)
  {
    hide AlgosKeyed;
  }

  lemma AlgosAgreeIff(algos: AlgoTable, rs: seq<RemoteAlgo>)
    ensures
      var la, ra := ActiveAlgos(algos), Latest(rs, AlgoId);
      (la.Keys == ra.Keys && forall c | c in la :: c in ra && AlgoMatches(la[c], ra[c])) <==> EqualLiveAlgos(algos, rs)
  {
    hide Latest, AlgosKeyed, LiveAlgoEquals, AlgoMatches, ActiveAlgos, LastRow;
    LatestIsLast(rs, AlgoId);
    var la, ra := ActiveAlgos(algos), Latest(rs, AlgoId);
    LiveAlgoMeans(algos, RemoteAlgo(NoId, "", "", BUY, NEW, "", "", 0.0, 0.0, false, false, ""));
    if la.Keys == ra.Keys && forall c | c in la :: c in ra && AlgoMatches(la[c], ra[c]) {
      forall c | c in la ensures exists i :: 0 <= i < |rs| && LastRow(rs, AlgoId, i) && rs[i].clientAlgoId == c {
        var i :| 0 <= i < |rs| && LastRow(rs, AlgoId, i) && AlgoId(rs[i]) == c;
      }
      forall i | 0 <= i < |rs| && LastRow(rs, AlgoId, i) ensures LiveAlgoEquals(algos, rs[i]) {
        assert AlgoId(rs[i]) in la;
        LiveAlgoMeans(algos, rs[i]);
      }
    }
    if EqualLiveAlgos(algos, rs) {
      forall c | c in ra ensures c in la && AlgoMatches(la[c], ra[c]) {
        var i :| 0 <= i < |rs| && LastRow(rs, AlgoId, i) && AlgoId(rs[i]) == c && rs[i] == ra[c];
        LiveAlgoMeans(algos, rs[i]);
      }
    }
  }

  lemma PositionsAgreeIff(positions: PositionTable, rs: seq<RemotePosition>)
    ensures
      var lp, rp := OpenPositions(positions), Latest(rs, PositionSymbol);
      (lp.Keys == rp.Keys && forall c | c in lp :: c in rp && PositionMatches(lp[c], rp[c])) <==>
        EqualPositions(positions, rs)
  {
    LatestIsLast(rs, PositionSymbol);
    hide Latest, PositionsKeyed;
    var lp, rp := OpenPositions(positions), Latest(rs, PositionSymbol);
    if lp.Keys == rp.Keys && forall c | c in lp :: c in rp && PositionMatches(lp[c], rp[c]) {
      hide LastRow;
      forall s | s in positions && positions[s].quantity != 0.0
        ensures exists i :: 0 <= i < |rs| && LastRow(rs, PositionSymbol, i) && rs[i].symbol == s
      {
        assert s in lp && s in rp;
      }
      forall i | 0 <= i < |rs| && LastRow(rs, PositionSymbol, i) ensures HeldPositionEquals(positions, rs[i]) {
        assert PositionSymbol(rs[i]) in lp;
      }
    }
    if EqualPositions(positions, rs) {
      forall c | c in rp ensures c in lp && PositionMatches(lp[c], rp[c]) {
        var i :| 0 <= i < |rs| && LastRow(rs, PositionSymbol, i) && PositionSymbol(rs[i]) == c && rs[i] == rp[c];
        assert HeldPositionEquals(positions, rs[i]);
      }
    }
  }

  /** A snapshot agrees exactly when its open orders, live conditional orders and positions are those of the store,
      field by field and none missing on either side. */
  lemma AgreesInFields(a: Account, s: Snapshot)
    ensures Agrees(a, s) <==>
              && EqualOpenOrders(a.orders, s.orders) && EqualLiveAlgos(a.algos, s.algos)
              && EqualPositions(a.positions, s.positions)
  {
    SameTables(s);
    OrdersAgreeIff(a.orders, s.orders);
    AlgosAgreeIff(a.algos, s.algos);
    PositionsAgreeIff(a.positions, s.positions);
    hide OrdersById, AlgosById, PositionsBySymbol, Latest, ActiveOrders, ActiveAlgos, OpenPositions, OrderMatches,
      AlgoMatches, PositionMatches, EqualOpenOrders, EqualLiveAlgos, EqualPositions;
  }

  /** A snapshot is taken exactly when the store is not halted and agrees; then the gate is left as asked, and otherwise
      execution is halted with the gate shut. */
  lemma ReconciledInFields(db: Db, s: Snapshot, activate: bool)
    ensures
      var after := Reconciled(db, s, activate);
      var taken := && !db.halted && EqualOpenOrders(db.account.orders, s.orders)
                   && EqualLiveAlgos(db.account.algos, s.algos) && EqualPositions(db.account.positions, s.positions);
      && (taken ==> after == db.(ready := activate))
      && (!taken ==> after.halted && !after.ready && after.account == db.account
                     && after.haltReason == if db.halted then db.haltReason else ReconciliationMismatch)
  {
    AgreesInFields(db.account, s);
    hide Agrees, EqualOpenOrders, EqualLiveAlgos, EqualPositions;
  }
}
