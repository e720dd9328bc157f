/** The merging of order and algo events in terms of the fields of the messages. */
module UserDataFields {
  import opened Models
  import opened Store
  import opened UserData
  import opened UserDataConvergence
  import Safety = UserDataSafety

  /** The first of three stamps that is present and not zero, and 0 when none is. */
  function FirstStamp(a: Option<int>, b: Option<int>, c: Option<int>): int {
    if a.Some? && a.value != 0 then a.value
    else if b.Some? && b.value != 0 then b.value
    else if c.Some? then c.value
    else 0
  }

  /** An order's stamp: its own T, else the event's T, else the event's E. */
  function OrderStamp(m: OrderMsg): int {
    FirstStamp(m.tradeMs, m.transactMs, m.eventMs)
  }

  /** An algo event has no T of its own. */
  function AlgoStamp(m: AlgoMsg): int {
    FirstStamp(m.transactMs, m.eventMs, None)
  }

  /** Negative trade ids are no trade ids. */
  function TradeOfMsg(m: OrderMsg): Option<int> {
    if m.tradeId.Some? && m.tradeId.value >= 0 then m.tradeId else None
  }

  lemma StampOfTwo(a: Option<int>, b: Option<int>)
    ensures Stamp([a, b]) == FirstStamp(a, b, None)
  {
    assert [a, b][1..] == [b] && [b][1..] == [];
    assert Stamp([b]) == if b.Some? then b.value else 0;
  }

  lemma StampOfThree(a: Option<int>, b: Option<int>, c: Option<int>)
    ensures Stamp([a, b, c]) == FirstStamp(a, b, c)
  {
    StampOfTwo(b, c);
    assert [a, b, c][1..] == [b, c];
  }

  lemma StampsMean(m: OrderMsg, g: AlgoMsg)
    ensures OrderTime(m) == OrderStamp(m) && AlgoTime(g) == AlgoStamp(g) && LastTradeId(m.tradeId) == TradeOfMsg(m)
  {
    StampOfThree(m.tradeMs, m.transactMs, m.eventMs);
    StampOfTwo(g.transactMs, g.eventMs);
  }

  // ---- Lifecycles ----

  /** Two events of one order agree in what never changes; of different stamps the later one has filled no less and
      leaves no final status; events of different orders carry different exchange ids. */
  predicate OneOrderHistory(m: OrderMsg, n: OrderMsg) {
    if m.clientId == n.clientId then
      && m.exchangeId == n.exchangeId && m.symbol == n.symbol && m.side == n.side && m.orderType == n.orderType
      && m.quantity == n.quantity && m.reduceOnly == n.reduceOnly
      && (OrderStamp(m) == OrderStamp(n) ==> m == n)
      && (OrderStamp(m) < OrderStamp(n) ==>
            && m.filled <= n.filled
            && (m.status in {FILLED, CANCELED, EXPIRED, REJECTED, EXPIRED_IN_MATCH} ==> n.status == m.status))
    else m.exchangeId != n.exchangeId || m.exchangeId == ""
  }

  predicate OneAlgoHistory(m: AlgoMsg, n: AlgoMsg) {
    if m.clientId == n.clientId then
      && m.algoId == n.algoId && m.symbol == n.symbol && m.side == n.side && m.algoType == n.algoType
      && m.orderType == n.orderType && m.triggerPrice == n.triggerPrice && m.closePosition == n.closePosition
      && m.reduceOnly == n.reduceOnly && (m.closePosition || m.quantity == n.quantity)
      && (AlgoStamp(m) == AlgoStamp(n) ==> m == n)
      && (AlgoStamp(m) < AlgoStamp(n) ==>
            && (m.status in {FINISHED, CANCELED, EXPIRED, REJECTED, FAILED} ==> n.status == m.status)
            && (m.status == TRIGGERED ==> n.status in {TRIGGERED, FINISHED}))
    else m.algoId != n.algoId || m.algoId == ""
  }

  /** Events of the engine's own orders and algos on a one-way account, each with a stamp, that fit together. */
  ghost predicate Histories(ds: seq<Msg>) {
    && (forall x | x in ds :: x.OrderEvent? || x.AlgoEvent?)
    && (forall m | OrderEvent(m) in ds :: m.positionSide == BOTH && m.clientId.SgId? && OrderStamp(m) > 0)
    && (forall m | AlgoEvent(m) in ds :: m.positionSide == BOTH && m.clientId.SgId? && AlgoStamp(m) > 0)
    && (forall m, n | OrderEvent(m) in ds && OrderEvent(n) in ds :: OneOrderHistory(m, n))
    && (forall m, n | AlgoEvent(m) in ds && AlgoEvent(n) in ds :: OneAlgoHistory(m, n))
  }

  /** What the dedup digest of an order event is taken over: E, T, i, c, x, X, z and t. */
  predicate SameDigest(m: OrderMsg, n: OrderMsg) {
    && m.eventMs == n.eventMs && m.transactMs == n.transactMs && m.exchangeId == n.exchangeId
    && m.clientId == n.clientId && m.execType == n.execType && m.status == n.status && m.filled == n.filled
    && TradeOfMsg(m) == TradeOfMsg(n)
  }

  /** No two different order events look the same to it. */
  ghost predicate DigestsTellApart(ds: seq<Msg>) {
    forall m, n | OrderEvent(m) in ds && OrderEvent(n) in ds && SameDigest(m, n) :: m == n
  }

  /** The account has seen none of the events, and no row of theirs under any of the two ids. */
  ghost predicate Unheard(a: Account, ds: seq<Msg>) {
    && (forall m | OrderEvent(m) in ds ::
          OrderKey(m.eventMs, m.transactMs, m.exchangeId, m.clientId, m.execType, m.status, m.filled,
                   TradeOfMsg(m)) !in a.events)
    && (forall m | AlgoEvent(m) in ds ::
          AlgoKey(m.eventMs, m.transactMs, m.algoId, m.clientId, m.status, m.actualOrderId) !in a.events)
    && (forall m, c | OrderEvent(m) in ds && c in a.orders ::
          c != m.clientId && (a.orders[c].exchangeOrderId != m.exchangeId || m.exchangeId == ""))
    && (forall m, c | AlgoEvent(m) in ds && c in a.algos ::
          c != m.clientId && (a.algos[c].algoId != m.algoId || m.algoId == ""))
  }

  lemma OrderHistoriesCohere(m: OrderMsg, n: OrderMsg, g: AlgoMsg)
    requires OneOrderHistory(m, n)
    ensures OrdersCohere(m, n)
  {
    StampsMean(m, g);
    StampsMean(n, g);
    hide OrderStamp, OrderTime, LastTradeId;
  }

  lemma AlgoHistoriesCohere(m: AlgoMsg, n: AlgoMsg, o: OrderMsg)
    requires OneAlgoHistory(m, n)
    ensures AlgosCohere(m, n)
  {
    StampsMean(o, m);
    StampsMean(o, n);
    hide AlgoStamp, AlgoTime;
  }

  lemma OwnMessages(x: Msg, o: OrderMsg, g: AlgoMsg)
    requires x.OrderEvent? ==> x.order.positionSide == BOTH && x.order.clientId.SgId? && OrderStamp(x.order) > 0
    requires x.AlgoEvent? ==> x.algo.positionSide == BOTH && x.algo.clientId.SgId? && AlgoStamp(x.algo) > 0
    requires x.OrderEvent? || x.AlgoEvent?
    ensures Own(x)
  {
    StampsMean(if x.OrderEvent? then x.order else o, if x.AlgoEvent? then x.algo else g);
    hide OrderStamp, AlgoStamp, OrderTime, AlgoTime;
  }

  /** Some messages, for the lemmas that speak of one of each kind. */
  const AN_ORDER := OrderMsg(None, None, None, NoId, "", "", BUY, NEW, "", "", BOTH, 0.0, 0.0, 0.0, false, None)
  const AN_ALGO := AlgoMsg(None, None, NoId, "", "", BUY, NEW, "", "", BOTH, 0.0, 0.0, false, false, "")

  lemma HistoriesCohere(ds: seq<Msg>)
    requires Histories(ds)
    ensures Coherent(ds)
  {
    hide OneOrderHistory, OneAlgoHistory, OrdersCohere, AlgosCohere, Own, OrderStamp, AlgoStamp;
    forall x | x in ds ensures Own(x) {
      if x.OrderEvent? {
        assert OrderEvent(x.order) in ds;
      } else {
        assert AlgoEvent(x.algo) in ds;
      }
      OwnMessages(x, AN_ORDER, AN_ALGO);
    }
    forall m, n | OrderEvent(m) in ds && OrderEvent(n) in ds ensures OrdersCohere(m, n) {
      OrderHistoriesCohere(m, n, AN_ALGO);
    }
    forall m, n | AlgoEvent(m) in ds && AlgoEvent(n) in ds ensures AlgosCohere(m, n) {
      AlgoHistoriesCohere(m, n, AN_ORDER);
    }
  }

  lemma SameKeySameDigest(m: OrderMsg, n: OrderMsg)
    ensures KeyOfOrder(m) == KeyOfOrder(n) <==> SameDigest(m, n)
  {
    StampsMean(m, AN_ALGO);
    StampsMean(n, AN_ALGO);
    hide OrderStamp, OrderTime;
  }

  lemma DigestsAreFaithful(ds: seq<Msg>)
    ensures DigestsTellApart(ds) <==> KeysFaithful(ds)
  {
    hide KeyOfOrder, SameDigest;
    if DigestsTellApart(ds) {
      forall m, n | OrderEvent(m) in ds && OrderEvent(n) in ds && KeyOfOrder(m) == KeyOfOrder(n) ensures m == n {
        SameKeySameDigest(m, n);
      }
    }
    if KeysFaithful(ds) {
      forall m, n | OrderEvent(m) in ds && OrderEvent(n) in ds && SameDigest(m, n) ensures m == n {
        SameKeySameDigest(m, n);
      }
    }
  }

  lemma UnheardIsFresh(a: Account, ds: seq<Msg>)
    requires Unheard(a, ds)
    ensures Fresh(a, ds)
  {
    hide OrdersKeyed, AlgosKeyed, LastTradeId, TradeOfMsg;
    forall m: OrderMsg ensures LastTradeId(m.tradeId) == TradeOfMsg(m) {
      StampsMean(m, AN_ALGO);
    }
  }

  /** The row shows the order event, field by field. */
  predicate ShowsOrder(row: StoredOrder, m: OrderMsg) {
    && row.clientOrderId == m.clientId && row.exchangeOrderId == m.exchangeId && row.symbol == m.symbol
    && row.side == m.side && row.status == m.status && row.orderType == m.orderType
    && row.origQty == m.quantity && row.filledQty == m.filled && row.avgPrice == m.avgPrice
    && row.reduceOnly == m.reduceOnly && row.eventTime == OrderStamp(m) && row.lastTradeId == TradeOfMsg(m)
  }

  predicate ShowsAlgo(row: StoredAlgoOrder, m: AlgoMsg) {
    && row.clientAlgoId == m.clientId && row.algoId == m.algoId && row.symbol == m.symbol && row.side == m.side
    && row.status == m.status && row.algoType == m.algoType && row.orderType == m.orderType
    && row.triggerPrice == m.triggerPrice && row.quantity == m.quantity && row.closePosition == m.closePosition
    && row.reduceOnly == m.reduceOnly && row.actualOrderId == m.actualOrderId && row.eventTime == AlgoStamp(m)
  }

  lemma RowsShow(m: OrderMsg, g: AlgoMsg)
    ensures ShowsOrder(IncomingOrder(m), m) && ShowsAlgo(IncomingAlgo(g), g)
  {
    StampsMean(m, g);
    hide OrderStamp, AlgoStamp, OrderTime, AlgoTime, LastTradeId, TradeOfMsg;
  }

  /** None of the other order events of its id is later. */
  ghost predicate NewestOrder(ds: seq<Msg>, m: OrderMsg) {
    OrderEvent(m) in ds && forall n | OrderEvent(n) in ds && n.clientId == m.clientId :: OrderStamp(n) <= OrderStamp(m)
  }

  ghost predicate NewestAlgo(ds: seq<Msg>, m: AlgoMsg) {
    AlgoEvent(m) in ds && forall n | AlgoEvent(n) in ds && n.clientId == m.clientId :: AlgoStamp(n) <= AlgoStamp(m)
  }

  lemma NewestIsLatest(ds: seq<Msg>, m: OrderMsg, g: AlgoMsg)
    ensures NewestOrder(ds, m) ==> LatestOrder(ds, m)
    ensures NewestAlgo(ds, g) ==> LatestAlgo(ds, g)
  {
    hide OrderStamp, AlgoStamp, OrderTime, AlgoTime;
    forall n: OrderMsg ensures OrderTime(n) == OrderStamp(n) {
      StampsMean(n, AN_ALGO);
    }
    forall n: AlgoMsg ensures AlgoTime(n) == AlgoStamp(n) {
      StampsMean(AN_ORDER, n);
    }
  }

  lemma NewestRowsShow(a: Account, ds: seq<Msg>)
    requires Coherent(ds) && KeysFaithful(ds) && Fresh(a, ds)
    ensures forall m | NewestOrder(ds, m) ::
              m.clientId in After(a, ds).orders && ShowsOrder(After(a, ds).orders[m.clientId], m)
    ensures forall m | NewestAlgo(ds, m) ::
              m.clientId in After(a, ds).algos && ShowsAlgo(After(a, ds).algos[m.clientId], m)
  {
    hide Coherent, KeysFaithful, Fresh, After, NewestOrder, NewestAlgo, LatestOrder, LatestAlgo, ShowsOrder, ShowsAlgo,
      IncomingOrder, IncomingAlgo, OrdersKeyed, AlgosKeyed;
    ConvergesToLatest(a, ds);
    forall m | NewestOrder(ds, m)
      ensures m.clientId in After(a, ds).orders && ShowsOrder(After(a, ds).orders[m.clientId], m)
    {
      NewestIsLatest(ds, m, AN_ALGO);
      RowsShow(m, AN_ALGO);
    }
    forall m | NewestAlgo(ds, m)
      ensures m.clientId in After(a, ds).algos && ShowsAlgo(After(a, ds).algos[m.clientId], m)
    {
      NewestIsLatest(ds, AN_ORDER, m);
      RowsShow(AN_ORDER, m);
    }
  }

  /** Delivered in any order and any number of times, such events never halt, and each order and algo ends with
      exactly the fields of its newest event. */
  lemma HistoriesConverge(a: Account, ds: seq<Msg>)
    requires Histories(ds) && DigestsTellApart(ds) && Unheard(a, ds)
    ensures forall k, db: Db | 0 <= k < |ds| && db.account == After(a, ds[..k]) ::
              OnMessage(db, ds[k]) == db.(account := After(a, ds[..k + 1]))
    ensures forall m | NewestOrder(ds, m) ::
              m.clientId in After(a, ds).orders && ShowsOrder(After(a, ds).orders[m.clientId], m)
    ensures forall m | NewestAlgo(ds, m) ::
              m.clientId in After(a, ds).algos && ShowsAlgo(After(a, ds).algos[m.clientId], m)
  {
    hide Histories, DigestsTellApart, Unheard, Coherent, KeysFaithful, Fresh, After, Handle, Tracks, NewestOrder,
      NewestAlgo, ShowsOrder, ShowsAlgo, OrdersKeyed, AlgosKeyed;
    HistoriesCohere(ds);
    DigestsAreFaithful(ds);
    UnheardIsFresh(a, ds);
    NewestRowsShow(a, ds);
    DeliveriesTrack(a, ds);
    forall k, db: Db | 0 <= k < |ds| && db.account == After(a, ds[..k])
      ensures OnMessage(db, ds[k]) == db.(account := After(a, ds[..k + 1]))
    {
      AfterSnoc(a, ds[..k], ds[k]);
      assert ds[..k + 1] == ds[..k] + [ds[k]];
    }
  }

  lemma ShownIsIncoming(row: StoredOrder, m: OrderMsg)
    ensures ShowsOrder(row, m) <==> row == IncomingOrder(m)
  {
    RowsShow(m, AN_ALGO);
    StampsMean(m, AN_ALGO);
    hide OrderStamp, OrderTime, LastTradeId, TradeOfMsg;
  }

  /** Every choice, order and repetition of the events leaves each order with the fields of its newest one. */
  ghost predicate EndsOnNewest(a: Account, ds: seq<Msg>) {
    forall es: seq<Msg>, m: OrderMsg | (forall x | x in es :: x in ds) && NewestOrder(es, m) ::
      m.clientId in After(a, es).orders && ShowsOrder(After(a, es).orders[m.clientId], m)
  }

  lemma EndsOnNewestIff(a: Account, ds: seq<Msg>)
    ensures EndsOnNewest(a, ds) <==> Converges(a, ds)
  {
    hide After, LatestOrder, NewestOrder, ShowsOrder, IncomingOrder, OrdersKeyed, AlgosKeyed;
    forall es: seq<Msg>, m: OrderMsg ensures NewestOrder(es, m) <==> LatestOrder(es, m) {
      NewestMeans(es, m);
    }
    forall row, m ensures ShowsOrder(row, m) <==> row == IncomingOrder(m) {
      ShownIsIncoming(row, m);
    }
  }

  lemma NewestMeans(es: seq<Msg>, m: OrderMsg)
    ensures NewestOrder(es, m) <==> LatestOrder(es, m)
  {
    hide OrderStamp, OrderTime;
    forall n: OrderMsg ensures OrderTime(n) == OrderStamp(n) {
      StampsMean(n, AN_ALGO);
    }
  }

  /** And that is so exactly when no two different events share a digest. */
  lemma HistoriesConvergeIff(a: Account, ds: seq<Msg>)
    requires Histories(ds) && Unheard(a, ds)
    ensures EndsOnNewest(a, ds) <==> DigestsTellApart(ds)
  {
    HistoriesCohere(ds);
    DigestsAreFaithful(ds);
    UnheardIsFresh(a, ds);
    hide Histories, DigestsTellApart, Unheard, Coherent, KeysFaithful, Fresh, EndsOnNewest, Converges;
    EndsOnNewestIff(a, ds);
    ConvergenceIffKeysFaithful(a, ds);
  }

  // ---- Single events ----

  /** The stored row an order event is held against: the one of its client id, else the one of its exchange id. */
  ghost predicate MeetsOrder(orders: OrderTable, m: OrderMsg, row: StoredOrder) {
    || (m.clientId in orders && row == orders[m.clientId])
    || (m.clientId !in orders && m.exchangeId != ""
        && exists c :: c in orders && orders[c].exchangeOrderId == m.exchangeId && row == orders[c])
  }

  ghost predicate MeetsAlgo(algos: AlgoTable, m: AlgoMsg, row: StoredAlgoOrder) {
    || (m.clientId in algos && row == algos[m.clientId])
    || (m.clientId !in algos && m.algoId != ""
        && exists c :: c in algos && algos[c].algoId == m.algoId && row == algos[c])
  }

  predicate StaleFor(time: int, stamp: int) {
    stamp != 0 && stamp < time
  }

  /** The event contradicts the row: a field that never changes differs, or, unless the event is older than the
      row, the fill goes back or a final status changes. */
  predicate ContradictsOrder(row: StoredOrder, m: OrderMsg) {
    || row.exchangeOrderId != m.exchangeId || row.symbol != m.symbol || row.side != m.side
    || row.orderType != m.orderType || row.origQty != m.quantity || row.reduceOnly != m.reduceOnly
    || (!StaleFor(row.eventTime, OrderStamp(m))
        && (m.filled < row.filledQty
            || (row.status in {FILLED, CANCELED, EXPIRED, REJECTED, EXPIRED_IN_MATCH} && m.status != row.status)))
  }

  predicate ContradictsAlgo(row: StoredAlgoOrder, m: AlgoMsg) {
    || row.algoId != m.algoId || row.symbol != m.symbol || row.side != m.side || row.algoType != m.algoType
    || row.orderType != m.orderType || row.triggerPrice != m.triggerPrice || row.closePosition != m.closePosition
    || row.reduceOnly != m.reduceOnly
    || (!(row.closePosition && m.closePosition) && row.quantity != m.quantity)
    || (!StaleFor(row.eventTime, AlgoStamp(m))
        && ((row.status in {FINISHED, CANCELED, EXPIRED, REJECTED, FAILED} && m.status != row.status)
            || (row.status == TRIGGERED && m.status !in {TRIGGERED, FINISHED})))
  }

  /** The row is unique: two rows never share an exchange id. */
  lemma FoundOrder(orders: OrderTable, m: OrderMsg, row: StoredOrder)
    requires !m.clientId.NoId?
    ensures MeetsOrder(orders, m, row) <==> FindOrder(orders, m.clientId, m.exchangeId) == Some(row)
  {
  }

  lemma FoundAlgo(algos: AlgoTable, m: AlgoMsg, row: StoredAlgoOrder)
    requires !m.clientId.NoId?
    ensures MeetsAlgo(algos, m, row) <==> FindAlgo(algos, m.clientId, m.algoId) == Some(row)
  {
  }

  lemma OrderConflictMeans(row: StoredOrder, m: OrderMsg)
    ensures OrderVerdict(Some(row), IncomingOrder(m)).Conflict? <==> ContradictsOrder(row, m)
    ensures OrderVerdict(Some(row), IncomingOrder(m)).Stale? <==>
              !ContradictsOrder(row, m) && StaleFor(row.eventTime, OrderStamp(m))
    ensures OrderVerdict(Some(row), IncomingOrder(m)).Duplicate? <==>
              !ContradictsOrder(row, m) && !StaleFor(row.eventTime, OrderStamp(m)) && ShowsOrder(row, m)
  {
    StampsMean(m, AN_ALGO);
    hide OrderStamp, OrderTime, LastTradeId, TradeOfMsg;
  }

  lemma AlgoConflictMeans(row: StoredAlgoOrder, m: AlgoMsg)
    ensures AlgoVerdict(Some(row), IncomingAlgo(m)).Conflict? <==> ContradictsAlgo(row, m)
    ensures AlgoVerdict(Some(row), IncomingAlgo(m)).Stale? <==>
              !ContradictsAlgo(row, m) && StaleFor(row.eventTime, AlgoStamp(m))
    ensures AlgoVerdict(Some(row), IncomingAlgo(m)).Duplicate? <==>
              !ContradictsAlgo(row, m) && !StaleFor(row.eventTime, AlgoStamp(m)) && ShowsAlgo(row, m)
  {
    StampsMean(AN_ORDER, m);
    hide AlgoStamp, AlgoTime;
  }

  /** Exactly when an order event halts: on a hedged account, for a forced close, without a client id, for an order
      that is neither stored nor the engine's own, or when it contradicts the stored row. No table changes then. */
  lemma OrderHaltsIff(a: Account, m: OrderMsg)
    ensures
      var h := Handle(a, OrderEvent(m));
      && (h.effect.HaltFor? <==>
            || m.positionSide != BOTH || m.clientId.AutoCloseId? || m.clientId.NoId?
            || (!m.clientId.SgId? && forall row :: !MeetsOrder(a.orders, m, row))
            || exists row :: MeetsOrder(a.orders, m, row) && ContradictsOrder(row, m))
      && (h.effect.HaltFor? ==> h.account == a)
  {
    var found := FindOrder(a.orders, m.clientId, m.exchangeId);
    if !m.clientId.NoId? {
      forall row ensures MeetsOrder(a.orders, m, row) <==> found == Some(row) {
        FoundOrder(a.orders, m, row);
      }
    }
    if found.Some? {
      OrderConflictMeans(found.value, m);
    }
    hide FindOrder, OrderVerdict, MeetsOrder, ContradictsOrder, IncomingOrder, ShowsOrder, OrdersKeyed, AlgosKeyed;
    assert OrderVerdict(None, IncomingOrder(m)).Apply? by { FirstApplies(IncomingOrder(m), IncomingAlgo(AN_ALGO)); }
  }

  lemma FirstApplies(o: StoredOrder, g: StoredAlgoOrder)
    ensures OrderVerdict(None, o).Apply? && AlgoVerdict(None, g).Apply?
  {
  }

  /** The same for algo events. */
  lemma AlgoHaltsIff(a: Account, m: AlgoMsg)
    ensures
      var h := Handle(a, AlgoEvent(m));
      && (h.effect.HaltFor? <==>
            || m.positionSide != BOTH || m.clientId.NoId?
            || (!m.clientId.SgId? && forall row :: !MeetsAlgo(a.algos, m, row))
            || exists row :: MeetsAlgo(a.algos, m, row) && ContradictsAlgo(row, m))
      && (h.effect.HaltFor? ==> h.account == a)
  {
    var found := FindAlgo(a.algos, m.clientId, m.algoId);
    if !m.clientId.NoId? {
      forall row ensures MeetsAlgo(a.algos, m, row) <==> found == Some(row) {
        FoundAlgo(a.algos, m, row);
      }
    }
    if found.Some? {
      AlgoConflictMeans(found.value, m);
    }
    hide FindAlgo, AlgoVerdict, MeetsAlgo, ContradictsAlgo, IncomingAlgo, ShowsAlgo, OrdersKeyed, AlgosKeyed;
    assert AlgoVerdict(None, IncomingAlgo(m)).Apply? by { FirstApplies(IncomingOrder(AN_ORDER), IncomingAlgo(m)); }
  }

  /** Exactly when an order event that does not halt is written down: it is not older than its row, says something
      new, its digest is unknown, and no other row holds its exchange id. Its row then shows it, its digest is
      known from then on, and no other row moves. Otherwise no row moves. */
  lemma OrderIsWrittenIff(a: Account, m: OrderMsg)
    requires !Handle(a, OrderEvent(m)).effect.HaltFor?
    ensures
      var h := Handle(a, OrderEvent(m));
      var key := OrderKey(m.eventMs, m.transactMs, m.exchangeId, m.clientId, m.execType, m.status, m.filled,
                          TradeOfMsg(m));
      var written := h.result == CHANGED;
      && (written <==>
            && (forall row | MeetsOrder(a.orders, m, row) ::
                  !StaleFor(row.eventTime, OrderStamp(m)) && !ShowsOrder(row, m))
            && key !in a.events
            && (forall c | c in a.orders && c != m.clientId ::
                  m.exchangeId == "" || a.orders[c].exchangeOrderId != m.exchangeId))
      && (written ==>
            && m.clientId in h.account.orders && ShowsOrder(h.account.orders[m.clientId], m)
            && h.account == a.(orders := a.orders[m.clientId := h.account.orders[m.clientId]],
                               events := a.events + {key}))
      && (!written ==> h.account == a.(events := h.account.events))
  {
    var found := FindOrder(a.orders, m.clientId, m.exchangeId);
    forall row ensures MeetsOrder(a.orders, m, row) <==> found == Some(row) {
      FoundOrder(a.orders, m, row);
    }
    if found.Some? {
      OrderConflictMeans(found.value, m);
    }
    ShownIsIncoming(IncomingOrder(m), m);
    KeyMeans(m, AN_ALGO);
    FirstApplies(IncomingOrder(m), IncomingAlgo(AN_ALGO));
    FitsMeans(a.orders, m);
    hide FindOrder, OrderVerdict, MeetsOrder, ContradictsOrder, IncomingOrder, ShowsOrder, OrdersKeyed, AlgosKeyed,
      KeyOfOrder, OrderFits, OrderStamp, StaleFor, TradeOfMsg;
  }

  lemma KeyMeans(m: OrderMsg, g: AlgoMsg)
    ensures KeyOfOrder(m) == OrderKey(m.eventMs, m.transactMs, m.exchangeId, m.clientId, m.execType, m.status,
                                      m.filled, TradeOfMsg(m))
    ensures KeyOfAlgo(g) == AlgoKey(g.eventMs, g.transactMs, g.algoId, g.clientId, g.status, g.actualOrderId)
  {
    StampsMean(m, g);
    hide LastTradeId, TradeOfMsg;
  }

  lemma FitsMeans(orders: OrderTable, m: OrderMsg)
    ensures IncomingOrder(m).clientOrderId == m.clientId && IncomingOrder(m).exchangeOrderId == m.exchangeId
    ensures OrderFits(orders, IncomingOrder(m)) <==>
              forall c | c in orders && c != m.clientId ::
                m.exchangeId == "" || orders[c].exchangeOrderId != m.exchangeId
  {
  }

  /** The same for algo events. */
  lemma AlgoIsWrittenIff(a: Account, m: AlgoMsg)
    requires !Handle(a, AlgoEvent(m)).effect.HaltFor?
    ensures
      var h := Handle(a, AlgoEvent(m));
      var key := AlgoKey(m.eventMs, m.transactMs, m.algoId, m.clientId, m.status, m.actualOrderId);
      var written := h.result == CHANGED;
      && (written <==>
            && (forall row | MeetsAlgo(a.algos, m, row) ::
                  !StaleFor(row.eventTime, AlgoStamp(m)) && !ShowsAlgo(row, m))
            && key !in a.events
            && (forall c | c in a.algos && c != m.clientId :: m.algoId == "" || a.algos[c].algoId != m.algoId))
      && (written ==>
            && m.clientId in h.account.algos && ShowsAlgo(h.account.algos[m.clientId], m)
            && h.account == a.(algos := a.algos[m.clientId := h.account.algos[m.clientId]],
                               events := a.events + {key}))
      && (!written ==> h.account == a.(events := h.account.events))
  {
    var found := FindAlgo(a.algos, m.clientId, m.algoId);
    forall row ensures MeetsAlgo(a.algos, m, row) <==> found == Some(row) {
      FoundAlgo(a.algos, m, row);
    }
    if found.Some? {
      AlgoConflictMeans(found.value, m);
    }
    RowsShow(AN_ORDER, m);
    KeyMeans(AN_ORDER, m);
    FirstApplies(IncomingOrder(AN_ORDER), IncomingAlgo(m));
    AlgoFitsMeans(a.algos, m);
    hide FindAlgo, AlgoVerdict, MeetsAlgo, ContradictsAlgo, IncomingAlgo, ShowsAlgo, OrdersKeyed, AlgosKeyed,
      KeyOfAlgo, AlgoFits, AlgoStamp, StaleFor;
  }

  lemma AlgoFitsMeans(algos: AlgoTable, m: AlgoMsg)
    ensures IncomingAlgo(m).clientAlgoId == m.clientId && IncomingAlgo(m).algoId == m.algoId
    ensures AlgoFits(algos, IncomingAlgo(m)) <==>
              forall c | c in algos && c != m.clientId :: m.algoId == "" || algos[c].algoId != m.algoId
  {
  }

  /** The reason an order event halts for, in the order the checks are made. */
  lemma OrderHaltReasons(a: Account, m: OrderMsg, row: StoredOrder)
    requires MeetsOrder(a.orders, m, row) && !m.clientId.NoId? && Handle(a, OrderEvent(m)).effect.HaltFor?
    ensures
      Handle(a, OrderEvent(m)).effect.reason ==
        if m.positionSide != BOTH then HedgeModeUnsupported(m.symbol)
        else if m.clientId.AutoCloseId? then ForcedCloseEvent(m.symbol)
        else if row.exchangeOrderId != m.exchangeId || row.symbol != m.symbol || row.side != m.side
             || row.orderType != m.orderType || row.origQty != m.quantity || row.reduceOnly != m.reduceOnly
        then OrderIdentityConflict(row.clientOrderId)
        else if m.filled < row.filledQty then OrderFillRegression(m.clientId)
        else TerminalOrderMutation(m.clientId)
  {
    FoundOrder(a.orders, m, row);
    hide FindOrder, MeetsOrder, PutOrder, OrderFits, OrdersKeyed, AlgosKeyed, OrderTime, LastTradeId, KeyOfOrder;
  }

  lemma AlgoHaltReasons(a: Account, m: AlgoMsg, row: StoredAlgoOrder)
    requires MeetsAlgo(a.algos, m, row) && !m.clientId.NoId? && Handle(a, AlgoEvent(m)).effect.HaltFor?
    ensures
      Handle(a, AlgoEvent(m)).effect.reason ==
        if m.positionSide != BOTH then HedgeModeUnsupported(m.symbol)
        else if row.algoId != m.algoId || row.symbol != m.symbol || row.side != m.side || row.algoType != m.algoType
             || row.orderType != m.orderType || row.triggerPrice != m.triggerPrice
             || row.closePosition != m.closePosition || row.reduceOnly != m.reduceOnly
             || (!(row.closePosition && m.closePosition) && row.quantity != m.quantity)
        then AlgoIdentityConflict(row.clientAlgoId)
        else if row.status == TRIGGERED then AlgoStatusRegression(m.clientId)
        else TerminalAlgoMutation(m.clientId)
  {
    FoundAlgo(a.algos, m, row);
    hide FindAlgo, MeetsAlgo, PutAlgo, AlgoFits, OrdersKeyed, AlgosKeyed, AlgoTime, KeyOfAlgo;
  }

  // ---- Stored rows over whole runs ----

  /** Over every run of messages, honest or not, a stored order keeps its six identifying fields, never un-fills, and
      once FILLED, CANCELED, EXPIRED, REJECTED or EXPIRED_IN_MATCH stays so. */
  lemma OrderRowLasts(a: Account, ms: seq<Msg>, c: ClientId)
    requires c in a.orders
    ensures c in After(a, ms).orders
    ensures
      var x, y := a.orders[c], After(a, ms).orders[c];
      && y.clientOrderId == x.clientOrderId && y.exchangeOrderId == x.exchangeOrderId && y.symbol == x.symbol
      && y.side == x.side && y.orderType == x.orderType && y.origQty == x.origQty && y.reduceOnly == x.reduceOnly
      && y.filledQty >= x.filledQty
      && (x.status in {FILLED, CANCELED, EXPIRED, REJECTED, EXPIRED_IN_MATCH} ==> y.status == x.status)
  {
    Safety.OrderHistory(a, ms, c);
  }

  /** A stored algo keeps its identifying fields, its quantity among them unless it closes the whole position; once
      final it stays so, and from TRIGGERED it only ever comes to FINISHED. */
  lemma AlgoRowLasts(a: Account, ms: seq<Msg>, c: ClientId)
    requires c in a.algos
    ensures c in After(a, ms).algos
    ensures
      var x, y := a.algos[c], After(a, ms).algos[c];
      && y.clientAlgoId == x.clientAlgoId && y.algoId == x.algoId && y.symbol == x.symbol && y.side == x.side
      && y.algoType == x.algoType && y.orderType == x.orderType && y.triggerPrice == x.triggerPrice
      && y.closePosition == x.closePosition && y.reduceOnly == x.reduceOnly
      && (x.closePosition || y.quantity == x.quantity)
      && (x.status in {FINISHED, CANCELED, EXPIRED, REJECTED, FAILED} ==> y.status == x.status)
      && (x.status == TRIGGERED ==> y.status in {TRIGGERED, FINISHED})
  {
    Safety.AlgoHistory(a, ms, c);
  }

  // ---- Account reports and the messages that only halt ----

  /** The row a reported position that is not flat stands for: LONG or SHORT by the sign of its amount. */
  function RowFor(p: PositionItem, time: int): StoredPosition {
    if p.amount > 0.0 then StoredPosition(p.symbol, LONG, p.amount, p.entryPrice, p.amount * p.entryPrice, time)
    else StoredPosition(p.symbol, SHORT, -p.amount, p.entryPrice, -p.amount * p.entryPrice, time)
  }

  /** A report under a new digest whose positions are one-way and named once is taken over whole: a symbol whose row is
      newer keeps it, any other reported one is gone when its amount is zero and shows the report otherwise; no other
      symbol moves and nothing halts. */
  lemma ReportIsShown(a: Account, m: AccountMsg)
    requires AccountKey(m.eventMs, m.transactMs, m.positions) !in a.events && Safety.DistinctReport(m.positions)
    ensures
      var h, time := Handle(a, AccountEvent(m)), FirstStamp(m.transactMs, m.eventMs, None);
      && h.effect.Nothing?
      && (forall p | p in m.positions && p.symbol != "" ::
            if p.symbol in a.positions && StaleFor(a.positions[p.symbol].eventTime, time) then
              p.symbol in h.account.positions && h.account.positions[p.symbol] == a.positions[p.symbol]
            else if p.amount == 0.0 then p.symbol !in h.account.positions
            else p.symbol in h.account.positions && h.account.positions[p.symbol] == RowFor(p, time))
      && (forall s | s == "" || forall p | p in m.positions :: p.symbol != s ::
            && (s in h.account.positions <==> s in a.positions)
            && (s in a.positions ==> h.account.positions[s] == a.positions[s]))
  {
    var time := FirstStamp(m.transactMs, m.eventMs, None);
    StampOfTwo(m.transactMs, m.eventMs);
    Safety.ReportIsTakenOver(a.(events := a.events + {KeyOfAccount(m)}), m.positions, time, false);
    hide ApplyPositions, Stamp, FirstStamp, OrdersKeyed, AlgosKeyed, Safety.TakenOver, StaleFor, RowFor;
    var after := Handle(a, AccountEvent(m)).account.positions;
    forall p | p in m.positions && p.symbol != ""
      ensures
        if p.symbol in a.positions && StaleFor(a.positions[p.symbol].eventTime, time) then
          p.symbol in after && after[p.symbol] == a.positions[p.symbol]
        else if p.amount == 0.0 then p.symbol !in after
        else p.symbol in after && after[p.symbol] == RowFor(p, time)
    {
      TakenOverMeans(a.positions, after, p, time);
    }
  }

  lemma TakenOverMeans(before: PositionTable, after: PositionTable, p: PositionItem, time: int)
    requires Safety.TakenOver(before, after, p, time)
    ensures
      if p.symbol in before && StaleFor(before[p.symbol].eventTime, time) then
        p.symbol in after && after[p.symbol] == before[p.symbol]
      else if p.amount == 0.0 then p.symbol !in after
      else p.symbol in after && after[p.symbol] == RowFor(p, time)
  {
  }

  /** A report halts exactly when its digest is new and it names a position that is not one-way. */
  lemma ReportHaltsIff(a: Account, m: AccountMsg)
    ensures Handle(a, AccountEvent(m)).effect.HaltFor? <==>
              && AccountKey(m.eventMs, m.transactMs, m.positions) !in a.events
              && exists p :: p in m.positions && p.symbol != "" && p.positionSide != BOTH
  {
    var time, items := Stamp([m.transactMs, m.eventMs]), m.positions;
    Safety.ReportHaltsIff(a.(events := a.events + {KeyOfAccount(m)}), items, time, false);
    hide ApplyPositions, Stamp;
    if p :| p in items && p.symbol != "" && p.positionSide != BOTH {
      var i :| 0 <= i < |items| && items[i] == p;
    }
    if i :| 0 <= i < |items| && items[i].symbol != "" && items[i].positionSide != BOTH {
      assert items[i] in items;
    }
  }

  /** A margin call and a rejected trigger halt; an expired listen key only shuts the gate; a message of any other name
      does nothing. */
  lemma OtherMessages(db: Db, name: string)
    ensures OnMessage(db, MarginCall) == db.(halted := true, haltReason := MarginCalled, ready := false)
    ensures OnMessage(db, TriggerReject) == db.(halted := true, haltReason := ConditionalTriggerReject, ready := false)
    ensures OnMessage(db, ListenKeyExpired) == db.(ready := false, streamStatus := EXPIRED_KEY)
    ensures OnMessage(db, OtherEvent(name)) == db
  {
  }
}
