/** Out-of-order and duplicated deliveries of coherent lifecycles end in the same tables. */
module UserDataConvergence {
  import opened Models
  import opened Store
  import opened UserData

  predicate Own(m: Msg) {
    match m
    case OrderEvent(o) =>
      o.positionSide.BOTH? && o.clientId.SgId? && OrderTime(o) > 0
    case AlgoEvent(g) =>
      g.positionSide.BOTH? && g.clientId.SgId? && AlgoTime(g) > 0
    case _ => false
  }

  /** Two messages can belong to one account history. */
  predicate OrdersCohere(m: OrderMsg, n: OrderMsg) {
    if m.clientId == n.clientId then
      && SameOrderIdentity(IncomingOrder(m), IncomingOrder(n))
      && (OrderTime(m) == OrderTime(n) ==> m == n)
      && (OrderTime(m) < OrderTime(n) ==>
            m.filled <= n.filled && (TerminalOrder(m.status) ==> n.status == m.status))
    else m.exchangeId != n.exchangeId || m.exchangeId == ""
  }

  predicate AlgosCohere(m: AlgoMsg, n: AlgoMsg) {
    if m.clientId == n.clientId then
      && SameAlgoIdentity(IncomingAlgo(m), IncomingAlgo(n))
      && (AlgoTime(m) == AlgoTime(n) ==> m == n)
      && (AlgoTime(m) < AlgoTime(n) ==> AlgoMayFollow(m.status, n.status))
    else m.algoId != n.algoId || m.algoId == ""
  }

  ghost predicate Coherent(ds: seq<Msg>) {
    && (forall x | x in ds :: Own(x))
    && (forall m, n | OrderEvent(m) in ds && OrderEvent(n) in ds :: OrdersCohere(m, n))
    && (forall m, n | AlgoEvent(m) in ds && AlgoEvent(n) in ds :: AlgosCohere(m, n))
  }

  /** The order digest leaves out the order's own trade stamp, so distinct events may share a key. */
  ghost predicate KeysFaithful(ds: seq<Msg>) {
    forall m, n | OrderEvent(m) in ds && OrderEvent(n) in ds && KeyOfOrder(m) == KeyOfOrder(n) :: m == n
  }

  /** The starting tables know nothing of the delivered lifecycles. */
  ghost predicate Fresh(a: Account, ds: seq<Msg>) {
    && (forall m | OrderEvent(m) in ds ::
          && KeyOfOrder(m) !in a.events
          && forall c | c in a.orders ::
              c != m.clientId && (a.orders[c].exchangeOrderId != m.exchangeId || m.exchangeId == ""))
    && (forall m | AlgoEvent(m) in ds ::
          && KeyOfAlgo(m) !in a.events
          && forall c | c in a.algos :: c != m.clientId && (a.algos[c].algoId != m.algoId || m.algoId == ""))
  }

  ghost predicate OrdersTrack(a0: Account, a: Account, ds: seq<Msg>) {
    && (forall m | OrderEvent(m) in ds :: m.clientId in a.orders && OrderTime(m) <= a.orders[m.clientId].eventTime)
    && (forall c | c in a0.orders :: c in a.orders && a.orders[c] == a0.orders[c])
    && (forall c | c in a.orders && c !in a0.orders ::
          exists n :: OrderEvent(n) in ds && n.clientId == c && a.orders[c] == IncomingOrder(n))
  }

  ghost predicate AlgosTrack(a0: Account, a: Account, ds: seq<Msg>) {
    && (forall m | AlgoEvent(m) in ds :: m.clientId in a.algos && AlgoTime(m) <= a.algos[m.clientId].eventTime)
    && (forall c | c in a0.algos :: c in a.algos && a.algos[c] == a0.algos[c])
    && (forall c | c in a.algos && c !in a0.algos ::
          exists n :: AlgoEvent(n) in ds && n.clientId == c && a.algos[c] == IncomingAlgo(n))
  }

  ghost predicate KeyKnown(k: EventKey, a0: Account, ds: seq<Msg>) {
    || k in a0.events
    || (exists m :: OrderEvent(m) in ds && KeyOfOrder(m) == k)
    || (exists m :: AlgoEvent(m) in ds && KeyOfAlgo(m) == k)
  }

  ghost predicate Tracks(a0: Account, a: Account, ds: seq<Msg>) {
    && OrdersTrack(a0, a, ds)
    && AlgosTrack(a0, a, ds)
    && (forall k | k in a.events :: KeyKnown(k, a0, ds))
  }

  lemma PrefixCoheres(a: Account, ds: seq<Msg>, x: Msg)
    requires Coherent(ds + [x]) && KeysFaithful(ds + [x]) && Fresh(a, ds + [x])
    ensures Coherent(ds) && KeysFaithful(ds) && Fresh(a, ds)
  {
    forall y | y in ds
      ensures y in ds + [x]
    {
    }
  }

  lemma ExtendOrders(a0: Account, a: Account, ds: seq<Msg>, x: Msg, b: Account)
    requires OrdersTrack(a0, a, ds)
    requires b.orders == a.orders
    requires x.OrderEvent? ==>
               x.order.clientId in a.orders && OrderTime(x.order) <= a.orders[x.order.clientId].eventTime
    ensures OrdersTrack(a0, b, ds + [x])
  {
    forall c | c in b.orders && c !in a0.orders
      ensures exists n :: OrderEvent(n) in ds + [x] && n.clientId == c && b.orders[c] == IncomingOrder(n)
    {
      var n :| OrderEvent(n) in ds && n.clientId == c && a.orders[c] == IncomingOrder(n);
      assert OrderEvent(n) in ds + [x];
    }
  }

  lemma ExtendAlgos(a0: Account, a: Account, ds: seq<Msg>, x: Msg, b: Account)
    requires AlgosTrack(a0, a, ds)
    requires b.algos == a.algos
    requires x.AlgoEvent? ==>
               x.algo.clientId in a.algos && AlgoTime(x.algo) <= a.algos[x.algo.clientId].eventTime
    ensures AlgosTrack(a0, b, ds + [x])
  {
    forall c | c in b.algos && c !in a0.algos
      ensures exists n :: AlgoEvent(n) in ds + [x] && n.clientId == c && b.algos[c] == IncomingAlgo(n)
    {
      var n :| AlgoEvent(n) in ds && n.clientId == c && a.algos[c] == IncomingAlgo(n);
      assert AlgoEvent(n) in ds + [x];
    }
  }

  lemma ExtendKeys(a0: Account, a: Account, ds: seq<Msg>, x: Msg)
    requires forall k | k in a.events :: KeyKnown(k, a0, ds)
    ensures forall k | k in a.events :: KeyKnown(k, a0, ds + [x])
    ensures x.OrderEvent? ==> KeyKnown(KeyOfOrder(x.order), a0, ds + [x])
    ensures x.AlgoEvent? ==> KeyKnown(KeyOfAlgo(x.algo), a0, ds + [x])
  {
    assert x in ds + [x];
    forall k | k in a.events
      ensures KeyKnown(k, a0, ds + [x])
    {
      if m :| OrderEvent(m) in ds && KeyOfOrder(m) == k {
        assert OrderEvent(m) in ds + [x];
      } else if m :| AlgoEvent(m) in ds && KeyOfAlgo(m) == k {
        assert AlgoEvent(m) in ds + [x];
      }
    }
  }

  /** What an accepted order event does: its key is marked and its row replaces the stored one. */
  lemma AcceptedOrder(a: Account, m: OrderMsg)
    requires Own(OrderEvent(m))
    requires KeyOfOrder(m) !in a.events
    requires m.clientId in a.orders ==> a.orders[m.clientId].eventTime < OrderTime(m)
    requires m.clientId in a.orders ==> SameOrderIdentity(a.orders[m.clientId], IncomingOrder(m))
    requires m.clientId in a.orders ==> a.orders[m.clientId].filledQty <= m.filled
    requires m.clientId in a.orders && TerminalOrder(a.orders[m.clientId].status) ==>
               m.status == a.orders[m.clientId].status
    requires m.clientId !in a.orders ==> forall c | c in a.orders ::
               a.orders[c].exchangeOrderId != m.exchangeId || m.exchangeId == ""
    ensures Handle(a, OrderEvent(m)).effect.Nothing?
    ensures Handle(a, OrderEvent(m)).account
         == a.(events := a.events + {KeyOfOrder(m)}, orders := a.orders[m.clientId := IncomingOrder(m)])
  {
    assert OrderFits(a.orders, IncomingOrder(m));
    var found := FindOrder(a.orders, m.clientId, m.exchangeId);
    assert m.clientId in a.orders ==> found == Some(a.orders[m.clientId]);
    assert m.clientId !in a.orders ==> found.None?;
  }

  /** A late or repeated order event leaves everything as it was. */
  lemma LateOrder(a: Account, m: OrderMsg)
    requires Own(OrderEvent(m))
    requires m.clientId in a.orders
    requires SameOrderIdentity(a.orders[m.clientId], IncomingOrder(m))
    requires OrderTime(m) < a.orders[m.clientId].eventTime || IncomingOrder(m) == a.orders[m.clientId]
    ensures Handle(a, OrderEvent(m)).effect.Nothing?
    ensures Handle(a, OrderEvent(m)).account == a
  {
    assert FindOrder(a.orders, m.clientId, m.exchangeId) == Some(a.orders[m.clientId]);
  }

  lemma OrderRowOf(m: OrderMsg)
    ensures IncomingOrder(m).clientOrderId == m.clientId && IncomingOrder(m).eventTime == OrderTime(m)
  {
  }

  lemma AdvanceOrders(a0: Account, a: Account, ds: seq<Msg>, m: OrderMsg, b: Account)
    requires OrdersTrack(a0, a, ds)
    requires m.clientId !in a0.orders
    requires m.clientId in a.orders ==> a.orders[m.clientId].eventTime < OrderTime(m)
    requires b.orders == a.orders[m.clientId := IncomingOrder(m)]
    ensures OrdersTrack(a0, b, ds + [OrderEvent(m)])
  {
    OrderRowOf(m);
    hide OrdersKeyed, AlgosKeyed, IncomingOrder, OrderTime;
    var es := ds + [OrderEvent(m)];
    assert OrderEvent(m) in es;
    assert forall x | OrderEvent(x) in es :: OrderEvent(x) in ds || x == m;
    forall c | c in b.orders && c !in a0.orders
      ensures exists n :: OrderEvent(n) in es && n.clientId == c && b.orders[c] == IncomingOrder(n)
    {
      if c != m.clientId {
        var n :| OrderEvent(n) in ds && n.clientId == c && a.orders[c] == IncomingOrder(n);
        assert OrderEvent(n) in es;
      }
    }
  }

  lemma OrderKeyUnseen(a0: Account, a: Account, ds: seq<Msg>, m: OrderMsg)
    requires KeysFaithful(ds + [OrderEvent(m)]) && Fresh(a0, ds + [OrderEvent(m)])
    requires Tracks(a0, a, ds)
    requires m.clientId in a.orders ==> a.orders[m.clientId].eventTime < OrderTime(m)
    ensures KeyOfOrder(m) !in a.events
  {
    var es := ds + [OrderEvent(m)];
    assert OrderEvent(m) in es;
    forall k | k in a.events
      ensures k != KeyOfOrder(m)
    {
      assert KeyKnown(k, a0, ds);
      if n :| OrderEvent(n) in ds && KeyOfOrder(n) == k {
        assert OrderEvent(n) in es;
        assert OrderTime(n) <= a.orders[n.clientId].eventTime;

      }
    }
  }

  /** The stored row of a delivered lifecycle is one of its delivered events. */
  lemma OrderSource(a0: Account, a: Account, ds: seq<Msg>, c: ClientId) returns (n: OrderMsg)
    requires OrdersTrack(a0, a, ds)
    requires c in a.orders && c !in a0.orders
    ensures OrderEvent(n) in ds && n.clientId == c && a.orders[c] == IncomingOrder(n)
  {
    n :| OrderEvent(n) in ds && n.clientId == c && a.orders[c] == IncomingOrder(n);
  }

  lemma OrderIdsApart(a0: Account, a: Account, ds: seq<Msg>, m: OrderMsg)
    requires Coherent(ds + [OrderEvent(m)]) && Fresh(a0, ds + [OrderEvent(m)])
    requires OrdersTrack(a0, a, ds)
    requires m.clientId !in a.orders
    ensures forall c | c in a.orders :: a.orders[c].exchangeOrderId != m.exchangeId || m.exchangeId == ""
  {
    var es := ds + [OrderEvent(m)];
    assert OrderEvent(m) in es;
    forall c | c in a.orders
      ensures a.orders[c].exchangeOrderId != m.exchangeId || m.exchangeId == ""
    {
      if c !in a0.orders {
        var n := OrderSource(a0, a, ds, c);
        assert OrderEvent(n) in es;
        assert OrdersCohere(n, m);
      }
    }
  }

  /** The row a delivered order event meets: one of the same lifecycle, or none of its ids. */
  lemma MeetsOrderRow(a0: Account, a: Account, ds: seq<Msg>, m: OrderMsg)
    requires Coherent(ds + [OrderEvent(m)]) && Fresh(a0, ds + [OrderEvent(m)]) && OrdersTrack(a0, a, ds)
    ensures Own(OrderEvent(m)) && m.clientId !in a0.orders
    ensures m.clientId in a.orders ==>
              && SameOrderIdentity(a.orders[m.clientId], IncomingOrder(m))
              && (OrderTime(m) == a.orders[m.clientId].eventTime ==> IncomingOrder(m) == a.orders[m.clientId])
              && (OrderTime(m) > a.orders[m.clientId].eventTime ==>
                m.filled >= a.orders[m.clientId].filledQty
                && (TerminalOrder(a.orders[m.clientId].status) ==> m.status == a.orders[m.clientId].status))
    ensures m.clientId !in a.orders ==>
              forall c | c in a.orders :: a.orders[c].exchangeOrderId != m.exchangeId || m.exchangeId == ""
  {
    hide OrdersKeyed, AlgosKeyed, Own;
    var es := ds + [OrderEvent(m)];
    assert OrderEvent(m) in es;
    if m.clientId in a.orders {
      var n := OrderSource(a0, a, ds, m.clientId);
      assert OrderEvent(n) in es;
      assert OrdersCohere(n, m) && OrdersCohere(m, n);
    } else {
      OrderIdsApart(a0, a, ds, m);
    }
  }

  lemma LateOrderTracks(a0: Account, a: Account, ds: seq<Msg>, m: OrderMsg)
    requires Own(OrderEvent(m)) && Tracks(a0, a, ds)
    requires m.clientId in a.orders && SameOrderIdentity(a.orders[m.clientId], IncomingOrder(m))
    requires OrderTime(m) <= a.orders[m.clientId].eventTime
    requires OrderTime(m) == a.orders[m.clientId].eventTime ==> IncomingOrder(m) == a.orders[m.clientId]
    ensures Handle(a, OrderEvent(m)).effect.Nothing?
    ensures Tracks(a0, Handle(a, OrderEvent(m)).account, ds + [OrderEvent(m)])
  {
    LateOrder(a, m);
    hide OrdersKeyed, AlgosKeyed, Handle, Own, OrdersTrack, AlgosTrack, KeyKnown, SameOrderIdentity;
    var x := OrderEvent(m);
    ExtendKeys(a0, a, ds, x);
    ExtendOrders(a0, a, ds, x, a);
    ExtendAlgos(a0, a, ds, x, a);
  }

  lemma NewOrderTracks(a0: Account, a: Account, ds: seq<Msg>, m: OrderMsg)
    requires Own(OrderEvent(m)) && Tracks(a0, a, ds) && KeyOfOrder(m) !in a.events && m.clientId !in a0.orders
    requires m.clientId in a.orders ==> a.orders[m.clientId].eventTime < OrderTime(m)
    requires m.clientId in a.orders ==> SameOrderIdentity(a.orders[m.clientId], IncomingOrder(m))
    requires m.clientId in a.orders ==> a.orders[m.clientId].filledQty <= m.filled
    requires m.clientId in a.orders && TerminalOrder(a.orders[m.clientId].status) ==>
               m.status == a.orders[m.clientId].status
    requires m.clientId !in a.orders ==> forall c | c in a.orders ::
               a.orders[c].exchangeOrderId != m.exchangeId || m.exchangeId == ""
    ensures Handle(a, OrderEvent(m)).effect.Nothing?
    ensures Tracks(a0, Handle(a, OrderEvent(m)).account, ds + [OrderEvent(m)])
  {
    AcceptedOrder(a, m);
    hide OrdersKeyed, AlgosKeyed, Handle, Own, OrdersTrack, AlgosTrack, KeyKnown, SameOrderIdentity, KeyOfOrder;
    var x := OrderEvent(m);
    ExtendKeys(a0, a, ds, x);
    AdvanceOrders(a0, a, ds, m, Handle(a, x).account);
    ExtendAlgos(a0, a, ds, x, Handle(a, x).account);
  }

  /** One coherent order delivery: never a halt, and the row ends on the later of the two events. */
  lemma OrderDelivery(a0: Account, a: Account, ds: seq<Msg>, m: OrderMsg)
    requires Coherent(ds + [OrderEvent(m)]) && KeysFaithful(ds + [OrderEvent(m)]) && Fresh(a0, ds + [OrderEvent(m)])
    requires Tracks(a0, a, ds)
    ensures Handle(a, OrderEvent(m)).effect.Nothing?
    ensures Tracks(a0, Handle(a, OrderEvent(m)).account, ds + [OrderEvent(m)])
  {
    MeetsOrderRow(a0, a, ds, m);
    hide Handle, Own, SameOrderIdentity, IncomingOrder, OrderTime, KeyOfOrder;
    if m.clientId in a.orders && OrderTime(m) <= a.orders[m.clientId].eventTime {
      hide Tracks;
      LateOrderTracks(a0, a, ds, m);
    } else {
      OrderKeyUnseen(a0, a, ds, m);
      hide Tracks, Coherent, Fresh;
      NewOrderTracks(a0, a, ds, m);
    }
  }

  /** What an accepted algo event does: its key is marked and its row replaces the stored one. */
  lemma AcceptedAlgo(a: Account, m: AlgoMsg)
    requires Own(AlgoEvent(m))
    requires KeyOfAlgo(m) !in a.events
    requires m.clientId in a.algos ==> a.algos[m.clientId].eventTime < AlgoTime(m)
    requires m.clientId in a.algos ==> SameAlgoIdentity(a.algos[m.clientId], IncomingAlgo(m))
    requires m.clientId in a.algos ==> AlgoMayFollow(a.algos[m.clientId].status, m.status)
    requires m.clientId !in a.algos ==> forall c | c in a.algos :: a.algos[c].algoId != m.algoId || m.algoId == ""
    ensures Handle(a, AlgoEvent(m)).effect.Nothing?
    ensures Handle(a, AlgoEvent(m)).account
         == a.(events := a.events + {KeyOfAlgo(m)}, algos := a.algos[m.clientId := IncomingAlgo(m)])
  {
    assert AlgoFits(a.algos, IncomingAlgo(m));
    var found := FindAlgo(a.algos, m.clientId, m.algoId);
    assert m.clientId in a.algos ==> found == Some(a.algos[m.clientId]);
    assert m.clientId !in a.algos ==> found.None?;
  }

  /** A late or repeated algo event leaves everything as it was. */
  lemma LateAlgo(a: Account, m: AlgoMsg)
    requires Own(AlgoEvent(m))
    requires m.clientId in a.algos
    requires SameAlgoIdentity(a.algos[m.clientId], IncomingAlgo(m))
    requires AlgoTime(m) < a.algos[m.clientId].eventTime || IncomingAlgo(m) == a.algos[m.clientId]
    ensures Handle(a, AlgoEvent(m)).effect.Nothing?
    ensures Handle(a, AlgoEvent(m)).account == a
  {
    assert FindAlgo(a.algos, m.clientId, m.algoId) == Some(a.algos[m.clientId]);
  }

  lemma AlgoRowOf(m: AlgoMsg)
    ensures IncomingAlgo(m).clientAlgoId == m.clientId && IncomingAlgo(m).eventTime == AlgoTime(m)
  {
  }

  lemma AdvanceAlgos(a0: Account, a: Account, ds: seq<Msg>, m: AlgoMsg, b: Account)
    requires AlgosTrack(a0, a, ds)
    requires m.clientId !in a0.algos
    requires m.clientId in a.algos ==> a.algos[m.clientId].eventTime < AlgoTime(m)
    requires b.algos == a.algos[m.clientId := IncomingAlgo(m)]
    ensures AlgosTrack(a0, b, ds + [AlgoEvent(m)])
  {
    AlgoRowOf(m);
    hide OrdersKeyed, AlgosKeyed, IncomingAlgo, AlgoTime;
    var es := ds + [AlgoEvent(m)];
    assert AlgoEvent(m) in es;
    assert forall x | AlgoEvent(x) in es :: AlgoEvent(x) in ds || x == m;
    forall c | c in b.algos && c !in a0.algos
      ensures exists n :: AlgoEvent(n) in es && n.clientId == c && b.algos[c] == IncomingAlgo(n)
    {
      if c != m.clientId {
        var n :| AlgoEvent(n) in ds && n.clientId == c && a.algos[c] == IncomingAlgo(n);
        assert AlgoEvent(n) in es;
      }
    }
  }

  lemma AlgoKeyUnseen(a0: Account, a: Account, ds: seq<Msg>, m: AlgoMsg)
    requires Coherent(ds + [AlgoEvent(m)]) && Fresh(a0, ds + [AlgoEvent(m)])
    requires Tracks(a0, a, ds)
    requires m.clientId in a.algos ==> a.algos[m.clientId].eventTime < AlgoTime(m)
    ensures KeyOfAlgo(m) !in a.events
  {
    var es := ds + [AlgoEvent(m)];
    assert AlgoEvent(m) in es;
    forall k | k in a.events
      ensures k != KeyOfAlgo(m)
    {
      assert KeyKnown(k, a0, ds);
      if n :| AlgoEvent(n) in ds && KeyOfAlgo(n) == k {
        assert AlgoEvent(n) in es;
        assert AlgoTime(n) <= a.algos[n.clientId].eventTime;
        assert AlgosCohere(n, m);
      }
    }
  }

  /** The stored row of a delivered lifecycle is one of its delivered events. */
  lemma AlgoSource(a0: Account, a: Account, ds: seq<Msg>, c: ClientId) returns (n: AlgoMsg)
    requires AlgosTrack(a0, a, ds)
    requires c in a.algos && c !in a0.algos
    ensures AlgoEvent(n) in ds && n.clientId == c && a.algos[c] == IncomingAlgo(n)
  {
    n :| AlgoEvent(n) in ds && n.clientId == c && a.algos[c] == IncomingAlgo(n);
  }

  lemma AlgoIdsApart(a0: Account, a: Account, ds: seq<Msg>, m: AlgoMsg)
    requires Coherent(ds + [AlgoEvent(m)]) && Fresh(a0, ds + [AlgoEvent(m)])
    requires AlgosTrack(a0, a, ds)
    requires m.clientId !in a.algos
    ensures forall c | c in a.algos :: a.algos[c].algoId != m.algoId || m.algoId == ""
  {
    var es := ds + [AlgoEvent(m)];
    assert AlgoEvent(m) in es;
    forall c | c in a.algos
      ensures a.algos[c].algoId != m.algoId || m.algoId == ""
    {
      if c !in a0.algos {
        var n := AlgoSource(a0, a, ds, c);
        assert AlgoEvent(n) in es;
        assert AlgosCohere(n, m);
      }
    }
  }

  /** The row a delivered algo event meets: one of the same lifecycle, or none of its ids. */
  lemma MeetsAlgoRow(a0: Account, a: Account, ds: seq<Msg>, m: AlgoMsg)
    requires Coherent(ds + [AlgoEvent(m)]) && Fresh(a0, ds + [AlgoEvent(m)]) && AlgosTrack(a0, a, ds)
    ensures Own(AlgoEvent(m)) && m.clientId !in a0.algos
    ensures m.clientId in a.algos ==>
              && SameAlgoIdentity(a.algos[m.clientId], IncomingAlgo(m))
              && (AlgoTime(m) == a.algos[m.clientId].eventTime ==> IncomingAlgo(m) == a.algos[m.clientId])
              && (AlgoTime(m) > a.algos[m.clientId].eventTime ==>
                AlgoMayFollow(a.algos[m.clientId].status, m.status))
    ensures m.clientId !in a.algos ==>
              forall c | c in a.algos :: a.algos[c].algoId != m.algoId || m.algoId == ""
  {
    hide OrdersKeyed, AlgosKeyed, Own;
    var es := ds + [AlgoEvent(m)];
    assert AlgoEvent(m) in es;
    if m.clientId in a.algos {
      var n := AlgoSource(a0, a, ds, m.clientId);
      assert AlgoEvent(n) in es;
      assert AlgosCohere(n, m) && AlgosCohere(m, n);
    } else {
      AlgoIdsApart(a0, a, ds, m);
    }
  }

  lemma LateAlgoTracks(a0: Account, a: Account, ds: seq<Msg>, m: AlgoMsg)
    requires Own(AlgoEvent(m)) && Tracks(a0, a, ds)
    requires m.clientId in a.algos && SameAlgoIdentity(a.algos[m.clientId], IncomingAlgo(m))
    requires AlgoTime(m) <= a.algos[m.clientId].eventTime
    requires AlgoTime(m) == a.algos[m.clientId].eventTime ==> IncomingAlgo(m) == a.algos[m.clientId]
    ensures Handle(a, AlgoEvent(m)).effect.Nothing?
    ensures Tracks(a0, Handle(a, AlgoEvent(m)).account, ds + [AlgoEvent(m)])
  {
    LateAlgo(a, m);
    hide OrdersKeyed, AlgosKeyed, Handle, Own, OrdersTrack, AlgosTrack, KeyKnown, SameAlgoIdentity;
    var x := AlgoEvent(m);
    ExtendKeys(a0, a, ds, x);
    ExtendOrders(a0, a, ds, x, a);
    ExtendAlgos(a0, a, ds, x, a);
  }

  lemma NewAlgoTracks(a0: Account, a: Account, ds: seq<Msg>, m: AlgoMsg)
    requires Own(AlgoEvent(m)) && Tracks(a0, a, ds) && KeyOfAlgo(m) !in a.events && m.clientId !in a0.algos
    requires m.clientId in a.algos ==> a.algos[m.clientId].eventTime < AlgoTime(m)
    requires m.clientId in a.algos ==> SameAlgoIdentity(a.algos[m.clientId], IncomingAlgo(m))
    requires m.clientId in a.algos ==> AlgoMayFollow(a.algos[m.clientId].status, m.status)
    requires m.clientId !in a.algos ==> forall c | c in a.algos :: a.algos[c].algoId != m.algoId || m.algoId == ""
    ensures Handle(a, AlgoEvent(m)).effect.Nothing?
    ensures Tracks(a0, Handle(a, AlgoEvent(m)).account, ds + [AlgoEvent(m)])
  {
    AcceptedAlgo(a, m);
    hide OrdersKeyed, AlgosKeyed, Handle, Own, OrdersTrack, AlgosTrack, KeyKnown, SameAlgoIdentity, KeyOfAlgo;
    var x := AlgoEvent(m);
    ExtendKeys(a0, a, ds, x);
    AdvanceAlgos(a0, a, ds, m, Handle(a, x).account);
    ExtendOrders(a0, a, ds, x, Handle(a, x).account);
  }

  /** One coherent algo delivery: never a halt, and the row ends on the later of the two events. */
  lemma AlgoDelivery(a0: Account, a: Account, ds: seq<Msg>, m: AlgoMsg)
    requires Coherent(ds + [AlgoEvent(m)]) && KeysFaithful(ds + [AlgoEvent(m)]) && Fresh(a0, ds + [AlgoEvent(m)])
    requires Tracks(a0, a, ds)
    ensures Handle(a, AlgoEvent(m)).effect.Nothing?
    ensures Tracks(a0, Handle(a, AlgoEvent(m)).account, ds + [AlgoEvent(m)])
  {
    MeetsAlgoRow(a0, a, ds, m);
    hide Handle, Own, SameAlgoIdentity, IncomingAlgo, AlgoTime, KeyOfAlgo;
    if m.clientId in a.algos && AlgoTime(m) <= a.algos[m.clientId].eventTime {
      hide Tracks;
      LateAlgoTracks(a0, a, ds, m);
    } else {
      AlgoKeyUnseen(a0, a, ds, m);
      hide Tracks, Coherent, Fresh;
      NewAlgoTracks(a0, a, ds, m);
    }
  }

  lemma DeliveryTracks(a0: Account, a: Account, ds: seq<Msg>, x: Msg)
    requires Coherent(ds + [x]) && KeysFaithful(ds + [x]) && Fresh(a0, ds + [x]) && Tracks(a0, a, ds)
    ensures Handle(a, x).effect.Nothing? && Tracks(a0, Handle(a, x).account, ds + [x])
  {
    assert x in ds + [x] && Own(x);
    hide Coherent, KeysFaithful, Fresh, Tracks, Handle;
    if x.OrderEvent? {
      OrderDelivery(a0, a, ds, x.order);
    } else {
      AlgoDelivery(a0, a, ds, x.algo);
    }
  }

  /** No delivery of a coherent set of events ever halts or raises, and the tables follow the latest events. */
  lemma {:induction false} DeliveriesTrack(a: Account, ds: seq<Msg>)
    requires Coherent(ds) && KeysFaithful(ds) && Fresh(a, ds)
    ensures Tracks(a, After(a, ds), ds)
    ensures forall k | 0 <= k < |ds| :: Handle(After(a, ds[..k]), ds[k]).effect.Nothing?
  {
    if ds != [] {
      var front, x := ds[..|ds| - 1], ds[|ds| - 1];
      assert ds == front + [x];
      PrefixCoheres(a, front, x);
      hide Coherent, KeysFaithful, Fresh, Tracks, Handle;
      DeliveriesTrack(a, front);
      assert forall k | 0 <= k < |front| :: ds[..k] == front[..k];
      DeliveryTracks(a, After(a, front), front, x);
    }
  }

  ghost predicate LatestOrder(ds: seq<Msg>, m: OrderMsg) {
    && OrderEvent(m) in ds
    && forall n | OrderEvent(n) in ds && n.clientId == m.clientId :: OrderTime(n) <= OrderTime(m)
  }

  lemma OrderRowIsLatest(a0: Account, a: Account, ds: seq<Msg>, m: OrderMsg)
    requires Coherent(ds) && Fresh(a0, ds) && OrdersTrack(a0, a, ds)
    requires LatestOrder(ds, m)
    ensures m.clientId in a.orders && a.orders[m.clientId] == IncomingOrder(m)
  {
    hide OrdersKeyed, AlgosKeyed, Own;
    var n := OrderSource(a0, a, ds, m.clientId);
    assert OrdersCohere(m, n);
  }

  ghost predicate LatestAlgo(ds: seq<Msg>, m: AlgoMsg) {
    && AlgoEvent(m) in ds
    && forall n | AlgoEvent(n) in ds && n.clientId == m.clientId :: AlgoTime(n) <= AlgoTime(m)
  }

  lemma AlgoRowIsLatest(a0: Account, a: Account, ds: seq<Msg>, m: AlgoMsg)
    requires Coherent(ds) && Fresh(a0, ds) && AlgosTrack(a0, a, ds)
    requires LatestAlgo(ds, m)
    ensures m.clientId in a.algos && a.algos[m.clientId] == IncomingAlgo(m)
  {
    hide OrdersKeyed, AlgosKeyed, Own;
    var n := AlgoSource(a0, a, ds, m.clientId);
    assert AlgosCohere(m, n);
  }

  /** Every delivery order and duplication ends on the latest delivered event of each order and algo. */
  lemma ConvergesToLatest(a: Account, ds: seq<Msg>)
    requires Coherent(ds) && KeysFaithful(ds) && Fresh(a, ds)
    ensures forall m | LatestOrder(ds, m) ::
              m.clientId in After(a, ds).orders && After(a, ds).orders[m.clientId] == IncomingOrder(m)
    ensures forall m | LatestAlgo(ds, m) ::
              m.clientId in After(a, ds).algos && After(a, ds).algos[m.clientId] == IncomingAlgo(m)
  {
    hide OrdersKeyed, AlgosKeyed, After, LatestOrder, LatestAlgo, OrdersTrack, AlgosTrack, Coherent, Fresh;
    DeliveriesTrack(a, ds);
    forall m | LatestOrder(ds, m)
      ensures m.clientId in After(a, ds).orders && After(a, ds).orders[m.clientId] == IncomingOrder(m)
    {
      OrderRowIsLatest(a, After(a, ds), ds, m);
    }
    forall m | LatestAlgo(ds, m)
      ensures m.clientId in After(a, ds).algos && After(a, ds).algos[m.clientId] == IncomingAlgo(m)
    {
      AlgoRowIsLatest(a, After(a, ds), ds, m);
    }
  }

  /** Two deliveries of the same set of events, in any orders and multiplicities, leave the same tables. */
  lemma DeliveryOrderIrrelevant(a: Account, ds: seq<Msg>, es: seq<Msg>)
    requires Coherent(ds) && KeysFaithful(ds) && Fresh(a, ds)
    requires forall m :: m in ds <==> m in es
    ensures After(a, ds).orders == After(a, es).orders
    ensures After(a, ds).algos == After(a, es).algos
  {
    SameMessages(a, ds, es);
    hide OrdersKeyed, AlgosKeyed, Handle, After, Coherent, KeysFaithful, Fresh, Tracks;
    DeliveriesTrack(a, ds);
    DeliveriesTrack(a, es);
    TablesAgree(a, After(a, ds), After(a, es), ds, es);
  }

  lemma TablesAgree(a0: Account, a: Account, b: Account, ds: seq<Msg>, es: seq<Msg>)
    requires Coherent(ds) && Coherent(es)
    requires forall m :: m in ds <==> m in es
    requires Tracks(a0, a, ds) && Tracks(a0, b, es)
    ensures a.orders == b.orders && a.algos == b.algos
  {
    hide OrdersKeyed, AlgosKeyed, Coherent, OrdersTrack, AlgosTrack, KeyKnown;
    OrdersAgree(a0, a, b, ds, es);
    OrdersAgree(a0, b, a, es, ds);
    AlgosAgree(a0, a, b, ds, es);
    AlgosAgree(a0, b, a, es, ds);
  }

  lemma SameMessages(a: Account, ds: seq<Msg>, es: seq<Msg>)
    requires Coherent(ds) && KeysFaithful(ds) && Fresh(a, ds)
    requires forall m :: m in ds <==> m in es
    ensures Coherent(es) && KeysFaithful(es) && Fresh(a, es)
  {
    hide OrdersKeyed, AlgosKeyed, Own;
    assert forall m :: OrderEvent(m) in ds <==> OrderEvent(m) in es;
    assert forall m :: AlgoEvent(m) in ds <==> AlgoEvent(m) in es;
  }

  lemma OrdersAgree(a0: Account, a: Account, b: Account, ds: seq<Msg>, es: seq<Msg>)
    requires Coherent(ds)
    requires forall m :: m in ds <==> m in es
    requires OrdersTrack(a0, a, ds) && OrdersTrack(a0, b, es)
    ensures forall c | c in a.orders :: c in b.orders && a.orders[c] == b.orders[c]
  {
    hide OrdersKeyed, AlgosKeyed, Own;
    forall c | c in a.orders
      ensures c in b.orders && a.orders[c] == b.orders[c]
    {
      if c !in a0.orders {
        var m := OrderSource(a0, a, ds, c);
        assert OrderEvent(m) in es;
        var n := OrderSource(a0, b, es, c);
        assert OrderEvent(n) in ds;
        assert OrdersCohere(m, n);
      }
    }
  }

  lemma AlgosAgree(a0: Account, a: Account, b: Account, ds: seq<Msg>, es: seq<Msg>)
    requires Coherent(ds)
    requires forall m :: m in ds <==> m in es
    requires AlgosTrack(a0, a, ds) && AlgosTrack(a0, b, es)
    ensures forall c | c in a.algos :: c in b.algos && a.algos[c] == b.algos[c]
  {
    hide OrdersKeyed, AlgosKeyed, Own;
    forall c | c in a.algos
      ensures c in b.algos && a.algos[c] == b.algos[c]
    {
      if c !in a0.algos {
        var m := AlgoSource(a0, a, ds, c);
        assert AlgoEvent(m) in es;
        var n := AlgoSource(a0, b, es, c);
        assert AlgoEvent(n) in ds;
        assert AlgosCohere(m, n);
      }
    }
  }

  ghost predicate Converges(a: Account, ds: seq<Msg>) {
    forall es: seq<Msg>, m: OrderMsg | (forall x | x in es :: x in ds) && LatestOrder(es, m) ::
      m.clientId in After(a, es).orders && After(a, es).orders[m.clientId] == IncomingOrder(m)
  }

  /** Faithful keys are exactly what order convergence needs: every choice and order of deliveries
      converges if and only if no two distinct coherent events share a digest. */
  lemma ConvergenceIffKeysFaithful(a: Account, ds: seq<Msg>)
    requires Coherent(ds) && Fresh(a, ds)
    ensures Converges(a, ds) <==> KeysFaithful(ds)
  {
    if KeysFaithful(ds) {
      forall es: seq<Msg>, m: OrderMsg | (forall x | x in es :: x in ds) && LatestOrder(es, m)
        ensures m.clientId in After(a, es).orders && After(a, es).orders[m.clientId] == IncomingOrder(m)
      {
        ConvergesToLatest(a, es);
      }
    } else {
      var m, n :| OrderEvent(m) in ds && OrderEvent(n) in ds && KeyOfOrder(m) == KeyOfOrder(n) && m != n;
      if OrderTime(m) <= OrderTime(n) {
        SharedKeyDrops(a, ds, m, n);
      } else {
        SharedKeyDrops(a, ds, n, m);
      }
    }
  }

  /** With a shared digest the later event is taken for a duplicate and dropped. */
  lemma SharedKeyDrops(a: Account, ds: seq<Msg>, m: OrderMsg, n: OrderMsg)
    requires Coherent(ds) && Fresh(a, ds)
    requires OrderEvent(m) in ds && OrderEvent(n) in ds
    requires KeyOfOrder(m) == KeyOfOrder(n) && OrderTime(m) <= OrderTime(n) && m != n
    ensures !Converges(a, ds)
  {
    hide OrdersKeyed, AlgosKeyed, Own, Handle;
    assert OrdersCohere(m, n);
    var two := [OrderEvent(m), OrderEvent(n)];
    var b := Handle(a, OrderEvent(m)).account;
    AfterSnoc(a, [], OrderEvent(m));
    AfterSnoc(a, [OrderEvent(m)], OrderEvent(n));
    assert [] + [OrderEvent(m)] == [OrderEvent(m)] && [OrderEvent(m)] + [OrderEvent(n)] == two;
    assert Own(OrderEvent(m)) && Own(OrderEvent(n));
    AcceptedOrder(a, m);
    KnownKeyIsDropped(b, n);
    assert OrderEvent(n) in two && OrderEvent(m) in two;
    assert LatestOrder(two, n);
    assert forall k | k in two :: k in ds;
  }

  lemma KnownKeyIsDropped(a: Account, m: OrderMsg)
    requires KeyOfOrder(m) in a.events
    ensures Handle(a, OrderEvent(m)).account == a
  {
  }
}
