/** What no message sequence, honest or not, can do to a stored row. */
module UserDataSafety {
  import opened Models
  import opened Store
  import opened UserData

  predicate OrderKept(x: StoredOrder, y: StoredOrder) {
    && x.clientOrderId == y.clientOrderId
    && SameOrderIdentity(x, y)
    && x.filledQty <= y.filledQty
    && (TerminalOrder(x.status) ==> y.status == x.status)
  }

  predicate AlgoKept(x: StoredAlgoOrder, y: StoredAlgoOrder) {
    && x.clientAlgoId == y.clientAlgoId
    && SameAlgoIdentity(x, y)
    && AlgoMayFollow(x.status, y.status)
  }

  lemma AppliedOrderIsKept(x: StoredOrder, y: StoredOrder)
    ensures OrderKept(x, x)
    ensures OrderVerdict(Some(x), y).Apply? && x.clientOrderId == y.clientOrderId ==> OrderKept(x, y)
  {
  }

  lemma OrderUpdateKeepsOrder(a: Account, m: OrderMsg, c: ClientId)
    requires c in a.orders
    ensures c in OrderUpdate(a, m).account.orders
    ensures OrderKept(a.orders[c], OrderUpdate(a, m).account.orders[c])
  {
    AppliedOrderIsKept(a.orders[c], IncomingOrder(m));
    hide OrderVerdict, OrderKept;
    assert m.clientId == c && !c.NoId? ==> FindOrder(a.orders, c, m.exchangeId) == Some(a.orders[c]);
  }

  lemma AlgoEventsLeaveOrders(a: Account, m: AlgoMsg)
    ensures AlgoUpdate(a, m).account.orders == a.orders
  {
    hide AlgoVerdict, FindAlgo, PutAlgo, AlgoFits, IncomingAlgo;
  }

  lemma StepKeepsOrder(a: Account, m: Msg, c: ClientId)
    requires c in a.orders
    ensures c in Handle(a, m).account.orders
    ensures OrderKept(a.orders[c], Handle(a, m).account.orders[c])
  {
    hide OrderUpdate, OrderKept, AlgoUpdate, AccountUpdate, OrderVerdict;
    match m
    case OrderEvent(o) =>
      OrderUpdateKeepsOrder(a, o, c);
    case AlgoEvent(g) =>
      AlgoEventsLeaveOrders(a, g);
      AppliedOrderIsKept(a.orders[c], a.orders[c]);
    case AccountEvent(p) =>
      AccountNeverRaises(a, p);
      AppliedOrderIsKept(a.orders[c], a.orders[c]);
    case _ =>
      AppliedOrderIsKept(a.orders[c], a.orders[c]);
  }

  lemma AppliedAlgoIsKept(x: StoredAlgoOrder, y: StoredAlgoOrder)
    ensures AlgoKept(x, x)
    ensures AlgoVerdict(Some(x), y).Apply? && x.clientAlgoId == y.clientAlgoId ==> AlgoKept(x, y)
  {
  }

  /** An algo event leaves the table alone or puts in its own row. */
  lemma AlgoUpdatePuts(a: Account, m: AlgoMsg)
    ensures
      var after := AlgoUpdate(a, m).account.algos;
      || after == a.algos
      || (!m.clientId.NoId? && AlgoVerdict(FindAlgo(a.algos, m.clientId, m.algoId), IncomingAlgo(m)).Apply?
          && after == a.algos[m.clientId := IncomingAlgo(m)])
  {
    hide AlgoVerdict, FindAlgo, AlgoFits;
  }

  lemma AlgoUpdateKeepsAlgo(a: Account, m: AlgoMsg, c: ClientId)
    requires c in a.algos
    ensures c in AlgoUpdate(a, m).account.algos
    ensures AlgoKept(a.algos[c], AlgoUpdate(a, m).account.algos[c])
  {
    AppliedAlgoIsKept(a.algos[c], IncomingAlgo(m));
    AlgoUpdatePuts(a, m);
    assert m.clientId == c && !c.NoId? ==> FindAlgo(a.algos, c, m.algoId) == Some(a.algos[c]);
    hide AlgoVerdict, AlgoKept, AlgoUpdate, FindAlgo;
  }

  lemma OrderEventsLeaveAlgos(a: Account, m: OrderMsg)
    ensures OrderUpdate(a, m).account.algos == a.algos
  {
    hide OrderVerdict, FindOrder, PutOrder, OrderFits, IncomingOrder;
  }

  lemma StepKeepsAlgo(a: Account, m: Msg, c: ClientId)
    requires c in a.algos
    ensures c in Handle(a, m).account.algos
    ensures AlgoKept(a.algos[c], Handle(a, m).account.algos[c])
  {
    hide AlgoUpdate, AlgoKept, OrderUpdate, AccountUpdate, AlgoVerdict;
    match m
    case AlgoEvent(g) =>
      AlgoUpdateKeepsAlgo(a, g, c);
    case OrderEvent(o) =>
      OrderEventsLeaveAlgos(a, o);
      AppliedAlgoIsKept(a.algos[c], a.algos[c]);
    case AccountEvent(p) =>
      AccountNeverRaises(a, p);
      AppliedAlgoIsKept(a.algos[c], a.algos[c]);
    case _ =>
      AppliedAlgoIsKept(a.algos[c], a.algos[c]);
  }

  /** Over every run an order keeps its identity, never un-fills, and never leaves a terminal status. */
  lemma {:induction false} OrderHistory(a: Account, ms: seq<Msg>, c: ClientId)
    requires c in a.orders
    ensures c in After(a, ms).orders
    ensures OrderKept(a.orders[c], After(a, ms).orders[c])
  {
    if ms != [] {
      OrderHistory(a, ms[..|ms| - 1], c);
      StepKeepsOrder(After(a, ms[..|ms| - 1]), ms[|ms| - 1], c);
    }
  }

  /** Over every run an algo keeps its identity, stays in a final status, and leaves TRIGGERED only to FINISHED. */
  lemma {:induction false} AlgoHistory(a: Account, ms: seq<Msg>, c: ClientId)
    requires c in a.algos
    ensures c in After(a, ms).algos
    ensures AlgoKept(a.algos[c], After(a, ms).algos[c])
  {
    if ms != [] {
      AlgoHistory(a, ms[..|ms| - 1], c);
      StepKeepsAlgo(After(a, ms[..|ms| - 1]), ms[|ms| - 1], c);
    }
  }

  /** A message that would break a stored order halts or is dropped as stale; the table is untouched either way. */
  lemma OrderConflictHalts(a: Account, m: OrderMsg)
    requires !m.clientId.NoId? && m.clientId in a.orders
    requires !OrderKept(a.orders[m.clientId], IncomingOrder(m))
    ensures Handle(a, OrderEvent(m)).account == a
    ensures
      var h := Handle(a, OrderEvent(m));
      h.effect.HaltFor? ||
      (h.result == STALE && SameOrderIdentity(a.orders[m.clientId], IncomingOrder(m))
       && 0 != OrderTime(m) < a.orders[m.clientId].eventTime)
  {
    assert FindOrder(a.orders, m.clientId, m.exchangeId) == Some(a.orders[m.clientId]);
  }

  lemma AlgoConflictHalts(a: Account, m: AlgoMsg)
    requires !m.clientId.NoId? && m.clientId in a.algos
    requires !AlgoKept(a.algos[m.clientId], IncomingAlgo(m))
    ensures Handle(a, AlgoEvent(m)).account == a
    ensures
      var h := Handle(a, AlgoEvent(m));
      h.effect.HaltFor? ||
      (h.result == STALE && SameAlgoIdentity(a.algos[m.clientId], IncomingAlgo(m))
       && 0 != AlgoTime(m) < a.algos[m.clientId].eventTime)
  {
    assert FindAlgo(a.algos, m.clientId, m.algoId) == Some(a.algos[m.clientId]);
  }

  /** A known exchange id under a new client id is an integrity error: the event is marked, no row changes. */
  lemma ForeignClientIdIsIntegrityError(a: Account, m: OrderMsg)
    ensures Handle(a, OrderEvent(m)).effect.IntegrityError? ==>
              && Handle(a, OrderEvent(m)).account == a.(events := a.events + {KeyOfOrder(m)})
              && m.clientId !in a.orders
              && exists c ::
                   c in a.orders && c != m.clientId && OrderKept(a.orders[c], IncomingOrder(m).(clientOrderId := c))
  {
    var incoming := IncomingOrder(m);
    assert m.clientId in a.orders && a.orders[m.clientId].exchangeOrderId == m.exchangeId ==>
        OrderFits(a.orders, incoming);
    if Handle(a, OrderEvent(m)).effect.IntegrityError? {
      var found := FindOrder(a.orders, m.clientId, m.exchangeId);
      assert found.Some?;
      assert OrderKept(a.orders[found.value.clientOrderId], incoming.(clientOrderId := found.value.clientOrderId));
    }
  }

  function KeyOf(m: Msg): Option<EventKey> {
    match m
    case OrderEvent(o) => Some(KeyOfOrder(o))
    case AlgoEvent(g) => Some(KeyOfAlgo(g))
    case AccountEvent(p) => Some(KeyOfAccount(p))
    case _ => None
  }

  lemma StepKeepsEvents(a: Account, m: Msg)
    ensures a.events <= Handle(a, m).account.events
    ensures KeyOf(m).Some? && KeyOf(m).value in a.events ==> Handle(a, m).account == a
    ensures Handle(a, m).result == CHANGED && Handle(a, m).effect.Nothing? ==>
              KeyOf(m).Some? && KeyOf(m).value in Handle(a, m).account.events
  {
    hide OrdersKeyed, AlgosKeyed;
    if m.AccountEvent? {
      AccountNeverRaises(a, m.acc);
    }
  }

  lemma {:induction false} EventsOnlyGrow(a: Account, ms: seq<Msg>)
    ensures a.events <= After(a, ms).events
  {
    if ms != [] {
      EventsOnlyGrow(a, ms[..|ms| - 1]);
      StepKeepsEvents(After(a, ms[..|ms| - 1]), ms[|ms| - 1]);
    }
  }

  /** Once a message has changed the store, delivering it again at any later point changes no table. */
  lemma RedeliveryChangesNothing(a: Account, m: Msg, later: seq<Msg>)
    requires Handle(a, m).result == CHANGED && Handle(a, m).effect.Nothing?
    ensures Handle(After(Handle(a, m).account, later), m).account == After(Handle(a, m).account, later)
  {
    StepKeepsEvents(a, m);
    EventsOnlyGrow(Handle(a, m).account, later);
    StepKeepsEvents(After(Handle(a, m).account, later), m);
  }

  // ---- Positions ----

  /** One-way reports, no symbol named twice. */
  ghost predicate DistinctReport(items: seq<PositionItem>) {
    && (forall i | 0 <= i < |items| :: items[i].positionSide.BOTH?)
    && (forall i, j | 0 <= i < j < |items| :: items[i].symbol != items[j].symbol || items[i].symbol == "")
  }

  /** The table shows the reported position: none when flat, otherwise its side, size and value. */
  predicate Shows(positions: PositionTable, p: PositionItem, time: int) {
    if p.amount == 0.0 then p.symbol !in positions
    else
      && p.symbol in positions
      && var row := positions[p.symbol];
      && row.direction == (if p.amount > 0.0 then LONG else SHORT)
      && row.quantity > 0.0 && Sign(row.direction) * row.quantity == p.amount
      && row.entryPrice == p.entryPrice && row.notionalUsdt == row.quantity * p.entryPrice && row.eventTime == time
  }

  /** A report older than the stored row leaves it, any other one is shown. */
  predicate TakenOver(before: PositionTable, after: PositionTable, p: PositionItem, time: int) {
    if p.symbol in before && time != 0 && time < before[p.symbol].eventTime
    then p.symbol in after && after[p.symbol] == before[p.symbol]
    else Shows(after, p, time)
  }

  lemma AppliedIsTakenOver(positions: PositionTable, p: PositionItem, time: int)
    ensures TakenOver(positions, ApplyPosition(positions, p, time), p, time)
    ensures forall s | s != p.symbol :: s in ApplyPosition(positions, p, time) <==> s in positions
    ensures forall s | s != p.symbol && s in positions :: ApplyPosition(positions, p, time)[s] == positions[s]
  {
  }

  lemma SameRowTakenOver(a: PositionTable, b: PositionTable, c: PositionTable, d: PositionTable, p: PositionItem,
                         time: int)
    requires p.symbol in a <==> p.symbol in b
    requires p.symbol in a ==> a[p.symbol] == b[p.symbol]
    requires p.symbol in c <==> p.symbol in d
    requires p.symbol in c ==> c[p.symbol] == d[p.symbol]
    ensures TakenOver(a, c, p, time) <==> TakenOver(b, d, p, time)
  {
  }

  /** An account report is taken over whole: every reported symbol shows it, unless its row is newer, and no other
      symbol moves. */
  lemma {:induction false} ReportIsTakenOver(a: Account, items: seq<PositionItem>, time: int, changed: bool)
    requires DistinctReport(items)
    ensures
      var after := ApplyPositions(a, items, time, changed);
      && after.effect.Nothing?
      && (forall i | 0 <= i < |items| && items[i].symbol != "" ::
            TakenOver(a.positions, after.account.positions, items[i], time))
      && (forall s | s == "" || forall i | 0 <= i < |items| :: items[i].symbol != s ::
            && (s in after.account.positions <==> s in a.positions)
            && (s in a.positions ==> after.account.positions[s] == a.positions[s]))
    decreases items
  {
    hide ApplyPosition, PositionChanges, TakenOver;
    if items != [] {
      var p, rest := items[0], items[1..];
      assert forall i | 0 <= i < |rest| :: rest[i] == items[i + 1];
      var mid := if p.symbol == "" then a else a.(positions := ApplyPosition(a.positions, p, time));
      AppliedIsTakenOver(a.positions, p, time);
      var more := if p.symbol == "" then changed else changed || PositionChanges(a.positions, p, time);
      ReportIsTakenOver(mid, rest, time, more);
      var after := ApplyPositions(a, items, time, changed).account.positions;
      assert after == ApplyPositions(mid, rest, time, more).account.positions;
      forall i | 0 <= i < |items| && items[i].symbol != "" ensures TakenOver(a.positions, after, items[i], time) {
        if i == 0 {
          SameRowTakenOver(a.positions, a.positions, mid.positions, after, p, time);
        } else {
          assert items[i] == rest[i - 1];
          SameRowTakenOver(a.positions, mid.positions, after, after, items[i], time);
        }
      }
    }
  }

  /** A report halts exactly when it names a position that is not one-way. */
  lemma {:induction false} ReportHaltsIff(a: Account, items: seq<PositionItem>, time: int, changed: bool)
    ensures ApplyPositions(a, items, time, changed).effect.HaltFor? <==>
              exists i :: 0 <= i < |items| && items[i].symbol != "" && items[i].positionSide != BOTH
    decreases items
  {
    hide ApplyPosition, PositionChanges;
    if items != [] {
      var p, rest := items[0], items[1..];
      assert forall i | 0 <= i < |rest| :: rest[i] == items[i + 1];
      ReportHaltsIff(a, rest, time, changed);
      ReportHaltsIff(a.(positions := ApplyPosition(a.positions, p, time)), rest, time,
                     changed || PositionChanges(a.positions, p, time));
      if i :| 0 <= i < |items| && items[i].symbol != "" && items[i].positionSide != BOTH {
        assert i > 0 ==> rest[i - 1] == items[i];
      }
    }
  }
}
