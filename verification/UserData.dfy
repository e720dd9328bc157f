/** Merging of user-stream events into the account tables. */
module UserData {
  import opened Models
  import opened Store

  datatype OrderMsg = OrderMsg(
    eventMs: Option<int>,
    transactMs: Option<int>,
    tradeMs: Option<int>,
    clientId: ClientId,
    exchangeId: string,
    symbol: string,
    side: Side,
    status: Status,
    orderType: string,
    execType: string,
    positionSide: PositionSide,
    quantity: real,
    filled: real,
    avgPrice: real,
    reduceOnly: bool,
    tradeId: Option<int>)

  datatype AlgoMsg = AlgoMsg(
    eventMs: Option<int>,
    transactMs: Option<int>,
    clientId: ClientId,
    algoId: string,
    symbol: string,
    side: Side,
    status: Status,
    algoType: string,
    orderType: string,
    positionSide: PositionSide,
    triggerPrice: real,
    quantity: real,
    closePosition: bool,
    reduceOnly: bool,
    actualOrderId: string)

  datatype AccountMsg = AccountMsg(eventMs: Option<int>, transactMs: Option<int>, positions: seq<PositionItem>)

  datatype Msg =
    | OrderEvent(order: OrderMsg)
    | AlgoEvent(algo: AlgoMsg)
    | AccountEvent(acc: AccountMsg)
    | ListenKeyExpired
    | MarginCall
    | TriggerReject
    | OtherEvent(name: string)

  datatype UserDataResult = UserDataResult(changed: bool, duplicate: bool, stale: bool, reconnectRequired: bool)

  /** What a message does besides changing the account tables. */
  datatype Effect = Nothing | HaltFor(reason: HaltReason) | KeyExpired | IntegrityError

  datatype Handled = Handled(account: Account, effect: Effect, result: UserDataResult)

  const CHANGED := UserDataResult(true, false, false, false)
  const UNCHANGED := UserDataResult(false, false, false, false)
  const DUPLICATE := UserDataResult(false, true, false, false)
  const STALE := UserDataResult(false, false, true, false)
  const RECONNECT := UserDataResult(true, false, false, true)

  /** The first present, non-zero stamp, or 0. */
  function Stamp(times: seq<Option<int>>): int {
    if times == [] then 0
    else if times[0].Some? && times[0].value != 0 then times[0].value
    else Stamp(times[1..])
  }

  function OrderTime(m: OrderMsg): int {
    Stamp([m.tradeMs, m.transactMs, m.eventMs])
  }

  function AlgoTime(m: AlgoMsg): int {
    Stamp([m.transactMs, m.eventMs])
  }

  function LastTradeId(t: Option<int>): Option<int> {
    if t.None? || t.value < 0 then None else t
  }

  function IncomingOrder(m: OrderMsg): StoredOrder {
    StoredOrder(m.clientId, m.exchangeId, m.symbol, m.side, m.status, m.orderType, m.quantity, m.filled,
                m.avgPrice, m.reduceOnly, OrderTime(m), LastTradeId(m.tradeId))
  }

  function IncomingAlgo(m: AlgoMsg): StoredAlgoOrder {
    StoredAlgoOrder(m.clientId, m.algoId, m.symbol, m.side, m.status, m.algoType, m.orderType, m.triggerPrice,
                    m.quantity, m.closePosition, m.reduceOnly, m.actualOrderId, AlgoTime(m))
  }

  function KeyOfOrder(m: OrderMsg): EventKey {
    OrderKey(m.eventMs, m.transactMs, m.exchangeId, m.clientId, m.execType, m.status, m.filled, LastTradeId(m.tradeId))
  }

  function KeyOfAlgo(m: AlgoMsg): EventKey {
    AlgoKey(m.eventMs, m.transactMs, m.algoId, m.clientId, m.status, m.actualOrderId)
  }

  function KeyOfAccount(m: AccountMsg): EventKey {
    AccountKey(m.eventMs, m.transactMs, m.positions)
  }

  /** The immutable fields of an order. The client id is not among them. */
  predicate SameOrderIdentity(x: StoredOrder, y: StoredOrder) {
    && x.exchangeOrderId == y.exchangeOrderId
    && x.symbol == y.symbol
    && x.side == y.side
    && x.orderType == y.orderType
    && x.origQty == y.origQty
    && x.reduceOnly == y.reduceOnly
  }

  /** Quantity is part of an algo's identity unless both sides close the whole position. */
  predicate SameAlgoIdentity(x: StoredAlgoOrder, y: StoredAlgoOrder) {
    && x.algoId == y.algoId
    && x.symbol == y.symbol
    && x.side == y.side
    && x.algoType == y.algoType
    && x.orderType == y.orderType
    && x.triggerPrice == y.triggerPrice
    && x.closePosition == y.closePosition
    && x.reduceOnly == y.reduceOnly
    && ((x.closePosition && y.closePosition) || x.quantity == y.quantity)
  }

  datatype Verdict = Conflict(reason: HaltReason) | Stale | Duplicate | Apply

  function OrderVerdict(existing: Option<StoredOrder>, incoming: StoredOrder): Verdict {
    if existing.None? then Apply
    else if !SameOrderIdentity(existing.value, incoming) then
      Conflict(OrderIdentityConflict(existing.value.clientOrderId))
    else if incoming.eventTime != 0 && incoming.eventTime < existing.value.eventTime then Stale
    else if incoming.filledQty < existing.value.filledQty then
      Conflict(OrderFillRegression(incoming.clientOrderId))
    else if TerminalOrder(existing.value.status) && incoming.status != existing.value.status then
      Conflict(TerminalOrderMutation(incoming.clientOrderId))
    else if incoming == existing.value then Duplicate
    else Apply
  }

  predicate AlgoMayFollow(old_: Status, new_: Status) {
    && (FinalAlgo(old_) ==> new_ == old_)
    && (old_.TRIGGERED? ==> new_.TRIGGERED? || new_.FINISHED?)
  }

  function AlgoVerdict(existing: Option<StoredAlgoOrder>, incoming: StoredAlgoOrder): Verdict {
    if existing.None? then Apply
    else if !SameAlgoIdentity(existing.value, incoming) then
      Conflict(AlgoIdentityConflict(existing.value.clientAlgoId))
    else if incoming.eventTime != 0 && incoming.eventTime < existing.value.eventTime then Stale
    else if FinalAlgo(existing.value.status) && incoming.status != existing.value.status then
      Conflict(TerminalAlgoMutation(incoming.clientAlgoId))
    else if !AlgoMayFollow(existing.value.status, incoming.status) then
      Conflict(AlgoStatusRegression(incoming.clientAlgoId))
    else if incoming == existing.value then Duplicate
    else Apply
  }

  /** By client id first, by exchange id when that finds nothing. */
  function FindOrder(orders: OrderTable, clientId: ClientId, exchangeId: string): Option<StoredOrder> {
    var own := if !clientId.NoId? then GetOrder(orders, clientId) else None;
    if own.None? && exchangeId != "" then OrderByExchangeId(orders, exchangeId) else own
  }

  function FindAlgo(algos: AlgoTable, clientId: ClientId, algoId: string): Option<StoredAlgoOrder> {
    var own := if !clientId.NoId? then GetAlgo(algos, clientId) else None;
    if own.None? && algoId != "" then AlgoByAlgoId(algos, algoId) else own
  }

  function Halting(a: Account, reason: HaltReason): Handled {
    Handled(a, HaltFor(reason), CHANGED)
  }

  function OrderUpdate(a: Account, m: OrderMsg): Handled {
    if !m.positionSide.BOTH? then Halting(a, HedgeModeUnsupported(m.symbol))
    else if m.clientId.AutoCloseId? then Halting(a, ForcedCloseEvent(m.symbol))
    else
      var existing := FindOrder(a.orders, m.clientId, m.exchangeId);
      if m.clientId.NoId? || (existing.None? && !m.clientId.SgId?) then
        Halting(a, ForeignOrderEvent(m.symbol))
      else
        var incoming := IncomingOrder(m);
        match OrderVerdict(existing, incoming)
        case Conflict(reason) => Halting(a, reason)
        case Stale => Handled(a, Nothing, STALE)
        case Duplicate => Handled(a, Nothing, DUPLICATE)
        case Apply =>
          var key := KeyOfOrder(m);
          if key in a.events then Handled(a, Nothing, DUPLICATE)
          else
            var marked := a.(events := a.events + {key});
            if OrderFits(a.orders, incoming) then
              Handled(marked.(orders := PutOrder(a.orders, incoming)), Nothing, CHANGED)
            else Handled(marked, IntegrityError, UNCHANGED)
  }

  function AlgoUpdate(a: Account, m: AlgoMsg): Handled {
    if !m.positionSide.BOTH? then Halting(a, HedgeModeUnsupported(m.symbol))
    else
      var existing := FindAlgo(a.algos, m.clientId, m.algoId);
      if m.clientId.NoId? || (existing.None? && !m.clientId.SgId?) then
        Halting(a, ForeignAlgoEvent(m.symbol))
      else
        var incoming := IncomingAlgo(m);
        match AlgoVerdict(existing, incoming)
        case Conflict(reason) => Halting(a, reason)
        case Stale => Handled(a, Nothing, STALE)
        case Duplicate => Handled(a, Nothing, DUPLICATE)
        case Apply =>
          var key := KeyOfAlgo(m);
          if key in a.events then Handled(a, Nothing, DUPLICATE)
          else
            var marked := a.(events := a.events + {key});
            if AlgoFits(a.algos, incoming) then
              Handled(marked.(algos := PutAlgo(a.algos, incoming)), Nothing, CHANGED)
            else Handled(marked, IntegrityError, UNCHANGED)
  }

  function Reported(p: PositionItem, time: int): StoredPosition {
    var quantity := Abs(p.amount);
    StoredPosition(p.symbol, if p.amount > 0.0 then LONG else SHORT, quantity, p.entryPrice,
                   quantity * p.entryPrice, time)
  }

  /** The position table after one reported position; a stale report changes nothing. */
  function ApplyPosition(positions: PositionTable, p: PositionItem, time: int): PositionTable {
    if p.symbol in positions && time != 0 && time < positions[p.symbol].eventTime then positions
    else if p.amount == 0.0 then positions - {p.symbol}
    else positions[p.symbol := Reported(p, time)]
  }

  predicate PositionChanges(positions: PositionTable, p: PositionItem, time: int) {
    if p.symbol in positions && time != 0 && time < positions[p.symbol].eventTime then false
    else if p.amount == 0.0 then p.symbol in positions
    else true
  }

  /** Reports before a hedge-mode one stay applied when that one halts. */
  function ApplyPositions(a: Account, items: seq<PositionItem>, time: int, changed: bool): Handled
    decreases items
  {
    if items == [] then
      Handled(a, Nothing, if changed then CHANGED else UNCHANGED)
    else
      var p := items[0];
      if p.symbol == "" then ApplyPositions(a, items[1..], time, changed)
      else if !p.positionSide.BOTH? then Halting(a, HedgeModeUnsupported(p.symbol))
      else
        ApplyPositions(a.(positions := ApplyPosition(a.positions, p, time)), items[1..], time,
                       changed || PositionChanges(a.positions, p, time))
  }

  function AccountUpdate(a: Account, m: AccountMsg): Handled {
    var key := KeyOfAccount(m);
    if key in a.events then Handled(a, Nothing, DUPLICATE)
    else ApplyPositions(a.(events := a.events + {key}), m.positions, Stamp([m.transactMs, m.eventMs]), false)
  }

  function Handle(a: Account, m: Msg): Handled {
    match m
    case OrderEvent(o) => OrderUpdate(a, o)
    case AlgoEvent(g) => AlgoUpdate(a, g)
    case AccountEvent(p) => AccountUpdate(a, p)
    case ListenKeyExpired => Handled(a, KeyExpired, RECONNECT)
    case MarginCall => Halting(a, MarginCalled)
    case TriggerReject => Halting(a, ConditionalTriggerReject)
    case OtherEvent(_) => Handled(a, Nothing, UNCHANGED)
  }

  function ApplyEffect(db: Db, e: Effect): Db {
    match e
    case Nothing => db
    case HaltFor(reason) => Halt(db, reason)
    case KeyExpired => db.(ready := false, streamStatus := EXPIRED_KEY)
    case IntegrityError => db
  }

  /** The store after one message, whatever the message is. */
  function OnMessage(db: Db, m: Msg): Db {
    var h := Handle(db.account, m);
    ApplyEffect(db.(account := h.account), h.effect)
  }

  /** The account tables after a whole run of messages. */
  function After(a: Account, ms: seq<Msg>): Account {
    if ms == [] then a else Handle(After(a, ms[..|ms| - 1]), ms[|ms| - 1]).account
  }

  lemma AfterSnoc(a: Account, ms: seq<Msg>, m: Msg)
    ensures After(a, ms + [m]) == Handle(After(a, ms), m).account
  {
    assert (ms + [m])[..|ms|] == ms;
  }

  class BinanceUserDataProcessor {
    const store: StateStore

    constructor (store: StateStore)
      ensures this.store == store
    {
      this.store := store;
    }

    method HaltConflict(reason: HaltReason) returns (result: UserDataResult)
      modifies store
      ensures store.View() == Halt(old(store.View()), reason)
      ensures result == CHANGED
    {
      store.HaltFor(reason);
      result := CHANGED;
    }

    method OnOrderUpdate(m: OrderMsg) returns (raised: bool, result: UserDataResult)
      modifies store
      ensures store.View() == OnMessage(old(store.View()), OrderEvent(m))
      ensures raised == Handle(old(store.Acc()), OrderEvent(m)).effect.IntegrityError?
      ensures result == Handle(old(store.Acc()), OrderEvent(m)).result
    {
      raised := false;
      if !m.positionSide.BOTH? {
        result := HaltConflict(HedgeModeUnsupported(m.symbol));
        return;
      }
      if m.clientId.AutoCloseId? {
        result := HaltConflict(ForcedCloseEvent(m.symbol));
        return;
      }
      var existing := FindOrder(store.orders, m.clientId, m.exchangeId);
      if m.clientId.NoId? || (existing.None? && !m.clientId.SgId?) {
        result := HaltConflict(ForeignOrderEvent(m.symbol));
        return;
      }
      var incoming := IncomingOrder(m);
      match OrderVerdict(existing, incoming)
      case Conflict(reason) =>
        result := HaltConflict(reason);
      case Stale =>
        result := STALE;
      case Duplicate =>
        result := DUPLICATE;
      case Apply =>
        raised, result := CommitOrder(KeyOfOrder(m), incoming);
    }

    /** Marks the event, then writes the row; a row the unique index rejects leaves the event marked. */
    method CommitOrder(key: EventKey, incoming: StoredOrder) returns (raised: bool, result: UserDataResult)
      modifies store
      ensures key in old(store.events) ==>
                store.View() == old(store.View()) && !raised && result == DUPLICATE
      ensures key !in old(store.events) ==>
                && store.View() == old(store.View()).(account := old(store.Acc()).(
                     events := old(store.events) + {key}, orders := PutOrder(old(store.orders), incoming)))
                && raised == !OrderFits(old(store.orders), incoming)
                && result == if raised then UNCHANGED else CHANGED
    {
      raised := false;
      var first := store.MarkEventOnce(key);
      if !first {
        assert store.events == old(store.events);
        result := DUPLICATE;
        return;
      }
      var ok := store.UpsertOrder(incoming);
      raised := !ok;
      result := if ok then CHANGED else UNCHANGED;
    }

    method OnAlgoUpdate(m: AlgoMsg) returns (raised: bool, result: UserDataResult)
      modifies store
      ensures store.View() == OnMessage(old(store.View()), AlgoEvent(m))
      ensures raised == Handle(old(store.Acc()), AlgoEvent(m)).effect.IntegrityError?
      ensures result == Handle(old(store.Acc()), AlgoEvent(m)).result
    {
      raised := false;
      if !m.positionSide.BOTH? {
        result := HaltConflict(HedgeModeUnsupported(m.symbol));
        return;
      }
      var existing := FindAlgo(store.algos, m.clientId, m.algoId);
      if m.clientId.NoId? || (existing.None? && !m.clientId.SgId?) {
        result := HaltConflict(ForeignAlgoEvent(m.symbol));
        return;
      }
      var incoming := IncomingAlgo(m);
      match AlgoVerdict(existing, incoming)
      case Conflict(reason) =>
        result := HaltConflict(reason);
      case Stale =>
        result := STALE;
      case Duplicate =>
        result := DUPLICATE;
      case Apply =>
        raised, result := CommitAlgo(KeyOfAlgo(m), incoming);
    }

    /** Marks the event, then writes the row; a row the unique index rejects leaves the event marked. */
    method CommitAlgo(key: EventKey, incoming: StoredAlgoOrder) returns (raised: bool, result: UserDataResult)
      modifies store
      ensures key in old(store.events) ==>
                store.View() == old(store.View()) && !raised && result == DUPLICATE
      ensures key !in old(store.events) ==>
                && store.View() == old(store.View()).(account := old(store.Acc()).(
                     events := old(store.events) + {key}, algos := PutAlgo(old(store.algos), incoming)))
                && raised == !AlgoFits(old(store.algos), incoming)
                && result == if raised then UNCHANGED else CHANGED
    {
      raised := false;
      var first := store.MarkEventOnce(key);
      if !first {
        assert store.events == old(store.events);
        result := DUPLICATE;
        return;
      }
      var ok := store.UpsertAlgoOrder(incoming);
      raised := !ok;
      result := if ok then CHANGED else UNCHANGED;
    }

    /** One reported position: ignored when stale, deleted when flat, replaced otherwise. */
    method ApplyReported(p: PositionItem, time: int) returns (changed: bool)
      modifies store
      ensures store.View() == old(store.View()).(account := old(store.Acc()).(
                positions := ApplyPosition(old(store.positions), p, time)))
      ensures changed == PositionChanges(old(store.positions), p, time)
    {
      changed := false;
      if p.symbol in store.positions && time != 0 && time < store.positions[p.symbol].eventTime {
        return;
      }
      if p.amount == 0.0 {
        changed := p.symbol in store.positions;
        if changed {
          store.DeletePosition(p.symbol);
        } else {
          assert store.positions - {p.symbol} == store.positions;
        }
        return;
      }
      store.UpsertAccountPosition(Reported(p, time));
      changed := true;
    }

    method OnAccountUpdate(m: AccountMsg) returns (result: UserDataResult)
      modifies store
      ensures store.View() == OnMessage(old(store.View()), AccountEvent(m))
      ensures result == Handle(old(store.Acc()), AccountEvent(m)).result
    {
      var time := Stamp([m.transactMs, m.eventMs]);
      var first := store.MarkEventOnce(KeyOfAccount(m));
      if !first {
        assert store.events == old(store.events);
        result := DUPLICATE;
        return;
      }
      ghost var started := store.View();
      var changed := false;
      var i := 0;
      while i < |m.positions|
        invariant 0 <= i <= |m.positions|
        invariant store.View() == started.(account := store.Acc())
        invariant ApplyPositions(store.Acc(), m.positions[i..], time, changed)
               == ApplyPositions(started.account, m.positions, time, false)
      {
        var p := m.positions[i];
        assert m.positions[i..][1..] == m.positions[i + 1..];
        i := i + 1;
        if p.symbol == "" {
          continue;
        }
        if !p.positionSide.BOTH? {
          result := HaltConflict(HedgeModeUnsupported(p.symbol));
          return;
        }
        var moved := ApplyReported(p, time);
        changed := changed || moved;
      }
      result := if changed then CHANGED else UNCHANGED;
    }

    method OnMessageReceived(m: Msg) returns (raised: bool, result: UserDataResult)
      modifies store
      ensures store.View() == OnMessage(old(store.View()), m)
      ensures raised == Handle(old(store.Acc()), m).effect.IntegrityError?
      ensures result == Handle(old(store.Acc()), m).result
    {
      raised := false;
      match m
      case OrderEvent(o) =>
        raised, result := OnOrderUpdate(o);
      case AlgoEvent(g) =>
        raised, result := OnAlgoUpdate(g);
      case AccountEvent(p) =>
        result := OnAccountUpdate(p);
        AccountNeverRaises(old(store.Acc()), p);
      case ListenKeyExpired =>
        store.SetExecutionReady(false);
        store.SetStreamStatus(EXPIRED_KEY);
        result := RECONNECT;
      case MarginCall =>
        result := HaltConflict(MarginCalled);
      case TriggerReject =>
        result := HaltConflict(ConditionalTriggerReject);
      case OtherEvent(_) =>
        result := UNCHANGED;
    }
  }

  lemma {:induction false} PositionsNeverRaise(a: Account, items: seq<PositionItem>, time: int, changed: bool)
    ensures !ApplyPositions(a, items, time, changed).effect.IntegrityError?
    ensures !ApplyPositions(a, items, time, changed).effect.KeyExpired?
    ensures ApplyPositions(a, items, time, changed).account
            == a.(positions := ApplyPositions(a, items, time, changed).account.positions)
    decreases items
  {
    if items != [] {
      var p := items[0];
      PositionsNeverRaise(a, items[1..], time, changed);
      PositionsNeverRaise(a.(positions := ApplyPosition(a.positions, p, time)), items[1..], time,
                          changed || PositionChanges(a.positions, p, time));
    }
  }

  /** An account event touches only positions and its own key, and never fails on the unique index. */
  lemma AccountNeverRaises(a: Account, m: AccountMsg)
    ensures !AccountUpdate(a, m).effect.IntegrityError?
    ensures AccountUpdate(a, m).account.orders == a.orders
    ensures AccountUpdate(a, m).account.algos == a.algos
    ensures AccountUpdate(a, m).account.events == a.events + {KeyOfAccount(m)}
  {
    PositionsNeverRaise(a.(events := a.events + {KeyOfAccount(m)}), m.positions, Stamp([m.transactMs, m.eventMs]),
                        false);
  }
}
