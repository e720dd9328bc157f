/** Comparing the stored account with a REST snapshot before execution may resume. */
module Reconciliation {
  import opened Models
  import opened Store

  datatype RemoteOrder = RemoteOrder(
    clientOrderId: ClientId,
    exchangeOrderId: string,
    symbol: string,
    side: Side,
    status: Status,
    orderType: string,
    origQty: real,
    filledQty: real,
    avgPrice: real,
    reduceOnly: bool)

  datatype RemoteAlgo = RemoteAlgo(
    clientAlgoId: ClientId,
    algoId: string,
    symbol: string,
    side: Side,
    status: Status,
    algoType: string,
    orderType: string,
    triggerPrice: real,
    quantity: real,
    closePosition: bool,
    reduceOnly: bool,
    actualOrderId: string)

  datatype RemotePosition = RemotePosition(symbol: string, direction: Direction, quantity: real, entryPrice: real)

  datatype Snapshot = Snapshot(orders: seq<RemoteOrder>, algos: seq<RemoteAlgo>, positions: seq<RemotePosition>)

  datatype Field =
    | ExchangeIdField | SymbolField | SideField | StatusField | TypeField | OrigQtyField | FilledQtyField
    | ReduceOnlyField | AlgoTypeField | TriggerField | ClosePositionField | QuantityField | ActualOrderIdField
    | DirectionField | EntryField

  datatype Mismatch =
    | UnknownRemoteOrder(id: ClientId) | MissingRemoteOrder(id: ClientId) | OrderMismatch(id: ClientId, field: Field)
    | UnknownRemoteAlgo(id: ClientId) | MissingRemoteAlgo(id: ClientId) | AlgoMismatch(id: ClientId, field: Field)
    | UnknownRemotePosition(symbol: string) | MissingRemotePosition(symbol: string)
    | PositionMismatch(symbol: string, field: Field)

  predicate OrderFieldDiffers(l: StoredOrder, r: RemoteOrder, f: Field) {
    match f
    case ExchangeIdField => l.exchangeOrderId != r.exchangeOrderId
    case SymbolField => l.symbol != r.symbol
    case SideField => l.side != r.side
    case StatusField => l.status != r.status
    case TypeField => l.orderType != r.orderType
    case OrigQtyField => l.origQty != r.origQty
    case FilledQtyField => l.filledQty != r.filledQty
    case ReduceOnlyField => l.reduceOnly != r.reduceOnly
    case _ => false
  }

  /** Two coded exemptions: the quantity of a close-position algo, and an unset actual order id. */
  predicate AlgoFieldDiffers(l: StoredAlgoOrder, r: RemoteAlgo, f: Field) {
    match f
    case ExchangeIdField => l.algoId != r.algoId
    case SymbolField => l.symbol != r.symbol
    case SideField => l.side != r.side
    case StatusField => l.status != r.status
    case AlgoTypeField => l.algoType != r.algoType
    case TypeField => l.orderType != r.orderType
    case TriggerField => l.triggerPrice != r.triggerPrice
    case ClosePositionField => l.closePosition != r.closePosition
    case ReduceOnlyField => l.reduceOnly != r.reduceOnly
    case QuantityField => !(l.closePosition && r.closePosition) && l.quantity != r.quantity
    case ActualOrderIdField => l.actualOrderId != "" && r.actualOrderId != "" && l.actualOrderId != r.actualOrderId
    case _ => false
  }

  predicate PositionFieldDiffers(l: StoredPosition, r: RemotePosition, f: Field) {
    match f
    case DirectionField => l.direction != r.direction
    case QuantityField => l.quantity != r.quantity
    case EntryField => l.entryPrice != r.entryPrice
    case _ => false
  }

  function ActiveOrders(orders: OrderTable): map<ClientId, StoredOrder> {
    map c | c in orders && ActiveOrder(orders[c].status) :: orders[c]
  }

  function ActiveAlgos(algos: AlgoTable): map<ClientId, StoredAlgoOrder> {
    map c | c in algos && ActiveAlgo(algos[c].status) :: algos[c]
  }

  function OpenPositions(positions: PositionTable): map<string, StoredPosition> {
    map s | s in positions && positions[s].quantity != 0.0 :: positions[s]
  }

  /** The remote rows by id; of several rows with one id the last listed is kept. */
  function OrdersById(rs: seq<RemoteOrder>): map<ClientId, RemoteOrder> {
    if rs == [] then map[] else OrdersById(rs[..|rs| - 1])[rs[|rs| - 1].clientOrderId := rs[|rs| - 1]]
  }

  function AlgosById(rs: seq<RemoteAlgo>): map<ClientId, RemoteAlgo> {
    if rs == [] then map[] else AlgosById(rs[..|rs| - 1])[rs[|rs| - 1].clientAlgoId := rs[|rs| - 1]]
  }

  function PositionsBySymbol(rs: seq<RemotePosition>): map<string, RemotePosition> {
    if rs == [] then map[] else PositionsBySymbol(rs[..|rs| - 1])[rs[|rs| - 1].symbol := rs[|rs| - 1]]
  }

  predicate OrderMatches(l: StoredOrder, r: RemoteOrder) {
    && l.exchangeOrderId == r.exchangeOrderId && l.symbol == r.symbol && l.side == r.side && l.status == r.status
    && l.orderType == r.orderType && l.origQty == r.origQty && l.filledQty == r.filledQty
    && l.reduceOnly == r.reduceOnly
  }

  predicate AlgoMatches(l: StoredAlgoOrder, r: RemoteAlgo) {
    && l.algoId == r.algoId && l.symbol == r.symbol && l.side == r.side && l.status == r.status
    && l.algoType == r.algoType && l.orderType == r.orderType && l.triggerPrice == r.triggerPrice
    && l.closePosition == r.closePosition && l.reduceOnly == r.reduceOnly
    && (l.closePosition || l.quantity == r.quantity)
    && (l.actualOrderId == "" || r.actualOrderId == "" || l.actualOrderId == r.actualOrderId)
  }

  predicate PositionMatches(l: StoredPosition, r: RemotePosition) {
    l.direction == r.direction && l.quantity == r.quantity && l.entryPrice == r.entryPrice
  }

  /** Both sides list the same active keys, and the rows under each key agree. */
  ghost predicate Agrees(a: Account, s: Snapshot) {
    var lo, ro := ActiveOrders(a.orders), OrdersById(s.orders);
    var la, ra := ActiveAlgos(a.algos), AlgosById(s.algos);
    var lp, rp := OpenPositions(a.positions), PositionsBySymbol(s.positions);
    && lo.Keys == ro.Keys && (forall c | c in lo :: OrderMatches(lo[c], ro[c]))
    && la.Keys == ra.Keys && (forall c | c in la :: AlgoMatches(la[c], ra[c]))
    && lp.Keys == rp.Keys && (forall c | c in lp :: PositionMatches(lp[c], rp[c]))
  }

  lemma OrderMatchesIff(l: StoredOrder, r: RemoteOrder)
    ensures OrderMatches(l, r) <==> forall f :: !OrderFieldDiffers(l, r, f)
  {
    if forall f :: !OrderFieldDiffers(l, r, f) {
      assert !OrderFieldDiffers(l, r, ExchangeIdField);
      assert !OrderFieldDiffers(l, r, SymbolField);
      assert !OrderFieldDiffers(l, r, SideField);
      assert !OrderFieldDiffers(l, r, StatusField);
      assert !OrderFieldDiffers(l, r, TypeField);
      assert !OrderFieldDiffers(l, r, OrigQtyField);
      assert !OrderFieldDiffers(l, r, FilledQtyField);
      assert !OrderFieldDiffers(l, r, ReduceOnlyField);
    }
  }

  lemma AlgoMatchesIff(l: StoredAlgoOrder, r: RemoteAlgo)
    ensures AlgoMatches(l, r) <==> forall f :: !AlgoFieldDiffers(l, r, f)
  {
    if forall f :: !AlgoFieldDiffers(l, r, f) {
      assert !AlgoFieldDiffers(l, r, ExchangeIdField);
      assert !AlgoFieldDiffers(l, r, SymbolField);
      assert !AlgoFieldDiffers(l, r, SideField);
      assert !AlgoFieldDiffers(l, r, StatusField);
      assert !AlgoFieldDiffers(l, r, AlgoTypeField);
      assert !AlgoFieldDiffers(l, r, TypeField);
      assert !AlgoFieldDiffers(l, r, TriggerField);
      assert !AlgoFieldDiffers(l, r, ClosePositionField);
      assert !AlgoFieldDiffers(l, r, ReduceOnlyField);
      assert !AlgoFieldDiffers(l, r, QuantityField);
      assert !AlgoFieldDiffers(l, r, ActualOrderIdField);
    }
  }

  lemma PositionMatchesIff(l: StoredPosition, r: RemotePosition)
    ensures PositionMatches(l, r) <==> forall f :: !PositionFieldDiffers(l, r, f)
  {
    if forall f :: !PositionFieldDiffers(l, r, f) {
      assert !PositionFieldDiffers(l, r, DirectionField);
      assert !PositionFieldDiffers(l, r, QuantityField);
      assert !PositionFieldDiffers(l, r, EntryField);
    }
  }

  predicate OrderProblem(local: map<ClientId, StoredOrder>, remote: map<ClientId, RemoteOrder>, m: Mismatch) {
    match m
    case UnknownRemoteOrder(c) => c in remote && c !in local
    case MissingRemoteOrder(c) => c in local && c !in remote
    case OrderMismatch(c, f) => c in local && c in remote && OrderFieldDiffers(local[c], remote[c], f)
    case _ => false
  }

  predicate AlgoProblem(local: map<ClientId, StoredAlgoOrder>, remote: map<ClientId, RemoteAlgo>, m: Mismatch) {
    match m
    case UnknownRemoteAlgo(c) => c in remote && c !in local
    case MissingRemoteAlgo(c) => c in local && c !in remote
    case AlgoMismatch(c, f) => c in local && c in remote && AlgoFieldDiffers(local[c], remote[c], f)
    case _ => false
  }

  predicate PositionProblem(local: map<string, StoredPosition>, remote: map<string, RemotePosition>, m: Mismatch) {
    match m
    case UnknownRemotePosition(c) => c in remote && c !in local
    case MissingRemotePosition(c) => c in local && c !in remote
    case PositionMismatch(c, f) => c in local && c in remote && PositionFieldDiffers(local[c], remote[c], f)
    case _ => false
  }

  ghost predicate Problem(a: Account, s: Snapshot, m: Mismatch) {
    || OrderProblem(ActiveOrders(a.orders), OrdersById(s.orders), m)
    || AlgoProblem(ActiveAlgos(a.algos), AlgosById(s.algos), m)
    || PositionProblem(OpenPositions(a.positions), PositionsBySymbol(s.positions), m)
  }

  /** Agreement is exactly the absence of a reportable problem. */
  lemma AgreesIffNoProblem(a: Account, s: Snapshot)
    ensures Agrees(a, s) <==> forall m :: !Problem(a, s, m)
  {
    if forall m :: !Problem(a, s, m) {
      NoOrderProblem(a, s);
      NoAlgoProblem(a, s);
      NoPositionProblem(a, s);
    }
  }

  lemma NoOrderProblem(a: Account, s: Snapshot)
    requires forall m :: !Problem(a, s, m)
    ensures ActiveOrders(a.orders).Keys == OrdersById(s.orders).Keys
    ensures forall c | c in ActiveOrders(a.orders) :: OrderMatches(ActiveOrders(a.orders)[c], OrdersById(s.orders)[c])
  {
    var lo, ro := ActiveOrders(a.orders), OrdersById(s.orders);
    forall c
      ensures c in lo <==> c in ro
      ensures c in lo ==> OrderMatches(lo[c], ro[c])
    {
      assert !Problem(a, s, UnknownRemoteOrder(c)) && !Problem(a, s, MissingRemoteOrder(c));
      forall f
        ensures c in lo && c in ro ==> !OrderFieldDiffers(lo[c], ro[c], f)
      {
        assert !Problem(a, s, OrderMismatch(c, f));
      }
      if c in lo && c in ro {
        OrderMatchesIff(lo[c], ro[c]);
      }
    }
  }

  lemma NoAlgoProblem(a: Account, s: Snapshot)
    requires forall m :: !Problem(a, s, m)
    ensures ActiveAlgos(a.algos).Keys == AlgosById(s.algos).Keys
    ensures forall c | c in ActiveAlgos(a.algos) :: AlgoMatches(ActiveAlgos(a.algos)[c], AlgosById(s.algos)[c])
  {
    var la, ra := ActiveAlgos(a.algos), AlgosById(s.algos);
    forall c
      ensures c in la <==> c in ra
      ensures c in la ==> AlgoMatches(la[c], ra[c])
    {
      assert !Problem(a, s, UnknownRemoteAlgo(c)) && !Problem(a, s, MissingRemoteAlgo(c));
      forall f
        ensures c in la && c in ra ==> !AlgoFieldDiffers(la[c], ra[c], f)
      {
        assert !Problem(a, s, AlgoMismatch(c, f));
      }
      if c in la && c in ra {
        AlgoMatchesIff(la[c], ra[c]);
      }
    }
  }

  lemma NoPositionProblem(a: Account, s: Snapshot)
    requires forall m :: !Problem(a, s, m)
    ensures OpenPositions(a.positions).Keys == PositionsBySymbol(s.positions).Keys
    ensures forall c | c in OpenPositions(a.positions) ::
              PositionMatches(OpenPositions(a.positions)[c], PositionsBySymbol(s.positions)[c])
  {
    var lp, rp := OpenPositions(a.positions), PositionsBySymbol(s.positions);
    forall c
      ensures c in lp <==> c in rp
      ensures c in lp ==> PositionMatches(lp[c], rp[c])
    {
      assert !Problem(a, s, UnknownRemotePosition(c)) && !Problem(a, s, MissingRemotePosition(c));
      forall f
        ensures c in lp && c in rp ==> !PositionFieldDiffers(lp[c], rp[c], f)
      {
        assert !Problem(a, s, PositionMismatch(c, f));
      }
      if c in lp && c in rp {
        PositionMatchesIff(lp[c], rp[c]);
      }
    }
  }

  ghost predicate DistinctOrderIds(rs: seq<RemoteOrder>) {
    forall i, j | 0 <= i < j < |rs| :: rs[i].clientOrderId != rs[j].clientOrderId
  }

  lemma {:induction false} KeepsLastListed(rs: seq<RemoteOrder>)
    ensures forall r | r in rs :: r.clientOrderId in OrdersById(rs)
    ensures forall c | c in OrdersById(rs) :: OrdersById(rs)[c] in rs && OrdersById(rs)[c].clientOrderId == c
  {
    if rs != [] {
      KeepsLastListed(rs[..|rs| - 1]);
      assert rs == rs[..|rs| - 1] + [rs[|rs| - 1]];
    }
  }

  /** The compared fields of two remote rows are the same. */
  predicate SameOrderFields(r: RemoteOrder, q: RemoteOrder) {
    && r.exchangeOrderId == q.exchangeOrderId && r.symbol == q.symbol && r.side == q.side && r.status == q.status
    && r.orderType == q.orderType && r.origQty == q.origQty && r.filledQty == q.filledQty
    && r.reduceOnly == q.reduceOnly
  }

  /** The store holds the row as active, and every compared field agrees. */
  predicate OrderAccounted(a: Account, r: RemoteOrder) {
    && r.clientOrderId in a.orders && ActiveOrder(a.orders[r.clientOrderId].status)
    && OrderMatches(a.orders[r.clientOrderId], r)
  }

  /** An agreeing snapshot leaves no remote order unaccounted for exactly when no two of its rows under one id
      differ in a compared field. Only the last row of an id is looked at. */
  lemma AgreementCoversOrdersIff(a: Account, s: Snapshot)
    requires Agrees(a, s)
    ensures (forall r | r in s.orders :: OrderAccounted(a, r)) <==>
            forall r, q | r in s.orders && q in s.orders && r.clientOrderId == q.clientOrderId :: SameOrderFields(r, q)
  {
    hide OrderMatches, SameOrderFields, ActiveOrder, OrdersById, Agrees;
    var kept := OrdersById(s.orders);
    KeepsLastListed(s.orders);
    forall r | r in s.orders ensures OrderAccounted(a, r) <==> SameOrderFields(r, kept[r.clientOrderId]) {
      OrderAccountedIff(a, s, r);
    }
    if forall r | r in s.orders :: OrderAccounted(a, r) {
      forall r, q | r in s.orders && q in s.orders && r.clientOrderId == q.clientOrderId ensures SameOrderFields(r, q) {
        assert OrderAccounted(a, r) && OrderAccounted(a, q);
        MatchingOneRow(a.orders[r.clientOrderId], r, q);
      }
    }
  }

  lemma OrderAccountedIff(a: Account, s: Snapshot, r: RemoteOrder)
    requires Agrees(a, s) && r.clientOrderId in OrdersById(s.orders)
    ensures OrderAccounted(a, r) <==> SameOrderFields(r, OrdersById(s.orders)[r.clientOrderId])
  {
    hide OrdersById;
    assert r.clientOrderId in ActiveOrders(a.orders);
  }

  lemma MatchingOneRow(l: StoredOrder, r: RemoteOrder, q: RemoteOrder)
    requires OrderMatches(l, r) && OrderMatches(l, q)
    ensures SameOrderFields(r, q)
  {
  }

  /** With distinct ids, an agreeing snapshot leaves no remote order unaccounted for. */
  lemma AgreementCoversEveryRemoteOrder(a: Account, s: Snapshot, r: RemoteOrder)
    requires DistinctOrderIds(s.orders)
    requires Agrees(a, s) && r in s.orders
    ensures OrderAccounted(a, r)
  {
    AgreementCoversOrdersIff(a, s);
    hide Agrees;
  }

  function StoredAs(r: RemoteOrder): StoredOrder {
    StoredOrder(r.clientOrderId, r.exchangeOrderId, r.symbol, r.side, r.status, r.orderType,
                r.origQty, r.filledQty, r.avgPrice, r.reduceOnly, 0, None)
  }

  /** Without distinct ids it can: a second row under the same id hides a first one that differs from it. */
  lemma DuplicateIdMasksRemoteOrder(good: RemoteOrder, masked: RemoteOrder)
    requires good.clientOrderId == masked.clientOrderId
    requires ActiveOrder(good.status) && !SameOrderFields(masked, good)
    ensures exists a: Account :: Agrees(a, Snapshot([masked, good], [], [])) && !OrderAccounted(a, masked)
  {
    var orders: OrderTable := map[good.clientOrderId := StoredAs(good)];
    var a := Account(orders, map[], map[], {});
    var s := Snapshot([masked, good], [], []);
    assert s.orders[..1] == [masked] && [masked][..0] == [];
    assert OrdersById([masked]) == map[good.clientOrderId := masked];
    assert OrdersById(s.orders) == map[good.clientOrderId := good];
    assert ActiveOrders(orders) == orders;
    assert Agrees(a, s);
    assert s.orders[0] == masked && s.orders[1] == good;
    AgreementCoversOrdersIff(a, s);
  }

  lemma {:induction false} KeepsLastAlgo(rs: seq<RemoteAlgo>)
    ensures forall r | r in rs :: r.clientAlgoId in AlgosById(rs)
    ensures forall c | c in AlgosById(rs) :: AlgosById(rs)[c] in rs && AlgosById(rs)[c].clientAlgoId == c
  {
    if rs != [] {
      KeepsLastAlgo(rs[..|rs| - 1]);
      assert rs == rs[..|rs| - 1] + [rs[|rs| - 1]];
    }
  }

  /** The compared fields of two remote algo rows are the same, but for the one that may be unset. */
  predicate SameAlgoFields(r: RemoteAlgo, q: RemoteAlgo) {
    && r.algoId == q.algoId && r.symbol == q.symbol && r.side == q.side && r.status == q.status
    && r.algoType == q.algoType && r.orderType == q.orderType && r.triggerPrice == q.triggerPrice
    && r.closePosition == q.closePosition && r.reduceOnly == q.reduceOnly
    && (r.closePosition || r.quantity == q.quantity)
  }

  predicate AlgoAccounted(a: Account, r: RemoteAlgo) {
    && r.clientAlgoId in a.algos && ActiveAlgo(a.algos[r.clientAlgoId].status)
    && AlgoMatches(a.algos[r.clientAlgoId], r)
  }

  /** The row names no actual order other than the one the store has for it. */
  predicate NoOtherActual(a: Account, r: RemoteAlgo) {
    r.clientAlgoId in a.algos && a.algos[r.clientAlgoId].actualOrderId != "" ==>
      r.actualOrderId == "" || r.actualOrderId == a.algos[r.clientAlgoId].actualOrderId
  }

  /** The same for conditional orders: two rows under one id must not differ, and none may name an actual order
      other than the stored one, which a last row without one would hide. */
  lemma AgreementCoversAlgosIff(a: Account, s: Snapshot)
    requires Agrees(a, s)
    ensures (forall r | r in s.algos :: AlgoAccounted(a, r)) <==>
            && (forall r | r in s.algos :: NoOtherActual(a, r))
            && (forall r, q | r in s.algos && q in s.algos && r.clientAlgoId == q.clientAlgoId :: SameAlgoFields(r, q))
  {
    var kept := AlgosById(s.algos);
    KeepsLastAlgo(s.algos);
    forall r | r in s.algos
      ensures AlgoAccounted(a, r) <==> SameAlgoFields(r, kept[r.clientAlgoId]) && NoOtherActual(a, r)
    {
      assert r.clientAlgoId in ActiveAlgos(a.algos);
    }
    if forall r | r in s.algos :: AlgoAccounted(a, r) {
      forall r, q | r in s.algos && q in s.algos && r.clientAlgoId == q.clientAlgoId ensures SameAlgoFields(r, q) {
        assert AlgoAccounted(a, r) && AlgoAccounted(a, q);
      }
    } else {
      var r :| r in s.algos && !AlgoAccounted(a, r);
      assert !(SameAlgoFields(r, kept[r.clientAlgoId]) && NoOtherActual(a, r));
    }
  }

  lemma {:induction false} KeepsLastPosition(rs: seq<RemotePosition>)
    ensures forall r | r in rs :: r.symbol in PositionsBySymbol(rs)
    ensures forall c | c in PositionsBySymbol(rs) ::
              PositionsBySymbol(rs)[c] in rs && PositionsBySymbol(rs)[c].symbol == c
  {
    if rs != [] {
      KeepsLastPosition(rs[..|rs| - 1]);
      assert rs == rs[..|rs| - 1] + [rs[|rs| - 1]];
    }
  }

  predicate PositionAccounted(a: Account, r: RemotePosition) {
    && r.symbol in a.positions && a.positions[r.symbol].quantity != 0.0
    && PositionMatches(a.positions[r.symbol], r)
  }

  /** And for positions: an agreeing snapshot with two different rows for one symbol leaves one unaccounted for. */
  lemma AgreementCoversPositionsIff(a: Account, s: Snapshot)
    requires Agrees(a, s)
    ensures (forall r | r in s.positions :: PositionAccounted(a, r)) <==>
            forall r, q | r in s.positions && q in s.positions && r.symbol == q.symbol :: r == q
  {
    var kept := PositionsBySymbol(s.positions);
    KeepsLastPosition(s.positions);
    forall r | r in s.positions ensures PositionAccounted(a, r) <==> r == kept[r.symbol] {
      assert r.symbol in OpenPositions(a.positions);
    }
    if forall r | r in s.positions :: PositionAccounted(a, r) {
      forall r, q | r in s.positions && q in s.positions && r.symbol == q.symbol ensures r == q {
        assert PositionAccounted(a, r) && PositionAccounted(a, q);
      }
    } else {
      var r :| r in s.positions && !PositionAccounted(a, r);
      assert r != kept[r.symbol];
    }
  }

  const ORDER_FIELDS: seq<Field> := [
    ExchangeIdField, SymbolField, SideField, StatusField, TypeField,
    OrigQtyField, FilledQtyField, ReduceOnlyField]

  const ALGO_FIELDS: seq<Field> := [
    ActualOrderIdField, ExchangeIdField, SymbolField, SideField, StatusField, AlgoTypeField,
    TypeField, TriggerField, ClosePositionField, ReduceOnlyField, QuantityField]

  lemma OrderFieldsListed(l: StoredOrder, r: RemoteOrder, f: Field)
    requires OrderFieldDiffers(l, r, f)
    ensures f in ORDER_FIELDS
  {
    assert ORDER_FIELDS[0] == ExchangeIdField && ORDER_FIELDS[1] == SymbolField && ORDER_FIELDS[2] == SideField;
    assert ORDER_FIELDS[3] == StatusField && ORDER_FIELDS[4] == TypeField && ORDER_FIELDS[5] == OrigQtyField;
    assert ORDER_FIELDS[6] == FilledQtyField && ORDER_FIELDS[7] == ReduceOnlyField;
  }

  lemma AlgoFieldsListed(l: StoredAlgoOrder, r: RemoteAlgo, f: Field)
    requires AlgoFieldDiffers(l, r, f)
    ensures f in ALGO_FIELDS
  {
    assert ALGO_FIELDS[0] == ActualOrderIdField && ALGO_FIELDS[1] == ExchangeIdField && ALGO_FIELDS[2] == SymbolField;
    assert ALGO_FIELDS[3] == SideField && ALGO_FIELDS[4] == StatusField && ALGO_FIELDS[5] == AlgoTypeField;
    assert ALGO_FIELDS[6] == TypeField && ALGO_FIELDS[7] == TriggerField && ALGO_FIELDS[8] == ClosePositionField;
    assert ALGO_FIELDS[9] == ReduceOnlyField && ALGO_FIELDS[10] == QuantityField;
  }

  method CompareOrder(l: StoredOrder, r: RemoteOrder) returns (ms: seq<Mismatch>)
    ensures forall m :: m in ms <==> m.OrderMismatch? && m.id == l.clientOrderId && OrderFieldDiffers(l, r, m.field)
  {
    ms := [];
    for i := 0 to |ORDER_FIELDS|
      invariant forall m :: m in ms <==>
        m.OrderMismatch? && m.id == l.clientOrderId && OrderFieldDiffers(l, r, m.field) && m.field in ORDER_FIELDS[..i]
    {
      assert ORDER_FIELDS[..i + 1] == ORDER_FIELDS[..i] + [ORDER_FIELDS[i]];
      if OrderFieldDiffers(l, r, ORDER_FIELDS[i]) {
        ms := ms + [OrderMismatch(l.clientOrderId, ORDER_FIELDS[i])];
      }
    }
    assert ORDER_FIELDS[..|ORDER_FIELDS|] == ORDER_FIELDS;
    forall f | OrderFieldDiffers(l, r, f) { OrderFieldsListed(l, r, f); }
  }

  method CompareAlgo(l: StoredAlgoOrder, r: RemoteAlgo) returns (ms: seq<Mismatch>)
    ensures forall m :: m in ms <==> m.AlgoMismatch? && m.id == l.clientAlgoId && AlgoFieldDiffers(l, r, m.field)
  {
    ms := [];
    for i := 0 to |ALGO_FIELDS|
      invariant forall m :: m in ms <==>
        m.AlgoMismatch? && m.id == l.clientAlgoId && AlgoFieldDiffers(l, r, m.field) && m.field in ALGO_FIELDS[..i]
    {
      assert ALGO_FIELDS[..i + 1] == ALGO_FIELDS[..i] + [ALGO_FIELDS[i]];
      if AlgoFieldDiffers(l, r, ALGO_FIELDS[i]) {
        ms := ms + [AlgoMismatch(l.clientAlgoId, ALGO_FIELDS[i])];
      }
    }
    assert ALGO_FIELDS[..|ALGO_FIELDS|] == ALGO_FIELDS;
    forall f | AlgoFieldDiffers(l, r, f) { AlgoFieldsListed(l, r, f); }
  }

  method CompareOrders(local: map<ClientId, StoredOrder>, remote: map<ClientId, RemoteOrder>)
    returns (ms: seq<Mismatch>)
    requires forall c | c in local :: local[c].clientOrderId == c
    ensures forall m :: m in ms <==> OrderProblem(local, remote, m)
  {
    ms := [];
    var todo := local.Keys + remote.Keys;
    while todo != {}
      invariant todo <= local.Keys + remote.Keys
      invariant forall m :: m in ms <==> OrderProblem(local, remote, m) && m.id !in todo
    {
      var c :| c in todo;
      todo := todo - {c};
      if c !in local {
        ms := ms + [UnknownRemoteOrder(c)];
      } else if c !in remote {
        ms := ms + [MissingRemoteOrder(c)];
      } else {
        var found := CompareOrder(local[c], remote[c]);
        ms := ms + found;
      }
    }
  }

  method CompareAlgos(local: map<ClientId, StoredAlgoOrder>, remote: map<ClientId, RemoteAlgo>)
    returns (ms: seq<Mismatch>)
    requires forall c | c in local :: local[c].clientAlgoId == c
    ensures forall m :: m in ms <==> AlgoProblem(local, remote, m)
  {
    ms := [];
    var todo := local.Keys + remote.Keys;
    while todo != {}
      invariant todo <= local.Keys + remote.Keys
      invariant forall m :: m in ms <==> AlgoProblem(local, remote, m) && m.id !in todo
    {
      var c :| c in todo;
      todo := todo - {c};
      if c !in local {
        ms := ms + [UnknownRemoteAlgo(c)];
      } else if c !in remote {
        ms := ms + [MissingRemoteAlgo(c)];
      } else {
        var found := CompareAlgo(local[c], remote[c]);
        ms := ms + found;
      }
    }
  }

  method ComparePositions(local: map<string, StoredPosition>, remote: map<string, RemotePosition>)
    returns (ms: seq<Mismatch>)
    ensures forall m :: m in ms <==> PositionProblem(local, remote, m)
  {
    ms := [];
    var todo := local.Keys + remote.Keys;
    while todo != {}
      invariant todo <= local.Keys + remote.Keys
      invariant forall m :: m in ms <==> PositionProblem(local, remote, m) && m.symbol !in todo
    {
      var c :| c in todo;
      todo := todo - {c};
      if c !in local {
        ms := ms + [UnknownRemotePosition(c)];
      } else if c !in remote {
        ms := ms + [MissingRemotePosition(c)];
      } else {
        if local[c].direction != remote[c].direction { ms := ms + [PositionMismatch(c, DirectionField)]; }
        if local[c].quantity != remote[c].quantity { ms := ms + [PositionMismatch(c, QuantityField)]; }
        if local[c].entryPrice != remote[c].entryPrice { ms := ms + [PositionMismatch(c, EntryField)]; }
      }
    }
  }

  /** The store after comparing with a snapshot: halted on any disagreement, ready only if asked to activate. */
  ghost function Reconciled(db: Db, s: Snapshot, activate: bool): Db {
    var closed := db.(ready := false);
    if db.halted then closed
    else if !Agrees(db.account, s) then Halt(closed, ReconciliationMismatch)
    else closed.(ready := activate)
  }

  class AccountReconciler {
    const store: StateStore

    constructor (store: StateStore)
      ensures this.store == store
    {
      this.store := store;
    }

    /** Every reported mismatch is real and every real one is reported. */
    method Compare(s: Snapshot) returns (ms: seq<Mismatch>)
      ensures forall m :: m in ms <==> Problem(store.Acc(), s, m)
      ensures ms == [] <==> Agrees(store.Acc(), s)
    {
      var os := CompareOrders(ActiveOrders(store.orders), OrdersById(s.orders));
      var gs := CompareAlgos(ActiveAlgos(store.algos), AlgosById(s.algos));
      var ps := ComparePositions(OpenPositions(store.positions), PositionsBySymbol(s.positions));
      ms := os + gs + ps;
      AgreesIffNoProblem(store.Acc(), s);
      if ms != [] {
        assert ms[0] in ms;
      }
    }

    /** False stands for the state-mismatch error. */
    method ReconcileSnapshot(s: Snapshot, activate: bool) returns (ok: bool)
      modifies store
      ensures store.View() == Reconciled(old(store.View()), s, activate)
      ensures ok == (!old(store.isHalted) && Agrees(old(store.Acc()), s))
    {
      store.SetExecutionReady(false);
      if store.isHalted {
        return false;
      }
      var ms := Compare(s);
      if ms != [] {
        store.HaltFor(ReconciliationMismatch);
        return false;
      }
      store.SetExecutionReady(activate);
      return true;
    }
  }
}
