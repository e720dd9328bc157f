/** The exchange boundary: what each adapter call can do to the exchange, for every answer it may give. */
module Adapter {
  import opened Models
  import opened Store

  datatype SymbolRules = SymbolRules(step: real, minQty: real, tick: real, minNotional: real)

  /** One answer of the exchange; an accepted order normally comes with its id. */
  datatype Reply = Accepted(id: string) | NotFound | Refused

  /** The outside world: the answer to each call, the contract price at each moment, the symbol rules, the
      account positions the user stream reports while a call is awaited, and the configured trigger guard. */
  datatype Venue = Venue(
    answer: nat -> Reply,
    price: nat -> real,
    rules: string -> Option<SymbolRules>,
    news: nat -> Option<PositionTable>,
    guard: real)

  /** Adapter calls never suspend, so no report can be handled while one is awaited. */
  ghost predicate Quiet(v: Venue) {
    forall i: nat :: v.news(i).None?
  }

  datatype RestingOrder = RestingOrder(
    symbol: string, clientId: ClientId, orderId: string, direction: Direction, quantity: real, price: real)

  datatype MarketOrder = MarketOrder(
    symbol: string, clientId: ClientId, direction: Direction, quantity: real, price: real, reduceOnly: bool)

  datatype ExitKind = STOP_MARKET | TAKE_PROFIT_MARKET

  /** A protective exit as the exchange holds it. */
  datatype ExitOrder = ExitOrder(symbol: string, direction: Direction, kind: ExitKind, trigger: real)

  /** Resting entries, active exits by id, every exit id ever accepted, market orders sent, order ids ever issued. */
  datatype Exchange = Exchange(
    resting: set<RestingOrder>,
    algos: map<ClientId, ExitOrder>,
    accepted: set<ClientId>,
    market: seq<MarketOrder>,
    issued: set<string>)

  datatype World = World(db: Db, ex: Exchange, tick: nat)

  /** Every named resting order carries an id the exchange has issued. */
  predicate ExchangeOk(ex: Exchange) {
    forall o | o in ex.resting :: o.orderId == "" || o.orderId in ex.issued
  }

  /** The exchange names no two orders alike. */
  ghost predicate UniqueIds(v: Venue) {
    forall i: nat, j: nat | i < j && v.answer(i).Accepted? && v.answer(j).Accepted? && v.answer(i).id != "" ::
      v.answer(i).id != v.answer(j).id
  }

  /** No answer still to come names an order by an id that is already taken. */
  ghost predicate Unissued(v: Venue, w: World) {
    forall i: nat | w.tick <= i && v.answer(i).Accepted? && v.answer(i).id != "" :: v.answer(i).id !in w.ex.issued
  }

  /** The exchange's ids are in order, now and for the answers to come. */
  ghost predicate ExchangeSafe(v: Venue, w: World) {
    ExchangeOk(w.ex) && Unissued(v, w)
  }

  /** The id came with an answer given between two moments. */
  ghost predicate Answered(v: Venue, from: nat, to: nat, id: string) {
    exists i: nat :: from <= i < to && v.answer(i) == Accepted(id)
  }

  /** A call that rests nothing new: time goes on, ids stay, the store moves in positions and campaigns only. */
  predicate Tidy(w: World, after: World) {
    && w.tick <= after.tick && after.ex.issued == w.ex.issued && after.ex.resting <= w.ex.resting
    && after.db.account == w.db.account.(positions := after.db.account.positions)
  }

  /** All of the store except the reported positions is as it was. */
  predicate OnlyPositions(before: Db, after: Db) {
    after == before.(account := before.account.(positions := after.account.positions))
  }

  function Truncate(x: real): int {
    if x >= 0.0 then x.Floor else -((-x).Floor)
  }

  /** Rounds towards zero to a multiple of the step. */
  function RoundDown(value: real, step: real): real
    requires step > 0.0
  {
    Mul(Truncate(value / step) as real, step)
  }

  /** The order size for a notional, or nothing when the symbol rules reject it. */
  function QuantityFor(r: SymbolRules, notional: real, price: real): Option<real>
    requires price > 0.0
  {
    if r.step <= 0.0 then None
    else
      var quantity := RoundDown(notional / price, r.step);
      if quantity < r.minQty then None
      else if r.minNotional != 0.0 && Mul(quantity, price) < r.minNotional then None
      else Some(quantity)
  }

  /** The call is made: its answer is used up and reported positions are taken in. */
  function Await(v: Venue, w: World): (after: World)
    ensures after.ex == w.ex && OnlyPositions(w.db, after.db)
    ensures v.news(w.tick).None? ==> after.db == w.db
    ensures after.tick == w.tick + 1 && Tidy(w, after)
  {
    var news := v.news(w.tick);
    w.(tick := w.tick + 1,
       db := if news.None? then w.db else w.db.(account := w.db.account.(positions := news.value)))
  }

  datatype Receipt = Receipt(clientId: ClientId, orderId: string, quantity: real, price: real)

  datatype Placement = Placement(world: World, receipt: Option<Receipt>)

  /** A market entry. Nothing reaches the exchange while the execution gate is closed. */
  function PlaceEntry(v: Venue, w: World, symbol: string, d: Direction, notional: real, leverage: int, key: IdKey,
                      reference: real): (p: Placement)
    ensures OnlyPositions(w.db, p.world.db)
    ensures Quiet(v) ==> p.world.db == w.db
    ensures p.receipt.None? ==> p.world.ex == w.ex && Tidy(w, p.world)
    ensures !ExecutionReady(w.db) ==> p.receipt.None? && p.world == w
    ensures p.receipt.Some? ==>
              var r := p.receipt.value;
              && r.clientId == SgId(key) && r.price == reference
              && v.answer(w.tick) == Accepted(r.orderId) && p.world.tick == w.tick + 1
              && reference > 0.0 && notional > 0.0 && v.rules(symbol).Some?
              && QuantityFor(v.rules(symbol).value, notional, reference) == Some(r.quantity)
              && (d.LONG? || d.SHORT?)
              && p.world.ex == w.ex.(market := w.ex.market
                                     + [MarketOrder(symbol, SgId(key), d, r.quantity, reference, false)],
                                     issued := w.ex.issued + {r.orderId})
  {
    if d.PASS? || notional <= 0.0 || leverage < 1 || !ExecutionReady(w.db) || reference <= 0.0
      || v.rules(symbol).None? then
      Placement(w, None)
    else
      var quantity := QuantityFor(v.rules(symbol).value, notional, reference);
      if quantity.None? then Placement(w, None)
      else
        var after := Await(v, w);
        var reply := v.answer(w.tick);
        if !reply.Accepted? then Placement(after, None)
        else
          Placement(
            after.(ex := w.ex.(market := w.ex.market
                               + [MarketOrder(symbol, SgId(key), d, quantity.value, reference, false)],
                               issued := w.ex.issued + {reply.id})),
            Some(Receipt(SgId(key), reply.id, quantity.value, reference)))
  }

  function LimitOrder(symbol: string, d: Direction, r: Receipt): RestingOrder {
    RestingOrder(symbol, r.clientId, r.orderId, d, r.quantity, r.price)
  }

  /** A resting limit entry at the tick at or below its price. */
  function PlaceLimit(v: Venue, w: World, symbol: string, d: Direction, notional: real, price: real,
                      key: IdKey): (p: Placement)
    ensures OnlyPositions(w.db, p.world.db)
    ensures Quiet(v) ==> p.world.db == w.db
    ensures p.receipt.None? ==> p.world.ex == w.ex && Tidy(w, p.world)
    ensures !ExecutionReady(w.db) ==> p.receipt.None? && p.world == w
    ensures p.receipt.Some? ==>
              var r := p.receipt.value;
              && r.clientId == SgId(key)
              && v.answer(w.tick) == Accepted(r.orderId) && p.world.tick == w.tick + 1
              && notional > 0.0
              && v.rules(symbol).Some? && v.rules(symbol).value.tick > 0.0
              && r.price == RoundDown(price, v.rules(symbol).value.tick) && r.price > 0.0
              && QuantityFor(v.rules(symbol).value, notional, r.price) == Some(r.quantity)
              && p.world.ex == w.ex.(resting := w.ex.resting + {LimitOrder(symbol, d, r)},
                                     issued := w.ex.issued + {r.orderId})
  {
    if d.PASS? || notional <= 0.0 || price <= 0.0 || !ExecutionReady(w.db) || v.rules(symbol).None?
      || v.rules(symbol).value.tick <= 0.0 then
      Placement(w, None)
    else
      var rounded := RoundDown(price, v.rules(symbol).value.tick);
      if rounded <= 0.0 then Placement(w, None)
      else
        var quantity := QuantityFor(v.rules(symbol).value, notional, rounded);
        if quantity.None? then Placement(w, None)
        else
          var after := Await(v, w);
          var reply := v.answer(w.tick);
          if !reply.Accepted? then Placement(after, None)
          else
            var r := Receipt(SgId(key), reply.id, quantity.value, rounded);
            Placement(after.(ex := w.ex.(resting := w.ex.resting + {LimitOrder(symbol, d, r)},
                                         issued := w.ex.issued + {reply.id})), Some(r))
  }

  datatype Call = Call(world: World, ok: bool)

  /** The trigger lies beyond the current price by more than the guard, on the side its kind asks for. */
  predicate TriggerSafe(kind: ExitKind, d: Direction, trigger: real, reference: real, guard: real) {
    var below := trigger < reference * (1.0 - guard);
    var above := trigger > reference * (1.0 + guard);
    if kind.STOP_MARKET? == d.LONG? then below else above
  }

  /** The check of a protective trigger against the current price; it never reaches the exchange. */
  function ValidateExit(v: Venue, w: World, symbol: string, d: Direction, trigger: real, kind: ExitKind): (c: Call)
    ensures c.world.db == w.db && c.world.ex == w.ex && w.tick <= c.world.tick
    ensures c.ok ==> (d.LONG? || d.SHORT?) && trigger > 0.0 && v.rules(symbol).Some? && v.rules(symbol).value.tick > 0.0
  {
    if d.PASS? || trigger <= 0.0 || v.rules(symbol).None? || v.rules(symbol).value.tick <= 0.0 then Call(w, false)
    else
      var reference := v.price(w.tick);
      Call(w.(tick := w.tick + 1),
           reference > 0.0 && TriggerSafe(kind, d, RoundDown(trigger, v.rules(symbol).value.tick), reference, v.guard))
  }

  /** A stop and a target that pass at one price lie strictly on either side of it: neither fires at once. */
  lemma SafeTriggersBracket(d: Direction, stop: real, target: real, reference: real, guard: real)
    requires reference > 0.0 && guard >= 0.0 && !d.PASS?
    requires TriggerSafe(STOP_MARKET, d, stop, reference, guard)
    requires TriggerSafe(TAKE_PROFIT_MARKET, d, target, reference, guard)
    ensures if d.LONG? then stop < reference < target else target < reference < stop
  {
    assert reference * guard >= 0.0;
    assert reference * (1.0 - guard) == reference - reference * guard;
    assert reference * (1.0 + guard) == reference + reference * guard;
  }

  /** The exit an intent stands for: its trigger at the tick at or below the asked one. */
  function ExitFor(v: Venue, symbol: string, d: Direction, kind: ExitKind, trigger: real): ExitOrder {
    var rules := v.rules(symbol);
    ExitOrder(symbol, d, kind,
              if rules.Some? && rules.value.tick > 0.0 then RoundDown(trigger, rules.value.tick) else trigger)
  }

  /** A protective STOP or TP, validated again and then submitted. */
  function PlaceExit(v: Venue, w: World, symbol: string, d: Direction, trigger: real, kind: ExitKind,
                     key: IdKey): (c: Call)
    ensures OnlyPositions(w.db, c.world.db)
    ensures Quiet(v) ==> c.world.db == w.db
    ensures Tidy(w, c.world)
    ensures !c.ok ==> c.world.ex == w.ex
    ensures c.ok ==> c.world.ex == w.ex.(algos := w.ex.algos[SgId(key) := ExitFor(v, symbol, d, kind, trigger)],
                                         accepted := w.ex.accepted + {SgId(key)})
  {
    var checked := ValidateExit(v, w, symbol, d, trigger, kind);
    if !checked.ok then checked
    else
      var after := Await(v, checked.world);
      if !v.answer(checked.world.tick).Accepted? then Call(after, false)
      else
        Call(after.(ex := w.ex.(algos := w.ex.algos[SgId(key) := ExitFor(v, symbol, d, kind, trigger)],
                                accepted := w.ex.accepted + {SgId(key)})), true)
  }

  /** A reduce-only market order; it is not held back by the gate. */
  function PlaceReduceOnly(v: Venue, w: World, symbol: string, d: Direction, quantity: real, key: IdKey): (c: Call)
    ensures OnlyPositions(w.db, c.world.db)
    ensures Quiet(v) ==> c.world.db == w.db
    ensures Tidy(w, c.world)
    ensures !c.ok ==> c.world.ex == w.ex
    ensures c.ok ==>
              && v.rules(symbol).Some? && v.rules(symbol).value.step > 0.0
              && c.world.ex == w.ex.(market := w.ex.market +
                   [MarketOrder(symbol, SgId(key), d, RoundDown(quantity, v.rules(symbol).value.step), 0.0, true)])
  {
    if d.PASS? || v.rules(symbol).None? || v.rules(symbol).value.step <= 0.0 then Call(w, false)
    else
      var rounded := RoundDown(quantity, v.rules(symbol).value.step);
      if rounded < v.rules(symbol).value.minQty then Call(w, false)
      else
        var after := Await(v, w);
        if !v.answer(w.tick).Accepted? then Call(after, false)
        else Call(after.(ex := w.ex.(market := w.ex.market + [MarketOrder(symbol, SgId(key), d, rounded, 0.0, true)])),
                  true)
  }

  datatype CancelResult = Canceled | Missing | Broken

  datatype Cancel = Cancel(world: World, result: CancelResult)

  function WithoutOrder(resting: set<RestingOrder>, symbol: string, orderId: string): set<RestingOrder> {
    set o | o in resting && !(o.symbol == symbol && o.orderId == orderId)
  }

  /** Canceled, or no longer there: either way the order does not rest afterwards. */
  function CancelOrder(v: Venue, w: World, symbol: string, orderId: string): (c: Cancel)
    ensures OnlyPositions(w.db, c.world.db)
    ensures Quiet(v) ==> c.world.db == w.db
    ensures Tidy(w, c.world)
    ensures c.result.Broken? ==> c.world.ex == w.ex
    ensures !c.result.Broken? ==> c.world.ex == w.ex.(resting := WithoutOrder(w.ex.resting, symbol, orderId))
  {
    var after := Await(v, w);
    match v.answer(w.tick)
    case Accepted(_) => Cancel(after.(ex := w.ex.(resting := WithoutOrder(w.ex.resting, symbol, orderId))), Canceled)
    case NotFound => Cancel(after.(ex := w.ex.(resting := WithoutOrder(w.ex.resting, symbol, orderId))), Missing)
    case Refused => Cancel(after, Broken)
  }

  function CancelAlgo(v: Venue, w: World, clientId: ClientId): (c: Cancel)
    ensures OnlyPositions(w.db, c.world.db)
    ensures Quiet(v) ==> c.world.db == w.db
    ensures Tidy(w, c.world)
    ensures c.result.Broken? ==> c.world.ex == w.ex
    ensures !c.result.Broken? ==> c.world.ex == w.ex.(algos := w.ex.algos - {clientId})
  {
    if clientId.NoId? then Cancel(w, Broken)
    else
      var after := Await(v, w);
      match v.answer(w.tick)
      case Accepted(_) => Cancel(after.(ex := w.ex.(algos := w.ex.algos - {clientId})), Canceled)
      case NotFound => Cancel(after.(ex := w.ex.(algos := w.ex.algos - {clientId})), Missing)
      case Refused => Cancel(after, Broken)
  }

  // ---- Sizing ----

  predicate MultipleBy(x: real, step: real, k: int) {
    k >= 0 && x == Mul(k as real, step)
  }

  ghost predicate IsMultiple(x: real, step: real) {
    exists k :: MultipleBy(x, step, k)
  }

  /** Rounding down loses less than one step and lands on a multiple of it. */
  lemma RoundDownBound(value: real, step: real)
    requires value >= 0.0 && step > 0.0
    ensures 0.0 <= RoundDown(value, step) <= value < RoundDown(value, step) + step
    ensures IsMultiple(RoundDown(value, step), step)
  {
    Whole(value / step, step, value);
    assert MultipleBy(RoundDown(value, step), step, (value / step).Floor);
  }

  lemma Whole(q: real, step: real, value: real)
    requires value >= 0.0 && step > 0.0 && q == value / step
    ensures q >= 0.0
    ensures 0.0 <= Mul(q.Floor as real, step) <= value < Mul(q.Floor as real, step) + step
  {
    assert value == Mul(q, step);
    FloorTimes(q, step);
    hide Mul;
  }

  lemma FloorTimes(q: real, step: real)
    requires q >= 0.0 && step > 0.0
    ensures 0.0 <= Mul(q.Floor as real, step) <= Mul(q, step) < Mul(q.Floor as real, step) + step
  {
    var k := q.Floor as real;
    Between(k, q, step);
    Distribute(k, step);
    assert k >= 0.0;
  }

  lemma Between(k: real, q: real, step: real)
    requires 0.0 <= k <= q < k + 1.0 && step > 0.0
    ensures 0.0 <= Mul(k, step) <= Mul(q, step) < Mul(k + 1.0, step)
  {
    MulGrows(k, q, step);
    MulStrictlyGrows(q, k + 1.0, step);
  }

  lemma Distribute(k: real, step: real)
    ensures Mul(k + 1.0, step) == Mul(k, step) + step
  {
  }

  /** Rounding a multiple of the step down changes nothing. */
  lemma RoundDownOfMultiple(x: real, step: real)
    requires step > 0.0 && IsMultiple(x, step)
    ensures RoundDown(x, step) == x
  {
    var k :| MultipleBy(x, step, k);
    assert x / step == k as real && (x / step).Floor == k;
  }

  /** A sized order is worth at most its notional and falls short by less than one step. */
  lemma QuantityBound(r: SymbolRules, notional: real, price: real)
    requires notional > 0.0 && price > 0.0
    requires QuantityFor(r, notional, price).Some?
    ensures
      var q := QuantityFor(r, notional, price).value;
      && q >= r.minQty && r.step > 0.0
      && IsMultiple(q, r.step)
      && Mul(q, price) <= notional < Mul(q, price) + Mul(r.step, price)
  {
    var value := notional / price;
    assert Mul(value, price) == notional && value >= 0.0;
    hide Mul;
    RoundDownBound(value, r.step);
    Spread(RoundDown(value, r.step), value, r.step, price);
  }

  lemma Spread(q: real, value: real, step: real, price: real)
    requires q <= value < q + step && price > 0.0
    ensures Mul(q, price) <= Mul(value, price) < Mul(q, price) + Mul(step, price)
  {
    assert value * price < (q + step) * price;
  }
}
