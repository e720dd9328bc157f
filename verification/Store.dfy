/** The persistent account tables and the halt / ready flags. */
module Store {
  import opened Models

  /** Order and algo statuses; `Unlisted` is any text the engine gives no meaning to. */
  datatype Status =
    | NEW | PARTIALLY_FILLED | PENDING_CANCEL
    | FILLED | CANCELED | EXPIRED | REJECTED | EXPIRED_IN_MATCH
    | WORKING | PENDING | TRIGGERED | FINISHED | FAILED
    | Unlisted(text: string)

  predicate ActiveOrder(s: Status) {
    s.NEW? || s.PARTIALLY_FILLED? || s.PENDING_CANCEL?
  }

  predicate ActiveAlgo(s: Status) {
    s.NEW? || s.WORKING? || s.PENDING?
  }

  predicate TerminalOrder(s: Status) {
    s.FILLED? || s.CANCELED? || s.EXPIRED? || s.REJECTED? || s.EXPIRED_IN_MATCH?
  }

  predicate FinalAlgo(s: Status) {
    s.FINISHED? || s.CANCELED? || s.EXPIRED? || s.REJECTED? || s.FAILED?
  }

  datatype StoredOrder = StoredOrder(
    clientOrderId: ClientId,
    exchangeOrderId: string,
    symbol: string,
    side: Side,
    status: Status,
    orderType: string,
    origQty: real,
    filledQty: real,
    avgPrice: real,
    reduceOnly: bool,
    eventTime: int,
    lastTradeId: Option<int>)

  datatype StoredAlgoOrder = StoredAlgoOrder(
    clientAlgoId: ClientId,
    algoId: string,
    symbol: string,
    side: Side,
    status: Status,
    algoType: string,
    orderType: string,
    triggerPrice: real,
    quantity: real,
    closePosition: bool,
    reduceOnly: bool,
    actualOrderId: string,
    eventTime: int)

  datatype StoredPosition = StoredPosition(
    symbol: string,
    direction: Direction,
    quantity: real,
    entryPrice: real,
    notionalUsdt: real,
    eventTime: int)

  /** Only one-way accounts are supported: every other position side is hedge mode. */
  datatype PositionSide = BOTH | HEDGED(text: string)

  datatype PositionItem = PositionItem(symbol: string, positionSide: PositionSide, amount: real, entryPrice: real)

  /** What the event digest is taken over; equal digests are equal keys. */
  datatype EventKey =
    | OrderKey(eventMs: Option<int>, transactMs: Option<int>, exchangeId: string, clientId: ClientId,
               execType: string, status: Status, filled: real, tradeId: Option<int>)
    | AlgoKey(eventMs: Option<int>, transactMs: Option<int>, algoId: string, clientId: ClientId,
              status: Status, actualOrderId: string)
    | AccountKey(eventMs: Option<int>, transactMs: Option<int>, positions: seq<PositionItem>)

  datatype CampaignStatus = Opening | Active | Degraded | Failed | Closed

  predicate ActiveCampaign(s: CampaignStatus) {
    s.Opening? || s.Active? || s.Degraded?
  }

  datatype CampaignRecord = CampaignRecord(
    campaignId: CampaignId,
    symbol: string,
    direction: Direction,
    status: CampaignStatus,
    referencePrice: real,
    totalNotional: real,
    leverage: int,
    spacingBps: real,
    invalidation: real,
    takeProfit: real,
    starterId: ClientId,
    limitIds: seq<ClientId>,
    stopId: ClientId,
    takeProfitId: ClientId,
    mode: GridMode,
    activated: bool,
    expiresAtMs: int,
    neutralLongInvalidation: Option<real>,
    neutralLongTakeProfit: Option<real>,
    neutralShortInvalidation: Option<real>,
    neutralShortTakeProfit: Option<real>)

  /** Primary key and the partial unique index over non-empty exchange ids. */
  predicate OrdersKeyed(m: map<ClientId, StoredOrder>) {
    && (forall c | c in m :: m[c].clientOrderId == c)
    && (forall c, d | c in m && d in m && c != d ::
          m[c].exchangeOrderId != m[d].exchangeOrderId || m[c].exchangeOrderId == "")
  }

  predicate AlgosKeyed(m: map<ClientId, StoredAlgoOrder>) {
    && (forall c | c in m :: m[c].clientAlgoId == c)
    && (forall c, d | c in m && d in m && c != d :: m[c].algoId != m[d].algoId || m[c].algoId == "")
  }

  predicate PositionsKeyed(m: map<string, StoredPosition>) {
    forall s | s in m :: m[s].symbol == s
  }

  predicate CampaignsKeyed(m: map<string, CampaignRecord>) {
    forall s | s in m :: m[s].symbol == s
  }

  type OrderTable = m: map<ClientId, StoredOrder> | OrdersKeyed(m) witness map[]
  type AlgoTable = m: map<ClientId, StoredAlgoOrder> | AlgosKeyed(m) witness map[]
  type PositionTable = m: map<string, StoredPosition> | PositionsKeyed(m) witness map[]
  type CampaignTable = m: map<string, CampaignRecord> | CampaignsKeyed(m) witness map[]

  /** What the user stream maintains. */
  datatype Account = Account(orders: OrderTable, algos: AlgoTable, positions: PositionTable, events: set<EventKey>)

  /** Why execution was stopped, with the symbol or client id it names. */
  datatype HaltReason =
    | NoReason
    | HedgeModeUnsupported(subject: string)
    | ForcedCloseEvent(subject: string)
    | ForeignOrderEvent(subject: string)
    | ForeignAlgoEvent(subject: string)
    | OrderIdentityConflict(id: ClientId)
    | OrderFillRegression(id: ClientId)
    | TerminalOrderMutation(id: ClientId)
    | AlgoIdentityConflict(id: ClientId)
    | TerminalAlgoMutation(id: ClientId)
    | AlgoStatusRegression(id: ClientId)
    | MarginCalled
    | ConditionalTriggerReject
    | ReconciliationMismatch
    | SnapshotInvalid
    | PostReconcileRecoveryFailed
    | GridUnprotectedPosition(subject: string)
    | GridStopPlacementFailed(subject: string)
    | GridOpenDegraded(subject: string)
    | NeutralPartialOpenCleanupFailed(subject: string)
    | NeutralUnprotectedPosition(subject: string)
    | NeutralPartialFillDuringOpen(subject: string)
    | NeutralDirectionFlip(subject: string)
    | NeutralProtectionFailed(subject: string)
    | NeutralOpenDegraded(subject: string)
    | GridCleanupFailed(subject: string)
    | GridCleanupRace(subject: string)
    | GridRecoveryMissingStop(subject: string)
    | GridRecoveryMissingTp(subject: string)

  datatype StreamStatus = UNSET | CONNECTING | RECONCILING | LIVE | DISCONNECTED | EXPIRED_KEY

  datatype Db = Db(
    account: Account,
    campaigns: CampaignTable,
    halted: bool,
    haltReason: HaltReason,
    ready: bool,
    streamStatus: StreamStatus)

  const EMPTY_DB: Db := Db(Account(map[], map[], map[], {}), map[], false, NoReason, false, UNSET)

  function Halt(db: Db, reason: HaltReason): Db {
    db.(halted := true, haltReason := reason, ready := false)
  }

  function ClearHalt(db: Db): Db {
    db.(halted := false, haltReason := NoReason, ready := false)
  }

  predicate ExecutionReady(db: Db) {
    db.ready && !db.halted
  }

  function GetOrder(orders: OrderTable, clientId: ClientId): Option<StoredOrder> {
    if clientId in orders then Some(orders[clientId]) else None
  }

  function GetAlgo(algos: AlgoTable, clientId: ClientId): Option<StoredAlgoOrder> {
    if clientId in algos then Some(algos[clientId]) else None
  }

  /** The unique row carrying a non-empty exchange id. */
  function OrderByExchangeId(orders: OrderTable, id: string): (r: Option<StoredOrder>)
    requires id != ""
    ensures r.Some? ==> r.value.exchangeOrderId == id && GetOrder(orders, r.value.clientOrderId) == r
    ensures r.None? ==> forall c | c in orders :: orders[c].exchangeOrderId != id
  {
    if c :| c in orders && orders[c].exchangeOrderId == id then Some(orders[c]) else None
  }

  function AlgoByAlgoId(algos: AlgoTable, id: string): (r: Option<StoredAlgoOrder>)
    requires id != ""
    ensures r.Some? ==> r.value.algoId == id && GetAlgo(algos, r.value.clientAlgoId) == r
    ensures r.None? ==> forall c | c in algos :: algos[c].algoId != id
  {
    if c :| c in algos && algos[c].algoId == id then Some(algos[c]) else None
  }

  /** False exactly when the unique index over exchange ids rejects the row. */
  predicate OrderFits(orders: OrderTable, o: StoredOrder) {
    o.exchangeOrderId == "" ||
    forall c | c in orders && c != o.clientOrderId :: orders[c].exchangeOrderId != o.exchangeOrderId
  }

  predicate AlgoFits(algos: AlgoTable, o: StoredAlgoOrder) {
    o.algoId == "" || forall c | c in algos && c != o.clientAlgoId :: algos[c].algoId != o.algoId
  }

  function PutOrder(orders: OrderTable, o: StoredOrder): OrderTable {
    if OrderFits(orders, o) then orders[o.clientOrderId := o] else orders
  }

  function PutAlgo(algos: AlgoTable, o: StoredAlgoOrder): AlgoTable {
    if AlgoFits(algos, o) then algos[o.clientAlgoId := o] else algos
  }

  /** A stored position the executor treats as exposure. */
  predicate Exposed(positions: PositionTable, symbol: string) {
    symbol in positions && positions[symbol].quantity != 0.0
  }

  class StateStore {
    var orders: OrderTable
    var algos: AlgoTable
    var positions: PositionTable
    var events: set<EventKey>
    var campaigns: CampaignTable
    var isHalted: bool
    var haltReason: HaltReason
    var readyFlag: bool
    var streamStatus: StreamStatus

    ghost function Acc(): Account
      reads this
    {
      Account(orders, algos, positions, events)
    }

    ghost function View(): Db
      reads this
    {
      Db(Acc(), campaigns, isHalted, haltReason, readyFlag, streamStatus)
    }

    constructor ()
      ensures View() == EMPTY_DB
    {
      orders, algos, positions, events, campaigns := map[], map[], map[], {}, map[];
      isHalted, haltReason, readyFlag, streamStatus := false, NoReason, false, UNSET;
    }

    /** A rejected row is an integrity error that leaves the table as it was. */
    method UpsertOrder(o: StoredOrder) returns (ok: bool)
      modifies this`orders
      ensures ok == OrderFits(old(orders), o)
      ensures orders == PutOrder(old(orders), o)
    {
      ok := OrderFits(orders, o);
      if ok {
        orders := orders[o.clientOrderId := o];
      }
    }

    method UpsertAlgoOrder(o: StoredAlgoOrder) returns (ok: bool)
      modifies this`algos
      ensures ok == AlgoFits(old(algos), o)
      ensures algos == PutAlgo(old(algos), o)
    {
      ok := AlgoFits(algos, o);
      if ok {
        algos := algos[o.clientAlgoId := o];
      }
    }

    method UpsertAccountPosition(p: StoredPosition)
      modifies this`positions
      ensures positions == old(positions)[p.symbol := p]
    {
      positions := positions[p.symbol := p];
    }

    method DeletePosition(symbol: string)
      modifies this`positions
      ensures positions == old(positions) - {symbol}
    {
      positions := positions - {symbol};
    }

    method MarkEventOnce(key: EventKey) returns (first: bool)
      modifies this`events
      ensures first == (key !in old(events))
      ensures events == old(events) + {key}
    {
      first := key !in events;
      events := events + {key};
    }

    method SaveCampaign(record: CampaignRecord)
      modifies this`campaigns
      ensures campaigns == old(campaigns)[record.symbol := record]
    {
      campaigns := campaigns[record.symbol := record];
    }

    method SetExecutionReady(value: bool)
      modifies this`readyFlag
      ensures readyFlag == value
    {
      readyFlag := value;
    }

    method SetStreamStatus(value: StreamStatus)
      modifies this`streamStatus
      ensures streamStatus == value
    {
      streamStatus := value;
    }

    method HaltFor(reason: HaltReason)
      modifies this`isHalted, this`haltReason, this`readyFlag
      ensures View() == Halt(old(View()), reason)
    {
      isHalted := true;
      haltReason := reason;
      readyFlag := false;
    }

    method Resume()
      modifies this`isHalted, this`haltReason, this`readyFlag
      ensures View() == ClearHalt(old(View()))
      ensures !ExecutionReady(View())
    {
      isHalted := false;
      haltReason := NoReason;
      readyFlag := false;
    }
  }
}
