/** The authenticated session: attach, buffer, reconcile, drain, recover, open the gate, close. */
module UserStream {
  import opened Models
  import opened Store
  import opened UserData
  import opened Reconciliation
  import opened Grid
  import opened Adapter
  import opened Campaign
  import opened CampaignFrame
  import opened CampaignInvariant
  import opened CampaignRecovery

  datatype Phase = Idle | Connecting | Attached | Recovering | Live | Ended

  /** A message that was processed, and whether it came late: from the stream of an earlier session. */
  datatype Processed = Processed(message: Msg, late: bool)

  /** One session and what is known about it: the messages its stream delivered in order, how many of them
      were drained from the buffer, the tables and snapshot its reconciliation compared, and every message
      processed since then. */
  datatype Session = Session(
    phase: Phase,
    expired: bool,
    queue: seq<Msg>,
    arrivals: seq<Msg>,
    drained: nat,
    basis: Account,
    snapshot: Snapshot,
    processed: seq<Processed>)

  datatype System = System(world: World, session: Session)

  /** What can happen next: deliveries of the session's stream, late ones of an earlier session whose stream was
      not torn down, steps of the session and of the executor, and an operator lifting a halt. */
  datatype Event =
    | Begin
    | KeyRefused
    | ConnectFails
    | Attach
    | Deliver(message: Msg)
    | Stray(late: Msg)
    | SnapshotUnavailable
    | SnapshotMalformed
    | Reconcile(remote: Snapshot)
    | RecoverAndOpen(symbols: seq<string>)
    | EndLive(again: bool)
    | OpenPlan(plan: GridPlan)
    | CleanUp(symbol: string)
    | OperatorClears

  datatype Drained = Drained(db: Db, expired: bool, raised: bool)

  /** Processes the buffered messages in order; an integrity error ends it. */
  function Drain(db: Db, queue: seq<Msg>, expired: bool): Drained
    decreases queue
  {
    if queue == [] then Drained(db, expired, false)
    else
      var h := Handle(db.account, queue[0]);
      var after := OnMessage(db, queue[0]);
      if h.effect.IntegrityError? then Drained(after, expired, true)
      else Drain(after, queue[1..], expired || h.result.reconnectRequired)
  }

  function WithDb(sys: System, db: Db): System {
    sys.(world := sys.world.(db := db))
  }

  /** Every way out of a session closes the gate. */
  function Closed(db: Db): Db {
    db.(ready := false, streamStatus := if db.halted then db.streamStatus else DISCONNECTED)
  }

  function Close(sys: System, db: Db, phase: Phase): System {
    System(sys.world.(db := Closed(db)), sys.session.(phase := phase))
  }

  function AllOwn(ms: seq<Msg>): seq<Processed> {
    seq(|ms|, i requires 0 <= i < |ms| => Processed(ms[i], false))
  }

  ghost function Reconciling(sys: System, remote: Snapshot): System {
    var db, s := sys.world.db, sys.session;
    var compared := Reconciled(db, remote, false);
    if db.halted || !Agrees(db.account, remote) then Close(sys, compared, Ended)
    else
      var d := Drain(compared, s.queue, false);
      if d.raised then Close(sys, d.db, Idle)
      else if d.db.halted then Close(sys, d.db, Ended)
      else if d.expired then Close(sys, d.db, Idle)
      else
        System(sys.world.(db := d.db),
               Session(Recovering, false, [], s.arrivals, |s.arrivals|, db.account, remote, AllOwn(s.arrivals)))
  }

  /** The recovery callback and what follows it, up to the opening of the gate. */
  function OpeningGate(v: Venue, sys: System, symbols: seq<string>): System {
    var r := Recover(v, sys.world, symbols);
    var after := sys.(world := r.world);
    if !r.ok then
      Close(after, if r.world.db.halted then r.world.db else Halt(r.world.db, PostReconcileRecoveryFailed), Ended)
    else if r.world.db.halted then Close(after, r.world.db, Ended)
    else System(r.world.(db := r.world.db.(streamStatus := LIVE, ready := true)), sys.session.(phase := Live))
  }

  function Delivering(sys: System, m: Msg): System {
    var db, s := sys.world.db, sys.session;
    if s.phase.Attached? then sys.(session := s.(queue := s.queue + [m], arrivals := s.arrivals + [m]))
    else if s.phase.Recovering? || s.phase.Live? then
      System(sys.world.(db := OnMessage(db, m)),
             s.(arrivals := s.arrivals + [m], processed := s.processed + [Processed(m, false)],
                expired := s.expired || Handle(db.account, m).result.reconnectRequired))
    else sys
  }

  /** The handler of an earlier session is still called, in whatever phase the present one is: it processes the
      message at once, and what it sets when the key expired is that session's flag. */
  function Straying(sys: System, m: Msg): System {
    var s := sys.session;
    System(sys.world.(db := OnMessage(sys.world.db, m)),
           if s.phase.Recovering? || s.phase.Live? then s.(processed := s.processed + [Processed(m, true)]) else s)
  }

  /** The run loop's next session; an already halted store ends the run instead. */
  function Beginning(sys: System): System {
    var db, s := sys.world.db, sys.session;
    if db.halted then sys.(session := s.(phase := Ended))
    else System(sys.world.(db := db.(ready := false, streamStatus := CONNECTING)),
                s.(phase := Connecting, expired := false, queue := [], arrivals := []))
  }

  function Attaching(sys: System): System {
    System(sys.world.(db := sys.world.db.(streamStatus := RECONCILING)), sys.session.(phase := Attached))
  }

  /** One step; an event that does not apply in the current phase changes nothing. */
  ghost function Next(v: Venue, sys: System, e: Event): System {
    var db, s := sys.world.db, sys.session;
    match e
    case Begin =>
      if s.phase.Idle? then Beginning(sys) else sys
    case KeyRefused =>
      if s.phase.Connecting? then System(sys.world.(db := db.(ready := false)), s.(phase := Idle)) else sys
    case ConnectFails => if s.phase.Connecting? then Close(sys, db, Idle) else sys
    case Attach =>
      if s.phase.Connecting? then Attaching(sys) else sys
    case Deliver(m) => Delivering(sys, m)
    case Stray(m) => Straying(sys, m)
    case SnapshotUnavailable => if s.phase.Attached? then Close(sys, db, Idle) else sys
    case SnapshotMalformed => if s.phase.Attached? then Close(sys, Halt(db, SnapshotInvalid), Ended) else sys
    case Reconcile(remote) => if s.phase.Attached? then Reconciling(sys, remote) else sys
    case RecoverAndOpen(symbols) =>
      if s.phase.Recovering? && Enumerates(symbols, db.campaigns) then OpeningGate(v, sys, symbols) else sys
    case EndLive(again) => if s.phase.Live? then Close(sys, db, if again then Idle else Ended) else sys
    case OpenPlan(plan) => sys.(world := OpenCampaign(v, sys.world, plan).world)
    case CleanUp(symbol) => sys.(world := CleanupIfFlat(v, sys.world, symbol).world)
    case OperatorClears => WithDb(sys, ClearHalt(db))
  }

  ghost function Run(v: Venue, sys: System, events: seq<Event>): System {
    if events == [] then sys else Next(v, Run(v, sys, events[..|events| - 1]), events[|events| - 1])
  }

  // ---- What every run keeps ----

  predicate ExpiryAfterDrain(s: Session) {
    exists i :: s.drained <= i < |s.arrivals| && s.arrivals[i].ListenKeyExpired?
  }

  function Messages(ps: seq<Processed>): seq<Msg> {
    seq(|ps|, i requires 0 <= i < |ps| => ps[i].message)
  }

  /** The session's own messages among those processed. */
  function Own(ps: seq<Processed>): seq<Msg> {
    if ps == [] then []
    else
      var last := ps[|ps| - 1];
      if last.late then Own(ps[..|ps| - 1]) else Own(ps[..|ps| - 1]) + [last.message]
  }

  /** The tables are those the reconciled snapshot agreed with, plus every message processed since, once and in
      order; among these the session's own are all its stream delivered. */
  ghost predicate InStep(db: Db, s: Session) {
    && s.queue == [] && s.drained <= |s.arrivals|
    && Agrees(s.basis, s.snapshot)
    && db.account == After(s.basis, Messages(s.processed)) && Own(s.processed) == s.arrivals
    && (s.expired <==> ExpiryAfterDrain(s))
  }

  ghost predicate Sound(sys: System) {
    var db, s := sys.world.db, sys.session;
    && (ExecutionReady(db) ==> s.phase.Live?)
    && (s.phase.Attached? ==> s.queue == s.arrivals)
    && (s.phase.Connecting? ==> s.queue == [] && s.arrivals == [])
    && (s.phase.Recovering? || s.phase.Live? ==> InStep(db, s))
  }

  lemma MessageNeverOpens(db: Db, m: Msg)
    ensures var after := OnMessage(db, m);
            && (after.ready ==> db.ready && after.halted == db.halted)
            && (db.halted ==> after.halted)
            && after.campaigns == db.campaigns
            && after.account == Handle(db.account, m).account
  {
    hide Handle;
  }

  lemma OnlyExpiryReconnects(a: Account, m: Msg)
    ensures Handle(a, m).result.reconnectRequired <==> m.ListenKeyExpired?
  {
    match m
    case OrderEvent(o) => hide FindOrder, OrderVerdict, PutOrder, OrderFits, IncomingOrder;
    case AlgoEvent(g) => hide FindAlgo, AlgoVerdict, PutAlgo, AlgoFits, IncomingAlgo;
    case AccountEvent(p) => PositionsNeverReconnect(a.(events := a.events + {KeyOfAccount(p)}), p.positions,
                                                    Stamp([p.transactMs, p.eventMs]), false);
    case _ =>
  }

  lemma {:induction false} PositionsNeverReconnect(a: Account, items: seq<PositionItem>, time: int, changed: bool)
    ensures !ApplyPositions(a, items, time, changed).result.reconnectRequired
    decreases items
  {
    hide ApplyPosition, PositionChanges;
    if items != [] {
      var p := items[0];
      PositionsNeverReconnect(a, items[1..], time, changed);
      PositionsNeverReconnect(a.(positions := ApplyPosition(a.positions, p, time)), items[1..], time,
                              changed || PositionChanges(a.positions, p, time));
    }
  }

  lemma AfterFirst(a: Account, ms: seq<Msg>)
    requires ms != []
    ensures After(a, ms) == After(Handle(a, ms[0]).account, ms[1..])
  {
    hide Handle;
    if |ms| == 1 {
      assert ms[..0] == [] && ms[1..] == [];
    } else {
      AfterFirst(a, ms[..|ms| - 1]);
      assert ms[..|ms| - 1][1..] == ms[1..][..|ms| - 2];
    }
  }

  /** Draining applies every buffered message once, in order, and opens nothing. */
  lemma {:induction false} DrainIsAfter(db: Db, queue: seq<Msg>, expired: bool)
    requires !Drain(db, queue, expired).raised
    ensures
      var d := Drain(db, queue, expired);
      && d.db.account == After(db.account, queue)
      && (d.expired <==> expired || exists i :: 0 <= i < |queue| && queue[i].ListenKeyExpired?)
      && (d.db.ready ==> db.ready)
    decreases queue
  {
    hide Handle, OnMessage;
    if queue != [] {
      var after := OnMessage(db, queue[0]);
      MessageNeverOpens(db, queue[0]);
      OnlyExpiryReconnects(db.account, queue[0]);
      DrainIsAfter(after, queue[1..], expired || Handle(db.account, queue[0]).result.reconnectRequired);
      AfterFirst(db.account, queue);
      if i :| 0 <= i < |queue| && queue[i].ListenKeyExpired? {
        assert i == 0 || queue[1..][i - 1] == queue[i];
      }
      if i :| 0 <= i < |queue[1..]| && queue[1..][i].ListenKeyExpired? {
        assert queue[i + 1] == queue[1..][i];
      }
    }
  }

  lemma {:induction false} AllOwnIsOwn(ms: seq<Msg>)
    ensures Own(AllOwn(ms)) == ms && Messages(AllOwn(ms)) == ms
  {
    if ms != [] {
      AllOwnIsOwn(ms[..|ms| - 1]);
      assert AllOwn(ms)[..|ms| - 1] == AllOwn(ms[..|ms| - 1]);
    }
  }

  lemma ProcessedSnoc(ps: seq<Processed>, p: Processed)
    ensures Messages(ps + [p]) == Messages(ps) + [p.message]
    ensures Own(ps + [p]) == if p.late then Own(ps) else Own(ps) + [p.message]
  {
    assert (ps + [p])[..|ps|] == ps;
  }

  lemma ReconcilingSound(sys: System, remote: Snapshot)
    requires Sound(sys) && sys.session.phase.Attached?
    ensures Sound(Reconciling(sys, remote))
  {
    hide After, Agrees, Drain;
    var db, s := sys.world.db, sys.session;
    var compared := Reconciled(db, remote, false);
    if !db.halted && Agrees(db.account, remote) && !Drain(compared, s.queue, false).raised {
      DrainIsAfter(compared, s.queue, false);
      AllOwnIsOwn(s.arrivals);
    }
  }

  lemma DeliveringSound(sys: System, m: Msg)
    requires Sound(sys)
    ensures Sound(Delivering(sys, m))
  {
    hide After, Agrees, Handle, OnMessage;
    var db, s := sys.world.db, sys.session;
    MessageNeverOpens(db, m);
    OnlyExpiryReconnects(db.account, m);
    AfterSnoc(s.basis, Messages(s.processed), m);
    ProcessedSnoc(s.processed, Processed(m, false));
    if s.phase.Recovering? || s.phase.Live? {
      ExpiryGrows(s, m);
    }
  }

  lemma StrayingSound(sys: System, m: Msg)
    requires Sound(sys)
    ensures Sound(Straying(sys, m))
  {
    hide After, Agrees, Handle, OnMessage, Own, Messages;
    var db, s := sys.world.db, sys.session;
    MessageNeverOpens(db, m);
    AfterSnoc(s.basis, Messages(s.processed), m);
    ProcessedSnoc(s.processed, Processed(m, true));
    SameExpiry(s, s.(processed := s.processed + [Processed(m, true)]));
  }

  lemma ExpiryGrows(s: Session, m: Msg)
    requires s.drained <= |s.arrivals|
    ensures ExpiryAfterDrain(s.(arrivals := s.arrivals + [m])) <==> ExpiryAfterDrain(s) || m.ListenKeyExpired?
  {
    var t := s.(arrivals := s.arrivals + [m]);
    if i :| s.drained <= i < |s.arrivals| && s.arrivals[i].ListenKeyExpired? {
      assert t.arrivals[i] == s.arrivals[i];
    }
    if m.ListenKeyExpired? {
      assert t.arrivals[|s.arrivals|] == m;
    }
  }

  lemma SameExpiry(s: Session, t: Session)
    requires s.drained == t.drained && s.arrivals == t.arrivals
    ensures ExpiryAfterDrain(s) <==> ExpiryAfterDrain(t)
  {
  }

  lemma OpeningSound(v: Venue, sys: System, symbols: seq<string>)
    requires Quiet(v) && Sound(sys) && sys.session.phase.Recovering?
    ensures Sound(OpeningGate(v, sys, symbols))
  {
    hide Recover, After, Agrees, ExpiryAfterDrain, Quiet;
    RecoverCalm(v, sys.world, symbols);
    SameExpiry(sys.session, sys.session.(phase := Live));
  }

  lemma CalmSound(sys: System, after: World)
    requires Sound(sys) && Calm(sys.world, after)
    ensures Sound(sys.(world := after))
  {
    hide After, Agrees, ExpiryAfterDrain;
  }

  lemma NextSound(v: Venue, sys: System, e: Event)
    requires Quiet(v) && Sound(sys)
    ensures Sound(Next(v, sys, e))
  {
    hide Reconciling, OpeningGate, Delivering, OpenCampaign, CleanupIfFlat, InStep, Enumerates, Quiet;
    match e
    case Deliver(m) => DeliveringSound(sys, m);
    case Stray(m) => StrayingSound(sys, m);
    case Reconcile(remote) => if sys.session.phase.Attached? { ReconcilingSound(sys, remote); }
    case RecoverAndOpen(symbols) => if sys.session.phase.Recovering? { OpeningSound(v, sys, symbols); }
    case OpenPlan(plan) => OpenCalm(v, sys.world, plan); CalmSound(sys, OpenCampaign(v, sys.world, plan).world);
    case CleanUp(symbol) =>
      CleanupCalm(v, sys.world, symbol);
      CalmSound(sys, CleanupIfFlat(v, sys.world, symbol).world);
    case OperatorClears => ClearingSound(sys);
    case _ =>
  }

  lemma ClearingSound(sys: System)
    requires Sound(sys)
    ensures Sound(WithDb(sys, ClearHalt(sys.world.db)))
  {
    hide After, Agrees, ExpiryAfterDrain;
  }

  lemma {:induction false} RunSound(v: Venue, sys: System, events: seq<Event>)
    requires Quiet(v) && Sound(sys)
    ensures Sound(Run(v, sys, events))
  {
    hide Sound, Next, Quiet;
    if events != [] {
      RunSound(v, sys, events[..|events| - 1]);
      NextSound(v, Run(v, sys, events[..|events| - 1]), events[|events| - 1]);
    }
  }

  // ---- The gate ----

  /** Execution is ready only in a live session whose tables are in step with the snapshot it compared. */
  ghost predicate Justified(sys: System) {
    ExecutionReady(sys.world.db) ==> sys.session.phase.Live? && InStep(sys.world.db, sys.session)
  }

  /** A process before its first session, with whatever store an earlier one left behind. */
  ghost predicate Fresh(sys: System) {
    sys.session.phase.Idle?
  }

  lemma RunOfNothing(v: Venue, sys: System, none: seq<Event>)
    requires none == []
    ensures Run(v, sys, none) == sys
  {
  }

  /** The gate is justified at every point of every run exactly when the store was not left ready: nothing
      resets a flag left behind by a killed process until the first session begins. */
  lemma GateAlwaysJustifiedIff(v: Venue, sys: System)
    requires Quiet(v) && Fresh(sys)
    ensures (forall events :: Justified(Run(v, sys, events))) <==> !ExecutionReady(sys.world.db)
  {
    hide Run, InStep;
    if ExecutionReady(sys.world.db) {
      var none: seq<Event> := [];
      RunOfNothing(v, sys, none);
      assert !Justified(Run(v, sys, none));
    } else {
      forall events ensures Justified(Run(v, sys, events)) {
        RunSound(v, sys, events);
      }
    }
  }

  /** Once a session has begun the gate is justified from there on, whatever the store was left with. */
  lemma JustifiedOnceBegun(v: Venue, sys: System, events: seq<Event>)
    requires Quiet(v) && Fresh(sys)
    ensures Justified(Run(v, Next(v, sys, Begin), events))
  {
    RunSound(v, Next(v, sys, Begin), events);
  }

  /** The gate opens only as recovery returns, and at that instant no active campaign holds a position
      without its own STOP and TP active in the store. */
  lemma GateOpensCovered(v: Venue, sys: System, e: Event)
    requires Quiet(v) && Sound(sys)
    requires !ExecutionReady(sys.world.db) && ExecutionReady(Next(v, sys, e).world.db)
    ensures sys.session.phase.Recovering? && e.RecoverAndOpen? && Recover(v, sys.world, e.symbols).ok
    ensures AllCovered(Next(v, sys, e).world.db)
  {
    hide Recover, OpenCampaign, CleanupIfFlat, Enumerates, InStep, Quiet, Drain, Covered, Handle, OnMessage;
    match e
    case Deliver(m) => MessageNeverOpens(sys.world.db, m);
    case Stray(m) => MessageNeverOpens(sys.world.db, m);
    case Reconcile(remote) => if sys.session.phase.Attached? { ReconcilingClosed(sys, remote); }
    case RecoverAndOpen(symbols) => RecoveryCoversEverySymbol(v, sys.world, symbols); SameCover(v, sys, symbols);
    case OpenPlan(plan) => OpenCalm(v, sys.world, plan);
    case CleanUp(symbol) => CleanupCalm(v, sys.world, symbol);
    case _ =>
  }

  lemma ReconcilingClosed(sys: System, remote: Snapshot)
    ensures !Reconciling(sys, remote).world.db.ready
  {
    var compared := Reconciled(sys.world.db, remote, false);
    if !Drain(compared, sys.session.queue, false).raised {
      DrainIsAfter(compared, sys.session.queue, false);
    }
  }

  lemma SameCover(v: Venue, sys: System, symbols: seq<string>)
    requires ExecutionReady(OpeningGate(v, sys, symbols).world.db)
    ensures AllCovered(Recover(v, sys.world, symbols).world.db) ==> AllCovered(OpeningGate(v, sys, symbols).world.db)
  {
    hide Recover, SweepableAlgo, Exposed;
  }

  /** The gate opens on a session whose key has expired exactly when its own stream said so after the drain: what
      comes while the recovery callback is suspended is not looked at again. */
  lemma GateOpensExpiredIff(v: Venue, sys: System, e: Event)
    requires Quiet(v) && Sound(sys)
    requires !ExecutionReady(sys.world.db) && ExecutionReady(Next(v, sys, e).world.db)
    ensures Next(v, sys, e).session.expired <==> ExpiryAfterDrain(sys.session)
  {
    GateOpensCovered(v, sys, e);
    hide Recover, Enumerates, After, Agrees, ExpiryAfterDrain, AllCovered, Quiet, Own;
  }

  /** An expiry delivered while the recovery callback is suspended is not looked at again: the gate opens. */
  lemma ExpiryDuringRecoveryIsMissed(v: Venue)
    requires Quiet(v)
    ensures
      var start := System(World(EMPTY_DB, Exchange({}, map[], {}, [], {}), 0),
                          Session(Idle, false, [], [], 0, EMPTY_DB.account, Snapshot([], [], []), []));
      var last := Run(v, start, [Begin, Attach, Reconcile(Snapshot([], [], [])), Deliver(ListenKeyExpired),
                                 RecoverAndOpen([])]);
      ExecutionReady(last.world.db) && last.session.expired
  {
    hide Handle;
    var nothing := Snapshot([], [], []);
    var start := System(World(EMPTY_DB, Exchange({}, map[], {}, [], {}), 0),
                        Session(Idle, false, [], [], 0, EMPTY_DB.account, nothing, []));
    var a := Next(v, start, Begin);
    var b := Next(v, a, Attach);
    NothingAgrees();
    var c := Next(v, b, Reconcile(nothing));
    OnlyExpiryReconnects(EMPTY_DB.account, ListenKeyExpired);
    ExpiryKeepsAccount();
    var d := Next(v, c, Deliver(ListenKeyExpired));
    assert d.session.phase.Recovering? && d.session.expired && d.world.db.campaigns == map[] && !d.world.db.halted;
    assert Enumerates([], d.world.db.campaigns);
    var e := Next(v, d, RecoverAndOpen([]));
    RunFive(v, start, Begin, Attach, Reconcile(nothing), Deliver(ListenKeyExpired), RecoverAndOpen([]));
  }

  lemma NothingAgrees()
    ensures Agrees(EMPTY_DB.account, Snapshot([], [], []))
  {
  }

  lemma ExpiryKeepsAccount()
    ensures forall a: Account ::
              Handle(a, ListenKeyExpired).account == a && Handle(a, ListenKeyExpired).effect == KeyExpired
  {
  }

  /** What a process leaves behind that is stopped between a fill and the activation it asks for: an armed
      neutral campaign with a position. */
  function ArmedAndExposed(): World {
    var symbol := "BTCUSDT";
    var id := CampaignId(symbol, NEUTRAL_GRID, RANGE_NEUTRAL, 0);
    var r := CampaignRecord(id, symbol, PASS, CampaignStatus.Active, 100.0, 60.0, 1, 10.0, 90.0, 110.0, NoId, [],
                            SgId(StopKey(id)), SgId(TakeProfitKey(id)), NEUTRAL_GRID, false, 0,
                            Some(90.0), Some(110.0), Some(110.0), Some(90.0));
    var position := StoredPosition(symbol, LONG, 1.0, 99.0, 99.0, 0);
    World(EMPTY_DB.(account := EMPTY_DB.account.(positions := map[symbol := position]), campaigns := map[symbol := r]),
          Exchange({}, map[], {}, [], {}), 0)
  }

  function OnePosition(): Snapshot {
    Snapshot([], [], [RemotePosition("BTCUSDT", LONG, 1.0, 99.0)])
  }

  lemma ArmedIsSound()
    ensures RecordsOk(ArmedAndExposed()) && Agrees(ArmedAndExposed().db.account, OnePosition())
    ensures Enumerates(["BTCUSDT"], ArmedAndExposed().db.campaigns)
  {
    var rs := OnePosition().positions;
    assert rs[..0] == [];
    assert PositionsBySymbol(rs) == map["BTCUSDT" := rs[0]];
  }

  /** An un-halted store that agrees with the snapshot comes to recover. */
  lemma ComesToRecover(v: Venue, start: System, remote: Snapshot) returns (c: System)
    requires Fresh(start) && !start.world.db.halted && Agrees(start.world.db.account, remote)
    ensures c == Run(v, start, [Begin, Attach, Reconcile(remote)])
    ensures c.session.phase.Recovering? && !c.world.db.halted
    ensures c.world.db.account == start.world.db.account && c.world.db.campaigns == start.world.db.campaigns
  {
    RunThree(v, start, Begin, Attach, Reconcile(remote));
    hide Run, Agrees;
    c := Next(v, Next(v, Next(v, start, Begin), Attach), Reconcile(remote));
  }

  /** A recovery that cannot return halts and ends the run. */
  lemma RaisingEnds(v: Venue, sys: System, symbol: string)
    requires sys.session.phase.Recovering? && Enumerates([symbol], sys.world.db.campaigns)
             && !RecoverOne(v, sys.world, symbol).ok
    ensures var last := Next(v, sys, RecoverAndOpen([symbol])); last.session.phase.Ended? && last.world.db.halted
  {
    hide RecoverOne, Enumerates;
    assert [symbol][0] == symbol;
  }

  /** Such a store is sound and agrees with the exchange, so the next session comes to recover it un-halted; and
      whatever the exchange answers, that recovery raises and ends the run halted. */
  lemma ArmedExposureHappens(v: Venue)
    ensures
      var symbol, opening := "BTCUSDT", [Begin, Attach, Reconcile(OnePosition())];
      var start := System(ArmedAndExposed(), Session(Idle, false, [], [], 0, EMPTY_DB.account, OnePosition(), []));
      var db, last := Run(v, start, opening).world.db, Run(v, start, opening + [RecoverAndOpen([symbol])]);
      && RecordsOk(start.world)
      && Run(v, start, opening).session.phase.Recovering? && !db.halted
      && HasActive(db, symbol) && Exposed(db.account.positions, symbol)
      && db.campaigns[symbol].mode.NEUTRAL_GRID? && !db.campaigns[symbol].activated
      && last.session.phase.Ended? && last.world.db.halted
  {
    var symbol, opening := "BTCUSDT", [Begin, Attach, Reconcile(OnePosition())];
    var start := System(ArmedAndExposed(), Session(Idle, false, [], [], 0, EMPTY_DB.account, OnePosition(), []));
    ArmedIsSound();
    hide Agrees, RecordsOk, Enumerates, RecoverOne, Next, Run, OnePosition;
    var c := ComesToRecover(v, start, OnePosition());
    ArmedExposureNeverRecovers(v, c.world, symbol);
    RaisingEnds(v, c, symbol);
    RunSnoc(v, start, opening, RecoverAndOpen([symbol]));
  }

  lemma RunSnoc(v: Venue, sys: System, events: seq<Event>, e: Event)
    ensures Run(v, sys, events + [e]) == Next(v, Run(v, sys, events), e)
  {
    hide Next;
    assert (events + [e])[..|events|] == events;
  }

  lemma RunThree(v: Venue, sys: System, e1: Event, e2: Event, e3: Event)
    ensures Run(v, sys, [e1, e2, e3]) == Next(v, Next(v, Next(v, sys, e1), e2), e3)
  {
    hide Next;
    assert Run(v, sys, []) == sys;
    hide Run;
    RunSnoc(v, sys, [], e1);
    RunSnoc(v, sys, [e1], e2);
    RunSnoc(v, sys, [e1, e2], e3);
    assert [] + [e1] == [e1] && [e1] + [e2] == [e1, e2] && [e1, e2] + [e3] == [e1, e2, e3];
  }

  lemma RunFive(v: Venue, sys: System, e1: Event, e2: Event, e3: Event, e4: Event, e5: Event)
    ensures Run(v, sys, [e1, e2, e3, e4, e5]) == Next(v, Next(v, Next(v, Next(v, Next(v, sys, e1), e2), e3), e4), e5)
  {
    hide Next, Run;
    RunThree(v, sys, e1, e2, e3);
    RunSnoc(v, sys, [e1, e2, e3], e4);
    RunSnoc(v, sys, [e1, e2, e3, e4], e5);
    assert [e1, e2, e3] + [e4] == [e1, e2, e3, e4] && [e1, e2, e3, e4] + [e5] == [e1, e2, e3, e4, e5];
  }
}
