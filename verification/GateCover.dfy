/** The session gate against the stored exits: what it opens over, and what keeps it shut. */
module GateCover {
  import opened Models
  import opened Store
  import opened Adapter
  import opened Campaign
  import opened CampaignFrame
  import opened CampaignStatuses
  import Data = UserData
  import Rec = Reconciliation
  import Stream = UserStream

  /** At the instant the gate opens every open campaign with a position is ACTIVE and both its exits are stored as
      NEW, WORKING or PENDING. */
  lemma GateOpensProtected(v: Venue, sys: Stream.System, e: Stream.Event)
    requires Quiet(v) && Stream.Sound(sys)
    requires !ExecutionReady(sys.world.db) && ExecutionReady(Stream.Next(v, sys, e).world.db)
    ensures
      var db := Stream.Next(v, sys, e).world.db;
      forall s | Holding(db, s) ::
        && db.campaigns[s].status.Active?
        && LiveExit(db.account.algos, db.campaigns[s].stopId)
        && LiveExit(db.account.algos, db.campaigns[s].takeProfitId)
  {
    Stream.GateOpensCovered(v, sys, e);
    hide Stream.Next, Stream.Sound, Quiet, LiveExit;
    var db := Stream.Next(v, sys, e).world.db;
    forall s | Holding(db, s)
      ensures
        && db.campaigns[s].status.Active?
        && LiveExit(db.account.algos, db.campaigns[s].stopId)
        && LiveExit(db.account.algos, db.campaigns[s].takeProfitId)
    {
      CoverMeans(db, s);
    }
  }

  /** The recovery step opens the gate exactly when recovery returns and nothing has halted; otherwise the session ends,
      halted, with the gate shut. */
  lemma GateOpensIff(v: Venue, sys: Stream.System, symbols: seq<string>)
    requires sys.session.phase.Recovering? && Enumerates(symbols, sys.world.db.campaigns)
    ensures
      var after, r := Stream.Next(v, sys, Stream.RecoverAndOpen(symbols)), Recover(v, sys.world, symbols);
      && (ExecutionReady(after.world.db) <==> r.ok && !r.world.db.halted)
      && (r.ok && !r.world.db.halted ==>
            && after.session.phase.Live?
            && after.world == r.world.(db := r.world.db.(ready := true, streamStatus := LIVE)))
      && (!r.ok || r.world.db.halted ==>
            after.session.phase.Ended? && after.world.db.halted && !after.world.db.ready)
  {
    hide Recover, Enumerates, Stream.Reconciling, Stream.Delivering, Stream.Straying;
  }

  /** A session that comes to recover a position one of whose exits is missing or not live ends, halted, with the
      gate shut, whatever the exchange answers. */
  lemma MissingExitEndsHalted(v: Venue, sys: Stream.System, symbols: seq<string>, symbol: string)
    requires Quiet(v) && sys.session.phase.Recovering?
    requires Enumerates(symbols, sys.world.db.campaigns) && Holding(sys.world.db, symbol)
    requires
      var db := sys.world.db;
      || !LiveExit(db.account.algos, db.campaigns[symbol].stopId)
      || !LiveExit(db.account.algos, db.campaigns[symbol].takeProfitId)
    ensures
      var after := Stream.Next(v, sys, Stream.RecoverAndOpen(symbols));
      && after.world.db.halted && !after.world.db.ready && after.session.phase.Ended?
  {
    assert symbol in symbols;
    GateOpensIff(v, sys, symbols);
    hide Stream.Next, Recover, LiveExit, Quiet, Enumerates, Holding;
    MissingExitStopsRecovery(v, sys.world, symbols, symbol);
  }

  // ---- Reconciliation and drain ----

  /** Some buffered message halts, handled after those before it. */
  ghost predicate SomeHalts(a: Account, queue: seq<Data.Msg>) {
    exists k :: 0 <= k < |queue| && HaltsAt(a, queue, k)
  }

  ghost predicate HaltsAt(a: Account, queue: seq<Data.Msg>, k: nat)
    requires k < |queue|
  {
    Data.Handle(Data.After(a, queue[..k]), queue[k]).effect.HaltFor?
  }

  lemma HaltsLater(a: Account, queue: seq<Data.Msg>, k: nat)
    requires 0 < k < |queue|
    ensures HaltsAt(a, queue, k) <==> HaltsAt(Data.Handle(a, queue[0]).account, queue[1..], k - 1)
  {
    hide Data.Handle;
    Stream.AfterFirst(a, queue[..k]);
    assert queue[..k][0] == queue[0] && queue[..k][1..] == queue[1..][..k - 1];
  }

  lemma SomeHaltsStep(a: Account, queue: seq<Data.Msg>)
    requires queue != []
    ensures SomeHalts(a, queue) <==>
              Data.Handle(a, queue[0]).effect.HaltFor? || SomeHalts(Data.Handle(a, queue[0]).account, queue[1..])
  {
    assert Data.After(a, queue[..0]) == a;
    assert HaltsAt(a, queue, 0) <==> Data.Handle(a, queue[0]).effect.HaltFor?;
    hide HaltsAt, Data.Handle, Data.After;
    var next := Data.Handle(a, queue[0]).account;
    if k :| 0 <= k < |queue| && HaltsAt(a, queue, k) {
      if k > 0 {
        HaltsLater(a, queue, k);
      }
    }
    if k :| 0 <= k < |queue[1..]| && HaltsAt(next, queue[1..], k) {
      HaltsLater(a, queue, k + 1);
    }
  }

  lemma MessageHalts(db: Db, m: Data.Msg)
    ensures Data.OnMessage(db, m).halted <==> db.halted || Data.Handle(db.account, m).effect.HaltFor?
    ensures Data.OnMessage(db, m).account == Data.Handle(db.account, m).account
  {
    hide Data.Handle;
  }

  /** The drained store is halted exactly when it was, or when some buffered message halts. */
  lemma {:induction false} DrainHaltsIff(db: Db, queue: seq<Data.Msg>, expired: bool)
    requires !Stream.Drain(db, queue, expired).raised
    ensures Stream.Drain(db, queue, expired).db.halted <==> db.halted || SomeHalts(db.account, queue)
    decreases queue
  {
    hide Data.Handle, Data.OnMessage, SomeHalts;
    if queue == [] {
      NothingHalts(db.account);
    } else {
      MessageHalts(db, queue[0]);
      SomeHaltsStep(db.account, queue);
      DrainHaltsIff(Data.OnMessage(db, queue[0]), queue[1..],
                    expired || Data.Handle(db.account, queue[0]).result.reconnectRequired);
    }
  }

  lemma NothingHalts(a: Account)
    ensures !SomeHalts(a, [])
  {
  }

  /** Where reconciliation leads: a halted or disagreeing store ends the session; a buffered message that breaks an
      index makes it start over; a buffered message that halts ends it; a buffered expiry makes it start over; only
      otherwise it goes on to recovery. The gate stays shut throughout. */
  lemma ReconciliationLeadsTo(v: Venue, sys: Stream.System, remote: Rec.Snapshot)
    requires sys.session.phase.Attached?
    ensures
      var db, queue := sys.world.db, sys.session.queue;
      var after, d := Stream.Next(v, sys, Stream.Reconcile(remote)), Stream.Drain(db.(ready := false), queue, false);
      && !after.world.db.ready
      && after.session.phase ==
           if db.halted || !Rec.Agrees(db.account, remote) then Stream.Ended
           else if d.raised then Stream.Idle
           else if SomeHalts(db.account, queue) then Stream.Ended
           else if exists i :: 0 <= i < |queue| && queue[i].ListenKeyExpired? then Stream.Idle
           else Stream.Recovering
  {
    hide Data.Handle, Rec.Agrees, Stream.Drain, SomeHalts, Stream.Delivering, Stream.Straying, Stream.OpeningGate;
    var db, queue := sys.world.db, sys.session.queue;
    var d := Stream.Drain(db.(ready := false), queue, false);
    if !d.raised {
      Stream.DrainIsAfter(db.(ready := false), queue, false);
      DrainHaltsIff(db.(ready := false), queue, false);
    }
    Stream.ReconcilingClosed(sys, remote);
  }

  /** Every way out of a session shuts the gate. */
  lemma LeavingShutsGate(v: Venue, sys: Stream.System, e: Stream.Event)
    requires !sys.session.phase.Idle? && !sys.session.phase.Ended?
    requires
      var phase := Stream.Next(v, sys, e).session.phase;
      phase.Idle? || phase.Ended?
    ensures !Stream.Next(v, sys, e).world.db.ready
  {
    hide Recover, Enumerates, Stream.Reconciling, Rec.Agrees, Data.Handle, Data.OnMessage, OpenCampaign, CleanupIfFlat;
    if e.Reconcile? {
      Stream.ReconcilingClosed(sys, e.remote);
    }
  }
}
