/** The user-stream transport as an object; its blocks between two suspension points are single methods. */
module Transport {
  import opened Store
  import opened UserData
  import opened Reconciliation
  import opened Campaign
  import opened Executor
  import opened UserStream

  class BinanceUserStreamTransport {
    const store: StateStore
    const processor: BinanceUserDataProcessor
    const reconciler: AccountReconciler
    const executor: GridCampaignExecutor
    var phase: Phase
    var buffering: bool
    var queue: seq<Msg>
    var sessionExpired: bool
    ghost var arrivals: seq<Msg>
    ghost var drained: nat
    ghost var basis: Account
    ghost var snapshot: Snapshot
    ghost var processed: seq<Processed>

    ghost predicate Linked() {
      executor.Valid() && executor.store == store && processor.store == store && reconciler.store == store
    }

    ghost predicate Valid()
      reads this
    {
      && Linked()
      && (phase.Connecting? || phase.Attached? ==> buffering)
      && (phase.Recovering? || phase.Live? ==> !buffering)
    }

    ghost function Current(): System
      reads this, executor.adapter, executor.adapter.store
    {
      System(executor.adapter.Now(), Session(phase, sessionExpired, queue, arrivals, drained, basis, snapshot,
                                             processed))
    }

    constructor (executor: GridCampaignExecutor)
      requires executor.Valid()
      ensures Valid() && this.executor == executor && phase == Idle
    {
      store := executor.store;
      this.executor := executor;
      processor := new BinanceUserDataProcessor(executor.store);
      reconciler := new AccountReconciler(executor.store);
      phase, buffering, queue, sessionExpired := Idle, false, [], false;
      arrivals, drained, basis, snapshot := [], 0, Account(map[], map[], map[], {}), Snapshot([], [], []);
      processed := [];
    }

    /** The run loop's next session; an already halted store ends the run instead. */
    method BeginSession()
      requires Valid() && phase.Idle?
      modifies this, store
      ensures Valid() && Current() == Beginning(old(Current()))
    {
      hide Recover, RecoverOne;
      if store.isHalted {
        phase := Ended;
        return;
      }
      store.SetExecutionReady(false);
      store.SetStreamStatus(CONNECTING);
      phase, buffering, queue, sessionExpired := Connecting, true, [], false;
      arrivals := [];
    }

    method AttachStream()
      requires Valid() && phase.Connecting?
      modifies this, store
      ensures Valid() && Current() == Attaching(old(Current()))
    {
      store.SetStreamStatus(RECONCILING);
      phase := Attached;
    }

    /** One message of the attached stream: buffered until the drain, processed at once after it. */
    method Dispatch(m: Msg)
      requires Valid() && (phase.Attached? || phase.Recovering? || phase.Live?)
      modifies this, store
      ensures Valid() && Current() == Delivering(old(Current()), m)
    {
      hide Handle, OnMessage;
      arrivals := arrivals + [m];
      if buffering {
        queue := queue + [m];
        return;
      }
      processed := processed + [Processed(m, false)];
      var _, result := processor.OnMessageReceived(m);
      if result.reconnectRequired {
        sessionExpired := true;
      }
    }

    /** One message of an earlier session's stream that was not torn down. */
    method DispatchLate(m: Msg)
      requires Valid()
      modifies this`processed, store
      ensures Valid() && Current() == Straying(old(Current()), m)
    {
      hide Handle, OnMessage;
      if phase.Recovering? || phase.Live? {
        processed := processed + [Processed(m, true)];
      }
      var _, _ := processor.OnMessageReceived(m);
    }

    /** The way out of a session: the gate is closed, and unless halted the stream is marked as gone. */
    method CloseSession(next: Phase)
      requires Linked() && (next.Idle? || next.Ended?)
      modifies this`phase, store
      ensures Valid() && Current() == Close(old(Current()), old(store.View()), next)
    {
      store.SetExecutionReady(false);
      if !store.isHalted {
        store.SetStreamStatus(DISCONNECTED);
      }
      phase := next;
    }

    /** The snapshot has come back: compare it, then drain what was buffered meanwhile. */
    method ReconcileAndDrain(remote: Snapshot)
      requires Valid() && phase.Attached?
      modifies this, store
      ensures Valid()
      ensures Current().world == Reconciling(old(Current()), remote).world
      ensures phase == Reconciling(old(Current()), remote).session.phase
      ensures phase.Recovering? ==> Current() == Reconciling(old(Current()), remote)
    {
      hide Drain, Agrees, AllOwn, Recover, RecoverOne, Handle, OnMessage, OpenCampaign, CleanupIfFlat;
      ghost var before := store.Acc();
      var agreed := reconciler.ReconcileSnapshot(remote, false);
      if !agreed {
        CloseSession(Ended);
        return;
      }
      var raised := DrainBuffer();
      if raised {
        CloseSession(Idle);
        return;
      }
      LeaveOrRecover(before, remote);
    }

    /** What the drained store decides: to end the run, to reconnect, or to go on to recovery. */
    method LeaveOrRecover(ghost before: Account, ghost remote: Snapshot)
      requires Linked()
      modifies this, store
      ensures Valid() && queue == old(queue) && sessionExpired == old(sessionExpired) && arrivals == old(arrivals)
      ensures
        var sys, db := old(Current()), old(store.View());
        if db.halted then Current() == Close(sys, db, Ended)
        else if old(sessionExpired) then Current() == Close(sys, db, Idle)
        else Current() == sys.(session := Session(Recovering, false, queue, arrivals, |arrivals|, before, remote,
                                                  AllOwn(arrivals)))
    {
      hide AllOwn;
      buffering := false;
      if store.isHalted {
        CloseSession(Ended);
      } else if sessionExpired {
        CloseSession(Idle);
      } else {
        phase, drained, basis, snapshot := Recovering, |arrivals|, before, remote;
        processed := AllOwn(arrivals);
      }
    }

    /** Processes the buffer front to back. */
    method DrainBuffer() returns (raised: bool)
      requires Linked()
      modifies this`queue, this`sessionExpired, store
      ensures Drained(store.View(), sessionExpired, raised) == Drain(old(store.View()), old(queue), false)
      ensures !raised ==> queue == []
    {
      hide Handle, OnMessage;
      sessionExpired := false;
      while queue != []
        invariant Drain(store.View(), queue, sessionExpired) == Drain(old(store.View()), old(queue), false)
        decreases |queue|
      {
        var m := queue[0];
        queue := queue[1..];
        var result: UserDataResult;
        raised, result := processor.OnMessageReceived(m);
        if raised {
          return;
        }
        if result.reconnectRequired {
          sessionExpired := true;
        }
      }
      raised := false;
    }

    /** Ownership recovery, then the gate. */
    method RecoverAndOpenGate(symbols: seq<string>)
      requires Valid() && phase.Recovering? && Enumerates(symbols, store.campaigns)
      modifies this, store, executor.adapter
      ensures Valid() && Current() == OpeningGate(executor.adapter.venue, old(Current()), symbols)
    {
      hide Recover, Enumerates;
      var ok := executor.RecoverAfterReconciliation(symbols);
      if !ok && !store.isHalted {
        store.HaltFor(PostReconcileRecoveryFailed);
      }
      if store.isHalted {
        CloseSession(Ended);
        return;
      }
      store.SetStreamStatus(LIVE);
      store.SetExecutionReady(true);
      phase := Live;
    }
  }
}
