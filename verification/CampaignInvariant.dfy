/** What every interleaving of opening, cleanup, recovery and stream updates keeps. */
module CampaignInvariant {
  import opened Models
  import opened Store
  import opened Adapter
  import opened Campaign

  /** Past its preparation a campaign only ever changes status, direction and activation. */
  predicate SameCampaign(r: CampaignRecord, s: CampaignRecord) {
    s == r.(status := s.status, direction := s.direction, activated := s.activated) && (r.activated ==> s.activated)
  }

  /** From `w` to `w2` only the campaign of one symbol moved, halts stayed and no acceptance was lost. */
  ghost predicate Progress(w: World, w2: World, symbol: string) {
    && w2.db.campaigns.Keys == w.db.campaigns.Keys
    && (forall t | t in w.db.campaigns && t != symbol :: w2.db.campaigns[t] == w.db.campaigns[t])
    && (symbol in w.db.campaigns ==> SameCampaign(w.db.campaigns[symbol], w2.db.campaigns[symbol]))
    && (w.db.halted ==> w2.db.halted)
    && w.ex.accepted <= w2.ex.accepted
  }

  /** The campaigns whose exposure must be covered by a STOP and a TP. */
  predicate NeedsProtection(r: CampaignRecord) {
    if r.mode.NEUTRAL_GRID? then r.activated else r.status.Active?
  }

  /** A record owns the ids derived from its campaign, and what needs protection has been given it. */
  predicate RecordKeyed(accepted: set<ClientId>, r: CampaignRecord) {
    && r.stopId == SgId(StopKey(r.campaignId)) && r.takeProfitId == SgId(TakeProfitKey(r.campaignId))
    && (forall id | id in r.limitIds :: id.SgId? && id.key.LevelKey? && id.key.campaign == r.campaignId)
    && (NeedsProtection(r) ==> r.stopId in accepted && r.takeProfitId in accepted)
  }

  predicate RecordOk(halted: bool, accepted: set<ClientId>, r: CampaignRecord) {
    RecordKeyed(accepted, r) && !r.status.Opening? && (r.status.Degraded? ==> halted)
  }

  ghost predicate RecordsOk(w: World) {
    forall s | s in w.db.campaigns :: RecordOk(w.db.halted, w.ex.accepted, w.db.campaigns[s])
  }

  /** Recovery would make a degraded directional campaign active again on the word of the store alone: both its
      exits are listed as active there, but the exchange never accepted them from the engine. */
  predicate Revives(w: World, symbol: string) {
    && HasActive(w.db, symbol) && Exposed(w.db.account.positions, symbol)
    && var r := w.db.campaigns[symbol];
    && !r.mode.NEUTRAL_GRID? && !r.status.Active?
    && SweepableAlgo(w.db.account.algos, r.stopId) && SweepableAlgo(w.db.account.algos, r.takeProfitId)
    && !(r.stopId in w.ex.accepted && r.takeProfitId in w.ex.accepted)
  }

  lemma StatusChange(w: World, symbol: string, status: CampaignStatus)
    requires symbol in w.db.campaigns
    ensures Mark(w, symbol, status).db.campaigns == w.db.campaigns[symbol := w.db.campaigns[symbol].(status := status)]
    ensures Progress(w, Mark(w, symbol, status), symbol)
  {
  }

  lemma RecordsAfter(w: World, w2: World, symbol: string)
    requires RecordsOk(w) && Progress(w, w2, symbol)
    requires symbol in w2.db.campaigns ==> RecordOk(w2.db.halted, w2.ex.accepted, w2.db.campaigns[symbol])
    ensures RecordsOk(w2)
  {
    forall s | s in w2.db.campaigns ensures RecordOk(w2.db.halted, w2.ex.accepted, w2.db.campaigns[s]) {
      if s != symbol {
        assert RecordOk(w.db.halted, w.ex.accepted, w.db.campaigns[s]);
      }
    }
  }

  lemma ProgressChains(a: World, b: World, c: World, symbol: string)
    requires Progress(a, b, symbol) && Progress(b, c, symbol)
    ensures Progress(a, c, symbol)
  {
  }

  /** One call on a registered campaign: it keeps its record sound, and only a failing call halts. */
  ghost predicate Sound(w: World, symbol: string, after: World, ok: bool) {
    && symbol in w.db.campaigns && Progress(w, after, symbol)
    && RecordOk(after.db.halted, after.ex.accepted, after.db.campaigns[symbol])
    && (ok ==> after.db.halted == w.db.halted)
  }

  predicate Registered(w: World, symbol: string) {
    symbol in w.db.campaigns && RecordOk(w.db.halted, w.ex.accepted, w.db.campaigns[symbol])
  }

  /** As registered, but possibly still being opened. */
  predicate Owned(w: World, symbol: string) {
    symbol in w.db.campaigns && RecordKeyed(w.ex.accepted, w.db.campaigns[symbol])
  }

  /** Nothing but the exchange and the reported positions moved. */
  predicate Quieter(w: World, w1: World) {
    OnlyPositions(w.db, w1.db) && w.ex.accepted <= w1.ex.accepted
  }

  lemma UntouchedSound(w: World, w1: World, symbol: string, ok: bool)
    requires Registered(w, symbol) && Quieter(w, w1)
    ensures Sound(w, symbol, w1, ok) && Registered(w1, symbol)
  {
  }

  /** Marking the campaign failed or degraded and halting is always sound. */
  lemma HaltingSound(w: World, w1: World, symbol: string, status: CampaignStatus, reason: HaltReason)
    requires Owned(w, symbol) && Quieter(w, w1) && (status.Failed? || status.Degraded?)
    ensures Sound(w, symbol, Stop(Mark(w1, symbol, status), reason), false)
  {
    StatusChange(w1, symbol, status);
    hide Mark;
  }

  lemma MarkingSound(w: World, w1: World, symbol: string, status: CampaignStatus)
    requires Owned(w, symbol) && Quieter(w, w1)
    requires status.Closed? || status.Failed?
             || (status.Active? && RecordKeyed(w1.ex.accepted, w.db.campaigns[symbol].(status := Active)))
    ensures Sound(w, symbol, Mark(w1, symbol, status), true)
  {
    StatusChange(w1, symbol, status);
    hide Mark;
  }

  lemma SoundChains(w: World, mid: World, after: World, symbol: string, ok: bool)
    requires Sound(w, symbol, mid, true) && Sound(mid, symbol, after, ok)
    ensures Sound(w, symbol, after, ok)
  {
    ProgressChains(w, mid, after, symbol);
  }

  lemma KeepActivatedSound(v: Venue, w: World, r: CampaignRecord, d: Direction, quantity: real)
    requires Registered(w, r.symbol)
    ensures Sound(w, r.symbol, KeepActivated(v, w, r, d, quantity).world, KeepActivated(v, w, r, d, quantity).ok)
  {
    hide PlaceReduceOnly, CancelOpposite, Sound, RecordKeyed, Mark, Stop;
    if r.direction != d {
      var c := PlaceReduceOnly(v, w, r.symbol, d, quantity, EmergencyKey(r.campaignId, DirectionFlipClose));
      HaltingSound(w, c.world, r.symbol, Degraded, NeutralDirectionFlip(r.symbol));
    } else {
      var c := CancelOpposite(v, w, r.symbol, d, r.limitIds);
      UntouchedSound(w, c.world, r.symbol, c.ok);
    }
  }

  lemma ProtectionFailedSound(v: Venue, w: World, w1: World, r: CampaignRecord, d: Direction, quantity: real)
    requires Registered(w, r.symbol) && Quieter(w, w1)
    ensures Sound(w, r.symbol, ProtectionFailed(v, w1, r, d, quantity), false)
  {
    hide PlaceReduceOnly, Sound, RecordKeyed, Mark, Stop;
    var c := PlaceReduceOnly(v, w1, r.symbol, d, quantity, EmergencyKey(r.campaignId, NeutralProtectionEmergencyClose));
    HaltingSound(w, c.world, r.symbol, Failed, NeutralProtectionFailed(r.symbol));
    HaltingSound(w, c.world, r.symbol, Degraded, NeutralUnprotectedPosition(r.symbol));
  }

  lemma ActivateNeutralSound(w: World, w1: World, r: CampaignRecord, d: Direction)
    requires Registered(w, r.symbol) && Quieter(w, w1) && w.db.campaigns[r.symbol].campaignId == r.campaignId
    requires {SgId(StopKey(r.campaignId)), SgId(TakeProfitKey(r.campaignId))} <= w1.ex.accepted
    ensures Sound(w, r.symbol, ActivateNeutral(w1, r, d), true)
  {
  }

  lemma CompleteProtectionSound(v: Venue, w: World, w1: World, r: CampaignRecord, d: Direction, target: real)
    requires Registered(w, r.symbol) && w.db.campaigns[r.symbol].campaignId == r.campaignId
    requires Quieter(w, w1) && SgId(StopKey(r.campaignId)) in w1.ex.accepted
    ensures r.symbol in w1.db.campaigns
    ensures Sound(w, r.symbol, CompleteProtection(v, w1, r, d, target).world,
                  CompleteProtection(v, w1, r, d, target).ok)
  {
    hide PlaceExit, CancelOpposite, Sound, RecordKeyed, Mark, Stop, ActivateNeutral;
    var tp := PlaceExit(v, w1, r.symbol, d, target, TAKE_PROFIT_MARKET, TakeProfitKey(r.campaignId));
    HaltingSound(w, tp.world, r.symbol, Degraded, NeutralOpenDegraded(r.symbol));
    if tp.ok {
      var c := CancelOpposite(v, tp.world, r.symbol, d, r.limitIds);
      HaltingSound(w, c.world, r.symbol, Degraded, NeutralOpenDegraded(r.symbol));
      ActivateNeutralSound(w, c.world, r, d);
    }
  }

  lemma InstallProtectionSound(v: Venue, w: World, r: CampaignRecord, d: Direction, quantity: real)
    requires Registered(w, r.symbol) && r.symbol in w.db.campaigns
             && w.db.campaigns[r.symbol].campaignId == r.campaignId
    ensures Sound(w, r.symbol, InstallProtection(v, w, r, d, quantity).world,
                  InstallProtection(v, w, r, d, quantity).ok)
  {
    hide NeutralStopPhase, CompleteProtection, ProtectionFailed, Protection, Sound, RecordKeyed;
    var p := Protection(r, d);
    if p.None? {
      UntouchedSound(w, w, r.symbol, false);
    } else {
      var stop := NeutralStopPhase(v, w, r, d, p.value.0, p.value.1);
      if !stop.ok {
        ProtectionFailedSound(v, w, stop.world, r, d, quantity);
      } else {
        CompleteProtectionSound(v, w, stop.world, r, d, p.value.1);
      }
    }
  }

  lemma ActivatePositionSound(v: Venue, w: World, r: CampaignRecord)
    requires Registered(w, r.symbol) && r.symbol in w.db.campaigns
             && w.db.campaigns[r.symbol].campaignId == r.campaignId
    ensures Sound(w, r.symbol, ActivatePosition(v, w, r).world, ActivatePosition(v, w, r).ok)
  {
    hide KeepActivated, InstallProtection, StoredDirection, Sound, RecordKeyed;
    if Exposed(w.db.account.positions, r.symbol) {
      var position := w.db.account.positions[r.symbol];
      var d := StoredDirection(position);
      if r.activated {
        KeepActivatedSound(v, w, r, d, position.quantity);
      } else {
        InstallProtectionSound(v, w, r, d, position.quantity);
      }
    } else {
      UntouchedSound(w, w, r.symbol, true);
    }
  }

  lemma FlatCleanupSound(v: Venue, w: World, r: CampaignRecord)
    requires Registered(w, r.symbol)
    ensures Sound(w, r.symbol, FlatCleanup(v, w, r).world, !FlatCleanup(v, w, r).result.CleanupRaised?)
  {
    hide SweepAll, Sound, RecordKeyed, Mark, Stop, Exposed;
    var s := SweepAll(v, w, r);
    HaltingSound(w, s.world, r.symbol, Degraded, GridCleanupFailed(r.symbol));
    HaltingSound(w, s.world, r.symbol, Degraded, GridCleanupRace(r.symbol));
    UntouchedSound(w, s.world, r.symbol, true);
    MarkingSound(w, s.world, r.symbol, Closed);
  }

  lemma CleanupSound(v: Venue, w: World, symbol: string)
    requires Registered(w, symbol)
    ensures Sound(w, symbol, CleanupIfFlat(v, w, symbol).world, !CleanupIfFlat(v, w, symbol).result.CleanupRaised?)
  {
    hide ActivatePosition, FlatCleanup, Sound;
    UntouchedSound(w, w, symbol, true);
    if HasActive(w.db, symbol) {
      ActivatePositionSound(v, w, w.db.campaigns[symbol]);
      FlatCleanupSound(v, w, w.db.campaigns[symbol]);
    }
  }

  lemma RequireProtectionSound(w: World, symbol: string)
    requires Registered(w, symbol)
    requires !w.db.campaigns[symbol].mode.NEUTRAL_GRID? && RequireProtection(w, symbol).ok ==>
               RecordKeyed(w.ex.accepted, w.db.campaigns[symbol].(status := Active))
    ensures Sound(w, symbol, RequireProtection(w, symbol).world, RequireProtection(w, symbol).ok)
  {
    HaltingSound(w, w, symbol, Degraded, GridRecoveryMissingStop(symbol));
    HaltingSound(w, w, symbol, Degraded, GridRecoveryMissingTp(symbol));
    if RequireProtection(w, symbol).ok {
      MarkingSound(w, w, symbol, Active);
    }
    hide Sound, Mark, Stop, SweepableAlgo;
  }

  lemma RecoverExposedNeutralSound(v: Venue, w: World, symbol: string)
    requires Registered(w, symbol) && Exposed(w.db.account.positions, symbol)
    ensures Sound(w, symbol, RecoverExposedNeutral(v, w, symbol).world, RecoverExposedNeutral(v, w, symbol).ok)
  {
    hide ActivatePosition, CancelOpposite, StoredDirection, Sound, Mark, Stop;
    var r := w.db.campaigns[symbol];
    ActivatePositionSound(v, w, r);
    HaltingSound(w, w, symbol, Degraded, NeutralDirectionFlip(symbol));
    UntouchedSound(w, CancelOpposite(v, w, symbol, r.direction, r.limitIds).world, symbol,
                   CancelOpposite(v, w, symbol, r.direction, r.limitIds).ok);
  }

  lemma ExposedNeutralSound(v: Venue, w: World, symbol: string)
    requires Registered(w, symbol) && Exposed(w.db.account.positions, symbol)
             && w.db.campaigns[symbol].mode.NEUTRAL_GRID?
    ensures var s := RecoverExposedNeutral(v, w, symbol);
            if s.ok then symbol in s.world.db.campaigns
                         && Sound(w, symbol, RequireProtection(s.world, symbol).world,
                                  RequireProtection(s.world, symbol).ok)
            else Sound(w, symbol, s.world, false)
  {
    hide RecoverExposedNeutral, RequireProtection;
    var s := RecoverExposedNeutral(v, w, symbol);
    RecoverExposedNeutralSound(v, w, symbol);
    if s.ok {
      RequireProtectionSound(s.world, symbol);
      SoundChains(w, s.world, RequireProtection(s.world, symbol).world, symbol, RequireProtection(s.world, symbol).ok);
    }
  }

  lemma DirectionalRecoverySound(w: World, symbol: string)
    requires Registered(w, symbol) && !Revives(w, symbol)
    requires HasActive(w.db, symbol) && Exposed(w.db.account.positions, symbol)
             && !w.db.campaigns[symbol].mode.NEUTRAL_GRID?
    ensures Sound(w, symbol, RequireProtection(w, symbol).world, RequireProtection(w, symbol).ok)
  {
    RequireProtectionSound(w, symbol);
  }

  lemma RecoverOneSound(v: Venue, w: World, symbol: string)
    requires Registered(w, symbol) && !Revives(w, symbol)
    ensures Sound(w, symbol, RecoverOne(v, w, symbol).world, RecoverOne(v, w, symbol).ok)
  {
    hide CleanupIfFlat, RecoverExposedNeutral, RequireProtection, Sound, Mark, Exposed;
    UntouchedSound(w, w, symbol, true);
    if HasActive(w.db, symbol) {
      CleanupSound(v, w, symbol);
      if !Exposed(w.db.account.positions, symbol) {
        if w.db.campaigns[symbol].mode.NEUTRAL_GRID? {
          MarkingSound(w, w, symbol, Active);
        }
      } else if w.db.campaigns[symbol].mode.NEUTRAL_GRID? {
        ExposedNeutralSound(v, w, symbol);
      } else {
        DirectionalRecoverySound(w, symbol);
      }
    }
  }

  /** Recovering one symbol keeps its record sound exactly when it does not revive it. */
  lemma RecoverOneSoundIff(v: Venue, w: World, symbol: string)
    requires Registered(w, symbol)
    ensures Registered(RecoverOne(v, w, symbol).world, symbol) <==> !Revives(w, symbol)
  {
    if !Revives(w, symbol) {
      RecoverOneSound(v, w, symbol);
      hide RecoverOne;
    }
  }
}
