/** What holds after every run of the paper broker. */
module PaperLedger {
  import opened Models
  import opened Market
  import opened Grid
  import opened Paper
  import opened PaperProofs
  import opened PaperRuns

  datatype Op = OpenPlan(plan: GridPlan) | Tick(state: SymbolState)

  function Apply(b: Broker, op: Op): Opened {
    match op
    case OpenPlan(plan) => OpenCampaign(b, plan)
    case Tick(state) => OnState(b, state)
  }

  /** A broker together with the plans it has opened, in order. */
  datatype Ledger = Ledger(broker: Broker, taken: seq<GridPlan>)

  function Post(l: Ledger, op: Op): Ledger {
    var r := Apply(l.broker, op);
    Ledger(r.broker, if op.OpenPlan? && r.fault.None? then l.taken + [op.plan] else l.taken)
  }

  function Run(l: Ledger, ops: seq<Op>): Ledger {
    if ops == [] then l else Post(Run(l, ops[..|ops| - 1]), ops[|ops| - 1])
  }

  function NewBroker(suppress: bool): Broker {
    Broker(map[], [], suppress, map[], map[])
  }

  /** Every plan that is opened comes from the planner. */
  ghost predicate Planned(ops: seq<Op>) {
    forall i | 0 <= i < |ops| && ops[i].OpenPlan? :: WellShaped(ops[i].plan)
  }

  function PlansFor(plans: seq<GridPlan>, symbol: string): seq<GridPlan> {
    if plans == [] then []
    else
      var front, last := PlansFor(plans[..|plans| - 1], symbol), plans[|plans| - 1];
      if last.symbol == symbol then front + [last] else front
  }

  function ClosedFor(closed: seq<PaperCampaign>, symbol: string): seq<GridPlan> {
    if closed == [] then []
    else
      var front, last := ClosedFor(closed[..|closed| - 1], symbol), closed[|closed| - 1].plan;
      if last.symbol == symbol then front + [last] else front
  }

  function OpenFor(b: Broker, symbol: string): seq<GridPlan> {
    if symbol in b.campaigns then [b.campaigns[symbol].plan] else []
  }

  /** Open campaigns are sound and keyed by their symbol, closed ones came out with the right sign. */
  ghost predicate BrokerOk(b: Broker) {
    && (forall s | s in b.campaigns :: b.campaigns[s].plan.symbol == s && CampaignOk(b.campaigns[s]))
    && (forall i | 0 <= i < |b.closed| :: ClosedOk(b.closed[i]))
  }

  /** For each symbol the plans opened so far are, in order, those closed and then the one still open, if any. */
  ghost predicate Balanced(l: Ledger) {
    forall s :: PlansFor(l.taken, s) == ClosedFor(l.broker.closed, s) + OpenFor(l.broker, s)
  }

  lemma NotedKeeps(b: Broker, symbol: string, eventMs: Option<int>)
    ensures Noted(b, symbol, eventMs).campaigns == b.campaigns && Noted(b, symbol, eventMs).closed == b.closed
    ensures Noted(b, symbol, eventMs).suppress == b.suppress
  {
  }

  /** A tick never fails; it keeps the campaign of its symbol open or files it away, and touches no other. */
  lemma TickOk(b: Broker, state: SymbolState)
    requires BrokerOk(b)
    ensures
      var r := OnState(b, state);
      && r.fault.None? && BrokerOk(r.broker) && b.closed <= r.broker.closed
      && (forall s | s != state.symbol :: s in r.broker.campaigns <==> s in b.campaigns)
      && (forall s | s != state.symbol && s in b.campaigns :: r.broker.campaigns[s] == b.campaigns[s])
      && (if state.symbol !in b.campaigns then state.symbol !in r.broker.campaigns && r.broker.closed == b.closed
          else if state.symbol in r.broker.campaigns then
            r.broker.closed == b.closed && r.broker.campaigns[state.symbol].plan == b.campaigns[state.symbol].plan
          else
            |r.broker.closed| == |b.closed| + 1
            && r.broker.closed[|b.closed|].plan == b.campaigns[state.symbol].plan)
  {
    hide OnQuote, CampaignOk, ClosedOk, Noted;
    NotedKeeps(b, state.symbol, state.lastEventTimeMs);
    if state.symbol in b.campaigns && UsableBook(state.bestBid, state.bestAsk) {
      var c := b.campaigns[state.symbol];
      OnQuoteOk(c, state.bestBid.value, state.bestAsk.value, state.lastEventTimeMs);
      OpenFlag(OnQuote(c, state.bestBid.value, state.bestAsk.value, state.lastEventTimeMs).campaign);
    }
  }

  lemma OpenFlag(c: PaperCampaign)
    ensures CampaignOk(c) ==> c.open
    ensures ClosedOk(c) ==> !c.open
  {
  }

  lemma OpenOk(b: Broker, plan: GridPlan)
    requires BrokerOk(b) && WellShaped(plan)
    ensures
      var r := OpenCampaign(b, plan);
      && BrokerOk(r.broker) && r.broker.closed == b.closed
      && (r.fault.Some? ==> r.broker == b)
      && (r.fault.None? ==> plan.symbol !in b.campaigns && plan.symbol in r.broker.campaigns
                            && r.broker == b.(campaigns := r.broker.campaigns)
                            && r.broker.campaigns == b.campaigns[plan.symbol := r.broker.campaigns[plan.symbol]]
                            && r.broker.campaigns[plan.symbol].plan == plan)
  {
    hide Prepared, CampaignOk, ClosedOk, WellShaped;
    PreparedOk(plan);
  }

  lemma TickBalanced(l: Ledger, state: SymbolState)
    requires BrokerOk(l.broker) && Balanced(l)
    ensures Balanced(Post(l, Tick(state)))
  {
    hide OnState, BrokerOk;
    var m := Post(l, Tick(state));
    TickOk(l.broker, state);
    BrokerKeyed(l.broker);
    forall s ensures PlansFor(m.taken, s) == ClosedFor(m.broker.closed, s) + OpenFor(m.broker, s) {
      if m.broker.closed != l.broker.closed {
        assert m.broker.closed[..|l.broker.closed|] == l.broker.closed;
      }
    }
  }

  lemma BrokerKeyed(b: Broker)
    requires BrokerOk(b)
    ensures forall s | s in b.campaigns :: b.campaigns[s].plan.symbol == s
  {
  }

  lemma OpenBalanced(l: Ledger, plan: GridPlan)
    requires BrokerOk(l.broker) && WellShaped(plan) && Balanced(l)
    ensures Balanced(Post(l, OpenPlan(plan)))
  {
    hide OpenCampaign, BrokerOk, WellShaped;
    var m := Post(l, OpenPlan(plan));
    OpenOk(l.broker, plan);
    if m.taken != l.taken {
      assert (l.taken + [plan])[..|l.taken|] == l.taken;
      forall s ensures PlansFor(m.taken, s) == ClosedFor(m.broker.closed, s) + OpenFor(m.broker, s) {
        assert PlansFor(l.taken, s) == ClosedFor(l.broker.closed, s) + OpenFor(l.broker, s);
      }
    }
  }

  /** After every run: each opened campaign is open or closed, once; open ones are sound; closed ones earned
      what their fills say, more than nothing at the target, less than nothing at the stop, nothing expired. */
  lemma {:induction false} RunsBalance(suppress: bool, ops: seq<Op>)
    requires Planned(ops)
    ensures
      var l := Run(Ledger(NewBroker(suppress), []), ops);
      BrokerOk(l.broker) && Balanced(l) && l.broker.suppress == suppress
  {
    hide BrokerOk, Balanced, Apply, WellShaped;
    if ops == [] {
      FreshBalanced(suppress);
    } else {
      var front, op := ops[..|ops| - 1], ops[|ops| - 1];
      assert forall i | 0 <= i < |front| :: front[i] == ops[i];
      RunsBalance(suppress, front);
      var l := Run(Ledger(NewBroker(suppress), []), front);
      PostOk(l, op);
    }
  }

  lemma PostOk(l: Ledger, op: Op)
    requires BrokerOk(l.broker) && Balanced(l) && (op.OpenPlan? ==> WellShaped(op.plan))
    ensures BrokerOk(Post(l, op).broker) && Balanced(Post(l, op)) && Post(l, op).broker.suppress == l.broker.suppress
    ensures op.Tick? ==> Apply(l.broker, op).fault.None?
  {
    hide BrokerOk, Balanced, OpenCampaign, WellShaped;
    match op
    case OpenPlan(plan) =>
      OpenOk(l.broker, plan);
      OpenBalanced(l, plan);
    case Tick(state) =>
      TickOk(l.broker, state);
      TickBalanced(l, state);
      hide OnQuote;
      SuppressKept(l.broker, state);
      hide OnState;
  }

  lemma SuppressKept(b: Broker, state: SymbolState)
    ensures OnState(b, state).broker.suppress == b.suppress
  {
    hide OnQuote;
  }

  lemma FreshBalanced(suppress: bool)
    ensures BrokerOk(NewBroker(suppress)) && Balanced(Ledger(NewBroker(suppress), []))
  {
  }

  // ---- Notional ----

  /** The plan's notional on one side that lies in levels of the given indices. */
  function AllottedIn(entries: seq<GridEntryLevel>, d: Direction, indices: set<int>): real {
    if entries == [] then 0.0
    else
      var l := entries[|entries| - 1];
      AllottedIn(entries[..|entries| - 1], d, indices)
      + if l.direction == d && l.index in indices then l.notionalUsdt else 0.0
  }

  lemma {:induction false} AllottedBound(entries: seq<GridEntryLevel>, d: Direction, indices: set<int>)
    requires forall i | 0 <= i < |entries| :: entries[i].notionalUsdt > 0.0
    ensures AllottedIn(entries, d, indices) <= Allotted(entries, d)
  {
    if entries != [] {
      AllottedBound(entries[..|entries| - 1], d, indices);
    }
  }

  lemma {:induction false} AllottedOther(entries: seq<GridEntryLevel>, d: Direction, indices: set<int>, index: int)
    requires forall i | 0 <= i < |entries| :: entries[i].index != index
    ensures AllottedIn(entries, d, indices + {index}) == AllottedIn(entries, d, indices)
  {
    if entries != [] {
      AllottedOther(entries[..|entries| - 1], d, indices, index);
    }
  }

  /** A level that is newly counted adds its notional once. */
  lemma {:induction false} AllottedGrows(entries: seq<GridEntryLevel>, d: Direction, indices: set<int>, j: nat)
    requires DistinctIndices(entries) && j < |entries| && entries[j].index !in indices && entries[j].direction == d
    ensures AllottedIn(entries, d, indices + {entries[j].index})
            == AllottedIn(entries, d, indices) + entries[j].notionalUsdt
  {
    var front, last := entries[..|entries| - 1], entries[|entries| - 1];
    assert forall i | 0 <= i < |front| :: front[i] == entries[i];
    if j == |entries| - 1 {
      AllottedOther(front, d, indices, last.index);
    } else {
      AllottedGrows(front, d, indices, j);
      assert last.index != entries[j].index;
    }
  }

  lemma {:induction false} FilledIsAllotted(p: GridPlan, d: Direction, fills: seq<PaperFill>)
    requires FillsOk(p, d, fills) && DistinctIndices(p.entries)
    ensures FilledNotional(fills) == AllottedIn(p.entries, d, FilledIndices(fills))
  {
    if fills == [] {
      NothingAllotted(p.entries, d);
      assert FilledIndices(fills) == {};
    } else {
      var front, f := fills[..|fills| - 1], fills[|fills| - 1];
      FrontFills(p, d, fills);
      FilledIsAllotted(p, d, front);
      assert FromPlan(p, d, f);
      var j :| 0 <= j < |p.entries| && FillOf(p.entries[j], f);
      AllottedGrows(p.entries, d, FilledIndices(front), j);
    }
  }

  lemma FrontFills(p: GridPlan, d: Direction, fills: seq<PaperFill>)
    requires FillsOk(p, d, fills) && fills != []
    ensures FillsOk(p, d, fills[..|fills| - 1])
    ensures fills[|fills| - 1].levelIndex !in FilledIndices(fills[..|fills| - 1])
    ensures FilledIndices(fills) == FilledIndices(fills[..|fills| - 1]) + {fills[|fills| - 1].levelIndex}
  {
    hide FromPlan;
    var front := fills[..|fills| - 1];
    forall i | 0 <= i < |front| ensures FromPlan(p, d, front[i]) {
      assert front[i] == fills[i];
    }
    assert forall i | 0 <= i < |front| :: fills[i].levelIndex == front[i].levelIndex;
  }

  lemma {:induction false} NothingAllotted(entries: seq<GridEntryLevel>, d: Direction)
    ensures AllottedIn(entries, d, {}) == 0.0
  {
    if entries != [] {
      NothingAllotted(entries[..|entries| - 1], d);
    }
  }

  /** Filled notional never exceeds the plan's total, nor half of it when the plan is two-sided. */
  lemma FilledWithinPlan(p: GridPlan, d: Direction, fills: seq<PaperFill>)
    requires WellShaped(p) && Sided(d) && FillsOk(p, d, fills) && (!p.mode.NEUTRAL_GRID? ==> p.direction == d)
    ensures FilledNotional(fills) <= if p.mode.NEUTRAL_GRID? then p.totalNotional / 2.0 else p.totalNotional
  {
    LevelsDistinct(p);
    FilledIsAllotted(p, d, fills);
    NotionalsPositive(p);
    AllottedBound(p.entries, d, FilledIndices(fills));
    hide Allotted, AllottedIn, FilledNotional, FillsOk;
  }

  function Cap(p: GridPlan): real {
    if p.mode.NEUTRAL_GRID? then p.totalNotional / 2.0 else p.totalNotional
  }

  /** Throughout a run every campaign, open or closed, has filled on one side only and within its plan. */
  lemma RunsStayWithinPlans(suppress: bool, ops: seq<Op>)
    requires Planned(ops)
    ensures
      var b := Run(Ledger(NewBroker(suppress), []), ops).broker;
      && (forall s | s in b.campaigns :: OneSided(b.campaigns[s]))
      && (forall i | 0 <= i < |b.closed| :: OneSided(b.closed[i]))
  {
    RunsBalance(suppress, ops);
    hide Run, CampaignOk, ClosedOk, OneSided;
    var b := Run(Ledger(NewBroker(suppress), []), ops).broker;
    forall s | s in b.campaigns ensures OneSided(b.campaigns[s]) {
      CampaignOneSided(b.campaigns[s]);
    }
    forall i | 0 <= i < |b.closed| ensures OneSided(b.closed[i]) {
      CampaignOneSided(b.closed[i]);
    }
  }

  /** All fills share one direction, come from distinct levels, and are worth at most the cap. */
  ghost predicate OneSided(c: PaperCampaign) {
    && (forall i, j | 0 <= i < |c.fills| && 0 <= j < |c.fills| :: c.fills[i].direction == c.fills[j].direction)
    && (forall i, j | 0 <= i < j < |c.fills| :: c.fills[i].levelIndex != c.fills[j].levelIndex)
    && FilledNotional(c.fills) <= Cap(c.plan)
  }

  lemma CampaignOneSided(c: PaperCampaign)
    requires CampaignOk(c) || ClosedOk(c)
    ensures OneSided(c)
  {
    TotalPositive(c.plan);
    if c.fills != [] {
      hide WellShaped, PerFill;
      FilledWithinPlan(c.plan, c.activeDirection.value, c.fills);
      hide FilledNotional;
      forall i | 0 <= i < |c.fills| ensures c.fills[i].direction == c.activeDirection.value {
        assert FromPlan(c.plan, c.activeDirection.value, c.fills[i]);
      }
    }
  }

  lemma TotalPositive(p: GridPlan)
    ensures WellShaped(p) ==> Cap(p) > 0.0
  {
    hide Allotted;
  }

  lemma NotionalsPositive(p: GridPlan)
    requires WellShaped(p)
    ensures forall i | 0 <= i < |p.entries| :: p.entries[i].notionalUsdt > 0.0
  {
    hide Allotted;
    forall i | 0 <= i < |p.entries| ensures p.entries[i].notionalUsdt > 0.0 {
      if p.mode.NEUTRAL_GRID? {
        assert LadderLevelOk(p.entries[i], p.referencePrice);
      }
    }
  }

  // ---- Reopening ----

  /** The symbol was just closed on event `stamp`. */
  predicate ClosedOn(b: Broker, symbol: string, stamp: Option<int>) {
    b.suppress && symbol !in b.campaigns && symbol in b.recent && b.recent[symbol].eventMs == stamp
      && LastEvent(b, symbol) == stamp
  }

  /** Every event of the symbol carries the stamp. */
  ghost predicate SameStamps(ops: seq<Op>, symbol: string, stamp: Option<int>) {
    forall i | 0 <= i < |ops| && ops[i].Tick? && ops[i].state.symbol == symbol :: ops[i].state.lastEventTimeMs == stamp
  }

  /** What a tick does to a symbol without an open campaign. */
  lemma TickElsewhere(b: Broker, state: SymbolState, symbol: string)
    requires symbol !in b.campaigns
    ensures
      var after := OnState(b, state).broker;
      && symbol !in after.campaigns && after.suppress == b.suppress
      && LastEvent(after, symbol) == (if state.symbol == symbol then state.lastEventTimeMs else LastEvent(b, symbol))
      && (symbol in after.recent <==>
          symbol in b.recent && (state.symbol == symbol ==> b.recent[symbol].eventMs == state.lastEventTimeMs))
      && (symbol in after.recent ==> after.recent[symbol] == b.recent[symbol])
  {
    hide OnQuote;
  }

  lemma OpStaysTaken(l: Ledger, symbol: string, stamp: Option<int>, op: Op)
    requires ClosedOn(l.broker, symbol, stamp)
    requires op.Tick? && op.state.symbol == symbol ==> op.state.lastEventTimeMs == stamp
    ensures ClosedOn(Post(l, op).broker, symbol, stamp)
    ensures PlansFor(Post(l, op).taken, symbol) == PlansFor(l.taken, symbol)
  {
    match op
    case Tick(state) =>
      TickElsewhere(l.broker, state, symbol);
      hide OnState;
    case OpenPlan(plan) =>
      assert (l.taken + [plan])[..|l.taken|] == l.taken;
      hide Prepared;
  }

  /** While only that stamp is seen the symbol stays taken: every opening on it is refused, whatever happens on
      other symbols. */
  lemma {:induction false} StaysTaken(l: Ledger, symbol: string, stamp: Option<int>, ops: seq<Op>)
    requires ClosedOn(l.broker, symbol, stamp) && SameStamps(ops, symbol, stamp)
    ensures ClosedOn(Run(l, ops).broker, symbol, stamp)
    ensures PlansFor(Run(l, ops).taken, symbol) == PlansFor(l.taken, symbol)
  {
    if ops != [] {
      var front, last := ops[..|ops| - 1], ops[|ops| - 1];
      assert forall i | 0 <= i < |front| :: front[i] == ops[i];
      StaysTaken(l, symbol, stamp, front);
      hide ClosedOn, Post, PlansFor;
      OpStaysTaken(Run(l, front), symbol, stamp, last);
    }
  }

  /** The symbol has no campaign, and none that was just closed. */
  predicate Free(b: Broker, symbol: string) {
    symbol !in b.campaigns && symbol !in b.recent
  }

  lemma OtherStampFrees(b: Broker, symbol: string, stamp: Option<int>, state: SymbolState)
    requires ClosedOn(b, symbol, stamp) && state.symbol == symbol && state.lastEventTimeMs != stamp
    ensures Free(OnState(b, state).broker, symbol) && ActiveCampaign(OnState(b, state).broker, symbol).None?
  {
    TickElsewhere(b, state, symbol);
    hide OnState;
  }

  lemma {:induction false} FirstOtherStamp(ops: seq<Op>, symbol: string, stamp: Option<int>) returns (k: nat)
    requires !SameStamps(ops, symbol, stamp)
    ensures k < |ops| && SameStamps(ops[..k], symbol, stamp)
    ensures ops[k].Tick? && ops[k].state.symbol == symbol && ops[k].state.lastEventTimeMs != stamp
  {
    var front := ops[..|ops| - 1];
    if SameStamps(front, symbol, stamp) {
      k := |front|;
    } else {
      k := FirstOtherStamp(front, symbol, stamp);
      assert front[..k] == ops[..k];
    }
  }

  lemma RunOneMore(l: Ledger, ops: seq<Op>, k: nat)
    requires k < |ops|
    ensures Run(l, ops[..k + 1]) == Post(Run(l, ops[..k]), ops[k])
  {
    hide Post;
    assert ops[..k + 1][..k] == ops[..k];
  }

  /** From its close on a symbol is taken without a break, over every run of quotes and openings, exactly when
      no event with another stamp is seen on it. */
  lemma TakenIffSameStamp(l: Ledger, symbol: string, stamp: Option<int>, ops: seq<Op>)
    requires ClosedOn(l.broker, symbol, stamp)
    ensures (forall k | 0 <= k <= |ops| :: ActiveCampaign(Run(l, ops[..k]).broker, symbol).Some?) <==>
              SameStamps(ops, symbol, stamp)
  {
    hide Run, OnState, Apply;
    if SameStamps(ops, symbol, stamp) {
      forall k | 0 <= k <= |ops| ensures ActiveCampaign(Run(l, ops[..k]).broker, symbol).Some? {
        StaysTaken(l, symbol, stamp, ops[..k]);
      }
    } else {
      hide ClosedOn, ActiveCampaign, SameStamps;
      var k := FirstOtherStamp(ops, symbol, stamp);
      StaysTaken(l, symbol, stamp, ops[..k]);
      RunOneMore(l, ops, k);
      TickFrees(Run(l, ops[..k]), symbol, stamp, ops[k]);
    }
  }

  lemma TickFrees(l: Ledger, symbol: string, stamp: Option<int>, op: Op)
    requires ClosedOn(l.broker, symbol, stamp)
    requires op.Tick? && op.state.symbol == symbol && op.state.lastEventTimeMs != stamp
    ensures Free(Post(l, op).broker, symbol) && ActiveCampaign(Post(l, op).broker, symbol).None?
  {
    OtherStampFrees(l.broker, symbol, stamp, op.state);
    hide OnState, ActiveCampaign;
  }

  lemma TakenGrows(l: Ledger, op: Op, symbol: string)
    ensures PlansFor(l.taken, symbol) <= PlansFor(Post(l, op).taken, symbol)
    ensures op.OpenPlan? && op.plan.symbol == symbol && Apply(l.broker, op).fault.None? ==>
              |PlansFor(l.taken, symbol)| < |PlansFor(Post(l, op).taken, symbol)|
  {
    hide Apply;
    if op.OpenPlan? {
      assert (l.taken + [op.plan])[..|l.taken|] == l.taken;
    }
  }

  lemma {:induction false} TakenGrowsOverRuns(l: Ledger, ops: seq<Op>, symbol: string)
    ensures PlansFor(l.taken, symbol) <= PlansFor(Run(l, ops).taken, symbol)
  {
    hide Post, PlansFor;
    if ops != [] {
      TakenGrowsOverRuns(l, ops[..|ops| - 1], symbol);
      TakenGrows(Run(l, ops[..|ops| - 1]), ops[|ops| - 1], symbol);
    }
  }

  lemma FreeStays(l: Ledger, symbol: string, op: Op)
    requires Free(l.broker, symbol) && PlansFor(Post(l, op).taken, symbol) == PlansFor(l.taken, symbol)
    ensures Free(Post(l, op).broker, symbol)
  {
    match op
    case Tick(state) =>
      TickElsewhere(l.broker, state, symbol);
      hide OnState;
    case OpenPlan(plan) =>
      TakenGrows(l, op, symbol);
      hide Prepared, PlansFor;
  }

  lemma {:induction false} FreeOnceOtherStamp(l: Ledger, symbol: string, stamp: Option<int>, ops: seq<Op>)
    requires ClosedOn(l.broker, symbol, stamp) && !SameStamps(ops, symbol, stamp)
    requires PlansFor(Run(l, ops).taken, symbol) == PlansFor(l.taken, symbol)
    ensures Free(Run(l, ops).broker, symbol)
  {
    hide Post, PlansFor, ClosedOn, Free;
    var front, last := ops[..|ops| - 1], ops[|ops| - 1];
    TakenGrowsOverRuns(l, front, symbol);
    TakenGrows(Run(l, front), last, symbol);
    if SameStamps(front, symbol, stamp) {
      StaysTaken(l, symbol, stamp, front);
      TickFrees(Run(l, front), symbol, stamp, last);
    } else {
      FreeOnceOtherStamp(l, symbol, stamp, front);
      FreeStays(Run(l, front), symbol, last);
    }
  }

  /** At any one moment after a close, as long as no other campaign was opened on it, the symbol is taken exactly
      when every event seen on it since carries the closing stamp; what stamp was seen last does not decide it. */
  lemma TakenNowIffSameStamp(l: Ledger, symbol: string, stamp: Option<int>, ops: seq<Op>)
    requires ClosedOn(l.broker, symbol, stamp)
    requires PlansFor(Run(l, ops).taken, symbol) == PlansFor(l.taken, symbol)
    ensures ActiveCampaign(Run(l, ops).broker, symbol).Some? <==> SameStamps(ops, symbol, stamp)
  {
    hide Run, PlansFor, SameStamps;
    if SameStamps(ops, symbol, stamp) {
      StaysTaken(l, symbol, stamp, ops);
    } else {
      FreeOnceOtherStamp(l, symbol, stamp, ops);
    }
  }

  /** So a latest stamp equal to the closing one is not enough: once stamps go back, the symbol reopens. */
  lemma ReopensWhenStampsGoBack(l: Ledger, state: SymbolState, stamp: int, plan: GridPlan)
    requires ClosedOn(l.broker, state.symbol, Some(stamp))
    requires WellShaped(plan) && plan.symbol == state.symbol && (plan.mode.NEUTRAL_GRID? || Sided(plan.direction))
    ensures
      var other, again := state.(lastEventTimeMs := Some(stamp + 1)), state.(lastEventTimeMs := Some(stamp));
      var after := Run(l, [Tick(other), Tick(again)]).broker;
      LastEvent(after, state.symbol) == Some(stamp) && OpenCampaign(after, plan).fault.None?
  {
    var other, again := state.(lastEventTimeMs := Some(stamp + 1)), state.(lastEventTimeMs := Some(stamp));
    var ops := [Tick(other), Tick(again)];
    assert ops[..1] == [Tick(other)] && [Tick(other)][..0] == [];
    assert Run(l, []) == l && Run(l, [Tick(other)]) == Post(l, Tick(other));
    var mid := OnState(l.broker, other).broker;
    TickElsewhere(l.broker, other, state.symbol);
    TickElsewhere(mid, again, state.symbol);
    PreparedOk(plan);
    hide OnState, Prepared, WellShaped, CampaignOk;
    assert Run(l, ops).broker == OnState(mid, again).broker;
  }

  /** Every close leaves the symbol taken on its own event. */
  lemma CloseTakes(b: Broker, state: SymbolState)
    requires BrokerOk(b) && b.suppress && state.symbol in b.campaigns
    requires state.symbol !in OnState(b, state).broker.campaigns
    ensures ClosedOn(OnState(b, state).broker, state.symbol, state.lastEventTimeMs)
  {
    hide OnQuote;
  }
}
