# SignalGrid in Dafny

SignalGrid is an event-driven engine for one-way USD-M futures accounts. It turns signals into bounded grid
campaigns (a starter, a finite ladder of limit orders, one STOP, one TP), keeps the account's orders, conditional
orders and positions from a user stream, and only executes while a reconciled session is live. This project models
its stateful protocols and proves what they keep.

## How it is built

Each hub has value-level functions that say what one step does, and theorems about whole runs of them. Where the
program updates objects in place, classes with those fields carry methods proved to end in exactly the state those
functions describe. What the conditions in those functions amount to is then stated once more without them, in stored
statuses, message fields, prices and sizes (`CampaignStatuses`, `UserDataFields`, `BacktestPrices` and the other files
with such names).

| part | files |
|---|---|
| shared values, the store | `Models`, `Store` |
| user stream: messages, reconciliation, sessions | `UserData`, `UserDataSafety`, `UserDataConvergence`, `UserDataFields`, `Reconciliation`, `ReconciliationFields`, `UserStream`, `GateCover`, `Transport` |
| exchange boundary and campaign executor | `Adapter`, `Campaign`, `CampaignOpening`, `NeutralOpening`, `CampaignInvariant`, `CampaignRuns`, `CampaignCleanup`, `CampaignFrame`, `CampaignRecovery`, `CampaignStatuses`, `CampaignSizing`, `CampaignExchange`, `ExchangeNumbers`, `NeutralStops`, `PartialFills`, `Executor` |
| market, signals, risk, planner | `Market`, `Signals`, `SignalNumbers`, `Grid`, `PlannerNumbers`, `Pipeline` |
| paper broker | `Paper`, `PaperProofs`, `PaperRuns`, `PaperQuotes`, `PaperLedger`, `PaperBroker` |
| backtester, walk-forward, book join | `History`, `Sorting`, `Backtest`, `BacktestRun`, `BacktestProofs`, `BacktestDecisions`, `BacktestPrices`, `BacktestTrades`, `BacktestCosts`, `Metrics`, `WalkForward`, `WalkForwardProofs`, `WalkForwardFolds`, `BookJoin` |

The exchange is an oracle: `Venue` gives an arbitrary answer to every call (accepted, not found, refused), an
arbitrary price at every moment, and may report new positions while a call is awaited; `Exchange` records resting
orders, active exits, every exit ever accepted, market orders sent and order ids issued. A call that raises has had no
effect. `Quiet` says that no report is handled while a call is awaited, which is so because the adapter's coroutines
contain no suspension point; `UniqueIds` says that the exchange names no two orders alike (an accepted order may come
without an id, and a call that creates none is answered with none). Only the theorems that need them ask for them.
Time, prices and market data are inputs. Prices and quantities are exact reals. Digests are taken as injective: a
client id, a campaign id or an event key is the value it was computed from.

## What the proofs found

- The gate: `execution_ready` is stored, and nothing resets it when a process starts, so a flag left by a killed
  process keeps the gate open until the first session begins (`UserStream.GateAlwaysJustifiedIff`).
- A listen key that expires while the recovery callback is suspended is not looked at again before the gate opens;
  the gate opens on an expired session exactly then (`UserStream.GateOpensExpiredIff`, with a run in
  `UserStream.ExpiryDuringRecoveryIsMissed`).
- Recovery of an armed neutral campaign that is found exposed returns only if the store listed both its exits as active
  before they are submitted, so it raises when they are new (`CampaignRecovery.ArmedExposureRecoversIff`, with a run in
  `UserStream.ArmedExposureHappens`).
- A neutral grid has no long stop exactly when its stop steps reach down to zero; it opens all the same, and an
  exposure on that side is then never protected (`NeutralStops.LongStopMissingIff`, `NeutralStops.WideStopOpens`,
  `NeutralStops.UnprotectableStays`).
- A neutral opening that fails once an entry has filled cancels none of the others: they keep resting, and once the
  position is sold their record is FAILED, so that no cleanup reaches them (`NeutralOpening.InterruptedLadder`, with an
  input in `PartialFills.PartialFillLeavesEntry`).
- Recovery on a halted store can make a degraded campaign active on the word of the store alone
  (`CampaignRuns.RecoverOneKeepsRecordsIff`, `CampaignRuns.RevivalHappens`).
- The dedup key of an order event leaves out the order's own transaction time (`UserDataConvergence.SharedKeyDrops`).
- The snapshot is indexed by client id, algo id and symbol, and the last row wins: a remote row stays unaccounted for
  exactly when rows under one key differ (`Reconciliation.AgreementCoversOrdersIff`, `AgreementCoversAlgosIff`,
  `AgreementCoversPositionsIff`).
- A size of at most half a cent is approved and then has no plan (`Pipeline.ApprovedHalfCentFails`).
- On bars of several symbols the join loses snapshots or attaches another symbol's book (`BookJoin.MixedNeighboursGoWrong`).
- Event stamps that go back let the paper broker reopen on the stamp that closed a campaign
  (`PaperLedger.TakenNowIffSameStamp`, `PaperLedger.ReopensWhenStampsGoBack`).

## Model

| member | source | states |
|---|---|---|
| CampaignOpening.OpenDirectionalAtomic | src/signalgrid/execution/campaign.py:213-291 | For every sequence of exchange answers a directional opening either is refused because a campaign is active (nothing changes), or places exactly the starter, a STOP at the invalidation, a TP at the target and every ladder level and ends ACTIVE, or raises with nothing sent and FAILED, or raises halted; a FAILED campaign that did send its starter has sold exactly that quantity again, and a DEGRADED one has the plan's STOP on the exchange, with no more than the TP and a first part of the ladder beside it, or holds the bare starter because its stop and the emergency close were both refused |
| CampaignOpening.LadderPlaces | src/signalgrid/execution/campaign.py:253-263 | The level loop rests a prefix of the levels, in order, each under its own client id and the exchange id it was answered with, at the tick at or below its price and in the size of its share; with the gate closed it rests nothing |
| CampaignOpening.UnprotectedStarterHalts | src/signalgrid/execution/campaign.py:270-288 | When the stop is not accepted execution is halted, and the starter is either closed in full (FAILED) or left open (DEGRADED) |
| CampaignOpening.SizedInSteps | src/signalgrid/execution/binance.py:110-113 | A sized quantity is unchanged by rounding it down again, so an emergency close is not short of the starter |
| NeutralOpening.OpenNeutralAtomic | src/signalgrid/execution/campaign.py:293-348 | For every sequence of exchange answers a neutral opening is refused, or rests every level and is ACTIVE (with both exits of the exposed side accepted at the record's prices when the store shows exposure, with none while flat), or raises halted, or raises FAILED with the exchange as before but for accepted orders that were given no id; whenever it raises the exchange holds the ladder as far as it got, what a failing installation of the exits did to it, and what the failure handler then cancelled or sold, each of them exactly |
| NeutralOpening.InterruptedLadder | src/signalgrid/execution/campaign.py:315-348 | When the ladder breaks off, all that was placed stays on the exchange while the store shows exposure, halted and whatever the record's status; on a flat store a FAILED opening leaves only orders without an id |
| NeutralOpening.FailureIsHandled | src/signalgrid/execution/campaign.py:315-348 | The failure handler cancels nothing while the store shows exposure (it sells the position and is FAILED, or is refused that and is DEGRADED) and on a flat store cancels named orders of the ladder only, all of them if it ends FAILED |
| NeutralOpening.FailingInstallation | src/signalgrid/execution/campaign.py:407-449 | A failing installation of the exits sent nothing, or sold the position for want of a stop, or left its stop, or left both exits with some entries of the other side cancelled |
| PartialFills.PartialFillLeavesEntry | src/signalgrid/execution/campaign.py:332-348 | A plan of the planner and an exchange on which an opening raises halted with one entry still resting under a FAILED record, which neither cleanup nor recovery touches |
| NeutralOpening.RollbackClears | src/signalgrid/execution/campaign.py:318-328 | A rollback that is not refused removes exactly the named orders it was given |
| NeutralOpening.ClearingUndoes | src/signalgrid/execution/campaign.py:316-330 | Removing the ladder's named orders restores the resting orders from before the ladder, plus the unnamed ones |
| NeutralOpening.NothingLeftIffNamed | src/signalgrid/execution/campaign.py:318-320 | Nothing is left behind exactly when every accepted order carried an id |
| NeutralOpening.FailedNeutralOpening | src/signalgrid/execution/campaign.py:315-348 | The failure handler halts whenever the store shows exposure or was halted; un-halted it leaves FAILED and exactly the cancelled ladder |
| NeutralOpening.InstallProtectionOutcome | src/signalgrid/execution/campaign.py:407-449 | First exposure is either activated with both exits accepted and only opposite entries gone, or halts, or is refused for want of exit prices before anything is sent |
| NeutralOpening.ClosedGateOpensNothing | src/signalgrid/execution/binance.py:377-381 | With the gate closed no attempt rests an order, buys, or places an exit; at most it reduces a position it finds |
| CampaignOpening.LadderIsOwned | src/signalgrid/execution/campaign.py:151-155 | For a plan of the planner every order the ladder rests is owned by the registered campaign, and once the whole ladder rests the campaign owns no other |
| NeutralOpening.NeutralExitsBracket | src/signalgrid/execution/campaign.py:350-359 | For a planner's neutral plan the exits of a side lie on either side of all its entries, and are missing exactly when the long stop is not positive |
| NeutralStops.LongStopMissingIff | src/signalgrid/execution/grid.py:126-157 | A planned neutral grid has no usable long stop exactly when spacing times stop steps reach the whole price; its short side always has both exits |
| NeutralStops.BoundedStopNeverMissing | src/signalgrid/execution/grid.py:36-41 | Under max_spacing_bps * neutral_stop_steps < 10000 the long stop is always there |
| NeutralStops.WideStopOpens | src/signalgrid/execution/grid.py:15-41 | A valid configuration and market for which the planner makes a grid without a long stop, and an exchange on which it opens |
| NeutralStops.UnprotectableStays | src/signalgrid/execution/campaign.py:350-359 | Once such a campaign is exposed on that side, cleanup and recovery both raise and leave the store and the exchange as they are, whatever the exchange would answer |
| CampaignRuns.RunsStaySafe | src/signalgrid/execution/campaign.py:133-199 | After every interleaving of openings, cleanups, recoveries (halted or not) and stream updates: no campaign is left OPENING, DEGRADED implies halted, every ACTIVE directional and every activated neutral campaign has had both its STOP and its TP accepted, and every named order rests under an issued id; recovery is only asked to run on a store that lists no exits of a degraded campaign the exchange has not accepted, as any un-halted store does |
| CampaignRuns.MoveKeepsSafe | src/signalgrid/execution/campaign.py:213-537 | Each single step keeps that invariant |
| CampaignRuns.RecoverOneKeepsRecordsIff | src/signalgrid/execution/campaign.py:500-537 | Recovering a symbol of a sound store leaves it sound exactly when it does not make a degraded directional campaign active on exits the store lists but the exchange never accepted from the engine |
| CampaignRuns.RevivalHappens | src/signalgrid/execution/campaign.py:527-537 | A sound halted store on which recovery does that |
| CampaignRuns.UnhaltedIsHonest | src/signalgrid/execution/campaign.py:500-537 | A sound store that is not halted never is such a one |
| CampaignRuns.RunsKeepExchange | src/signalgrid/execution/campaign.py:213-537 | After every run each named order rests under an issued id, and no id still to come is taken |
| CampaignRuns.EveryNeutralOpeningIsAtomic | src/signalgrid/execution/campaign.py:293-348 | So a neutral opening is all or nothing, or halts, wherever in a run it comes |
| CampaignExchange.OpenAdvances | src/signalgrid/execution/campaign.py:213-348 | An opening rests named orders only under ids the exchange gave out meanwhile, and forgets none |
| CampaignExchange.AdvancingIsSafe | src/signalgrid/execution/binance.py:229-285 | Such a step keeps the ids in order as long as the exchange names no two orders alike |
| CampaignRuns.ActiveNeverOverwritten | src/signalgrid/execution/campaign.py:133-136 | No step replaces the campaign of a symbol while it is in an active status; only status, direction and activation move |
| CampaignRuns.OverwriteNeedsInactivity | src/signalgrid/execution/campaign.py:129-136 | A run that keeps the symbol active throughout ends with the same campaign it began with |
| CampaignRuns.FreshIsSafe | src/signalgrid/execution/campaign.py:72-88 | An empty registry satisfies the invariant |
| CampaignInvariant.InstallProtectionSound | src/signalgrid/execution/campaign.py:407-449 | Installing protection keeps the campaign's record sound whatever the exchange answers |
| CampaignInvariant.CleanupSound | src/signalgrid/execution/campaign.py:451-498 | So does cleanup |
| CampaignInvariant.RecoverOneSound | src/signalgrid/execution/campaign.py:500-537 | So does the recovery of one symbol, halted or not, unless it revives a campaign as above |
| CampaignInvariant.RecoverOneSoundIff | src/signalgrid/execution/campaign.py:500-537 | And that is exactly when it does not |
| CampaignCleanup.CleanupExact | src/signalgrid/execution/campaign.py:466-498 | Cleanup answers true exactly when the symbol was flat at both reads and every cancel succeeded, and then the record is CLOSED and exactly the owned active orders and exits are gone; a missing order alone answers false with status and halt unchanged; a refused cancel or a reopened position halts and degrades; nothing but the campaign's own targets is ever cancelled |
| CampaignCleanup.CleanupSparesExits | src/signalgrid/execution/campaign.py:455-467 | While the store shows exposure, or the campaign is only armed, cleanup answers not-done and cancels no exit |
| CampaignCleanup.SweepAllExact | src/signalgrid/execution/campaign.py:469-484 | The two cancel loops succeed exactly when none of the needed cancels is refused, and report whether one was missing |
| CampaignCleanup.SweepOrdersExact | src/signalgrid/execution/campaign.py:471-477 | The order loop uses one answer for each owned active LIMIT with an exchange id, and removes exactly those |
| CampaignCleanup.SweepAlgosExact | src/signalgrid/execution/campaign.py:478-484 | The exit loop removes exactly the owned active STOP and TP |
| CampaignCleanup.CancelOppositeExact | src/signalgrid/execution/campaign.py:361-372 | Keeping one side cancels exactly the other side's owned active entries, and fails only when a cancel is refused |
| CampaignRecovery.RecoveryCoversEverySymbol | src/signalgrid/execution/campaign.py:500-537 | When recovery of all registered symbols returns, every active campaign with a stored position is ACTIVE and has its own STOP and TP active in the store |
| CampaignRecovery.CoverStays | src/signalgrid/execution/campaign.py:501-537 | Recovering one symbol does not uncover another |
| CampaignRecovery.ArmedExposureRecoversIff | src/signalgrid/execution/campaign.py:407-449 | Recovery of an armed neutral campaign found exposed returns exactly when its exit prices for that side are there, both triggers pass at the prices of the moments they are checked, both exits are accepted, no cancel of the other side is refused, and the store listed both exits as active before |
| CampaignRecovery.InstallProtectionIff | src/signalgrid/execution/campaign.py:407-449 | Protection is installed exactly when exit prices, triggers, acceptances and cancels are granted |
| CampaignRecovery.ArmedExposureNeverRecovers | src/signalgrid/execution/campaign.py:513-532 | So it never returns while the store does not list one of the two exits as active: those it submits itself are not listed yet |
| UserStream.ArmedExposureHappens | src/signalgrid/state/user_stream.py:194-235 | A run whose next session comes, un-halted, to recover an armed neutral campaign with a position; whatever the exchange answers, that recovery raises and the run ends halted |
| CampaignFrame.OpenCalm | src/signalgrid/execution/campaign.py:213-348 | Opening leaves the account tables alone and touches halt and gate only by halting |
| CampaignFrame.RecoveryTouches | src/signalgrid/execution/campaign.py:500-537 | Recovery of one symbol changes no other symbol's campaign, moves its own only in status, direction and activation, and lifts no halt |
| CampaignSizing.OpenedWithinApproval | src/signalgrid/execution/binance.py:217-285 | After a directional opening all quantities are step multiples at or above the minimum, limit prices are tick multiples at or below their level, and the sum of quantity times sizing price is at most the plan's notional and short of it by less than the sum of step times sizing price |
| CampaignSizing.DecisionBoundsOpening | src/signalgrid/execution/grid.py:165-173 | The same bound against the notional the risk hub approved, for a plan straight from the planner |
| Adapter.RoundDownBound | src/signalgrid/execution/binance.py:110-113 | Rounding down loses less than one step and lands on a multiple of it |
| Adapter.RoundDownOfMultiple | src/signalgrid/execution/binance.py:110-113 | Multiples are left as they are |
| Adapter.QuantityBound | src/signalgrid/execution/binance.py:217-224 | A quantity that passes the symbol rules is worth at most its notional and falls short by less than one step |
| Adapter.SafeTriggersBracket | src/signalgrid/execution/binance.py:295-311 | A stop and a target that pass the trigger check at one price lie strictly on either side of it |
| Adapter.PlaceEntry | src/signalgrid/execution/binance.py:229-254 | A market entry reaches the exchange only through an open gate, in the sized quantity, under its own client id and the id of the exchange's answer; otherwise nothing changes |
| Adapter.PlaceLimit | src/signalgrid/execution/binance.py:256-285 | The same for a resting limit entry |
| Adapter.PlaceExit | src/signalgrid/execution/binance.py:313-335 | A protective exit is either accepted under its own id or leaves the exchange as it was |
| Adapter.PlaceReduceOnly | src/signalgrid/execution/binance.py:337-361 | A reduce-only order is sent rounded down, or not at all |
| Adapter.CancelOrder | src/signalgrid/execution/binance.py:363-367 | A cancelled or missing order no longer rests; a refused cancel changes nothing |
| Adapter.CancelAlgo | src/signalgrid/execution/binance.py:369-375 | The same for a protective exit |
| Executor.BinanceRestExecutionAdapter.PlaceEntryReceipt | src/signalgrid/execution/binance.py:229-254 | The object's new state and receipt are those of the specified call |
| Executor.BinanceRestExecutionAdapter.PlaceLimitEntryReceipt | src/signalgrid/execution/binance.py:256-285 | The same |
| Executor.BinanceRestExecutionAdapter.ValidateProtectiveExit | src/signalgrid/execution/binance.py:287-311 | The same; only the moment advances |
| Executor.BinanceRestExecutionAdapter.PlaceProtectiveExit | src/signalgrid/execution/binance.py:313-335 | The same |
| Executor.BinanceRestExecutionAdapter.PlaceReduceOnlyMarket | src/signalgrid/execution/binance.py:337-361 | The same |
| Executor.BinanceRestExecutionAdapter.CancelRestingOrder | src/signalgrid/execution/binance.py:363-367 | The same |
| Executor.BinanceRestExecutionAdapter.CancelAlgoOrder | src/signalgrid/execution/binance.py:369-375 | The same |
| Executor.GridCampaignRegistry.ActiveRecord | src/signalgrid/execution/campaign.py:129-131 | Some record exactly when the symbol's campaign is active |
| Executor.GridCampaignRegistry.PrepareCampaign | src/signalgrid/execution/campaign.py:133-171 | Refuses an active symbol and changes nothing then; otherwise registers the new record and touches no other |
| Executor.GridCampaignRegistry.SetStatus | src/signalgrid/execution/campaign.py:173-181 | Only the status of that symbol's record changes |
| Executor.GridCampaignRegistry.ActivateNeutralCampaign | src/signalgrid/execution/campaign.py:183-199 | Activates a registered neutral campaign, and refuses any other |
| Executor.GridCampaignExecutor.Open | src/signalgrid/execution/campaign.py:213-216 | The step-by-step opening ends in the store, exchange and outcome of its specification |
| Executor.GridCampaignExecutor.OpenOneSided | src/signalgrid/execution/campaign.py:218-291 | The same for directional plans |
| Executor.GridCampaignExecutor.Protect | src/signalgrid/execution/campaign.py:249-291 | The same from the filled starter on |
| Executor.GridCampaignExecutor.PlaceLevels | src/signalgrid/execution/campaign.py:253-263 | The placement loop equals the specified ladder |
| Executor.GridCampaignExecutor.OpenTwoSided | src/signalgrid/execution/campaign.py:293-348 | The same for neutral plans |
| Executor.GridCampaignExecutor.UndoNeutral | src/signalgrid/execution/campaign.py:315-348 | The failure handler equals its specification |
| Executor.GridCampaignExecutor.CancelPlaced | src/signalgrid/execution/campaign.py:318-328 | The rollback loop equals the specified rollback |
| Executor.GridCampaignExecutor.CancelOppositeEntries | src/signalgrid/execution/campaign.py:361-372 | The loop over the other side's entries equals its specification |
| Executor.GridCampaignExecutor.ActivateExposure | src/signalgrid/execution/campaign.py:390-405 | Activation equals its specification |
| Executor.GridCampaignExecutor.InstallExits | src/signalgrid/execution/campaign.py:407-449 | Installing both exits equals its specification |
| Executor.GridCampaignExecutor.CompleteExits | src/signalgrid/execution/campaign.py:428-449 | So does what follows the accepted stop |
| Executor.GridCampaignExecutor.PlaceCheckedStop | src/signalgrid/execution/campaign.py:424-427 | So does the doubly checked stop |
| Executor.GridCampaignExecutor.CleanUpIfFlat | src/signalgrid/execution/campaign.py:451-498 | Cleanup equals its specification |
| Executor.GridCampaignExecutor.SweepFlat | src/signalgrid/execution/campaign.py:469-498 | So does the sweep of a flat campaign |
| Executor.GridCampaignExecutor.SweepLimits | src/signalgrid/execution/campaign.py:471-477 | So does its order loop |
| Executor.GridCampaignExecutor.SweepExits | src/signalgrid/execution/campaign.py:478-484 | So does its exit loop |
| Executor.GridCampaignExecutor.RecoverAfterReconciliation | src/signalgrid/execution/campaign.py:500-537 | The recovery loop equals its specification |
| Executor.GridCampaignExecutor.RecoverSymbol | src/signalgrid/execution/campaign.py:502-537 | So does the recovery of one symbol |
| Executor.GridCampaignExecutor.RecoverNeutral | src/signalgrid/execution/campaign.py:513-521 | So does its neutral branch |
| Executor.GridCampaignExecutor.CheckProtection | src/signalgrid/execution/campaign.py:527-537 | So does the check of the stored exits |
| UserStream.GateAlwaysJustifiedIff | src/signalgrid/state/user_stream.py:154-261 | For every interleaving of sessions, reconnects, events, late events of earlier streams, failures and executor steps, execution is ready only in a live session whose snapshot agreed with the store, whose tables are that store plus every message processed since in order, among them each message of its own stream exactly once, and whose recovery returned, never while halted: this holds in all states of all runs if and only if the store was not left ready by an earlier process |
| UserStream.JustifiedOnceBegun | src/signalgrid/state/user_stream.py:160-160 | Once the first session has begun it holds from there on, whatever the store was left with |
| UserStream.GateOpensCovered | src/signalgrid/state/user_stream.py:220-235 | The gate opens only as recovery returns, and at that instant every active campaign with a stored position has its own STOP and TP active in the store |
| UserStream.GateOpensExpiredIff | src/signalgrid/state/user_stream.py:207-235 | The gate opens on a session whose listen key has expired exactly when its own stream said so after the drain |
| UserStream.ExpiryDuringRecoveryIsMissed | src/signalgrid/state/user_stream.py:216-235 | A concrete run in which the listen key expires while the recovery callback is suspended: the gate opens although the session is expired |
| UserStream.DrainIsAfter | src/signalgrid/state/user_stream.py:207-212 | The drain leaves the tables as if every buffered message had been handled once in order, and opens nothing |
| UserStream.NextSound | src/signalgrid/state/user_stream.py:120-274 | Every step, a late message of an earlier stream in any phase included, keeps the account tables in step with the session's basis and the messages processed |
| UserStream.MessageNeverOpens | src/signalgrid/state/user_data.py:96-127 | No message ever opens the gate, lifts a halt or touches a campaign |
| UserStream.OnlyExpiryReconnects | src/signalgrid/state/user_data.py:115-118 | A reconnect is asked for exactly by a listen-key expiry |
| Transport.BinanceUserStreamTransport.BeginSession | src/signalgrid/state/user_stream.py:128-172 | The object's new state is that of the specified step |
| Transport.BinanceUserStreamTransport.AttachStream | src/signalgrid/state/user_stream.py:190-193 | The same |
| Transport.BinanceUserStreamTransport.Dispatch | src/signalgrid/state/user_stream.py:175-184 | The same: buffered before the drain, processed at once after it |
| Transport.BinanceUserStreamTransport.DispatchLate | src/signalgrid/state/user_stream.py:175-184 | The handler of an earlier stream processes at once, in whatever phase the present session is |
| Transport.BinanceUserStreamTransport.ReconcileAndDrain | src/signalgrid/state/user_stream.py:205-218 | The same |
| Transport.BinanceUserStreamTransport.LeaveOrRecover | src/signalgrid/state/user_stream.py:213-220 | What the drained store decides equals the specified step |
| Transport.BinanceUserStreamTransport.DrainBuffer | src/signalgrid/state/user_stream.py:207-212 | The loop over the buffer equals the specified drain |
| Transport.BinanceUserStreamTransport.RecoverAndOpenGate | src/signalgrid/state/user_stream.py:220-235 | The same |
| Transport.BinanceUserStreamTransport.CloseSession | src/signalgrid/state/user_stream.py:258-261 | Every way out closes the gate |
| UserDataConvergence.ConvergesToLatest | src/signalgrid/state/user_data.py:146-202 | For order and algo lifecycles with distinct positive stamps and coherent identity, fill and status, every delivery with duplicates and in any order that mentions each row ends with the latest delivered event as that row, and never halts |
| UserDataConvergence.DeliveryOrderIrrelevant | src/signalgrid/state/user_data.py:214-276 | Two deliveries of the same messages end with the same order and algo tables |
| UserDataConvergence.DeliveriesTrack | src/signalgrid/state/user_data.py:146-276 | Each single delivery keeps every row at the latest event seen so far |
| UserDataConvergence.ConvergenceIffKeysFaithful | src/signalgrid/state/user_data.py:186-200 | Coherent lifecycles converge under every delivery if and only if no two different events share a dedup key |
| UserDataConvergence.SharedKeyDrops | src/signalgrid/state/user_data.py:186-200 | The dedup key leaves out the order's own stamp: two events that differ only there are one to the store, and the later one is dropped |
| UserDataSafety.OrderHistory | src/signalgrid/state/user_data.py:167-201 | Over every message sequence a stored order keeps its identity, its filled quantity never falls, and a terminal status never changes |
| UserDataSafety.AlgoHistory | src/signalgrid/state/user_data.py:236-275 | A stored algo keeps its identity, stays in a final status, and leaves TRIGGERED only to FINISHED |
| UserDataSafety.OrderConflictHalts | src/signalgrid/state/user_data.py:167-182 | An event that would break a stored order halts or is dropped as stale; no table changes either way |
| UserDataSafety.AlgoConflictHalts | src/signalgrid/state/user_data.py:236-258 | The same for algos |
| UserDataSafety.ForeignClientIdIsIntegrityError | src/signalgrid/state/store.py:208-241 | A known exchange id under a new client id marks the event and leaves every row as it was |
| UserDataSafety.EventsOnlyGrow | src/signalgrid/state/store.py:334-343 | Marked events stay marked |
| UserDataSafety.RedeliveryChangesNothing | src/signalgrid/state/store.py:334-343 | Once a message has changed the store, delivering it again at any later point changes no table |
| UserDataSafety.ReportIsTakenOver | src/signalgrid/state/user_data.py:289-312 | A one-way report that names no symbol twice is taken over whole: each reported symbol shows its side, size and value or is gone when flat, unless its row is newer, and no other symbol moves |
| UserData.AccountNeverRaises | src/signalgrid/state/user_data.py:278-312 | An account event touches positions and its own key only, and never fails on a unique index |
| UserData.BinanceUserDataProcessor.OnMessageReceived | src/signalgrid/state/user_data.py:96-127 | The object's new store, result and error are those of the specified handler |
| UserData.BinanceUserDataProcessor.OnOrderUpdate | src/signalgrid/state/user_data.py:129-202 | The same for order events |
| UserData.BinanceUserDataProcessor.CommitOrder | src/signalgrid/state/user_data.py:186-202 | The same for the dedup mark and the row |
| UserData.BinanceUserDataProcessor.OnAlgoUpdate | src/signalgrid/state/user_data.py:204-276 | The same for algo events |
| UserData.BinanceUserDataProcessor.CommitAlgo | src/signalgrid/state/user_data.py:262-276 | The same for the dedup mark and the row |
| UserData.BinanceUserDataProcessor.OnAccountUpdate | src/signalgrid/state/user_data.py:278-312 | The same for account events |
| UserData.BinanceUserDataProcessor.ApplyReported | src/signalgrid/state/user_data.py:299-311 | One reported position: stale ignored, flat deleted, otherwise replaced |
| Store.StateStore.UpsertOrder | src/signalgrid/state/store.py:208-241 | A row the unique exchange-id index rejects leaves the table as it was |
| Store.StateStore.UpsertAlgoOrder | src/signalgrid/state/store.py:270-305 | The same for algos |
| Store.StateStore.MarkEventOnce | src/signalgrid/state/store.py:334-343 | True exactly the first time; afterwards marked |
| Store.StateStore.SetExecutionReady | src/signalgrid/state/store.py:357-358 | Only the ready flag changes |
| Store.StateStore.HaltFor | src/signalgrid/state/store.py:363-366 | Halting closes the gate |
| Store.StateStore.Resume | src/signalgrid/state/store.py:374-377 | Lifting a halt never opens the gate |
| Store.OrderByExchangeId | src/signalgrid/state/store.py:250-255 | The one row carrying the id, or none when no row does |
| Store.AlgoByAlgoId | src/signalgrid/state/store.py:314-319 | The same for algos |
| Reconciliation.AgreesIffNoProblem | src/signalgrid/state/reconciliation.py:276-322 | The comparison is empty exactly when both sides have the same active keys with agreeing fields, apart from the two coded exemptions |
| Reconciliation.OrderMatchesIff | src/signalgrid/state/reconciliation.py:325-341 | Two order rows match exactly when no listed field differs |
| Reconciliation.AlgoMatchesIff | src/signalgrid/state/reconciliation.py:344-368 | The same for algos, with the quantity and generated-order exemptions |
| Reconciliation.PositionMatchesIff | src/signalgrid/state/reconciliation.py:316-321 | The same for positions |
| Reconciliation.AgreementCoversOrdersIff | src/signalgrid/state/reconciliation.py:277-294 | An agreeing snapshot leaves no remote order unaccounted for exactly when no two of its rows under one id differ in one of the eight compared fields |
| Reconciliation.AgreementCoversAlgosIff | src/signalgrid/state/reconciliation.py:279-305 | The same for conditional orders, with one exemption: a row may not name an actual order other than the stored one either |
| Reconciliation.AgreementCoversPositionsIff | src/signalgrid/state/reconciliation.py:281-321 | The same for positions: exactly when no two rows for one symbol differ |
| Reconciliation.AgreementCoversEveryRemoteOrder | src/signalgrid/state/reconciliation.py:277-294 | With distinct ids an agreeing snapshot leaves no remote order unaccounted for |
| Reconciliation.DuplicateIdMasksRemoteOrder | src/signalgrid/state/reconciliation.py:278-278 | Without distinct ids it can: a second row under one id hides a first one that differs from it in any compared field |
| Reconciliation.CompareOrder | src/signalgrid/state/reconciliation.py:325-341 | Reports exactly the differing fields |
| Reconciliation.CompareAlgo | src/signalgrid/state/reconciliation.py:344-368 | The same for algos |
| Reconciliation.CompareOrders | src/signalgrid/state/reconciliation.py:285-294 | Reports exactly the order problems of all keys on either side |
| Reconciliation.CompareAlgos | src/signalgrid/state/reconciliation.py:296-305 | The same for algos |
| Reconciliation.ComparePositions | src/signalgrid/state/reconciliation.py:307-321 | The same for positions |
| Reconciliation.AccountReconciler.Compare | src/signalgrid/state/reconciliation.py:276-322 | Every reported mismatch is real and every real one is reported |
| Reconciliation.AccountReconciler.ReconcileSnapshot | src/signalgrid/state/reconciliation.py:252-274 | Halts on any disagreement, refuses a halted store, and leaves the gate as asked only on agreement |
| BacktestProofs.NoLookAhead | src/signalgrid/backtest/engine.py:182-247 | For any evaluator of the symbol state and any later bars, the trades the rules closed on the earlier bars are a prefix of the longer run's trades, prices included |
| BacktestProofs.TrackIgnoresLater | src/signalgrid/backtest/engine.py:182-247 | The loop's state after k bars does not depend on later bars, but for the signal of the last bar |
| BacktestProofs.TradesAreDisjoint | src/signalgrid/backtest/engine.py:182-266 | Trades never overlap, each is entered on the bar right after its signal's, held one to the allowed number of bars, and all together hold at most all bars but the first |
| BacktestProofs.ResultBalances | src/signalgrid/backtest/engine.py:130-145 | Reported net equals gross less fees less funding, and the reported drawdown is the largest relative drop from the running peak |
| BacktestDecisions.TradesAreJustified | src/signalgrid/backtest/engine.py:184-247 | Each trade follows the evaluator's signal over the bars before its entry, passed the entry check, was called out by no earlier bar, and left at the price and for the reason of the first exit; a forced close was never called out |
| BacktestDecisions.StateIsHistory | src/signalgrid/backtest/engine.py:236-245 | The evaluator sees the last 256 completed bars and the flow, book and time of the last one |
| BacktestDecisions.FundingAdds | src/signalgrid/backtest/engine.py:93-96 | Funding over adjoining periods adds up: no point is charged twice or missed |
| BacktestCosts.CostsOnlyCost | src/signalgrid/backtest/engine.py:192-232 | With positive prices, runs that differ only in fee, spread and slippage make the same trades, and higher costs leave no trade and no total better off |
| BacktestCosts.TradeNoBetter | src/signalgrid/backtest/engine.py:81-96 | For one trade: friction below one and a fee rate of at most one, no cheaper costs give no better net |
| BacktestCosts.ExitsStayPositive | src/signalgrid/backtest/engine.py:99-112 | Exit prices of a run over positive prices are positive |
| BacktestRun.RunBacktest | src/signalgrid/backtest/engine.py:148-268 | The run with its checks equals its specification, errors included |
| BacktestRun.Simulate | src/signalgrid/backtest/engine.py:174-266 | The loop equals the specified decisions, priced; it fails exactly when some entry price is zero |
| BacktestRun.FillsGrow | src/signalgrid/backtest/engine.py:216-233 | Trades are only added, and an open position stays or becomes the next trade |
| Metrics.MetricsFromTrades | src/signalgrid/backtest/engine.py:115-145 | All figures equal their definitions over the trades |
| Metrics.MaxDrawdown | src/signalgrid/backtest/engine.py:122-129 | The one-pass loop computes the drawdown figure |
| Metrics.MaxDropIsLargest | src/signalgrid/backtest/engine.py:122-129 | That figure is the maximum over all positions of the relative drop from the running peak |
| Metrics.PeakIsHighest | src/signalgrid/backtest/engine.py:126-127 | The running peak is an equity the account had, and none before was higher |
| Metrics.NetIsGrossLessCosts | src/signalgrid/backtest/engine.py:130-135 | Totals of trades that balance balance |
| Metrics.Total | src/signalgrid/backtest/engine.py:119-134 | A sum over the trades |
| Metrics.Count | src/signalgrid/backtest/engine.py:117-118 | A count over the trades |
| WalkForward.RunWalkForward | src/signalgrid/backtest/walkforward.py:40-98 | The fold loop terminates with the closed-form number of folds and equals its specification, errors included |
| WalkForward.FoldsFit | src/signalgrid/backtest/walkforward.py:62-62 | The closed form counts exactly the starts at which a fold fits |
| WalkForward.RankCandidates | src/signalgrid/backtest/walkforward.py:67-71 | The ranking loop equals its specification |
| WalkForward.PickBest | src/signalgrid/backtest/walkforward.py:78-79 | The greatest of the ranked candidates |
| WalkForward.RunOneFold | src/signalgrid/backtest/walkforward.py:63-95 | One fold equals its specification |
| WalkForwardProofs.SelectionIsMaximal | src/signalgrid/backtest/walkforward.py:67-79 | The selected candidate qualifies on the training bars and no qualifying candidate beats it by expectancy, net and index; none is selected exactly when none qualifies |
| WalkForwardProofs.SelectionIgnoresTest | src/signalgrid/backtest/walkforward.py:65-79 | Bars at or after the end of training have no say in the selection |
| WalkForwardProofs.FoldIsLaid | src/signalgrid/backtest/walkforward.py:80-90 | A fold's out-of-sample trades lie inside its test bars and do not overlap |
| WalkForwardProofs.OutOfSampleDisjoint | src/signalgrid/backtest/walkforward.py:55-98 | With a step of at least the test size the out-of-sample trades of the whole walk never overlap |
| WalkForwardProofs.LaterBarsOnlyAppend | src/signalgrid/backtest/walkforward.py:55-98 | Appending later bars only appends folds and trades |
| Grid.PlansAreWellShaped | src/signalgrid/execution/grid.py:98-188 | Every plan has its starter at the reference, its levels strictly on the losing side, its exits on either side, distinct level indices, and notionals that add up to the approved total, half a side when neutral |
| Grid.BuildGridPlan | src/signalgrid/execution/grid.py:98-188 | The planner equals its specification, error by error |
| Grid.BuildNeutral | src/signalgrid/execution/grid.py:126-157 | So does its neutral loop |
| Grid.BuildDirectional | src/signalgrid/execution/grid.py:165-188 | So does its directional loop |
| Grid.DirectionalAllotment | src/signalgrid/execution/grid.py:165-173 | Starter and limits together are the whole notional |
| Grid.NeutralAllotment | src/signalgrid/execution/grid.py:127-136 | Each side carries half of it |
| Grid.SpacingBps | src/signalgrid/execution/grid.py:119-122 | The spacing is positive and within its upper bound |
| Pipeline.DirectionalPipeline | src/signalgrid/signals/engine.py:78-125 | A directional signal the risk hub approves becomes a plan if and only if leverage, the size above half a cent, the event stamp and the deepest long level allow it; no other planner fault is reachable |
| Pipeline.DirectionalSignalFacts | src/signalgrid/signals/engine.py:80-125 | An emitted directional signal has a positive NATR, a reference price and an invalidation on the right side of it |
| Pipeline.BoundedSpacingNeverRunsOut | src/signalgrid/execution/grid.py:119-122 | Under (entry_levels - 1) * max_spacing_bps < 10000 the deepest level stays positive |
| Pipeline.LadderExhaustion | src/signalgrid/execution/grid.py:169-172 | A long ladder runs out exactly when its deepest level does; a short one never does |
| Pipeline.ApprovedHalfCentFails | src/signalgrid/risk/engine.py:34-38 | A size of at most half a cent is approved, rounds to nothing, and has no plan |
| Pipeline.CentsPositiveIff | src/signalgrid/risk/engine.py:38-38 | Rounding to cents keeps a size positive exactly above half a cent |
| Signals.ExpansionImpliesNatr | src/signalgrid/signals/volatility.py:14-29 | Short-window expansion forces a positive NATR |
| Signals.StructureMeans | src/signalgrid/signals/structure.py:11-26 | A breakout is a close beyond every bar of the lookback, a failed one reaches beyond them all and closes back inside, anything else has no direction; the invalidation is the level left behind |
| Signals.StrengthBounds | src/signalgrid/signals/engine.py:52-119 | Every signal's strength lies between zero and one, rounding included |
| Signals.ComputeTrueRanges | src/signalgrid/signals/volatility.py:4-12 | The loop computes the true ranges |
| PaperLedger.RunsBalance | src/signalgrid/execution/paper.py:64-238 | After every run over the planner's plans: for each symbol the plans opened are, in order, those closed and the one open; open campaigns are sound; TAKE_PROFIT closes earn, STOP closes lose, EXPIRED closes have no fills and zero profit |
| PaperLedger.RunsStayWithinPlans | src/signalgrid/execution/paper.py:34-52 | Throughout a run each campaign fills on one side only, no level twice, and at most its plan's total, half of it when neutral |
| PaperLedger.TickOk | src/signalgrid/execution/paper.py:81-125 | No tick on such a broker ever fails; it touches only its own symbol's campaign |
| PaperLedger.TakenIffSameStamp | src/signalgrid/execution/paper.py:196-207 | From its close on a symbol is taken without a break, over every run of quotes and openings on any symbol, exactly when no event with another stamp is seen on it |
| PaperLedger.TakenNowIffSameStamp | src/signalgrid/execution/paper.py:196-207 | At any one moment after the close, while no other campaign was opened on it, the symbol is taken exactly when every event seen on it since carries the closing stamp |
| PaperLedger.StaysTaken | src/signalgrid/execution/paper.py:81-125 | And while it is, every opening on it is refused |
| PaperLedger.OtherStampFrees | src/signalgrid/execution/paper.py:85-87 | The first event with another stamp frees it |
| PaperLedger.ReopensWhenStampsGoBack | src/signalgrid/execution/paper.py:85-87 | So a latest stamp equal to the closing one is not enough: once stamps go back any plan of the planner with a side opens |
| PaperLedger.CloseTakes | src/signalgrid/execution/paper.py:235-236 | Every close leaves the symbol taken on its own event |
| PaperLedger.FilledWithinPlan | src/signalgrid/execution/grid.py:126-174 | Distinct levels of one side never add up to more than the side was allotted |
| PaperRuns.OnQuoteOk | src/signalgrid/execution/paper.py:98-184 | No quote with bid at most ask ever fails on a planner's campaign: fills stay on one side, between stop and target, and closes have the right sign |
| PaperRuns.OneSideTouched | src/signalgrid/execution/paper.py:127-141 | One quote never touches both sides of a neutral plan, so the ambiguous fill is unreachable |
| PaperRuns.PreparedOk | src/signalgrid/execution/paper.py:64-79 | A planner's plan opens with its starter filled or armed with nothing filled, and fails only for want of a direction |
| PaperProofs.FillReachedOk | src/signalgrid/execution/paper.py:118-125 | With the exits not hit the fill loop never fails, fills no level twice and none at or beyond the stop |
| PaperProofs.CloseOk | src/signalgrid/execution/paper.py:223-234 | At the target a position earns, at the stop it loses |
| PaperProofs.RealizedIsPerFill | src/signalgrid/execution/paper.py:223-229 | The average-entry formula is the sum over the fills |
| PaperBroker.GridCampaign.FillLevel | src/signalgrid/execution/paper.py:209-221 | The object's new fields are those of the specified fill |
| PaperBroker.GridCampaign.FillReachedLevels | src/signalgrid/execution/paper.py:118-124 | The loop equals the specified fills |
| PaperBroker.GridCampaign.FillFirstTouch | src/signalgrid/execution/paper.py:127-145 | The same for the first touch |
| PaperBroker.GridCampaign.FillLevels | src/signalgrid/execution/paper.py:143-145 | The same for its loop |
| PaperBroker.GridCampaign.CloseAt | src/signalgrid/execution/paper.py:223-232 | The same for a close |
| PaperBroker.GridCampaign.ManagePosition | src/signalgrid/execution/paper.py:107-125 | The same for exits and further fills |
| PaperBroker.GridCampaign.ManageNeutralPosition | src/signalgrid/execution/paper.py:147-184 | The same for a neutral side |
| PaperBroker.GridCampaign.Quote | src/signalgrid/execution/paper.py:98-125 | The same for a whole quote |
| PaperBroker.PaperGridBroker.Taken | src/signalgrid/execution/paper.py:196-207 | True exactly when the symbol is taken |
| PaperBroker.PaperGridBroker.Open | src/signalgrid/execution/paper.py:64-79 | The broker's new value is that of the specified opening; no other campaign object changes |
| PaperBroker.PaperGridBroker.OnEvent | src/signalgrid/execution/paper.py:81-125 | The same for a tick |
| PaperBroker.PaperGridBroker.Note | src/signalgrid/execution/paper.py:83-87 | The stamp is noted and a different one frees the symbol |
| PaperBroker.PaperGridBroker.FileAway | src/signalgrid/execution/paper.py:233-238 | A closed campaign leaves the open ones and joins the closed ones |
| BookJoin.AsOfIffSeparated | src/signalgrid/backtest/data.py:148-175 | The join gives each bar exactly the latest same-symbol snapshot at or before its close, if fresh, for all snapshots, if and only if neighbouring bars of different symbols close further apart than a snapshot may be old |
| BookJoin.SingleSymbolJoins | src/signalgrid/backtest/data.py:148-175 | Bars of one symbol always get that join; their number is kept and they come ordered by close |
| BookJoin.MixedNeighboursGoWrong | src/signalgrid/backtest/data.py:160-164 | Two near neighbours of different symbols and a snapshot that is then lost or lands on the wrong bar |
| BookJoin.FutureSnapshotsIgnored | src/signalgrid/backtest/data.py:148-164 | Snapshots after a bar's close never affect it, wherever they stand in the input and whatever the bars: the choice is the one among the snapshots at or before it |
| BookJoin.SameUpToSameChoice | src/signalgrid/backtest/data.py:148-164 | Two inputs that differ only in later snapshots give a bar the same book |
| BookJoin.LatestIsNewest | src/signalgrid/backtest/data.py:162-163 | The chosen snapshot is the newest of its symbol at or before the time |
| BookJoin.AttachBookSnapshots | src/signalgrid/backtest/data.py:148-175 | The two-cursor loop equals its closed description |
| BookJoin.Advance | src/signalgrid/backtest/data.py:161-164 | The inner loop consumes exactly the snapshots up to the bar's close |
| Market.FlowIsLatestBucket | src/signalgrid/market/state.py:33-43 | After any non-empty trade sequence the two totals are the sums over the trades of the latest bucket seen |
| Market.FlowIgnoresArrivalOrder | src/signalgrid/market/state.py:33-43 | So they do not depend on the order the trades arrived in |
| Market.SymbolFeed.AddTakerTrade | src/signalgrid/market/state.py:33-43 | The fields change as the specified step |
| Market.SymbolFeed.AddBar | src/signalgrid/market/state.py:26-27 | The oldest of 256 bars makes room |
| Market.SymbolFeed.ResetFlowWindow | src/signalgrid/market/state.py:29-31 | Both totals are zero |
| CampaignStatuses.RecoveredExposureIsProtected | src/signalgrid/execution/campaign.py:527-537 | When recovery of all registered symbols returns, every open campaign with a stored position of some size is ACTIVE and both its exits are stored as NEW, WORKING or PENDING |
| CampaignStatuses.OneSidedRecoversIff | src/signalgrid/execution/campaign.py:523-537 | A one-sided campaign with a position recovers exactly when both its exits are stored with one of these statuses; otherwise it is DEGRADED, execution halts, and the reason names the stop first, then the target; exchange, account and other campaigns stay |
| CampaignStatuses.ActivatedNeutralRecoversIff | src/signalgrid/execution/campaign.py:515-537 | An activated neutral campaign with a position recovers exactly when the position is on its side, no cancel of the other side is refused and both exits have one of these statuses; a position on the other side halts |
| CampaignStatuses.MissingExitStopsRecovery | src/signalgrid/execution/campaign.py:500-537 | While one of the two exits of a position is missing or stored with another status, no recovery that visits the symbol returns, whatever it recovers before and whatever the exchange answers |
| CampaignStatuses.FlatRecovers | src/signalgrid/execution/campaign.py:502-525 | Without a position an armed campaign is made ACTIVE, any other open one is cleaned up, and one that is not open is left alone |
| CampaignStatuses.CleanupRemoves | src/signalgrid/execution/campaign.py:469-484 | When cleanup of a flat campaign answers, exactly its resting limits stored as NEW, PARTIALLY_FILLED or PENDING_CANCEL under their exchange id are gone, and exactly those of its two exits stored as NEW, WORKING or PENDING; whatever the answer, nothing else is |
| CampaignStatuses.OtherSideRemoved | src/signalgrid/execution/campaign.py:361-372 | When the other side of a ladder was cancelled, exactly its own entries with an exchange id are gone that are stored as NEW, PARTIALLY_FILLED or PENDING_CANCEL on a side other than BUY for a long position, other than SELL for a short one |
| GateCover.GateOpensProtected | src/signalgrid/state/user_stream.py:220-235 | At the instant the gate opens every open campaign with a position is ACTIVE and both its exits are stored as NEW, WORKING or PENDING |
| GateCover.MissingExitEndsHalted | src/signalgrid/state/user_stream.py:220-235 | A session that comes to recover a position one of whose exits is missing or stored with another status ends halted with the gate shut |
| UserDataFields.HistoriesConverge | src/signalgrid/state/user_data.py:129-202 | Order and algo events that agree in their identifying fields, with fills that never go back, final statuses that stay and distinct positive stamps, delivered in any order and any number of times, never halt; each order ends with the symbol, side, status, type, quantities, average price, reduce-only flag, trade id and stamp of its newest event, each algo with those of its own, a stamp being the first non-zero of the order's T, T and E |
| UserDataFields.HistoriesConvergeIff | src/signalgrid/state/user_data.py:186-200 | For orders that is so under every delivery exactly when no two different events agree in E, T, i, c, x, X, z and t |
| UserDataFields.OrderHaltsIff | src/signalgrid/state/user_data.py:136-182 | An order event halts exactly on a hedged account, for a forced close, without a client id, for an order neither stored nor the engine's own, or when it differs from the stored row in one of six fields or, not being older, takes back fills or leaves FILLED, CANCELED, EXPIRED, REJECTED or EXPIRED_IN_MATCH; no table changes then |
| UserDataFields.AlgoHaltsIff | src/signalgrid/state/user_data.py:210-258 | The same for algo events and their fields: FINISHED, CANCELED, EXPIRED, REJECTED and FAILED stay, TRIGGERED only becomes FINISHED |
| UserDataFields.OrderIsWrittenIff | src/signalgrid/state/user_data.py:167-202 | An order event that does not halt is written exactly when it is not older than its row, differs from it, has an unknown digest and no other row holds its exchange id; its row then shows each of its fields, its digest is known, and nothing else moves |
| UserDataFields.AlgoIsWrittenIff | src/signalgrid/state/user_data.py:236-276 | The same for algo events |
| UserDataFields.OrderHaltReasons | src/signalgrid/state/user_data.py:140-182 | The reason an order event halts for names the first of the checks that fails |
| UserDataFields.AlgoHaltReasons | src/signalgrid/state/user_data.py:212-258 | The same for algo events |
| UserDataFields.OrderRowLasts | src/signalgrid/state/user_data.py:167-182 | Over every run of messages a stored order keeps its client id, exchange id, symbol, side, type, quantity and reduce-only flag, its fill never falls, and a final status stays |
| UserDataFields.AlgoRowLasts | src/signalgrid/state/user_data.py:236-258 | A stored algo keeps its identifying fields, its quantity unless it closes the whole position, and its final status; from TRIGGERED it only comes to FINISHED |
| UserDataFields.ReportIsShown | src/signalgrid/state/user_data.py:278-312 | A new report of one-way positions is taken over whole: LONG or SHORT by the sign of the amount, with size, entry price, value and the first non-zero of T and E; a zero amount removes the row, an older report leaves it, and no other symbol moves |
| UserDataFields.ReportHaltsIff | src/signalgrid/state/user_data.py:286-298 | A report halts exactly when it is new and names a position that is not one-way |
| UserDataSafety.ReportHaltsIff | src/signalgrid/state/user_data.py:290-298 | The loop over reported positions halts exactly then |
| BacktestPrices.TradesOnPrices | src/signalgrid/backtest/engine.py:182-266 | Every trade is entered at an open inside the window and strictly clear of the invalidation, runs on while each bar trades clear of it (low above it for a long, high below it for a short) and leaves it time, and is left on the first bar that does not: at the invalidation, else at the close for the holding limit, else at the close for the end of the window, else at the last close |
| BacktestPrices.EntriesExact | src/signalgrid/backtest/engine.py:182-247 | A trade is entered at a bar exactly when none is on across it, the evaluator's signal after the bar before has a side, and the bar opens inside the window and clear of the invalidation: no signal is missed |
| BacktestTrades.StateOnBars | src/signalgrid/backtest/engine.py:236-245 | The evaluator sees the last bars, at most 256, field by field and oldest first, and of the last one its flow, its book with missing depths as zero, and its times |
| BacktestTrades.FundingCounts | src/signalgrid/backtest/engine.py:93-96 | A funding point counts exactly when it is of the symbol, after the entry and not after the exit |
| BacktestTrades.TradeNames | src/signalgrid/backtest/engine.py:225-232 | A trade names its signal, its bars' times, its reason and how many bars it was held |
| BacktestTrades.TradePrices | src/signalgrid/backtest/engine.py:81-90 | Entry and exit prices are the bars' prices made worse by half the spread plus the slippage, upwards for a long entry and a short exit |
| BacktestTrades.TradeInNumbers | src/signalgrid/backtest/engine.py:217-231 | Quantity times entry price is the notional, gross is what was got less what was paid, with the sign of the side, fees are the rate on both values, a long pays the funding a short receives, and net is gross less both |
| BacktestTrades.RunsIff | src/signalgrid/backtest/engine.py:159-172 | On rows in any order a run is refused exactly for bad settings, mixed symbols, rows that do not open before they close or open together, a missing book, or an entry at a price of zero |
| BacktestTrades.RunTrades | src/signalgrid/backtest/engine.py:163-268 | The trades a run returns are, in order, the priced positions of its ordered bars, entered and left as above |
| BacktestTrades.SkipsCount | src/signalgrid/backtest/engine.py:184-190 | A signal is counted as skipped exactly when only the open of its bar kept it from being taken |
| WalkForwardFolds.FoldReports | src/signalgrid/backtest/walkforward.py:72-95 | A fold's training metrics are those of its selected candidate on the training bars, and its test metrics and trades those of the same candidate on the last training bars, as many as the warm-up asks for and there are, followed by the test bars, with entries from the first test open to the last test close; without a selection it reports none |
| WalkForwardFolds.FoldSelects | src/signalgrid/backtest/walkforward.py:66-79 | The selected candidate made enough training trades and no other such one has a higher expectancy, or the same and a higher net, or the same again and comes later; none is selected exactly when none made enough |
| WalkForwardFolds.FoldNames | src/signalgrid/backtest/walkforward.py:73-76 | A fold carries its number and the open and close times of its training and test bars |
| WalkForwardFolds.TestTrades | src/signalgrid/backtest/walkforward.py:80-90 | On ordered bars its trades are the priced positions of the bars it is judged on |
| WalkForwardFolds.TestEntriesExact | src/signalgrid/backtest/walkforward.py:82-89 | They are entered exactly where the candidate's signal of the bar before has a side, no other trade is on, and the bar opens from the first test open to the last test close and clear of the invalidation |
| WalkForwardFolds.WalkReports | src/signalgrid/backtest/walkforward.py:55-98 | A walk reports the fold of every step at which training and test bars still fit, the trades of these folds one after the other, and the metrics of all of them |
| WalkForwardFolds.WalkRefused | src/signalgrid/backtest/walkforward.py:49-57 | A walk is refused before any fold exactly without candidates or, given rows, with a size that is not positive |
| PaperQuotes.QuoteFillsExactly | src/signalgrid/execution/paper.py:118-184 | After a quote a campaign that is open on a side holds the levels it held before and every LIMIT level of that side with the ask at or below it, for a short the bid at or above it, no other; each new fill is at its level's price, for its notional |
| PaperQuotes.QuoteManages | src/signalgrid/execution/paper.py:107-125 | A campaign with a side is closed with STOP exactly when the bid, for a short the ask, is at or beyond its stop, else with TAKE_PROFIT exactly when it is at or beyond its target, at that price, earning what its fills earn there; otherwise it stays open with the reached levels filled |
| PaperQuotes.QuoteOnArmed | src/signalgrid/execution/paper.py:98-105 | An armed campaign expires exactly when its time is set and reached by the event, at the mid price with nothing earned; otherwise it takes the side whose levels are reached and is managed on it, or stays as it is |
| PaperQuotes.FirstTouchExact | src/signalgrid/execution/paper.py:127-145 | An armed campaign takes exactly the side some level of which is reached, and fills exactly the reached levels of it |
| PaperQuotes.LoopFills | src/signalgrid/execution/paper.py:118-124 | The fill loop fills exactly the reached levels that were not filled, each at its own price |
| PaperQuotes.OpeningFills | src/signalgrid/execution/paper.py:64-79 | A directional plan opens with its starter filled at the reference for its share, a two-sided one armed with nothing filled |
| PaperQuotes.TickQuotes | src/signalgrid/execution/paper.py:81-96 | A tick quotes an open campaign exactly when bid and ask are present, positive and not crossed, and files it away exactly when that closed it; any other tick leaves every campaign as it is |
| SignalNumbers.DirectionalSignalIff | src/signalgrid/signals/engine.py:78-125 | A directional signal comes exactly with history, a spread within its limit, a structure, enough expansion, a reference, an invalidation far enough on its losing side and a score at the threshold; it has the structure's side, setup and stop |
| SignalNumbers.NeutralSignalIff | src/signalgrid/signals/engine.py:43-77 | A neutral signal comes exactly with history, a spread within its limit, no structure, neutral trading enabled, expansion, flow and book within their limits, and a score at the threshold |
| SignalNumbers.DirectionalStrengthMeans | src/signalgrid/signals/engine.py:103-109 | A directional strength is 0.35 plus 0.25, 0.25 and 0.15 of three scores that rise evenly from 0 to 1 over the expansion beyond the minimum and the flow and book on the structure's side |
| SignalNumbers.NeutralStrengthMeans | src/signalgrid/signals/engine.py:52-62 | A neutral strength is 0.45 plus 0.25 of the compression score and 0.20 and 0.10 of how far flow and book are from their limits |
| SignalNumbers.StopGeometryMeans | src/signalgrid/signals/engine.py:92-102 | The stop is far enough exactly when it is on the losing side of the reference by so many ten-thousandths of it |
| SignalNumbers.StructureExact | src/signalgrid/signals/structure.py:11-26 | The structure is exactly decided by the last bar against the top and the bottom of the bars of the lookback |
| SignalNumbers.SpreadMeans | src/signalgrid/signals/flow.py:15-19 | There is a spread exactly for a present, positive, uncrossed book, and it is within a limit exactly when the gap is within that many ten-thousandths of the mid price |
| SignalNumbers.NatrMeans | src/signalgrid/signals/volatility.py:14-19 | Volatility times the last close is the mean of the last 14 true ranges, given 15 bars and a positive close |
| SignalNumbers.ExpansionMeans | src/signalgrid/signals/volatility.py:21-29 | Expansion times the mean of the last 50 true ranges is the mean of the last 10, given 51 bars that moved |
| SignalNumbers.RoundAtMeans | src/signalgrid/signals/engine.py:69-69 | Rounding goes to the nearest multiple, halves to the even one |
| PlannerNumbers.ApprovedIff | src/signalgrid/risk/engine.py:23-38 | A signal is approved exactly when it asks for a grid, is not expired, and finds a free slot, no position on its symbol, room, and a base size and a limit per trade above zero |
| PlannerNumbers.ApprovedSize | src/signalgrid/risk/engine.py:34-38 | The approved size is the least of the base size, the limit per trade and the room, to the nearest cent |
| PlannerNumbers.SpacingMeans | src/signalgrid/execution/grid.py:119-122 | The spacing is the volatility in basis points times the multiplier between its bounds, and a bound beyond it |
| PlannerNumbers.PlannedIff | src/signalgrid/execution/grid.py:105-173 | There is a plan exactly for an approved grid with a positive size and a leverage, volatility, reference and event stamp, an invalidation on the losing side of a one-sided signal, and buys that all stay above zero |
| PlannerNumbers.DirectionalPlanNumbers | src/signalgrid/execution/grid.py:165-188 | The plan has its starter share at the reference, equal parts of the rest on evenly spaced levels of the losing side, and the target so many spacings on the winning side |
| PlannerNumbers.NeutralPlanNumbers | src/signalgrid/execution/grid.py:126-157 | The plan has equal buys below and sells above the reference, evenly spaced, stops so many spacings away, targets at the reference, and a time to live |
| ExchangeNumbers.ExitAcceptedIff | src/signalgrid/execution/binance.py:287-335 | An exit is accepted exactly when its trigger, the tick at or below the price asked for, lies beyond the market price by more than the guard on the side its kind and direction ask for, and the exchange takes it; it then stands with its symbol, side, kind and trigger |
| ExchangeNumbers.SizedIff | src/signalgrid/execution/binance.py:217-224 | The size is the most whole steps the notional pays for, and is refused exactly for a bad step, below the minimum quantity, or below the minimum worth if one is set |
| ExchangeNumbers.EntrySentIff | src/signalgrid/execution/binance.py:229-254 | A market entry is sent exactly with a side, a notional, a leverage, an open gate, a reference, a size that passes the rules, and a taker |
| ExchangeNumbers.LimitSentIff | src/signalgrid/execution/binance.py:256-285 | A limit entry is sent exactly with a side, a notional, an open gate, a tick at or below its price, a size that passes the rules at it, and a taker; it rests at that tick |
| ExchangeNumbers.ReduceOnlySentIff | src/signalgrid/execution/binance.py:337-361 | A reduce-only order is sent exactly with a side, at least the minimum after rounding down, and a taker, whatever the gate |
| ExchangeNumbers.RegisteredRecord | src/signalgrid/execution/campaign.py:133-168 | The registered record carries the plan's numbers, the ids of its starter, LIMIT levels and exits, and no side yet when it is two-sided |
| ExchangeNumbers.StarterBoughtIff | src/signalgrid/execution/campaign.py:224-248 | A starter is bought exactly when first the stop and then the target pass at the prices of their moments and its entry is taken after that |
| ExchangeNumbers.OpenedExits | src/signalgrid/execution/campaign.py:227-252 | A campaign opened on one side has a stop and a target of that side at the ticks at or below the plan's prices |
| ExchangeNumbers.ActivationInNumbers | src/signalgrid/execution/campaign.py:390-428 | Activating a position makes the record ACTIVE on the position's side and leaves a stop and a target of that side at the record's prices for it, both of which passed when they were submitted |
| ExchangeNumbers.FlipIsSold | src/signalgrid/execution/campaign.py:396-403 | A position on the side an activated campaign does not have halts and degrades it, and is answered with at most one reduce-only order of the steps it holds |
| ReconciliationFields.AgreesInFields | src/signalgrid/state/reconciliation.py:276-368 | A snapshot agrees exactly when the last row of each id is open in the store (NEW, PARTIALLY_FILLED, PENDING_CANCEL; NEW, WORKING, PENDING; a size other than zero) with the same fields, but for the two coded exemptions, and everything open in the store is listed |
| ReconciliationFields.ReconciledInFields | src/signalgrid/state/reconciliation.py:252-268 | The gate is left as asked exactly when the store is not halted and agrees so; otherwise execution is halted with the gate shut |
| Market.FlowCoversBucket | src/signalgrid/market/state.py:33-43 | After any trades the totals cover a whole bucket: it starts at a multiple of its length, no trade seen is past it, and they are what takers sold and bought from its start on |
| Metrics.FiguresAddUp | src/signalgrid/backtest/engine.py:116-135 | No trades have zero figures, and one more trade adds itself to the counts and its own numbers to the totals |
| Metrics.AveragesMean | src/signalgrid/backtest/engine.py:136-141 | Expectancy times trades is the net, win rate times trades the winners |
| Metrics.ProfitFactorMeans | src/signalgrid/backtest/engine.py:119-121 | The profit factor times what was lost is what was won; without a loss it is infinite or zero |
| Metrics.CostShareMeans | src/signalgrid/backtest/engine.py:134-145 | The cost share times the gross is the costs |
| BookJoin.SingleSymbolBooks | src/signalgrid/backtest/data.py:148-175 | For one symbol, in any order, a bar carries bid, ask and both depths of a newest snapshot at or before its close that is fresh, and is left as it is exactly when there is none |
| BookJoin.AsOfBooks | src/signalgrid/backtest/data.py:165-175 | The same for any join that is as-of |
| CampaignStatuses.ReopeningIsSeen | src/signalgrid/execution/campaign.py:490-498 | When no cancel is refused, cleanup of a flat campaign raises, halted and degraded, exactly when the last account report that came in while its cancels were awaited shows the position again |
| PlannerNumbers.FaultIsFirst | src/signalgrid/execution/grid.py:105-173 | Without a plan the fault names the first check that fails, in the order they are made |
| Metrics.DrawdownMeans | src/signalgrid/backtest/engine.py:122-129 | The equity never falls below a positive running peak by a greater share of it than the drawdown, and unless that is zero it somewhere falls by exactly it |
| Metrics.EquityMeans | src/signalgrid/backtest/engine.py:122-126 | The equity starts at the starting equity and moves by each trade's net |
| ExchangeNumbers.HaltsNameTheirCause | src/signalgrid/execution/campaign.py:267-291 | The failure handlers halt for what they found: a starter without its stop or a position without protection, closed again or not, or an opening that broke off behind its stop |
| GateCover.GateOpensIff | src/signalgrid/state/user_stream.py:220-235 | The recovery step opens the gate exactly when recovery returns and nothing has halted, live and marked so; otherwise the session ends halted with the gate shut |
| GateCover.ReconciliationLeadsTo | src/signalgrid/state/user_stream.py:205-218 | A halted or disagreeing store ends the session, a buffered message that breaks an index makes it start over, one that halts ends it, a buffered expiry makes it start over, and only otherwise it goes on to recovery; the gate stays shut throughout |
| GateCover.DrainHaltsIff | src/signalgrid/state/user_stream.py:207-214 | The drained store is halted exactly when it was, or when some buffered message halts, handled after those before it |
| GateCover.LeavingShutsGate | src/signalgrid/state/user_stream.py:258-261 | Every way out of a session shuts the gate |

## Left out

- Adapter.CancelOrder: does not say whether a missing order was filled; it only says that it no longer rests.
- Executor.GridCampaignExecutor.RecoverAfterReconciliation: visits the registered symbols in any given order, where the program sorts them.
- Reconciliation.AccountReconciler.Compare: does not model the order, wording and cut-off at eight of the reported mismatches.
- UserStream.ExpiryDuringRecoveryIsMissed: needs a recovery callback that suspends; the runtime's own callback does not.
- UserStream.NextSound: backoff delays, keepalive calls, rotation timers and the run loop's stop event are single steps that end a session.
- CampaignRuns.RunsStaySafe: an operator lifting a halt is not among the steps.
- WalkForward.PickBest: takes the greatest ranked candidate instead of sorting the list in descending order.
- PaperBroker.PaperGridBroker.Open: does not return the campaign object, so a caller that keeps and changes it is not modelled.
- Backtest: the evaluator is any function of the symbol state; its clock read and signal expiry are left out there.
- Signals: strengths are rounded exactly, halves to even; expiry, regime and creation time are inputs or left out.
- A process that dies in the middle of an opening leaves an OPENING record behind; openings are single steps here.
- SQLite, JSON, CSV, the legacy position table, created and updated stamps, detail texts, and a corrupt registry.
- Upper-casing of symbols and sides: texts are taken as already normalised.
- Decimal precision and floating-point rounding.
- REST and WebSocket clients, response unwrapping, credentials, the public stream and warm-up.
- The scanner's debounce, position views, health output, latency statistics, parameter stability, command lines and scripts: they would only add easy members.
