# Position risk, accounting and replay of the trading bot, verified in Dafny

This project models the part of the bot that holds money at risk, and the backtest machinery that claims to mirror it,
and proves what they keep over whole runs. Prices and money are exact reals, replay times integers in milliseconds.

* **The live position** (`TrailingStop`, `Positions`, `StaleSaves`): the tiered trailing stop and its closed form over
  any price sequence, the ordered exit checks of a tick, and exactly what a restart can change, from a save taken at
  the restart and from an older one.
* **The close protocol and the executor** (`CloseProtocol`, `Executors`): the two-phase close under the claim set as a
  state machine over all interleavings of closers, opens, failing exchange calls, the reconciler, the snapshots and
  writes of the state file and restarts, and the executor object, whose methods are proved to be runs of that machine.
  The ledger laws are stated over a history without bound.
* **The watchdog** (`WatchdogSync`): the stops shared with a second process, over sequential live runs.
* **The bar replay** (`BarReplay`, `Slippage`, `ReplayLoop`): the exit simulation on bars dominates every tick path
  inside the bars and is attained by one of them; settlement of the event loop; the worst trade and the worst run.
* **Cost basis and the simulator's ledger** (`CostBasis`, `Simulator`): tranches, the single partial exit and the
  average-cost identity; conservation of cash, partition of positions and routing of candles.
* **Bounded structures against unbounded ones** (`Acceleration`, `RollingWindows`, `Liquidations`,
  `CumulativeVolumeDelta`, `Pagination`): rings, pruned deques and paged downloads, each against the whole
  history it stands for.
* **The offline filters** (`ReplayFilters`): no lookahead, as a property of two histories.
* **The correlation scanner** (`LeastSquares`, `CorrelationScanning`): its closed form is the unique least-squares line.

Code that updates objects in place is modelled by classes and loops with the source's fields and branches; each such
method is proved against a specification function, and the laws are lemmas about those functions. What the outcome of
each main operation means is stated a second time in plain arithmetic on its inputs, without the functions that compute
it, and the two are proved to agree (lemmas named `...Means`, `...IsExact` and `...AreExact`).

`Reals`, `Buffers` and `Options` hold what the other modules share.

Where the code and its own words disagree, the model follows the code:

* `src/backtesting/live_replay.py` says the target wins ties within a bar; its code tests the stop first.
* `src/engine/executor.py` describes the tiers as locking in about 0.5, 2.5 and 4.75 stop distances; the exact floors
  are smaller by a quadratic term (`TrailingStop.TierFloor`).
* `src/engine/executor.py` debits the entry fee when it opens and again inside the result of the close; the ledger law
  proved is the one the code keeps (`CloseProtocol.PaperLedger`).
* `src/engine/executor.py` does not save the price samples of a position, so a restart can suppress a fast cut and can
  also cause one (`Positions.RestartChangesExitIff`). Ticks move the trail without a save, so a restart can lose a trail
  exit (`StaleSaves.StaleRestartChangesExitIff`).
* `src/engine/executor.py` settles a close before it saves, so a crash in between brings the closed position back
  (`CloseProtocol.UnsavedSettlementIsForgotten`); and it writes the file outside the lock, so an older snapshot can
  land last and undo a close that was saved (`CloseProtocol.SavedSettlementCanBeForgotten`).
* `src/engine/executor.py` reconciles after a close and then clears the symbol's watchdog entry, so if the exchange
  still reports the position, the one just adopted loses its entry (`WatchdogSync.CloseStaysSyncedIff`).
* `src/main.py` comments its final result as net of entry commissions; the code subtracts exit commissions only.
* `src/engine/correlation_scanner.py` keeps 200 observations but regresses over up to 201.
* `src/backtesting/data_loader.py` probes for late listings for spot only (`Pagination.LateListing`).
* `src/backtesting/replay_filters.py` documents a flow threshold of 25,000 and a calm-regime block of funding carry;
  its code uses 500 and lets funding carry pass. Its fallback from the hourly list to the spot list can look ahead
  when the two differ (`ReplayFilters.NoLookaheadIff`).

## Model

| member | source | states |
|---|---|---|
| TrailingStop.LockedMonotone | src/engine/executor.py:973-993 | a better price locks in at least as much, across tiers and for both sides |
| TrailingStop.LockedBetweenHardStopAndPrice | src/engine/executor.py:973-993 | whatever a tick proposes as trail is strictly behind the price and strictly better than the hard stop |
| TrailingStop.CandidateMeans | src/engine/executor.py:904-920 | a price proposes a trail exactly from 1.5 stop distances of profit on, and it stands a whole, half or quarter stop distance (of the price) behind it, from 1.5, 3 and 5 on |
| TrailingStop.RatchetStep | src/engine/executor.py:973-993 | one tick of the ratchet takes the tier function at the best price to the tier function at the better of the two prices |
| TrailingStop.RatchetIsClosedForm | src/engine/executor.py:973-993 | after any positive price sequence the trailing price is 0 or exactly the tier function at the best price seen |
| TrailingStop.StopNeverLoosens | src/engine/executor.py:84-97 | the stop in force never loosens, and never triggers on the tick that moved it |
| TrailingStop.TierFloor | src/engine/executor.py:904-920 | once the best price reached tier 1.5, 3 or 5, the stop in force is at least entry*(1+0.5s-1.5s^2), entry*(1+2.5s-1.5s^2) or entry*(1+4.75s-1.25s^2), mirrored for shorts, under an exact condition on the stop distance |
| TrailingStop.SmallStopsAreMeaningful | src/engine/executor.py:904-920 | for any stop distance below the entry price the tier floors hold |
| TrailingStop.TierFloorFailsOtherwise | src/engine/executor.py:904-920 | where the condition of the floors fails, one tick at the tier's price leaves a worse stop in force: the condition is exact |
| Positions.Position.MoveTrail | src/engine/executor.py:973-993 | the in-place trail update is one step of the ratchet |
| Positions.Position.Track | src/engine/executor.py:955-1028 | one tick on the position object: bookkeeping, ratchet, and the exit, if any, under its exact condition on price, clock and samples |
| Positions.VerdictMeans | src/engine/executor.py:996-1028 | stop, trail, target, timeout, fast cut and staying open each happen if and only if their condition holds: price against stop in force and entry*(1+-target), over 48 hours held, or half an hour held, 2% under water and a fading window on a symbol that is not exempt |
| Positions.NotRecoveringMeans | src/engine/executor.py:58-82 | the five-minute window is fading if and only if it has three samples, its last at most a minute old and a minute at least after its first, and the price has not improved between them |
| Positions.RunExitMeans | src/engine/executor.py:943-1028 | a run exits at a tick for a reason if and only if that reason's condition holds there and no tick before had one |
| Positions.OpenPositionIsInside | src/engine/executor.py:943-1028 | as long as a position is open, every tick has left its price strictly inside stop and target and its age within 48 hours |
| Positions.FedKeepsMarks | src/engine/executor.py:955-971 | over any ticks the watermarks are the extremes of what they were and of the prices since, and the current price is the latest |
| Positions.LoadOfSave | src/engine/executor.py:445-525 | a restart from a save of the moment forgets the low watermark and the samples, and nothing else |
| Positions.OpenPositionLocksBest | src/engine/executor.py:943-1028 | over any run of ticks an engine-opened position's trail is the tier function at the best price up to its exit |
| Positions.MovingTickDoesNotStop | src/engine/executor.py:973-1006 | a tick that moves the trail never exits by stop or trail |
| Positions.StaleSamplesAreInvisible | src/engine/executor.py:58-82 | samples older than five minutes do not influence the velocity, whatever the 600-slot buffer kept of them |
| Positions.ExitsDifferIff | src/engine/executor.py:943-1028 | two positions with the same terms, of which the first has the better trail or the same, exit differently if and only if, at the first tick where either exits, the price reaches the first one's trail and no trail of the second one's, or only an open fast cut is in question and the samples of exactly one show no recovery |
| Positions.OldSamplesDoNotMatter | src/engine/executor.py:943-1028 | so extra samples that are over five minutes old, or any on an exempt symbol, change neither exit tick nor reason |
| Positions.RestartChangesExitIff | src/engine/executor.py:445-525 | a load, at any point of a stream, of a save taken at that point changes a later exit if and only if there is a first tick where only an open fast cut is in question and the samples since the restart disagree with those including the lost ones |
| Positions.RestartTransparent | src/engine/executor.py:445-525 | so such a restart changes nothing for exempt symbols, and nothing for others once the lost samples are over five minutes old; older saves are the subject of StaleSaves |
| Positions.RestartCanSuppressFastCut | src/engine/executor.py:445-525 | a concrete stream on which a restart suppresses a fast cut: the lost samples were the evidence for it |
| Positions.RestartCanCauseFastCut | src/engine/executor.py:445-525 | a concrete stream on which a restart causes a fast cut: the lost sample was the evidence of a recovery |
| StaleSaves.StaleTrail | src/engine/executor.py:943-993 | ticks move the trail without a save: after a restart from a file older than some ticks the trail is, at any later tick, what the prices without the lost ones lock in, and the stop in force is never better than without the restart |
| StaleSaves.StaleRestartChangesExitIff | src/engine/executor.py:445-525 | such a restart changes a later exit if and only if there is a first tick that reaches the trail all prices lock in but none the prices without the lost ones lock in, or where only an open fast cut is in question and the samples since the restart disagree with all of them |
| StaleSaves.StaleRestartOnExempt | src/engine/executor.py:943-1028 | on a symbol exempt from the fast cut it changes the exit exactly where the trail would have exited at a price that reaches no trail of the remaining prices, and never makes it earlier |
| StaleSaves.LostPricesMatterIff | src/engine/executor.py:445-525 | on such a symbol some later ticks exit otherwise after the restart if and only if the lost prices had moved the trail |
| StaleSaves.OutdonePricesDoNotMatter | src/engine/executor.py:973-993 | lost prices no better than the best one before the save change no exit of such a symbol |
| StaleSaves.StaleRestartLosesTrail | src/engine/executor.py:943-1028 | a concrete rise and fall whose trail exit is lost in a restart from the file written at the open |
| BarReplay.RaiseTrail | src/backtesting/live_replay.py:290-311 | the trail update of one bar is the bar ratchet |
| BarReplay.SimulateExit | src/backtesting/live_replay.py:247-341 | the simulation loop computes the walk over bars, and on positive prices its exit is the one plain arithmetic describes |
| BarReplay.SimulatedMeans | src/backtesting/live_replay.py:247-341 | the exit is exactly the one in the first bar that is not quiet: at entry*(1-+stop), at the trail the best extreme since entry locks in, at entry*(1+-target), or at the close of the second of two bars that close 2% under water; else at the close of bar min(entry+48, last) |
| BarReplay.BarDominates | src/backtesting/live_replay.py:285-322 | within one bar, any live stop, trail or target exit on ticks inside the bar means the simulation exits in that bar |
| BarReplay.BarReplayDominatesTicks | src/backtesting/live_replay.py:247-341 | for every tick path inside the bars, the simulation exits no later than the live rules do by stop, trail or target, longs and shorts |
| BarReplay.BarReplayIsTight | src/backtesting/live_replay.py:247-341 | the bound is attained: on the path that visits each bar's best and then worst price the live rules exit in exactly the simulated bar |
| BarReplay.ParityOnOneTickBars | src/backtesting/live_replay.py:273-322 | where the bars it can walk are one tick each, with fast cut and timeout out of play, both programs exit at the same index for the same reason, though their trails start differently |
| BarReplay.NeverWorseThanHardStop | src/backtesting/live_replay.py:247-341 | on sane bars no simulated exit, for any of the five reasons, is priced worse than the hard stop |
| Slippage.Avg24hVolumeUsd | src/backtesting/slippage_model.py:59-67 | the trailing turnover of at most 24 bars, all before the fill's bar |
| Slippage.SlippageMonotone | src/backtesting/slippage_model.py:92-103 | a larger order in a thinner market never pays less, across the thin/liquid boundary and the cap |
| Slippage.SlippageMeans | src/backtesting/slippage_model.py:70-103 | the square-root law without the root: the square of the slippage over 2, times the volume, is 5000 or 15000 squared times the size, capped at 200 exactly where it would exceed it |
| Slippage.NetPnlMeans | src/backtesting/live_replay.py:1163-1166 | the net result times the entry is the size times the price difference in the trade's favour, less 0.04% of both notionals |
| Slippage.NetPnlIsReturn | src/backtesting/live_replay.py:1163-1166 | the net result is the size times a function of the exit ratio alone |
| Slippage.WorstTradeLoss | src/backtesting/live_replay.py:1136-1167 | on sane bars a simulated trade nets at least size*((1-s)*0.98*0.9996-1.0004) for a long, and size*(0.9996-(1+s)*1.02*1.0004) for a short |
| ReplayLoop.KlineIndexAfter | src/backtesting/live_replay.py:178-183 | the first bar that opens strictly after a time, if there is one |
| ReplayLoop.SettleExpired | src/backtesting/live_replay.py:814-839 | the settlement loop pays out exactly the trades that have exited and keeps the rest, in order |
| ReplayLoop.OpenDecisions | src/backtesting/live_replay.py:1066-1190 | every decision that survives sizing and filters opens one simulated trade |
| ReplayLoop.DrainOpen | src/backtesting/live_replay.py:1192-1199 | what is open after the last event is reported and paid out |
| ReplayLoop.Replay | src/backtesting/live_replay.py:800-1199 | the whole event loop computes the books after all events, drained; it reports exactly the trades of the admitted decisions, and the balance is initial plus their total |
| ReplayLoop.OpenTradeMeans | src/backtesting/live_replay.py:1066-1190 | a decision opens a trade if and only if it is allowed, its symbol has a bar after the event that opens above zero, and the smaller of the scaled size and two fifths of the balance is at least 5; the trade enters there, with that size, and leaves by its simulated exit |
| ReplayLoop.LogIsExact | src/backtesting/live_replay.py:800-1199 | the log of a run is exactly the trades of its admitted decisions, event by event and in order, sized on the balance settled by then; blocked decisions open none |
| ReplayLoop.EveryTradeHasItsDecision | src/backtesting/live_replay.py:1066-1190 | every logged trade has an event and an admitted decision of it, whose trade it is |
| ReplayLoop.ExitedMeans | src/backtesting/live_replay.py:814-839 | settling at a time takes out exactly the trades whose exit time is not later |
| ReplayLoop.LegMeans | src/backtesting/slippage_model.py:59-103 | the slippage of a leg, by the square-root law on the turnover of at most 24 bars before it, or none where it is switched off |
| ReplayLoop.SettlementIsExact | src/backtesting/live_replay.py:804-839 | when an event is handled, balance is initial plus the results of exactly the trades opened earlier that exit by its time; what the event opens exits strictly later |
| ReplayLoop.EveryTradeReportedOnce | src/backtesting/live_replay.py:1192-1205 | every opened trade is reported once and the final balance is initial plus their total |
| ReplayLoop.OpenTradeBounded | src/backtesting/live_replay.py:1125-1190 | every trade opened is within its share of the balance and its worst-case loss |
| ReplayLoop.WorstRun | src/backtesting/live_replay.py:800-1199 | whatever the brain decides, a run ends no lower than initial plus the sum of its trades' floors |
| CloseProtocol.StepKeepsSafe | src/engine/executor.py:1042-1119 | every step of any thread, of the exchange and of the reconciler, every snapshot, every write of one and every restart keeps the claim set exact and nothing settled twice, and keeps the file and every snapshot still to be written ones a restart can start from |
| CloseProtocol.StepKeepsBalance | src/engine/executor.py:1102-1114 | every step keeps the ledger law of the books, of the file and of every pending snapshot, up to what it brings in from outside |
| CloseProtocol.RunKeepsInvariants | src/engine/executor.py:1030-1119 | both hold after every interleaving |
| CloseProtocol.SettledAtMostOnce | src/engine/executor.py:1042-1048 | no interleaving settles a position id twice, and a settled id is no longer tracked, within the history the last restart left |
| CloseProtocol.ClaimsEndWithTheirThreads | src/engine/executor.py:1117-1119 | the claim set is exactly the ids threads hold, each by one thread, and empty when all threads are done |
| CloseProtocol.AbortedCloseLeavesBooks | src/engine/executor.py:1079-1100 | a close that fails or throws returns the state exactly as it was |
| CloseProtocol.OnlySettlementTouchesBooks | src/engine/executor.py:1042-1119 | of a close's steps only the settlement changes positions, cash, fees or history |
| CloseProtocol.HistoryCountsSettlements | src/engine/executor.py:1102-1114 | the settlement history grows by one for each settlement step and by nothing else, and a restart cuts it back to where the snapshot written last was taken |
| CloseProtocol.UndisturbedLedger | src/engine/executor.py:761-777 | a run without reconciling, overwrites and funding, live or on paper: cash plus open sizes plus all entry fees is initial plus all results (the entry fee is debited at the open and again in the result), every fee is counted once, and tracked is exactly what is not settled |
| CloseProtocol.PaperLedger | src/engine/executor.py:761-777 | so it is for every paper run, over all interleavings, snapshots, writes and restarts |
| CloseProtocol.LiveLedger | src/engine/executor.py:296-417 | every run: cash plus the sizes of what is not settled, tracked or dropped, plus all entry fees is initial plus all results plus the adopted sizes, overwrites and funding that came in, whether or not a dropped position settled in the meantime |
| CloseProtocol.EveryRecordMeans | src/engine/executor.py:1050-1114 | every record of every run, over all interleavings: the exit fee is 0.04% of the exit notional, and the result times the entry is the size times the price difference in the position's favour less both fees times the entry |
| CloseProtocol.NotionalResult | src/engine/executor.py:1050-1062 | where the size is the entry notional, as on paper, the result is exit notional less size, reversed for a short, less both fees |
| CloseProtocol.OnlyReconcileLoses | src/engine/executor.py:374-377 | a position that is neither tracked nor settled was tracked when a reconcile of this run found its symbol no longer on the exchange, and so was any a thread is about to settle that is no longer tracked |
| CloseProtocol.WhereARestartLeads | src/engine/executor.py:445-525 | only the write of a snapshot changes where a restart would lead, to where the snapshot was taken; no other step changes what any snapshot leads to |
| CloseProtocol.RestartRollsBack | src/engine/executor.py:478-525 | a restart brings back exactly the books of the snapshot written last as they were when it was taken, though newer snapshots were written before it, whatever threads, exchange and reconciler did before and after |
| CloseProtocol.UnsavedSettlementIsForgotten | src/engine/executor.py:1102-1116 | a settlement after that snapshot comes undone in a restart, and its position is tracked again |
| CloseProtocol.SavedSettlementCanBeForgotten | src/engine/executor.py:478-525 | from any state with a pending snapshot of its books, a close that settles and is saved meanwhile is forgotten when the older snapshot lands after the newer one |
| Executors.Executor.CheckOrder | src/engine/executor.py:619-699 | an order passes exactly when there is room, the day's loss and the balance allow it, the guards agree, the symbol is free, the price is positive and the size is at least 10 and payable; its size is the smallest of three amounts |
| Executors.Executor.OrderMeans | src/engine/executor.py:679-699 | the size of an order is the smallest of the scaled request, the position limit and 40% (50% where funding is favourable) of the balance, and the order passes if and only if that size is affordable |
| Executors.Executor.FillOf | src/engine/executor.py:735-736 | the fill is the exchange's where it reports one, the requested one otherwise, with a positive price |
| Executors.Executor.OpenPosition | src/engine/executor.py:614-793 | a position is opened exactly when the order passes and, live, is filled: the open, snapshot and write steps of the protocol, with the given side, the fill's price, the smallest of three sizes, an entry fee of 0.04% of it, both debited, and stop and target moved to the measured volatility; otherwise nothing changes |
| Executors.Executor.ClosePosition | src/engine/executor.py:1030-1119 | closing is one claim-to-release run of the protocol that adds exactly its settlement: exit at the reported fill or the asked price, a fee of 0.04% of the exit notional, the size times the relative price difference less both fees, credited with the size; a failed exchange close changes nothing |
| Executors.Executor.HandleTick | src/engine/executor.py:953-1028 | one position's share of a price update: observed once, closed exactly when an exit rule fires and the close goes through, settled by that rule at the tick's price or the reported fill |
| Executors.Executor.UpdatePrice | src/engine/executor.py:943-1028 | every position of the symbol observes the tick once, others are untouched, exactly those are closed whose exit condition holds in plain arithmetic and whose close goes through, and the history gains exactly their settlements, in order |
| Executors.Executor.ClosuresAreExact | src/engine/executor.py:943-1028 | the settlements of one price update are one for each position of the symbol that does not stay in by the arithmetic and whose close goes through, in order, each for the reason whose condition holds and with its result |
| Executors.Executor.SettleAt | src/engine/executor.py:1102-1114 | the settlement section: fees, cash, today's result, the 500-entry trade log and the position list |
| Executors.Executor.Lawful | src/engine/executor.py:761-777 | the object's fields satisfy every invariant of the protocol's runs and the exact ledger law, every record is right in plain arithmetic, and the trade log is the last 500 records |
| Executors.Executor.RestartKeepsBooks | src/engine/executor.py:478-525 | every call that changes cash, fees, tracked positions or history leaves these saved, so a restart between two calls brings them back; trails and prices moved since are not among them |
| Executors.Executor.CloseRunResult | src/engine/executor.py:1042-1119 | where a close leads from any safe state with one idle thread and nothing pending, by the exchange's reply |
| WatchdogSync.ReconcileKeepsSafe | src/engine/executor.py:341-417 | reconciling keeps every tracked position's stop and target in the shared map and on disk, and writes those of what it adopts |
| WatchdogSync.AdoptedSymbols | src/engine/executor.py:374-402 | exactly the untracked exchange positions worth tracking are adopted |
| WatchdogSync.AdoptMeans | src/engine/executor.py:378-402 | what an adopted position looks like: side by sign, entry or mark price, absolute quantity, stop 10%, target 25%; under a dollar nothing is adopted |
| WatchdogSync.CloseStaysSyncedIff | src/engine/executor.py:1121-1126 | after a close every tracked position still has its own entry if and only if the post-close reconcile does not adopt the symbol just closed |
| WatchdogSync.RestartSyncs | src/engine/executor.py:211-224 | a restart writes every entry again, so it repairs a lost one |
| WatchdogSync.OperationsMean | src/engine/executor.py:779-784 | a price update ticks the positions of its symbol and no other, a save writes what there is, an open tracks, saves and enters its position |
| WatchdogSync.RunKeepsSafe | src/engine/executor.py:250-263 | over sequential live runs without such a re-adoption every tracked position keeps its own entry |
| WatchdogSync.WatchdogMeans | watchdog.py:382-398 | the watchdog closes if and only if the price has come to the symbol's stop or target, or 15% and 40% where it has no entry |
| WatchdogSync.EngineClosesToo | watchdog.py:384-398 | a watchdog close at a price is a stop, trail or target close of the engine at that price |
| WatchdogSync.WatchdogNeverPreempts | watchdog.py:382-398 | so it is after any sequential run from an empty engine, whatever entries were left in the shared file or have been lost |
| WatchdogSync.ReadoptionLosesEntry | src/engine/executor.py:1121-1126 | a concrete run that loses an entry |
| CostBasis.TrancheKeepsSound | src/main.py:1041-1055 | a further tranche keeps size equal to average entry times quantity and leaves the gate as it is |
| CostBasis.PartialKeepsSound | src/main.py:912-952 | the gated partial exit keeps the cost basis exact and closes the gate for good |
| CostBasis.PartialKeepsCostIff | src/main.py:912-952 | without the gate a partial exit keeps the cost basis if and only if the entry cost is average times original quantity |
| CostBasis.AverageCostIdentity | src/main.py:1153-1167 | over any life of fills, tranches, at most one partial exit and a final exit, the reported result is exit notionals less entry notionals (reversed for shorts) less exit commissions |
| CostBasis.AtMostOnePartial | src/main.py:1074-1080 | the gate is open until the first partial exit and closed ever after, whatever tranches follow |
| CostBasis.SecondPartialBreaksCost | src/main.py:1074-1080 | why the gate matters: a sound position on which a second partial exit would break the cost basis |
| CostBasis.Position.AddTranche | src/main.py:1032-1063 | a tranche is added exactly when there is room and the order was filled |
| CostBasis.AfterTrancheMeans | src/main.py:1032-1063 | with room and an executed order the fill is added to quantity, size and entry cost, and the average is the one at which the whole costs what both did; otherwise nothing changes |
| CostBasis.Position.ExecutePartialExit | src/main.py:912-952 | the in-place partial exit keeps the books exact |
| CostBasis.AfterPartialMeans | src/main.py:912-952 | an executed partial exit sells half of the quantity at the fill's price and marks half as sold; otherwise nothing changes |
| CostBasis.Position.ExitRest | src/main.py:1114-1170 | a final exit books the identity's result; a refusal for lack of holdings force-closes, any other leaves the position as it was |
| CostBasis.Position.Manage | src/main.py:1032-1095 | tranche, break-even stop, partial take-profit and stale tightening leave exactly the tranche and the due partial exit in the books, and the stop they name |
| CostBasis.Position.CheckExit | src/main.py:966-1170 | the position closes exactly when the price is at or past the stop the check leaves or the time is up, and the order goes through or there is nothing to sell; the stop, the partial exit and the reported result are given in plain arithmetic |
| CostBasis.Position.StopMeans | src/main.py:1065-1095 | the stop a check leaves: the entry where the profit is at least the initial risk and the stop is still worse, else the trailed stop; the stale stop where it is tighter |
| CostBasis.Position.PartialMeans | src/main.py:1074-1080 | the half exit is due if and only if none was taken, the profit is at least 1.5 times the initial risk and over 1.5% of the entry |
| Simulator.CandleConserves | scripts/systematic_backtest.py:587-703 | a candle moves money only from reserved sizes to cash, and positions only from open to closed |
| Simulator.RouteKeepsLedger | scripts/systematic_backtest.py:2241-2251 | routing a symbol's candle keeps the ledger law |
| Simulator.RouteKeepsPartition | scripts/systematic_backtest.py:2241-2251 | and keeps every opened position in exactly one of open and closed |
| Simulator.RouteTouchesOwnSymbolOnly | scripts/systematic_backtest.py:2241-2251 | the split and merge update each symbol with its own candle and leave every other symbol's positions as they were |
| Simulator.EachSymbolSeesItsOwnCandle | scripts/systematic_backtest.py:2241-2251 | over a whole time step every symbol evolves as if it were alone |
| Simulator.RouteKeepsOnePerSymbol | scripts/systematic_backtest.py:2241-2251 | routing keeps at most one open position a symbol |
| Simulator.CloseFirst | scripts/systematic_backtest.py:705-724 | force-closing one position keeps the ledger and the partition |
| Simulator.StrategySimulator.OpenPosition | scripts/systematic_backtest.py:528-585 | a position is opened exactly when there is room, the symbol is free and cash covers size and fee; every field of it, entered 0.05% against the side, and its cost of 100.075% of the size |
| Simulator.StrategySimulator.UpdatePositions | scripts/systematic_backtest.py:587-703 | the candle loop closes exactly what the exit rules close, take-profit first, and credits it; what stays and what is closed, and how it is booked, is given in plain arithmetic |
| Simulator.CandleIsExact | scripts/systematic_backtest.py:587-703 | position by position: the stop trails the best watermark from 1.3 trails of profit on and only tightens; it is closed at target, else stop, else after its time, 0.05% against it, for the size times the relative difference less 0.075% of the size; else it stays |
| Simulator.SizeMeans | scripts/systematic_backtest.py:510-519 | the size: none below a balance of 50, else the smallest of a quarter of the balance scaled by the score, 40% of it and 50000, but never less than 10 |
| Simulator.ForcedMeans | scripts/systematic_backtest.py:705-724 | the forced close books each position at its symbol's last price, or its own, 0.05% against it and less the fee |
| Simulator.StrategySimulator.RouteCandle | scripts/systematic_backtest.py:2241-2251 | the in-place split, update and merge, with ledger, partition and one position a symbol kept |
| Simulator.StrategySimulator.RouteAll | scripts/systematic_backtest.py:2241-2251 | a whole time step of the object is the routing of all candles in order, of the open and of the closed positions |
| Simulator.StrategySimulator.ForceCloseAll | scripts/systematic_backtest.py:705-724 | each position is closed at its symbol's last price or its own; afterwards cash is initial less all entry fees plus all results, and everything opened is closed once |
| Acceleration.AcceptedAreSpaced | src/engine/acceleration_tracker.py:46-57 | accepted snapshots are at least a minute apart, however the clock jumps |
| Acceleration.ThrottleIsGreedy | src/engine/acceleration_tracker.py:46-57 | a tick is accepted if and only if it comes at least a minute after the last one accepted |
| Acceleration.RingHoldsClosest | src/engine/acceleration_tracker.py:60-95 | with the target inside the ring, the earliest closest snapshot of the ring is that of the whole history |
| Acceleration.RingAgreesWithLog | src/engine/acceleration_tracker.py:60-95 | the 120-slot ring gives the same one-hour change as the unbounded history: eviction never drops the chosen snapshot |
| Acceleration.PastTheTarget | src/engine/acceleration_tracker.py:81-90 | the early exit is sound: past the target, later snapshots are only further away |
| Acceleration.FindClosest | src/engine/acceleration_tracker.py:81-90 | the scan with its early exit finds the earliest closest snapshot |
| Acceleration.AccelerationTracker.Update | src/engine/acceleration_tracker.py:39-58 | the throttle and the ring keep exactly the tail of the accepted snapshots |
| Acceleration.AccelerationTracker.Get1hChange | src/engine/acceleration_tracker.py:60-95 | the change computed on the ring is the change over every snapshot ever accepted |
| Acceleration.HourChangeMeans | src/engine/acceleration_tracker.py:60-95 | there is a change if and only if the history spans 55 minutes and the earliest snapshot closest to an hour ago has a price, and it is the percentage the price has moved from there |
| Acceleration.ChangeIsDetermined | src/engine/acceleration_tracker.py:60-95 | so the change is determined by the history |
| Acceleration.AccelerationTracker.GetAllAccelerations | src/engine/acceleration_tracker.py:97-104 | exactly the symbols whose change is large enough, with it |
| LeastSquares.NormalEquations | src/engine/correlation_scanner.py:98-109 | the computed line satisfies both normal equations over the whole history |
| LeastSquares.SpreadIsPairGaps | src/engine/correlation_scanner.py:104 | n*Sxx - Sx^2 is the sum of the squared differences of all pairs, so it is never negative |
| LeastSquares.GuardRejectsNearlyConstant | src/engine/correlation_scanner.py:105-106 | the guard rejects exactly the histories whose pairs differ by less than 1e-10 in squares altogether, among them every constant one |
| LeastSquares.ErrorSplits | src/engine/correlation_scanner.py:98-109 | any line's squared error is the fitted one plus a cross term plus the squared gap between the lines |
| LeastSquares.FitIsTheLeastSquaresLine | src/engine/correlation_scanner.py:98-109 | no other line has a smaller sum of squared residuals, and only the computed line attains it |
| LeastSquares.ExactOnALine | src/engine/correlation_scanner.py:98-109 | a history on a line is fitted by that line |
| CorrelationScanning.LastOfSuffix | src/engine/correlation_scanner.py:53-58 | the backwards walk over a suffix finds what the walk over the whole list finds |
| CorrelationScanning.ReturnMeans | src/engine/correlation_scanner.py:45-63 | the hourly return times the price of the last quote at least an hour old is the price moved since; none where that price is zero |
| CorrelationScanning.BoundedReturnIsExact | src/engine/correlation_scanner.py:45-63 | a return found in the 1440-quote history is the return over the whole one |
| CorrelationScanning.BoundedReturnIff | src/engine/correlation_scanner.py:39-63 | with quotes in time order the bounded history gives the whole one's return if and only if it reaches back an hour, dropped nothing, or there is no return |
| CorrelationScanning.ScoresAreNarrow | src/engine/correlation_scanner.py:113-130 | every long signal scores exactly 80, short scores lie above 70.75 and never exceed 76: the caps are idle |
| CorrelationScanning.NoSignalOnALine | src/engine/correlation_scanner.py:98-130 | a symbol that has followed the reference coin exactly gives no signal |
| CorrelationScanning.SignalMeans | src/engine/correlation_scanner.py:98-130 | a history gives a signal if and only if it has 24 observations and a line, and the latest lies over 8% below it (long, score 80) or over 6.5% above it (short, score 48 plus 3.5 a percent, at most 76) |
| CorrelationScanning.WindowIsSuffix | src/engine/correlation_scanner.py:89-106 | the regression runs over the latest 201 observations while 200 are stored |
| CorrelationScanning.CorrelationScanner.UpdatePrice | src/engine/correlation_scanner.py:39-43 | the price history is the tail of all quotes |
| CorrelationScanning.CorrelationScanner.GetHourlyReturn | src/engine/correlation_scanner.py:45-63 | the reversed loop finds the last quote at or before an hour ago |
| CorrelationScanning.SignalFromLeastSquares | src/engine/correlation_scanner.py:98-111 | a signal's divergence is the residual of the latest observation from the line no other line fits better |
| CorrelationScanning.SignalsAreEarned | src/engine/correlation_scanner.py:80-130 | a scan signals only listed symbols that are neither blacklisted nor the reference coin, past their thresholds, at most once an occurrence |
| CorrelationScanning.SignalsAreComplete | src/engine/correlation_scanner.py:80-130 | no signal is withheld: each listed place whose symbol is scanned and whose history gives a signal has it in the result |
| CorrelationScanning.ObservationsGrow | src/engine/correlation_scanner.py:80-93 | each scanned symbol gains exactly one observation, its hour's return, for each time it is listed, and no other symbol gains any |
| CorrelationScanning.CorrelationScanner.ReturnIsExact | src/engine/correlation_scanner.py:39-63 | a return found in the stored quotes is the return over every quote ever fed |
| CorrelationScanning.CorrelationScanner.Scan | src/engine/correlation_scanner.py:65-135 | one scan an hour: which observations it adds, which signals it gives, and that they rest on the returns over every quote ever fed |
| RollingWindows.RetainedIsSuffix | src/engine/liquidation_tracker.py:219-225 | the pruned deque is a suffix of the log and, of what the cap keeps, misses only entries over an hour older than the latest |
| RollingWindows.WindowsSurvivePruning | src/engine/liquidation_tracker.py:84-93 | whatever the clock did, a window starting no earlier than an hour before the latest entry holds the same entries in deque and log |
| RollingWindows.RecentMeans | src/engine/liquidation_tracker.py:84-93 | a window holds exactly the entries not older than its cutoff, as often as they occur |
| RollingWindows.MonotoneClockSuffices | src/engine/liquidation_tracker.py:219-225 | with a non-decreasing clock every window of at most an hour is such a window |
| RollingWindows.NewestRetained | src/engine/cvd_tracker.py:277-281 | the newest entry is always retained |
| RollingWindows.FrontIsRecent | src/engine/liquidation_tracker.py:219-225 | what is retained is no longer than the cap, and its front is within an hour of the newest entry |
| RollingWindows.AppendAndPrune | src/engine/liquidation_tracker.py:221-225 | the append and popleft loop computes what the log's pruning gives |
| RollingWindows.SumSince | src/engine/liquidation_tracker.py:93 | the window's total and count |
| Liquidations.LiquidationTracker.OnMessage | src/engine/liquidation_tracker.py:192-227 | both sides' deques stay what pruning leaves of all events |
| Liquidations.LiquidationTracker.RecentLiquidations | src/engine/liquidation_tracker.py:74-127 | total and count of a side over a window are those of the whole log |
| Liquidations.LiquidationTracker.LargestSingle | src/engine/liquidation_tracker.py:102-117 | the largest single liquidation over both sides, as over the whole log |
| Liquidations.LiquidationTracker.CascadeScore | src/engine/liquidation_tracker.py:129-155 | the cascade of the whole log's totals: the larger side, and the ratio of the totals with the smaller one taken as at least 1 |
| Liquidations.CascadeOfMeans | src/engine/liquidation_tracker.py:129-155 | the dominant side is the longs' exactly if their total is larger, and the imbalance times the other total, or 1 if that is larger, is the dominant total; none and 1 where nothing was liquidated |
| Liquidations.Aggregate5mWindow | src/backtesting/liquidation_loader.py:283-322 | the offline loop computes both totals, the count and the summary |
| Liquidations.LiveMatchesOffline | src/backtesting/liquidation_loader.py:283-322 | at one instant, on the same events, live totals, count, dominant side and ratio are the offline ones |
| CumulativeVolumeDelta.CvdTracker.Subscribe | src/engine/cvd_tracker.py:75-88 | a new subscription starts with an empty history; a second one changes nothing |
| CumulativeVolumeDelta.CvdTracker.Unsubscribe | src/engine/cvd_tracker.py:90-107 | nothing about the symbol survives |
| CumulativeVolumeDelta.CvdTracker.OnMessage | src/engine/cvd_tracker.py:251-281 | a signed trade enters its symbol's log exactly when subscribed |
| CumulativeVolumeDelta.CvdTracker.Cvd | src/engine/cvd_tracker.py:109-118 | None exactly when nothing arrived since the subscription; otherwise the sum over the latest 50,000 trades of the window, which is all of them while there are no more |
| Pagination.Dedupe | src/backtesting/data_loader.py:177-183 | keeps the first candle of every open time, in order, and a strictly increasing list as it is |
| Pagination.FirstIsKept | src/backtesting/data_loader.py:177-183 | every candle that is the first of its open time is kept |
| Pagination.KeptIsFirst | src/backtesting/data_loader.py:177-183 | and nothing else is |
| Pagination.OneRequest | src/backtesting/data_loader.py:163-173 | what one request from the cursor gets: the next stretch of the history, or nothing exactly because of a hole or the end |
| Pagination.Page | src/backtesting/data_loader.py:163-175 | the cursor loop terminates and stops only where nothing more is wanted or the next candle follows a hole of more than 1000 intervals |
| Pagination.ProbeFinds | src/backtesting/data_loader.py:145-158 | what the probe from the epoch finds in range |
| Pagination.LoadFuturesKlines | src/backtesting/data_loader.py:231-287 | strictly increasing, in range, a gapless stretch of the server's candles, and complete if and only if no wanted candle follows a hole of more than 1000 intervals |
| Pagination.LoadKlines | src/backtesting/data_loader.py:117-193 | the same for spot, where the probe also bridges a leading hole to any of the first 1000 candles ever |
| Pagination.LateListing | src/backtesting/data_loader.py:254-269 | a late listing: complete for the spot loader, not for the futures loader |
| ReplayFilters.ClosedIsPrefix | src/backtesting/replay_filters.py:192-198 | in a sorted list the bars closed before a time are a prefix, and the backwards scan finds its end |
| ReplayFilters.DatedIsPrefix | src/backtesting/replay_filters.py:224-231 | the rows dated up to a time are those before the forward scan stops |
| ReplayFilters.VolatilityKnown | src/backtesting/replay_filters.py:161-208 | the volatility verdict depends only on bars closed before the time |
| ReplayFilters.OiDeltaKnown | src/backtesting/replay_filters.py:211-249 | the open-interest verdict depends only on rows dated up to the time |
| ReplayFilters.BasisKnown | src/backtesting/replay_filters.py:252-290 | the basis verdict depends only on closed bars |
| ReplayFilters.TopLsKnown | src/backtesting/replay_filters.py:293-329 | the crowding verdict depends only on rows dated up to the time |
| ReplayFilters.CvdKnown | src/backtesting/replay_filters.py:332-379 | the flow verdict on one list depends only on closed bars |
| ReplayFilters.NoLookaheadIff | src/backtesting/replay_filters.py:416-485 | the chain's verdict and rule are those on what was known, if and only if the flow filter's fallback does not switch lists, or an earlier filter decides, or the spot list is not blocked either |
| ReplayFilters.NoLookahead | src/backtesting/replay_filters.py:416-485 | with the spot list passed as the flow list, as the replay passes it, the chain never looks ahead |
| ReplayFilters.FutureDoesNotMatter | src/backtesting/replay_filters.py:416-485 | two markets that differ only in what is not yet known get the same verdict |
| ReplayFilters.FallbackLeaks | src/backtesting/replay_filters.py:479 | a concrete market on which the fallback looks ahead |
| ReplayFilters.RunVolatility | src/backtesting/replay_filters.py:179-208 | the volatility loops compute the verdict |
| ReplayFilters.RunOiDelta | src/backtesting/replay_filters.py:211-249 | the forward scan computes the verdict, the same for both sides |
| ReplayFilters.RunBasis | src/backtesting/replay_filters.py:252-290 | the two backwards scans compute the verdict |
| ReplayFilters.RunTopLs | src/backtesting/replay_filters.py:293-329 | the forward scan computes the verdict |
| ReplayFilters.RunCvd | src/backtesting/replay_filters.py:332-379 | the window sum computes the verdict |
| ReplayFilters.RunOfflineFilters | src/backtesting/replay_filters.py:416-485 | the chain computes its verdict, which is the decision plain arithmetic on the market gives: regime gate, bypasses, then the first block in order |
| ReplayFilters.RunMeans | src/backtesting/replay_filters.py:416-485 | the verdict and its rule are exactly the first block whose condition holds, in the order of the chain |
| ReplayFilters.HourMeans | src/backtesting/replay_filters.py:134-146 | blocked if and only if it is between 2 and 7 in the morning, the symbol is no major and the funding is within 0.2% |
| ReplayFilters.SmallMeans | src/backtesting/replay_filters.py:123-158 | blocked if and only if the symbol and one already held are outside the two upper tiers |
| ReplayFilters.VolatilityMeans | src/backtesting/replay_filters.py:161-208 | blocked if and only if 15 bars have closed and the mean of the last 14 ranges is under 0.5% or over 8% of the last close |
| ReplayFilters.OiMeans | src/backtesting/replay_filters.py:211-249 | blocked if and only if open interest has not grown by 3% on a positive value of an hour ago |
| ReplayFilters.BasisMeans | src/backtesting/replay_filters.py:252-290 | blocked if and only if the last closed future is over 0.1% above the spot for a long, below it for a short |
| ReplayFilters.CrowdMeans | src/backtesting/replay_filters.py:293-329 | blocked if and only if the latest ratio is over 2.5 for a long, or positive and under 0.5 for a short |
| ReplayFilters.FlowMeans | src/backtesting/replay_filters.py:332-379 | blocked if and only if the four last closed bars saw takers and their flow is over 500 against the side |

## Left out

* Network calls, signing, WebSocket plumbing, JSON and CSV encoding, alerts, logs, databases and prompts. An exchange
  order is a reply (filled, failed, raised); a write replaces a file as a whole, and one that fails is one that never
  happens; the CSV caches of the loaders are not modelled.
* The brain, protections, drawdown guard, entry filters, indicator and regime modules, and the funding fetch: their
  results are inputs. The regime of the offline chain is a value; how it is looked up is not modelled.
* Floating point: `round(..., 10)` and rounding errors. The square root of the impact model is any non-negative root.
* Real threads: interleavings are those of the state machine's steps (lock sections, exchange replies and
  writes of the state file). The executor object itself is single-threaded; the reconcile it runs before an open and
  after a close is a step of the protocol and an operation of `WatchdogSync`, not a part of the object's methods.
* The watchdog model works on values: one engine, sequential operations, atomic shared map and state file, one exchange
  row per symbol. Races between the two processes and at most one position per symbol under concurrent opens are not
  claimed.
* A restart is a step of the protocol and, for one position, a function; rebuilding position objects from the file,
  the defaults for missing fields and an unreadable file are not modelled. A start that keeps a freshly fetched balance
  is a restart and an overwrite.
* OKX specifics, server-side stop orders, dust clean-up, CVD subscriptions made by the executor, loss analysis,
  excursion statistics, cooldowns, peak balance and drawdown statistics of the replay.
* Monotone stops in `src/main.py`: its high-volatility branch widens them; trailed and regime-adjusted stops enter
  `CostBasis.Position.CheckExit` as values. Total commission and percentage fields are not tracked there.
* Positions of the simulator and of the replay are values in sequences; aliasing of position objects between lists is
  not captured. A candle in the simulator never carries a symbol of its own, as in the source's candles.
* Upper- and lower-casing of symbols and strategy names, and the renaming of 1000-prefixed contracts: names are taken
  as already normalised. Reason strings of filter verdicts and signals.
* The server of the loaders answers every request; a failed futures request, which the loader treats as an empty one,
  is not modelled. `sort` is modelled as a stable insertion sort on values.
* The signal rules that feed the replay's events, walk-forward windows, the carry poller, the divergence signal and
  the ranking of accelerators.
- Executors.Executor.OpenPosition: the reconcile and the daily reset that come before the checks are steps of the
  protocol, not part of the method, and the volatility the entry filters measure is an input.
- Executors.Executor.RestartKeepsBooks: speaks of cash, fees, tracked contracts and history only; what becomes of trails
  moved since the last save is `StaleSaves.StaleTrail`.
- CostBasis.AverageCostIdentity: assumes every fill's size is its price times its quantity, and that a sell sells the
  quantity asked for, as the accounting itself does.
- Pagination.LoadKlines: the history is assumed to be disjoint candles in order, none opening before the epoch.
- Slippage.WorstTradeLoss: stated for bars whose extremes bound a positive close, and for a non-negative target.
- ReplayLoop.SettlementIsExact: events in time order, as the source sorts them, and bars in time order.
- Liquidations.LiveMatchesOffline: at one instant; the live score reads the clock once for each side.
