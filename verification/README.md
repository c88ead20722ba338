# A verified model of Ollie's signal ledger, strategy and backtest

This project models, in Dafny, the parts of the backend whose correctness is hardest to see by reading one
function, and proves properties of them that hold for every input, every run or every interleaving.

It has three parts.

1. **The ledger as a concurrent system.** `Ledger` and `Lots` give each database statement as one atomic
   function on the tables. `Storage.Database` holds the tables as an object whose methods are those
   statements. `Protocol` runs the decision route, the autonomy, expiry and publish sweeps and the order poll
   against the tables and a broker, one statement at a time, in any order, any of them dying anywhere.
   `ProtocolInvariant`, `ProtocolTheorems`, `Recovery` and `Stranded` say what all those runs keep, what a
   poll and a sweep repair, and what nothing repairs. `Executor`, `Decisions`, `Sweeps`, `Pipeline` and
   `Portfolio` are the jobs themselves, as methods on the database object; `DecisionRuns` and lemmas beside the
   jobs tie them to the protocol's runs. `LotRuns`, `LotRunLaws`, `TiedClose`, `MarkLaws`, `TimeStop`, `Stats`,
   `PublishedHistory`, `CurveIdentity` and `TrackRecordLaws` follow lots from opening to the published numbers;
   `FillRows` and `FillTrail` tie every row to the fill it reports; `Safeguards` says when an approval acts and
   when nothing does; `Exposure`, `PositionCap` and `PipelineLaws` follow the caps and what the pipeline may sell.
2. **Strategy, risk gate and backtest.** `Indicators`, `IndicatorLaws`, `IndicatorValues`, `Strategy`, `RuleLaws`,
   `Risk`, `RiskLaws`, `Backtest` and the theorems about it: no look-ahead, slippage that changes prices only,
   what every trade was filled at and earned, what each day goes by, conservation, and an error that cannot
   happen.
3. **The OpenAPI post-processing.** `JsonValues`, `Pruning`, `Nullability`, `NullabilityLaws`.

Loops and classes in the program are loops and classes here, each method proved equal to a function of its
inputs or of the old tables; the theorems are about those functions. A SQL query is a function of the tables,
or a parameter constrained to list what the query selects. Clocks, quotes, broker answers, reviews and the ids
the database draws are parameters, and the theorems hold for all of them but for the assumptions named below.
Money and indicators are exact reals with the program's own half-up roundings written out.

## What the proofs found

- **A crash between the execution row and the lot row loses the lot for good.** Execution and settlement are
  separate statements, and every later step that would open the lot is guarded by the execution's absence
  (`Stranded.CrashStrands`, `Stranded.StrandedForever`). `Stranded.LotOpensIffCarried` is the exact condition.
  A sell is stranded in the same way (`Stranded.StrandedSaleForever`).
- **A sell at the instant its lot was last written may not close it.** The newest row is chosen by time, then by
  an id the database draws at random, and one sweep or poll stamps all it writes with one instant. Then the
  sell commits, its lot stays listed as open, and a later sell closes it again (`TiedClose.TiedCloseTakesNoEffect`).
  A sell is sure to close what it selects exactly when each selected lot's newest row is strictly older
  (`LotRunLaws.SellSurelyCloses`), which a caller can check; under that guard conservation, closing once and the
  curve identity hold for every run and every draw.
- **"Oldest first" is by the newest row's time.** A mark run gives every lot it marks one time, and ties fall
  back to the signal id, so a younger lot can be consumed first (`MarkLaws.OldestFirstFails`; exactly when:
  `MarkLaws.OldestFirstUnlessTied`). The comment at `executor.ts:329` promises age; the model follows the code.
- **The pipeline's time stop counts from the newest row too.** A lot marked every day is never stopped
  (`TimeStop.DailyMarksHoldOffTheStop`; exactly when it counts from the opening: `TimeStop.StopCountsFromOpening`),
  where the comment at `pipeline.ts:131` says "opened".
- **The position cap does not hold over runs**: the gate counts open lots and not pending buys
  (`PositionCap.PositionCapCanFail`). It holds exactly when every run's buys fit beside what is open and pending
  (`PositionCap.PositionCapHoldsIffBuysFit`). The total-exposure cap does hold over runs.
- **The risk gate alone is not independent of order**: candidates that share a symbol and a rule can swap
  outcomes (`RiskLaws.SharedKeyMatters`; exactly when: `RiskLaws.OrderMattersIffKeysShared`). Neither caller
  sends it two such candidates (`Pipeline.GateOrderIsIrrelevant`, `BacktestTheorems.GateOrderIsIrrelevant`), so
  no run of the program is affected.
- **RSI mirrors around 50 exactly unless nothing moved** (`IndicatorLaws.RsiMirror`).
- **The nullability rewrite is not idempotent on every document** (`NullabilityLaws.TwiceIsNotOnce`); exactly when
  it is: `NullabilityLaws.RewriteIsIdempotentIffQuiet`.

## Assumptions

- One poll runs at a time (`scheduler.ts` starts jobs without waiting for them; the protocol's poller is one).
- A broker's terminal states are final, and one reference id is one order.
- Lot, mark, curve and exposure results take each job or decision as one step, and a clock that never goes
  back. The protocol results do not: they are at the granularity of single statements.
- A bought signal is settled once (at most one execution is a protocol result). Conservation, closing once and
  the curve identity are stated for runs in which every sell comes after the lots it closes (`LotRuns.AlwaysLater`);
  the mark, age and lot-agreement results need no such guard.
- `DecisionRuns` takes the broker's scripts as staying where they settle, and its signals as having no broker
  order before they are decided, which every reachable state satisfies (`DecisionRuns.ReachableIsUnplaced`).
- Recovery results take the broker as answering throughout the poll, with a price and a quantity for each fill.

## Model

| member | source | states |
|---|---|---|
| Storage.Database.InsertSignal | backend/src/db/signals.ts:62-89 | the database object's whole new state after a proposal, and the duplicate error when its key is taken |
| Storage.Database.TransitionSignal | backend/src/db/signals.ts:97-119 | the whole new state; succeeds if and only if the signal exists and is pending |
| Storage.Database.PublishSignal | backend/src/db/signals.ts:136-148 | the whole new state; succeeds if and only if the signal exists and is unpublished |
| Storage.Database.RecordExecution | backend/src/db/executions.ts:16-30 | appends one execution and changes nothing else |
| Storage.Database.RecordPlacedOrder | backend/src/db/liveOrders.ts:24-40 | an upsert: a known broker order keeps its row, its signal and its placement time |
| Storage.Database.UpdateOrderFromBroker | backend/src/db/liveOrders.ts:51-67 | replaces the order's report, poll time and terminal stamp, nothing else |
| Storage.Database.AppendTrackRecord | backend/src/db/trackRecord.ts:31-50 | appends one row and changes nothing else |
| Storage.Database.CloseLots | backend/src/db/trackRecord.ts:189-232 | the loop closes every listed lot or rolls the tables back to what they were |
| ProtocolTheorems.EveryInterleaving | backend/src/db/signals.ts:97-162 | in every reachable state: one event per decided signal, saying the decision; at most one execution, in the signal's own mode, only when approved, not in the future; publication only after the fill it discloses |
| ProtocolTheorems.DoKeeps | backend/src/server/routes/signals.ts:193-260 | every statement of every actor keeps the whole invariant, other actors standing anywhere |
| ProtocolTheorems.ExecKeeps | backend/src/orchestrator/autonomy.ts:66-119 | so does every sequence of statements, crashes included |
| ProtocolTheorems.PollSafety | backend/src/orchestrator/orders.ts:71-171 | in every reachable state a stamped order is in the broker's final state, its fill if any is well formed and on record in the broker's numbers; a malformed fill is never stamped |
| ProtocolTheorems.StampedFill | backend/src/orchestrator/orders.ts:90-171 | the same from the invariant alone |
| ProtocolTheorems.RecordIsOwn | backend/src/orchestrator/orders.ts:107-119 | the execution found for an order's signal is that order's own, with the broker's price and quantity |
| ProtocolTheorems.HistoryIsPermanent | backend/prisma/migrations/20260804164305_immutability_triggers/migration.sql:1 | over every run: events, executions and rows only grow, a decision and a publication never change, and a proposal's own fields never do |
| FillTrail.EveryRowSaysItsFill | backend/src/orchestrator/executor.ts:107-140 | in every reachable state a lot's rows carry the price and the shares its own signal's one execution was filled at, its opening row the time too, and a closing row the price and time of the sell's execution it names and the gain at that price |
| Recovery.PollOnceShrinks | backend/src/orchestrator/orders.ts:53-180 | every statement of a poll lowers its measure, so a poll nothing interrupts ends |
| Recovery.RunPollIsARun | backend/src/orchestrator/orders.ts:44-184 | that poll is one of the protocol's runs |
| Recovery.PollRecovers | backend/src/orchestrator/orders.ts:44-184 | from any sound state one answered poll stamps every finished order and records each of its fills exactly once |
| Recovery.SweepPublishesAll | backend/src/orchestrator/publish.ts:32-63 | from any sound state one sweep leaves no approved, executed signal unpublished, and touches nothing but publication |
| Recovery.CrashRecovery | backend/src/orchestrator/publish.ts:11-19 | after any interleaving with any crashes: one answered poll, then one sweep, leave every finished order stamped, every reported fill with exactly one execution in its numbers, nothing filled unpublished |
| Stranded.StrandedForever | backend/src/orchestrator/executor.ts:180-192 | an executed buy with no lot and nobody carrying it never gets a lot, in any run, recovery included |
| Stranded.LotOpensIffCarried | backend/src/orchestrator/orders.ts:107-126 | an executed buy without a lot can still get one if and only if some actor stands between its execution and its lot |
| Stranded.CrashStrands | backend/src/orchestrator/executor.ts:180-192 | a concrete run that ends stranded |
| Stranded.StrandedSaleForever | backend/src/orchestrator/orders.ts:107-126 | an executed sell that closed nothing and that nobody carries never has a lot closed for it, in any run, recovery included |
| LotsLaws.NewestIsNewest | backend/src/db/trackRecord.ts:94-102 | the row taken for a signal is newest by time, then id |
| LotsLaws.ListOpenLotsSound | backend/src/db/trackRecord.ts:81-119 | the listing has each signal whose newest row is open, once, as that row says, and nothing else |
| LotsLaws.QueueSound | backend/src/orchestrator/executor.ts:345-350 | a sell's queue is every open lot of the symbol once, in newest-row-time order |
| LotsLaws.SelectIsLongestPrefix | backend/src/orchestrator/executor.ts:340-357 | a sell takes the longest front part of the queue its shares cover: one more lot would overshoot |
| LotsLaws.CloseLotsSucceeds | backend/src/db/trackRecord.ts:196-231 | the transaction succeeds if and only if every listed lot is open |
| LotsLaws.SelectThenClose | backend/src/orchestrator/executor.ts:112-125 | so a sell that selects and closes without interruption never fails |
| Executor.SelectLotsToClose | backend/src/orchestrator/executor.ts:340-357 | the loop with its break computes that selection |
| Executor.SettleLots | backend/src/orchestrator/executor.ts:107-140 | a fill's rows, or no change and the error; ties the database's new state to the settling function |
| Executor.SettleFailsOnlyWithNothingToClose | backend/src/orchestrator/executor.ts:97-126 | uninterrupted settling fails if and only if a sell has nothing to close, and writes only rows |
| FillRows.SettledBuyOpensItsLot | backend/src/orchestrator/executor.ts:127-139 | a settled buy lists one more open lot, of the shares filled, at the fill's price and time, and leaves every other lot as listed |
| FillRows.SettledSellClosesItsLots | backend/src/orchestrator/executor.ts:112-125 | a settled sell writes one closing row for each lot selected, in the queue's order, at the fill's price and time, naming the sell, of the lot's own size and entry, with its gain |
| FillRows.GainIsProceedsLessCost | backend/src/db/trackRecord.ts:205-222 | a gain is what the shares bring in less what they cost |
| FillRows.SharesOpenedAreBought | backend/src/orchestrator/executor.ts:127-139 | in every run, whatever ids are drawn, the shares that lots of a symbol opened with are the shares its fills bought |
| Safeguards.KillSwitchStopsExecution | backend/src/orchestrator/executor.ts:85-89 | with either half of the kill switch on, an execution changes neither tables nor broker |
| Safeguards.ExecutesIff | backend/src/orchestrator/executor.ts:150-310 | a paper signal fills if and only if neither half of the kill switch is on and a sell's first lot is no larger than it; a live order is placed if and only if neither half is on, both live gates are open, the review answers, the broker takes it and a sell has an open lot; else nothing changes |
| Safeguards.PaperFillWrites | backend/src/orchestrator/executor.ts:158-192 | a paper fill is one execution of the whole quantity at the reviewed price made worse by the basis points, to half a millionth; no order, no broker |
| Safeguards.LiveOrderWrites | backend/src/orchestrator/executor.ts:266-310 | a live approval gives the broker one order under the signal's own reference, the one it had if it knew it, and the tables its row, unfilled and open; nothing is executed |
| Safeguards.ApprovedIff | backend/src/server/routes/signals.ts:284-330 | a pending signal comes out approved if and only if approval was asked for and neither half of the kill switch is on, a live one has both gates and the confirmation, and a sell has an open lot; refused it stays pending, nothing changes and the reply names the first reason |
| Safeguards.ApprovalActs | backend/src/server/routes/signals.ts:193-260 | an approval is followed by its fill or its order exactly when the executor, reading again, finds nothing in the way |
| Executor.PaperExecutor | backend/src/orchestrator/executor.ts:150-209 | the slipped fill, its execution and its rows, or no trace at all when halted or when there is nothing to close |
| Executor.LiveExecutor | backend/src/orchestrator/executor.ts:233-310 | past the kill switch, both live gates and a review that answers: the broker's order for the signal's own reference, its row, and no execution |
| Executor.ExecuteSignal | backend/src/orchestrator/executor.ts:318-326 | a signal is carried out in the mode it was created in |
| Brokerage.MockBroker.PlaceEquityOrder | backend/src/orchestrator/robinhood/mockClient.ts:179-195 | the same reference id gets the same order and no second one; an unscripted symbol is refused without a trace |
| Brokerage.MockBroker.GetEquityOrder | backend/src/orchestrator/robinhood/mockClient.ts:197-224 | reports the next step, moves that order only, and an order that finished under a script that settles reports the same forever |
| Decisions.DecideSignal | backend/src/server/routes/signals.ts:161-330 | the route's whole effect on tables and broker and its reply, for every signal, action, mode and confirmation, and for the kill switch and live gates as read before the transition and again by the executor |
| Decisions.SweepAutonomy | backend/src/orchestrator/autonomy.ts:48-122 | the sweep's whole effect, halted and switched off included; each due signal is approved and carried out, with the gates as the executor then reads them, or counted as skipped |
| Decisions.SweepExpired | backend/src/orchestrator/pipeline.ts:411-447 | every stale signal ends expired, and exactly those are reported |
| DecisionRuns.DecisionIsARun | backend/src/server/routes/signals.ts:161-330 | an uninterrupted decision, paper or live, approved, rejected, refused or stopped at a gate, does to the tables and the broker what the protocol's statements do one by one |
| DecisionRuns.AutonomySweepIsARun | backend/src/orchestrator/autonomy.ts:66-119 | so does a whole autonomy sweep with its one instant, whatever the modes and gates of the signals due |
| DecisionRuns.ReachableIsUnplaced | backend/src/orchestrator/executor.ts:219-275 | in every reachable state the broker knows no order of a pending signal |
| Sweeps.PollOpenOrders | backend/src/orchestrator/orders.ts:44-184 | the loop's whole effect on the tables; its counts are the orders, the executions added, the orders ended unfilled and the unusable answers |
| Sweeps.PollOrderEffect | backend/src/orchestrator/orders.ts:71-171 | one order in hand: stamped if and only if it is over and its fill, if it was filled or ended with shares, has price and quantity; such a fill not on record is recorded once in the broker's numbers and its signal published; otherwise only the report changes |
| Sweeps.PollIsARun | backend/src/orchestrator/orders.ts:53-180 | an uninterrupted poll does to the tables exactly what the protocol's poll statements do |
| Sweeps.FillLeavesOrders | backend/src/orchestrator/orders.ts:107-135 | recording a fill adds an execution if and only if there was none, and leaves orders alone |
| Sweeps.SweepUnpublished | backend/src/orchestrator/publish.ts:32-63 | the publish loop's whole effect |
| Sweeps.SweepIsARun | backend/src/orchestrator/publish.ts:32-63 | it is one of the protocol's runs |
| Sweeps.RunMarkToMarket | backend/src/orchestrator/marks.ts:46-131 | the mark loop's whole effect, its count and its gaps; nothing is written when halted or without quotes |
| Portfolio.PaperPositions | backend/src/orchestrator/paperPositions.ts:19-47 | one position per symbol with an open lot: summed shares, all sellable, cost over shares as average |
| PipelineLaws.AverageBuyPriceIsCost | backend/src/orchestrator/paperPositions.ts:24-43 | a position's average price times its shares is what its lots cost, lot by lot, and lies within the prices they were bought at |
| Pipeline.RunPipeline | backend/src/orchestrator/pipeline.ts:62-396 | the whole run: positions by mode, rules and time stop per symbol, dedupe, gate, review and insert; the whole new state, every candidate accounted for once, nothing written when halted |
| Pipeline.Generate | backend/src/orchestrator/pipeline.ts:151-209 | the loop over the configured symbols: a rule's candidate, else the time stop's |
| Pipeline.PersistedSignalsPropose | backend/src/orchestrator/pipeline.ts:290-327 | each signal a run creates says its accepted candidate's symbol, side and quantity, its review's price, the run's mode, key, time and veto deadline, and is pending; the signals there were are untouched |
| PipelineLaws.ExitsSellWhatIsHeld | backend/src/orchestrator/pipeline.ts:118-207 | every exit a run considers is for exactly what is held: the open lots' shares on paper, the broker's sellable figure live |
| PipelineLaws.RulesComeBeforeTheStop | backend/src/orchestrator/pipeline.ts:151-209 | a rule's proposal comes before the time stop's, which is only about a symbol held and listed with a lot |
| PipelineLaws.SellsFitWhatIsHeld | backend/src/orchestrator/pipeline.ts:211-259 | whatever is asked for, a run lets no sell through for more than is held and no candidate whose key a signal has |
| Pipeline.GateOrderIsIrrelevant | backend/src/orchestrator/pipeline.ts:149-259 | what a run puts before the gate has no two candidates of one symbol and rule, so in every real run their order is irrelevant |
| LotRuns.RunKeeps | backend/src/db/trackRecord.ts:26-50 | over every run of jobs, whatever ids are drawn, each lot is one opening row, then marks, at most one a day, and closing rows, in order of time, of one entry price and size, with matching realized and unrealized figures; if every sell comes after the lots it closes, a closing row is the lot's last and strictly latest |
| LotRunLaws.LotRowsAgree | backend/src/db/trackRecord.ts:210-228 | in every run, whatever ids are drawn, a lot's rows share one entry price and one size, it opens once, and it is marked once a day |
| LotRunLaws.LotClosesOnce | backend/src/db/trackRecord.ts:199-228 | in every run whose sells come after the lots they close, whatever ids are drawn, a lot closes at most once and its closing row is its last |
| LotRunLaws.SharesConserved | backend/src/orchestrator/executor.ts:107-140 | in every run whose sells come after the lots they close, whatever ids are drawn, per symbol: shares opened are shares closed plus shares open |
| LotRunLaws.SellSurelyCloses | backend/src/db/trackRecord.ts:196-231 | a sell closes all it selects for every ids the database may draw if and only if the newest row of each selected lot is strictly older than now |
| TiedClose.TiedCloseTakesNoEffect | backend/src/orchestrator/autonomy.ts:49-95 | a concrete run, one sweep approving a sell, a buy and a sell at its one instant, that commits a closing row and leaves the lot open, closes it twice and ends with nine shares closed of six opened |
| MarkLaws.MarkRunEffect | backend/src/orchestrator/marks.ts:89-124 | whatever ids are drawn, a run moves to its instant exactly the open lots that have a quote and no mark yet that day, and opens and closes none |
| MarkLaws.MarkingIsIdempotent | backend/src/db/trackRecord.ts:234-260 | whatever ids are drawn, a second run on the same UTC day with no newly quoted symbol writes nothing |
| MarkLaws.MarkingNeverInvertsAge | backend/src/orchestrator/marks.ts:89-124 | in every run of jobs, whatever ids are drawn, the older of two open lots of a symbol has no later newest row, and every mark day the younger has |
| MarkLaws.QueueBreaksTies | backend/src/orchestrator/executor.ts:350 | the queue is ordered by newest-row time, then signal id |
| MarkLaws.OldestFirstUnlessTied | backend/src/orchestrator/executor.ts:329-350 | in every run, whatever ids are drawn, the younger of two lots is consumed first if and only if their newest rows tie in time and it has the smaller signal id |
| MarkLaws.MarkedTogetherTie | backend/src/orchestrator/marks.ts:109-122 | any two lots one run marks share one newest-row time |
| MarkLaws.OldestFirstFails | backend/src/orchestrator/executor.ts:329-350 | a run in which it is, whatever ids are drawn |
| Pipeline.OpenedBySymbol | backend/src/orchestrator/pipeline.ts:136-140 | the loop computes the map of listed times |
| TimeStop.ListedTimesAreEarliest | backend/src/orchestrator/pipeline.ts:136-140 | that map holds, per symbol with a lot, the earliest listed time, and nothing else |
| TimeStop.ListedTimeIsOpeningTime | backend/src/db/trackRecord.ts:136-139 | the listed time is the opening time if and only if every row of the lot is of that instant |
| TimeStop.FiresIffEnoughBars | backend/src/orchestrator/strategy/exits.ts:29-59 | the stop fires if and only if it is on and enough traded bars are later than the time it is given |
| TimeStop.StopCountsFromOpening | backend/src/orchestrator/pipeline.ts:131-140 | the time the stop is given for a symbol is its oldest lot's opening if and only if some open lot of it has all its rows at that instant; otherwise it is later |
| TimeStop.MarkingRestartsTheClock | backend/src/orchestrator/pipeline.ts:131-207 | whatever ids are drawn, a symbol just marked is not time-stopped until that many bars trade after the mark run, however old its lots |
| TimeStop.DailyMarksHoldOffTheStop | backend/src/orchestrator/pipeline.ts:131-207 | runs of any length: a lot marked on every day since it opened is never time-stopped, though counted from its opening it would be from the configured day on |
| Stats.LatestPerSignal | backend/src/orchestrator/trackRecordStats.ts:51-59 | the map loop computes one row per signal, in first-seen order |
| Stats.BuildCurve | backend/src/orchestrator/trackRecordStats.ts:92-134 | the loops compute the point of every recorded day |
| Stats.ComputeTrackRecord | backend/src/orchestrator/trackRecordStats.ts:47-81 | the published totals and rates; no answer rather than zero without closed trades |
| TrackRecordLaws.ClosedTradesSayTheirGains | backend/src/orchestrator/trackRecordStats.ts:59-64 | in sound books every trade counted as closed carries its exit and the gain made by it |
| TrackRecordLaws.WinRateCountsRises | backend/src/orchestrator/trackRecordStats.ts:63-75 | the win rate is the share of closed trades left above their entry, within 0 and 1, and absent without any |
| TrackRecordLaws.AverageReturnIsUnweighted | backend/src/orchestrator/trackRecordStats.ts:66-77 | the average return is the plain mean of exit over entry less one; sizes do not weigh in |
| TrackRecordLaws.RealizedIsProceedsLessCost | backend/src/orchestrator/trackRecordStats.ts:64 | the realized total is what the closed trades brought in less what they cost |
| PublishedHistory.CurveByDay | backend/src/orchestrator/trackRecordStats.ts:92-134 | what was published by a day is the curve of the rows recorded by that day |
| PublishedHistory.PublishedHistoryIsStable | backend/src/orchestrator/trackRecordStats.ts:92-134 | rows appended for later days change no published point |
| PublishedHistory.FoldAgreesWithNewest | backend/src/orchestrator/trackRecordStats.ts:48-57 | on the sorted listing the fold holds for each signal the row the newest-row query selects |
| PublishedHistory.CountsAgree | backend/src/orchestrator/trackRecordStats.ts:59-73 | open positions are the listed open lots; with the closed ones they are all lots there are |
| CurveIdentity.MarkToMarket | backend/src/orchestrator/trackRecordStats.ts:83-134 | in settled books a point is withheld if and only if an open lot lacks that day's mark, and else is the sum over lots opened by then of (exit or mark, minus entry) times size |
| CurveIdentity.CurveIsMarkToMarket | backend/src/orchestrator/trackRecordStats.ts:92-134 | the same for every point of the curve in every run whose sells come after the lots they close, whatever ids are drawn |
| Exposure.CapsHoldOverRuns | backend/src/orchestrator/pipeline.ts:231-259 | over every run of pipeline runs, decisions, expiries and marks: open lots plus pending buys stay within the exposure cap, and no UTC day gets more signals than the daily cap |
| Exposure.CommittedCoversStakes | backend/src/orchestrator/risk.ts:81-87 | what the gate starts from is at least what is at stake in open lots and pending buys |
| PipelineLaws.CommittedCountsAllPending | backend/src/orchestrator/risk.ts:81-87 | and is the worth of the positions plus that of every pending signal, of either side |
| Exposure.DecisionUnstaked | backend/src/server/routes/signals.ts:193-260 | a decision stakes nothing new: a pending buy becomes a lot of its own size |
| PositionCap.GateSeesOpenLots | backend/src/orchestrator/risk.ts:90-96 | the gate's figure for a symbol is the worth of its open lots |
| PositionCap.OneBuyFitsExactly | backend/src/orchestrator/risk.ts:147-157 | a run asking for one fresh, reviewed buy keeps lots and pending buys of its symbol within the cap if and only if a reason of the gate's own stands against it or what is open and pending leaves room for it |
| PositionCap.RunAddsItsBuys | backend/src/orchestrator/pipeline.ts:250-327 | a pipeline run adds to the stake in a symbol exactly the buys of it that it proposes |
| PositionCap.PositionCapHoldsIffBuysFit | backend/src/orchestrator/risk.ts:147-157 | over every run: a symbol is within the cap at every point if and only if, at every pipeline run, its lots and pending buys left room for the buys that run proposed |
| PositionCap.PositionCapHoldsIfGuarded | backend/src/orchestrator/risk.ts:147-157 | in particular if no run asks to buy a symbol with a buy of it pending |
| PositionCap.PositionCapCanFail | backend/src/orchestrator/risk.ts:147-157 | a concrete run without the guard that exceeds the cap |
| Money.SlippageWorsens | backend/src/money.ts:58-66 | more slippage never lowers what a buyer pays nor raises what a seller gets, rounding included |
| Money.SlippedPrice | backend/src/money.ts:58-66 | the slipped price is a whole number of millionths, within half of one of the price so many basis points worse |
| Money.SharesForNotional | backend/src/money.ts:47-51 | the most whole shares the target pays for, and none at a price that is not positive |
| Money.WholeNotional | backend/src/money.ts:33-39 | whole shares at a whole-cent price are valued without rounding |
| Money.NotionalIsNearest | backend/src/money.ts:33-39 | the cents nearest the exact value, half a cent going away from zero |
| Indicators.Ema | backend/src/orchestrator/strategy/indicators.ts:24-42 | the loop computes the recursive average, or the range error |
| Indicators.Rsi | backend/src/orchestrator/strategy/indicators.ts:50-77 | the loop computes Wilder's smoothed index, or the range error |
| Indicators.RsiFrom | backend/src/orchestrator/strategy/indicators.ts:79-83 | always within 0 and 100 |
| Indicators.Macd | backend/src/orchestrator/strategy/indicators.ts:99-137 | the composition of averages, placed on the bars they belong to, or the range error |
| IndicatorLaws.EmaCausal | backend/src/orchestrator/strategy/indicators.ts:24-42 | the value on a bar depends only on bars up to it |
| IndicatorLaws.RsiCausal | backend/src/orchestrator/strategy/indicators.ts:50-77 | likewise |
| IndicatorLaws.MacdCausal | backend/src/orchestrator/strategy/indicators.ts:99-137 | likewise |
| IndicatorLaws.RsiScaleFree | backend/src/orchestrator/strategy/indicators.ts:50-83 | scaling all closes leaves RSI unchanged |
| IndicatorLaws.MacdScales | backend/src/orchestrator/strategy/indicators.ts:99-137 | scaling all closes scales MACD |
| IndicatorLaws.RsiMirror | backend/src/orchestrator/strategy/indicators.ts:79-83 | on the mirrored series RSI is 100 minus RSI if and only if not both averages are zero |
| IndicatorLaws.EmaWithin | backend/src/orchestrator/strategy/indicators.ts:24-42 | the average stays within the range of its inputs |
| IndicatorLaws.EmaForgets | backend/src/orchestrator/strategy/indicators.ts:24-42 | each shared bar shrinks the gap of two averages by (period-1)/(period+1) |
| IndicatorValues.EmaTrails | backend/src/orchestrator/strategy/indicators.ts:24-42 | on a steady climb an average trails the price by exactly half of period - 1 bars |
| IndicatorValues.MacdOnASteadyChart | backend/src/orchestrator/strategy/indicators.ts:99-137 | on a steady climb MACD and its signal line are the climb times half the difference of the periods, and the histogram zero |
| IndicatorValues.RsiOnASteadyChart | backend/src/orchestrator/strategy/indicators.ts:50-83 | RSI is 100 while prices climb or stand still and 0 while they fall |
| IndicatorValues.RsiIsTheGainsShare | backend/src/orchestrator/strategy/indicators.ts:79-83 | RSI is the gains' share of all movement in percent, 100 without movement |
| IndicatorValues.WilderForgets | backend/src/orchestrator/strategy/indicators.ts:64-74 | each shared change shrinks the gap of two of Wilder's averages by (period-1)/period |
| Strategy.RequiredBarsExact | backend/src/orchestrator/strategy/technical.ts:187-191 | every reading on the last two bars exists if and only if there are that many bars |
| Strategy.InsufficientHistoryMeansTooFewBars | backend/src/orchestrator/strategy/technical.ts:46-72 | insufficient history is reported if and only if traded bars are too few; the second check is dead |
| Strategy.TechnicalSizing | backend/src/orchestrator/strategy/technical.ts:102-140 | an exit is for exactly the shares held, an entry for a positive whole number |
| RuleLaws.RulesActOnCrossings | backend/src/orchestrator/strategy/technical.ts:34-179 | the whole answer in terms of the RSI and MACD of the traded closes: which of four crossings, in which order, proposes which side, in which size and with which bar and close; no rule fired if and only if there was history and none of the four happened; and exactly when an entry or exit is passed over |
| RuleLaws.FirstCrossingFires | backend/src/orchestrator/strategy/technical.ts:161-179 | the rule reported is the first of the fixed order whose crossing happened, with its side |
| RuleLaws.MirrorSwapsCrossings | backend/src/orchestrator/strategy/technical.ts:161-179 | on the chart upside down, with thresholds to match, each crossing happens if and only if its twin did |
| RuleLaws.MirrorSwapsTheTrade | backend/src/orchestrator/strategy/technical.ts:147-179 | so there the opposite trade is proposed for the twin reason, if and only if the last bar does not call for both a buy and a sell |
| Strategy.RuleScaleFree | backend/src/orchestrator/strategy/technical.ts:161-179 | the fired rule does not depend on the unit of price |
| Risk.ApplyRiskCaps | backend/src/orchestrator/risk.ts:58-181 | the program's loop, early continues and running maps, computes the greedy pass |
| RiskLaws.CountersAreSums | backend/src/orchestrator/risk.ts:81-96 | the running counters are sums over what has been accepted |
| RiskLaws.VerdictIsJustified | backend/src/orchestrator/risk.ts:102-181 | at its turn a candidate is accepted if and only if no reason against it holds, and refused for the first that does |
| RiskLaws.GatePartitions | backend/src/orchestrator/risk.ts:102-181 | accepted and rejected together are the candidates, each once |
| RiskLaws.GateWithinCaps | backend/src/orchestrator/risk.ts:138-171 | what is accepted fits every cap at once |
| RiskLaws.AcceptedInTurn | backend/src/orchestrator/risk.ts:65-71 | what is accepted is accepted symbol by symbol and, within one, in the order of the rules' names |
| RiskLaws.GateForgetsOrder | backend/src/orchestrator/risk.ts:65-71 | candidates of which those that share symbol and rule are equal can arrive in any order |
| RiskLaws.OrderMattersIffKeysShared | backend/src/orchestrator/risk.ts:65-71 | for the gate on any list: what is accepted never depends on the order, whatever the account, if and only if candidates that share symbol and rule are equal; any two that differ are told apart by a daily cap |
| BacktestTheorems.GateOrderIsIrrelevant | backend/src/backtest/simulate.ts:185-233 | a backtest day puts no two candidates of one symbol and rule before the gate, so their order is irrelevant |
| RiskLaws.SharedKeyMatters | backend/src/orchestrator/risk.ts:65-71 | a concrete pair, given to the gate alone, that shares both and swaps outcomes |
| Backtest.CloseLotsFifo | backend/src/backtest/simulate.ts:266-306 | the splice loop computes the FIFO close or the fault |
| Backtest.SimulateDay | backend/src/backtest/simulate.ts:146-249 | one day's loops compute the day function |
| Backtest.Simulate | backend/src/backtest/simulate.ts:120-259 | the program's loop computes the backtest's outcome |
| BacktestLaws.ExitClosesPosition | backend/src/backtest/simulate.ts:274-305 | an exit for all shares held closes exactly that symbol's lots, in order, splitting none |
| BacktestTheorems.NeverSplitsALot | backend/src/backtest/simulate.ts:185-246 | after every day one order per symbol at most, every queued sell equals the shares held, trades held a bar or more, no exit ever refused for lack of shares; so the throw is unreachable |
| BacktestTheorems.BacktestConserves | backend/src/backtest/simulate.ts:154-179 | signals proposed are expired plus unfilled plus trades plus distinct (symbol, exit bar) pairs, and each day's open lots are the trades open that day |
| BacktestTheorems.SellableIsHeld | backend/src/backtest/simulate.ts:340-350 | what the gate may sell is what the lots hold |
| TradeLaws.EveryTradeIsAccounted | backend/src/backtest/simulate.ts:154-305 | every trade: entered as proposed the day before, on an entry rule, in those whole shares, at its bar's open made worse; left, if it was, as proposed the day before, on an exit rule, at that bar's open made worse, having earned to the cent the price difference times its shares and having been held as many bars as the timeline counts |
| TradeLaws.RealizedIsCash | backend/src/backtest/simulate.ts:302 | what a backtest realizes is what its sales brought in less what those shares cost, to half a cent a trade |
| DayLaws.WhatTheGateIsTold | backend/src/backtest/simulate.ts:217-233 | each day the gate sees the shares held, the day's closes for the symbols with a bar, nothing pending and no trade taken yet |
| DayLaws.StopCountsFromTheOldestEntry | backend/src/backtest/simulate.ts:195-215 | a held symbol no rule acts on is to be sold whole exactly when the stop is on and that many bars traded since its oldest lot's entry |
| DayLaws.RulesComeBeforeTheStop | backend/src/backtest/simulate.ts:191-203 | in the backtest too |
| DayLaws.EvaluableIffEnoughBars | backend/src/backtest/simulate.ts:183-190 | a day is evaluable if and only if some symbol has the warm-up's bars through it, synthesized ones counted |
| DayLaws.ApprovalRateExtremes | backend/src/backtest/simulate.ts:235-246 | an owner who approves everything lets nothing expire; one who approves nothing never trades |
| DayLaws.GeneratorIsOneToOne | backend/src/backtest/simulate.ts:358-364 | a step of the generator takes no two states to one and stays where a double is exact |
| DayLaws.TradesAreListedByEntry | backend/src/backtest/simulate.ts:256 | trades are listed by entry, then by symbol |
| LookAhead.NoLookAhead | backend/src/backtest/simulate.ts:146-249 | inputs that agree through a time are in the same state after the last bar through it |
| LookAhead.StateThroughIsKnown | backend/src/backtest/simulate.ts:323-326 | that state is a whole run over only the bars known then |
| LookAhead.HistoryOnlyGrows | backend/src/backtest/simulate.ts:248 | days reported and trades closed never change afterwards |
| Slippage.SlippageChangesPricesOnly | backend/src/backtest/simulate.ts:164-178 | two runs differing in slippage make the same decisions and counters; the larger one never gives a trade a larger result |
| JsonValues.CollectRefs | backend/src/openapiDocument.ts:94-108 | the recursive loop adds exactly the references in a value, however deep |
| JsonValues.RefsOfAReference | backend/src/openapiDocument.ts:102-103 | a reference under the schemas' prefix names that schema; other text names none |
| Pruning.ReachableNames | backend/src/openapiDocument.ts:128-145 | the worklist ends, with exactly the reachable names |
| Pruning.OpenApiDocument.PruneUnreferencedSchemas | backend/src/openapiDocument.ts:122-150 | deletes in place exactly the schemas nothing outside reaches |
| Pruning.NothingNewDangles | backend/src/openapiDocument.ts:110-121 | no reference left dangles unless it did before |
| Pruning.PruningIsIdempotent | backend/src/openapiDocument.ts:122-150 | pruning twice is pruning once |
| Pruning.PruningIsLeast | backend/src/openapiDocument.ts:110-121 | any part of the schemas that leaves nothing newly dangling holds all that is kept |
| Nullability.MergedIsSmaller | backend/src/openapiDocument.ts:68-83 | each rewrite step has fewer values in it, so the recursion ends |
| Nullability.OpenApiFile.ToOpenApi30 | backend/src/openapiDocument.ts:50-92 | finishes if and only if every value converts; the version is set and every other value converted in its place |
| NullabilityLaws.NoIdiomIsLeft | backend/src/openapiDocument.ts:60-84 | without a node having both a null type and `anyOf`, no single branch plus null is left anywhere |
| NullabilityLaws.FixedIffNoIdiom | backend/src/openapiDocument.ts:53-87 | the rewrite changes nothing if and only if there is no such node |
| NullabilityLaws.RewriteIsIdempotentIffQuiet | backend/src/openapiDocument.ts:53-87 | rewriting twice is rewriting once if and only if the rewrite meets no `anyOf` of several branches of which exactly one does not end up a null type; all of it read off the document |
| NullabilityLaws.NoIdiomIsLeftIfQuiet | backend/src/openapiDocument.ts:60-84 | under exactly that condition no single branch plus null is left anywhere |
| NullabilityLaws.RewriteIsIdempotent | backend/src/openapiDocument.ts:53-87 | in particular without a node having both a null type and `anyOf` |
| NullabilityLaws.TwiceIsNotOnce | backend/src/openapiDocument.ts:60-84 | a concrete document without the proviso that changes again |
| NullabilityLaws.OptionalIsOneBranchAndNull | backend/src/openapiDocument.ts:60-68 | what is rewritten: an `anyOf` of several branches of which all but one are the null schema, to that one |
| NullabilityLaws.SpreadArrayKeepsItems | backend/src/openapiDocument.ts:79 | a lone branch that is an array is spread under its indices, written in decimal |
| NullabilityLaws.OptionalBecomesNullable | backend/src/openapiDocument.ts:68-83 | an optional comes out nullable, an optional reference wrapped in `allOf` |
| NullabilityLaws.RewriteSucceedsIffConvertible | backend/src/openapiDocument.ts:70-72 | the rewrite throws if and only if it meets an optional whose lone branch is neither object nor array |
| NullabilityLaws.RewriteSucceeds | backend/src/openapiDocument.ts:70-72 | in particular on no document without such an optional |
| NullabilityLaws.NoReferenceIsInvented | backend/src/openapiDocument.ts:53-87 | the result refers to no schema the document did not |
| NullabilityLaws.RenderingLeavesNothingDangling | backend/src/server/openapi.ts:47-48 | pruned then rewritten, no reference dangles that resolved before |

## Left out

- Symbols and signal ids are integers in one strict order; `localeCompare` and the code-unit `sort` are taken to agree on them. Times are integer milliseconds with a UTC day function.
- Doubles in the indicators and in the published sums, decimal.js's 20 digits, and the rounding of a stored `decimal(18,6)` column: exact reals instead, with the program's explicit roundings.
- Two polls, or two pipeline runs, at once; a close racing inside a mark run.
- An order the broker accepted before the process died and before its row was written: it is invisible to the poll, and no recovery claim covers it.
- In the protocol an actor that the kill switch or a live gate stops is one that dies at that point; the gates themselves are modelled in the decision, sweep, pipeline and mark methods.
- Thesis text, review-snapshot contents beyond the estimated price, broker alerts, notifications, logging and HTTP replies beyond their kind.
- The autonomy, expiry and publish listings' order (`createdAt`, `decidedAt`): the sweeps are proved for every order.
- Default numbers of a scripted mock order (whole quantity at the mock's own estimate): a script states its numbers.
- Object keys that look like integers, which JavaScript moves to the front: objects keep the order they are given in.
- Subscriber onboarding, tokens, the feed projection, push delivery, OAuth and the Swift app: thin, or only easy members.
- Exposure.CapsHoldOverRuns: whole-cent prices that stay fixed and whole shares, as paper entries are sized; with moving prices the caps are checked only when a signal is proposed.
