# Verified models of the Flipster trading scripts

This project models the decision code under `flipster_kattpish/scripts` in Dafny and proves what it
keeps over whole runs. Each Dafny module stands for one component:

- **Two-leg live executor.** `HedgeBooks` is what both venues really hold, whose fill each quantity is,
  and a ledger of the quantities no tracked position explains. `ExecutorMachine` is the executor as
  atomic steps of concurrent tasks (dispatch pool, fallback poll, take-profit thread, shutdown), with
  every exchange reply an input of the step. `ExecutorSafety` holds the theorems over all
  interleavings, `ExecutorSerial` the executor object with handlers run one at a time and its tie to the
  machine, `FlipsterIoc` the manual immediate-or-cancel entry, `GateIoc` the reading of the hedge's answer,
  `ContractSizing` the contract rounding, `TakeProfit` the price rule of the take-profit thread.
- **State machines.** `NrtRotator` is the instance rotation with its hot standby, `MakerBot` the maker
  bot's order lifecycle, `TradeStats` the taker bot's exit bookkeeping and its saves, `SrSignal` the
  spread-reversion signal generator.
- **Structures that must agree with a replay.** `DepthBook`, `PositionTracker`, `PriceHistory`,
  `Throttle`, `OrderCount` and `AsOfJoin`.
- **Outcome classifiers.** `TickScan`, `OutcomeScans`, `Sweep`, `SweepReports` and `MultiWindow`: three
  scans, the sweep that decides again from a stored summary, its reports, and the one-pass scan for
  several windows.
- **Prices.** `Bracket`: tick rounding chained with the cross-book trigger.

Where the source updates an object or runs a loop, there is a class or method proved equal to a
specification function; the theorems are about that function. What an operation decides is stated once
more in prices, quantities and replies, with the literal thresholds: which signals are traded and how the
venues move (`TradesIff`, `EntryTrades`, `ExitTrades`), which tick rotates (`BlockedTickRotatesIff`), what
an exit books (`BookedInPrices`, `ExitLeaves`), which quotes open and close (`QuoteEntersIff`,
`QuoteExitsIff`, `OpensIff`), which histories pass (`PassesIff`), which sends are admitted, and so on.

Prices, times in seconds and sizes are `real`, timestamps, counts and contract numbers `int`. Exchange and
database replies, clock readings and the network are parameters without constraint unless a theorem names one.

## Hypotheses that carry weight

- *Truthful replies* (`ExecutorSafety.Good`): a reported fill is the executed quantity and nothing is
  executed unreported or later, signals name the base and side of the position they close, a base is entered only
  while no other id is live on it, and a successful reduce-only order of 1.5 times the recorded notional
  still covers the leg at the mark price. Only `RunExact`, `ExposureIsRecordedPlusLedger` and
  `HedgedUntilFlagged` need it; order counts and conservation hold for any replies. Two outcomes of the
  manual IOC fall outside it: the margin-only fallback reports an approximate size
  (`FlipsterIoc.MarginOnlyIsApproximate`), and an order that stays on the book without a warning may
  fill later (`FlipsterIoc.RestsUnwarnedIff`; a call that raised after the exchange got the order is one of
  its cases).
- *Honest ticks* (`NrtRotator.HonestRun`, `FreshRun`): a standby that answers its health check exists,
  and the provider never hands out an id twice.
- *Clocks* (`Throttle.Clocked`, `PriceHistory.NonDecreasing`, `OrderCount.NonDecreasingClock`): the wall clock does not go back.
- *Well-formed books* (`Bracket.WellFormed`, `SrSignal.PositiveBooks`): positive, with the bid not above
  the ask where that matters. `TriggerIff`, `RoundsDownIff`, `TimeoutIff` and `EmptyBookEntersIff` say
  what happens without them.

## Where the code does not keep what one would expect

- An exit whose id is taken before its entry records the position, by an early exit or by the pre-seeding
  at start-up, closes it only if its handler pops after the record (`ExitClosesIffPoppedAfterRecord`,
  `RecordStrandsIff`); otherwise only the shutdown handler does (`OnlyShutdownClosesStranded`). With two
  ids on one base a close hits exactly its leg only in one case (`SharedBaseClosesIff`), and such a
  state is reached (`SharedBaseIsReached`).
- The manual IOC can leave an order on the book without its warning. It asks the feed whether a cancel took
  effect and takes a missing row, or a status containing "FILL" such as that of a partly filled order, for
  closed (`PartlyFilledLooksClosed`). `RestsUnwarnedIff` gives all four cases; a feed that is true about
  the order excludes this one (`TrueFeedWarnsIff`).
- A rotation can leave a dead standby on file in two ways: the promoted standby fails its process check,
  or an unhealthy standby is destroyed and the cold replacement fails (`DeadStandbyOnFileIff`). The watch
  loop never replaces it while the primary is healthy, although `provision_standby`
  (`nrt_rotator.py:387-398`) is written to recreate an unhealthy one (`StaleStandbyIsNeverReplaced`).
- The state file is saved after the old primary is destroyed, so a save that raises leaves it naming a
  dead primary (`PrimaryOnFileLiveIff`). Instances can also stay behind when a wait, a remote call or a
  save raises; each is on the model's fault list.
- A failed trade-log write books an exit twice in the maker bot (`LogFailureBooksTwice`,
  `BookedReleasedIff`), and there IDLE does not mean flat (`EntersIdleHoldingIff`, `IdleMeansFlatIff`).
- Equal timestamps separate the outcome classifiers (`ClassifiersAgreeIff`), the sweep is
  wrong on some ticks for all reachable thresholds but the scored ones (`SweepRightIff`,
  `FallbackMisreadsTakeProfit`), rounding can turn a near miss into a hit (`StoredSweepIff`), and short
  windows fold one late tick (`ReportedVersusExact`).
- The global order throttle fails for limits above its queue length (`GlobalThrottleIff`).
- The count per symbol is checked when an entry is decided and raised when it is placed, and a symbol
  becomes idle again while its entry still waits for a worker, so the limit is exceeded by entries that
  wait together (`BurstDefeatsTheLimit`). A call that raised after the exchange got its order is never
  counted (`RaisedSendsEscape`). `LimitKeptIff`: the limit withstands neither. Closes never pass through the
  count: every one calls the client directly (`slow_statarb_v11.py:680`, 893, 910 and 951).
- With its shipped threshold the take-profit rule cannot fire unless the entry spread was at least 9999 bp
  (`NeverFiresBelowThreshold`).
- A statistics save while a symbol is off the list forgets it (`OffListSaveForgets`, `ComesBackIff`).
- A venue quote with mid zero, an empty book for instance, opens a signal position unless the baseline is
  near -10000 bp (`EmptyBookEntersIff`), and that position can never be closed (`ZeroMidNeverCloses`).
- A venue quote crossed by more than 4 bp can count as both above and below the baseline, so that it closes
  a position on the side it would open (`EntryQuoteClosesOpposite`, `NotBothSides`).
- A snapshot keeps levels of size zero (`ZeroSizeSnapshotIsKept`, `ZeroLevelIff`), and one unreadable
  margin makes the two position trackers differ (`JunkMarginSplitsTheCopies`) unless the rest of its message
  would change nothing (`MessageAgreesIff`).

## Model

| member | source | states |
|---|---|---|
| HedgeBooks.FlipOrderConserves | flipster_kattpish/scripts/live_executor.py:867-896 | Whatever the Flipster entry really filled and whatever was reported, afterwards both venues hold exactly what the legs and the ledger explain |
| HedgeBooks.GateOrderConserves | flipster_kattpish/scripts/live_executor.py:955-1010 | The same for the Gate hedge of a leg that has none yet, also when the order filled but was not seen to fill |
| HedgeBooks.RevertConserves | flipster_kattpish/scripts/live_executor.py:1011-1026 | The same for the reduce-only compensating order, on any base and side it is sent with and whether or not it works |
| HedgeBooks.CloseFlipConserves | flipster_kattpish/scripts/live_executor.py:1134-1147 | The same for the Flipster half of a close |
| HedgeBooks.CloseGateConserves | flipster_kattpish/scripts/live_executor.py:1149-1162 | The same for the Gate half of a close |
| HedgeBooks.ExposureIsLeg | flipster_kattpish/scripts/live_executor.py:1136-1162 | With one live id per base and nothing on the ledger for it, a venue holds exactly that id's leg |
| HedgeBooks.ReduceOnly | flipster_kattpish/scripts/live_executor.py:1141-1143 | A reduce-only close takes at most what was asked and never turns a position over |
| ExecutorMachine.StepInv | flipster_kattpish/scripts/live_executor.py:683-802 | Every atomic step of every thread keeps: at most one task working per id, each id in a known standing with exactly the orders that standing implies, and conservation of exposure |
| ExecutorMachine.StepLocal | flipster_kattpish/scripts/live_executor.py:746-757 | A step changes nothing about any id but that of its own task |
| ExecutorMachine.StepBystander | flipster_kattpish/scripts/live_executor.py:746-757 | A duplicate, filtered or early signal changes nothing about an id that another task is working on |
| ExecutorSafety.RunInv | flipster_kattpish/scripts/live_executor.py:683-802 | That invariant holds in every reachable state of every interleaving |
| ExecutorSafety.OrdersAtMostOnce | flipster_kattpish/scripts/live_executor.py:683-802 | In every interleaving of ZMQ, poll, take-profit and shutdown each id sends each kind of order at most once; the hedge, revert and closes come only after a reported Flipster fill; no id is both reverted and closed |
| ExecutorSafety.EveryIdSettles | flipster_kattpish/scripts/live_executor.py:804-1162 | With no handler in flight every id is untraded, aborted before the hedge, reverted after a Gate miss, live on both venues, or closed; a Gate miss always has its revert; a position is tracked only when both legs were reported |
| ExecutorSafety.ExposureIsExplained | flipster_kattpish/scripts/live_executor.py:804-1162 | In every reachable state the exposure of each venue and base is the signed sum of the legs plus the ledger, for any replies at all |
| ExecutorSafety.RunExact | flipster_kattpish/scripts/live_executor.py:804-1162 | With truthful replies every recorded size is what the venue filled, and no base has an unflagged residue without a flagged one |
| ExecutorSafety.HedgedUntilFlagged | flipster_kattpish/scripts/live_executor.py:804-1162 | The hedge theorem: with truthful replies and no handler in flight, a base without a flagged failure is flat on both venues or carries one recorded position, held exactly and with opposite signs |
| ExecutorSafety.OnlyShutdownClosesStranded | flipster_kattpish/scripts/live_executor.py:1116-1124 | A position whose exit was already consumed survives every run that has no shutdown of it |
| ExecutorSafety.PollDeliversUnseen | flipster_kattpish/scripts/live_executor.py:789-802 | The poll hands an unseen signal in like the feed does, and drops a seen one |
| ExecutorSafety.OwnExitsClose | flipster_kattpish/scripts/live_executor.py:1263-1276 | The shutdown closes any tracked position, stranded or not; the take-profit closes one whose exit id is free, takes the id, and does nothing otherwise |
| ExecutorSafety.ExposureIsRecordedPlusLedger | flipster_kattpish/scripts/live_executor.py:804-1162 | With truthful replies and no handler in flight, on every base and venue, flagged or not, the exposure is the signed sum of the recorded sizes of the open positions plus the ledger |
| ExecutorSafety.RecordStrandsIff | flipster_kattpish/scripts/live_executor.py:752-757 | Recording a position strands it exactly when its exit id is taken and no exit handler of it is left |
| ExecutorSafety.ExitClosesIffPoppedAfterRecord | flipster_kattpish/scripts/live_executor.py:1115-1124 | Over whole runs without a shutdown of it, a position whose exit id was taken before the record is closed if and only if an exit handler waiting at the record pops after it |
| ExecutorSafety.EarlyExitStrands | flipster_kattpish/scripts/live_executor.py:752-757 | An exit handled between the Flipster fill and the record strands the position, for any id, side and fills |
| ExecutorSafety.SeededExitStrands | flipster_kattpish/scripts/live_executor.py:1288-1302 | So does an exit id taken from the start, by the pre-seeding or an exit ahead of its entry |
| ExecutorSafety.SharedBaseClosesIff | flipster_kattpish/scripts/live_executor.py:1139-1143 | With two ids on one base a successful reduce-only close removes exactly its own leg if and only if both are on the same side and exactly the leg is asked for |
| ExecutorSafety.SharedBaseIsReached | flipster_kattpish/scripts/live_executor.py:804-1113 | Two signals with different ids do reach two live legs on one base, whatever their sides and fills |
| ExecutorSerial.FirstOccurrencesAreFirst | flipster_kattpish/scripts/live_executor.py:745-757 | The filtered stream contains only delivered, unseen signals and no kind and id twice |
| ExecutorSerial.FirstOccurrencesAreAll | flipster_kattpish/scripts/live_executor.py:745-757 | It contains one for every unseen kind and id that was delivered |
| ExecutorSerial.DuplicatesAreInvisible | flipster_kattpish/scripts/live_executor.py:732-802 | With handlers serialised a stream with redeliveries ends in the same state, orders and exposures included, as its first occurrences |
| ExecutorSerial.TradesIff | flipster_kattpish/scripts/live_executor.py:732-862 | A signal sends its Flipster order exactly when its id is new, its symbol listed, its hedge can be sized, and the Flipster mid is unknown, without a signal price, or less than 3 bp past that price in its direction; it sends both closes exactly when its exit id is new and its position tracked; otherwise nothing is traded |
| ExecutorSerial.EntryTrades | flipster_kattpish/scripts/live_executor.py:840-1113 | An entry buys the Flipster leg for a long and sells it for a short; the hedge goes the other way and only after a reported fill; without a hedge the leg is given back, with one the position is tracked with the reported sizes |
| ExecutorSerial.ExitTrades | flipster_kattpish/scripts/live_executor.py:1115-1162 | A close sells what a long bought and buys back what a short sold, on both venues and on no other base, and the position is no longer tracked |
| ExecutorSerial.ScriptRuns | flipster_kattpish/scripts/live_executor.py:732-759 | One dispatch has exactly the effect of its atomic steps in the interleaved machine |
| ExecutorSerial.SerialIsInterleaving | flipster_kattpish/scripts/live_executor.py:732-759 | Every serial run is one of the interleavings, so the safety theorems hold of it |
| ExecutorSerial.Executor.DispatchEvent | flipster_kattpish/scripts/live_executor.py:732-759 | The imperative dispatcher does what the serial specification says, on every signal and reply |
| ExecutorSerial.Executor.HandleEntry | flipster_kattpish/scripts/live_executor.py:804-1113 | So does the entry: edge recheck, sizing, Flipster leg, hedge, and either the record or the revert |
| ExecutorSerial.Executor.HandleExit | flipster_kattpish/scripts/live_executor.py:1115-1162 | So does the exit: an untracked id does nothing, a tracked one is popped before both closes |
| ExecutorSerial.Executor.EmergencyCloseAll | flipster_kattpish/scripts/live_executor.py:1263-1276 | Shutdown leaves nothing tracked and sends exactly one more close per venue for each position that was open, none for any other |
| FlipsterIoc.LimitIocEntry | flipster_kattpish/scripts/live_executor.py:182-304 | The manual IOC reports what the replies determine, cancels at most three times and stops at the first look that reads as closed, and warns exactly when every look reads as open |
| FlipsterIoc.ReportedIff | flipster_kattpish/scripts/live_executor.py:219-304 | Field by field: a failure exactly when the call raised; a fill of the answer's own size when it names a price and a size, otherwise, for an order with an id, of the size in the feed, or of what the amount buys when the feed shows margin without a size |
| FlipsterIoc.HonestOutcomeIsTruth | flipster_kattpish/scripts/live_executor.py:182-304 | With an honest feed a fill is reported exactly when something was executed by the time the entry returns, with that size, partial fills included |
| FlipsterIoc.PartlyFilledLooksClosed | flipster_kattpish/scripts/live_executor.py:561-573 | The substring test of the feed status reads a partially filled order as closed, in either letter case, and a new one as open |
| FlipsterIoc.ClosingWords | flipster_kattpish/scripts/live_executor.py:568-573 | Any status with one of the five closing words in it reads as closed |
| FlipsterIoc.RestsUnwarnedIff | flipster_kattpish/scripts/live_executor.py:216-254 | What the post left unfilled stays on the book without the warning in exactly four cases: the call raised, an immediate partial fill, no order id, or cancels without effect while the feed has no row for the order or a status that reads as closed |
| FlipsterIoc.TrueFeedWarnsIff | flipster_kattpish/scripts/live_executor.py:236-254 | With a feed that is true about it, a pending order is left on the book exactly when that is reported |
| FlipsterIoc.MarginOnlyIsApproximate | flipster_kattpish/scripts/live_executor.py:287-304 | Without a size the answer follows the margin alone, with a size worth the requested notional |
| ContractSizing.RoundIsNearest | flipster_kattpish/scripts/live_executor.py:343 | The rounding is to a nearest integer, ties to even |
| ContractSizing.WithinHalfContract | flipster_kattpish/scripts/live_executor.py:331-344 | The sized notional is within half a contract of the target unless the minimum applies, and then the target is at most half a contract above the minimum |
| ContractSizing.ResizeIsStable | flipster_kattpish/scripts/live_executor.py:907 | Sizing the adjusted notional again gives the same count, for every price, multiplier and minimum, missing specs included |
| ContractSizing.PlanIff | flipster_kattpish/scripts/live_executor.py:855-862 | A hedge of a known contract is planned exactly when the notional of the nearest count, ties to even, or of the exchange minimum, is at least 3 and at most 2.5 times the target, and the plan is that notional |
| ContractSizing.UnsizedPlanIff | flipster_kattpish/scripts/live_executor.py:337-342 | An unknown contract is planned as one contract of one unit; nothing is planned without a positive price or multiplier |
| ContractSizing.AcceptedEntryIsMatched | flipster_kattpish/scripts/live_executor.py:855-862 | An accepted entry has a Flipster notional equal to what the Gate request is worth, between 3 and 2.5 times the target |
| GateIoc.HonestFillIsTruth | flipster_kattpish/scripts/live_executor.py:416-432 | With an honest answer the hedge counts as filled exactly when something was executed, partial fills included, with the executed number of contracts |
| GateIoc.FilledIff | flipster_kattpish/scripts/live_executor.py:416-432 | An answer counts as a fill of n contracts exactly when it is a success, names a price, and n of the size it names are not left |
| GateIoc.TrackedWithinAnswer | flipster_kattpish/scripts/live_executor.py:416-432 | Tracked contracts are positive and at most the size that the answer names, so at most the request when the answer names no more |
| TakeProfit.PeakNext | flipster_kattpish/scripts/live_executor.py:673-675 | The remembered peak stays the largest capture over the usable looks so far |
| TakeProfit.PeakUnique | flipster_kattpish/scripts/live_executor.py:673-675 | That peak is uniquely determined |
| TakeProfit.NeverFiresBelowThreshold | flipster_kattpish/scripts/live_executor.py:645-683 | With the shipped peak threshold the rule fires for no quotes at all unless the entry spread was itself that large |
| TakeProfit.FiresIff | flipster_kattpish/scripts/live_executor.py:655-690 | In spreads: a look closes the position, unless its exit is taken, exactly when it counts and at some look that counts the spread had come in by 9999 bp from entry and was at least 3 bp narrower than now |
| TakeProfit.Watched.Poll | flipster_kattpish/scripts/live_executor.py:645-690 | One look closes exactly when the drawdown from the peak of all looks so far suffices and nobody else took the exit |
| NrtRotator.RotateOnlySafe | flipster_kattpish/scripts/nrt_rotator.py:273-371 | One rotation, hot or cold and failing at any modelled point, the save of the state included, keeps every live instance on file or on the fault list, and the primary on file live unless the save after destroying it raised |
| NrtRotator.PromoteSafe | flipster_kattpish/scripts/nrt_rotator.py:316-371 | The old primary goes only after the new instance has shown two service processes |
| NrtRotator.ProvisionSafe | flipster_kattpish/scripts/nrt_rotator.py:384-457 | Provisioning a standby keeps the same, whichever modelled call fails, the save included |
| NrtRotator.PrimaryOnFileLiveIff | flipster_kattpish/scripts/nrt_rotator.py:357-371 | From a live primary, a rotation leaves the primary on file dead exactly when it got as far as destroying it and the save then raised |
| NrtRotator.WatchSafe | flipster_kattpish/scripts/nrt_rotator.py:524-573 | Over every run of the watch loop, at every moment the live instances are the primary, one standby or replacement, and those named by a recorded fault, and the primary on file, its verified replacement, or neither after a failed save, is live |
| NrtRotator.SavedPrimaryStaysLive | flipster_kattpish/scripts/nrt_rotator.py:524-573 | Over every run in which no save after a swap raises the primary on file is live |
| NrtRotator.AtMostTwoPlusFaults | flipster_kattpish/scripts/nrt_rotator.py:524-573 | So never more than two instances are live beyond the number of faults |
| NrtRotator.CleanTickAddsNoFault | flipster_kattpish/scripts/nrt_rotator.py:524-552 | A tick whose calls all return adds no fault at any moment of it |
| NrtRotator.CleanRunKeepsTwo | flipster_kattpish/scripts/nrt_rotator.py:524-573 | Over every run whose calls all return at most two instances are live at any moment: the primary and the standby, or the one being built |
| NrtRotator.DeadStandbyOnFileIff | flipster_kattpish/scripts/nrt_rotator.py:290-371 | From a live standby on file, a rotation leaves a dead one there exactly in two cases: the healthy standby was taken and destroyed for want of service processes, or the unhealthy one was destroyed and the cold replacement did not get as far as a saved state |
| NrtRotator.StaleStandbyIsNeverReplaced | flipster_kattpish/scripts/nrt_rotator.py:545-552 | While the file names a standby, dead or not, and the primary is not blocked, no number of ticks changes anything |
| NrtRotator.BlockedTickRotatesIff | flipster_kattpish/scripts/nrt_rotator.py:524-543 | Past the 60 s cooldown a blocked primary is replaced by the standby that answers, or else by the booted instance, exactly when there is one and cookies, two processes, cron line and save succeed; then the rotation time is the reply's and the standby is the next one that comes up; inside the cooldown a tick changes nothing |
| NrtRotator.RotatedPrimaryIsGone | flipster_kattpish/scripts/nrt_rotator.py:352-371 | After such a rotation the new primary is live, and the old one is gone when its destroy works |
| NrtRotator.HealthyTickProvisionsIff | flipster_kattpish/scripts/nrt_rotator.py:537-552 | Past the cooldown a healthy primary without a standby gets the booted one exactly when its boot, checks and save succeed; otherwise the tick changes nothing of the state file |
| NrtRotator.Rotator.PromoteInstance | flipster_kattpish/scripts/nrt_rotator.py:316-371 | The imperative promotion changes file and provider step by step as specified |
| NrtRotator.Rotator.RotateNow | flipster_kattpish/scripts/nrt_rotator.py:273-381 | So does the whole rotation, standby provisioning included |
| NrtRotator.Rotator.ProvisionStandby | flipster_kattpish/scripts/nrt_rotator.py:384-457 | So does provisioning |
| NrtRotator.Rotator.RunOnce | flipster_kattpish/scripts/nrt_rotator.py:524-552 | So does one tick with its cooldown |
| NrtRotator.Rotator.RunWatch | flipster_kattpish/scripts/nrt_rotator.py:563-573 | The daemon keeps the primary on file live unless a save after destroying it raised, and never leaves an instance that neither file nor fault list names |
| MakerBot.RecordExitInv | flipster_kattpish/scripts/slow_statarb_maker.py:361-401 | Booking an exit keeps every balance and the kill rule, also when its record cannot be written |
| MakerBot.StepInv | flipster_kattpish/scripts/slow_statarb_maker.py:211-358 | Every step of every phase keeps signals = rejected + raised + filled + cancelled + pending, fills = exits + open, profit = sum of exits, and the kill rule |
| MakerBot.RunInv | flipster_kattpish/scripts/slow_statarb_maker.py:514-531 | So does every run, over any mix of replies and I/O failures |
| MakerBot.BookedReleasedIff | flipster_kattpish/scripts/slow_statarb_maker.py:361-396 | A step that books an exit records it and releases the symbol if and only if its log record could be written; the profit is in the total either way |
| MakerBot.NothingLostIff | flipster_kattpish/scripts/slow_statarb_maker.py:383-396 | Over a run no booked exit goes unrecorded exactly when every step that books one finds its log writable |
| MakerBot.KillLevelHolds | flipster_kattpish/scripts/slow_statarb_maker.py:398-401 | When every step that books an exit finds its log writable, the profit is that of the recorded exits, and the bot has stopped exactly when there is one and the profit is below the kill level |
| MakerBot.BookedIff | flipster_kattpish/scripts/slow_statarb_maker.py:290-358 | A step books an exit exactly when a waiting exit is found flat within a tenth, or a readable market order replaces a refused exit of a position that is due or an exit that waited too long |
| MakerBot.BookedInPrices | flipster_kattpish/scripts/slow_statarb_maker.py:361-401 | A booked exit is worth the amount times (close - entry) / entry for a buy and the opposite for a sell and is a win exactly when that is positive; the close is the parsed average, the bid when none is named, and for a filled limit exit or an empty order the ask for a buy and the bid for a sell |
| MakerBot.IdleStep | flipster_kattpish/scripts/slow_statarb_maker.py:216-260 | An idle symbol asks for an order exactly when its signal's quote is positive and the amount buys more than half a step there; a sell waits at the ask, a buy at the bid, for the quantity nearest to the amount; a refusal costs 5 s |
| MakerBot.PendingStep | flipster_kattpish/scripts/slow_statarb_maker.py:262-287 | A waiting entry counts as filled within a tenth of its quantity on its own side, and is otherwise given up, with 3 s of cooldown, once it waited too long |
| MakerBot.HeldStep | flipster_kattpish/scripts/slow_statarb_maker.py:290-358 | A step that books no exit changes nothing of a held position but to put its exit order in, when the position is due and the exchange takes it |
| MakerBot.LogFailureBooksTwice | flipster_kattpish/scripts/slow_statarb_maker.py:375-395 | A failed log write leaves the position open with its profit booked, and the next step books it again |
| MakerBot.EntersIdleHoldingIff | flipster_kattpish/scripts/slow_statarb_maker.py:264-401 | Over every path into IDLE, a symbol enters it with a position on the exchange exactly when its entry timed out or an exit was booked and recorded, and what it held and what was executed do not cancel out |
| MakerBot.ResidueBounds | flipster_kattpish/scripts/slow_statarb_maker.py:272-343 | With true position reports a timed-out entry leaves anything not within a tenth of its target, an exit found flat anything below a tenth |
| MakerBot.IdleMeansFlatIff | flipster_kattpish/scripts/slow_statarb_maker.py:211-401 | IDLE means flat in every state of a run if and only if no step of it enters IDLE holding something or sees a fill for a symbol that stays idle |
| MakerBot.Bot.RecordExitOf | flipster_kattpish/scripts/slow_statarb_maker.py:361-401 | The imperative booking has exactly the specified effect, including where it raises |
| MakerBot.Bot.BookExit | flipster_kattpish/scripts/slow_statarb_maker.py:375-401 | Totals first, then the log record, then the release and the kill test: a log failure keeps the totals and nothing else |
| MakerBot.Bot.StepSymbol | flipster_kattpish/scripts/slow_statarb_maker.py:211-358 | So does the state machine step, and the exchange position moves by what was executed |
| MakerBot.Bot.LookForSignal | flipster_kattpish/scripts/slow_statarb_maker.py:217-262 | The idle phase: an order only for a positive price and quantity, with each kind of answer |
| MakerBot.Bot.CheckEntry | flipster_kattpish/scripts/slow_statarb_maker.py:265-289 | The pending entry: filled within a tenth, or timed out |
| MakerBot.Bot.LookForExit | flipster_kattpish/scripts/slow_statarb_maker.py:292-333 | The open position: a limit exit, or a market exit when that was refused |
| MakerBot.Bot.CheckExit | flipster_kattpish/scripts/slow_statarb_maker.py:336-358 | The pending exit: found flat, or closed at market after the timeout |
| MakerBot.Bot.StrategyLoop | flipster_kattpish/scripts/slow_statarb_maker.py:514-531 | The loop over any schedule ends in the specified state with all balances intact |
| TradeStats.FieldsAreFolds | flipster_kattpish/scripts/slow_statarb_v11.py:525-545 | After any exits the counters are the count, number of wins and sum of the whole history, the streak is its longest trailing run without profit and the average is its closed weighted sum |
| TradeStats.TrailingRunUnique | flipster_kattpish/scripts/slow_statarb_v11.py:534-539 | That trailing run is uniquely determined |
| TradeStats.EmaInHull | flipster_kattpish/scripts/slow_statarb_v11.py:543-545 | The average stays in every interval that holds 0 and all samples |
| TradeStats.StoreIsReplay | flipster_kattpish/scripts/slow_statarb_v11.py:1008-1051 | After any mix of exits, saves, failed saves and restarts each symbol's six fields are the folds of the exits that still count for it, and the file those of the last good save |
| TradeStats.LoadRestoresSave | flipster_kattpish/scripts/slow_statarb_v11.py:1039-1048 | Loading what was saved restores all six fields on every reachable state, skipped symbols included |
| TradeStats.CrashRollsBackToSave | flipster_kattpish/scripts/slow_statarb_v11.py:1008-1051 | Whatever happens after a save, restarting with the same symbols returns to the moment of the save |
| TradeStats.ComesBackIff | flipster_kattpish/scripts/slow_statarb_v11.py:1008-1051 | A saved symbol with a record gets it back at a later start, whatever was done to others in between, exactly when it is on the list and no good save since found it off the list |
| TradeStats.OffListSaveForgets | flipster_kattpish/scripts/slow_statarb_v11.py:1013-1014 | One such save forgets the statistics for good, whatever they were |
| TradeStats.BanIff | flipster_kattpish/scripts/slow_statarb_v11.py:547-561 | After an exit the symbol is banned for a day below a lifetime sum of -40, an hour below -20, half an hour for a loss of more than 12 or the third exit in a row without profit, five minutes for the second, and otherwise not at all |
| TradeStats.ExitLeaves | flipster_kattpish/scripts/slow_statarb_v11.py:525-578 | In prices: an exit adds (close - entry) / entry in basis points for a long, the opposite for a short, to the history of its symbol, with the ban that follows, and frees the symbol with 60 s of cooldown after a loss and 10 s otherwise unless its log record fails |
| TradeStats.Bot.RecordExit | flipster_kattpish/scripts/slow_statarb_v11.py:525-578 | The imperative booking updates statistics, ban, cooldown, totals and kill as specified, ignores an exit without an entry, and on a failed log write keeps the symbol open |
| TradeStats.Bot.SaveStats | flipster_kattpish/scripts/slow_statarb_v11.py:1027-1051 | The save writes exactly the symbols that have something to keep |
| TradeStats.Bot.LoadStats | flipster_kattpish/scripts/slow_statarb_v11.py:1008-1021 | The load sets the statistics of listed symbols with a record and nothing else |
| TradeStats.Start | flipster_kattpish/scripts/slow_statarb_v11.py:1156 | A start is the restart of the lifetime model |
| PriceHistory.PushRetains | flipster_kattpish/scripts/flipster_latency_pick.py:86-93 | After each append and eviction the deque is exactly the part of the full history that is young and recent enough |
| PriceHistory.KeepsRecent | flipster_kattpish/scripts/flipster_latency_pick.py:85-93 | Of the history exactly the last 4096 ticks of the last 30 s are in the deque |
| PriceHistory.LookBackFindsLast | flipster_kattpish/scripts/flipster_latency_pick.py:109-115 | The look-back scan returns the price of the last tick at or before the target, and nothing exactly when there is none |
| PriceHistory.LookBackNeverLies | flipster_kattpish/scripts/flipster_latency_pick.py:109-115 | Read from the evicted deque, the price is that of the full history's last tick at or before the target when that tick is retained, and missing otherwise |
| PriceHistory.NeverBothSides | flipster_kattpish/scripts/flipster_latency_pick.py:96-124 | On one history buy and sell can never both pass the 3-of-4 test |
| PriceHistory.PassIsTrue | flipster_kattpish/scripts/flipster_latency_pick.py:96-124 | A pass on the deque is a pass on the full history |
| PriceHistory.PassesIff | flipster_kattpish/scripts/flipster_latency_pick.py:96-125 | On ticks in time order a buy passes exactly when the newest mid is positive and in at least three of the windows of 1, 5, 10 and 20 s the last tick at or before the target has a positive mid below it, a sell with above; a positive history that rises over 20 s passes a buy and no sell |
| PriceHistory.MomentumAgree | flipster_kattpish/scripts/flipster_latency_pick.py:96-124 | The two loops of the filter decide that |
| PriceHistory.History.Append | flipster_kattpish/scripts/flipster_latency_pick.py:86-93 | The imperative append keeps the deque the retained part of the history |
| Throttle.SpacingBoundsEveryWindow | flipster_kattpish/scripts/flipster_latency_pick.py:662-665 | Spacing of consecutive opens bounds the number in every window |
| Throttle.RateLimitHolds | flipster_kattpish/scripts/flipster_latency_pick.py:662-665 | Over every run with a nondecreasing clock every 60 s window has at most as many opens as the configured limit |
| Throttle.OpensIff | flipster_kattpish/scripts/flipster_latency_pick.py:662-665 | And nothing is held back without need: after any such run a live signal opens exactly when fewer opens than the limit lie in the 60 s before its check |
| Throttle.RateLimiter.RateLimited | flipster_kattpish/scripts/flipster_latency_pick.py:662-665 | The check keeps exactly the opens of the last minute and reports whether they reach the limit |
| Throttle.RateLimiter.Enter | flipster_kattpish/scripts/flipster_latency_pick.py:1451-1480 | Check and open together are one step of the limiter model |
| Throttle.GlobalThrottleHolds | flipster_kattpish/scripts/slow_statarb_v11.py:396-400 | With a limit of at most 200 every closed 60 s window has at most that many entries, although the check uses an older time stamp than the append |
| Throttle.GlobalThrottleIff | flipster_kattpish/scripts/slow_statarb_v11.py:396-400 | The promise holds on all runs if and only if the limit is at most the queue length of 200 |
| Throttle.EntersIff | flipster_kattpish/scripts/slow_statarb_v11.py:396-400 | After any such run a live decision enters exactly when fewer entries than the limit lie in the 60 s before its check |
| Throttle.OrderQueue.Enqueue | flipster_kattpish/scripts/slow_statarb_v11.py:607-632 | Pruning, check and append together are one step of the queue model |
| OrderCount.CountedAreLimited | flipster_kattpish/scripts/slow_statarb_v11.py:206-219 | Whatever the queue, the workers and the other loops do, a closed 60 s window has at most the limit plus one counted entry of a symbol for each that waited beside another, and those are at most the checks that passed while one was waiting |
| OrderCount.SendsAreLimited | flipster_kattpish/scripts/slow_statarb_v11.py:457-480 | The orders the exchange gets in the window are at most that, plus those whose call raised after it got them |
| OrderCount.NoOverlapNoExcess | flipster_kattpish/scripts/slow_statarb_v11.py:206-219 | So the exchange gets at most the limit on every run in which no check passes while an entry of the symbol waits and no raising call reaches it |
| OrderCount.RaisedSendsEscape | flipster_kattpish/scripts/slow_statarb_v11.py:457-480 | Calls that raise after the exchange got the order are never counted: without any overlap up to thirteen of them reach it in a minute, whatever the limit |
| OrderCount.BurstDefeatsTheLimit | flipster_kattpish/scripts/slow_statarb_v11.py:646-655 | Otherwise as many entries of one symbol as the queue and the workers hold can pass the check one after the other and be placed in one instant, for any positive limit and waiting time |
| OrderCount.LimitKeptIff | flipster_kattpish/scripts/slow_statarb_v11.py:206-219 | At the shipped limit of 8, waiting time of 8 s, queue and workers, the exchange gets at most 8 entries of a symbol in any minute, on all runs with at most w waiting at once and at most r raised calls reaching it, if and only if w is 1 and r is 0, or w is 0 |
| OrderCount.PassesIff | flipster_kattpish/scripts/slow_statarb_v11.py:206-219 | After any run a live decision is queued exactly when the symbol is idle and out of its cooldown, the queue has room, and fewer than the limit of its entries were counted in the 60 s before |
| OrderCount.AfterAnswer | flipster_kattpish/scripts/slow_statarb_v11.py:471-472 | Unless another loop moves the symbol, nothing is sent after a fill, while the order on the book is given time, or for 5 s after an unreadable answer |
| OrderCount.AfterFailure | flipster_kattpish/scripts/slow_statarb_v11.py:471-478 | After a raised call, or a pending entry given up once its time was over, nothing is sent for 5 s |
| OrderCount.Tracker.CanSend | flipster_kattpish/scripts/slow_statarb_v11.py:210-215 | The check keeps the sends of the last minute and compares their number with the limit |
| OrderCount.Tracker.Increment | flipster_kattpish/scripts/slow_statarb_v11.py:217-219 | A placed order is appended, the oldest falling off a full list |
| OrderCount.Tracker.TryEntry | flipster_kattpish/scripts/slow_statarb_v11.py:608-633 | The entry path of an idle symbol is one step of the model, a full queue included |
| OrderCount.Tracker.CheckTimeout | flipster_kattpish/scripts/slow_statarb_v11.py:646-655 | So is the timeout, which does not wait for the worker |
| OrderCount.Tracker.WorkerDone | flipster_kattpish/scripts/slow_statarb_v11.py:457-480 | So is the return of a worker, counted exactly when the order was placed |
| Bracket.RoundsUp | flipster_kattpish/scripts/flipster_latency_pick.py:840-854 | Rounding up gives a tick multiple less than one tick above any price, negative ones included |
| Bracket.RoundsDownIff | flipster_kattpish/scripts/flipster_latency_pick.py:840-854 | Rounding down gives a tick multiple less than one tick below the price if and only if the price is not negative or already on the grid |
| Bracket.SmoothedInHull | flipster_kattpish/scripts/flipster_latency_pick.py:388-400 | Over positive mids the smoothed mid stays between their minimum and maximum |
| Bracket.SmoothedConverges | flipster_kattpish/scripts/flipster_latency_pick.py:388-400 | While the mid stands still every tick takes its weight's share off the remaining distance of the smoothed mid to it |
| Bracket.TriggerIff | flipster_kattpish/scripts/flipster_latency_pick.py:1310-1329 | On well-formed books a side triggers exactly when its gap is open and between the minimum edge and 20 bp of the smoothed mid; the two gaps are never both open |
| Bracket.BracketIsSound | flipster_kattpish/scripts/flipster_latency_pick.py:931-939 | An accepted buy has limit <= web ask < api bid <= api ask <= target, mirrored for sells, both prices on the grid within a tick of their source and at least the measured gap, hence the minimum edge, apart |
| Bracket.TakeProfitPlacedIff | flipster_kattpish/scripts/flipster_latency_pick.py:1055-1076 | A take-profit order is placed always for a buy, and for a sell exactly when the bid is at least one tick |
| Bracket.BracketEarnsTheGap | flipster_kattpish/scripts/flipster_latency_pick.py:1523-1528 | A fill at the limit or better is credited at least the measured gap when the bracket closes |
| Bracket.OpensIff | flipster_kattpish/scripts/flipster_latency_pick.py:1256-1330 | In prices: a tick counts when the web mid is positive, the api tick at most 5 s newer than book or ticker, the ticker within 2 bp and both spreads at most 6 bp; a flat symbol is entered exactly when then its books have crossed by at least the minimum edge and at most 20 bp of the smoothed mid, the tick is admitted and the order fills |
| Bracket.CloseFrees | flipster_kattpish/scripts/flipster_latency_pick.py:1248-1249 | A close frees its symbol and no other, and the next tick may enter it again |
| Bracket.RunInv | flipster_kattpish/scripts/flipster_latency_pick.py:1256-1480 | In every run on well-formed books every position ever opened had a sound bracket for its quotes and every live one still carries its target |
| Bracket.Trader.UpdateWebEma | flipster_kattpish/scripts/flipster_latency_pick.py:388-400 | The smoothed mid is started or moved as specified |
| Bracket.Trader.OnApiUpdate | flipster_kattpish/scripts/flipster_latency_pick.py:1256-1480 | The imperative entry path is one step of that model and keeps its invariant on well-formed books |
| Bracket.Trader.OpenPosition | flipster_kattpish/scripts/flipster_latency_pick.py:922-1068 | A filled entry is stored with the target of the quotes at signal time, an unfilled one changes nothing |
| OutcomeScans.ReferenceMeaning | flipster_kattpish/scripts/backtest_filters.py:46-71 | The reference verdict says which threshold is reached first, or that neither is, stated over the ticks without any scan |
| OutcomeScans.ReferenceInPrices | flipster_kattpish/scripts/backtest_filters.py:46-71 | The verdict in prices: whether some valid tick reaches the take-profit with none before it at the stop, or the other way round, above the entry for a buy and below it for a sell |
| OutcomeScans.ClassifyByExtrema | flipster_kattpish/scripts/backtest_filters.py:46-71 | The early-exit scan on running extrema returns the reference verdict, and a value on the right side of its threshold |
| OutcomeScans.HitTimes | flipster_kattpish/scripts/analyze_filter_efficacy.py:64-87 | The scan with early break finds the timestamps of both first hits over the whole window, and the extrema of the ticks up to the later of them |
| OutcomeScans.ClassifyByHitTimes | flipster_kattpish/scripts/analyze_filter_efficacy.py:44-95 | Its verdict is that of the earlier timestamp, ties to the take-profit, with those extrema |
| OutcomeScans.LookedAtIs | flipster_kattpish/scripts/analyze_filter_efficacy.py:86-87 | The scan looks at the ticks up to the one at which both thresholds have been hit, or at all |
| OutcomeScans.ScanWindow | flipster_kattpish/scripts/discover_filters.py:64-84 | The full scan stores extrema, final move and hit times of exactly the ticks up to the deadline |
| TickScan.FinalIsLastValid | flipster_kattpish/scripts/discover_filters.py:52-80 | The final move is that of the last valid tick, in prices |
| OutcomeScans.StoredTimes | flipster_kattpish/scripts/discover_filters.py:52-80 | A stored time is that from the entry to the first tick that reaches the threshold, in prices |
| OutcomeScans.StoredInHundredths | flipster_kattpish/scripts/discover_filters.py:81-84 | The file has the three moves in the nearest hundredths and the times as they are |
| OutcomeScans.ClassifyFromArray | flipster_kattpish/scripts/discover_filters.py:56-89 | The verdict is that of the window at the start index by unrounded moves, the summary its scan with the moves rounded to hundredths |
| OutcomeScans.ClassifiersAgree | flipster_kattpish/scripts/analyze_filter_efficacy.py:44-95 | With increasing timestamps the time-based verdict is the reference verdict on every tick sequence |
| OutcomeScans.OneWindowOneVerdict | flipster_kattpish/scripts/discover_filters.py:56-89 | The array scan agrees with the reference on the window it cuts |
| OutcomeScans.ClassifiersAgreeIff | flipster_kattpish/scripts/analyze_filter_efficacy.py:88-94 | With timestamps that may repeat they agree if and only if no stop is followed by the take-profit within one timestamp |
| OutcomeScans.TiedTicksSplitTheClassifiers | flipster_kattpish/scripts/analyze_filter_efficacy.py:88-90 | Three concrete ticks on which the scripts disagree |
| Sweep.SweepAtScoringThresholds | flipster_kattpish/scripts/sweep_tp_stop.py:11-26 | Re-deciding from the summary at the scoring thresholds gives exactly the outcome of the scan |
| Sweep.SweepRightIff | flipster_kattpish/scripts/sweep_tp_stop.py:11-26 | Re-deciding is right on all ticks if and only if the thresholds are those of the scan, or the one below the entry is out of reach of any positive price |
| Sweep.OtherThresholdsBreak | flipster_kattpish/scripts/sweep_tp_stop.py:18-23 | For every other pair of thresholds, on either side, three ticks after the entry make it wrong |
| Sweep.SweepElsewhere | flipster_kattpish/scripts/sweep_tp_stop.py:11-26 | On a given window it is right at any thresholds unless both are reached |
| Sweep.SweepSafeDirections | flipster_kattpish/scripts/deep_analysis.py:16-25 | When both are reached the stored order is still right for an easier target with a wider stop after a scored take-profit, and the reverse after a scored stop |
| Sweep.FallbackMisreadsTakeProfit | flipster_kattpish/scripts/sweep_tp_stop.py:21-23 | Concrete ticks on which the pessimistic fallback calls a take-profit a stop |
| Sweep.RoundingOnlyAddsNearMisses | flipster_kattpish/scripts/discover_filters.py:81-82 | A stored, rounded extremum reaches a threshold in hundredths exactly when the true one does, up to near misses of half a hundredth |
| Sweep.StoredSweepIff | flipster_kattpish/scripts/discover_filters.py:81-84 | From the rounded file re-deciding at the scoring thresholds is right if and only if the adverse extremum is not rounded up to the stop, and the favourable one to the target only when the stop was really reached |
| Sweep.StoredSweepAtScoringThresholds | flipster_kattpish/scripts/discover_filters.py:81-84 | So it is right unless an extremum misses its threshold by at most half a hundredth |
| SweepReports.Evaluate | flipster_kattpish/scripts/sweep_tp_stop.py:29-48 | Each counter is the number of candidates with its verdict and together they are all candidates; win rate, gross and dollar result follow from the decided ones |
| SweepReports.Tally | flipster_kattpish/scripts/sweep_tp_stop.py:30-41 | The loop counts every candidate exactly once, those without data apart |
| SweepReports.WinRateRange | flipster_kattpish/scripts/sweep_tp_stop.py:42-43 | The win rate lies between 0 and 100, at 100 exactly when every decided candidate won |
| SweepReports.NetPerTrade | flipster_kattpish/scripts/sweep_tp_stop.py:44-45 | The net is the wins at target less fee minus the losses at stop plus fee |
| SweepReports.EvaluateCumulative | flipster_kattpish/scripts/deep_analysis.py:50-73 | Candidates without data are dropped and the others taken in time order; final value, peak, drawdown and trajectory are those of their equity curve, wins and losses the numbers of their verdicts |
| SweepReports.RunningResult | flipster_kattpish/scripts/deep_analysis.py:54-73 | So says the loop over the ordered candidates |
| SweepReports.SortIsStable | flipster_kattpish/scripts/deep_analysis.py:52-53 | The order is by time, and the candidates of one time keep theirs |
| SweepReports.CurveIsRunningSum | flipster_kattpish/scripts/deep_analysis.py:59-70 | The curve starts at 0 and each point adds the gain of the next decided candidate |
| SweepReports.CurveEndsAtNet | flipster_kattpish/scripts/deep_analysis.py:54-73 | The running result ends at wins times (tp - 8) less losses times (stop + 8) basis points of 50 dollars, which is the net result the sweep reports for the same counts |
| SweepReports.DrawdownMeaning | flipster_kattpish/scripts/deep_analysis.py:68-69 | The peak is the maximum of the curve and the drawdown its largest fall from one point to a later one, both attained |
| MultiWindow.CutLenUnique | flipster_kattpish/scripts/multi_window_score.py:58-73 | A window folds the ticks up to and including the first valid one strictly past its deadline; that length is unique |
| MultiWindow.OnePass | flipster_kattpish/scripts/multi_window_score.py:53-80 | One pass over the ticks gives every window the result of its own scan |
| MultiWindow.ReportPassed | flipster_kattpish/scripts/multi_window_score.py:68-80 | The inner loop reports exactly the windows whose deadline is past |
| MultiWindow.ReportedInHundredths | flipster_kattpish/scripts/multi_window_score.py:53-80 | The three moves are reported in the nearest hundredths |
| MultiWindow.LastIsLongest | flipster_kattpish/scripts/multi_window_score.py:56-60 | The last of the sorted windows is the longest, where the scan ends |
| MultiWindow.ScanFromEntry | flipster_kattpish/scripts/multi_window_score.py:53-81 | The scan gives exactly the requested windows, each with the rounded extrema and final move of its own independent scan |
| MultiWindow.SnapshotAtCheckpoints | flipster_kattpish/scripts/multi_window_score.py:47-81 | So does the snapshot at an index with a positive mid, and nothing elsewhere |
| MultiWindow.ExtremaWiden | flipster_kattpish/scripts/multi_window_score.py:65-73 | Across longer windows the favourable extremum never falls and the adverse one never rises, before and after rounding |
| MultiWindow.LongestWindowIsExact | flipster_kattpish/scripts/multi_window_score.py:60 | The longest window folds exactly the ticks inside it |
| MultiWindow.ReportedVersusExact | flipster_kattpish/scripts/multi_window_score.py:65-73 | Before rounding, a shorter window reports its exact numbers with at most one late tick folded in, and each extremum is exact if and only if that tick does not beat it |
| MultiWindow.LateTickIsFolded | flipster_kattpish/scripts/multi_window_score.py:65-68 | Two concrete ticks on which the reported extremum is not that of the window |
| DepthBook.BookReplays | flipster_kattpish/scripts/depth_collector.py:137-164 | After any message sequence, malformed ones and reconnects included, each side holds exactly the last write per price since its latest snapshot |
| DepthBook.RowAfter | flipster_kattpish/scripts/depth_collector.py:142-164 | Level by level: a row of another symbol does nothing; a snapshot replaces each side by its levels, an update sets the prices it names and removes those it names with zero, up to a malformed level, after which nothing more of the row is done |
| DepthBook.RowsInOrder | flipster_kattpish/scripts/depth_collector.py:142-164 | Rows are taken in order up to one that fails |
| DepthBook.EntriesInOrder | flipster_kattpish/scripts/depth_collector.py:140-142 | So are the entries of a message |
| DepthBook.ZeroLevelIff | flipster_kattpish/scripts/depth_collector.py:149-158 | A level of size zero is in the book exactly when the last thing said about its price is the own zero of the latest snapshot; an update of size zero always takes a price out |
| DepthBook.ZeroSizeSnapshotIsKept | flipster_kattpish/scripts/depth_collector.py:149-158 | Two concrete messages showing both |
| DepthBook.SortedPrices | flipster_kattpish/scripts/depth_collector.py:167-168 | All prices of a side, strictly from best to worst |
| DepthBook.TopLevels | flipster_kattpish/scripts/depth_collector.py:167-171 | The emitted levels are in the book with their sizes, strictly sorted, as many as asked or present, and no omitted price is better than a listed one |
| DepthBook.TopInPrices | flipster_kattpish/scripts/depth_collector.py:166-168 | Bids are listed from the highest down, asks from the lowest up, and a price that is not listed is beyond all that are |
| DepthBook.Collector.MergeSide | flipster_kattpish/scripts/depth_collector.py:149-164 | The imperative merge of one side has the effect of its operations; a malformed level stops it where the source stops |
| DepthBook.Collector.MergeRow | flipster_kattpish/scripts/depth_collector.py:142-164 | So does a row, bids before asks, other symbols skipped |
| DepthBook.Collector.MergeRows | flipster_kattpish/scripts/depth_collector.py:140-164 | So do the rows of an entry |
| DepthBook.Collector.Process | flipster_kattpish/scripts/depth_collector.py:137-173 | So does a message, which emits both tops exactly when it went through and neither side is empty |
| PositionTracker.HandleAppliesHandled | flipster_kattpish/scripts/positions_ws.py:103-113 | A message applies exactly the events before and including the one that raises, all of them if none does |
| PositionTracker.TrackerReplays | flipster_kattpish/scripts/positions_ws.py:103-113 | After any messages the map is, field by field, the last write since each key's last close, and no row has margin 0 |
| PositionTracker.ExecutorReplays | flipster_kattpish/scripts/live_executor.py:616-631 | So is the executor's own copy, over all events |
| PositionTracker.CopiesAgree | flipster_kattpish/scripts/live_executor.py:616-631 | On messages with readable margins both copies compute the same map |
| PositionTracker.NothingChangesIff | flipster_kattpish/scripts/positions_ws.py:104-113 | Updates with distinct keys followed by deletes leave the map as it is exactly when no delete names a row that is there and each update of a key that is not deleted leaves its own row |
| PositionTracker.MessageAgreesIff | flipster_kattpish/scripts/positions_ws.py:103-113 | On one message the two copies agree exactly when nothing raised, or the updates and deletes after the raising one satisfy that on the rows as they are after the raise |
| PositionTracker.JunkMarginSplitsTheCopies | flipster_kattpish/scripts/positions_ws.py:109-110 | On an unreadable margin they part: the tracker never sees the rest of the message |
| PositionTracker.HasPositionMeansMargin | flipster_kattpish/scripts/positions_ws.py:51-55 | has_position holds exactly when the last margin received since the last close is positive, with nonnegative margins exactly when one was received, and raises exactly on a null or unreadable one |
| PositionTracker.HoldingIsLastReported | flipster_kattpish/scripts/positions_ws.py:60-75 | Side, size and entry price are the last reported ones, and are withheld exactly when one is missing, unreadable or the size is zero |
| PositionTracker.Tracker.Process | flipster_kattpish/scripts/positions_ws.py:103-113 | The imperative message handler does that, including where it raises |
| PositionTracker.Tracker.MergeSwallowing | flipster_kattpish/scripts/live_executor.py:617-626 | One update merges into its row and drops it when the margin is now zero, whatever cannot be read |
| PositionTracker.Tracker.ProcessSwallowing | flipster_kattpish/scripts/live_executor.py:616-628 | So does the message handler of the executor, update by update and then delete by delete |
| PositionTracker.Tracker.Holds | flipster_kattpish/scripts/positions_ws.py:51-55 | The query answers from the row as specified |
| PositionTracker.Tracker.SideQtyEntry | flipster_kattpish/scripts/positions_ws.py:60-75 | So does the side, size and entry query |
| SrSignal.BaselineIsMedian | flipster_kattpish/scripts/bingx_sr_signal.py:87 | The baseline is the middle sample in ascending order |
| SrSignal.StepInv | flipster_kattpish/scripts/bingx_sr_signal.py:73-143 | Every tick keeps what each coin remembers of its published signals and the numbering of ids |
| SrSignal.RunInv | flipster_kattpish/scripts/bingx_sr_signal.py:73-143 | So does every run |
| SrSignal.OutputLanguage | flipster_kattpish/scripts/bingx_sr_signal.py:59-143 | For every tick sequence each coin's signals alternate from an entry on, each exit carries its entry's side and id, entries wait out the cooldown, and entry ids count 1, 2, 3 over all coins |
| SrSignal.TimeoutIff | flipster_kattpish/scripts/bingx_sr_signal.py:94-120 | A tick at age MAX_HOLD_S or more closes the position if and only if the mid stored at entry is not zero |
| SrSignal.ZeroMidNeverCloses | flipster_kattpish/scripts/bingx_sr_signal.py:97-100 | A position whose stored mid is zero is never closed by any ticks and silences its coin |
| SrSignal.EmptyBookEntersIff | flipster_kattpish/scripts/bingx_sr_signal.py:79-134 | On a venue quote whose mid is zero, an empty book for instance, a flat coin out of its cooldown opens such a position exactly when the baseline, with the sample the tick may add, is above -9998 or below -10002 bp |
| SrSignal.QuoteSamples | flipster_kattpish/scripts/bingx_sr_signal.py:79-84 | At most once a second a quote adds its gap to the samples, of which the last 1800 are kept |
| SrSignal.QuoteExitsIff | flipster_kattpish/scripts/bingx_sr_signal.py:94-119 | An open position is closed exactly when it is 1800 s old, has lost 0.2 % of its stored mid, or the gap has crossed as far to the other side of the baseline; the exit carries its side and id |
| SrSignal.QuoteEntersIff | flipster_kattpish/scripts/bingx_sr_signal.py:121-143 | A flat coin opens exactly 30 s after its last signal or later with the gap further than half the quoted spread and 2 bp from the baseline: short above it at the bid, long below it at the ask, under the next id |
| SrSignal.EntryQuoteClosesOpposite | flipster_kattpish/scripts/bingx_sr_signal.py:94-132 | A quote that would open one side closes a position held on the other, and one held on its own side only by age, by stop, or when the gap counts as being on both |
| SrSignal.NotBothSides | flipster_kattpish/scripts/bingx_sr_signal.py:91-106 | The gap counts as being on one side only unless the quoted bid is above the ask by more than 4 bp of the mid |
| SrSignal.HoldIsBounded | flipster_kattpish/scripts/bingx_sr_signal.py:94-120 | With positive books, after any run no position survives a venue tick of its coin at age MAX_HOLD_S or more |
| SrSignal.Generator.AllocPid | flipster_kattpish/scripts/bingx_sr_signal.py:59-63 | Each call returns the next id |
| SrSignal.Generator.OnVenue | flipster_kattpish/scripts/bingx_sr_signal.py:197-203 | A venue quote is one step of the model |
| SrSignal.Generator.OnReference | flipster_kattpish/scripts/bingx_sr_signal.py:158-162 | So is a reference quote |
| SrSignal.Generator.ConsiderCoin | flipster_kattpish/scripts/bingx_sr_signal.py:73-143 | The imperative tick handler has exactly the specified effect, including where a division by zero cuts it short |
| AsOfJoin.AsOfMeaning | flipster_kattpish/scripts/debug_dashboard.py:324-325 | On a sorted feed the as-of tick is missing exactly when every tick is later, and otherwise the one whose successor is later |
| AsOfJoin.EmittedIff | flipster_kattpish/scripts/debug_dashboard.py:325-330 | A point is emitted exactly when a tick at or before exists and both mids are positive |
| AsOfJoin.JoinMeaning | flipster_kattpish/scripts/debug_dashboard.py:318-333 | The chart has a point exactly for each Binance tick and the last Flipster tick at or before it, both positive, with the distance of their mids in basis points of the Binance mid |
| AsOfJoin.JoinIsOrdered | flipster_kattpish/scripts/debug_dashboard.py:322-331 | Points come in time order, at most one per Binance tick |
| AsOfJoin.LateTicksChangeNothing | flipster_kattpish/scripts/debug_dashboard.py:323-325 | Flipster ticks later than every Binance tick never change the chart |
| AsOfJoin.ComputeSpread | flipster_kattpish/scripts/debug_dashboard.py:318-333 | The two-pointer scan computes the as-of join, its pointer moving at most length(f) - 1 times in all, and an empty feed gives an empty chart |

## Left out

- Network, browser, cookie, SSH, cron, QuestDB and exchange calls: only their results, as inputs.
- Float rounding, rounding and formatting for display, text encodings, and the final rounding to ten digits of a tick-rounded price.
- Live executor: the dry-run mode, the profit, fee and slippage figures, the Gate maker and limit-wait branches (their switches are False), the signal-spread filter (its threshold is 0, so it rejects nothing), leverage setting, the size of the thread pool, and field extraction from Flipster responses. In the machine the take-profit step may fire at any time; its price rule is `TakeProfit`.
- ExecutorSerial.SerialIsInterleaving: covers handlers run one after the other; interleaved handlers are the subject of `ExecutorSafety` alone.
- ExecutorSafety.HedgedUntilFlagged: assumes truthful replies and one live id per base, without which the exposure is only explained by legs and ledger (`ExposureIsExplained`).
- Rotation: the lifecycle log (where it raises, the tick ends as one that did nothing or as one whose next create call failed), the checks that a configuration exists, and a create call whose reply is lost.
- NrtRotator.WatchSafe: a save that raises half way and leaves an unreadable file is not modelled; every later tick then raises before it changes anything.
- Maker bot: the deviation threshold and sustain rule, given as the signal input of a step.
- Taker bot: entry decision, market statistics, duplicate and stale position loops; the blacklist time, which is not persisted, is modelled in memory only.
- Symbol states, coin states and book sides are values in a map that the bot object reassigns, so aliasing of those records is not modelled.
- TradeStats.StoreIsReplay: the file a start reads is one a save wrote; hand-edited files and the header counters, which no load reads, are not modelled.
- Signal generator: publishing is assumed to succeed; the environment settings are fixed at their defaults.
- OrderCount.SendsAreLimited: a send is dated by the return of its call, not by when the exchange got it, and a raised call is one send or none.
- Latency bot: the filters between trigger and entry (one input), per-symbol lock, cooldown and blacklist, the exponential in the smoothing weight, order placement, polling and cancellation of the entry, stops and position adoption.
- Bracket.BracketIsSound: on books with a nonpositive price the ordering can fail; `RoundsDownIff` says exactly when.
- Classifiers: fetching and paging of the ticks, including the row limits.
- Sweep.SweepElsewhere: when both thresholds are reached the summary alone does not determine the order; `SweepSafeDirections` gives the directions in which it does, `SweepRightIff` the thresholds for which it always does.
- Deep analysis: the report per symbol.
- Depth collector: the second feed, reconnection timing, and the text round trip of prices through the written fields.
- Position tracker: the order and margin maps.
- AsOfJoin.ComputeSpread: stated for time-sorted feeds, which is how the page receives them.
- Older bot variants, proxy rotation, uploads, dashboards other than the spread chart, and strategy parameters.
