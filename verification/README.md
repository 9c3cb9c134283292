# The order and exposure core, verified

This project models the parts of the trading system that decide which orders exist, how much
volume they carry and who may publish a plan, and proves what those parts are for. It is written
in Dafny 4.11; `dafny verify dfyconfig.toml` checks everything.

Four cores are modelled.

1. **The TradePlan V8 executor.** `VolumePlanner`, `Sizing` and `ExecutionEngine` are the
   arithmetic: lots to volume, the split of an entry over its legs, partial closes, break-even and
   trailing stops. `TradePlanModel` holds the declared plan and the runtime record,
   `PositionManagement` one management poll of an open plan, `TargetLadder` what a whole ladder of
   targets does to its volume. `OppositeExposureFence` is the exposure check. `RuntimeModel` says
   what each phase of a poll (submit, cancel intent, reconcile, manage) and the owner's flatten do
   to one plan, `RuntimeWorld` puts all plans, the broker's book and the durable claims together and lets the
   phases happen in any order, and `TradePlanRuntime` is the object with its dictionaries, changed
   in place, each of whose methods is proved to do exactly one step of that world; `LegLists`
   holds its loops over leg lists. `RuntimeSteps`, `SubmissionSafety`, `CancelSafety`,
   `OrdinaryRuns` and `ExposureSafety` are the proofs over every run. `FirstOrders`,
   `ReusedLegIds`, `DoubleAcceptance`, `FenceLoophole` and `Scenarios` hold the runs that show
   where a promise ends, and exactly where.
2. **The publication protocol.** `Arbitration` ranks the intents of a cycle, `EntryOverlap` reserves
   entry corridors in one atomic step, `CyclePublish` lets any number of workers race for one
   cycle.
3. **Identity and exactly-once effect.** `TradePlanOwnership` writes plan and leg ids into broker
   fields and reads them back (the URL-safe alphabet is that of section 5 of RFC 4648),
   `FenceIdentity` says whose items the exposure check takes them for;
   `OpportunityLedger` is the ledger behind an at-least-once log.
4. **Small engines.** `MinimalYamlParser` with `YamlRoundTrip`, and `ClosedBars`.

`Common` and `Text` are shared vocabulary.

## How the model reads the program

- All runtime steps run under one gate (`ctrader-engine/src/AutoTradeEngine.cs:776-790`), so a poll
  phase for one plan is one atomic step. What is proved of every run holds for phases in any
  order, which covers the order of a poll (`ctrader-engine/src/TradePlanRuntime.cs:900-939`) and
  more. The runs that show a promise broken keep to that order: claims, cancel intents,
  submissions, reconciling, managing, a failed call ending the poll, and the owner's flatten
  between two polls.
- The broker and the store are the environment. The answers of the broker (a refused placement,
  one it accepts while the call fails, a cancel that fails or finds nothing, a snapshot, a fill)
  are inputs, and so are the failures
  of the store and the event channel: between a claim and its record, after each leg of a
  ladder, while entries are withdrawn, before an intent is settled, at its acknowledgement and
  at the booking of a target. What is not an input is listed under "Left out". A position reported
  for a leg whose order still rests is a partial fill and is remembered as one.
- Decimals are reals, volumes and times integers. Rounding, truncation toward zero, 32-bit and
  64-bit ranges are written out where the code depends on them.
- The model follows the code, not its comments. Two comments say more than the code does: the one
  above the submission loop says a mid-ladder failure is finished by the next poll, but a
  reconcile of the legs already placed re-derives the stage and ends the submission
  (`ctrader-engine/src/TradePlanRuntime.cs:3044-3053`); the one on cancel intents says resting
  orders come off, but the unfilled rest of a partly filled order stays
  (`Scenarios.PartialFillIsLeftResting`).

## Where the code does not meet a promise

Each is shown by a run or a concrete input, beside the theorem that says exactly when the promise
does hold.

- A take-profit close that fails for one leg leaves the target current, and the retry takes its
  share of what is left once more: `TargetLadder.RetryAfterAFailedCloseOverBooks` is a run in
  which less stays than the later targets are owed, `TargetLadder.RetryOverBooksExactly` says for
  every failed poll how much closed is too much. Polls whose closes all succeed, in full or not, or
  all fail keep the ladder proportional, `TargetLadder.LadderStaysProportional`; conservation holds
  regardless.
- A cancel intent is acknowledged while the rest of a partly filled order still rests:
  `Scenarios.PartialFillIsLeftResting`. An order is left exactly when its leg already holds a
  position, `CancelSafety.AckLeavesExactlyPartialFills`, and nothing else ever is, unless a reply
  of the plan was lost. Then the order rests of which the record knows nothing,
  `Scenarios.LostOrderIsLeftResting`; `CancelSafety.AckWithdrawsExactly` says what is left
  whatever was lost.
- A plan in recovery does not count as live. While the broker reports anything of it the fence
  still refuses the other side, `ExposureSafety.UncountedPlanStillBlocks`; once the broker
  reports nothing, an opposite plan passes, and a reconcile may make the first one live again:
  `Scenarios.RecoveryDefeatsTheFence`. `FenceLoophole.OppositesMeetExactly` says in which worlds
  that can happen next.
- A placement that the broker accepts while the call fails is not recorded, and the next poll
  places the leg again: `DoubleAcceptance.LostReplyIsPlacedAgain`, for every validated plan.
- A ladder that declares a leg id again after a leg of it that can rest can have that id accepted
  twice: `ReusedLegIds.ReusedIdIsAcceptedTwice`. Beside these two there is no other way:
  `DoubleAcceptance.AcceptedTwiceExactly`.
- A Go plan id written with upper-case digits comes back in lower case: the round trips hold
  exactly for lower-case ids, `TradePlanOwnership.GoCommentRoundTrip`.
- A cycle whose owner record is not written, or whose lock expires inside the critical section,
  can publish twice, exactly when a worker is left that has not tried the lock:
  `CyclePublish.SecondPlanExactly` and the three runs beside it.
- A terminal event that reuses a handled event id is taken for a redelivery:
  `OpportunityLedger.ReusedIdHidesTerminal`. Which events count is said without any assumption on
  ids by `OpportunityLedger.ActiveExactly`.
- A forming bar whose low lies above its high is lost when it closes: the clamp throws after the
  bar was marked emitted, `ClosedBars.NewerBarCloses`.

## Model

| member | source | states |
|---|---|---|
| VolumePlanner.VolumeForLots | ctrader-engine/src/VolumePlanner.cs:59-78 | a tradeable volume is step-aligned, within the broker's bounds and never worth more than the lots asked for |
| VolumePlanner.SplitEntryVolume | ctrader-engine/src/VolumePlanner.cs:87-196 | the array-based split with its repair loop computes the split specification |
| VolumePlanner.RepairInPlace | ctrader-engine/src/VolumePlanner.cs:148-187 | the in-place repair loop is the recursive repair, including the exit without a donor |
| VolumePlanner.DonorExists | ctrader-engine/src/VolumePlanner.cs:166-184 | pigeonhole: while a leg is short another can give a whole step, so the exit without a donor is unreachable |
| VolumePlanner.PassLowersShortfall | ctrader-engine/src/VolumePlanner.cs:151-187 | every repair pass keeps total and alignment and lowers the total shortfall by exactly one step |
| VolumePlanner.RepairOutcome | ctrader-engine/src/VolumePlanner.cs:148-195 | how the loop ends is decided by the shortfall it starts with |
| VolumePlanner.SplitOutcome | ctrader-engine/src/VolumePlanner.cs:87-196 | a split is refused exactly on malformed input or a shortfall over 4n steps; else one whole slice, exactly when it collapses, or one broker-valid slice per ratio summing to the total |
| VolumePlanner.LotCentSplitNeverRefused | ctrader-engine/src/VolumePlanner.cs:87-196 | with minimum and step of one lot cent and ratios summing to one, 4n passes always suffice |
| VolumePlanner.DocumentedSplit | ctrader-engine/src/VolumePlanner.cs:80-86 | the documented 0.11 lot example splits into 0.08 and 0.03 |
| VolumePlanner.PartialCloseLeavesNoDust | ctrader-engine/src/VolumePlanner.cs:245-303 | a partial close takes nothing, everything, or an aligned tradeable part that leaves a tradeable aligned rest |
| VolumePlanner.AllocateShallowFirstStepped | ctrader-engine/src/VolumePlanner.cs:305-336 | the array loop allocates as the specification says and leaves its input alone |
| VolumePlanner.ShallowFirstExact | ctrader-engine/src/VolumePlanner.cs:305-336 | an aligned close out of aligned legs is allocated exactly, or everything when the legs hold no more, never above what a leg holds |
| VolumePlanner.ShallowDrainedFirst | ctrader-engine/src/VolumePlanner.cs:318-334 | a deeper leg is touched only once every shallower one is emptied |
| Sizing.OrdersSumToTotal | ctrader-engine/src/TradePlanExecutionEngine.cs:397-443 | the orders of a sized plan are positive and carry exactly the floored volume |
| Sizing.RiskStaysWithinBudget | ctrader-engine/src/TradePlanExecutionEngine.cs:470-496 | in risk mode a validated plan filled where it declares and stopped out everywhere loses at most equity times risk percent |
| ExecutionEngine.CalculateBreakEven | ctrader-engine/src/TradePlanExecutionEngine.cs:573-594 | the break-even stop never loosens the current stop and reports an improvement exactly when it tightens |
| ExecutionEngine.CalculateManualGroupBreakEven | ctrader-engine/src/TradePlanExecutionEngine.cs:608-661 | the manual group stop never loosens and reports an improvement exactly when it tightens |
| ExecutionEngine.ManualGroupStopLocksBuffer | ctrader-engine/src/TradePlanExecutionEngine.cs:608-661 | with no declared entry, closing all that is held at the returned stop plus what was booked is worth at least the buffer on the whole group, through tick rounding, on every path and both sides |
| ExecutionEngine.ToTickNeverLoosens | ctrader-engine/src/TradePlanExecutionEngine.cs:640-656 | tick rounding moves a stop only in the protective direction |
| ExecutionEngine.TrailTargetBeforeBooked | ctrader-engine/src/TradePlanExecutionEngine.cs:727-758 | an explicit trail stop sits at a target before a booked one |
| TradePlanModel.IndexOfTarget | ctrader-engine/src/TradePlanRuntime.cs:5207-5217 | the first target carrying an id, or minus one when none does |
| PositionManagement.ManagePlanProgresses | ctrader-engine/src/TradePlanRuntime.cs:3109-3681 | one poll never loosens the stop, lowers the booked target or undoes break-even, and keeps the target bookkeeping in order |
| PositionManagement.StopsNeverLoosen | ctrader-engine/src/TradePlanRuntime.cs:3109-3681 | the same over every run of polls: highest booked stays below next target, break-even only behind a target really booked |
| TargetLadder.CloseBounds | ctrader-engine/src/TradePlanRuntime.cs:3245-3277 | a target's close is at most its exact share and within two steps of it; the last target closes everything |
| TargetLadder.PollConservesVolume | ctrader-engine/src/TradePlanRuntime.cs:3191-3480 | what leaves the record in a poll is exactly what the broker reported closed, failed closes included |
| TargetLadder.RunConservesVolume | ctrader-engine/src/TradePlanRuntime.cs:3191-3480 | closed plus remaining is constant over every run of polls |
| TargetLadder.BookingKeptExactly | ctrader-engine/src/TradePlanRuntime.cs:3441-3480 | a poll that closes something keeps the record in step with the broker if and only if its event is published, a close failed, or nothing was executed |
| TargetLadder.LadderStaysProportional | ctrader-engine/src/TradePlanRuntime.cs:3191-3480 | over any run of polls in which all closes of a target succeed, in full or not, or all fail, or the target is deferred or skipped: the volume before target k is never below the share owed to targets k on; and at most 2k steps above it when no target was skipped and no close fell short |
| TargetLadder.LastTargetEmptiesEveryLeg | ctrader-engine/src/TradePlanRuntime.cs:3251-3277 | booking the last target with every close executed empties every leg and drops the plan |
| TargetLadder.RetryOverBooksExactly | ctrader-engine/src/TradePlanRuntime.cs:3388-3402 | a failed poll and the retry leave less than the later targets are owed if and only if the failed poll closed more than what was held beyond their share and what rounding keeps back; the condition is computed from what the failed poll left, rounding of the retry's share included, before the retry |
| TargetLadder.TwoStepsOverBook | ctrader-engine/src/TradePlanRuntime.cs:3245-3277 | bounds that need no rounding: two steps' worth beyond the surplus is always too much, nothing closed never is |
| TargetLadder.RetryAfterAFailedCloseOverBooks | ctrader-engine/src/TradePlanRuntime.cs:3388-3402 | a concrete run of two polls, the first with a failed close, after which 3 of 10 are left where 5 are owed |
| OppositeExposureFence.CollectOppositeGroups | ctrader-engine/src/OppositeExposureFence.cs:163-235 | the three collecting loops yield exactly the specified groups |
| OppositeExposureFence.PlanGroups | ctrader-engine/src/OppositeExposureFence.cs:172-190 | a plan group stands for exactly the live opposite tracked plans with a positive entry reference |
| OppositeExposureFence.LivePlanOwnsItsItems | ctrader-engine/src/OppositeExposureFence.cs:343-406 | broker items of a live plan on the instrument never count as foreign exposure |
| FenceIdentity.OwnedExactly | ctrader-engine/src/OppositeExposureFence.cs:343-406 | an item carrying the comment and client order id written for a leg of a plan is recognised as the live plans' own, by recorded client order id, full ownership or comment token, if and only if that plan is live, or it goes by its hash token and a live plan has the same one |
| FenceIdentity.ClientOrderIdsMeet | ctrader-engine/src/TradePlanOwnership.cs:172-177 | two client order ids of any of the three written forms agree only for one plan, or for two hashed ids with the same hash |
| OppositeExposureFence.ClearMeansSeparated | ctrader-engine/src/OppositeExposureFence.cs:237-309 | beside opposite exposure a plan passes exactly when its trimmed, lower-case lane is known, opposites are allowed and every group is at the required distance |
| OppositeExposureFence.ExactlyOneReceivedCounts | ctrader-engine/src/TradePlanRuntime.cs:2328-2347 | of two merely received opposite plans exactly one counts against the other |
| OppositeExposureFence.EarliestIsNotBlocked | ctrader-engine/src/TradePlanRuntime.cs:2328-2347 | only plans with a footprint at the broker stand against the earliest received plan |
| RuntimeSteps.PlanEffectEvolves | ctrader-engine/src/TradePlanRuntime.cs:2084-4414 | no phase re-enters submission, reopens a closed plan, lowers the booked target or counts a leg as submitted except a submission |
| RuntimeSteps.ReconcileEvolves | ctrader-engine/src/TradePlanRuntime.cs:2804-3107 | reconciling keeps identity and well-formedness, whatever positions and order history say |
| RuntimeSteps.ManagePlanKeeps | ctrader-engine/src/TradePlanRuntime.cs:3109-3681 | management keeps each leg's identity, position and order, apart from withdrawn ones, and leaves both stages derived from the legs |
| RuntimeSteps.SubmitLegsKeeps | ctrader-engine/src/TradePlanRuntime.cs:2565-2720 | at every point of a ladder submission the stored record is a lawful successor of the one it started from |
| RuntimeSteps.ClosedHasNothingResting | ctrader-engine/src/TradePlanRuntime.cs:4964-5016 | a closed record has nothing resting, cancellable or left to reconcile |
| RuntimeSteps.RunIsSound | ctrader-engine/src/TradePlanRuntime.cs:900-939 | every reachable world is consistent and every record in it well formed |
| SubmissionSafety.SubmitPlacesFresh | ctrader-engine/src/TradePlanRuntime.cs:2390-2733 | one attempt places distinct legs, none of them worked through before, and while the plan stays pending the resume point lies behind all of them |
| SubmissionSafety.OthersPlaceNothing | ctrader-engine/src/TradePlanRuntime.cs:4246-4414 | only a submission attempt places orders |
| SubmissionSafety.EachLegAcceptedAtMostOnce | ctrader-engine/src/TradePlanRuntime.cs:2572-2720 | over every run no leg of a plan is accepted twice by the broker, unless the plan declares an id again after a leg of it that can rest, or a placement of it was accepted and reported as failed |
| ReusedLegIds.ReusedIdIsAcceptedTwice | ctrader-engine/src/TradePlanRuntime.OwnerCommands.cs:151-185 | for every ladder that declares an id so, and with every reply kept, a run from an empty runtime has the broker accept that id twice: the store fails behind the leg, the owner's flatten finds its order gone, the next poll resumes the ladder |
| FirstOrders.TakenStands | ctrader-engine/src/TradePlanRuntime.cs:2390-2733 | whatever the record of a plan holds of which nothing was submitted, a broker that takes its first order leaves it open with one leg submitted |
| DoubleAcceptance.LostReplyIsPlacedAgain | ctrader-engine/src/TradePlanRuntime.cs:2618-2660 | for every validated plan a run from an empty runtime in which the broker takes its first order, the reply is lost, and the next poll has the same leg accepted once more |
| DoubleAcceptance.AcceptedTwiceExactly | ctrader-engine/src/TradePlanRuntime.cs:2572-2720 | a validated plan that leaves the risk leg's id to the risk leg can have a leg accepted twice if and only if a reply of it can be lost, or it declares an id again after a leg of it that is not a market order |
| CancelSafety.IntentRecords | ctrader-engine/src/TradePlanRuntime.cs:4252-4414 | a cancel intent loses track of no resting order and acknowledges only when all that is left are rests of partial fills |
| CancelSafety.ReconcileKeepsOrder | ctrader-engine/src/TradePlanRuntime.cs:2852-3053 | reconciling never drops an order the broker still rests |
| CancelSafety.NothingPlacedAfterAck | ctrader-engine/src/TradePlanRuntime.cs:4246-4414 | over every run, whatever the broker does: after the acknowledgement nothing is placed for the plan and it cannot be submitted again |
| CancelSafety.AcknowledgedStaysWithdrawn | ctrader-engine/src/TradePlanRuntime.cs:4246-4414 | over every run outside dry run, for every plan no reply of which was lost: in addition every order it has at the broker is on its record, and after the acknowledgement only rests of partial fills still rest |
| CancelSafety.AckLeavesExactlyPartialFills | ctrader-engine/src/TradePlanRuntime.cs:4286-4344 | when an intent is acknowledged, a resting order of the plan still rests if and only if its leg already holds a position |
| CancelSafety.AckWithdrawsExactly | ctrader-engine/src/TradePlanRuntime.cs:4286-4344 | whatever replies were lost, an acknowledgement leaves exactly the resting orders for which no unfilled leg of the record stands |
| CancelSafety.WholeFillsLeaveNothingResting | ctrader-engine/src/TradePlanRuntime.cs:4486-4608 | whatever follows an acknowledgement, an order of the plan still resting was then the order of a leg that held a position; with whole fills nothing rests, for good |
| CancelSafety.IntentsOnlyCancel | ctrader-engine/src/TradePlanRuntime.cs:4234-4252 | a cancel intent sends only cancels and leaves every position's volume alone |
| Scenarios.PartialFillIsLeftResting | ctrader-engine/src/TradePlanRuntime.cs:4286-4308 | a run from an empty runtime whose intent is acknowledged while the rest of a partly filled order still rests |
| Scenarios.LostOrderIsLeftResting | ctrader-engine/src/TradePlanRuntime.cs:4309-4344 | a run from an empty runtime whose intent is acknowledged while an order rests whose placement was reported as failed |
| OrdinaryRuns.StepStaysOrdinary | ctrader-engine/src/TradePlanRuntime.cs:4927-4969 | positive quotes and fills keep every entry reference positive |
| ExposureSafety.AtMostOneUnprovenPlan | ctrader-engine/src/TradePlanRuntime.cs:693-727 | in every reachable world at most one open non-scalp, non-manual plan per instrument and direction has not booked TP2 |
| ExposureSafety.ClearExactly | ctrader-engine/src/OppositeExposureFence.cs:163-235 | on such an instrument the fence clears a plan if and only if no live plan it counts faces it and the broker reports nothing on the other side that such plans do not claim |
| ExposureSafety.UncountedPlanStillBlocks | ctrader-engine/src/OppositeExposureFence.cs:156-161 | a plan in recovery, or one received later, blocks the other side as long as the broker reports a position or an order of it |
| ExposureSafety.ClearMeansUnopposed | ctrader-engine/src/TradePlanRuntime.cs:2258-2321 | on an instrument that never lets plans oppose, the fence passes an autonomous plan only when no autonomous plan with an accepted order faces it, those not held against it by their record included while the broker reports something of them |
| ExposureSafety.SubmittedBehindFence | ctrader-engine/src/TradePlanRuntime.cs:2211-2227 | the broker accepts a first order of an autonomous plan only in a submission the fence cleared |
| ExposureSafety.OppositesNeverMeet | ctrader-engine/src/TradePlanRuntime.cs:2205-2347 | over every run, recovery and lost replies included, no two autonomous plans of which the broker accepted an order face each other there, when each first submission of an autonomous plan on the instrument sees the plans that stand against it and its snapshot reports those their record does not hold against it |
| FenceLoophole.OppositesMeetExactly | ctrader-engine/src/TradePlanRuntime.cs:2328-2347 | after every such run, one more ordinary event whose snapshot may report anything makes two such plans face each other if and only if one stands against a plan the fence has yet to judge while no live plan that counts faces that plan |
| Scenarios.RecoveryDefeatsTheFence | ctrader-engine/src/OppositeExposureFence.cs:311-324 | a run from an empty runtime in which the fence clears a plan facing one in recovery of which the broker reports nothing, and a reconcile then makes both live |
| TradePlanRuntime.Runtime.ProcessTradePlanEntry | ctrader-engine/src/TradePlanRuntime.cs:1392-1548 | claiming and arming a stream entry is the arming step of the world, a store failure before the record included |
| TradePlanRuntime.Runtime.BlockedBySameDirection | ctrader-engine/src/TradePlanRuntime.cs:693-727 | the search over the state map answers the blocking predicate |
| TradePlanRuntime.Runtime.SubmitDeclaredLegs | ctrader-engine/src/TradePlanRuntime.cs:2565-2733 | the leg loop, storing after each accepted leg and stopping where a call fails, ends in the specified world |
| TradePlanRuntime.Runtime.TrySubmitReceivedPlan | ctrader-engine/src/TradePlanRuntime.cs:2084-2254 | one pending plan in one poll is the submission step |
| TradePlanRuntime.Runtime.ApplyPlanCancelIntent | ctrader-engine/src/TradePlanRuntime.cs:4252-4414 | one plan's intent is the cancel step, with a publication or an acknowledgement that fails on the way |
| TradePlanRuntime.Runtime.SubmitAtMarket | ctrader-engine/src/TradePlanRuntime.cs:2413-2520 | a market entry is one order, recorded when its reply arrives and not when it is lost |
| TradePlanRuntime.Runtime.OwnerFlatten | ctrader-engine/src/TradePlanRuntime.OwnerCommands.cs:151-185 | the owner's flatten of one live plan, withdrawing its entries and closing its open legs until a call throws, is the flatten step |
| LegLists.SendCloses | ctrader-engine/src/TradePlanRuntime.OwnerCommands.cs:175-182 | the closing loop asks for the whole of every open leg it gets to |
| LegLists.CancelLegs | ctrader-engine/src/TradePlanRuntime.cs:4523-4589 | the cancel loop yields the specified legs, requests and vanished orders |
| LegLists.WithdrawLegs | ctrader-engine/src/TradePlanRuntime.cs:4309-4344 | the two index loops withdraw unsent legs and clear dead orders |
| TradePlanRuntime.Runtime.ReconcilePlan | ctrader-engine/src/TradePlanRuntime.cs:2834-3107 | the two passes, then what is stored or forgotten, are the reconcile step |
| LegLists.AdoptAll | ctrader-engine/src/TradePlanRuntime.cs:2851-2883 | the first pass, rewriting record and legs position by position and stopping where a stop amendment throws, is the specified adoption |
| LegLists.CheckAll | ctrader-engine/src/TradePlanRuntime.cs:2885-3034 | the second pass rewrites the legs whose order left the snapshot by index, as specified |
| TradePlanRuntime.Runtime.ManagePlanPositions | ctrader-engine/src/TradePlanRuntime.cs:3109-3681 | one poll of one plan, saving its record after every stage, is the manage step |
| TradePlanRuntime.Runtime.ClassifyMissing | ctrader-engine/src/TradePlanRuntime.cs:3683-4096 | vanished legs are emptied and the plan kept, sent into recovery or closed as specified |
| TradePlanRuntime.Runtime.TakeNextTarget | ctrader-engine/src/TradePlanRuntime.cs:3190-3480 | the next target is skipped, left, deferred or booked as specified, entries withdrawn first |
| TradePlanRuntime.Runtime.CloseAllocated | ctrader-engine/src/TradePlanRuntime.cs:3330-3480 | closing the slices, storing what was taken, booking the target and dropping an emptied plan is the specified outcome |
| TradePlanRuntime.Runtime.MoveToBreakEven | ctrader-engine/src/TradePlanRuntime.cs:3503-3607 | withdrawing entries, moving the stop and recording it is the specified stop move |
| LegLists.VanishLegs | ctrader-engine/src/TradePlanRuntime.cs:3694-3744 | the loop over vanished legs yields the emptied legs and what their lookups have in common |
| LegLists.CloseSlices | ctrader-engine/src/TradePlanRuntime.cs:3338-3396 | closing slices leg by leg yields the specified legs, requests, success flag and booked pip volume |
| TradePlanRuntime.Runtime.Poll | ctrader-engine/src/TradePlanRuntime.cs:900-939 | any sequence of phases ends in the world of the corresponding run, so the run theorems hold of the object |
| TradePlanOwnership.CanonicalIsFixed | ctrader-engine/src/TradePlanOwnership.cs:132-160 | canonical leg ids are fixed points of normalisation and contain no separator |
| TradePlanOwnership.NormalizedIsCanonical | ctrader-engine/src/TradePlanOwnership.cs:132-160 | whatever normalises becomes canonical, except the one index whose increment wraps |
| TradePlanOwnership.EncodeDecode | ctrader-engine/src/TradePlanOwnership.cs:189-219 | a Go plan id becomes 43 characters that decode to the id in lower case |
| TradePlanOwnership.GoCommentRoundTrip | ctrader-engine/src/TradePlanOwnership.cs:38-74 | a formatted comment parses back to its plan and leg exactly when the plan id is in lower case |
| TradePlanOwnership.GoClientOrderRoundTrip | ctrader-engine/src/TradePlanOwnership.cs:91-123 | the same for the client order id, which fits 50 characters for legs of up to five |
| TradePlanOwnership.PlainRoundTrip | ctrader-engine/src/TradePlanOwnership.cs:98-109 | the short plan:leg form reads back exactly, whatever the plan id contains |
| TradePlanOwnership.ClientOrderIdsNeverCollide | ctrader-engine/src/TradePlanOwnership.cs:172-177 | two identities in the readable forms never share a client order id |
| TradePlanOwnership.LegacyTokenIsNoGoPlan | ctrader-engine/src/TradePlanOwnership.cs:204-224 | a 24-digit legacy token never decodes as a Go plan |
| TradePlanOwnership.Base64RoundTrip | ctrader-engine/src/TradePlanOwnership.cs:200-213 | decoding undoes encoding for every byte string |
| MinimalYamlParser.FindKeyColon | ctrader-engine/src/MinimalYamlParser.cs:192-228 | the character loop finds the first colon outside quotes and collections that ends a key, or none |
| MinimalYamlParser.StripComment | ctrader-engine/src/MinimalYamlParser.cs:64-88 | the loop cuts at the first unquoted hash that starts a comment |
| MinimalYamlParser.SplitFlowItems | ctrader-engine/src/MinimalYamlParser.cs:333-370 | the loop yields the pieces between top-level commas |
| MinimalYamlParser.SplitLines | ctrader-engine/src/MinimalYamlParser.cs:42-61 | text becomes its non-blank lines with indents, comments gone |
| MinimalYamlParser.ParseBlock | ctrader-engine/src/MinimalYamlParser.cs:93-176 | parsing ends on every list of lines and takes at least one line when the first is indented deep enough |
| MinimalYamlParser.ParseText | ctrader-engine/src/MinimalYamlParser.cs:32-38 | the whole parser, splitting into lines and consuming blocks, computes the parse specification |
| MinimalYamlParser.ParseBlockAt | ctrader-engine/src/MinimalYamlParser.cs:93-176 | the parser over its line list, rewriting lines in place, agrees with the specification and touches no earlier line |
| YamlRoundTrip.BlockReadsBack | ctrader-engine/src/MinimalYamlParser.cs:93-176 | a rendered block at any indent, followed by lines further left, parses to its tree and stops right after it |
| YamlRoundTrip.DocumentReadsBack | ctrader-engine/src/MinimalYamlParser.cs:32-61 | the two-space text of every non-empty mapping or sequence over distinct keys that need no quotes, empty collections and scalars inside, parses to that tree |
| YamlRoundTrip.ScalarReadsBack | ctrader-engine/src/MinimalYamlParser.cs:244-291 | a rendered scalar parses to itself and hides its colons and hashes |
| ClosedBars.SpotHistory.Observe | ctrader-engine/src/SpotHistory.cs:11-27 | a spot is stored under its timestamp and everything before the cutoff is dropped |
| ClosedBars.SpotHistory.TryLastBid | ctrader-engine/src/SpotHistory.cs:29-56 | the backward scan finds the bid of the latest timestamp in the period, or none |
| ClosedBars.ClosedBarEmitter.Observe | ctrader-engine/src/ClosedBarEmitter.cs:10-47 | the emitter's dictionaries change and a bar is closed, or lost when its clamp throws, as specified |
| ClosedBars.NewerBarCloses | ctrader-engine/src/ClosedBarEmitter.cs:30-36 | a newer bar always closes the forming one, so the refusal never fires, and the bar is the last update of its period; it is lost only when its low lies above its high |
| ClosedBars.TimestampsIncrease | ctrader-engine/src/ClosedBarEmitter.cs:25-36 | emitted bars have strictly increasing timestamps per timeframe |
| ClosedBars.CloseIsLatestBid | ctrader-engine/src/ClosedBarEmitter.cs:37-46 | within the retention window the close is the clamp of the latest bid of the period in the full history, spots out of order included |
| Arbitration.CollapseTheses | algo-bot/app/autotrade/arbitration.py:187-203 | the loop keeps winners and losers as specified |
| Arbitration.OrderOfDeliveryIsIrrelevant | algo-bot/app/autotrade/arbitration.py:126-163 | every permutation of distinct intents gives the same decision |
| Arbitration.OrderedAndSuppressedPartition | algo-bot/app/autotrade/arbitration.py:206-257 | every intent is ordered or suppressed, never both |
| Arbitration.LosersPointToTheirWinner | algo-bot/app/autotrade/arbitration.py:187-203 | each loser is mapped to the first published intent sharing its thesis, which ranks above it |
| Arbitration.OrderedIsMaximal | algo-bot/app/autotrade/arbitration.py:187-203 | the order is pairwise different in thesis, in one direction, best first, and nothing could be added |
| Arbitration.OrderedIsFirst | algo-bot/app/autotrade/arbitration.py:187-203 | the order is lexicographically first among all such choices |
| Arbitration.HeadIsExecutable | algo-bot/app/autotrade/arbitration.py:231-257 | the head can execute now whenever something is ordered and anything can execute |
| EntryOverlap.Store.ReserveScript | algo-bot/app/autotrade/entry_overlap.py:118-149 | the script's loops give the specified verdict and store |
| EntryOverlap.Store.ReserveNonAtomic | algo-bot/app/autotrade/entry_overlap.py:194-215 | the client-side double gives the same verdict and the same store |
| EntryOverlap.Store.ReleaseEntryZone | algo-bot/app/autotrade/entry_overlap.py:218-228 | a release drops exactly the setup's rows |
| EntryOverlap.FindOverlap | algo-bot/app/autotrade/entry_overlap.py:58-77 | the first live same-direction reservation of another setup that overlaps, rows outside the window passed over |
| EntryOverlap.EveryStoreWellKept | algo-bot/app/autotrade/entry_overlap.py:118-149 | whatever the clocks say: one row per setup, at most 64, no two corridors of a direction touching |
| EntryOverlap.OverlappingGrantsAreApart | algo-bot/app/autotrade/entry_overlap.py:118-149 | two overlapping grants in a direction are over 45 minutes apart unless the first was released, re-reserved or itself evicted |
| CyclePublish.SharedKeys.AcquireOwnedLock | algo-bot/app/autotrade/cycle_publish.py:37-46 | a lock is taken exactly when free, with a fresh token |
| CyclePublish.SharedKeys.ReleaseOwnedLock | algo-bot/app/autotrade/cycle_publish.py:49-67 | compare and delete: only the token's own lock goes |
| CyclePublish.SharedKeys.PublishRankedCycle | algo-bot/app/autotrade/cycle_publish.py:92-136 | one worker publishes the first intent not terminally rejected, records the owner and gives the lock back |
| CyclePublish.ReleaseOnlyOwnLock | algo-bot/app/autotrade/cycle_publish.py:22-27 | with expiry at any moment a release never removes another worker's lock |
| CyclePublish.AtMostOnePlan | algo-bot/app/autotrade/cycle_publish.py:92-136 | for any number of workers at most one plan is published, every better-ranked intent having been terminally rejected, while the lock outlives every critical section with something at stake |
| CyclePublish.SecondPlanExactly | algo-bot/app/autotrade/cycle_publish.py:96-136 | after a reliable run, one unreliable event makes a second publication possible if and only if some worker has not tried the lock yet |
| CyclePublish.ExpiredLockPublishesTwice | algo-bot/app/autotrade/cycle_publish.py:96-111 | a run in which the lock expires inside the critical section and two workers publish |
| CyclePublish.UnwrittenOwnerPublishesTwice | algo-bot/app/autotrade/cycle_publish.py:112-132 | a run in which the owner record is not written and the plan is published twice |
| CyclePublish.FailedWorkerPublishesTwice | algo-bot/app/autotrade/cycle_publish.py:112-136 | a run in which the publishing worker throws before writing the owner record and the plan is published twice |
| OpportunityLedger.Repository.ApplyEvent | algo-bot/app/analysis_client/repository.py:47-120 | one transaction changes the event and opportunity rows as specified, a duplicate changes nothing |
| OpportunityLedger.RunConsumerLoop | algo-bot/app/analysis_client/consumer.py:114-126 | reading, handling and committing over any schedule is the consumer model |
| OpportunityLedger.LedgerIsCrashFreeFold | algo-bot/app/analysis_client/consumer.py:114-126 | for every crash and redelivery schedule the ledger is the crash-free fold, each partition taken in order exactly once |
| OpportunityLedger.TerminalStaysFinal | algo-bot/app/analysis_client/repository.py:85-115 | a terminal row is never changed again |
| OpportunityLedger.ActiveExactly | algo-bot/app/analysis_client/repository.py:47-120 | whatever ids the records carry, an opportunity is active if and only if a creation of it was taken in and no terminal |
| OpportunityLedger.ActiveMeansCreatedNotEnded | algo-bot/app/analysis_client/repository.py:47-120 | hence, when event ids and positions identify records: active exactly when a creation arrived and no terminal, in whatever order |
| OpportunityLedger.ReusedIdHidesTerminal | algo-bot/app/analysis_client/repository.py:49-59 | a terminal reusing a handled event id is not applied |

## Left out

- Adoption of a broker position whose plan is no longer tracked, and of one outside a reconcile: it recreates a fresh record and would let a closed plan reopen.
- Restarts, the Redis copy of the state, the 24-hour life of a plan claim and schema migration: the model is one life of the process, in which a claim lasts.
- SubmissionSafety.EachLegAcceptedAtMostOnce: asks that no placement of the plan be accepted and reported as failed; with one the property does not hold, `DoubleAcceptance.LostReplyIsPlacedAgain`.
- OppositeExposureFence.LivePlanOwnsItsItems: gives an item one owner; that the recorded client order ids, the full ownership and the comment tokens of the program come to the same is `FenceIdentity.OwnedExactly`, which two plans whose hash tokens agree escape. A plan's pending order ids are those on its legs.
- ExposureSafety.OppositesNeverMeet: asks that a first submission's snapshot report the plans that face it and are not held against it by their record; `FenceLoophole.OppositesMeetExactly` is the exception the code leaves.
- The entry decision itself (spread, slippage, zone and catch-up rules) and the resolution of the account's equity: both are inputs of a submission. The equity table is an input of sizing.
- `DegradeScalpLadderForMinVolume`: it replaces a plan's targets before it is armed.
- The guess why a position vanished: the reason and whether its price is known are inputs per leg, as they stand after the live quote was consulted; what follows from them is modelled.
- The owner's commands other than the flatten of all plans, the pips reported in events, stop verification flags, event texts, telemetry and notifications.
- An event that cannot be published between a close and the stored record loses the booking: `TargetLadder.BookingKeptExactly` says exactly when, and the ladder theorems are about polls in which it is published.
- Instrument aliases and upper- and lower-case direction strings: symbols are compared as they are, directions are a datatype.
- The client order ids recorded on legs: which leg a position or order belongs to is an input.
- The withdrawals of a management poll show in the orders gone, not in the request log.
- The SHA-256 digest behind legacy tokens, decimal and floating-point precision, and white space inside base64 text.
- YAML: the words for not-a-number and infinity as floats, and line numbers in error messages.
- The Redis drivers, the time to live of the owner record, and the short-lived race of a non-atomic release: a release is one step, a store key expires only after every row's window.
- Telegram cards, Kafka and Postgres drivers, timestamps written by the ledger, the report queries and the policy hook behind the consumer.
