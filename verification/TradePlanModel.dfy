/** The TradePlan contract and the executor's runtime record for one plan. */
module TradePlanModel {
  import opened Common

  // ----- the declared plan -----------------------------------------------------------

  datatype Direction = Buy | Sell
  datatype OrderType = MarketOrder | LimitOrder
  datatype EntryType = Market | MarketWatch | SingleLimit | LimitLadder | MarketWithLimitScale

  datatype EntryLeg = EntryLeg(legId: string, price: real, ratio: real, orderType: Option<OrderType>)
  datatype RiskLeg = RiskLeg(price: real, lots: real)
  datatype Entry = Entry(
    kind: EntryType, expiresAt: int, zoneLow: Option<real>, zoneHigh: Option<real>,
    orderPrice: Option<real>, legs: seq<EntryLeg>, riskLeg: Option<RiskLeg>)
  datatype Target = Target(targetId: string, price: real, closeRatio: real)
  datatype Management = Management(
    beAfter: Option<string>, beBufferTicks: int, trailAfter: Option<string>, trailTo: Option<string>)
  datatype Risk = Risk(riskPercent: real, maxVolume: int)

  datatype Plan = Plan(
    planId: string, symbol: string, createdAt: int, direction: Direction,
    scalp: bool, manual: bool, entry: Entry, stopPrice: real, targets: seq<Target>,
    risk: Risk, management: Management, cancelOnExpiry: bool, lane: string)

  /** Every price at which the entry could fill. */
  function EntryPrices(entry: Entry): seq<real> {
    match entry.kind
    case MarketWatch =>
      if entry.zoneLow.Some? && entry.zoneHigh.Some? then [entry.zoneLow.value, entry.zoneHigh.value] else []
    case Market | SingleLimit =>
      if entry.orderPrice.Some? then [entry.orderPrice.value] else []
    case LimitLadder | MarketWithLimitScale =>
      seq(|entry.legs|, i requires 0 <= i < |entry.legs| => entry.legs[i].price)
  }

  /** First index of a target id, -1 when no target carries it. */
  function IndexOfTarget(targets: seq<Target>, targetId: string): (i: int)
    ensures -1 <= i < |targets|
    ensures i >= 0 ==> targets[i].targetId == targetId
    ensures forall k :: 0 <= k < |targets| && targets[k].targetId == targetId ==> 0 <= i <= k
  {
    if targets == [] then -1
    else
      var i := IndexOfTarget(targets[..|targets| - 1], targetId);
      if i >= 0 then i
      else if targets[|targets| - 1].targetId == targetId then |targets| - 1 else -1
  }

  predicate StopBeyond(direction: Direction, stop: real, price: real) {
    if direction == Buy then stop < price else stop > price
  }

  /** The geometry the validator enforces before a plan is armed. */
  predicate Validates(plan: Plan) {
    var prices := EntryPrices(plan.entry);
    && prices != []
    && (plan.entry.riskLeg.Some? ==> StopBeyond(plan.direction, plan.stopPrice, plan.entry.riskLeg.value.price))
    && (forall i :: 0 <= i < |prices| ==> StopBeyond(plan.direction, plan.stopPrice, prices[i]))
    && plan.targets != []
    && (forall t, i :: 0 <= t < |plan.targets| && 0 <= i < |prices| ==>
          if plan.direction == Buy then plan.targets[t].price > prices[i] else plan.targets[t].price < prices[i])
    && (forall t, u :: 0 <= t < u < |plan.targets| ==>
          if plan.direction == Buy then plan.targets[t].price <= plan.targets[u].price
          else plan.targets[t].price >= plan.targets[u].price)
    && ManagementValid(plan)
  }

  predicate ManagementValid(plan: Plan) {
    var m := plan.management;
    && (m.beAfter.Some? ==> IndexOfTarget(plan.targets, m.beAfter.value) >= 0)
    && (m.trailAfter.Some? <==> m.trailTo.Some?)
    && (m.trailAfter.Some? ==>
          var after := IndexOfTarget(plan.targets, m.trailAfter.value);
          var to := IndexOfTarget(plan.targets, m.trailTo.value);
          0 <= to < after < |plan.targets| - 1)
  }

  // ----- the runtime record -------------------------------------------------------------

  datatype LegStage =
    Planned | Submitted | Pending | Filled | Managing | Cancelled | Expired | Rejected | Closed
  datatype Stage = Received | Submitting | AllSubmitted | PartiallyOpen | FullyOpen | PlanClosed
  datatype GroupStage =
    GroupReceived | GroupSubmitting | GroupSubmitted | GroupPartiallyOpen | GroupFullyOpen
    | GroupPartiallyClosed | GroupClosed | GroupCancelled | RecoveryRequired

  datatype Leg = Leg(
    legId: string, intendedPrice: real, intendedVolume: int,
    orderId: Option<int>, positionId: Option<int>, fillPrice: Option<real>,
    filled: int, remaining: int, stage: LegStage)

  datatype State = State(
    planId: string, symbol: string, direction: Direction, stage: Stage, groupStage: GroupStage,
    legs: seq<Leg>, submittedLegCount: nat, totalFilled: int, groupFill: Option<real>,
    intendedEntry: Option<real>, currentStop: real, nextTarget: nat, highestBooked: int,
    breakEvenApplied: bool, bookedPipVolume: real)

  function FilledVolumes(legs: seq<Leg>): (v: seq<int>)
    ensures |v| == |legs| && forall i :: 0 <= i < |v| ==> v[i] == legs[i].filled
  {
    seq(|legs|, i requires 0 <= i < |legs| => legs[i].filled)
  }

  function RemainingVolumes(legs: seq<Leg>): (v: seq<int>)
    ensures |v| == |legs| && forall i :: 0 <= i < |v| ==> v[i] == legs[i].remaining
  {
    seq(|legs|, i requires 0 <= i < |legs| => legs[i].remaining)
  }

  predicate IsOpen(leg: Leg) {
    leg.positionId.Some? && leg.remaining > 0 && leg.stage != Closed
  }

  /** Not filled, and either known to the broker or believed to be. */
  predicate IsPending(leg: Leg) {
    leg.positionId.None? && (leg.orderId.Some? || leg.stage == Pending || leg.stage == Submitted)
  }

  predicate IsTerminal(leg: Leg) {
    leg.stage == Cancelled || leg.stage == Expired || leg.stage == Rejected || leg.stage == Closed
  }

  predicate AnyOpen(legs: seq<Leg>) { exists i :: 0 <= i < |legs| && IsOpen(legs[i]) }
  predicate AnyPending(legs: seq<Leg>) { exists i :: 0 <= i < |legs| && IsPending(legs[i]) }
  predicate AllTerminal(legs: seq<Leg>) { forall i :: 0 <= i < |legs| ==> IsTerminal(legs[i]) }

  function DeriveRuntimeStage(legs: seq<Leg>): Stage {
    if legs == [] then AllSubmitted
    else if AnyOpen(legs) && AnyPending(legs) then PartiallyOpen
    else if AnyOpen(legs) then FullyOpen
    else if AnyPending(legs) then AllSubmitted
    else if AllTerminal(legs) then PlanClosed
    else AllSubmitted
  }

  function DeriveGroupStage(legs: seq<Leg>): GroupStage {
    match DeriveRuntimeStage(legs)
    case PartiallyOpen => GroupPartiallyOpen
    case FullyOpen => GroupFullyOpen
    case PlanClosed =>
      if legs != [] && (forall i :: 0 <= i < |legs| ==> legs[i].filled == 0)
         && (exists i :: 0 <= i < |legs| && legs[i].stage == Cancelled)
      then GroupCancelled else GroupClosed
    case _ => GroupSubmitted
  }

  /** Filled value and volume of the legs that have a fill price. */
  function FillTotals(legs: seq<Leg>): (real, int) {
    if legs == [] then (0.0, 0)
    else
      var n := |legs| - 1;
      var (value, volume) := FillTotals(legs[..n]);
      if legs[n].fillPrice.Some? && legs[n].filled > 0
      then (value + legs[n].fillPrice.value * legs[n].filled as real, volume + legs[n].filled)
      else (value, volume)
  }

  function WeightedFillPrice(legs: seq<Leg>): Option<real> {
    var (value, volume) := FillTotals(legs);
    if volume <= 0 then None else Some(value / volume as real)
  }

  /** Re-derives everything the record caches about its legs. A ladder that is still
      being submitted stays Submitting, so the next poll finishes it. */
  function AggregateState(state: State): State {
    var legs := state.legs;
    var weighted := WeightedFillPrice(legs);
    state.(
      totalFilled := Sum(FilledVolumes(legs)),
      groupFill := if weighted.Some? then weighted else state.groupFill,
      stage := if state.stage == Submitting then Submitting else DeriveRuntimeStage(legs),
      groupStage :=
        if state.groupStage == RecoveryRequired then RecoveryRequired
        else if state.stage == Submitting then GroupSubmitting
        else DeriveGroupStage(legs))
  }

  predicate IsPendingEntryStage(state: State) {
    state.stage == Received || state.stage == Submitting
  }

  /** The leg ids of a record are pairwise different. */
  predicate DistinctLegs(legs: seq<Leg>) {
    forall i, j :: 0 <= i < j < |legs| ==> legs[i].legId != legs[j].legId
  }

  const RISK_LEG_ID := "RISK"

  // ----- withdrawing unfilled entry legs -----------------------------------------------

  /** What the broker answers to one cancel. NotFound carries whether a live position
      of that leg was seen afterwards. */
  datatype CancelAnswer = CancelAccepted | CancelNotFound(filledSeen: bool) | CancelFailed

  predicate IsCancellable(leg: Leg) {
    && leg.orderId.Some? && leg.positionId.None?
    && (leg.stage == Pending || leg.stage == Submitted || leg.stage == Planned)
  }

  /** Still believed to rest at the broker. */
  predicate StillResting(leg: Leg) {
    leg.orderId.Some? && leg.positionId.None? && leg.stage != Cancelled
  }

  function AfterCancel(leg: Leg, answer: CancelAnswer): Leg {
    if !IsCancellable(leg) then leg
    else match answer
      case CancelAccepted => leg.(stage := Cancelled)
      case CancelNotFound(filledSeen) => if filledSeen then leg else leg.(stage := Cancelled, orderId := None)
      case CancelFailed => leg
  }

  function AnswerFor(answers: seq<CancelAnswer>, i: nat): CancelAnswer {
    if i < |answers| then answers[i] else CancelFailed
  }

  function LegsAfterCancels(legs: seq<Leg>, answers: seq<CancelAnswer>): (r: seq<Leg>)
    ensures |r| == |legs|
    ensures forall i :: 0 <= i < |legs| ==> r[i] == AfterCancel(legs[i], AnswerFor(answers, i))
  {
    seq(|legs|, i requires 0 <= i < |legs| => AfterCancel(legs[i], AnswerFor(answers, i)))
  }

  /** Orders the broker said it no longer rests while the legs were withdrawn. */
  function WithdrawnOrders(legs: seq<Leg>, answers: seq<CancelAnswer>): set<int> {
    set i | 0 <= i < |legs| && IsCancellable(legs[i]) && !AnswerFor(answers, i).CancelFailed?
      :: legs[i].orderId.value
  }

  function CancelUnfilledEntryLegs(state: State, answers: seq<CancelAnswer>): State {
    if forall i :: 0 <= i < |state.legs| ==> !IsCancellable(state.legs[i]) then state
    else AggregateState(state.(legs := LegsAfterCancels(state.legs, answers)))
  }
}
