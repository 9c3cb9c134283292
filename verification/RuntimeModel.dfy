/** What each phase of a poll does to one plan: the next record, the broker orders it
    placed or withdrew, and whether a cancel intent was acknowledged. */
module RuntimeModel {
  import opened Common
  import opened TradePlanModel
  import opened ExecutionEngine
  import opened VolumePlanner
  import opened PositionManagement
  import opened TargetLadder
  import opened OppositeExposureFence
  import Sizing

  /** Requests the broker accepted or was sent. What a management poll withdraws shows in
      `gone` only. */
  datatype BrokerOp =
    | Placed(planId: string, legId: string)
    | CancelSent(planId: string, orderId: int)
    | CloseSent(planId: string, positionId: int, volume: int)

  /** What one phase did for one plan. `next` is None when the plan is forgotten. Orders in
      `rested` now rest at the broker, orders in `gone` no longer do; an order in `partial`
      was seen both resting and with a position. */
  datatype Effect = Effect(
    next: Option<State>, ops: seq<BrokerOp>, rested: set<int>, gone: set<int>, partial: set<int>, acked: bool)

  function Unchanged(state: State): Effect { Effect(Some(state), [], {}, {}, {}, false) }
  function Forgotten(): Effect { Effect(None, [], {}, {}, {}, false) }

  datatype RuntimeConfig = RuntimeConfig(dryRun: bool, singleMarket: bool, policies: map<string, Policy>)

  // ----- the declared legs -------------------------------------------------------------------

  datatype Declared = Declared(legId: string, price: real, volume: int, orderType: Option<OrderType>)

  function OrElse(o: Option<real>, fallback: real): real { if o.Some? then o.value else fallback }

  /** Ids of the legs a plan declares, the risk leg aside. */
  function LegIds(plan: Plan): (ids: seq<string>)
    ensures plan.entry.kind != LimitLadder && plan.entry.kind != MarketWithLimitScale ==> ids == ["L1"]
    ensures plan.entry.kind == LimitLadder || plan.entry.kind == MarketWithLimitScale ==>
      |ids| == |plan.entry.legs| && forall i :: 0 <= i < |ids| ==> ids[i] == plan.entry.legs[i].legId
  {
    if plan.entry.kind == LimitLadder || plan.entry.kind == MarketWithLimitScale
    then seq(|plan.entry.legs|, i requires 0 <= i < |plan.entry.legs| => plan.entry.legs[i].legId)
    else ["L1"]
  }

  /** market_with_limit_scale fills in the order type a leg leaves out. */
  function OrderTypeOf(plan: Plan, index: nat): Option<OrderType>
    requires index < |plan.entry.legs|
  {
    var declared := plan.entry.legs[index].orderType;
    if declared.None? && plan.entry.kind == MarketWithLimitScale
    then Some(if index == 0 then MarketOrder else LimitOrder) else declared
  }

  /** Legs zipped with the slices of the current sizing. */
  function BuildDeclaredLegs(plan: Plan, sizing: Sizing.VolumePlan): (legs: seq<Declared>)
    ensures |legs| <= |LegIds(plan)|
    ensures forall i :: 0 <= i < |legs| ==> legs[i].legId == LegIds(plan)[i]
  {
    if plan.entry.kind != LimitLadder && plan.entry.kind != MarketWithLimitScale
    then [Declared("L1", OrElse(plan.entry.orderPrice, 0.0), sizing.total, Some(LimitOrder))]
    else
      var n := if |plan.entry.legs| <= |sizing.slices| then |plan.entry.legs| else |sizing.slices|;
      seq(n, i requires 0 <= i < n =>
        Declared(plan.entry.legs[i].legId, plan.entry.legs[i].price, sizing.slices[i], OrderTypeOf(plan, i)))
  }

  function RiskDeclared(risk: RiskLeg, symbol: SymbolInfo): Declared {
    Declared(RISK_LEG_ID, RoundTo(risk.price, symbol.digits), VolumeForLots(risk.lots, symbol), Some(LimitOrder))
  }

  /** The legs one submission attempt works through; None when the split collapsed and
      the scale policy does not let one market leg carry it. */
  function DeclaredLegs(plan: Plan, sizing: Sizing.VolumePlan, symbol: SymbolInfo, singleMarket: bool): Option<seq<Declared>> {
    var built := BuildDeclaredLegs(plan, sizing);
    var collapsed := plan.entry.kind == MarketWithLimitScale && |built| == 1 && |plan.entry.legs| > 1;
    if collapsed && !singleMarket then None
    else
      var legs := if collapsed then [built[0].(orderType := Some(MarketOrder))] else built;
      Some(if plan.entry.riskLeg.Some? then legs + [RiskDeclared(plan.entry.riskLeg.value, symbol)] else legs)
  }

  predicate UsesMarket(declared: Declared, direction: Direction, bid: real, ask: real) {
    if declared.orderType.Some? then declared.orderType.value == MarketOrder
    else if direction == Buy then declared.price >= ask else declared.price <= bid
  }

  /** A market order needs its stop on the losing side of the live quote. */
  predicate StopGeometryHolds(direction: Direction, stop: real, bid: real, ask: real) {
    if direction == Buy then stop < bid else stop > ask
  }

  // ----- runtime legs ------------------------------------------------------------------------------

  function FindLeg(legs: seq<Leg>, legId: string): (i: int)
    ensures -1 <= i < |legs|
    ensures i >= 0 ==> legs[i].legId == legId && forall k :: 0 <= k < i ==> legs[k].legId != legId
    ensures i < 0 ==> forall k :: 0 <= k < |legs| ==> legs[k].legId != legId
  {
    if legs == [] then -1
    else
      var n := |legs| - 1;
      var i := FindLeg(legs[..n], legId);
      if i >= 0 then i else if legs[n].legId == legId then n else -1
  }

  function PlannedLeg(declared: Declared): Leg {
    Leg(declared.legId, declared.price, declared.volume, None, None, None, 0, 0, Planned)
  }

  function EnsurePlannedLegs(legs: seq<Leg>, declared: seq<Declared>): seq<Leg> {
    if declared == [] then legs
    else
      var n := |declared| - 1;
      var rest := EnsurePlannedLegs(legs, declared[..n]);
      if FindLeg(rest, declared[n].legId) >= 0 then rest else rest + [PlannedLeg(declared[n])]
  }

  function UpsertLeg(legs: seq<Leg>, leg: Leg): seq<Leg> {
    var i := FindLeg(legs, leg.legId);
    if i < 0 then legs + [leg] else legs[i := leg]
  }

  /** The broker already owns this leg, so resuming never submits it again. */
  predicate AlreadyOwned(leg: Leg) {
    || leg.positionId.Some? || leg.orderId.Some?
    || leg.stage == Filled || leg.stage == Pending || leg.stage == Submitted || leg.stage == Managing
  }

  // ----- submitting --------------------------------------------------------------------------------

  datatype EntryDecision = Wait | PlanExpired | Go
  /** The broker's answer to a placement. When the reply is lost the broker took the order,
      under that id if it rests, but the call reports a failure. */
  datatype Placement =
    | PlaceFailed | LimitRested(orderId: int) | MarketFilled(positionId: int, price: real, volume: int)
    | ReplyLost(orderId: int)

  /** Everything a submission attempt reads: the entry decision, the owner's pause, the
      account snapshot for the fence, the quote, the sizing, and per declared leg the
      broker's answer and whether the record could be stored afterwards. */
  datatype SubmitInput = SubmitInput(
    decision: EntryDecision, paused: bool, snapshot: Option<Snapshot>, trackedOrder: seq<string>,
    bid: real, ask: real, symbol: SymbolInfo, sizing: Option<Sizing.VolumePlan>,
    placements: seq<Placement>, stored: seq<bool>)

  function PlacementFor(input: SubmitInput, index: nat): Placement {
    if index < |input.placements| then input.placements[index] else PlaceFailed
  }

  predicate StoredAfter(input: SubmitInput, index: nat) {
    index < |input.stored| && input.stored[index]
  }

  /** The leg the broker accepted, None when it did not. */
  function AcceptedLeg(declared: Declared, market: bool, answer: Placement): Option<Leg> {
    match answer
    case PlaceFailed => None
    case ReplyLost(_) => None
    case LimitRested(orderId) =>
      if market then None
      else Some(Leg(declared.legId, declared.price, declared.volume, Some(orderId), None, None, 0, 0, Pending))
    case MarketFilled(positionId, price, volume) =>
      if !market then None
      else Some(Leg(declared.legId, declared.price, declared.volume, None, Some(positionId), Some(price),
                    volume, volume, Filled))
  }

  /** A submission in progress: the working record, the record last put into the state
      map, what the broker accepted so far, and whether the attempt still runs. */
  datatype SubmitRun = SubmitRun(
    working: State, saved: State, ops: seq<BrokerOp>, rested: set<int>, goOn: bool)

  function AfterAccept(plan: Plan, working: State, leg: Leg, index: nat, count: nat): State {
    var legs := UpsertLeg(working.legs, leg);
    AggregateState(working.(
      legs := legs, submittedLegCount := index + 1, currentStop := plan.stopPrice,
      stage := if index + 1 < count then Submitting else DeriveRuntimeStage(legs),
      groupStage := if index + 1 < count then GroupSubmitting else DeriveGroupStage(legs)))
  }

  /** What the broker took although the call failed; the record knows nothing of it. */
  function LostOps(planId: string, legId: string, answer: Placement): seq<BrokerOp> {
    if answer.ReplyLost? then [Placed(planId, legId)] else []
  }

  function LostOrder(market: bool, answer: Placement): set<int> {
    if answer.ReplyLost? && !market then {answer.orderId} else {}
  }

  predicate OwnedAlready(legs: seq<Leg>, legId: string) {
    var i := FindLeg(legs, legId);
    i >= 0 && AlreadyOwned(legs[i])
  }

  function SubmitLeg(plan: Plan, declared: seq<Declared>, input: SubmitInput, index: nat, run: SubmitRun): SubmitRun
    requires index < |declared|
  {
    if OwnedAlready(run.working.legs, declared[index].legId) then
      var working := run.working.(submittedLegCount := index + 1);
      run.(working := working, saved := AggregateState(working), goOn := StoredAfter(input, index))
    else
      var market := UsesMarket(declared[index], plan.direction, input.bid, input.ask);
      var leg := AcceptedLeg(declared[index], market, PlacementFor(input, index));
      if leg.None? then
        run.(ops := run.ops + LostOps(plan.planId, declared[index].legId, PlacementFor(input, index)),
             rested := run.rested + LostOrder(market, PlacementFor(input, index)), goOn := false)
      else
        var next := AfterAccept(plan, run.working, leg.value, index, |declared|);
        SubmitRun(next, next, run.ops + [Placed(plan.planId, declared[index].legId)],
                  if leg.value.orderId.Some? then run.rested + {leg.value.orderId.value} else run.rested,
                  StoredAfter(input, index))
  }

  function StartRun(state: State, declared: seq<Declared>): SubmitRun {
    SubmitRun(state.(legs := EnsurePlannedLegs(state.legs, declared)), state, [], {}, true)
  }

  /** Legs up to `upto` worked through, resuming at the first one not yet submitted. */
  function SubmitLegs(plan: Plan, declared: seq<Declared>, input: SubmitInput, state: State, upto: nat): SubmitRun
    requires upto <= |declared|
  {
    if upto <= state.submittedLegCount then StartRun(state, declared)
    else
      var run := SubmitLegs(plan, declared, input, state, upto - 1);
      if run.goOn then SubmitLeg(plan, declared, input, upto - 1, run) else run
  }

  function Finished(working: State): State {
    AggregateState(working.(stage := DeriveRuntimeStage(working.legs), groupStage := DeriveGroupStage(working.legs)))
  }

  function SubmitLadder(plan: Plan, state: State, declared: seq<Declared>, input: SubmitInput): Effect {
    if (exists i :: 0 <= i < |declared| && UsesMarket(declared[i], plan.direction, input.bid, input.ask))
       && !StopGeometryHolds(plan.direction, plan.stopPrice, input.bid, input.ask)
    then Forgotten()
    else
      var run := SubmitLegs(plan, declared, input, state, |declared|);
      Effect(Some(if run.goOn then Finished(run.working) else run.saved), run.ops, run.rested, {}, {}, false)
  }

  function SubmitMarket(plan: Plan, state: State, total: int, input: SubmitInput): Effect {
    if !StopGeometryHolds(plan.direction, plan.stopPrice, input.bid, input.ask) then Forgotten()
    else
      var entry := if plan.direction == Buy then input.ask else input.bid;
      match AcceptedLeg(Declared("L1", entry, total, Some(MarketOrder)), true, PlacementFor(input, 0))
      case None => Effect(Some(state), LostOps(plan.planId, "L1", PlacementFor(input, 0)), {}, {}, {}, false)
      case Some(leg) =>
        var next := AggregateState(state.(
          legs := [leg], submittedLegCount := 1, currentStop := plan.stopPrice,
          stage := FullyOpen, groupStage := GroupFullyOpen));
        Effect(Some(next), [Placed(plan.planId, "L1")], {}, {}, {}, false)
  }

  function SubmitEntry(plan: Plan, state: State, config: RuntimeConfig, input: SubmitInput): Effect {
    if input.sizing.None? then Forgotten()
    else if plan.entry.kind == Market || plan.entry.kind == MarketWatch
    then SubmitMarket(plan, state, input.sizing.value.total, input)
    else
      match DeclaredLegs(plan, input.sizing.value, input.symbol, config.singleMarket)
      case None => Forgotten()
      case Some(declared) => SubmitLadder(plan, state, declared, input)
  }

  /** One pending plan in one poll. `verdict` is the fence's answer, None when the broker
      state could not be read. */
  function TrySubmit(plan: Plan, state: State, config: RuntimeConfig, input: SubmitInput, verdict: Option<Verdict>): Effect {
    if !IsPendingEntryStage(state) || input.decision == Wait then Unchanged(state)
    else if input.decision == PlanExpired then Forgotten()
    else if config.dryRun || input.paused then Unchanged(state)
    else if state.submittedLegCount == 0 && (verdict.None? || verdict.value.Misconfigured?) then Unchanged(state)
    else if state.submittedLegCount == 0 && verdict.value.Refused? then Forgotten()
    else SubmitEntry(plan, state, config, input)
  }

  // ----- the fence check ----------------------------------------------------------------------------

  function Average(prices: seq<real>): Option<real> {
    if prices == [] then None else Some(SumReal(prices) / |prices| as real)
  }

  function IntendedEntryPriceFrom(plan: Plan): Option<real> {
    var average := Average(EntryPrices(plan.entry));
    if average.Some? then average else plan.entry.orderPrice
  }

  function IncomingReference(plan: Plan, bid: real, ask: real): real {
    if plan.entry.kind == Market || plan.entry.kind == MarketWatch
    then if plan.direction == Buy then ask else bid
    else OrElse(IntendedEntryPriceFrom(plan), 0.0)
  }

  function PlanOf(plans: map<string, Plan>, planId: string): Option<Plan> {
    if planId in plans then Some(plans[planId]) else None
  }

  /** Tracked states held against an incoming plan, in map order. */
  function Counted(
    plans: map<string, Plan>, states: map<string, State>, incoming: Plan, order: seq<string>): (counted: seq<State>)
    ensures forall q :: q in order && q in states && CountsAgainstIncoming(states[q], PlanOf(plans, q), incoming) ==>
      states[q] in counted
    ensures forall s :: s in counted ==>
      exists q :: q in order && q in states && s == states[q] && CountsAgainstIncoming(s, PlanOf(plans, q), incoming)
  {
    if order == [] then []
    else
      var n := |order| - 1;
      var rest := Counted(plans, states, incoming, order[..n]);
      var q := order[n];
      if q in states && CountsAgainstIncoming(states[q], PlanOf(plans, q), incoming)
      then rest + [states[q]] else rest
  }

  function CheckOppositeExposure(
    plans: map<string, Plan>, states: map<string, State>, policies: map<string, Policy>, plan: Plan, input: SubmitInput)
    : Option<Verdict>
  {
    if plan.manual then Some(Clear)
    else if input.snapshot.None? then None
    else
      var groups := OppositeGroups(
        plan.direction, plan.symbol, Counted(plans, states, plan, input.trackedOrder), input.snapshot.value);
      Some(if groups == [] then Clear
           else if plan.symbol !in policies then Refused(PolicyUnavailable)
           else Evaluate(IncomingReference(plan, input.bid, input.ask), groups, policies[plan.symbol], plan.lane))
  }

  // ----- cancel intents -------------------------------------------------------------------------------

  /** How far the writes after the withdrawal got: the store or the event channel failed
      before the plan was settled, the acknowledgement could not be written, or all was
      written. */
  datatype Settlement = Interrupted | AckLost | AckWritten
  datatype CancelInput = CancelInput(intent: bool, now: int, withdrawal: Withdrawal, settlement: Settlement)

  predicate AnyResting(legs: seq<Leg>) { exists i :: 0 <= i < |legs| && StillResting(legs[i]) }
  predicate AnyCancellable(legs: seq<Leg>) { exists i :: 0 <= i < |legs| && IsCancellable(legs[i]) }
  predicate AnyPosition(legs: seq<Leg>) { exists i :: 0 <= i < |legs| && legs[i].positionId.Some? }

  predicate HasExpiredWithRestingEntries(plan: Plan, state: State, now: int) {
    plan.cancelOnExpiry && now >= plan.entry.expiresAt && AnyResting(state.legs)
  }

  predicate NeverSent(leg: Leg) {
    && leg.orderId.None? && leg.positionId.None?
    && (leg.stage == Planned || leg.stage == Pending || leg.stage == Submitted)
  }

  function Unsent(leg: Leg): Leg { if NeverSent(leg) then leg.(stage := Cancelled) else leg }

  /** A leg that never reached the broker is withdrawn, and a withdrawn leg forgets its
      dead order. */
  function Withdrawn(leg: Leg): Leg {
    var l := Unsent(leg);
    if l.stage == Cancelled && l.positionId.None? then l.(orderId := None) else l
  }

  function WithdrawnLegs(legs: seq<Leg>): (r: seq<Leg>)
    ensures |r| == |legs|
    ensures forall i :: 0 <= i < |legs| ==> r[i] == Withdrawn(legs[i])
  {
    seq(|legs|, i requires 0 <= i < |legs| => Withdrawn(legs[i]))
  }

  /** One cancel request per cancellable leg. */
  function CancelRequests(planId: string, legs: seq<Leg>): (ops: seq<BrokerOp>)
    ensures forall i :: 0 <= i < |ops| ==> ops[i].CancelSent? && ops[i].planId == planId
  {
    if legs == [] then []
    else
      var n := |legs| - 1;
      var rest := CancelRequests(planId, legs[..n]);
      if IsCancellable(legs[n]) then rest + [CancelSent(planId, legs[n].orderId.value)] else rest
  }

  /** The intent is fully applied: drop a plan with no position, keep managing the rest. */
  function SettleIntent(state: State): Option<State> {
    var legs := WithdrawnLegs(state.legs);
    if !AnyPosition(legs) then None
    else Some(AggregateState(state.(
      legs := legs, stage := DeriveRuntimeStage(legs), groupStage := DeriveGroupStage(legs))))
  }

  /** Nothing rests any more: the plan is settled and the intent acknowledged, as far as the
      writes succeed. */
  function Settled(state: State, settlement: Settlement): Effect {
    if settlement == Interrupted then Unchanged(state)
    else Effect(SettleIntent(state), [], {}, {}, {}, settlement == AckWritten)
  }

  function WithdrawForIntent(state: State, input: CancelInput): Effect {
    if !AnyCancellable(state.legs) then Unchanged(state)
    else
      var gone := WithdrawnOrders(state.legs, input.withdrawal.answers);
      var ops := CancelRequests(state.planId, state.legs);
      var after := CancelUnfilledEntryLegs(state, input.withdrawal.answers);
      if !input.withdrawal.confirmed then Effect(Some(state), ops, {}, gone, {}, false)
      else if AnyResting(after.legs) then Effect(Some(after), ops, {}, gone, {}, false)
      else Settled(after, input.settlement).(ops := ops, gone := gone)
  }

  function ApplyCancelIntent(plan: Plan, state: State, config: RuntimeConfig, input: CancelInput): Effect {
    if !input.intent && !HasExpiredWithRestingEntries(plan, state, input.now) then Unchanged(state)
    else if AnyResting(state.legs) && !config.dryRun then WithdrawForIntent(state, input)
    else Settled(state, input.settlement)
  }

  // ----- the owner's flatten ----------------------------------------------------------------------------

  /** `walked` is how many legs the closing loop gets through before a call throws. */
  datatype FlattenInput = FlattenInput(withdrawal: Withdrawal, walked: nat)

  /** Whole closes of the open legs among the given ones. */
  function FlattenCloses(planId: string, legs: seq<Leg>): (ops: seq<BrokerOp>)
    ensures forall i :: 0 <= i < |ops| ==> ops[i].CloseSent? && ops[i].planId == planId
  {
    if legs == [] then []
    else
      var n := |legs| - 1;
      var rest := FlattenCloses(planId, legs[..n]);
      if legs[n].positionId.Some? && legs[n].remaining > 0
      then rest + [CloseSent(planId, legs[n].positionId.value, legs[n].remaining)] else rest
  }

  function Walked(legs: seq<Leg>, n: nat): seq<Leg> { if n <= |legs| then legs[..n] else legs }

  /** Withdraws the resting entries and closes the open legs at the broker. It settles
      nothing: the record learns of the closes when it next reconciles. */
  function FlattenPlan(state: State, input: FlattenInput): Effect {
    if state.stage == PlanClosed then Unchanged(state)
    else if !AnyCancellable(state.legs) then
      Unchanged(state).(ops := FlattenCloses(state.planId, Walked(state.legs, input.walked)))
    else
      var gone := WithdrawnOrders(state.legs, input.withdrawal.answers);
      var ops := CancelRequests(state.planId, state.legs);
      var after := CancelUnfilledEntryLegs(state, input.withdrawal.answers);
      if !input.withdrawal.confirmed then Effect(Some(state), ops, {}, gone, {}, false)
      else Effect(Some(after), ops + FlattenCloses(state.planId, Walked(after.legs, input.walked)), {}, gone, {}, false)
  }

  // ----- reconciling ------------------------------------------------------------------------------------

  datatype AmendAnswer = Amended | StopRejected | AmendFailed
  /** A broker position whose identity names this plan's leg. */
  datatype Adoption = Adoption(legId: string, positionId: int, price: real, volume: int, amend: AmendAnswer)
  /** What became of a leg's order once it left the pending snapshot. */
  datatype VanishVerdict = Undecided | NeverFilled | FilledAs(adoption: Adoption, stillOpen: bool)

  datatype ReconcileInput = ReconcileInput(
    pending: set<int>, adoptions: seq<Adoption>, vanished: seq<VanishVerdict>, idsDiffer: bool)

  function VerdictFor(input: ReconcileInput, index: nat): VanishVerdict {
    if index < |input.vanished| then input.vanished[index] else Undecided
  }

  predicate NeedsSubmittedReconcile(state: State) {
    || state.stage == AllSubmitted || state.stage == PartiallyOpen
    || exists i :: 0 <= i < |state.legs|
         && (state.legs[i].stage == Pending || state.legs[i].stage == Submitted
             || (state.legs[i].orderId.Some? && state.legs[i].positionId.None?))
  }

  function Rederived(state: State, legs: seq<Leg>): State {
    AggregateState(state.(
      legs := legs, stage := DeriveRuntimeStage(legs), groupStage := DeriveGroupStage(legs)))
  }

  function AdoptFilledLeg(state: State, a: Adoption): State {
    var i := FindLeg(state.legs, a.legId);
    var legs :=
      if i < 0
      then state.legs + [Leg(a.legId, a.price, a.volume, None, Some(a.positionId), Some(a.price), a.volume, a.volume, Filled)]
      else state.legs[i := state.legs[i].(positionId := Some(a.positionId), fillPrice := Some(a.price),
                                          filled := a.volume, remaining := a.volume, stage := Filled)];
    Rederived(state, legs)
  }

  predicate AlreadyAdopted(legs: seq<Leg>, a: Adoption) {
    var i := FindLeg(legs, a.legId);
    i >= 0 && legs[i].positionId == Some(a.positionId) && (legs[i].stage == Filled || legs[i].stage == Managing)
  }

  /** A reconcile in progress. `record` is the aggregated record, `legs` the working list;
      `ok` is false once a broker call has thrown. */
  datatype ReconcileRun = ReconcileRun(record: State, legs: seq<Leg>, changed: bool, ok: bool, partial: set<int>)

  /** The order of the adopted leg, when the broker still rests it. */
  function PartialOrder(legs: seq<Leg>, legId: string, pending: set<int>): set<int> {
    var i := FindLeg(legs, legId);
    if i >= 0 && legs[i].orderId.Some? && legs[i].orderId.value in pending then {legs[i].orderId.value} else {}
  }

  function AfterAmend(plan: Plan, state: State, amend: AmendAnswer): State {
    if amend == Amended then AggregateState(state.(currentStop := plan.stopPrice)) else AggregateState(state)
  }

  function Adopt(plan: Plan, input: ReconcileInput, run: ReconcileRun, a: Adoption, amends: bool): ReconcileRun {
    var adopted := AdoptFilledLeg(run.record, a);
    var partial := run.partial + PartialOrder(run.record.legs, a.legId, input.pending);
    if amends && a.amend == AmendFailed then run.(ok := false, partial := partial)
    else
      var record := if amends then AfterAmend(plan, adopted, a.amend) else adopted;
      ReconcileRun(record, record.legs, true, true, partial)
  }

  function AdoptPositions(plan: Plan, input: ReconcileInput, state: State, upto: nat): ReconcileRun
    requires upto <= |input.adoptions|
  {
    if upto == 0 then ReconcileRun(state, state.legs, false, true, {})
    else
      var run := AdoptPositions(plan, input, state, upto - 1);
      var a := input.adoptions[upto - 1];
      if !run.ok || AlreadyAdopted(run.legs, a) then run else Adopt(plan, input, run, a, true)
  }

  /** One leg of the second pass: its order left the pending snapshot. An adoption found in
      the order history restarts from the aggregated record, so edits made to the working
      list earlier in this pass are dropped with it. */
  function CheckPending(plan: Plan, input: ReconcileInput, run: ReconcileRun, index: nat): ReconcileRun {
    if index >= |run.legs| then run
    else
      var leg := run.legs[index];
      if leg.orderId.None? || leg.orderId.value in input.pending then run
      else if leg.positionId.Some? then
        if leg.stage == Pending then run.(legs := run.legs[index := leg.(stage := Filled)], changed := true) else run
      else
        match VerdictFor(input, index)
        case Undecided => run
        case NeverFilled => run.(legs := run.legs[index := leg.(stage := Cancelled, orderId := None)], changed := true)
        case FilledAs(a, stillOpen) => Adopt(plan, input, run, a.(legId := leg.legId), stillOpen)
  }

  function CheckPendings(plan: Plan, input: ReconcileInput, state: State, upto: nat): ReconcileRun {
    if upto == 0 then AdoptPositions(plan, input, state, |input.adoptions|)
    else
      var run := CheckPendings(plan, input, state, upto - 1);
      if run.ok then CheckPending(plan, input, run, upto - 1) else run
  }

  function ReconcileSubmittedLegs(plan: Plan, state: State, input: ReconcileInput): Effect {
    if !NeedsSubmittedReconcile(state) || state.legs == [] then Unchanged(state)
    else
      var first := AdoptPositions(plan, input, state, |input.adoptions|);
      var run := CheckPendings(plan, input, state, |first.legs|);
      var gone := LegOrders(state.legs) - input.pending;
      if !run.ok then Effect(Some(state), [], {}, gone, run.partial, false)
      else
        var next := Rederived(run.record, run.legs);
        var saves := run.changed || next.stage != state.stage || input.idsDiffer;
        var ownerCancelled := run.changed && next.groupStage == GroupCancelled && state.groupStage != GroupCancelled;
        Effect(if ownerCancelled then None else if saves then Some(next) else Some(state), [], {}, gone, run.partial, false)
  }

  // ----- managing ---------------------------------------------------------------------------------------

  function CloseRequests(planId: string, legs: seq<Leg>, slices: seq<int>): (ops: seq<BrokerOp>)
    requires |slices| == |legs|
    ensures forall i :: 0 <= i < |ops| ==> ops[i].CloseSent? && ops[i].planId == planId
  {
    if legs == [] then []
    else
      var n := |legs| - 1;
      var rest := CloseRequests(planId, legs[..n], slices[..n]);
      if slices[n] > 0 && legs[n].positionId.Some?
      then rest + [CloseSent(planId, legs[n].positionId.value, slices[n])] else rest
  }

  /** The closes the next target asks the broker for. */
  function TargetRequests(plan: Plan, state: State, config: Config, tick: Tick): seq<BrokerOp> {
    if ReachesBooking(plan, config, state, tick)
    then CloseRequests(plan.planId, state.legs, Slices(plan, config, state, tick)) else []
  }

  /** The closes a poll asks the broker for. */
  function ManageRequests(plan: Plan, state: State, config: Config, tick: Tick): seq<BrokerOp> {
    if !IsManagingStage(state) then []
    else
      var a := ClassifyMissingLegs(AggregateState(state), tick);
      if a.tracked && AnyHeld(a.state.legs, tick.present) then TargetRequests(plan, a.state, config, tick) else []
  }

  /** What a management outcome and its close requests come to. */
  function Managed(o: Outcome, ops: seq<BrokerOp>): Effect {
    Effect(if o.tracked then Some(o.state) else None, ops, {}, o.withdrawn, {}, false)
  }

  function ManageOpenPositions(plan: Plan, state: State, config: Config, tick: Tick): Effect {
    Managed(ManagePlan(plan, config, state, tick), ManageRequests(plan, state, config, tick))
  }
}
