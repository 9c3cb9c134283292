/** All plans together, the broker's book and the durable claims, moved by the phases of a
    poll in any order. */
module RuntimeWorld {
  import opened Common
  import opened TradePlanModel
  import opened PositionManagement
  import opened OppositeExposureFence
  import opened RuntimeModel

  /** `resting` maps an order at the broker to its plan. `acked` holds, per acknowledged
      cancel intent, how long the broker log was when it was written. */
  datatype World = World(
    plans: map<string, Plan>, states: map<string, State>,
    claimed: set<string>, settled: set<string>, acked: map<string, nat>,
    resting: map<int, string>, partial: set<int>, log: seq<BrokerOp>)

  function Empty(): World { World(map[], map[], {}, {}, map[], map[], {}, []) }

  datatype Event =
    | Arm(plan: Plan, sized: bool, recorded: bool)
    | Submit(planId: string, submit: SubmitInput)
    | Cancel(planId: string, cancel: CancelInput)
    | Flatten(planId: string, flatten: FlattenInput)
    | Reconcile(planId: string, reconcile: ReconcileInput)
    | Manage(planId: string, config: Config, tick: Tick)
    | OrderGone(orderId: int)          // filled whole, cancelled or expired at the broker

  // ----- arming -------------------------------------------------------------------------

  predicate Regular(plan: Plan) { !plan.scalp && !plan.manual }

  predicate Blocks(other: State, incoming: Plan) {
    && other.planId != incoming.planId && other.stage != PlanClosed
    && other.symbol == incoming.symbol && other.direction == incoming.direction
    && other.highestBooked < 1
  }

  /** A non-scalp plan waits for every live plan of its side to have booked TP2. */
  predicate HasBlockingSameDirectionLivePlan(w: World, incoming: Plan) {
    Regular(incoming) && exists q :: q in w.states && Blocks(w.states[q], incoming)
  }

  function FreshState(plan: Plan): State {
    State(plan.planId, plan.symbol, plan.direction, Received, GroupReceived, [], 0, 0, None,
          IntendedEntryPriceFrom(plan), plan.stopPrice, 0, -1, false, 0.0)
  }

  /** The claim comes first and lasts; `recorded` is false when a store write fails between
      noting the plan and its record. */
  function ArmPlan(w: World, plan: Plan, sized: bool, recorded: bool): World {
    if !Validates(plan) || plan.planId in w.claimed then w
    else
      var claimed := w.(claimed := w.claimed + {plan.planId});
      if !sized || HasBlockingSameDirectionLivePlan(w, plan) then claimed
      else
        var noted := claimed.(plans := w.plans[plan.planId := plan]);
        if recorded then noted.(states := w.states[plan.planId := FreshState(plan)]) else noted
  }

  // ----- one step -----------------------------------------------------------------------------

  function RestingAfter(resting: map<int, string>, planId: string, eff: Effect): map<int, string> {
    map o | o in resting.Keys + eff.rested && (o in eff.rested || o !in eff.gone)
      :: if o in eff.rested then planId else resting[o]
  }

  function Apply(w: World, planId: string, eff: Effect): World {
    var log := w.log + eff.ops;
    World(
      if eff.next.Some? then w.plans else w.plans - {planId},
      if eff.next.Some? then w.states[planId := eff.next.value] else w.states - {planId},
      w.claimed,
      if eff.acked then w.settled + {planId} else w.settled,
      if eff.acked then w.acked[planId := |log|] else w.acked,
      RestingAfter(w.resting, planId, eff), w.partial + eff.partial, log)
  }

  predicate Tracked(w: World, planId: string) { planId in w.plans && planId in w.states }

  function PlanEffect(w: World, config: RuntimeConfig, planId: string, e: Event): Effect
    requires Tracked(w, planId)
  {
    var plan, state := w.plans[planId], w.states[planId];
    match e
    case Submit(_, input) =>
      TrySubmit(plan, state, config, input, CheckOppositeExposure(w.plans, w.states, config.policies, plan, input))
    case Cancel(_, input) =>
      if planId in w.settled then Unchanged(state) else ApplyCancelIntent(plan, state, config, input)
    case Flatten(_, input) => FlattenPlan(state, input)
    case Reconcile(_, input) => ReconcileSubmittedLegs(plan, state, input)
    case Manage(_, c, tick) => RuntimeModel.ManageOpenPositions(plan, state, c, tick)
    case _ => Unchanged(state)
  }

  function Step(w: World, config: RuntimeConfig, e: Event): World {
    match e
    case Arm(plan, sized, recorded) => ArmPlan(w, plan, sized, recorded)
    case OrderGone(orderId) => w.(resting := w.resting - {orderId})
    case _ => if Tracked(w, e.planId) then Apply(w, e.planId, PlanEffect(w, config, e.planId, e)) else w
  }

  function Run(config: RuntimeConfig, events: seq<Event>): World {
    if events == [] then Empty()
    else Step(Run(config, events[..|events| - 1]), config, events[|events| - 1])
  }

  // ----- what every reachable world keeps ----------------------------------------------------------

  predicate Consistent(w: World) {
    && w.states.Keys <= w.plans.Keys <= w.claimed
    && (forall p :: p in w.states ==>
          && w.plans[p].planId == p && w.states[p].planId == p
          && w.states[p].symbol == w.plans[p].symbol && w.states[p].direction == w.plans[p].direction)
  }

  /** Identity of a record: everything no phase ever changes. */
  predicate SameIdentity(a: State, b: State) {
    && a.planId == b.planId && a.symbol == b.symbol && a.direction == b.direction
    && a.intendedEntry == b.intendedEntry
  }
}
