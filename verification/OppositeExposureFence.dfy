/** The engine-side fence against opposite-direction exposure: which exposure counts
    against an incoming plan, and whether the plan may trade beside it. */
module OppositeExposureFence {
  import opened Common
  import opened Text
  import opened TradePlanModel

  /** What an instrument declares about opposite positions. */
  datatype Policy = Policy(
    mayOppose: bool, minimumSeparation: Option<real>, pipSize: real, scalpSeparation: Option<real>)

  /** A policy the configuration parser lets through. */
  predicate PolicyValid(policy: Policy) {
    && policy.pipSize > 0.0
    && if policy.mayOppose
       then policy.minimumSeparation.Some? && policy.scalpSeparation.Some?
            && 0.0 < policy.scalpSeparation.value <= policy.minimumSeparation.value
       else policy.minimumSeparation.None? && policy.scalpSeparation.None?
  }

  /** A broker position or pending order; `owner` is the plan its comment or client order
      id names, when they name one. */
  datatype BrokerItem = BrokerItem(
    id: int, symbol: string, direction: Direction, volume: int, price: real, owner: Option<string>)
  datatype Snapshot = Snapshot(positions: seq<BrokerItem>, orders: seq<BrokerItem>)

  datatype Group =
    | PlanGroup(planId: string, direction: Direction, price: real)
    | PositionGroup(positionId: int, direction: Direction, price: real)
    | OrderGroup(orderId: int, direction: Direction, price: real)

  datatype Refusal = OppositeNotAllowed | TooClose | LaneUnknown | PolicyUnavailable
  datatype Verdict = Clear | Refused(refusal: Refusal) | Misconfigured

  // ----- which tracked plans expose -------------------------------------------------------

  predicate IsLive(state: State) {
    && state.stage != PlanClosed
    && state.groupStage != GroupClosed && state.groupStage != GroupCancelled
    && state.groupStage != RecoveryRequired
  }

  /** The recorded fill once something filled, the planned entry before that. */
  function EntryReference(state: State): Option<real> {
    if state.totalFilled > 0 && state.groupFill.Some? then state.groupFill
    else if state.intendedEntry.Some? then state.intendedEntry
    else state.groupFill
  }

  predicate Counts(state: State, symbol: string) {
    IsLive(state) && state.symbol == symbol
  }

  predicate Exposes(state: State, direction: Direction, symbol: string) {
    && Counts(state, symbol) && state.direction != direction
    && EntryReference(state).Some? && EntryReference(state).value > 0.0
  }

  function PlanGroups(direction: Direction, symbol: string, tracked: seq<State>): (groups: seq<Group>)
    ensures forall g :: g in groups <==>
      exists i :: 0 <= i < |tracked| && Exposes(tracked[i], direction, symbol)
                  && g == PlanGroup(tracked[i].planId, tracked[i].direction, EntryReference(tracked[i]).value)
  {
    if tracked == [] then []
    else
      var n := |tracked| - 1;
      var rest := PlanGroups(direction, symbol, tracked[..n]);
      if Exposes(tracked[n], direction, symbol)
      then rest + [PlanGroup(tracked[n].planId, tracked[n].direction, EntryReference(tracked[n]).value)]
      else rest
  }

  // ----- which broker items no live plan accounts for ------------------------------------------

  /** Identities claimed by the live plans on the instrument. */
  datatype Ownership = Ownership(planIds: set<string>, positionIds: set<int>, orderIds: set<int>)

  function LegPositions(legs: seq<Leg>): set<int> {
    set i | 0 <= i < |legs| && legs[i].positionId.Some? :: legs[i].positionId.value
  }

  function LegOrders(legs: seq<Leg>): set<int> {
    set i | 0 <= i < |legs| && legs[i].orderId.Some? :: legs[i].orderId.value
  }

  function WithOwner(owned: Ownership, state: State): Ownership {
    Ownership(owned.planIds + {state.planId}, owned.positionIds + LegPositions(state.legs),
              owned.orderIds + LegOrders(state.legs))
  }

  function TrackedOwnership(symbol: string, tracked: seq<State>): Ownership {
    if tracked == [] then Ownership({}, {}, {})
    else
      var n := |tracked| - 1;
      var rest := TrackedOwnership(symbol, tracked[..n]);
      if Counts(tracked[n], symbol) then WithOwner(rest, tracked[n]) else rest
  }

  predicate OwnedBy(item: BrokerItem, ids: set<int>, planIds: set<string>) {
    item.id in ids || (item.owner.Some? && item.owner.value in planIds)
  }

  predicate Unclaimed(item: BrokerItem, direction: Direction, symbol: string, ids: set<int>, planIds: set<string>) {
    item.symbol == symbol && item.volume > 0 && item.direction != direction && !OwnedBy(item, ids, planIds)
  }

  function PositionGroups(
    direction: Direction, symbol: string, positions: seq<BrokerItem>, owned: Ownership): (groups: seq<Group>)
    ensures forall g :: g in groups <==>
      exists i :: 0 <= i < |positions|
                  && Unclaimed(positions[i], direction, symbol, owned.positionIds, owned.planIds)
                  && g == PositionGroup(positions[i].id, positions[i].direction, positions[i].price)
  {
    if positions == [] then []
    else
      var n := |positions| - 1;
      var rest := PositionGroups(direction, symbol, positions[..n], owned);
      if Unclaimed(positions[n], direction, symbol, owned.positionIds, owned.planIds)
      then rest + [PositionGroup(positions[n].id, positions[n].direction, positions[n].price)] else rest
  }

  function OrderGroups(
    direction: Direction, symbol: string, orders: seq<BrokerItem>, owned: Ownership): (groups: seq<Group>)
    ensures forall g :: g in groups <==>
      exists i :: 0 <= i < |orders|
                  && Unclaimed(orders[i], direction, symbol, owned.orderIds, owned.planIds)
                  && g == OrderGroup(orders[i].id, orders[i].direction, orders[i].price)
  {
    if orders == [] then []
    else
      var n := |orders| - 1;
      var rest := OrderGroups(direction, symbol, orders[..n], owned);
      if Unclaimed(orders[n], direction, symbol, owned.orderIds, owned.planIds)
      then rest + [OrderGroup(orders[n].id, orders[n].direction, orders[n].price)] else rest
  }

  function OppositeGroups(direction: Direction, symbol: string, tracked: seq<State>, snapshot: Snapshot): seq<Group> {
    var owned := TrackedOwnership(symbol, tracked);
    PlanGroups(direction, symbol, tracked) + PositionGroups(direction, symbol, snapshot.positions, owned)
    + OrderGroups(direction, symbol, snapshot.orders, owned)
  }

  method CollectOppositeGroups(direction: Direction, symbol: string, tracked: seq<State>, snapshot: Snapshot)
    returns (groups: seq<Group>)
    ensures groups == OppositeGroups(direction, symbol, tracked, snapshot)
  {
    groups := [];
    var owned := Ownership({}, {}, {});
    for i := 0 to |tracked|
      invariant groups == PlanGroups(direction, symbol, tracked[..i])
      invariant owned == TrackedOwnership(symbol, tracked[..i])
    {
      assert tracked[..i + 1][..i] == tracked[..i];
      var state := tracked[i];
      if Counts(state, symbol) {
        owned := WithOwner(owned, state);
        if state.direction != direction {
          var entry := EntryReference(state);
          if entry.Some? && entry.value > 0.0 {
            groups := groups + [PlanGroup(state.planId, state.direction, entry.value)];
          }
        }
      }
    }
    assert tracked[..|tracked|] == tracked;
    ghost var plans := groups;
    for i := 0 to |snapshot.positions|
      invariant groups == plans + PositionGroups(direction, symbol, snapshot.positions[..i], owned)
    {
      assert snapshot.positions[..i + 1][..i] == snapshot.positions[..i];
      var item := snapshot.positions[i];
      if Unclaimed(item, direction, symbol, owned.positionIds, owned.planIds) {
        groups := groups + [PositionGroup(item.id, item.direction, item.price)];
      }
    }
    assert snapshot.positions[..|snapshot.positions|] == snapshot.positions;
    ghost var withPositions := groups;
    for i := 0 to |snapshot.orders|
      invariant groups == withPositions + OrderGroups(direction, symbol, snapshot.orders[..i], owned)
    {
      assert snapshot.orders[..i + 1][..i] == snapshot.orders[..i];
      var item := snapshot.orders[i];
      if Unclaimed(item, direction, symbol, owned.orderIds, owned.planIds) {
        groups := groups + [OrderGroup(item.id, item.direction, item.price)];
      }
    }
    assert snapshot.orders[..|snapshot.orders|] == snapshot.orders;
  }

  /** The identities of a live plan on the instrument are all claimed: its own broker
      items never come back as foreign exposure. */
  lemma {:induction false} LivePlanOwnsItsItems(symbol: string, tracked: seq<State>, i: nat)
    requires i < |tracked| && Counts(tracked[i], symbol)
    ensures
      var owned := TrackedOwnership(symbol, tracked);
      && tracked[i].planId in owned.planIds
      && LegPositions(tracked[i].legs) <= owned.positionIds && LegOrders(tracked[i].legs) <= owned.orderIds
  {
    if i < |tracked| - 1 {
      LivePlanOwnsItsItems(symbol, tracked[..|tracked| - 1], i);
    }
  }

  // ----- the verdict -----------------------------------------------------------------------------------

  const SCALP_LANE := "scalp"
  const STANDARD_LANE := "standard"

  function LowerCase(s: string): (t: string)
    ensures |t| == |s|
  {
    seq(|s|, i requires 0 <= i < |s| => if 'A' <= s[i] <= 'Z' then (s[i] as int + 32) as char else s[i])
  }

  /** A plan without a lane trades the standard one. */
  function LaneKey(lane: string): string {
    if IsBlank(lane) then STANDARD_LANE else LowerCase(Trim(lane))
  }

  /** The group nearest to the incoming entry, the first one on ties. */
  function Nearest(reference: real, groups: seq<Group>): (g: Group)
    requires groups != []
    ensures g in groups
    ensures forall i :: 0 <= i < |groups| ==> Abs(reference - g.price) <= Abs(reference - groups[i].price)
  {
    var n := |groups| - 1;
    if n == 0 then groups[0]
    else
      var best := Nearest(reference, groups[..n]);
      assert forall i :: 0 <= i < n ==> groups[i] == groups[..n][i];
      if Abs(reference - groups[n].price) < Abs(reference - best.price) then groups[n] else best
  }

  function RequiredSeparation(policy: Policy, scalp: bool): real
    requires policy.minimumSeparation.Some?
  {
    if scalp && policy.scalpSeparation.Some?
    then MinReal(policy.scalpSeparation.value, policy.minimumSeparation.value)
    else policy.minimumSeparation.value
  }

  function Pips(distance: real, pipSize: real): real
    requires pipSize > 0.0
  {
    distance / pipSize
  }

  function Evaluate(reference: real, groups: seq<Group>, policy: Policy, lane: string): Verdict {
    if groups == [] || reference <= 0.0 then Clear
    else if LaneKey(lane) != SCALP_LANE && LaneKey(lane) != STANDARD_LANE then Refused(LaneUnknown)
    else if policy.pipSize <= 0.0 then Misconfigured
    else if !policy.mayOppose then Refused(OppositeNotAllowed)
    else if policy.minimumSeparation.None? then Misconfigured
    else
      var distance := Abs(reference - Nearest(reference, groups).price);
      if Pips(distance, policy.pipSize) < RequiredSeparation(policy, LaneKey(lane) == SCALP_LANE)
      then Refused(TooClose) else Clear
  }

  lemma PipsMonotone(a: real, b: real, pipSize: real)
    requires a <= b && pipSize > 0.0
    ensures Pips(a, pipSize) <= Pips(b, pipSize)
  {
    DivLe(a, b, pipSize);
  }

  /** Beside opposite exposure a plan is let through exactly when its lane is known, the
      instrument lets plans oppose, and its entry keeps the required distance from every
      opposite group, the lane's own distance if it is a scalp. */
  lemma ClearMeansSeparated(reference: real, groups: seq<Group>, policy: Policy, lane: string)
    requires PolicyValid(policy)
    ensures Evaluate(reference, groups, policy, lane).Clear? <==>
      || groups == [] || reference <= 0.0
      || (&& (LaneKey(lane) == SCALP_LANE || LaneKey(lane) == STANDARD_LANE)
          && policy.mayOppose
          && forall i :: 0 <= i < |groups| ==>
               Pips(Abs(reference - groups[i].price), policy.pipSize)
                 >= (if LaneKey(lane) == SCALP_LANE then policy.scalpSeparation.value else policy.minimumSeparation.value))
    ensures !Evaluate(reference, groups, policy, lane).Misconfigured?
  {
    hide Pips, LaneKey;
    if groups != [] && policy.mayOppose {
      var nearest := Nearest(reference, groups);
      var k :| 0 <= k < |groups| && groups[k] == nearest;
      forall i | 0 <= i < |groups|
        ensures Pips(Abs(reference - nearest.price), policy.pipSize)
                <= Pips(Abs(reference - groups[i].price), policy.pipSize)
      {
        PipsMonotone(Abs(reference - nearest.price), Abs(reference - groups[i].price), policy.pipSize);
      }
    }
  }

  // ----- who counts against whom -------------------------------------------------------------------

  predicate HasBrokerFootprint(state: State) {
    state.stage != Received || state.submittedLegCount > 0 || state.totalFilled > 0
  }

  predicate ArrivedBefore(a: Plan, b: Plan) {
    if a.createdAt != b.createdAt then a.createdAt < b.createdAt else Before(a.planId, b.planId)
  }

  /** Whether a tracked plan is held against an incoming one. `otherPlan` is None when
      only its state is known. */
  predicate CountsAgainstIncoming(other: State, otherPlan: Option<Plan>, incoming: Plan) {
    && other.planId != incoming.planId
    && (HasBrokerFootprint(other) || otherPlan.None? || ArrivedBefore(otherPlan.value, incoming))
  }

  /** Of two merely received plans exactly one counts against the other, so two pending
      opposites never reject each other. */
  lemma ExactlyOneReceivedCounts(a: State, aPlan: Plan, b: State, bPlan: Plan)
    requires a.planId == aPlan.planId && b.planId == bPlan.planId && a.planId != b.planId
    requires !HasBrokerFootprint(a) && !HasBrokerFootprint(b)
    ensures CountsAgainstIncoming(a, Some(aPlan), bPlan) <==> !CountsAgainstIncoming(b, Some(bPlan), aPlan)
  {
    BeforeIsTotal(a.planId, b.planId);
  }

  predicate FirstToArrive(plan: Plan, others: set<Plan>) {
    forall q :: q in others && q.planId != plan.planId ==> ArrivedBefore(plan, q)
  }

  /** The earliest received plan is never blocked by another received one: whatever
      tracked plan stands against it has a footprint at the broker. */
  lemma EarliestIsNotBlocked(plan: Plan, other: State, otherPlan: Plan, received: set<Plan>)
    requires FirstToArrive(plan, received) && otherPlan in received && other.planId == otherPlan.planId
    requires CountsAgainstIncoming(other, Some(otherPlan), plan)
    ensures HasBrokerFootprint(other)
  {
    BeforeIsTotal(plan.planId, otherPlan.planId);
  }
}
