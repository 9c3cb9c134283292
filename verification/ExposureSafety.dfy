/** Account-wide exposure: never two live autonomous plans in opposite directions where the
    instrument rules it out, and never two unproven plans on the same side. */
module ExposureSafety {
  import opened Common
  import opened TradePlanModel
  import opened VolumePlanner
  import opened PositionManagement
  import opened TargetLadder
  import opened OppositeExposureFence
  import opened RuntimeModel
  import opened RuntimeWorld
  import opened RuntimeSteps
  import opened OrdinaryRuns
  import SubmissionSafety

  // ----- same direction -------------------------------------------------------------------

  predicate SameSide(a: State, b: State) { a.symbol == b.symbol && a.direction == b.direction }

  /** Still open and TP2 not booked yet. */
  predicate Unproven(state: State) { state.stage != PlanClosed && state.highestBooked < 1 }

  /** At most one open, regular plan per instrument and direction has not booked TP2. */
  predicate OneUnprovenPerSide(w: World) {
    forall p, q :: p in w.states && q in w.states && p != q && p in w.plans && q in w.plans ==>
      (Regular(w.plans[p]) && Regular(w.plans[q]) && SameSide(w.states[p], w.states[q]) ==>
         !Unproven(w.states[p]) || !Unproven(w.states[q]))
  }

  lemma ArmKeepsOneUnproven(w: World, plan: Plan, sized: bool, recorded: bool)
    requires Sound(w) && OneUnprovenPerSide(w)
    ensures OneUnprovenPerSide(ArmPlan(w, plan, sized, recorded))
  {
    hide Validates, WellFormed, MarketUntouched;
    var after := ArmPlan(w, plan, sized, recorded);
    forall q | q in w.states && q != plan.planId && plan.planId in after.states && plan.planId !in w.states
      && Regular(plan) && SameSide(w.states[q], FreshState(plan))
      ensures !Unproven(w.states[q])
    {
      assert !Blocks(w.states[q], plan);
    }
  }

  lemma ApplyKeepsOneUnproven(w: World, planId: string, eff: Effect)
    requires Sound(w) && OneUnprovenPerSide(w) && Tracked(w, planId)
    requires eff.next.Some? ==> Evolves(w.states[planId], eff.next.value)
    ensures OneUnprovenPerSide(Apply(w, planId, eff))
  {
    hide WellFormed, MarketUntouched, RestingAfter;
  }

  lemma StepKeepsOneUnproven(w: World, config: RuntimeConfig, e: Event)
    requires Sound(w) && OneUnprovenPerSide(w)
    ensures OneUnprovenPerSide(Step(w, config, e))
  {
    hide Apply, PlanEffect, ArmPlan, Sound, WellFormed, MarketUntouched, Evolves;
    match e
    case Arm(plan, sized, recorded) => ArmKeepsOneUnproven(w, plan, sized, recorded);
    case OrderGone(orderId) =>
    case _ =>
      if Tracked(w, e.planId) {
        SoundMeans(w, e.planId);
        PlanEffectEvolves(w, config, e.planId, e);
        ApplyKeepsOneUnproven(w, e.planId, PlanEffect(w, config, e.planId, e));
      }
  }

  /** In every reachable world at most one non-scalp, non-manual plan per instrument and
      direction is open without having booked TP2. */
  lemma {:induction false} AtMostOneUnprovenPlan(config: RuntimeConfig, events: seq<Event>)
    ensures OneUnprovenPerSide(Run(config, events))
  {
    hide Step;
    if events != [] {
      AtMostOneUnprovenPlan(config, events[..|events| - 1]);
      RunIsSound(config, events[..|events| - 1]);
      StepKeepsOneUnproven(Run(config, events[..|events| - 1]), config, events[|events| - 1]);
    }
  }

  // ----- opposite directions ------------------------------------------------------------------

  /** The instrument never lets autonomous plans oppose: its policy says so, or it has none. */
  predicate NeverOpposes(config: RuntimeConfig, symbol: string) {
    symbol in config.policies ==> !config.policies[symbol].mayOppose
  }

  /** The broker accepted an order of the plan. */
  predicate PlacedFor(log: seq<BrokerOp>, p: string) {
    exists i :: 0 <= i < |log| && log[i].Placed? && log[i].planId == p
  }

  /** Tracked, not closed, and the broker accepted something of it, whether the record knows
      of that or not: live, in recovery, from which the next reconcile may bring it back,
      or still received when the reply was lost. */
  predicate Standing(w: World, p: string) {
    Tracked(w, p) && w.states[p].stage != PlanClosed && (w.states[p].submittedLegCount > 0 || PlacedFor(w.log, p))
  }

  /** No two standing autonomous plans on the instrument face each other. */
  predicate NoOpposites(w: World, symbol: string) {
    forall p, q :: p in w.states && q in w.states && p in w.plans && q in w.plans ==>
      (!w.plans[p].manual && !w.plans[q].manual && w.states[p].symbol == symbol == w.states[q].symbol
       && Standing(w, p) && Standing(w, q) ==>
         w.states[p].direction == w.states[q].direction)
  }

  /** An autonomous plan with orders at the broker, on the other side of the incoming one. */
  predicate StandsAgainst(w: World, p: string, incoming: Plan) {
    && Standing(w, p) && !w.plans[p].manual
    && w.states[p].symbol == incoming.symbol && w.states[p].direction != incoming.direction
  }

  /** The fence does not hold the plan's record against the incoming one: the plan is in
      recovery, or merely received as far as the record goes and not the earlier one. */
  predicate Uncounted(w: World, p: string, incoming: Plan)
    requires Tracked(w, p)
  {
    w.states[p].groupStage == RecoveryRequired || !CountsAgainstIncoming(w.states[p], Some(w.plans[p]), incoming)
  }

  /** The fence looks at every tracked plan that stands against the incoming one. */
  ghost predicate SeesStanding(w: World, plan: Plan, input: SubmitInput) {
    forall p :: StandsAgainst(w, p, plan) ==> p in input.trackedOrder
  }

  lemma OrdinaryReference(plan: Plan, input: SubmitInput)
    requires input.bid > 0.0 && input.ask > 0.0 && Positive(IntendedEntryPriceFrom(plan))
    ensures IncomingReference(plan, input.bid, input.ask) > 0.0
  {}

  // What the fence sees.

  function CountedFor(w: World, plan: Plan, input: SubmitInput): seq<State> {
    Counted(w.plans, w.states, plan, input.trackedOrder)
  }

  /** A counted live plan on the other side, at a known entry. */
  predicate FacesPlan(w: World, plan: Plan, input: SubmitInput) {
    var counted := CountedFor(w, plan, input);
    exists i :: 0 <= i < |counted| && Exposes(counted[i], plan.direction, plan.symbol)
  }

  /** A broker position or order on the other side that no counted live plan claims. */
  predicate FacesItem(w: World, plan: Plan, input: SubmitInput)
    requires input.snapshot.Some?
  {
    var owned := TrackedOwnership(plan.symbol, CountedFor(w, plan, input));
    var positions, orders := input.snapshot.value.positions, input.snapshot.value.orders;
    || (exists i :: 0 <= i < |positions|
          && Unclaimed(positions[i], plan.direction, plan.symbol, owned.positionIds, owned.planIds))
    || (exists i :: 0 <= i < |orders|
          && Unclaimed(orders[i], plan.direction, plan.symbol, owned.orderIds, owned.planIds))
  }

  lemma GroupsMeanFacing(w: World, plan: Plan, input: SubmitInput)
    requires input.snapshot.Some?
    ensures OppositeGroups(plan.direction, plan.symbol, CountedFor(w, plan, input), input.snapshot.value) == []
            <==> !FacesPlan(w, plan, input) && !FacesItem(w, plan, input)
  {
    hide TrackedOwnership, Counted;
    var counted := CountedFor(w, plan, input);
    var owned := TrackedOwnership(plan.symbol, counted);
    var plans := PlanGroups(plan.direction, plan.symbol, counted);
    var positions := PositionGroups(plan.direction, plan.symbol, input.snapshot.value.positions, owned);
    var orders := OrderGroups(plan.direction, plan.symbol, input.snapshot.value.orders, owned);
    EmptyGroups(plans, positions, orders);
    assert plans != [] ==> plans[0] in plans;
    assert positions != [] ==> positions[0] in positions;
    assert orders != [] ==> orders[0] in orders;
    PlansSeen(w, plan, input);
    ItemsSeen(w, plan, input);
  }

  lemma EmptyGroups(a: seq<Group>, b: seq<Group>, c: seq<Group>)
    ensures a + b + c == [] <==> a == [] && b == [] && c == []
  {}

  lemma PlansSeen(w: World, plan: Plan, input: SubmitInput)
    ensures FacesPlan(w, plan, input) ==> PlanGroups(plan.direction, plan.symbol, CountedFor(w, plan, input)) != []
  {
    hide Counted, Exposes;
    var counted := CountedFor(w, plan, input);
    if i :| 0 <= i < |counted| && Exposes(counted[i], plan.direction, plan.symbol) {
      ExposesPriced(counted[i], plan.direction, plan.symbol);
      assert PlanGroup(counted[i].planId, counted[i].direction, EntryReference(counted[i]).value)
          in PlanGroups(plan.direction, plan.symbol, counted);
    }
  }

  lemma ExposesPriced(state: State, direction: Direction, symbol: string)
    requires Exposes(state, direction, symbol)
    ensures EntryReference(state).Some?
  {}

  lemma ItemsSeen(w: World, plan: Plan, input: SubmitInput)
    requires input.snapshot.Some?
    ensures
      var owned := TrackedOwnership(plan.symbol, CountedFor(w, plan, input));
      FacesItem(w, plan, input) ==>
        PositionGroups(plan.direction, plan.symbol, input.snapshot.value.positions, owned) != []
        || OrderGroups(plan.direction, plan.symbol, input.snapshot.value.orders, owned) != []
  {
    hide TrackedOwnership, Counted, Unclaimed;
    var owned := TrackedOwnership(plan.symbol, CountedFor(w, plan, input));
    var positions, orders := input.snapshot.value.positions, input.snapshot.value.orders;
    if i :| 0 <= i < |positions|
            && Unclaimed(positions[i], plan.direction, plan.symbol, owned.positionIds, owned.planIds) {
      assert PositionGroup(positions[i].id, positions[i].direction, positions[i].price)
          in PositionGroups(plan.direction, plan.symbol, positions, owned);
    } else if i :| 0 <= i < |orders|
                   && Unclaimed(orders[i], plan.direction, plan.symbol, owned.orderIds, owned.planIds) {
      assert OrderGroup(orders[i].id, orders[i].direction, orders[i].price)
          in OrderGroups(plan.direction, plan.symbol, orders, owned);
    }
  }

  /** Exactly when the fence clears an autonomous plan on such an instrument: no live plan it
      counts faces the incoming one, and the broker reports nothing on the other side that
      such plans do not claim. */
  lemma ClearExactly(w: World, config: RuntimeConfig, plan: Plan, input: SubmitInput)
    requires NeverOpposes(config, plan.symbol) && !plan.manual && input.snapshot.Some?
    requires IncomingReference(plan, input.bid, input.ask) > 0.0
    ensures CheckOppositeExposure(w.plans, w.states, config.policies, plan, input) == Some(Clear)
            <==> !FacesPlan(w, plan, input) && !FacesItem(w, plan, input)
  {
    hide OppositeGroups, Counted, IncomingReference, Pips, Nearest, LaneKey, FacesPlan, FacesItem;
    GroupsMeanFacing(w, plan, input);
  }

  /** A live plan that counts, on the other side, faces the incoming one. */
  lemma LivePlanFaces(w: World, plan: Plan, input: SubmitInput, q: string)
    requires Tracked(w, q) && CountsAgainstIncoming(w.states[q], Some(w.plans[q]), plan) && q in input.trackedOrder
    requires IsLive(w.states[q])
    requires w.states[q].symbol == plan.symbol && w.states[q].direction != plan.direction
    requires Positive(EntryReference(w.states[q]))
    ensures FacesPlan(w, plan, input)
  {
    hide EntryReference, IsLive, CountsAgainstIncoming;
    var other := w.states[q];
    assert other in CountedFor(w, plan, input);
  }

  // A plan whose record is not held against the incoming one.

  /** The item is the plan's own, and no other tracked record claims its id. */
  predicate OwnItem(w: World, item: BrokerItem, p: string)
    requires p in w.states
  {
    && item.owner == Some(p) && item.volume > 0
    && item.symbol == w.states[p].symbol && item.direction == w.states[p].direction
    && forall q :: q in w.states && q != p ==>
         item.id !in LegPositions(w.states[q].legs) && item.id !in LegOrders(w.states[q].legs)
  }

  /** The snapshot reports a position or an order of the plan. */
  predicate Reported(w: World, snapshot: Snapshot, p: string)
    requires p in w.states
  {
    || (exists i :: 0 <= i < |snapshot.positions| && OwnItem(w, snapshot.positions[i], p))
    || (exists i :: 0 <= i < |snapshot.orders| && OwnItem(w, snapshot.orders[i], p))
  }

  /** Only live plans on the instrument claim anything. */
  lemma {:induction false} ClaimsAreLive(symbol: string, tracked: seq<State>, id: string, item: int)
    ensures
      var owned := TrackedOwnership(symbol, tracked);
      && (id in owned.planIds ==> exists s :: s in tracked && Counts(s, symbol) && s.planId == id)
      && (item in owned.positionIds ==> exists s :: s in tracked && Counts(s, symbol) && item in LegPositions(s.legs))
      && (item in owned.orderIds ==> exists s :: s in tracked && Counts(s, symbol) && item in LegOrders(s.legs))
  {
    hide Counts, LegPositions, LegOrders;
    if tracked != [] {
      var n := |tracked| - 1;
      ClaimsAreLive(symbol, tracked[..n], id, item);
      assert tracked[n] in tracked && forall s :: s in tracked[..n] ==> s in tracked;
    }
  }

  /** What such a plan owns is claimed by nobody. */
  lemma OwnItemUnclaimed(w: World, plan: Plan, input: SubmitInput, p: string, item: BrokerItem)
    requires Sound(w) && Tracked(w, p) && Uncounted(w, p, plan) && OwnItem(w, item, p)
    requires w.states[p].symbol == plan.symbol && w.states[p].direction != plan.direction
    ensures
      var owned := TrackedOwnership(plan.symbol, CountedFor(w, plan, input));
      && Unclaimed(item, plan.direction, plan.symbol, owned.positionIds, owned.planIds)
      && Unclaimed(item, plan.direction, plan.symbol, owned.orderIds, owned.planIds)
  {
    hide TrackedOwnership, LegPositions, LegOrders, WellFormed, MarketUntouched, CountsAgainstIncoming;
    var counted := CountedFor(w, plan, input);
    ClaimsAreLive(plan.symbol, counted, p, item.id);
    forall s | s in counted && Counts(s, plan.symbol)
      ensures s.planId != p && item.id !in LegPositions(s.legs) && item.id !in LegOrders(s.legs)
    {
      var q :| q in input.trackedOrder && q in w.states && s == w.states[q]
               && CountsAgainstIncoming(s, PlanOf(w.plans, q), plan);
      assert q != p;
    }
  }

  /** The fence and recovery. A plan in recovery does not count as live, and a received plan
      not against an earlier one; but while the broker reports a position or an order of it,
      no opposite plan is cleared. */
  lemma UncountedPlanStillBlocks(w: World, config: RuntimeConfig, plan: Plan, input: SubmitInput, p: string)
    requires Sound(w) && NeverOpposes(config, plan.symbol) && !plan.manual && input.snapshot.Some?
    requires IncomingReference(plan, input.bid, input.ask) > 0.0
    requires Tracked(w, p) && Uncounted(w, p, plan)
    requires w.states[p].symbol == plan.symbol && w.states[p].direction != plan.direction
    requires Reported(w, input.snapshot.value, p)
    ensures CheckOppositeExposure(w.plans, w.states, config.policies, plan, input) != Some(Clear)
  {
    hide OwnItem, Unclaimed, CheckOppositeExposure, IncomingReference, TrackedOwnership, Counted, Sound, Uncounted;
    ClearExactly(w, config, plan, input);
    var positions, orders := input.snapshot.value.positions, input.snapshot.value.orders;
    if i :| 0 <= i < |positions| && OwnItem(w, positions[i], p) {
      OwnItemUnclaimed(w, plan, input, p, positions[i]);
    } else {
      var i :| 0 <= i < |orders| && OwnItem(w, orders[i], p);
      OwnItemUnclaimed(w, plan, input, p, orders[i]);
    }
  }

  /** The snapshot, when it could be read, reports every plan that stands against the incoming
      one and is not held against it by its record. */
  ghost predicate ReportsUncounted(w: World, plan: Plan, input: SubmitInput) {
    input.snapshot.Some? ==>
      forall p :: StandsAgainst(w, p, plan) && Uncounted(w, p, plan) ==> Reported(w, input.snapshot.value, p)
  }

  /** The fence lets an autonomous plan through on such an instrument only when no autonomous
      plan stands against it. */
  lemma ClearMeansUnopposed(w: World, config: RuntimeConfig, plan: Plan, input: SubmitInput, q: string)
    requires Sound(w) && OrdinaryWorld(w) && SeesStanding(w, plan, input) && ReportsUncounted(w, plan, input)
    requires NeverOpposes(config, plan.symbol) && !plan.manual && IncomingReference(plan, input.bid, input.ask) > 0.0
    requires CheckOppositeExposure(w.plans, w.states, config.policies, plan, input) == Some(Clear)
    ensures !StandsAgainst(w, q, plan)
  {
    hide FacesPlan, FacesItem, Reported, CheckOppositeExposure, EntryReference, IncomingReference, WellFormed,
      MarketUntouched, Priced, IntendedEntryPriceFrom, Uncounted, CountsAgainstIncoming, PlacedFor;
    if StandsAgainst(w, q, plan) {
      SnapshotRead(w, config, plan, input);
      ClearExactly(w, config, plan, input);
      if Uncounted(w, q, plan) {
        UncountedPlanStillBlocks(w, config, plan, input, q);
      } else {
        CountedStandingFaces(w, plan, input, q);
      }
    }
  }

  /** A plan that stands against the incoming one and counts is seen by the fence. */
  lemma CountedStandingFaces(w: World, plan: Plan, input: SubmitInput, q: string)
    requires Sound(w) && OrdinaryWorld(w) && q in input.trackedOrder
    requires StandsAgainst(w, q, plan) && !Uncounted(w, q, plan)
    ensures FacesPlan(w, plan, input)
  {
    hide FacesPlan, EntryReference, WellFormed, MarketUntouched, Priced, IntendedEntryPriceFrom, CountsAgainstIncoming,
      PlacedFor;
    PricedReference(w.states[q]);
    SoundMeans(w, q);
    StandingIsLive(w.states[q]);
    LivePlanFaces(w, plan, input, q);
  }

  lemma SnapshotRead(w: World, config: RuntimeConfig, plan: Plan, input: SubmitInput)
    requires !plan.manual && CheckOppositeExposure(w.plans, w.states, config.policies, plan, input).Some?
    ensures input.snapshot.Some?
  {}

  /** Outside recovery a plan that is not closed is live. */
  lemma StandingIsLive(state: State)
    requires WellFormed(state) && state.stage != PlanClosed && state.groupStage != RecoveryRequired
    ensures IsLive(state)
  {
    hide DeriveRuntimeStage, DeriveGroupStage;
    DerivedRange(state.legs);
  }

  /** Another plan's phase does not make this one stand. */
  lemma OthersStand(w: World, planId: string, eff: Effect, q: string)
    requires Tracked(w, planId) && q != planId && SubmissionSafety.OpsOf(eff.ops, planId)
    ensures Standing(Apply(w, planId, eff), q) ==> Standing(w, q)
  {
    hide RestingAfter;
    var log := w.log + eff.ops;
    forall i | |w.log| <= i < |log| && log[i].Placed?
      ensures log[i].planId == planId
    {
      assert log[i] == eff.ops[i - |w.log|];
    }
  }

  /** This phase makes the plan stand. */
  predicate BeginsToStand(w: World, planId: string, eff: Effect)
    requires Tracked(w, planId)
  {
    Standing(Apply(w, planId, eff), planId) && !Standing(w, planId)
  }

  lemma ApplyKeepsNoOpposites(w: World, planId: string, eff: Effect, symbol: string)
    requires Sound(w) && NoOpposites(w, symbol) && Tracked(w, planId) && SubmissionSafety.OpsOf(eff.ops, planId)
    requires eff.next.Some? ==> SameIdentity(w.states[planId], eff.next.value)
    requires BeginsToStand(w, planId, eff) && !w.plans[planId].manual && w.states[planId].symbol == symbol ==>
      forall q :: q != planId ==> !StandsAgainst(w, q, w.plans[planId])
    ensures NoOpposites(Apply(w, planId, eff), symbol)
  {
    hide WellFormed, MarketUntouched, RestingAfter, PlacedFor, SubmissionSafety.OpsOf;
    var after := Apply(w, planId, eff);
    forall q | q != planId
      ensures Standing(after, q) ==> Standing(w, q)
    {
      OthersStand(w, planId, eff, q);
    }
    if Standing(after, planId) && !Standing(w, planId) {
      forall q | Tracked(w, q) && q != planId && !w.plans[planId].manual && w.states[planId].symbol == symbol
                 && !w.plans[q].manual && Standing(w, q) && w.states[q].symbol == symbol
        ensures w.states[q].direction == w.states[planId].direction
      {
        assert !StandsAgainst(w, q, w.plans[planId]);
      }
    }
  }

  /** The event asks the fence to let an autonomous plan on the instrument through. */
  predicate AsksFence(w: World, e: Event, symbol: string) {
    && e.Submit? && Tracked(w, e.planId) && !w.plans[e.planId].manual && w.plans[e.planId].symbol == symbol
    && AwaitsFence(w.states[e.planId])
  }

  /** Nothing of the plan was submitted yet. */
  predicate AwaitsFence(state: State) { IsPendingEntryStage(state) && state.submittedLegCount == 0 }

  /** What a run must look like for the theorem: quotes and fills are positive, and a first
      submission on the instrument sees the plans that stand against it and is told by the
      broker of those their record does not hold against it. */
  ghost predicate Watchful(w: World, e: Event, symbol: string) {
    && OrdinaryEvent(e)
    && (AsksFence(w, e, symbol) ==>
          SeesStanding(w, w.plans[e.planId], e.submit) && ReportsUncounted(w, w.plans[e.planId], e.submit))
  }

  lemma EffectStandsSafely(w: World, config: RuntimeConfig, e: Event, symbol: string)
    requires Sound(w) && OrdinaryWorld(w) && Watchful(w, e, symbol) && !e.Arm? && !e.OrderGone? && Tracked(w, e.planId)
    requires NeverOpposes(config, symbol)
    ensures
      var eff := PlanEffect(w, config, e.planId, e);
      && (BeginsToStand(w, e.planId, eff) && !w.plans[e.planId].manual && w.states[e.planId].symbol == symbol ==>
            forall q :: q != e.planId ==> !StandsAgainst(w, q, w.plans[e.planId]))
  {
    hide PlanEffect, WellFormed, MarketUntouched, IncomingReference, Priced, IntendedEntryPriceFrom, SeesStanding,
      ReportsUncounted, StandsAgainst, BeginsToStand;
    SoundMeans(w, e.planId);
    var plan, state := w.plans[e.planId], w.states[e.planId];
    if BeginsToStand(w, e.planId, PlanEffect(w, config, e.planId, e)) && !plan.manual && state.symbol == symbol {
      SubmittedBehindFence(w, config, e);
      OrdinaryReference(plan, e.submit);
      forall q | q != e.planId
        ensures !StandsAgainst(w, q, plan)
      {
        ClearMeansUnopposed(w, config, plan, e.submit, q);
      }
    }
  }

  /** A plan only begins to stand by a submission the fence cleared. */
  lemma SubmittedBehindFence(w: World, config: RuntimeConfig, e: Event)
    requires Sound(w) && !e.Arm? && !e.OrderGone? && Tracked(w, e.planId) && !w.plans[e.planId].manual
    requires BeginsToStand(w, e.planId, PlanEffect(w, config, e.planId, e))
    ensures e.Submit? && AwaitsFence(w.states[e.planId])
    ensures CheckOppositeExposure(w.plans, w.states, config.policies, w.plans[e.planId], e.submit) == Some(Clear)
  {
    hide PlanEffect, MarketUntouched, WellFormed, RestingAfter, PlacedFor;
    SoundMeans(w, e.planId);
    PlanEffectEvolves(w, config, e.planId, e);
    var eff := PlanEffect(w, config, e.planId, e);
    BeginsMeans(w, e.planId, eff);
    if !e.Submit? {
      SubmissionSafety.OthersPlaceNothing(w, config, e.planId, e);
    } else {
      ClearedToSubmit(w, config, e);
    }
  }

  /** Beginning to stand means placing something, or counting a first leg as submitted. */
  lemma BeginsMeans(w: World, planId: string, eff: Effect)
    requires Tracked(w, planId) && BeginsToStand(w, planId, eff)
    requires eff.next.Some? && w.states[planId].stage == PlanClosed ==> eff.next.value.stage == PlanClosed
    ensures eff.next.Some? && eff.next.value.stage != PlanClosed && w.states[planId].submittedLegCount == 0
    ensures eff.next.value.submittedLegCount > 0 || exists i :: 0 <= i < |eff.ops| && eff.ops[i].Placed?
  {
    hide RestingAfter;
    var log := w.log + eff.ops;
    if i :| 0 <= i < |log| && log[i].Placed? && log[i].planId == planId {
      if i < |w.log| {
        assert w.log[i] == log[i];
      } else {
        assert eff.ops[i - |w.log|] == log[i];
      }
    }
  }

  /** An attempt that changes anything of an autonomous plan without legs went past the fence. */
  lemma ClearedToSubmit(w: World, config: RuntimeConfig, e: Event)
    requires e.Submit? && Tracked(w, e.planId) && !w.plans[e.planId].manual && w.states[e.planId].submittedLegCount == 0
    requires
      var eff := PlanEffect(w, config, e.planId, e);
      eff.next.Some?
      && (eff.next.value.submittedLegCount > 0 || exists i :: 0 <= i < |eff.ops| && eff.ops[i].Placed?)
    ensures AwaitsFence(w.states[e.planId])
    ensures CheckOppositeExposure(w.plans, w.states, config.policies, w.plans[e.planId], e.submit) == Some(Clear)
  {
    hide SubmitEntry, CheckOppositeExposure;
  }

  lemma StepKeepsNoOpposites(w: World, config: RuntimeConfig, e: Event, symbol: string)
    requires Sound(w) && OrdinaryWorld(w) && Watchful(w, e, symbol)
    requires NeverOpposes(config, symbol) && NoOpposites(w, symbol) && LogClaimed(w)
    ensures NoOpposites(Step(w, config, e), symbol)
  {
    hide Apply, PlanEffect, Sound, OrdinaryWorld, Watchful, WellFormed, MarketUntouched, ArmPlan, NoOpposites,
      BeginsToStand, StandsAgainst, SubmissionSafety.OpsOf;
    match e
    case Arm(plan, sized, recorded) => ArmKeepsNoOpposites(w, plan, sized, recorded, symbol);
    case OrderGone(orderId) => GoneKeepsNoOpposites(w, orderId, symbol);
    case _ =>
      if Tracked(w, e.planId) {
        SoundMeans(w, e.planId);
        PlanEffectEvolves(w, config, e.planId, e);
        SubmissionSafety.EffectOpsOf(w, config, e.planId, e);
        EffectStandsSafely(w, config, e, symbol);
        ApplyKeepsNoOpposites(w, e.planId, PlanEffect(w, config, e.planId, e), symbol);
      }
  }

  lemma ArmKeepsNoOpposites(w: World, plan: Plan, sized: bool, recorded: bool, symbol: string)
    requires Sound(w) && NoOpposites(w, symbol) && LogClaimed(w)
    ensures NoOpposites(ArmPlan(w, plan, sized, recorded), symbol)
  {
    hide Validates, HasBlockingSameDirectionLivePlan, WellFormed, MarketUntouched;
    var after := ArmPlan(w, plan, sized, recorded);
    forall q | q in after.states
      ensures Standing(after, q) ==> Standing(w, q)
    {}
  }

  lemma GoneKeepsNoOpposites(w: World, orderId: int, symbol: string)
    requires NoOpposites(w, symbol)
    ensures NoOpposites(w.(resting := w.resting - {orderId}), symbol)
  {
    forall q
      ensures Standing(w.(resting := w.resting - {orderId}), q) <==> Standing(w, q)
    {}
  }

  /** Only claimed plans ever placed anything. */
  predicate LogClaimed(w: World) { forall i :: 0 <= i < |w.log| && w.log[i].Placed? ==> w.log[i].planId in w.claimed }

  lemma StepKeepsLogClaimed(w: World, config: RuntimeConfig, e: Event)
    requires Sound(w) && LogClaimed(w)
    ensures LogClaimed(Step(w, config, e))
  {
    hide PlanEffect, WellFormed, MarketUntouched, Validates, HasBlockingSameDirectionLivePlan, RestingAfter;
    if !e.Arm? && !e.OrderGone? && Tracked(w, e.planId) {
      SoundMeans(w, e.planId);
      SubmissionSafety.EffectOpsOf(w, config, e.planId, e);
      var ops := PlanEffect(w, config, e.planId, e).ops;
      forall i | |w.log| <= i < |w.log + ops| && (w.log + ops)[i].Placed?
        ensures (w.log + ops)[i].planId == e.planId
      {
        assert (w.log + ops)[i] == ops[i - |w.log|];
      }
    }
  }

  lemma {:induction false} LogIsClaimed(config: RuntimeConfig, events: seq<Event>)
    ensures LogClaimed(Run(config, events))
  {
    hide Step;
    if events != [] {
      LogIsClaimed(config, events[..|events| - 1]);
      RunIsSound(config, events[..|events| - 1]);
      StepKeepsLogClaimed(Run(config, events[..|events| - 1]), config, events[|events| - 1]);
    }
  }

  ghost predicate WatchfulRun(config: RuntimeConfig, events: seq<Event>, symbol: string) {
    events != [] ==>
      var earlier, e := events[..|events| - 1], events[|events| - 1];
      WatchfulRun(config, earlier, symbol) && Watchful(Run(config, earlier), e, symbol)
  }

  /** Any number of plans, polls in any order, recovery and lost replies included: on an
      instrument that never lets plans oppose, no two autonomous plans of which the broker
      accepted an order ever face each other, neither while live nor while in recovery. */
  lemma {:induction false} OppositesNeverMeet(config: RuntimeConfig, events: seq<Event>, symbol: string)
    requires NeverOpposes(config, symbol) && WatchfulRun(config, events, symbol)
    ensures NoOpposites(Run(config, events), symbol)
    ensures OrdinaryWorld(Run(config, events))
  {
    hide Step, OrdinaryEvent, SeesStanding, ReportsUncounted, AsksFence, Priced, IntendedEntryPriceFrom, Standing,
      LogClaimed;
    if events != [] {
      var earlier, e := events[..|events| - 1], events[|events| - 1];
      OppositesNeverMeet(config, earlier, symbol);
      RunIsSound(config, earlier);
      LogIsClaimed(config, earlier);
      StepKeepsNoOpposites(Run(config, earlier), config, e, symbol);
      StepStaysOrdinary(Run(config, earlier), config, e);
    }
  }
}
