/** The first order of a plan nothing of which was submitted yet: a quote and a sizing with
    which every validated plan gets as far as the broker, whatever the broker answers. */
module FirstOrders {
  import opened Common
  import opened TradePlanModel
  import opened OppositeExposureFence
  import opened RuntimeModel
  import opened RuntimeWorld
  import opened RuntimeSteps
  import opened SubmissionSafety
  import opened ReusedLegIds

  predicate AtMarket(plan: Plan) { plan.entry.kind == Market || plan.entry.kind == MarketWatch }

  /** What one attempt works through when every leg gets a slice. */
  function Declares(plan: Plan): (declared: seq<Declared>)
    ensures forall single :: DeclaredLegs(plan, FullSizing(plan), UnitSymbol(), single) == Some(declared)
    ensures Validates(plan) ==> declared != []
  {
    DeclaredLegs(plan, FullSizing(plan), UnitSymbol(), false).value
  }

  /** The leg such a plan places first. */
  function FirstLeg(plan: Plan): string
    requires Validates(plan)
  {
    if AtMarket(plan) then "L1" else Declares(plan)[0].legId
  }

  /** A quote on the winning side of the stop, positive when the stop of a short is. */
  function QuoteFor(plan: Plan): real {
    if plan.direction == Buy then MaxReal(plan.stopPrice, 0.0) + 1.0
    else if plan.stopPrice > 0.0 then plan.stopPrice / 2.0 else plan.stopPrice - 1.0
  }

  /** An attempt with this answer to its first placement; nothing is stored behind it. */
  function Trying(plan: Plan, order: seq<string>, answer: Placement): SubmitInput {
    SubmitInput(Go, false, Some(Snapshot([], [])), order, QuoteFor(plan), QuoteFor(plan), UnitSymbol(),
      Some(FullSizing(plan)), [answer], [])
  }

  predicate FirstAtMarket(plan: Plan)
    requires Validates(plan)
  {
    AtMarket(plan) || UsesMarket(Declares(plan)[0], plan.direction, QuoteFor(plan), QuoteFor(plan))
  }

  /** The broker takes the first order and says so. */
  function Taken(plan: Plan): Placement
    requires Validates(plan)
  {
    if FirstAtMarket(plan) then MarketFilled(2, 1.0, 1) else LimitRested(2)
  }

  // ----- one attempt ------------------------------------------------------------------------------

  lemma GeometryHolds(plan: Plan)
    ensures StopGeometryHolds(plan.direction, plan.stopPrice, QuoteFor(plan), QuoteFor(plan))
  {}

  /** Past the guards an attempt on declared legs is its loop. */
  lemma TryingSubmits(plan: Plan, state: State, config: RuntimeConfig, order: seq<string>, answer: Placement)
    requires !AtMarket(plan)
    ensures
      var d := Declares(plan);
      var run := SubmitLegs(plan, d, Trying(plan, order, answer), state, |d|);
      SubmitEntry(plan, state, config, Trying(plan, order, answer))
      == Effect(Some(if run.goOn then Finished(run.working) else run.saved), run.ops, run.rested, {}, {}, false)
  {
    hide Declares, DeclaredLegs, SubmitLegs, UsesMarket, Finished, QuoteFor, StopGeometryHolds;
    GeometryHolds(plan);
    assert DeclaredLegs(plan, FullSizing(plan), UnitSymbol(), config.singleMarket) == Some(Declares(plan));
  }

  /** Nothing is stored behind the first leg, so the attempt ends with it. */
  lemma OnlyFirst(plan: Plan, state: State, order: seq<string>, answer: Placement)
    requires Validates(plan) && state.submittedLegCount == 0
    ensures
      var d, input := Declares(plan), Trying(plan, order, answer);
      && SubmitLegs(plan, d, input, state, |d|) == SubmitLeg(plan, d, input, 0, StartRun(state, d))
      && !SubmitLegs(plan, d, input, state, |d|).goOn
  {
    hide Validates, Declares, StartRun, SubmitLeg;
    var d, input := Declares(plan), Trying(plan, order, answer);
    StartGoesOn(state, d);
    assert SubmitLegs(plan, d, input, state, 0) == StartRun(state, d);
    StepAt(plan, d, input, state, 0);
    LegStops(plan, d, input, StartRun(state, d));
    LaterLegsUntouched(plan, d, input, state, 1, |d|);
  }

  lemma StartGoesOn(state: State, declared: seq<Declared>)
    ensures
      var start := StartRun(state, declared);
      start.goOn && start.ops == [] && start.rested == {} && start.saved == state
  {}

  lemma LegStops(plan: Plan, declared: seq<Declared>, input: SubmitInput, run: SubmitRun)
    requires declared != [] && input.stored == []
    ensures !SubmitLeg(plan, declared, input, 0, run).goOn
  {
    hide OwnedAlready, AfterAccept, AggregateState, UsesMarket, AcceptedLeg;
  }

  /** The first leg of a fresh plan is not the broker's yet. */
  lemma StartsUnowned(plan: Plan)
    requires Validates(plan)
    ensures !OwnedAlready(StartRun(FreshState(plan), Declares(plan)).working.legs, Declares(plan)[0].legId)
  {
    hide Validates, Declares, EnsurePlannedLegs, OwnedAlready;
    FreshUnowned(plan, Declares(plan)[0].legId);
    PlannedNotOwned(FreshState(plan).legs, Declares(plan), Declares(plan)[0].legId);
  }

  /** With the reply lost the broker has the order and the plan is where it was. */
  lemma LostLeavesFresh(plan: Plan, config: RuntimeConfig)
    requires Validates(plan)
    ensures
      var eff := SubmitEntry(plan, FreshState(plan), config, Trying(plan, [], ReplyLost(1)));
      && eff.next == Some(FreshState(plan)) && eff.ops == [Placed(plan.planId, FirstLeg(plan))] && !eff.acked
      && eff.rested == (if FirstAtMarket(plan) then {} else {1}) && eff.gone == {} && eff.partial == {}
  {
    hide Validates, Declares, StartRun, OwnedAlready, UsesMarket, SubmitLegs, DeclaredLegs, FreshState, QuoteFor,
      StopGeometryHolds;
    GeometryHolds(plan);
    if !AtMarket(plan) {
      TryingSubmits(plan, FreshState(plan), config, [], ReplyLost(1));
      FreshUnowned(plan, "");
      OnlyFirst(plan, FreshState(plan), [], ReplyLost(1));
      StartGoesOn(FreshState(plan), Declares(plan));
      StartsUnowned(plan);
    }
  }

  lemma TakenPlaces(plan: Plan, config: RuntimeConfig)
    requires Validates(plan)
    ensures Placed(plan.planId, FirstLeg(plan))
      in SubmitEntry(plan, FreshState(plan), config, Trying(plan, [], Taken(plan))).ops
  {
    hide Validates, Declares, StartRun, OwnedAlready, UsesMarket, SubmitLegs, DeclaredLegs, FreshState, AfterAccept,
      AggregateState, QuoteFor, StopGeometryHolds;
    GeometryHolds(plan);
    if !AtMarket(plan) {
      TryingSubmits(plan, FreshState(plan), config, [], Taken(plan));
      FreshUnowned(plan, "");
      OnlyFirst(plan, FreshState(plan), [], Taken(plan));
      StartsUnowned(plan);
    }
  }

  // ----- the plan stands -----------------------------------------------------------------------------

  lemma AcceptedStands(plan: Plan, working: State, leg: Leg, count: nat)
    requires leg.orderId.Some? || leg.positionId.Some?
    requires leg.stage == Pending || leg.stage == Filled
    ensures
      var next := AfterAccept(plan, working, leg, 0, count);
      next.stage != PlanClosed && next.submittedLegCount == 1
  {
    hide WeightedFillPrice, DeriveRuntimeStage, DeriveGroupStage;
    var legs, at := UpsertLeg(working.legs, leg), FindLeg(working.legs, leg.legId);
    assert legs[if at < 0 then |working.legs| else at] == leg;
    if DeriveRuntimeStage(legs) == PlanClosed {
      ClosedMeans(legs);
    }
  }

  lemma SkippedStands(working: State)
    requires working.stage == Submitting
    ensures AggregateState(working).stage == Submitting
  {}

  /** The broker's answer to its first order makes the plan stand, whatever its record held. */
  lemma TakenStands(plan: Plan, state: State, config: RuntimeConfig, order: seq<string>)
    requires Validates(plan) && WellFormed(state) && MarketUntouched(plan, state)
    requires IsPendingEntryStage(state) && state.submittedLegCount == 0
    ensures
      var eff := SubmitEntry(plan, state, config, Trying(plan, order, Taken(plan)));
      eff.next.Some? && eff.next.value.stage != PlanClosed && eff.next.value.submittedLegCount == 1
  {
    hide Validates, Declares, UsesMarket, SubmitLegs, DeclaredLegs, AfterAccept, AggregateState, QuoteFor,
      StopGeometryHolds, OwnedAlready, EnsurePlannedLegs, WellFormed, DeriveRuntimeStage, DeriveGroupStage;
    var d, answer := Declares(plan), Taken(plan);
    GeometryHolds(plan);
    if AtMarket(plan) {
      MarketStands(plan, state, Trying(plan, order, answer));
    } else {
      TryingSubmits(plan, state, config, order, answer);
      OnlyFirst(plan, state, order, answer);
      var start := StartRun(state, d);
      if OwnedAlready(start.working.legs, d[0].legId) {
        ReceivedUnowned(state, d);
        SkippedStands(start.working.(submittedLegCount := 1));
        AggregateMeans(start.working.(submittedLegCount := 1));
      } else {
        var leg := AcceptedLeg(d[0], UsesMarket(d[0], plan.direction, QuoteFor(plan), QuoteFor(plan)), answer);
        AcceptedStands(plan, start.working, leg.value, |d|);
      }
    }
  }

  lemma ReceivedUnowned(state: State, declared: seq<Declared>)
    requires WellFormed(state) && declared != []
    ensures state.stage == Received ==> !OwnedAlready(StartRun(state, declared).working.legs, declared[0].legId)
  {
    hide EnsurePlannedLegs;
    if state.stage == Received {
      PlannedNotOwned(state.legs, declared, declared[0].legId);
    }
  }

  lemma MarketStands(plan: Plan, state: State, input: SubmitInput)
    requires Validates(plan) && AtMarket(plan) && input.placements == [Taken(plan)]
    requires StopGeometryHolds(plan.direction, plan.stopPrice, input.bid, input.ask)
    ensures forall total ::
      var eff := SubmitMarket(plan, state, total, input);
      eff.next.Some? && eff.next.value.stage != PlanClosed && eff.next.value.submittedLegCount == 1
  {
    hide Validates, Declares, WeightedFillPrice, StopGeometryHolds;
  }
}
