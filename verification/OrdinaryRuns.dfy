/** Positive prices stay positive: what the quotes and fills of a run must satisfy for the
    exposure theorem. */
module OrdinaryRuns {
  import opened Common
  import opened TradePlanModel
  import opened VolumePlanner
  import opened ExecutionEngine
  import opened PositionManagement
  import opened TargetLadder
  import opened OppositeExposureFence
  import opened RuntimeModel
  import opened RuntimeWorld
  import opened RuntimeSteps

  predicate FillsPositive(legs: seq<Leg>) {
    forall i :: 0 <= i < |legs| && legs[i].fillPrice.Some? ==> legs[i].fillPrice.value > 0.0
  }

  predicate Positive(price: Option<real>) { price.Some? && price.value > 0.0 }

  predicate Priced(state: State) {
    FillsPositive(state.legs) && (state.groupFill.Some? ==> state.groupFill.value > 0.0) && Positive(state.intendedEntry)
  }

  /** A priced record has a positive entry reference. */
  lemma PricedReference(state: State)
    requires Priced(state)
    ensures Positive(EntryReference(state))
  {}

  lemma {:induction false} FillTotalsPositive(legs: seq<Leg>)
    requires FillsPositive(legs)
    ensures FillTotals(legs).1 >= 0
    ensures FillTotals(legs).1 > 0 ==> FillTotals(legs).0 > 0.0
    ensures FillTotals(legs).1 == 0 ==> FillTotals(legs).0 == 0.0
  {
    if legs != [] {
      var n := |legs| - 1;
      FillTotalsPositive(legs[..n]);
      if legs[n].fillPrice.Some? && legs[n].filled > 0 {
        assert legs[n].fillPrice.value * legs[n].filled as real > 0.0;
      }
    }
  }

  lemma WeightedPositive(legs: seq<Leg>)
    requires FillsPositive(legs)
    ensures WeightedFillPrice(legs).Some? ==> WeightedFillPrice(legs).value > 0.0
  {
    hide FillTotals;
    FillTotalsPositive(legs);
    var (value, volume) := FillTotals(legs);
    if volume > 0 {
      PositiveQuotient(value, volume as real);
    }
  }

  lemma PositiveQuotient(x: real, d: real)
    requires x > 0.0 && d > 0.0
    ensures x / d > 0.0
  {}

  /** Every price the record refers to stays positive. */
  predicate Calm(before: State, after: State) { Priced(before) ==> Priced(after) }

  lemma AggregateCalm(state: State)
    ensures Calm(state, AggregateState(state))
  {
    hide WeightedFillPrice, DeriveRuntimeStage, DeriveGroupStage;
    DerivedRange(state.legs);
    if FillsPositive(state.legs) {
      WeightedPositive(state.legs);
    }
  }

  /** Re-deriving a record over legs whose fills are positive. */
  lemma RederivedCalm(state: State, legs: seq<Leg>)
    requires Priced(state) ==> FillsPositive(legs)
    ensures Calm(state, Rederived(state, legs))
  {
    hide AggregateState, DeriveGroupStage, DeriveRuntimeStage;
    AggregateCalm(state.(legs := legs, stage := DeriveRuntimeStage(legs), groupStage := DeriveGroupStage(legs)));
    DerivedRange(legs);
  }

  // ----- submission ---------------------------------------------------------------------------

  predicate PositiveFills(input: SubmitInput) {
    forall i :: 0 <= i < |input.placements| && input.placements[i].MarketFilled? ==> input.placements[i].price > 0.0
  }

  predicate RunCalm(state: State, run: SubmitRun) { Calm(state, run.working) && Calm(state, run.saved) }

  lemma AcceptCalm(plan: Plan, state: State, working: State, leg: Leg, index: nat, count: nat)
    requires Calm(state, working) && (leg.fillPrice.Some? ==> leg.fillPrice.value > 0.0)
    ensures Calm(state, AfterAccept(plan, working, leg, index, count))
  {
    hide AggregateState, DeriveGroupStage, DeriveRuntimeStage;
    var legs := UpsertLeg(working.legs, leg);
    DerivedRange(legs);
    var next := working.(
      legs := legs, submittedLegCount := index + 1, currentStop := plan.stopPrice,
      stage := if index + 1 < count then Submitting else DeriveRuntimeStage(legs),
      groupStage := if index + 1 < count then GroupSubmitting else DeriveGroupStage(legs));
    AggregateCalm(next);
  }

  lemma SubmitLegCalm(
    plan: Plan, declared: seq<Declared>, input: SubmitInput, state: State, index: nat, run: SubmitRun)
    requires index < |declared| && RunCalm(state, run) && PositiveFills(input)
    ensures RunCalm(state, SubmitLeg(plan, declared, input, index, run))
  {
    hide AggregateState, AfterAccept, UsesMarket, OwnedAlready;
    if OwnedAlready(run.working.legs, declared[index].legId) {
      AggregateCalm(run.working.(submittedLegCount := index + 1));
    } else {
      var market := UsesMarket(declared[index], plan.direction, input.bid, input.ask);
      var leg := AcceptedLeg(declared[index], market, PlacementFor(input, index));
      if leg.Some? {
        AcceptCalm(plan, state, run.working, leg.value, index, |declared|);
      }
    }
  }

  lemma {:induction false} PlannedPositive(legs: seq<Leg>, declared: seq<Declared>)
    requires FillsPositive(legs)
    ensures FillsPositive(EnsurePlannedLegs(legs, declared))
  {
    if declared != [] {
      PlannedPositive(legs, declared[..|declared| - 1]);
    }
  }

  lemma {:induction false} SubmitLegsCalm(
    plan: Plan, declared: seq<Declared>, input: SubmitInput, state: State, upto: nat)
    requires upto <= |declared| && PositiveFills(input)
    ensures RunCalm(state, SubmitLegs(plan, declared, input, state, upto))
  {
    hide SubmitLeg;
    if upto <= state.submittedLegCount {
      if FillsPositive(state.legs) {
        PlannedPositive(state.legs, declared);
      }
    } else {
      SubmitLegsCalm(plan, declared, input, state, upto - 1);
      SubmitLegCalm(plan, declared, input, state, upto - 1, SubmitLegs(plan, declared, input, state, upto - 1));
    }
  }

  lemma LadderCalm(plan: Plan, state: State, declared: seq<Declared>, input: SubmitInput)
    requires PositiveFills(input)
    ensures
      var eff := SubmitLadder(plan, state, declared, input);
      eff.next.Some? ==> Calm(state, eff.next.value)
  {
    hide SubmitLegs, UsesMarket, AggregateState, DeriveGroupStage, DeriveRuntimeStage, Priced;
    SubmitLegsCalm(plan, declared, input, state, |declared|);
    var run := SubmitLegs(plan, declared, input, state, |declared|);
    FinishedCalm(run.working);
  }

  lemma FinishedCalm(working: State)
    ensures Calm(working, Finished(working))
  {
    hide AggregateState, DeriveGroupStage, DeriveRuntimeStage;
    DerivedRange(working.legs);
    AggregateCalm(working.(stage := DeriveRuntimeStage(working.legs), groupStage := DeriveGroupStage(working.legs)));
  }

  lemma MarketCalm(plan: Plan, state: State, total: int, input: SubmitInput)
    requires PositiveFills(input)
    ensures
      var eff := SubmitMarket(plan, state, total, input);
      eff.next.Some? ==> Calm(state, eff.next.value)
  {
    hide AggregateState;
    match AcceptedLeg(
      Declared("L1", if plan.direction == Buy then input.ask else input.bid, total, Some(MarketOrder)), true,
      PlacementFor(input, 0))
    case None =>
    case Some(leg) =>
      AggregateCalm(state.(legs := [leg], submittedLegCount := 1, currentStop := plan.stopPrice,
        stage := FullyOpen, groupStage := GroupFullyOpen));
  }

  lemma SubmitCalm(plan: Plan, state: State, config: RuntimeConfig, input: SubmitInput, verdict: Option<Verdict>)
    requires PositiveFills(input)
    ensures
      var eff := TrySubmit(plan, state, config, input, verdict);
      eff.next.Some? ==> Calm(state, eff.next.value)
  {
    hide SubmitLadder, SubmitMarket, DeclaredLegs, Priced;
    if input.sizing.Some? {
      MarketCalm(plan, state, input.sizing.value.total, input);
      match DeclaredLegs(plan, input.sizing.value, input.symbol, config.singleMarket)
      case None =>
      case Some(declared) => LadderCalm(plan, state, declared, input);
    }
  }

  // ----- cancel intents -------------------------------------------------------------------------

  lemma CancelUnfilledCalm(state: State, answers: seq<CancelAnswer>)
    ensures Calm(state, CancelUnfilledEntryLegs(state, answers))
  {
    hide AggregateState;
    AggregateCalm(state.(legs := LegsAfterCancels(state.legs, answers)));
  }

  lemma SettleCalm(state: State)
    ensures SettleIntent(state).Some? ==> Calm(state, SettleIntent(state).value)
  {
    hide AggregateState, DeriveGroupStage, DeriveRuntimeStage;
    RederivedCalm(state, WithdrawnLegs(state.legs));
  }

  lemma SettledCalm(state: State, settlement: Settlement)
    ensures Settled(state, settlement).next.Some? ==> Calm(state, Settled(state, settlement).next.value)
  {
    hide SettleIntent, Priced;
    SettleCalm(state);
  }

  lemma IntentCalm(plan: Plan, state: State, config: RuntimeConfig, input: CancelInput)
    ensures
      var eff := ApplyCancelIntent(plan, state, config, input);
      eff.next.Some? ==> Calm(state, eff.next.value)
  {
    hide CancelUnfilledEntryLegs, Settled, AnyResting, AnyCancellable, Priced, HasExpiredWithRestingEntries;
    var after := CancelUnfilledEntryLegs(state, input.withdrawal.answers);
    CancelUnfilledCalm(state, input.withdrawal.answers);
    SettledCalm(state, input.settlement);
    SettledCalm(after, input.settlement);
  }

  lemma FlattenCalm(state: State, input: FlattenInput)
    ensures
      var eff := FlattenPlan(state, input);
      eff.next.Some? ==> Calm(state, eff.next.value)
  {
    hide CancelUnfilledEntryLegs, AnyCancellable, Priced, FlattenCloses;
    CancelUnfilledCalm(state, input.withdrawal.answers);
  }

  // ----- reconciling ------------------------------------------------------------------------------

  predicate PositiveAdoptions(input: ReconcileInput) {
    && (forall i :: 0 <= i < |input.adoptions| ==> input.adoptions[i].price > 0.0)
    && forall i :: 0 <= i < |input.vanished| && input.vanished[i].FilledAs? ==> input.vanished[i].adoption.price > 0.0
  }

  predicate ReconcileCalm(state: State, run: ReconcileRun) {
    Calm(state, run.record) && (Priced(state) ==> FillsPositive(run.legs))
  }

  lemma AdoptCalm(plan: Plan, input: ReconcileInput, state: State, run: ReconcileRun, a: Adoption, amends: bool)
    requires ReconcileCalm(state, run) && a.price > 0.0
    ensures ReconcileCalm(state, Adopt(plan, input, run, a, amends))
  {
    hide AggregateState, DeriveGroupStage, DeriveRuntimeStage;
    var i := FindLeg(run.record.legs, a.legId);
    var legs :=
      if i < 0 then run.record.legs
        + [Leg(a.legId, a.price, a.volume, None, Some(a.positionId), Some(a.price), a.volume, a.volume, Filled)]
      else run.record.legs[i := run.record.legs[i].(positionId := Some(a.positionId), fillPrice := Some(a.price),
             filled := a.volume, remaining := a.volume, stage := Filled)];
    RederivedCalm(run.record, legs);
    var adopted := AdoptFilledLeg(run.record, a);
    assert adopted == Rederived(run.record, legs);
    AggregateCalm(adopted);
    AggregateCalm(adopted.(currentStop := plan.stopPrice));
  }

  lemma {:induction false} AdoptPositionsCalm(plan: Plan, input: ReconcileInput, state: State, upto: nat)
    requires upto <= |input.adoptions| && PositiveAdoptions(input)
    ensures ReconcileCalm(state, AdoptPositions(plan, input, state, upto))
  {
    hide Adopt, AlreadyAdopted;
    if upto > 0 {
      AdoptPositionsCalm(plan, input, state, upto - 1);
      AdoptCalm(plan, input, state, AdoptPositions(plan, input, state, upto - 1), input.adoptions[upto - 1], true);
    }
  }

  lemma CheckPendingCalm(plan: Plan, input: ReconcileInput, state: State, run: ReconcileRun, index: nat)
    requires ReconcileCalm(state, run) && PositiveAdoptions(input)
    ensures ReconcileCalm(state, CheckPending(plan, input, run, index))
  {
    hide Adopt, Calm;
    if index < |run.legs| {
      match VerdictFor(input, index)
      case FilledAs(a, stillOpen) =>
        AdoptCalm(plan, input, state, run, a.(legId := run.legs[index].legId), stillOpen);
      case _ =>
    }
  }

  lemma {:induction false} CheckPendingsCalm(plan: Plan, input: ReconcileInput, state: State, upto: nat)
    requires PositiveAdoptions(input)
    ensures ReconcileCalm(state, CheckPendings(plan, input, state, upto))
  {
    hide CheckPending, ReconcileCalm;
    if upto == 0 {
      AdoptPositionsCalm(plan, input, state, |input.adoptions|);
    } else {
      CheckPendingsCalm(plan, input, state, upto - 1);
      CheckPendingCalm(plan, input, state, CheckPendings(plan, input, state, upto - 1), upto - 1);
    }
  }

  lemma ReconcileStaysCalm(plan: Plan, state: State, input: ReconcileInput)
    requires PositiveAdoptions(input)
    ensures
      var eff := ReconcileSubmittedLegs(plan, state, input);
      eff.next.Some? ==> Calm(state, eff.next.value)
  {
    hide CheckPendings, AdoptPositions, NeedsSubmittedReconcile, AggregateState, DeriveGroupStage, DeriveRuntimeStage;
    var first := AdoptPositions(plan, input, state, |input.adoptions|);
    CheckPendingsCalm(plan, input, state, |first.legs|);
    var run := CheckPendings(plan, input, state, |first.legs|);
    if Priced(state) {
      RederivedCalm(run.record, run.legs);
    }
  }

  // ----- managing -----------------------------------------------------------------------------------

  lemma WithdrawCalm(config: Config, state: State, w: Withdrawal)
    ensures Calm(state, WithdrawUnfilled(config, state, w).state)
  {
    hide CancelUnfilledEntryLegs, Priced;
    CancelUnfilledCalm(state, w.answers);
  }

  lemma ClassifyCalm(state: State, tick: Tick)
    ensures Calm(state, ClassifyMissingLegs(state, tick).state)
  {
    hide AggregateState;
    var closed := state.(legs := LegsAfterVanish(state.legs, tick.present));
    AggregateCalm(closed.(groupStage := RecoveryRequired));
    AggregateCalm(closed.(groupStage := GroupPartiallyClosed));
    AggregateCalm(closed.(groupStage := GroupClosed, stage := PlanClosed));
  }

  /** Re-aggregating a record whose fills are still positive. */
  lemma AggregateCalmOf(before: State, changed: State)
    requires changed.groupFill == before.groupFill && changed.intendedEntry == before.intendedEntry
    requires FillsPositive(before.legs) ==> FillsPositive(changed.legs)
    ensures Calm(before, AggregateState(changed))
  {
    hide AggregateState;
    AggregateCalm(changed);
  }

  lemma BookCalm(plan: Plan, config: Config, state: State, tick: Tick, withdrawn: set<int>)
    requires state.nextTarget < |plan.targets|
    ensures Calm(state, BookTarget(plan, config, state, tick, withdrawn).state)
  {
    hide AggregateState, Allocation, TargetCloseVolume, BookedPips, RatioFrom, AllClosesSucceeded, Calm, BookedState,
      LegsAfterCloses, FillsPositive, OpenVolumes, Advance;
    var k := state.nextTarget;
    CalmItself(state);
    AdvanceCalm(state);
    if RatioFrom(plan.targets, k) > 0.0 {
      var held := OpenVolumes(state.legs, tick.present);
      var slices := Allocation(held, TargetCloseVolume(Sum(held), plan.targets, k, config.symbol), config.symbol);
      ClosesStayPositive(state.legs, slices, tick.closes);
      AggregateCalmOf(state, state.(legs := LegsAfterCloses(state.legs, slices, tick.closes)));
      BookedStateMeans(plan, config, state, slices, tick.closes);
      AggregateCalmOf(state, BookedState(plan, config, state, slices, tick.closes));
    }
  }

  lemma ClosesStayPositive(legs: seq<Leg>, slices: seq<int>, closes: seq<CloseAnswer>)
    requires |slices| == |legs|
    ensures FillsPositive(legs) ==> FillsPositive(LegsAfterCloses(legs, slices, closes))
  {}

  lemma CalmItself(state: State)
    ensures Calm(state, state)
  {}

  lemma TakeTargetCalm(plan: Plan, config: Config, state: State, tick: Tick)
    ensures Calm(state, TakeTarget(plan, config, state, tick).state)
  {
    hide BookTarget, WithdrawUnfilled, AggregateState, HasReachedExitTarget, Priced;
    AdvanceCalm(state);
    WithdrawCalm(config, state, tick.beforeTp);
    var w := WithdrawUnfilled(config, state, tick.beforeTp);
    WithdrawKeepsTarget(config, state, tick.beforeTp);
    if w.state.nextTarget < |plan.targets| {
      BookCalm(plan, config, w.state, tick, w.withdrawn);
    }
  }

  lemma AdvanceCalm(state: State)
    ensures Calm(state, Advance(state))
  {
    hide AggregateState;
    AggregateCalm(state.(nextTarget := state.nextTarget + 1));
  }

  lemma StopMovedCalm(state: State, o: Outcome, config: Config, w: Withdrawal)
    requires StopMoved(state, o, config, w)
    ensures Calm(state, o.state)
  {
    hide WithdrawUnfilled;
    WithdrawCalm(config, state, w);
  }

  lemma MoveStopsCalm(plan: Plan, config: Config, state: State, tick: Tick)
    ensures Calm(state, MoveStops(plan, config, state, tick).state)
  {
    hide ApplyBreakEven, ApplyManualTrail, ApplyTrail, StopMoved, Priced;
    var a := ApplyBreakEven(plan, config, state, tick);
    StopMoves(plan, config, state, tick);
    StopMovedCalm(state, a, config, tick.beforeBe);
    StopMoves(plan, config, a.state, tick);
    var manual := ApplyManualTrail(plan, config, a.state, tick);
    StopMovedCalm(a.state, manual, config, tick.beforeManualTrail);
    var b := Then(a, manual);
    StopMoves(plan, config, b.state, tick);
    StopMovedCalm(b.state, ApplyTrail(plan, config, b.state, tick), config, tick.beforeTrail);
  }

  lemma ManageCalm(plan: Plan, state: State, config: Config, tick: Tick)
    ensures
      var eff := RuntimeModel.ManageOpenPositions(plan, state, config, tick);
      eff.next.Some? ==> Calm(state, eff.next.value)
  {
    hide ManageRequests, TakeTarget, MoveStops, ClassifyMissingLegs, AggregateState, Priced, IsManagingStage;
    var agg := AggregateState(state);
    AggregateCalm(state);
    var a := ClassifyMissingLegs(agg, tick);
    ClassifyCalm(agg, tick);
    var b := TakeTarget(plan, config, a.state, tick);
    TakeTargetCalm(plan, config, a.state, tick);
    MoveStopsCalm(plan, config, b.state, tick);
  }

  // ----- whole runs -----------------------------------------------------------------------------------

  /** Prices an account really sees. */
  predicate OrdinaryEvent(e: Event) {
    match e
    case Arm(plan, _, _) => Positive(IntendedEntryPriceFrom(plan))
    case Submit(_, input) => input.bid > 0.0 && input.ask > 0.0 && PositiveFills(input)
    case Reconcile(_, input) => PositiveAdoptions(input)
    case _ => true
  }

  /** Every record priced, every plan with a positive planned entry. */
  predicate OrdinaryWorld(w: World) {
    && (forall p :: p in w.states ==> Priced(w.states[p]))
    && forall p :: p in w.plans ==> Positive(IntendedEntryPriceFrom(w.plans[p]))
  }

  lemma EffectCalm(w: World, config: RuntimeConfig, planId: string, e: Event)
    requires Tracked(w, planId) && OrdinaryEvent(e) && !e.Arm?
    ensures
      var eff := PlanEffect(w, config, planId, e);
      eff.next.Some? ==> Calm(w.states[planId], eff.next.value)
  {
    hide TrySubmit, ApplyCancelIntent, FlattenPlan, ReconcileSubmittedLegs, RuntimeModel.ManageOpenPositions,
      CheckOppositeExposure, Priced;
    var plan, state := w.plans[planId], w.states[planId];
    match e
    case Submit(_, input) =>
      SubmitCalm(plan, state, config, input, CheckOppositeExposure(w.plans, w.states, config.policies, plan, input));
    case Cancel(_, input) => IntentCalm(plan, state, config, input);
    case Flatten(_, input) => FlattenCalm(state, input);
    case Reconcile(_, input) => ReconcileStaysCalm(plan, state, input);
    case Manage(_, c, tick) => ManageCalm(plan, state, c, tick);
    case _ =>
  }

  lemma StepStaysOrdinary(w: World, config: RuntimeConfig, e: Event)
    requires OrdinaryWorld(w) && OrdinaryEvent(e)
    ensures OrdinaryWorld(Step(w, config, e))
  {
    hide PlanEffect, Priced, Validates, HasBlockingSameDirectionLivePlan, RestingAfter, IntendedEntryPriceFrom;
    match e
    case Arm(plan, sized, recorded) => FreshIsPriced(plan);
    case OrderGone(orderId) =>
    case _ =>
      if Tracked(w, e.planId) {
        EffectCalm(w, config, e.planId, e);
      }
  }

  lemma FreshIsPriced(plan: Plan)
    ensures Positive(IntendedEntryPriceFrom(plan)) ==> Priced(FreshState(plan))
  {}
}
