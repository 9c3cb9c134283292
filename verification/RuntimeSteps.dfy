/** What every phase keeps of one plan's record: identity, well-formedness, progress, and
    that a plan never goes back to being submitted. */
module RuntimeSteps {
  import opened Common
  import opened TradePlanModel
  import opened ExecutionEngine
  import opened VolumePlanner
  import opened PositionManagement
  import opened TargetLadder
  import opened OppositeExposureFence
  import opened RuntimeModel
  import opened RuntimeWorld

  /** A stored record: fresh, mid-ladder, or with both stages derived from its legs. */
  predicate WellFormed(state: State) {
    && (state.stage == Received ==>
          state.submittedLegCount == 0 && state.groupStage == GroupReceived && state.legs == [])
    && (state.stage == Submitting ==> state.groupStage == GroupSubmitting)
    && (!IsPendingEntryStage(state) ==>
          && state.stage == DeriveRuntimeStage(state.legs)
          && (state.groupStage == DeriveGroupStage(state.legs) || state.groupStage == RecoveryRequired))
    && DistinctLegs(state.legs)
  }

  /** A record and what a later phase may leave of it. A plan that was ever submitted is
      never pending again, and a closed plan stays closed. */
  predicate Evolves(before: State, after: State) {
    && SameIdentity(before, after) && WellFormed(after)
    && (IsPendingEntryStage(after) ==> IsPendingEntryStage(before))
    && (before.stage == PlanClosed ==> after.stage == PlanClosed)
    && after.highestBooked >= before.highestBooked
    && (IsPendingEntryStage(after) ==> after.submittedLegCount >= before.submittedLegCount)
  }

  /** Outside a submission attempt no ladder is begun and no leg counts as submitted. */
  predicate SubmitsNothing(before: State, after: State) {
    && after.submittedLegCount == before.submittedLegCount
    && (after.stage == Submitting ==> before.stage == Submitting)
  }

  /** A market entry is either untouched or no longer pending. */
  predicate MarketUntouched(plan: Plan, state: State) {
    (plan.entry.kind == Market || plan.entry.kind == MarketWatch) && IsPendingEntryStage(state)
    ==> state.stage == Received
  }

  lemma DerivedRange(legs: seq<Leg>)
    ensures DeriveRuntimeStage(legs) != Received && DeriveRuntimeStage(legs) != Submitting
    ensures DeriveGroupStage(legs) != RecoveryRequired
    ensures DeriveGroupStage(legs) == GroupClosed || DeriveGroupStage(legs) == GroupCancelled
            <==> DeriveRuntimeStage(legs) == PlanClosed
  {}

  /** Re-deriving both stages gives a well-formed record. */
  lemma RederivedWellFormed(state: State, legs: seq<Leg>)
    requires DistinctLegs(legs)
    ensures WellFormed(Rederived(state, legs))
    ensures SameIdentity(state, Rederived(state, legs)) && Rederived(state, legs).legs == legs
    ensures Rederived(state, legs).stage == DeriveRuntimeStage(legs)
    ensures Rederived(state, legs).groupStage == DeriveGroupStage(legs)
    ensures Rederived(state, legs).highestBooked == state.highestBooked
    ensures Rederived(state, legs).submittedLegCount == state.submittedLegCount
  {
    hide WeightedFillPrice, DeriveRuntimeStage, DeriveGroupStage;
    DerivedRange(legs);
  }

  // ----- legs keep distinct ids ------------------------------------------------------------------

  lemma SameIdsDistinct(a: seq<Leg>, b: seq<Leg>)
    requires |a| == |b| && forall i :: 0 <= i < |a| ==> a[i].legId == b[i].legId
    requires DistinctLegs(a)
    ensures DistinctLegs(b)
  {}

  lemma {:induction false} PlannedDistinct(legs: seq<Leg>, declared: seq<Declared>)
    requires DistinctLegs(legs)
    ensures DistinctLegs(EnsurePlannedLegs(legs, declared))
  {
    if declared != [] {
      PlannedDistinct(legs, declared[..|declared| - 1]);
    }
  }

  lemma UpsertDistinct(legs: seq<Leg>, leg: Leg)
    requires DistinctLegs(legs)
    ensures DistinctLegs(UpsertLeg(legs, leg))
  {}

  // ----- submission --------------------------------------------------------------------------------

  predicate RunKeeps(state: State, run: SubmitRun) {
    && SameIdentity(state, run.working) && DistinctLegs(run.working.legs)
    && run.working.highestBooked == state.highestBooked
    && run.working.submittedLegCount >= state.submittedLegCount
    && (run.working.stage == Submitting ==> run.working.groupStage == GroupSubmitting)
    && Evolves(state, run.saved)
  }

  lemma AcceptKeeps(plan: Plan, state: State, run: SubmitRun, leg: Leg, index: nat, count: nat)
    requires IsPendingEntryStage(state) && RunKeeps(state, run) && state.submittedLegCount <= index
    ensures
      var next := AfterAccept(plan, run.working, leg, index, count);
      && Evolves(state, next) && next.submittedLegCount == index + 1
      && (next.stage == Submitting ==> next.groupStage == GroupSubmitting)
      && (next.stage == Submitting <==> index + 1 < count)
      && next.highestBooked == state.highestBooked
      && (IsPendingEntryStage(next) <==> next.stage == Submitting)
  {
    hide WeightedFillPrice, DeriveRuntimeStage, DeriveGroupStage, UpsertLeg;
    UpsertDistinct(run.working.legs, leg);
    DerivedRange(UpsertLeg(run.working.legs, leg));
  }

  lemma SkipKeeps(state: State, working: State, index: nat)
    requires IsPendingEntryStage(state) && state.submittedLegCount <= index
    requires SameIdentity(state, working) && DistinctLegs(working.legs) && working.highestBooked == state.highestBooked
    requires working.stage == Submitting ==> working.groupStage == GroupSubmitting
    ensures Evolves(state, AggregateState(working.(submittedLegCount := index + 1)))
    ensures AggregateState(working.(submittedLegCount := index + 1)).submittedLegCount == index + 1
  {
    hide WeightedFillPrice, DeriveRuntimeStage, DeriveGroupStage;
    DerivedRange(working.legs);
  }

  lemma SubmitLegKeeps(
    plan: Plan, declared: seq<Declared>, input: SubmitInput, state: State, index: nat, run: SubmitRun)
    requires index < |declared| && IsPendingEntryStage(state) && RunKeeps(state, run)
    requires state.submittedLegCount <= index
    ensures RunKeeps(state, SubmitLeg(plan, declared, input, index, run))
  {
    hide Evolves, DistinctLegs, AggregateState, AcceptedLeg, UsesMarket, OwnedAlready, AfterAccept;
    if OwnedAlready(run.working.legs, declared[index].legId) {
      SkipKeeps(state, run.working, index);
    } else {
      var market := UsesMarket(declared[index], plan.direction, input.bid, input.ask);
      var leg := AcceptedLeg(declared[index], market, PlacementFor(input, index));
      if leg.Some? {
        AcceptKeeps(plan, state, run, leg.value, index, |declared|);
        EvolvesMeans(state, AfterAccept(plan, run.working, leg.value, index, |declared|));
      }
    }
  }

  lemma EvolvesMeans(before: State, after: State)
    requires Evolves(before, after)
    ensures SameIdentity(before, after) && DistinctLegs(after.legs)
  {}

  lemma {:induction false} SubmitLegsKeeps(
    plan: Plan, declared: seq<Declared>, input: SubmitInput, state: State, upto: nat)
    requires upto <= |declared| && IsPendingEntryStage(state) && WellFormed(state)
    ensures RunKeeps(state, SubmitLegs(plan, declared, input, state, upto))
  {
    hide RunKeeps, SubmitLeg, StartRun;
    if upto <= state.submittedLegCount {
      StartKeeps(state, declared);
    } else {
      SubmitLegsKeeps(plan, declared, input, state, upto - 1);
      SubmitLegKeeps(plan, declared, input, state, upto - 1, SubmitLegs(plan, declared, input, state, upto - 1));
    }
  }

  lemma StartKeeps(state: State, declared: seq<Declared>)
    requires IsPendingEntryStage(state) && WellFormed(state)
    ensures RunKeeps(state, StartRun(state, declared))
  {
    hide EnsurePlannedLegs, DeriveRuntimeStage, DeriveGroupStage;
    PlannedDistinct(state.legs, declared);
  }

  /** Once an attempt has stopped, the remaining legs change nothing. */
  lemma {:induction false} LaterLegsUntouched(
    plan: Plan, declared: seq<Declared>, input: SubmitInput, state: State, index: nat, upto: nat)
    requires index <= upto <= |declared|
    requires !SubmitLegs(plan, declared, input, state, index).goOn
    ensures SubmitLegs(plan, declared, input, state, upto) == SubmitLegs(plan, declared, input, state, index)
  {
    hide SubmitLeg, StartRun;
    if index < upto {
      LaterLegsUntouched(plan, declared, input, state, index, upto - 1);
      if upto <= state.submittedLegCount {
        StartsEqual(plan, declared, input, state, index, upto);
      }
    }
  }

  lemma StartsEqual(plan: Plan, declared: seq<Declared>, input: SubmitInput, state: State, a: nat, b: nat)
    requires a <= state.submittedLegCount && b <= state.submittedLegCount && a <= |declared| && b <= |declared|
    ensures SubmitLegs(plan, declared, input, state, a) == SubmitLegs(plan, declared, input, state, b)
  {}

  lemma SubmitLadderEvolves(plan: Plan, state: State, declared: seq<Declared>, input: SubmitInput)
    requires IsPendingEntryStage(state) && WellFormed(state)
    ensures
      var eff := SubmitLadder(plan, state, declared, input);
      eff.next.Some? ==> Evolves(state, eff.next.value)
  {
    hide SubmitLegs, DeriveRuntimeStage, DeriveGroupStage, UsesMarket, WellFormed, AggregateState;
    SubmitLegsKeeps(plan, declared, input, state, |declared|);
    var run := SubmitLegs(plan, declared, input, state, |declared|);
    RederivedWellFormed(run.working, run.working.legs);
    assert run.working.(legs := run.working.legs) == run.working;
    assert Finished(run.working) == Rederived(run.working, run.working.legs);
  }

  lemma SubmitMarketEvolves(plan: Plan, state: State, total: int, input: SubmitInput)
    requires IsPendingEntryStage(state) && WellFormed(state)
    ensures
      var eff := SubmitMarket(plan, state, total, input);
      eff.next.Some? ==> Evolves(state, eff.next.value) && (eff.next.value == state || !IsPendingEntryStage(eff.next.value))
  {
    hide WeightedFillPrice, DeriveRuntimeStage, DeriveGroupStage;
    match AcceptedLeg(
      Declared("L1", if plan.direction == Buy then input.ask else input.bid, total, Some(MarketOrder)), true,
      PlacementFor(input, 0))
    case None =>
    case Some(leg) => DerivedRange([leg]);
  }

  lemma TrySubmitEvolves(
    plan: Plan, state: State, config: RuntimeConfig, input: SubmitInput, verdict: Option<Verdict>)
    requires WellFormed(state) && MarketUntouched(plan, state)
    ensures
      var eff := TrySubmit(plan, state, config, input, verdict);
      eff.next.Some? ==> Evolves(state, eff.next.value) && MarketUntouched(plan, eff.next.value)
  {
    hide SubmitLadder, SubmitMarket, DeclaredLegs, DeriveRuntimeStage, DeriveGroupStage;
    if IsPendingEntryStage(state) && input.sizing.Some? {
      SubmitMarketEvolves(plan, state, input.sizing.value.total, input);
      match DeclaredLegs(plan, input.sizing.value, input.symbol, config.singleMarket)
      case None =>
      case Some(declared) => SubmitLadderEvolves(plan, state, declared, input);
    }
  }

  // ----- cancel intents ---------------------------------------------------------------------------------

  /** A closed record has nothing pending and every leg terminal. */
  lemma ClosedMeans(legs: seq<Leg>)
    requires DeriveRuntimeStage(legs) == PlanClosed
    ensures legs != []
    ensures forall i :: 0 <= i < |legs| ==> IsTerminal(legs[i]) && !IsPending(legs[i]) && !IsOpen(legs[i])
  {}

  lemma ClosedHasNothingResting(state: State)
    requires WellFormed(state) && state.stage == PlanClosed
    ensures !AnyResting(state.legs) && !AnyCancellable(state.legs) && !NeedsSubmittedReconcile(state)
    ensures WithdrawnLegs(state.legs) == state.legs
  {
    hide DeriveRuntimeStage, DeriveGroupStage;
    ClosedMeans(state.legs);
  }

  lemma CancelUnfilledEvolves(state: State, answers: seq<CancelAnswer>)
    requires WellFormed(state)
    ensures Evolves(state, CancelUnfilledEntryLegs(state, answers))
    ensures SubmitsNothing(state, CancelUnfilledEntryLegs(state, answers))
  {
    hide WeightedFillPrice, DeriveRuntimeStage, DeriveGroupStage;
    var after := CancelUnfilledEntryLegs(state, answers);
    SameIdsDistinct(state.legs, LegsAfterCancels(state.legs, answers));
    DerivedRange(after.legs);
    if state.stage == PlanClosed {
      ClosedHasNothingResting(state);
    }
  }

  lemma SettleEvolves(state: State)
    requires WellFormed(state)
    ensures SettleIntent(state).Some? ==>
      && Evolves(state, SettleIntent(state).value) && !IsPendingEntryStage(SettleIntent(state).value)
      && SubmitsNothing(state, SettleIntent(state).value)
  {
    hide WeightedFillPrice, DeriveRuntimeStage, DeriveGroupStage, AggregateState;
    var legs := WithdrawnLegs(state.legs);
    SameIdsDistinct(state.legs, legs);
    RederivedWellFormed(state, legs);
    DerivedRange(legs);
    if state.stage == PlanClosed {
      ClosedHasNothingResting(state);
    }
  }

  lemma EvolvesTrans(a: State, b: State, c: State)
    requires Evolves(a, b) && Evolves(b, c)
    ensures Evolves(a, c)
    ensures SubmitsNothing(a, b) && SubmitsNothing(b, c) ==> SubmitsNothing(a, c)
  {
    hide WellFormed;
  }

  lemma SettledEvolves(state: State, settlement: Settlement)
    requires WellFormed(state)
    ensures
      var eff := Settled(state, settlement);
      && (eff.next.Some? ==> Evolves(state, eff.next.value) && SubmitsNothing(state, eff.next.value))
      && (eff.acked && eff.next.Some? ==> !IsPendingEntryStage(eff.next.value))
  {
    hide SettleIntent, WellFormed, Evolves, SubmitsNothing;
    SettleEvolves(state);
    EvolvesSelf(state);
  }

  lemma WithdrawEvolves(state: State, input: CancelInput)
    requires WellFormed(state)
    ensures
      var eff := WithdrawForIntent(state, input);
      && (eff.next.Some? ==> Evolves(state, eff.next.value) && SubmitsNothing(state, eff.next.value))
      && (eff.acked && eff.next.Some? ==> !IsPendingEntryStage(eff.next.value))
  {
    hide CancelUnfilledEntryLegs, Settled, WellFormed, AnyResting, AnyCancellable, Evolves, SubmitsNothing;
    var after := CancelUnfilledEntryLegs(state, input.withdrawal.answers);
    CancelUnfilledEvolves(state, input.withdrawal.answers);
    EvolvesSelf(state);
    EvolvesWellFormed(state, after);
    SettledEvolves(after, input.settlement);
    if Settled(after, input.settlement).next.Some? {
      EvolvesTrans(state, after, Settled(after, input.settlement).next.value);
    }
  }

  lemma EvolvesWellFormed(before: State, after: State)
    requires Evolves(before, after)
    ensures WellFormed(after)
  {}

  lemma EvolvesSelf(state: State)
    requires WellFormed(state)
    ensures Evolves(state, state) && SubmitsNothing(state, state)
  {}

  lemma CancelIntentEvolves(plan: Plan, state: State, config: RuntimeConfig, input: CancelInput)
    requires WellFormed(state)
    ensures
      var eff := ApplyCancelIntent(plan, state, config, input);
      && (eff.next.Some? ==> Evolves(state, eff.next.value) && SubmitsNothing(state, eff.next.value))
      && (eff.acked && eff.next.Some? ==> !IsPendingEntryStage(eff.next.value))
  {
    hide WithdrawForIntent, Settled, WellFormed, AnyResting, HasExpiredWithRestingEntries, Evolves, SubmitsNothing;
    WithdrawEvolves(state, input);
    SettledEvolves(state, input.settlement);
    EvolvesSelf(state);
  }

  /** A flatten is the withdrawing half of an intent. */
  lemma FlattenEvolves(state: State, input: FlattenInput)
    requires WellFormed(state)
    ensures
      var eff := FlattenPlan(state, input);
      eff.next.Some? && Evolves(state, eff.next.value) && SubmitsNothing(state, eff.next.value) && !eff.acked
  {
    hide CancelUnfilledEntryLegs, WellFormed, AnyCancellable, Evolves, SubmitsNothing, FlattenCloses;
    CancelUnfilledEvolves(state, input.withdrawal.answers);
    EvolvesSelf(state);
  }

  // ----- reconciling ----------------------------------------------------------------------------------------

  predicate ReconcileKeeps(state: State, run: ReconcileRun) {
    && SameIdentity(state, run.record) && DistinctLegs(run.record.legs) && DistinctLegs(run.legs)
    && run.record.highestBooked == state.highestBooked
    && run.record.submittedLegCount == state.submittedLegCount
  }

  lemma AdoptKeeps(plan: Plan, input: ReconcileInput, state: State, run: ReconcileRun, a: Adoption, amends: bool)
    requires ReconcileKeeps(state, run)
    ensures ReconcileKeeps(state, Adopt(plan, input, run, a, amends))
  {
    hide WeightedFillPrice, DeriveRuntimeStage, DeriveGroupStage;
  }

  lemma {:induction false} AdoptPositionsKeeps(plan: Plan, input: ReconcileInput, state: State, upto: nat)
    requires upto <= |input.adoptions| && DistinctLegs(state.legs)
    ensures ReconcileKeeps(state, AdoptPositions(plan, input, state, upto))
  {
    hide Adopt, DistinctLegs, AlreadyAdopted;
    if upto > 0 {
      AdoptPositionsKeeps(plan, input, state, upto - 1);
      AdoptKeeps(plan, input, state, AdoptPositions(plan, input, state, upto - 1), input.adoptions[upto - 1], true);
    }
  }

  lemma CheckPendingKeeps(plan: Plan, input: ReconcileInput, state: State, run: ReconcileRun, index: nat)
    requires ReconcileKeeps(state, run)
    ensures ReconcileKeeps(state, CheckPending(plan, input, run, index))
  {
    hide Adopt;
    if index < |run.legs| {
      var leg := run.legs[index];
      match VerdictFor(input, index)
      case FilledAs(a, stillOpen) => AdoptKeeps(plan, input, state, run, a.(legId := leg.legId), stillOpen);
      case _ =>
    }
  }

  lemma {:induction false} CheckPendingsKeeps(plan: Plan, input: ReconcileInput, state: State, upto: nat)
    requires DistinctLegs(state.legs)
    ensures ReconcileKeeps(state, CheckPendings(plan, input, state, upto))
  {
    hide ReconcileKeeps, CheckPending;
    if upto == 0 {
      AdoptPositionsKeeps(plan, input, state, |input.adoptions|);
    } else {
      CheckPendingsKeeps(plan, input, state, upto - 1);
      CheckPendingKeeps(plan, input, state, CheckPendings(plan, input, state, upto - 1), upto - 1);
    }
  }

  lemma ReconcileEvolves(plan: Plan, state: State, input: ReconcileInput)
    requires WellFormed(state)
    ensures
      var eff := ReconcileSubmittedLegs(plan, state, input);
      eff.next.Some? ==> Evolves(state, eff.next.value) && SubmitsNothing(state, eff.next.value)
  {
    hide CheckPendings, AdoptPositions, DeriveRuntimeStage, DeriveGroupStage, AggregateState, NeedsSubmittedReconcile;
    EvolvesSelf(state);
    if NeedsSubmittedReconcile(state) {
      if state.stage == PlanClosed {
        ClosedHasNothingResting(state);
      }
      var first := AdoptPositions(plan, input, state, |input.adoptions|);
      CheckPendingsKeeps(plan, input, state, |first.legs|);
      var run := CheckPendings(plan, input, state, |first.legs|);
      RederivedWellFormed(run.record, run.legs);
      DerivedRange(run.legs);
    }
  }

  // ----- managing -------------------------------------------------------------------------------------------

  /** Management keeps each leg's identity, order and position apart from withdrawing
      unfilled ones. */
  predicate LegsTrack(before: seq<Leg>, after: seq<Leg>, withdrawn: set<int>) {
    && |before| == |after|
    && forall i :: 0 <= i < |before| ==>
         && before[i].legId == after[i].legId && before[i].positionId == after[i].positionId
         && (before[i].orderId.Some? && before[i].stage != Cancelled && before[i].orderId.value !in withdrawn ==>
               after[i].orderId == before[i].orderId && after[i].stage != Cancelled)
  }

  /** A management step: the record stays derived, its legs are tracked. */
  predicate ManageKeeps(before: State, after: State, withdrawn: set<int>) {
    && SameIdentity(before, after) && LegsTrack(before.legs, after.legs, withdrawn)
    && after.submittedLegCount == before.submittedLegCount
    && (before.stage == DeriveRuntimeStage(before.legs) ==> after.stage == DeriveRuntimeStage(after.legs))
    && (before.groupStage == DeriveGroupStage(before.legs) || before.groupStage == RecoveryRequired ==>
          after.groupStage == DeriveGroupStage(after.legs) || after.groupStage == RecoveryRequired)
  }

  lemma ManageKeepsTrans(a: State, b: State, c: State, first: set<int>, second: set<int>)
    requires ManageKeeps(a, b, first) && ManageKeeps(b, c, second)
    ensures ManageKeeps(a, c, first + second)
  {
    hide DeriveRuntimeStage, DeriveGroupStage;
  }

  lemma WithdrawKeeps(config: Config, state: State, w: Withdrawal)
    requires state.stage != Submitting
    ensures
      var o := WithdrawUnfilled(config, state, w);
      ManageKeeps(state, o.state, o.withdrawn) && o.state.stage != Submitting
  {
    hide WeightedFillPrice, DeriveRuntimeStage, DeriveGroupStage;
    DerivedRange(state.legs);
    DerivedRange(LegsAfterCancels(state.legs, w.answers));
  }

  predicate Derived(state: State) {
    && state.stage == DeriveRuntimeStage(state.legs)
    && (state.groupStage == DeriveGroupStage(state.legs) || state.groupStage == RecoveryRequired)
  }

  /** Re-aggregating a record over legs that were tracked. */
  lemma AggregateKeepsOf(before: State, changed: State)
    requires changed.stage != Submitting && SameIdentity(before, changed)
    requires changed.submittedLegCount == before.submittedLegCount && LegsTrack(before.legs, changed.legs, {})
    ensures Derived(AggregateState(changed)) && ManageKeeps(before, AggregateState(changed), {})
  {
    hide WeightedFillPrice, DeriveRuntimeStage, DeriveGroupStage, LegsTrack;
  }

  lemma AggregateKeeps(state: State)
    requires state.stage != Submitting
    ensures Derived(AggregateState(state)) && ManageKeeps(state, AggregateState(state), {})
  {
    AggregateKeepsOf(state, state);
  }

  lemma ClassifyKeeps(state: State, tick: Tick)
    requires Derived(state)
    ensures ManageKeeps(state, ClassifyMissingLegs(state, tick).state, {})
    ensures Derived(ClassifyMissingLegs(state, tick).state)
    ensures ClassifyMissingLegs(state, tick).withdrawn == {}
  {
    hide AggregateState, DeriveRuntimeStage, DeriveGroupStage;
    DerivedRange(state.legs);
    var closed := state.(legs := LegsAfterVanish(state.legs, tick.present));
    AggregateKeepsOf(state, closed.(groupStage := RecoveryRequired));
    AggregateKeepsOf(state, closed.(groupStage := GroupPartiallyClosed));
    AggregateKeepsOf(state, closed.(groupStage := GroupClosed, stage := PlanClosed));
  }

  lemma ClosesTrack(legs: seq<Leg>, slices: seq<int>, closes: seq<CloseAnswer>)
    requires |slices| == |legs|
    ensures LegsTrack(legs, LegsAfterCloses(legs, slices, closes), {})
  {}

  lemma BookKeeps(plan: Plan, config: Config, state: State, tick: Tick, withdrawn: set<int>)
    requires Derived(state) && state.nextTarget < |plan.targets|
    ensures
      var o := BookTarget(plan, config, state, tick, withdrawn);
      ManageKeeps(state, o.state, {}) && Derived(o.state) && o.withdrawn == withdrawn
  {
    hide AggregateState, DeriveRuntimeStage, DeriveGroupStage, Allocation, TargetCloseVolume, BookedPips, RatioFrom,
      LegsTrack, AllClosesSucceeded, BookedState, LegsAfterCloses, ManageKeeps, Derived, OpenVolumes;
    NotSubmitting(state);
    TracksItself(state.legs);
    KeepsItself(state);
    var k := state.nextTarget;
    if RatioFrom(plan.targets, k) > 0.0 {
      var held := OpenVolumes(state.legs, tick.present);
      var slices := Allocation(held, TargetCloseVolume(Sum(held), plan.targets, k, config.symbol), config.symbol);
      ClosesTrack(state.legs, slices, tick.closes);
      AggregateKeepsOf(state, state.(nextTarget := k + 1));
      AggregateKeepsOf(state, state.(legs := LegsAfterCloses(state.legs, slices, tick.closes)));
      BookedStateMeans(plan, config, state, slices, tick.closes);
      AggregateKeepsOf(state, BookedState(plan, config, state, slices, tick.closes));
    }
  }

  lemma NotSubmitting(state: State)
    requires Derived(state)
    ensures state.stage != Submitting
  {
    DerivedRange(state.legs);
  }

  lemma KeepsItself(state: State)
    ensures ManageKeeps(state, state, {})
  {}

  lemma BookedStateMeans(plan: Plan, config: Config, state: State, slices: seq<int>, closes: seq<CloseAnswer>)
    requires state.nextTarget < |plan.targets| && |slices| == |state.legs|
    ensures
      var booked := BookedState(plan, config, state, slices, closes);
      && SameIdentity(state, booked) && booked.stage == state.stage
      && booked.submittedLegCount == state.submittedLegCount && booked.groupFill == state.groupFill
      && booked.legs == LegsAfterCloses(state.legs, slices, closes) && booked.groupStage != RecoveryRequired
  {}

  lemma TracksItself(legs: seq<Leg>)
    ensures LegsTrack(legs, legs, {})
  {}

  lemma TakeTargetKeeps(plan: Plan, config: Config, state: State, tick: Tick)
    requires Derived(state)
    ensures
      var o := TakeTarget(plan, config, state, tick);
      ManageKeeps(state, o.state, o.withdrawn) && Derived(o.state)
  {
    hide BookTarget, WithdrawUnfilled, WeightedFillPrice, DeriveRuntimeStage, DeriveGroupStage, HasReachedExitTarget;
    DerivedRange(state.legs);
    WithdrawKeeps(config, state, tick.beforeTp);
    var w := WithdrawUnfilled(config, state, tick.beforeTp);
    if w.goOn && w.state.nextTarget < |plan.targets| {
      BookKeeps(plan, config, w.state, tick, w.withdrawn);
      ManageKeepsTrans(state, w.state, BookTarget(plan, config, w.state, tick, w.withdrawn).state, w.withdrawn, {});
      assert w.withdrawn + {} == w.withdrawn;
    }
    WithdrawKeepsTarget(config, state, tick.beforeTp);
  }

  lemma WithdrawKeepsTarget(config: Config, state: State, w: Withdrawal)
    ensures WithdrawUnfilled(config, state, w).state.nextTarget == state.nextTarget
  {
    hide WeightedFillPrice, DeriveRuntimeStage, DeriveGroupStage;
  }

  /** A stop move changes nothing but the stop, apart from the withdrawal before it. */
  predicate StopMoved(state: State, o: Outcome, config: Config, w: Withdrawal) {
    || o == Outcome(state, true, true, {})
    || (var s := WithdrawUnfilled(config, state, w);
        && o.withdrawn == s.withdrawn
        && o.state == s.state.(currentStop := o.state.currentStop, breakEvenApplied := o.state.breakEvenApplied))
  }

  lemma StopMovedKeeps(state: State, o: Outcome, config: Config, w: Withdrawal)
    requires Derived(state) && StopMoved(state, o, config, w)
    ensures ManageKeeps(state, o.state, o.withdrawn) && Derived(o.state)
  {
    hide WithdrawUnfilled, DeriveRuntimeStage, DeriveGroupStage;
    DerivedRange(state.legs);
    WithdrawKeeps(config, state, w);
  }

  lemma MoveStopsKeeps(plan: Plan, config: Config, state: State, tick: Tick)
    requires Derived(state)
    ensures
      var o := MoveStops(plan, config, state, tick);
      ManageKeeps(state, o.state, o.withdrawn) && Derived(o.state)
  {
    hide ApplyBreakEven, ApplyManualTrail, ApplyTrail, ManageKeeps, Derived, StopMoved;
    var a := ApplyBreakEven(plan, config, state, tick);
    StopMoves(plan, config, state, tick);
    StopMovedKeeps(state, a, config, tick.beforeBe);
    StopMoves(plan, config, a.state, tick);
    var manual := ApplyManualTrail(plan, config, a.state, tick);
    StopMovedKeeps(a.state, manual, config, tick.beforeManualTrail);
    ManageKeepsTrans(state, a.state, manual.state, a.withdrawn, manual.withdrawn);
    var b := Then(a, manual);
    var trail := ApplyTrail(plan, config, b.state, tick);
    StopMoves(plan, config, b.state, tick);
    StopMovedKeeps(b.state, trail, config, tick.beforeTrail);
    ManageKeepsTrans(state, b.state, trail.state, b.withdrawn, trail.withdrawn);
  }

  lemma StopMoves(plan: Plan, config: Config, state: State, tick: Tick)
    ensures StopMoved(state, ApplyBreakEven(plan, config, state, tick), config, tick.beforeBe)
    ensures StopMoved(state, ApplyManualTrail(plan, config, state, tick), config, tick.beforeManualTrail)
    ensures StopMoved(state, ApplyTrail(plan, config, state, tick), config, tick.beforeTrail)
  {
    hide WithdrawUnfilled, CalculateManualGroupBreakEven, CalculateBreakEven, BreakEvenReference,
      PlanManualTrailStop, ResolveTrailTargetIndex, RoundTo, WeightedFillPrice;
  }

  lemma ManagePlanKeeps(plan: Plan, config: Config, state: State, tick: Tick)
    requires IsManagingStage(state)
    ensures
      var o := ManagePlan(plan, config, state, tick);
      ManageKeeps(state, o.state, o.withdrawn) && Derived(o.state)
  {
    hide TakeTarget, MoveStops, ClassifyMissingLegs, ManageKeeps, Derived, AggregateState;
    var agg := AggregateState(state);
    AggregateKeeps(state);
    var a := ClassifyMissingLegs(agg, tick);
    ClassifyKeeps(agg, tick);
    var none: set<int> := {};
    ManageKeepsTrans(state, agg, a.state, none, none);
    assert none + none == none;
    var b := TakeTarget(plan, config, a.state, tick);
    TakeTargetKeeps(plan, config, a.state, tick);
    ManageKeepsTrans(state, a.state, b.state, none, b.withdrawn);
    assert none + b.withdrawn == b.withdrawn;
    var c := MoveStops(plan, config, b.state, tick);
    MoveStopsKeeps(plan, config, b.state, tick);
    ManageKeepsTrans(state, b.state, c.state, b.withdrawn, c.withdrawn);
  }

  lemma ManageEvolves(plan: Plan, state: State, config: Config, tick: Tick)
    requires WellFormed(state)
    ensures
      var eff := RuntimeModel.ManageOpenPositions(plan, state, config, tick);
      eff.next.Some? ==> Evolves(state, eff.next.value) && SubmitsNothing(state, eff.next.value)
  {
    hide ManageRequests, DeriveRuntimeStage, DeriveGroupStage, TakeTarget, MoveStops, ClassifyMissingLegs, AggregateState;
    EvolvesSelf(state);
    var o := ManagePlan(plan, config, state, tick);
    if IsManagingStage(state) {
      ManagePlanKeeps(plan, config, state, tick);
      ManagePlanProgresses(plan, config, state, tick);
      SameIdsDistinct(state.legs, o.state.legs);
      DerivedRange(o.state.legs);
    }
  }

  // ----- any phase ------------------------------------------------------------------------------------------

  lemma OnlyIntentsAck(w: World, config: RuntimeConfig, planId: string, e: Event)
    requires Tracked(w, planId) && !e.Cancel?
    ensures !PlanEffect(w, config, planId, e).acked
  {
    hide SubmitLegs, DeclaredLegs, CheckPendings, AdoptPositions, ManagePlan, ManageRequests, AggregateState,
      CancelUnfilledEntryLegs, FlattenCloses;
  }

  lemma MarketStaysUntouched(plan: Plan, before: State, after: State)
    requires MarketUntouched(plan, before) && Evolves(before, after) && SubmitsNothing(before, after)
    ensures MarketUntouched(plan, after)
  {}

  /** Every phase, whatever broker and store answer, evolves the record of its plan. */
  lemma PlanEffectEvolves(w: World, config: RuntimeConfig, planId: string, e: Event)
    requires Tracked(w, planId) && WellFormed(w.states[planId])
    requires MarketUntouched(w.plans[planId], w.states[planId])
    ensures
      var eff := PlanEffect(w, config, planId, e);
      && (eff.next.Some? ==>
            Evolves(w.states[planId], eff.next.value) && MarketUntouched(w.plans[planId], eff.next.value))
      && (eff.next.Some? && !e.Submit? ==> SubmitsNothing(w.states[planId], eff.next.value))
      && (eff.acked && eff.next.Some? ==> !IsPendingEntryStage(eff.next.value))
      && (eff.acked ==> e.Cancel?)
  {
    hide TrySubmit, ApplyCancelIntent, FlattenPlan, ReconcileSubmittedLegs, RuntimeModel.ManageOpenPositions, Evolves, SubmitsNothing,
      CheckOppositeExposure, WellFormed;
    var plan, state := w.plans[planId], w.states[planId];
    EvolvesSelf(state);
    if !e.Cancel? {
      OnlyIntentsAck(w, config, planId, e);
    }
    match e {
      case Submit(_, input) =>
        TrySubmitEvolves(plan, state, config, input,
          CheckOppositeExposure(w.plans, w.states, config.policies, plan, input));
      case Cancel(_, input) => CancelIntentEvolves(plan, state, config, input);
      case Flatten(_, input) => FlattenEvolves(state, input);
      case Reconcile(_, input) => ReconcileEvolves(plan, state, input);
      case Manage(_, c, tick) => ManageEvolves(plan, state, c, tick);
      case _ =>
    }
    var eff := PlanEffect(w, config, planId, e);
    if eff.next.Some? && !e.Submit? {
      MarketStaysUntouched(plan, state, eff.next.value);
    }
  }

  /** One phase of one plan, seen from its record, the log and the book. */
  lemma PhaseMeans(w: World, config: RuntimeConfig, e: Event)
    requires !e.Arm? && !e.OrderGone? && Tracked(w, e.planId)
    ensures
      var eff := PlanEffect(w, config, e.planId, e);
      var after := Step(w, config, e);
      && after.log == w.log + eff.ops && after.claimed == w.claimed
      && after.resting == RestingAfter(w.resting, e.planId, eff) && after.partial == w.partial + eff.partial
      && (eff.next.Some? ==>
            Tracked(after, e.planId) && after.states == w.states[e.planId := eff.next.value] && after.plans == w.plans)
      && (!eff.acked ==> after.settled == w.settled)
      && (eff.acked ==> e.planId in after.acked)
  {
    hide PlanEffect, RestingAfter;
  }

  // ----- every reachable world -------------------------------------------------------------------------------

  predicate Sound(w: World) {
    Consistent(w) && forall p :: p in w.states ==> WellFormed(w.states[p]) && MarketUntouched(w.plans[p], w.states[p])
  }

  lemma FreshIsSound(plan: Plan)
    ensures WellFormed(FreshState(plan)) && MarketUntouched(plan, FreshState(plan))
    ensures FreshState(plan).planId == plan.planId && FreshState(plan).symbol == plan.symbol
    ensures FreshState(plan).direction == plan.direction
  {}

  lemma ArmKeepsSound(w: World, plan: Plan, sized: bool, recorded: bool)
    requires Sound(w)
    ensures Sound(ArmPlan(w, plan, sized, recorded))
  {
    hide WellFormed, MarketUntouched, Validates, HasBlockingSameDirectionLivePlan, FreshState;
    FreshIsSound(plan);
  }

  lemma ApplyKeepsSound(w: World, planId: string, eff: Effect)
    requires Sound(w) && Tracked(w, planId)
    requires eff.next.Some? ==>
      Evolves(w.states[planId], eff.next.value) && MarketUntouched(w.plans[planId], eff.next.value)
    ensures Sound(Apply(w, planId, eff))
  {
    hide RestingAfter, WellFormed, MarketUntouched;
  }

  lemma StepKeepsSound(w: World, config: RuntimeConfig, e: Event)
    requires Sound(w)
    ensures Sound(Step(w, config, e))
  {
    hide Sound, Apply, PlanEffect, ArmPlan;
    match e
    case Arm(plan, sized, recorded) => ArmKeepsSound(w, plan, sized, recorded);
    case OrderGone(orderId) => assert Sound(w.(resting := w.resting - {orderId})) by { GoneKeepsSound(w, orderId); }
    case _ =>
      if Tracked(w, e.planId) {
        SoundMeans(w, e.planId);
        PlanEffectEvolves(w, config, e.planId, e);
        ApplyKeepsSound(w, e.planId, PlanEffect(w, config, e.planId, e));
      }
  }

  lemma GoneKeepsSound(w: World, orderId: int)
    requires Sound(w)
    ensures Sound(w.(resting := w.resting - {orderId}))
  {}

  lemma SoundMeans(w: World, planId: string)
    requires Sound(w) && planId in w.states
    ensures planId in w.plans && planId in w.claimed
    ensures WellFormed(w.states[planId]) && MarketUntouched(w.plans[planId], w.states[planId])
    ensures w.plans[planId].planId == planId && w.states[planId].planId == planId
  {}

  lemma {:induction false} RunIsSound(config: RuntimeConfig, events: seq<Event>)
    ensures Sound(Run(config, events))
  {
    hide Step;
    if events != [] {
      RunIsSound(config, events[..|events| - 1]);
      StepKeepsSound(Run(config, events[..|events| - 1]), config, events[|events| - 1]);
    }
  }
}
