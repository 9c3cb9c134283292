/** When a cancel intent is acknowledged: no order of the plan rests unattended at the
    broker, nothing was closed on the way, and nothing is ever placed for it again. */
module CancelSafety {
  import opened Common
  import opened TradePlanModel
  import opened VolumePlanner
  import opened PositionManagement
  import opened TargetLadder
  import opened OppositeExposureFence
  import opened RuntimeModel
  import opened RuntimeWorld
  import opened RuntimeSteps
  import SubmissionSafety

  /** The leg still stands for this order at the broker. Once the leg holds a position the
      order can only be resting as the unfilled rest of a partial fill. */
  predicate Holds(leg: Leg, order: int, partial: set<int>) {
    && leg.orderId == Some(order) && leg.stage != Cancelled
    && (leg.positionId.Some? ==> order in partial)
  }

  predicate Recorded(legs: seq<Leg>, order: int, partial: set<int>) {
    exists i :: 0 <= i < |legs| && Holds(legs[i], order, partial)
  }

  /** A phase keeps every order it did not see leave the broker on record, and leaves
      nothing but partial fills behind an acknowledgement. */
  predicate KeepsOrder(state: State, eff: Effect, order: int, partial: set<int>) {
    Recorded(state.legs, order, partial) && order !in eff.gone ==>
      && (eff.next.Some? ==> Recorded(eff.next.value.legs, order, partial + eff.partial))
      && (eff.acked ==> order in partial + eff.partial)
  }

  predicate RecordsRested(eff: Effect, partial: set<int>) {
    forall o :: o in eff.rested ==> eff.next.Some? && Recorded(eff.next.value.legs, o, partial + eff.partial)
  }

  lemma MorePartial(legs: seq<Leg>, order: int, partial: set<int>, more: set<int>)
    requires Recorded(legs, order, partial)
    ensures Recorded(legs, order, partial + more)
  {
    var i :| 0 <= i < |legs| && Holds(legs[i], order, partial);
    assert Holds(legs[i], order, partial + more);
  }

  // ----- submission -------------------------------------------------------------------------

  lemma {:induction false} PlannedKeepsRecorded(legs: seq<Leg>, declared: seq<Declared>, order: int, partial: set<int>)
    requires Recorded(legs, order, partial)
    ensures Recorded(EnsurePlannedLegs(legs, declared), order, partial)
  {
    if declared != [] {
      var n := |declared| - 1;
      PlannedKeepsRecorded(legs, declared[..n], order, partial);
      SnocKeepsRecorded(EnsurePlannedLegs(legs, declared[..n]), PlannedLeg(declared[n]), order, partial);
    }
  }

  lemma SnocKeepsRecorded(legs: seq<Leg>, leg: Leg, order: int, partial: set<int>)
    requires Recorded(legs, order, partial)
    ensures Recorded(legs + [leg], order, partial)
  {
    var i :| 0 <= i < |legs| && Holds(legs[i], order, partial);
    assert (legs + [leg])[i] == legs[i];
  }

  lemma UpsertKeepsRecorded(legs: seq<Leg>, leg: Leg, order: int, partial: set<int>)
    requires !OwnedAlready(legs, leg.legId)
    ensures Recorded(legs, order, partial) ==> Recorded(UpsertLeg(legs, leg), order, partial)
    ensures Holds(leg, order, partial) ==> Recorded(UpsertLeg(legs, leg), order, partial)
  {
    hide Holds;
    var after := UpsertLeg(legs, leg);
    var at := FindLeg(legs, leg.legId);
    assert after[if at < 0 then |legs| else at] == leg;
    if i :| 0 <= i < |legs| && Holds(legs[i], order, partial) {
      assert i != at by { HeldIsOwned(legs[i], order, partial); }
      assert after[i] == legs[i];
    }
  }

  lemma HeldIsOwned(leg: Leg, order: int, partial: set<int>)
    requires Holds(leg, order, partial)
    ensures AlreadyOwned(leg)
  {}

  ghost predicate RunRecords(state: State, run: SubmitRun, partial: set<int>) {
    && (forall o :: Recorded(state.legs, o, partial) ==>
          Recorded(run.working.legs, o, partial) && Recorded(run.saved.legs, o, partial))
    && (forall o :: o in run.rested ==>
          Recorded(run.working.legs, o, partial) && Recorded(run.saved.legs, o, partial))
  }

  lemma AcceptRecords(
    plan: Plan, state: State, run: SubmitRun, declared: Declared, leg: Leg, index: nat, count: nat, partial: set<int>)
    requires RunRecords(state, run, partial) && !OwnedAlready(run.working.legs, leg.legId)
    requires leg.stage != Cancelled && (leg.orderId.Some? ==> leg.positionId.None?)
    ensures
      var next := AfterAccept(plan, run.working, leg, index, count);
      && (forall o :: Recorded(state.legs, o, partial) ==> Recorded(next.legs, o, partial))
      && (forall o :: o in run.rested ==> Recorded(next.legs, o, partial))
      && (leg.orderId.Some? ==> Recorded(next.legs, leg.orderId.value, partial))
  {
    hide Recorded, UpsertLeg, DeriveRuntimeStage, DeriveGroupStage, WeightedFillPrice, OwnedAlready;
    var after := UpsertLeg(run.working.legs, leg);
    assert AfterAccept(plan, run.working, leg, index, count).legs == after;
    forall o
      ensures Recorded(run.working.legs, o, partial) ==> Recorded(after, o, partial)
      ensures Holds(leg, o, partial) ==> Recorded(after, o, partial)
    {
      UpsertKeepsRecorded(run.working.legs, leg, o, partial);
    }
  }

  lemma SubmitLegRecords(
    plan: Plan, declared: seq<Declared>, input: SubmitInput, state: State, index: nat, run: SubmitRun,
    partial: set<int>)
    requires index < |declared| && RunRecords(state, run, partial) && SubmissionSafety.RepliesKept(input)
    ensures RunRecords(state, SubmitLeg(plan, declared, input, index, run), partial)
  {
    hide Recorded, AfterAccept, UsesMarket, OwnedAlready, WeightedFillPrice, DeriveRuntimeStage, DeriveGroupStage,
      LostOrder, SubmissionSafety.RepliesKept;
    if !OwnedAlready(run.working.legs, declared[index].legId) {
      var market := UsesMarket(declared[index], plan.direction, input.bid, input.ask);
      var leg := AcceptedLeg(declared[index], market, PlacementFor(input, index));
      if leg.Some? {
        AcceptRecords(plan, state, run, declared[index], leg.value, index, |declared|, partial);
      } else {
        SubmissionSafety.NothingLost(plan.planId, declared[index].legId, market, input, index);
        assert run.rested + {} == run.rested;
      }
    }
  }

  lemma {:induction false} SubmitLegsRecord(
    plan: Plan, declared: seq<Declared>, input: SubmitInput, state: State, upto: nat, partial: set<int>)
    requires upto <= |declared| && SubmissionSafety.RepliesKept(input)
    ensures RunRecords(state, SubmitLegs(plan, declared, input, state, upto), partial)
  {
    hide Recorded, SubmitLeg, SubmissionSafety.RepliesKept;
    if upto <= state.submittedLegCount {
      forall o | Recorded(state.legs, o, partial)
        ensures Recorded(EnsurePlannedLegs(state.legs, declared), o, partial)
      {
        PlannedKeepsRecorded(state.legs, declared, o, partial);
      }
    } else {
      SubmitLegsRecord(plan, declared, input, state, upto - 1, partial);
      var run := SubmitLegs(plan, declared, input, state, upto - 1);
      if run.goOn {
        SubmitLegRecords(plan, declared, input, state, upto - 1, run, partial);
      }
    }
  }

  lemma NoneMore(partial: set<int>)
    ensures partial + {} == partial
  {}

  lemma LadderRecords(plan: Plan, state: State, declared: seq<Declared>, input: SubmitInput, order: int, partial: set<int>)
    requires SubmissionSafety.RepliesKept(input)
    ensures KeepsOrder(state, SubmitLadder(plan, state, declared, input), order, partial)
    ensures RecordsRested(SubmitLadder(plan, state, declared, input), partial)
  {
    hide Recorded, SubmitLegs, UsesMarket, WeightedFillPrice, DeriveRuntimeStage, DeriveGroupStage,
      SubmissionSafety.RepliesKept;
    SubmitLegsRecord(plan, declared, input, state, |declared|, partial);
    NoneMore(partial);
  }

  lemma SubmitRecords(
    plan: Plan, state: State, config: RuntimeConfig, input: SubmitInput, verdict: Option<Verdict>,
    order: int, partial: set<int>)
    requires WellFormed(state) && MarketUntouched(plan, state) && SubmissionSafety.RepliesKept(input)
    ensures KeepsOrder(state, TrySubmit(plan, state, config, input, verdict), order, partial)
    ensures RecordsRested(TrySubmit(plan, state, config, input, verdict), partial)
  {
    hide SubmitLadder, DeclaredLegs, DeriveRuntimeStage, DeriveGroupStage, AggregateState, SubmissionSafety.RepliesKept;
    NoneMore(partial);
    if IsPendingEntryStage(state) && input.sizing.Some? {
      match DeclaredLegs(plan, input.sizing.value, input.symbol, config.singleMarket)
      case None =>
      case Some(declared) => LadderRecords(plan, state, declared, input, order, partial);
    }
  }

  // ----- cancel intents -------------------------------------------------------------------------

  lemma CancelKeepsRecorded(state: State, answers: seq<CancelAnswer>, order: int, partial: set<int>)
    requires Recorded(state.legs, order, partial) && order !in WithdrawnOrders(state.legs, answers)
    ensures Recorded(CancelUnfilledEntryLegs(state, answers).legs, order, partial)
  {
    hide WeightedFillPrice, DeriveRuntimeStage, DeriveGroupStage;
    var i :| 0 <= i < |state.legs| && Holds(state.legs[i], order, partial);
    assert Holds(CancelUnfilledEntryLegs(state, answers).legs[i], order, partial);
  }

  lemma SettleKeepsRecorded(state: State, order: int, partial: set<int>)
    requires Recorded(state.legs, order, partial) && order in partial
    ensures SettleIntent(state).Some? && !AnyResting(state.legs) ==>
      Recorded(SettleIntent(state).value.legs, order, partial)
  {
    hide WeightedFillPrice, DeriveRuntimeStage, DeriveGroupStage;
    var i :| 0 <= i < |state.legs| && Holds(state.legs[i], order, partial);
    if !AnyResting(state.legs) {
      assert !StillResting(state.legs[i]);
      assert Holds(WithdrawnLegs(state.legs)[i], order, partial);
    }
  }

  /** With nothing resting, an order still on record is the rest of a partial fill. */
  lemma NothingRestingMeansPartial(legs: seq<Leg>, order: int, partial: set<int>)
    requires Recorded(legs, order, partial) && !AnyResting(legs)
    ensures order in partial
  {
    var i :| 0 <= i < |legs| && Holds(legs[i], order, partial);
    assert !StillResting(legs[i]);
  }

  /** Settling keeps what is on record; what is left behind an acknowledgement is partial. */
  lemma SettledRecords(state: State, settlement: Settlement, order: int, partial: set<int>)
    requires Recorded(state.legs, order, partial) && !AnyResting(state.legs)
    ensures
      var eff := Settled(state, settlement);
      && (eff.next.Some? ==> Recorded(eff.next.value.legs, order, partial))
      && order in partial
  {
    hide Recorded, SettleIntent, AnyResting;
    NothingRestingMeansPartial(state.legs, order, partial);
    SettleKeepsRecorded(state, order, partial);
  }

  lemma IntentRecords(
    plan: Plan, state: State, config: RuntimeConfig, input: CancelInput, order: int, partial: set<int>)
    requires !config.dryRun
    ensures KeepsOrder(state, ApplyCancelIntent(plan, state, config, input), order, partial)
  {
    hide Recorded, CancelUnfilledEntryLegs, SettleIntent, AnyResting, AnyCancellable, WithdrawnOrders, CancelRequests,
      HasExpiredWithRestingEntries;
    NoneMore(partial);
    var eff := ApplyCancelIntent(plan, state, config, input);
    if Recorded(state.legs, order, partial) && order !in eff.gone {
      if !AnyResting(state.legs) {
        SettledRecords(state, input.settlement, order, partial);
      } else if eff.gone == WithdrawnOrders(state.legs, input.withdrawal.answers) {
        CancelKeepsRecorded(state, input.withdrawal.answers, order, partial);
        var after := CancelUnfilledEntryLegs(state, input.withdrawal.answers);
        if !AnyResting(after.legs) {
          SettledRecords(after, input.settlement, order, partial);
        }
      }
    }
  }

  /** A flatten keeps on record whatever it did not see withdrawn. */
  lemma FlattenKeepsOrder(state: State, input: FlattenInput, order: int, partial: set<int>)
    ensures KeepsOrder(state, FlattenPlan(state, input), order, partial)
  {
    hide Recorded, CancelUnfilledEntryLegs, AnyCancellable, WithdrawnOrders, CancelRequests, FlattenCloses, Walked;
    NoneMore(partial);
    var eff := FlattenPlan(state, input);
    if Recorded(state.legs, order, partial) && order !in eff.gone && eff.gone != {} {
      CancelKeepsRecorded(state, input.withdrawal.answers, order, partial);
    } else if eff.next != Some(state) && Recorded(state.legs, order, partial) && order !in eff.gone {
      CancelKeepsRecorded(state, input.withdrawal.answers, order, partial);
    }
  }

  // ----- reconciling --------------------------------------------------------------------------------

  predicate ReconcileRecords(run: ReconcileRun, order: int, partial: set<int>) {
    Recorded(run.record.legs, order, partial + run.partial) && Recorded(run.legs, order, partial + run.partial)
  }

  lemma AdoptRecords(
    plan: Plan, input: ReconcileInput, run: ReconcileRun, a: Adoption, amends: bool, order: int, partial: set<int>)
    requires ReconcileRecords(run, order, partial) && order in input.pending
    ensures ReconcileRecords(Adopt(plan, input, run, a, amends), order, partial)
  {
    hide WeightedFillPrice, DeriveRuntimeStage, DeriveGroupStage;
    var known := partial + run.partial;
    var all := partial + (run.partial + PartialOrder(run.record.legs, a.legId, input.pending));
    var i :| 0 <= i < |run.record.legs| && Holds(run.record.legs[i], order, known);
    assert Holds(AdoptFilledLeg(run.record, a).legs[i], order, all);
    assert Recorded(AdoptFilledLeg(run.record, a).legs, order, all);
    assert Recorded(run.legs, order, all) by {
      MorePartial(run.legs, order, known, PartialOrder(run.record.legs, a.legId, input.pending));
      assert known + PartialOrder(run.record.legs, a.legId, input.pending) == all;
    }
    assert Recorded(run.record.legs, order, all) by {
      MorePartial(run.record.legs, order, known, PartialOrder(run.record.legs, a.legId, input.pending));
      assert known + PartialOrder(run.record.legs, a.legId, input.pending) == all;
    }
  }

  lemma {:induction false} AdoptPositionsRecord(
    plan: Plan, input: ReconcileInput, state: State, upto: nat, order: int, partial: set<int>)
    requires upto <= |input.adoptions| && Recorded(state.legs, order, partial) && order in input.pending
    ensures ReconcileRecords(AdoptPositions(plan, input, state, upto), order, partial)
  {
    hide Adopt, AlreadyAdopted, Recorded;
    if upto == 0 {
      NoneMore(partial);
    } else {
      AdoptPositionsRecord(plan, input, state, upto - 1, order, partial);
      AdoptRecords(plan, input, AdoptPositions(plan, input, state, upto - 1), input.adoptions[upto - 1], true,
        order, partial);
    }
  }

  lemma CheckPendingRecords(
    plan: Plan, input: ReconcileInput, run: ReconcileRun, index: nat, order: int, partial: set<int>)
    requires ReconcileRecords(run, order, partial) && order in input.pending
    ensures ReconcileRecords(CheckPending(plan, input, run, index), order, partial)
  {
    hide Adopt;
    if index < |run.legs| {
      var leg := run.legs[index];
      var i :| 0 <= i < |run.legs| && Holds(run.legs[i], order, partial + run.partial);
      var after := CheckPending(plan, input, run, index);
      match VerdictFor(input, index)
      case FilledAs(a, stillOpen) =>
        AdoptRecords(plan, input, run, a.(legId := leg.legId), stillOpen, order, partial);
        if after.partial == run.partial && |after.legs| == |run.legs| && i != index {
          assert after.legs[i] == run.legs[i] || after == Adopt(plan, input, run, a.(legId := leg.legId), stillOpen);
        }
      case _ => assert after.legs[i] == run.legs[i];
    }
  }

  lemma {:induction false} CheckPendingsRecord(
    plan: Plan, input: ReconcileInput, state: State, upto: nat, order: int, partial: set<int>)
    requires Recorded(state.legs, order, partial) && order in input.pending
    ensures ReconcileRecords(CheckPendings(plan, input, state, upto), order, partial)
  {
    hide CheckPending, ReconcileRecords, Recorded;
    if upto == 0 {
      AdoptPositionsRecord(plan, input, state, |input.adoptions|, order, partial);
    } else {
      CheckPendingsRecord(plan, input, state, upto - 1, order, partial);
      CheckPendingRecords(plan, input, CheckPendings(plan, input, state, upto - 1), upto - 1, order, partial);
    }
  }

  lemma ReconcileKeepsOrder(plan: Plan, state: State, input: ReconcileInput, order: int, partial: set<int>)
    ensures KeepsOrder(state, ReconcileSubmittedLegs(plan, state, input), order, partial)
  {
    hide CheckPendings, AdoptPositions, Recorded, NeedsSubmittedReconcile, DeriveRuntimeStage, DeriveGroupStage,
      WeightedFillPrice;
    NoneMore(partial);
    if Recorded(state.legs, order, partial) {
      RecordedIsLegOrder(state.legs, order, partial);
      var first := AdoptPositions(plan, input, state, |input.adoptions|);
      var run := CheckPendings(plan, input, state, |first.legs|);
      MorePartial(state.legs, order, partial, run.partial);
      if order in input.pending {
        CheckPendingsRecord(plan, input, state, |first.legs|, order, partial);
      }
    }
  }

  lemma RecordedIsLegOrder(legs: seq<Leg>, order: int, partial: set<int>)
    requires Recorded(legs, order, partial)
    ensures order in LegOrders(legs)
  {}

  // ----- managing ----------------------------------------------------------------------------------------

  lemma ManageKeepsOrder(plan: Plan, state: State, config: Config, tick: Tick, order: int, partial: set<int>)
    ensures KeepsOrder(state, RuntimeModel.ManageOpenPositions(plan, state, config, tick), order, partial)
  {
    hide ManagePlan, ManageRequests;
    NoneMore(partial);
    var o := ManagePlan(plan, config, state, tick);
    if IsManagingStage(state) {
      ManagePlanKeeps(plan, config, state, tick);
      if Recorded(state.legs, order, partial) && order !in o.withdrawn {
        var i :| 0 <= i < |state.legs| && Holds(state.legs[i], order, partial);
        assert Holds(o.state.legs[i], order, partial);
      }
    } else {
      UnmanagedUntouched(plan, config, state, tick);
    }
  }

  lemma UnmanagedUntouched(plan: Plan, config: Config, state: State, tick: Tick)
    requires !IsManagingStage(state)
    ensures ManagePlan(plan, config, state, tick) == Outcome(state, true, true, {})
  {}

  // ----- the whole world ------------------------------------------------------------------------------------

  lemma EffectKeepsOrder(w: World, config: RuntimeConfig, planId: string, e: Event, order: int)
    requires Sound(w) && Tracked(w, planId) && !config.dryRun && (e.Submit? ==> SubmissionSafety.RepliesKept(e.submit))
    ensures KeepsOrder(w.states[planId], PlanEffect(w, config, planId, e), order, w.partial)
    ensures RecordsRested(PlanEffect(w, config, planId, e), w.partial)
  {
    hide TrySubmit, ApplyCancelIntent, ReconcileSubmittedLegs, RuntimeModel.ManageOpenPositions, FlattenPlan,
      CheckOppositeExposure, WellFormed, MarketUntouched, Sound, Recorded, SubmissionSafety.RepliesKept;
    SoundMeans(w, planId);
    var plan, state := w.plans[planId], w.states[planId];
    NoneMore(w.partial);
    if !e.Submit? {
      NothingRested(w, config, planId, e);
    }
    match e
    case Submit(_, input) =>
      SubmitRecords(plan, state, config, input,
        CheckOppositeExposure(w.plans, w.states, config.policies, plan, input), order, w.partial);
    case Cancel(_, input) => IntentRecords(plan, state, config, input, order, w.partial);
    case Flatten(_, input) => FlattenKeepsOrder(state, input, order, w.partial);
    case Reconcile(_, input) => ReconcileKeepsOrder(plan, state, input, order, w.partial);
    case Manage(_, c, tick) => ManageKeepsOrder(plan, state, c, tick, order, w.partial);
    case _ =>
  }

  lemma NothingRested(w: World, config: RuntimeConfig, planId: string, e: Event)
    requires Tracked(w, planId) && !e.Submit?
    ensures PlanEffect(w, config, planId, e).rested == {}
  {
    SubmissionSafety.OthersPlaceNothing(w, config, planId, e);
  }

  predicate RestsFor(w: World, p: string, order: int) { order in w.resting && w.resting[order] == p }

  /** While p is tracked every order it has at the broker is on its record. */
  ghost predicate BookRecorded(w: World, p: string) {
    Tracked(w, p) ==> forall o :: RestsFor(w, p, o) ==> Recorded(w.states[p].legs, o, w.partial)
  }

  ghost predicate OwnersClaimed(w: World) {
    forall o :: o in w.resting ==> w.resting[o] in w.claimed
  }

  /** Since the acknowledgement of p's intent nothing of p was placed, and p can never be
      submitted again. */
  predicate Silent(w: World, p: string) {
    p in w.acked ==>
      && w.acked[p] <= |w.log| && p in w.claimed && (Tracked(w, p) ==> !IsPendingEntryStage(w.states[p]))
      && forall i :: w.acked[p] <= i < |w.log| && w.log[i].Placed? ==> w.log[i].planId != p
  }

  /** What an acknowledgement leaves at the broker had filled in part. */
  ghost predicate LeavesPartial(w: World, p: string) {
    p in w.acked ==> forall o :: RestsFor(w, p, o) ==> o in w.partial
  }

  ghost predicate CancelsSafe(w: World, p: string) {
    BookRecorded(w, p) && OwnersClaimed(w) && Silent(w, p) && LeavesPartial(w, p)
  }

  predicate PlacesNothing(eff: Effect) {
    eff.rested == {} && forall i :: 0 <= i < |eff.ops| ==> !eff.ops[i].Placed?
  }

  /** Only a pending plan places orders, and only its own. */
  predicate PlacesOwn(planId: string, state: State, eff: Effect) {
    SubmissionSafety.OpsOf(eff.ops, planId) && (!IsPendingEntryStage(state) ==> PlacesNothing(eff))
  }

  lemma EffectPlacesOwn(w: World, config: RuntimeConfig, planId: string, e: Event)
    requires Sound(w) && Tracked(w, planId)
    ensures PlacesOwn(planId, w.states[planId], PlanEffect(w, config, planId, e))
  {
    hide CheckOppositeExposure, SubmitEntry;
    SubmissionSafety.EffectOpsOf(w, config, planId, e);
    if !e.Submit? {
      SubmissionSafety.OthersPlaceNothing(w, config, planId, e);
    }
  }

  /** An effect that never reopens the submission, and acknowledges only behind it. */
  predicate QuietEffect(planId: string, state: State, eff: Effect) {
    && PlacesOwn(planId, state, eff)
    && (eff.next.Some? && IsPendingEntryStage(eff.next.value) ==> IsPendingEntryStage(state))
    && (eff.acked ==> eff.rested == {})
    && (eff.acked && eff.next.Some? ==> !IsPendingEntryStage(eff.next.value))
  }

  /** An effect that keeps p's orders on record. */
  ghost predicate RecordingEffect(state: State, eff: Effect, partial: set<int>) {
    (forall o :: KeepsOrder(state, eff, o, partial)) && RecordsRested(eff, partial)
  }

  lemma EffectIsQuiet(w: World, config: RuntimeConfig, planId: string, e: Event)
    requires Sound(w) && Tracked(w, planId)
    ensures QuietEffect(planId, w.states[planId], PlanEffect(w, config, planId, e))
  {
    hide PlanEffect, PlacesOwn, Sound, WellFormed, MarketUntouched;
    EffectPlacesOwn(w, config, planId, e);
    SoundMeans(w, planId);
    PlanEffectEvolves(w, config, planId, e);
    if !e.Submit? {
      NothingRested(w, config, planId, e);
    }
  }

  lemma EffectIsRecording(w: World, config: RuntimeConfig, planId: string, e: Event)
    requires Sound(w) && Tracked(w, planId) && !config.dryRun && (e.Submit? ==> SubmissionSafety.RepliesKept(e.submit))
    ensures RecordingEffect(w.states[planId], PlanEffect(w, config, planId, e), w.partial)
  {
    hide PlanEffect, KeepsOrder, RecordsRested, Sound, SubmissionSafety.RepliesKept;
    forall o
      ensures KeepsOrder(w.states[planId], PlanEffect(w, config, planId, e), o, w.partial)
    {
      EffectKeepsOrder(w, config, planId, e, o);
    }
    EffectKeepsOrder(w, config, planId, e, 0);
  }

  // ----- nothing is placed any more -----------------------------------------------------------------

  lemma ApplyKeepsSilent(w: World, planId: string, eff: Effect, p: string)
    requires Sound(w) && Silent(w, p) && Tracked(w, planId) && QuietEffect(planId, w.states[planId], eff)
    ensures Silent(Apply(w, planId, eff), p)
  {
    hide WellFormed, MarketUntouched, RestingAfter;
    var after := Apply(w, planId, eff);
    SoundMeans(w, planId);
    if p in after.acked && !(eff.acked && p == planId) {
      forall i | after.acked[p] <= i < |after.log| && after.log[i].Placed?
        ensures after.log[i].planId != p
      {
        if i < |w.log| {
          assert after.log[i] == w.log[i];
        } else {
          assert after.log[i] == eff.ops[i - |w.log|];
        }
      }
    }
  }

  lemma StepKeepsSilent(w: World, config: RuntimeConfig, e: Event, p: string)
    requires Sound(w) && Silent(w, p)
    ensures Silent(Step(w, config, e), p)
  {
    hide Apply, PlanEffect, Sound, QuietEffect, Validates, HasBlockingSameDirectionLivePlan;
    if !e.Arm? && !e.OrderGone? && Tracked(w, e.planId) {
      EffectIsQuiet(w, config, e.planId, e);
      ApplyKeepsSilent(w, e.planId, PlanEffect(w, config, e.planId, e), p);
    }
  }

  /** In every reachable world, dry run or not and whatever the broker does: once an intent of
      p was acknowledged nothing of p is ever placed again. */
  lemma {:induction false} NothingPlacedAfterAck(config: RuntimeConfig, events: seq<Event>, p: string)
    ensures Silent(Run(config, events), p)
  {
    hide Step;
    if events != [] {
      NothingPlacedAfterAck(config, events[..|events| - 1], p);
      RunIsSound(config, events[..|events| - 1]);
      StepKeepsSilent(Run(config, events[..|events| - 1]), config, events[|events| - 1], p);
    }
  }

  // ----- what rests is on record ------------------------------------------------------------------------

  lemma ApplyKeepsBook(w: World, p: string, eff: Effect)
    requires Sound(w) && BookRecorded(w, p) && Tracked(w, p) && RecordingEffect(w.states[p], eff, w.partial)
    ensures BookRecorded(Apply(w, p, eff), p)
  {
    hide Recorded, WellFormed, MarketUntouched;
    var after := Apply(w, p, eff);
    forall o | Tracked(after, p) && RestsFor(after, p, o)
      ensures Recorded(after.states[p].legs, o, after.partial)
    {
      if o !in eff.rested {
        assert RestsFor(w, p, o);
        assert KeepsOrder(w.states[p], eff, o, w.partial);
      }
    }
  }

  lemma OthersKeepBook(w: World, q: string, eff: Effect, p: string)
    requires BookRecorded(w, p) && Tracked(w, q) && q != p
    ensures BookRecorded(Apply(w, q, eff), p)
  {
    hide Recorded;
    var after := Apply(w, q, eff);
    forall o | Tracked(after, p) && RestsFor(after, p, o)
      ensures Recorded(after.states[p].legs, o, after.partial)
    {
      assert RestsFor(w, p, o);
      MorePartial(w.states[p].legs, o, w.partial, eff.partial);
    }
  }

  lemma ApplyKeepsOwners(w: World, planId: string, eff: Effect)
    requires Sound(w) && OwnersClaimed(w) && Tracked(w, planId)
    ensures OwnersClaimed(Apply(w, planId, eff))
  {
    hide WellFormed, MarketUntouched;
    SoundMeans(w, planId);
  }

  lemma ApplyLeavesPartial(w: World, p: string, eff: Effect)
    requires CancelsSafe(w, p) && Tracked(w, p)
    requires RecordingEffect(w.states[p], eff, w.partial) && QuietEffect(p, w.states[p], eff)
    ensures LeavesPartial(Apply(w, p, eff), p)
  {
    hide Recorded;
    var after := Apply(w, p, eff);
    forall o | p in after.acked && RestsFor(after, p, o)
      ensures o in after.partial
    {
      assert o !in eff.rested;
      assert RestsFor(w, p, o);
      assert KeepsOrder(w.states[p], eff, o, w.partial);
    }
  }

  lemma OthersLeavePartial(w: World, q: string, eff: Effect, p: string)
    requires LeavesPartial(w, p) && q != p
    ensures LeavesPartial(Apply(w, q, eff), p)
  {
    var after := Apply(w, q, eff);
    forall o | p in after.acked && RestsFor(after, p, o)
      ensures o in after.partial
    {
      assert RestsFor(w, p, o);
    }
  }

  lemma StepKeepsCancels(w: World, config: RuntimeConfig, e: Event, p: string)
    requires Sound(w) && CancelsSafe(w, p) && !config.dryRun && SubmissionSafety.KnownReplies(e, p)
    ensures CancelsSafe(Step(w, config, e), p)
  {
    hide Apply, PlanEffect, ArmPlan, BookRecorded, OwnersClaimed, LeavesPartial, Silent, Sound, RecordingEffect,
      QuietEffect, SubmissionSafety.RepliesKept;
    StepKeepsSilent(w, config, e, p);
    match e
    case Arm(plan, sized, recorded) => ArmKeepsCancels(w, plan, sized, recorded, p);
    case OrderGone(orderId) => GoneKeepsCancels(w, orderId, p);
    case _ =>
      if Tracked(w, e.planId) {
        var eff := PlanEffect(w, config, e.planId, e);
        ApplyKeepsOwners(w, e.planId, eff);
        if e.planId == p {
          EffectIsRecording(w, config, p, e);
          EffectIsQuiet(w, config, p, e);
          ApplyKeepsBook(w, p, eff);
          ApplyLeavesPartial(w, p, eff);
        } else {
          OthersKeepBook(w, e.planId, eff, p);
          OthersLeavePartial(w, e.planId, eff, p);
        }
      }
  }

  lemma ArmKeepsCancels(w: World, plan: Plan, sized: bool, recorded: bool, p: string)
    requires Sound(w) && CancelsSafe(w, p)
    ensures
      var after := ArmPlan(w, plan, sized, recorded);
      BookRecorded(after, p) && OwnersClaimed(after) && LeavesPartial(after, p)
  {
    hide Recorded, Validates, HasBlockingSameDirectionLivePlan, WellFormed, MarketUntouched;
    var after := ArmPlan(w, plan, sized, recorded);
    forall o | RestsFor(after, p, o)
      ensures RestsFor(w, p, o)
    {}
  }

  lemma GoneKeepsCancels(w: World, orderId: int, p: string)
    requires CancelsSafe(w, p)
    ensures
      var after := w.(resting := w.resting - {orderId});
      BookRecorded(after, p) && OwnersClaimed(after) && LeavesPartial(after, p)
  {
    hide Recorded;
    forall o | RestsFor(w.(resting := w.resting - {orderId}), p, o)
      ensures RestsFor(w, p, o)
    {}
  }

  lemma EmptyIsSafe(p: string)
    ensures CancelsSafe(Empty(), p)
  {}

  /** The theorem. Outside dry run, in every reachable world, for every plan none of whose
      placements was accepted and reported as failed: once its intent was acknowledged the
      plan has placed nothing, it can never be submitted again, and whatever order of it still
      rests is the unfilled rest of an order that had already filled in part. */
  lemma {:induction false} AcknowledgedStaysWithdrawn(config: RuntimeConfig, events: seq<Event>, p: string)
    requires !config.dryRun && forall k :: 0 <= k < |events| ==> SubmissionSafety.KnownReplies(events[k], p)
    ensures CancelsSafe(Run(config, events), p)
  {
    hide Step, CancelsSafe, SubmissionSafety.KnownReplies;
    if events == [] {
      EmptyIsSafe(p);
    } else {
      AcknowledgedStaysWithdrawn(config, events[..|events| - 1], p);
      RunIsSound(config, events[..|events| - 1]);
      StepKeepsCancels(Run(config, events[..|events| - 1]), config, events[|events| - 1], p);
    }
  }

  // ----- exactly what an acknowledgement leaves ------------------------------------------------

  /** The order belongs to a leg that already holds a position: it filled in part. */
  predicate FilledInPart(legs: seq<Leg>, order: int) {
    exists i :: 0 <= i < |legs| && legs[i].orderId == Some(order) && legs[i].positionId.Some?
  }

  /** The broker gives every order its own id. */
  predicate OrdersDistinct(legs: seq<Leg>) {
    forall i, j :: 0 <= i < j < |legs| && legs[i].orderId.Some? ==> legs[i].orderId != legs[j].orderId
  }

  /** When nothing rests after the cancels, every leg that was resting lost its order. */
  lemma RestingLegGone(state: State, answers: seq<CancelAnswer>, i: nat)
    requires i < |state.legs| && StillResting(state.legs[i])
    requires !AnyResting(CancelUnfilledEntryLegs(state, answers).legs)
    ensures state.legs[i].orderId.value in WithdrawnOrders(state.legs, answers)
  {
    hide WeightedFillPrice, DeriveRuntimeStage, DeriveGroupStage;
    assert !StillResting(CancelUnfilledEntryLegs(state, answers).legs[i]);
  }

  /** Only orders of unfilled legs are withdrawn. */
  lemma FilledNotWithdrawn(legs: seq<Leg>, answers: seq<CancelAnswer>, order: int)
    requires OrdersDistinct(legs) && FilledInPart(legs, order)
    ensures order !in WithdrawnOrders(legs, answers)
  {}

  lemma AckedGone(plan: Plan, state: State, config: RuntimeConfig, input: CancelInput)
    requires !config.dryRun && ApplyCancelIntent(plan, state, config, input).acked
    ensures
      var gone := ApplyCancelIntent(plan, state, config, input).gone;
      if AnyResting(state.legs)
      then gone == WithdrawnOrders(state.legs, input.withdrawal.answers)
           && !AnyResting(CancelUnfilledEntryLegs(state, input.withdrawal.answers).legs)
      else gone == {}
  {
    hide CancelUnfilledEntryLegs, WithdrawnOrders, AnyResting, AnyCancellable, SettleIntent, CancelRequests,
      HasExpiredWithRestingEntries;
  }

  /** An order the record stands for is either gone with the acknowledgement or was filled
      in part. */
  lemma AckedOrder(plan: Plan, state: State, config: RuntimeConfig, input: CancelInput, order: int, partial: set<int>)
    requires !config.dryRun && Recorded(state.legs, order, partial)
    requires ApplyCancelIntent(plan, state, config, input).acked
    ensures order !in ApplyCancelIntent(plan, state, config, input).gone ==> FilledInPart(state.legs, order)
    ensures OrdersDistinct(state.legs) && FilledInPart(state.legs, order) ==>
      order !in ApplyCancelIntent(plan, state, config, input).gone
  {
    hide ApplyCancelIntent, CancelUnfilledEntryLegs, WithdrawnOrders, OrdersDistinct;
    AckedGone(plan, state, config, input);
    var i :| 0 <= i < |state.legs| && Holds(state.legs[i], order, partial);
    if state.legs[i].positionId.None? {
      assert StillResting(state.legs[i]);
      RestingLegGone(state, input.withdrawal.answers, i);
    }
    if OrdersDistinct(state.legs) && FilledInPart(state.legs, order) {
      FilledNotWithdrawn(state.legs, input.withdrawal.answers, order);
    }
  }

  /** Exactly what is left. When an intent is acknowledged, an order of the plan that was
      resting still rests if and only if its leg already holds a position. */
  lemma AckLeavesExactlyPartialFills(w: World, config: RuntimeConfig, p: string, input: CancelInput, order: int)
    requires Sound(w) && CancelsSafe(w, p) && !config.dryRun && Tracked(w, p) && p !in w.settled
    requires OrdersDistinct(w.states[p].legs) && RestsFor(w, p, order)
    requires PlanEffect(w, config, p, Cancel(p, input)).acked
    ensures RestsFor(Step(w, config, Cancel(p, input)), p, order) <==> FilledInPart(w.states[p].legs, order)
  {
    hide ApplyCancelIntent, WellFormed, MarketUntouched, Silent, LeavesPartial, Recorded, FilledInPart, OrdersDistinct;
    IntentsOnlyCancel(w.plans[p], w.states[p], config, input);
    AckedOrder(w.plans[p], w.states[p], config, input, order, w.partial);
  }

  /** The record takes the order for one that still rests. */
  predicate StandsFor(legs: seq<Leg>, order: int) {
    exists i :: 0 <= i < |legs| && StillResting(legs[i]) && legs[i].orderId == Some(order)
  }

  lemma AckedGoneExactly(plan: Plan, state: State, config: RuntimeConfig, input: CancelInput, order: int)
    requires !config.dryRun && ApplyCancelIntent(plan, state, config, input).acked
    ensures order in ApplyCancelIntent(plan, state, config, input).gone <==> StandsFor(state.legs, order)
  {
    hide ApplyCancelIntent, CancelUnfilledEntryLegs;
    AckedGone(plan, state, config, input);
    if StandsFor(state.legs, order) {
      var i :| 0 <= i < |state.legs| && StillResting(state.legs[i]) && state.legs[i].orderId == Some(order);
      assert AnyResting(state.legs);
      RestingLegGone(state, input.withdrawal.answers, i);
    }
  }

  /** The same with nothing assumed of the replies: an acknowledgement leaves exactly the orders
      of the plan for which no unfilled leg of its record stands, be it because the leg
      holds a position or because the reply that named the order was lost. */
  lemma AckWithdrawsExactly(w: World, config: RuntimeConfig, p: string, input: CancelInput, order: int)
    requires !config.dryRun && Tracked(w, p) && p !in w.settled && RestsFor(w, p, order)
    requires PlanEffect(w, config, p, Cancel(p, input)).acked
    ensures RestsFor(Step(w, config, Cancel(p, input)), p, order) <==> !StandsFor(w.states[p].legs, order)
  {
    hide ApplyCancelIntent, StandsFor;
    IntentsOnlyCancel(w.plans[p], w.states[p], config, input);
    AckedGoneExactly(w.plans[p], w.states[p], config, input, order);
  }

  /** An acknowledged plan's orders at the broker only ever become fewer. */
  lemma RestingOnlyShrinks(w: World, config: RuntimeConfig, e: Event, p: string, order: int)
    requires Sound(w) && Silent(w, p) && p in w.acked
    requires RestsFor(Step(w, config, e), p, order)
    ensures RestsFor(w, p, order)
  {
    hide PlanEffect, WellFormed, MarketUntouched, Validates, HasBlockingSameDirectionLivePlan;
    if !e.Arm? && !e.OrderGone? && Tracked(w, e.planId) {
      EffectPlacesOwn(w, config, e.planId, e);
    }
  }

  lemma AcksStay(w: World, config: RuntimeConfig, e: Event, p: string)
    requires p in w.acked
    ensures p in Step(w, config, e).acked
  {
    hide PlanEffect, Validates, HasBlockingSameDirectionLivePlan, RestingAfter;
  }

  lemma {:induction false} LaterRestsWereResting(
    config: RuntimeConfig, events: seq<Event>, more: seq<Event>, p: string, order: int)
    requires p in Run(config, events).acked
    requires RestsFor(Run(config, events + more), p, order)
    ensures RestsFor(Run(config, events), p, order) && p in Run(config, events + more).acked
  {
    hide Step, Silent, Sound;
    if more == [] {
      assert events + more == events;
    } else {
      var n := |more| - 1;
      var earlier := events + more[..n];
      assert (events + more)[..|events + more| - 1] == earlier;
      AckedAfter(config, events, more[..n], p);
      RunIsSound(config, earlier);
      NothingPlacedAfterAck(config, earlier, p);
      RestingOnlyShrinks(Run(config, earlier), config, more[n], p, order);
      AcksStay(Run(config, earlier), config, more[n], p);
      LaterRestsWereResting(config, events, more[..n], p, order);
    }
  }

  lemma {:induction false} AckedAfter(config: RuntimeConfig, events: seq<Event>, more: seq<Event>, p: string)
    requires p in Run(config, events).acked
    ensures p in Run(config, events + more).acked
  {
    hide Step;
    if more == [] {
      assert events + more == events;
    } else {
      var n := |more| - 1;
      assert (events + more)[..|events + more| - 1] == events + more[..n];
      AckedAfter(config, events, more[..n], p);
      AcksStay(Run(config, events + more[..n]), config, more[n], p);
    }
  }

  /** Whatever happens after an acknowledgement, an order of the plan that still rests was,
      when it was written, the order of a leg that already held a position. So a plan whose
      legs hold nothing but whole fills has nothing resting, from then on and for good. */
  lemma WholeFillsLeaveNothingResting(
    config: RuntimeConfig, earlier: seq<Event>, p: string, input: CancelInput, more: seq<Event>, order: int)
    requires !config.dryRun && forall k :: 0 <= k < |earlier| ==> SubmissionSafety.KnownReplies(earlier[k], p)
    requires
      var w := Run(config, earlier);
      Tracked(w, p) && p !in w.settled && PlanEffect(w, config, p, Cancel(p, input)).acked
    requires RestsFor(Run(config, earlier + [Cancel(p, input)] + more), p, order)
    ensures FilledInPart(Run(config, earlier).states[p].legs, order)
  {
    hide Run, Step, CancelsSafe, Sound, PlanEffect, FilledInPart, SubmissionSafety.KnownReplies;
    var w, e := Run(config, earlier), Cancel(p, input);
    assert Run(config, earlier + [e]) == Step(w, config, e) by { RunSnoc(config, earlier, e); }
    AckMeans(w, config, p, input);
    LaterRestsWereResting(config, earlier + [e], more, p, order);
    RunIsSound(config, earlier);
    AcknowledgedStaysWithdrawn(config, earlier, p);
    AckedLeft(w, config, p, input, order);
  }

  lemma RunSnoc(config: RuntimeConfig, events: seq<Event>, e: Event)
    ensures Run(config, events + [e]) == Step(Run(config, events), config, e)
  {
    hide Step;
    assert (events + [e])[..|events|] == events;
  }

  lemma AckMeans(w: World, config: RuntimeConfig, p: string, input: CancelInput)
    requires Tracked(w, p) && PlanEffect(w, config, p, Cancel(p, input)).acked
    ensures p in Step(w, config, Cancel(p, input)).acked
  {
    hide PlanEffect, RestingAfter;
  }

  lemma AckedLeft(w: World, config: RuntimeConfig, p: string, input: CancelInput, order: int)
    requires Sound(w) && CancelsSafe(w, p) && !config.dryRun && Tracked(w, p) && p !in w.settled
    requires PlanEffect(w, config, p, Cancel(p, input)).acked
    requires RestsFor(Step(w, config, Cancel(p, input)), p, order)
    ensures FilledInPart(w.states[p].legs, order)
  {
    hide ApplyCancelIntent, WellFormed, MarketUntouched, Silent, LeavesPartial, Recorded, FilledInPart;
    IntentsOnlyCancel(w.plans[p], w.states[p], config, input);
    AckedOrder(w.plans[p], w.states[p], config, input, order, w.partial);
  }

  /** Positions and what they hold stay as they were. */
  predicate PositionsKept(before: seq<Leg>, after: seq<Leg>) {
    && |before| == |after|
    && forall i :: 0 <= i < |before| && before[i].positionId.Some? ==>
         after[i].positionId == before[i].positionId && after[i].remaining == before[i].remaining
  }

  lemma CancelKeepsPositions(state: State, answers: seq<CancelAnswer>)
    ensures PositionsKept(state.legs, CancelUnfilledEntryLegs(state, answers).legs)
  {
    hide WeightedFillPrice, DeriveRuntimeStage, DeriveGroupStage;
  }

  lemma SettleKeepsPositions(state: State)
    ensures SettleIntent(state).Some? ==> PositionsKept(state.legs, SettleIntent(state).value.legs)
  {
    hide WeightedFillPrice, DeriveRuntimeStage, DeriveGroupStage;
  }

  /** Withdrawing a plan closes nothing: a cancel intent only ever sends cancels. */
  lemma IntentsOnlyCancel(plan: Plan, state: State, config: RuntimeConfig, input: CancelInput)
    ensures
      var eff := ApplyCancelIntent(plan, state, config, input);
      && (forall i :: 0 <= i < |eff.ops| ==> eff.ops[i].CancelSent? && eff.ops[i].planId == state.planId)
      && eff.rested == {}
      && (eff.next.Some? ==> PositionsKept(state.legs, eff.next.value.legs))
  {
    hide CancelUnfilledEntryLegs, SettleIntent, WithdrawnOrders, AnyResting, AnyCancellable,
      HasExpiredWithRestingEntries;
    var after := CancelUnfilledEntryLegs(state, input.withdrawal.answers);
    CancelKeepsPositions(state, input.withdrawal.answers);
    SettleKeepsPositions(state);
    SettleKeepsPositions(after);
  }
}
