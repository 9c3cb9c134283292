/** The runtime object: its dictionaries, the durable claims and the broker's book, changed
    in place by the phases of a poll. Each phase is proved to do exactly the step that the
    safety theorems are about. */
module TradePlanRuntime {
  import opened Common
  import opened TradePlanModel
  import opened ExecutionEngine
  import opened VolumePlanner
  import opened PositionManagement
  import opened TargetLadder
  import opened OppositeExposureFence
  import opened RuntimeModel
  import opened RuntimeWorld
  import opened RuntimeSteps
  import opened LegLists

  // ----- effects built up one broker answer at a time ------------------------------------------

  function Progress(state: State, ops: seq<BrokerOp>, rested: set<int>): Effect {
    Effect(Some(state), ops, rested, {}, {}, false)
  }

  lemma ApplyNothing(w: World, planId: string)
    requires Tracked(w, planId)
    ensures Apply(w, planId, Unchanged(w.states[planId])) == w
  {
    assert RestingAfter(w.resting, planId, Unchanged(w.states[planId])) == w.resting;
  }

  lemma ApplySaved(w: World, planId: string, a: State, b: State, ops: seq<BrokerOp>, rested: set<int>)
    ensures Apply(w, planId, Progress(b, ops, rested))
            == Apply(w, planId, Progress(a, ops, rested)).(
                 states := Apply(w, planId, Progress(a, ops, rested)).states[planId := b])
  {}

  lemma ApplyPlaced(w: World, planId: string, a: State, b: State, ops: seq<BrokerOp>, rested: set<int>, op: BrokerOp)
    ensures
      var before := Apply(w, planId, Progress(a, ops, rested));
      Apply(w, planId, Progress(b, ops + [op], rested))
      == before.(states := before.states[planId := b], log := before.log + [op])
  {
    assert w.log + (ops + [op]) == (w.log + ops) + [op];
  }

  lemma ApplyRested(
    w: World, planId: string, a: State, b: State, ops: seq<BrokerOp>, rested: set<int>, op: BrokerOp, order: int)
    ensures
      var before := Apply(w, planId, Progress(a, ops, rested));
      Apply(w, planId, Progress(b, ops + [op], rested + {order}))
      == before.(states := before.states[planId := b], log := before.log + [op],
                 resting := before.resting[order := planId])
  {
    assert w.log + (ops + [op]) == (w.log + ops) + [op];
    assert RestingAfter(w.resting, planId, Progress(b, ops + [op], rested + {order}))
        == RestingAfter(w.resting, planId, Progress(a, ops, rested))[order := planId];
  }

  /** A placement the broker took although the call failed: the log and the book know of it,
      the record does not. */
  lemma ApplyLost(
    w: World, planId: string, saved: State, ops: seq<BrokerOp>, rested: set<int>, legId: string, market: bool,
    answer: Placement)
    ensures
      var before := Apply(w, planId, Progress(saved, ops, rested));
      Apply(w, planId, Progress(saved, ops + LostOps(planId, legId, answer), rested + LostOrder(market, answer)))
      == if !answer.ReplyLost? then before
         else before.(log := before.log + [Placed(planId, legId)],
                      resting := if market then before.resting else before.resting[answer.orderId := planId])
  {
    var before := Apply(w, planId, Progress(saved, ops, rested));
    assert before.states[planId := saved] == before.states;
    if answer.ReplyLost? {
      if market {
        assert rested + {} == rested;
        ApplyPlaced(w, planId, saved, saved, ops, rested, Placed(planId, legId));
      } else {
        ApplyRested(w, planId, saved, saved, ops, rested, Placed(planId, legId), answer.orderId);
      }
    } else {
      assert ops + [] == ops && rested + {} == rested;
    }
  }

  /** Further requests only lengthen the log. */
  lemma ApplyAsked(w: World, planId: string, eff: Effect, more: seq<BrokerOp>)
    requires !eff.acked
    ensures Apply(w, planId, eff.(ops := eff.ops + more))
         == Apply(w, planId, eff).(log := Apply(w, planId, eff).log + more)
  {
    assert w.log + (eff.ops + more) == (w.log + eff.ops) + more;
    assert RestingAfter(w.resting, planId, eff.(ops := eff.ops + more)) == RestingAfter(w.resting, planId, eff);
  }

  class Runtime {
    var plansById: map<string, Plan>
    var statesById: map<string, State>
    var cancelIntentsSettled: set<string>
    var claims: set<string>              // durable claims of plan ids
    var acks: map<string, nat>           // durable cancel acknowledgements
    var resting: map<int, string>        // orders the broker rests
    var partial: set<int>
    var log: seq<BrokerOp>

    function View(): World
      reads this
    {
      World(plansById, statesById, claims, cancelIntentsSettled, acks, resting, partial, log)
    }

    constructor ()
      ensures View() == Empty()
    {
      plansById, statesById, cancelIntentsSettled := map[], map[], {};
      claims, acks, resting, partial, log := {}, map[], map[], {}, [];
    }

    method ForgetPlan(planId: string)
      modifies this
      ensures View() == old(View()).(plans := old(plansById) - {planId}, states := old(statesById) - {planId})
    {
      plansById := plansById - {planId};
      statesById := statesById - {planId};
    }

    method BlockedBySameDirection(incoming: Plan) returns (blocked: bool)
      ensures blocked == HasBlockingSameDirectionLivePlan(View(), incoming)
    {
      if !Regular(incoming) {
        return false;
      }
      var left := statesById.Keys;
      while left != {}
        invariant left <= statesById.Keys
        invariant forall q :: q in statesById.Keys - left ==> !Blocks(statesById[q], incoming)
        decreases |left|
      {
        var q :| q in left;
        if Blocks(statesById[q], incoming) {
          assert q in View().states;
          return true;
        }
        left := left - {q};
      }
      return false;
    }

    method ProcessTradePlanEntry(plan: Plan, sized: bool, recorded: bool)
      modifies this
      ensures View() == ArmPlan(old(View()), plan, sized, recorded)
    {
      hide Validates;
      if !Validates(plan) || plan.planId in claims {
        return;
      }
      claims := claims + {plan.planId};
      if !sized {
        return;
      }
      var blocked := BlockedBySameDirection(plan);
      if blocked {
        return;
      }
      plansById := plansById[plan.planId := plan];
      if recorded {
        statesById := statesById[plan.planId := FreshState(plan)];
      }
    }

    // ----- submission -------------------------------------------------------------------------

    method CheckOpposite(config: RuntimeConfig, plan: Plan, input: SubmitInput) returns (verdict: Option<Verdict>)
      ensures verdict == CheckOppositeExposure(plansById, statesById, config.policies, plan, input)
    {
      hide Evaluate, OppositeGroups;
      if plan.manual {
        return Some(Clear);
      }
      if input.snapshot.None? {
        return None;
      }
      var groups := CollectOppositeGroups(
        plan.direction, plan.symbol, Counted(plansById, statesById, plan, input.trackedOrder), input.snapshot.value);
      if groups == [] {
        return Some(Clear);
      }
      if plan.symbol !in config.policies {
        return Some(Refused(PolicyUnavailable));
      }
      return Some(Evaluate(
        IncomingReference(plan, input.bid, input.ask), groups, config.policies[plan.symbol], plan.lane));
    }

    /** Submits the declared legs one by one. The accepted leg and the resume point enter
        the state map before anything else can fail. */
    method SubmitDeclaredLegs(plan: Plan, declared: seq<Declared>, input: SubmitInput)
      requires Tracked(View(), plan.planId)
      modifies this
      ensures
        var state := old(statesById)[plan.planId];
        var run := SubmitLegs(plan, declared, input, state, |declared|);
        View() == Apply(old(View()), plan.planId,
                    Progress(if run.goOn then Finished(run.working) else run.saved, run.ops, run.rested))
    {
      hide Apply, RestingAfter, SubmitLegs, AfterAccept, EnsurePlannedLegs, AcceptedLeg, UsesMarket, OwnedAlready,
        Finished, AggregateState, LostOps, LostOrder;
      ghost var w := View();
      ghost var start := statesById[plan.planId];
      var planId := plan.planId;
      var working := statesById[planId];
      var legs := EnsurePlanned(working.legs, declared);
      working := working.(legs := legs);
      var index := working.submittedLegCount;
      ghost var run := StartRun(start, declared);
      ApplyNothing(w, planId);
      ResumeLeg(plan, declared, input, start);
      while index < |declared|
        invariant start.submittedLegCount <= index
        invariant index <= |declared| ==> run == SubmitLegs(plan, declared, input, start, index)
        invariant index > |declared| ==> index == start.submittedLegCount && run == StartRun(start, declared)
        invariant run.goOn && working == run.working
        invariant View() == Apply(w, planId, Progress(run.saved, run.ops, run.rested))
      {
        ghost var before := run;
        NextLeg(plan, declared, input, start, index);
        run := SubmitLeg(plan, declared, input, index, run);
        if OwnedAlready(working.legs, declared[index].legId) {
          working := working.(submittedLegCount := index + 1);
          statesById := statesById[planId := AggregateState(working)];
          ApplySaved(w, planId, before.saved, run.saved, run.ops, run.rested);
        } else {
          var market := UsesMarket(declared[index], plan.direction, input.bid, input.ask);
          var answer := PlacementFor(input, index);
          var leg := AcceptedLeg(declared[index], market, answer);
          if leg.None? {
            ApplyLost(w, planId, before.saved, before.ops, before.rested, declared[index].legId, market, answer);
            if answer.ReplyLost? {
              log := log + [Placed(planId, declared[index].legId)];
              if !market {
                resting := resting[answer.orderId := planId];
              }
            }
            LaterLegsUntouched(plan, declared, input, start, index + 1, |declared|);
            return;
          }
          var op := Placed(planId, declared[index].legId);
          log := log + [op];
          if leg.value.orderId.Some? {
            resting := resting[leg.value.orderId.value := planId];
            ApplyRested(w, planId, before.saved, run.saved, before.ops, before.rested, op, leg.value.orderId.value);
          } else {
            ApplyPlaced(w, planId, before.saved, run.saved, before.ops, before.rested, op);
          }
          working := AfterAccept(plan, working, leg.value, index, |declared|);
          statesById := statesById[planId := working];
        }
        if !StoredAfter(input, index) {
          LaterLegsUntouched(plan, declared, input, start, index + 1, |declared|);
          return;
        }
        index := index + 1;
      }
      assert run == SubmitLegs(plan, declared, input, start, |declared|);
      working := Finished(working);
      statesById := statesById[planId := working];
      ApplySaved(w, planId, run.saved, working, run.ops, run.rested);
    }

    method SubmitPlan(plan: Plan, config: RuntimeConfig, input: SubmitInput)
      requires Tracked(View(), plan.planId)
      modifies this
      ensures View() == Apply(old(View()), plan.planId,
                          SubmitEntry(plan, old(statesById)[plan.planId], config, input))
    {
      hide DeclaredLegs, SubmitLegs, AggregateState, UsesMarket;
      ghost var w := View();
      var state := statesById[plan.planId];
      if input.sizing.None? {
        ForgetForgets(w, plan.planId);
        ForgetPlan(plan.planId);
        return;
      }
      if plan.entry.kind == Market || plan.entry.kind == MarketWatch {
        SubmitAtMarket(plan, input.sizing.value.total, input);
        return;
      }
      var declared := DeclaredLegs(plan, input.sizing.value, input.symbol, config.singleMarket);
      if declared.None? {
        ForgetForgets(w, plan.planId);
        ForgetPlan(plan.planId);
        return;
      }
      if (exists i :: 0 <= i < |declared.value| && UsesMarket(declared.value[i], plan.direction, input.bid, input.ask))
         && !StopGeometryHolds(plan.direction, plan.stopPrice, input.bid, input.ask) {
        ForgetForgets(w, plan.planId);
        ForgetPlan(plan.planId);
        return;
      }
      SubmitDeclaredLegs(plan, declared.value, input);
    }

    method SubmitAtMarket(plan: Plan, total: int, input: SubmitInput)
      requires Tracked(View(), plan.planId)
      modifies this
      ensures View() == Apply(old(View()), plan.planId,
                          SubmitMarket(plan, old(statesById)[plan.planId], total, input))
    {
      hide AggregateState;
      ghost var w := View();
      var planId := plan.planId;
      var state := statesById[planId];
      if !StopGeometryHolds(plan.direction, plan.stopPrice, input.bid, input.ask) {
        ForgetForgets(w, planId);
        ForgetPlan(planId);
        return;
      }
      var entry := if plan.direction == Buy then input.ask else input.bid;
      var answer := PlacementFor(input, 0);
      var leg := AcceptedLeg(Declared("L1", entry, total, Some(MarketOrder)), true, answer);
      ApplyNothing(w, planId);
      if leg.None? {
        ApplyLost(w, planId, state, [], {}, "L1", true, answer);
        NoOpsBefore(planId, "L1", answer);
        if answer.ReplyLost? {
          log := log + [Placed(planId, "L1")];
        }
        return;
      }
      log := log + [Placed(planId, "L1")];
      var next := AggregateState(state.(
        legs := [leg.value], submittedLegCount := 1, currentStop := plan.stopPrice,
        stage := FullyOpen, groupStage := GroupFullyOpen));
      statesById := statesById[planId := next];
      ApplyPlaced(w, planId, state, next, [], {}, Placed(planId, "L1"));
    }

    method TrySubmitReceivedPlan(config: RuntimeConfig, planId: string, input: SubmitInput)
      requires Tracked(View(), planId) && plansById[planId].planId == planId
      modifies this
      ensures View() == Step(old(View()), config, Submit(planId, input))
    {
      hide SubmitEntry, CheckOppositeExposure;
      ghost var w := View();
      var plan, state := plansById[planId], statesById[planId];
      ApplyNothing(w, planId);
      ForgetForgets(w, planId);
      if !IsPendingEntryStage(state) || input.decision == Wait {
        return;
      }
      if input.decision == PlanExpired {
        ForgetPlan(planId);
        return;
      }
      if config.dryRun || input.paused {
        return;
      }
      if state.submittedLegCount == 0 {
        var verdict := CheckOpposite(config, plan, input);
        if verdict.None? || verdict.value.Misconfigured? {
          return;
        }
        if verdict.value.Refused? {
          ForgetPlan(planId);
          return;
        }
      }
      SubmitPlan(plan, config, input);
    }

    // ----- cancel intents ------------------------------------------------------------------------

    /** Drops or keeps the plan, then writes the acknowledgement, as far as the writes go. */
    method Settle(planId: string, state: State, settlement: Settlement)
      requires Tracked(View(), planId) && statesById[planId] == state
      modifies this
      ensures View() == Apply(old(View()), planId, Settled(state, settlement))
    {
      hide AggregateState;
      ghost var w := View();
      ApplyNothing(w, planId);
      if settlement == Interrupted {
        return;
      }
      assert RestingAfter(w.resting, planId, Settled(state, settlement)) == w.resting;
      var legs := WithdrawLegs(state.legs);
      if !AnyPosition(legs) {
        ForgetPlan(planId);
      } else {
        statesById := statesById[planId := AggregateState(state.(
          legs := legs, stage := DeriveRuntimeStage(legs), groupStage := DeriveGroupStage(legs)))];
      }
      if settlement == AckLost {
        return;
      }
      acks := acks[planId := |log|];
      cancelIntentsSettled := cancelIntentsSettled + {planId};
    }

    /** Withdraws the resting legs; true when nothing of the plan is left resting. */
    method WithdrawResting(planId: string, state: State, withdrawal: Withdrawal) returns (after: State, clear: bool)
      requires Tracked(View(), planId) && statesById[planId] == state && state.planId == planId
      modifies this
      ensures
        if !AnyCancellable(state.legs) then after == state && !clear && View() == old(View())
        else
          var gone := WithdrawnOrders(state.legs, withdrawal.answers);
          var ops := CancelRequests(planId, state.legs);
          && after == CancelUnfilledEntryLegs(state, withdrawal.answers)
          && (clear <==> withdrawal.confirmed && !AnyResting(after.legs))
          && View() == Apply(old(View()), planId,
               Effect(Some(if withdrawal.confirmed then after else state), ops, {}, gone, {}, false))
    {
      hide AggregateState, WithdrawnOrders, CancelRequests, LegsAfterCancels;
      after, clear := state, false;
      if !AnyCancellable(state.legs) {
        return;
      }
      ghost var w := View();
      var legs, sent, gone := CancelLegs(planId, state.legs, withdrawal.answers);
      log := log + sent;
      var before := resting;
      resting := map o | o in before && o !in gone :: before[o];
      after := AggregateState(state.(legs := legs));
      ghost var eff := Effect(Some(if withdrawal.confirmed then after else state), sent, {}, gone, {}, false);
      assert RestingAfter(w.resting, planId, eff) == resting;
      assert exists i :: 0 <= i < |state.legs| && IsCancellable(state.legs[i]);
      assert after == CancelUnfilledEntryLegs(state, withdrawal.answers);
      if withdrawal.confirmed {
        statesById := statesById[planId := after];
        clear := !AnyResting(after.legs);
      }
    }

    method ApplyPlanCancelIntent(config: RuntimeConfig, planId: string, input: CancelInput)
      requires Tracked(View(), planId) && statesById[planId].planId == planId
      modifies this
      ensures View() == Step(old(View()), config, Cancel(planId, input))
    {
      hide AggregateState, WithdrawnOrders, CancelRequests, CancelUnfilledEntryLegs, Settled, AnyResting,
        AnyCancellable;
      ghost var w := View();
      ApplyNothing(w, planId);
      if planId in cancelIntentsSettled {
        return;
      }
      var plan, state := plansById[planId], statesById[planId];
      if !input.intent && !HasExpiredWithRestingEntries(plan, state, input.now) {
        return;
      }
      if AnyResting(state.legs) && !config.dryRun {
        var after, clear := WithdrawResting(planId, state, input.withdrawal);
        if clear {
          SettleAfterWithdrawal(w, planId, state, input, after);
          Settle(planId, after, input.settlement);
        }
      } else {
        Settle(planId, state, input.settlement);
      }
    }

    // ----- the owner's flatten ------------------------------------------------------------------------

    /** Withdraws the resting entries of a live plan and closes its open legs. */
    method OwnerFlatten(config: RuntimeConfig, planId: string, input: FlattenInput)
      requires Tracked(View(), planId) && statesById[planId].planId == planId
      modifies this
      ensures View() == Step(old(View()), config, Flatten(planId, input))
    {
      hide AggregateState, WithdrawnOrders, CancelRequests, FlattenCloses, CancelUnfilledEntryLegs, Apply, Walked,
        AnyResting, AnyCancellable;
      ghost var w := View();
      var state := statesById[planId];
      ApplyNothing(w, planId);
      if state.stage == PlanClosed {
        return;
      }
      var after, _ := WithdrawResting(planId, state, input.withdrawal);
      ghost var eff :=
        if AnyCancellable(state.legs)
        then Effect(Some(if input.withdrawal.confirmed then after else state), CancelRequests(planId, state.legs), {},
                    WithdrawnOrders(state.legs, input.withdrawal.answers), {}, false)
        else Unchanged(state);
      if AnyCancellable(state.legs) && !input.withdrawal.confirmed {
        return;
      }
      var closes := SendCloses(planId, after.legs, input.walked);
      log := log + closes;
      assert [] + closes == closes;
      ApplyAsked(w, planId, eff, closes);
    }

    // ----- reconciling ------------------------------------------------------------------------------

    method ReconcilePlan(config: RuntimeConfig, planId: string, input: ReconcileInput)
      requires Tracked(View(), planId)
      modifies this
      ensures View() == Step(old(View()), config, Reconcile(planId, input))
    {
      hide NeedsSubmittedReconcile, Rederived, CheckPendings, AdoptPositions, ReconcileSubmittedLegs, LegOrders,
        Apply;
      ghost var w := View();
      ApplyNothing(w, planId);
      var plan, state := plansById[planId], statesById[planId];
      UnneededReconcile(plan, state, input);
      if !NeedsSubmittedReconcile(state) || state.legs == [] {
        return;
      }
      var first := AdoptAll(plan, input, state);
      var run := CheckAll(plan, input, state, first);
      var gone := LegOrders(state.legs) - input.pending;
      var before := resting;
      resting := map o | o in before && o !in gone :: before[o];
      partial := partial + run.partial;
      ReconcileEffect(plan, state, input, run);
      ghost var eff := ReconcileSubmittedLegs(plan, state, input);
      ReconcileApplies(w, planId, eff);
      assert statesById[planId := state] == statesById;
      if !run.ok {
        return;
      }
      var next := Rederived(run.record, run.legs);
      if run.changed && next.groupStage == GroupCancelled && state.groupStage != GroupCancelled {
        ForgetPlan(planId);
      } else if run.changed || next.stage != state.stage || input.idsDiffer {
        statesById := statesById[planId := next];
      }
    }

    // ----- managing -----------------------------------------------------------------------------------

    /** Empties the legs whose position vanished; false when the whole plan closed. */
    method ClassifyMissing(planId: string, state: State, tick: Tick) returns (after: State, tracked: bool)
      requires Tracked(View(), planId) && statesById[planId] == state
      modifies this
      ensures
        var o := ClassifyMissingLegs(state, tick);
        after == o.state && tracked == o.tracked && View() == Apply(old(View()), planId, Managed(o, []))
    {
      hide AggregateState, EvidenceOf, LegsAfterVanish, AnyMissing, AnyHeld;
      ghost var w := View();
      ManagedNothing(w, planId);
      after, tracked := state, true;
      var legs, missing, evidence := VanishLegs(state.legs, tick.present, tick.lookups);
      if !missing {
        return;
      }
      var stillOpen := AnyHeld(legs, tick.present);
      if RaisesRecovery(evidence, stillOpen) {
        after := AggregateState(state.(legs := legs, groupStage := RecoveryRequired));
      } else if stillOpen {
        after := AggregateState(state.(legs := legs, groupStage := GroupPartiallyClosed));
      } else {
        after := AggregateState(state.(legs := legs, groupStage := GroupClosed, stage := PlanClosed));
        tracked := false;
      }
      ManagedSaved(w, planId, Outcome(after, tracked, tracked, {}));
      statesById := statesById[planId := after];
      if !tracked {
        ForgetPlan(planId);
      }
    }

    /** Withdraws unfilled entries when the policy says so; false when that aborts the poll. */
    method WithdrawEntries(planId: string, c: Config, state: State, withdrawal: Withdrawal)
      returns (after: State, goOn: bool)
      requires Tracked(View(), planId) && statesById[planId] == state
      modifies this
      ensures
        var o := WithdrawUnfilled(c, state, withdrawal);
        after == o.state && goOn == o.goOn && o.tracked && View() == Apply(old(View()), planId, Managed(o, []))
    {
      hide AggregateState, WithdrawnOrders, LegsAfterCancels, Apply;
      ghost var w := View();
      ManagedNothing(w, planId);
      after, goOn := state, true;
      if !c.cancelUnfilledAfterTp || !AnyCancellable(state.legs) {
        return;
      }
      assert exists i :: 0 <= i < |state.legs| && IsCancellable(state.legs[i]);
      var legs, sent, gone := CancelLegs(planId, state.legs, withdrawal.answers);
      var before := resting;
      resting := map o | o in before && o !in gone :: before[o];
      if withdrawal.confirmed {
        after := AggregateState(state.(legs := legs));
        statesById := statesById[planId := after];
      } else {
        goOn := false;
      }
      ghost var o := WithdrawUnfilled(c, state, withdrawal);
      ManagedWithdrawn(w, planId, o);
      assert w.states[planId := state] == w.states;
    }

    /** Closes the allocated slices and, when all succeeded, books the target. */
    method CloseAllocated(plan: Plan, c: Config, state: State, tick: Tick, slices: seq<int>)
      returns (after: State, tracked: bool, goOn: bool)
      requires Tracked(View(), plan.planId) && statesById[plan.planId] == state
      requires state.nextTarget < |plan.targets| && |slices| == |state.legs|
      modifies this
      ensures
        var o := CloseOutcome(plan, c, state, tick, slices, {});
        && after == o.state && tracked == o.tracked && goOn == o.goOn
        && View() == Apply(old(View()), plan.planId, Managed(o, CloseRequests(plan.planId, state.legs, slices)))
    {
      hide AggregateState, CloseRequests, BookedPips, LegsAfterCloses, AllClosesSucceeded, Sum, Apply;
      var planId := plan.planId;
      ghost var w := View();
      after, tracked, goOn := state, true, false;
      var k := state.nextTarget;
      var legs, allClosed, pips, sent := CloseSlices(plan, state.legs, slices, tick.closes, c.pipSize);
      log := log + sent;
      assert w.states[planId := state] == w.states;
      if !allClosed {
        after := AggregateState(state.(legs := legs));
      } else if tick.published {
        var left := Sum(RemainingVolumes(legs));
        var booked := IndexOfTarget(plan.targets, plan.targets[k].targetId);
        after := AggregateState(state.(
          legs := legs, nextTarget := k + 1,
          highestBooked := if booked > state.highestBooked then booked else state.highestBooked,
          bookedPipVolume := state.bookedPipVolume + pips,
          groupStage := if left <= 0 then GroupClosed else GroupPartiallyClosed));
        tracked, goOn := left > 0, left > 0;
      }
      ManagedAsked(w, planId, Outcome(after, tracked, goOn, {}), sent);
      if tracked {
        statesById := statesById[planId := after];
      } else {
        ForgetPlan(planId);
      }
    }

    /** Closes the target's share leg by leg, shallow legs first. */
    method CloseTarget(plan: Plan, c: Config, state: State, tick: Tick) returns (after: State, tracked: bool, goOn: bool)
      requires Tracked(View(), plan.planId) && statesById[plan.planId] == state
      requires state.nextTarget < |plan.targets|
      modifies this
      ensures
        var o := BookTarget(plan, c, state, tick, {});
        && after == o.state && tracked == o.tracked && goOn == o.goOn
        && View() == Apply(old(View()), plan.planId, Managed(o, CloseRequests(plan.planId, state.legs, Slices(plan, c, state, tick))))
    {
      hide AggregateState, Allocation, TargetCloseVolume, RatioFrom, CloseRequests, CloseOutcome, OpenVolumes, Sum,
        Apply;
      var planId := plan.planId;
      ghost var w := View();
      ManagedNothing(w, planId);
      after, tracked, goOn := state, true, false;
      var k := state.nextTarget;
      var held := OpenVolumes(state.legs, tick.present);
      NothingHeldNothingAsked(plan, c, state, tick);
      if (forall i :: 0 <= i < |held| ==> held[i] <= 0) || RatioFrom(plan.targets, k) <= 0.0 {
        return;
      }
      var close := TargetCloseVolume(Sum(held), plan.targets, k, c.symbol);
      var volumes := new int[|held|](i requires 0 <= i < |held| => held[i]);
      assert volumes[..] == held;
      var allocations := AllocateShallowFirstStepped(volumes, close, c.symbol);
      var slices := allocations[..];
      assert slices == Slices(plan, c, state, tick);
      if close <= 0 || Sum(slices) <= 0 {
        after := Advance(state);
        ManagedSaved(w, planId, Outcome(after, true, false, {}));
        statesById := statesById[planId := after];
        return;
      }
      after, tracked, goOn := CloseAllocated(plan, c, state, tick, slices);
    }

    /** Takes the next target when the exit quote has reached it. */
    method TakeNextTarget(plan: Plan, c: Config, state: State, tick: Tick)
      returns (after: State, tracked: bool, goOn: bool)
      requires Tracked(View(), plan.planId) && statesById[plan.planId] == state
      modifies this
      ensures
        var o := TakeTarget(plan, c, state, tick);
        && after == o.state && tracked == o.tracked && goOn == o.goOn
        && View() == Apply(old(View()), plan.planId, Managed(o, TargetRequests(plan, state, c, tick)))
    {
      hide AggregateState, BookTarget, WithdrawUnfilled, CloseRequests, Slices, HasReachedExitTarget, Apply,
        TargetIsBeyondFill, ExitIsFavorableVsFill;
      var planId := plan.planId;
      ghost var w := View();
      ManagedNothing(w, planId);
      after, tracked, goOn := state, true, true;
      var k := state.nextTarget;
      if k >= |plan.targets| || !HasReachedExitTarget(plan.direction, tick.exit, plan.targets[k].price) {
        return;
      }
      if state.groupFill.None?
         || !TargetIsBeyondFill(plan.direction, state.groupFill.value, plan.targets[k].price) {
        after, goOn := Advance(state), false;
        SaveRecord(planId, after);
        return;
      }
      if !ExitIsFavorableVsFill(plan.direction, state.groupFill.value, tick.exit) {
        goOn := false;
        return;
      }
      var unfilled, confirmed := WithdrawEntries(planId, c, state, tick.beforeTp);
      ghost var a := WithdrawUnfilled(c, state, tick.beforeTp);
      WithdrawKeepsTarget(c, state, tick.beforeTp);
      if !confirmed {
        after, goOn := unfilled, false;
        NoOutcomeGoOn(c, state, tick.beforeTp);
        return;
      }
      TrackedStays(w, planId, a);
      after, tracked, goOn := CloseTarget(plan, c, unfilled, tick);
      ghost var b := BookTarget(plan, c, unfilled, tick, {});
      BookWithdrawn(plan, c, unfilled, tick, a.withdrawn);
      SameRequests(plan, c, state, tick);
      ManagedThen(w, planId, a, [], b, CloseRequests(planId, unfilled.legs, Slices(plan, c, unfilled, tick)));
    }

    method SaveRecord(planId: string, state: State)
      requires Tracked(View(), planId)
      modifies this
      ensures View() == Apply(old(View()), planId, Managed(Outcome(state, true, false, {}), []))
    {
      ManagedSaved(View(), planId, Outcome(state, true, false, {}));
      statesById := statesById[planId := state];
    }

    /** Break-even once its target is really booked. */
    method MoveToBreakEven(plan: Plan, c: Config, state: State, tick: Tick) returns (after: State, goOn: bool)
      requires Tracked(View(), plan.planId) && statesById[plan.planId] == state
      modifies this
      ensures
        var o := ApplyBreakEven(plan, c, state, tick);
        after == o.state && goOn == o.goOn && o.tracked && View() == Apply(old(View()), plan.planId, Managed(o, []))
    {
      hide WithdrawUnfilled, CalculateManualGroupBreakEven, CalculateBreakEven, BreakEvenReference, WeightedFillPrice,
        Apply, AnyHeld, EntryLegs, IndexOfTarget;
      var planId := plan.planId;
      ghost var w := View();
      ManagedNothing(w, planId);
      after, goOn := state, true;
      var index := if plan.management.beAfter.None? then -1 else IndexOfTarget(plan.targets, plan.management.beAfter.value);
      var own := WeightedFillPrice(EntryLegs(state.legs));
      var fill := if own.Some? then own else state.groupFill;
      if state.breakEvenApplied || index < 0 || fill.None? || state.highestBooked < index {
        return;
      }
      NoOutcomeGoOn(c, state, tick.beforeBe);
      var unfilled, confirmed := WithdrawEntries(planId, c, state, tick.beforeBe);
      after, goOn := unfilled, confirmed;
      if !confirmed {
        return;
      }
      var digits := c.symbol.digits;
      var move :=
        if plan.manual
        then CalculateManualGroupBreakEven(
               plan.direction, plan.management.beBufferTicks, HeldLegs(unfilled.legs, tick.present),
               Sum(FilledVolumes(unfilled.legs)), unfilled.bookedPipVolume, c.pipSize, unfilled.currentStop, digits,
               PlannedDeepestEntry(plan, unfilled.legs))
        else CalculateBreakEven(
               plan.direction, plan.management.beBufferTicks,
               BreakEvenReference(unfilled, tick.present, fill.value), unfilled.currentStop, digits);
      if move.improved && AnyHeld(unfilled.legs, tick.present) && tick.beAmended {
        after := unfilled.(currentStop := move.newStop, breakEvenApplied := true);
        MovedAfterWithdrawal(w, planId, WithdrawUnfilled(c, state, tick.beforeBe), after);
        statesById := statesById[planId := after];
      }
    }

    method MoveManualTrail(plan: Plan, c: Config, state: State, tick: Tick) returns (after: State, goOn: bool)
      requires Tracked(View(), plan.planId) && statesById[plan.planId] == state
      modifies this
      ensures
        var o := ApplyManualTrail(plan, c, state, tick);
        after == o.state && goOn == o.goOn && o.tracked && View() == Apply(old(View()), plan.planId, Managed(o, []))
    {
      hide WithdrawUnfilled, PlanManualTrailStop, Apply, AnyHeld;
      var planId := plan.planId;
      ghost var w := View();
      ManagedNothing(w, planId);
      after, goOn := state, true;
      if !plan.manual {
        return;
      }
      var move := PlanManualTrailStop(plan, state.highestBooked + 1, state.legs, c.symbol.digits);
      if move.None? || !Tighter(plan.direction, move.value, state.currentStop) {
        return;
      }
      NoOutcomeGoOn(c, state, tick.beforeManualTrail);
      var unfilled, confirmed := WithdrawEntries(planId, c, state, tick.beforeManualTrail);
      after, goOn := unfilled, confirmed;
      if confirmed && AnyHeld(unfilled.legs, tick.present) && tick.manualTrailAmended {
        after := unfilled.(currentStop := move.value);
        MovedAfterWithdrawal(w, planId, WithdrawUnfilled(c, state, tick.beforeManualTrail), after);
        statesById := statesById[planId := after];
      }
    }

    method MoveTrail(plan: Plan, c: Config, state: State, tick: Tick) returns (after: State, goOn: bool)
      requires Tracked(View(), plan.planId) && statesById[plan.planId] == state
      modifies this
      ensures
        var o := ApplyTrail(plan, c, state, tick);
        after == o.state && goOn == o.goOn && o.tracked && View() == Apply(old(View()), plan.planId, Managed(o, []))
    {
      hide WithdrawUnfilled, ResolveTrailTargetIndex, RoundTo, Apply, AnyHeld;
      var planId := plan.planId;
      ghost var w := View();
      ManagedNothing(w, planId);
      after, goOn := state, true;
      if plan.manual {
        return;
      }
      var to := ResolveTrailTargetIndex(plan, state.nextTarget, state.highestBooked);
      if to < 0 {
        return;
      }
      NoOutcomeGoOn(c, state, tick.beforeTrail);
      var unfilled, confirmed := WithdrawEntries(planId, c, state, tick.beforeTrail);
      after, goOn := unfilled, confirmed;
      var desired := RoundTo(plan.targets[to].price, c.symbol.digits);
      if confirmed && Tighter(plan.direction, desired, unfilled.currentStop)
         && AnyHeld(unfilled.legs, tick.present) && tick.trailAmended {
        after := unfilled.(currentStop := desired);
        MovedAfterWithdrawal(w, planId, WithdrawUnfilled(c, state, tick.beforeTrail), after);
        statesById := statesById[planId := after];
      }
    }

    /** The stop moves of a poll, one after another. */
    method MoveStopsOf(plan: Plan, c: Config, state: State, tick: Tick)
      requires Tracked(View(), plan.planId) && statesById[plan.planId] == state
      modifies this
      ensures View() == Apply(old(View()), plan.planId, Managed(MoveStops(plan, c, state, tick), []))
    {
      hide ApplyBreakEven, ApplyManualTrail, ApplyTrail, Apply;
      var planId := plan.planId;
      ghost var w := View();
      ghost var a := ApplyBreakEven(plan, c, state, tick);
      var first, goOn := MoveToBreakEven(plan, c, state, tick);
      if !goOn {
        return;
      }
      TrackedStays(w, planId, a);
      ghost var b := ApplyManualTrail(plan, c, first, tick);
      var second, goOn' := MoveManualTrail(plan, c, first, tick);
      ManagedThen(w, planId, a, [], b, []);
      if !goOn' {
        return;
      }
      TrackedStays(w, planId, Then(a, b));
      var third, _ := MoveTrail(plan, c, second, tick);
      ManagedThen(w, planId, Then(a, b), [], ApplyTrail(plan, c, second, tick), []);
    }

    /** One open plan in one poll: vanished legs, the next target, then the stops. */
    method ManagePlanPositions(config: RuntimeConfig, planId: string, c: Config, tick: Tick)
      requires Tracked(View(), planId) && plansById[planId].planId == planId
      modifies this
      ensures View() == Step(old(View()), config, Manage(planId, c, tick))
    {
      hide ClassifyMissingLegs, TakeTarget, MoveStops, AggregateState, AnyHeld, TargetRequests, IsManagingStage, Apply;
      ghost var w := View();
      var plan, initial := plansById[planId], statesById[planId];
      ManagedNothing(w, planId);
      if !IsManagingStage(initial) {
        return;
      }
      var state := AggregateState(initial);
      SaveRecord(planId, state);
      ghost var saved := Outcome(state, true, false, {});
      ghost var a := ClassifyMissingLegs(state, tick);
      TrackedStays(w, planId, saved);
      ClassifyWithdrawsNothing(state, tick);
      var known, tracked := ClassifyMissing(planId, state, tick);
      ManagedThen(w, planId, saved, [], a, []);
      if !tracked || !AnyHeld(known.legs, tick.present) {
        return;
      }
      TrackedStays(w, planId, a);
      ghost var b := TakeTarget(plan, c, known, tick);
      var taken, tracked', goOn := TakeNextTarget(plan, c, known, tick);
      ManagedThen(w, planId, a, [], b, TargetRequests(plan, known, c, tick));
      if !tracked' || !goOn {
        return;
      }
      TrackedStaysAsked(w, planId, b, TargetRequests(plan, known, c, tick));
      MoveStopsOf(plan, c, taken, tick);
      ManagedThen(w, planId, b, TargetRequests(plan, known, c, tick), MoveStops(plan, c, taken, tick), []);
    }

    // ----- one poll -----------------------------------------------------------------------------------

    /** One phase for one plan, as the poll or the owner calls it. */
    method Handle(config: RuntimeConfig, e: Event)
      requires forall p :: Tracked(View(), p) ==> plansById[p].planId == p && statesById[p].planId == p
      modifies this
      ensures View() == Step(old(View()), config, e)
    {
      hide PlanEffect, ArmPlan, Apply;
      match e
      case Arm(plan, sized, recorded) => ProcessTradePlanEntry(plan, sized, recorded);
      case OrderGone(orderId) => resting := resting - {orderId};
      case Submit(planId, input) =>
        if planId in plansById && planId in statesById {
          TrySubmitReceivedPlan(config, planId, input);
        }
      case Cancel(planId, input) =>
        if planId in plansById && planId in statesById {
          ApplyPlanCancelIntent(config, planId, input);
        }
      case Flatten(planId, input) =>
        if planId in plansById && planId in statesById {
          OwnerFlatten(config, planId, input);
        }
      case Reconcile(planId, input) =>
        if planId in plansById && planId in statesById {
          ReconcilePlan(config, planId, input);
        }
      case Manage(planId, c, tick) =>
        if planId in plansById && planId in statesById {
          ManagePlanPositions(config, planId, c, tick);
        }
    }

    /** A poll is its phases one after another; from an empty runtime any number of polls
        ends in the world of the corresponding run. */
    method Poll(config: RuntimeConfig, earlier: seq<Event>, events: seq<Event>)
      requires View() == Run(config, earlier)
      modifies this
      ensures View() == Run(config, earlier + events)
    {
      hide Step, Sound;
      assert earlier + events[..0] == earlier;
      for i := 0 to |events|
        invariant View() == Run(config, earlier + events[..i])
      {
        ghost var so_far := earlier + events[..i];
        RunIsSound(config, so_far);
        SoundIdentities(View());
        Handle(config, events[i]);
        assert (earlier + events[..i + 1])[..|so_far|] == so_far;
      }
      assert events[..|events|] == events;
    }
  }

  lemma NoOpsBefore(planId: string, legId: string, answer: Placement)
    ensures [] + LostOps(planId, legId, answer) == LostOps(planId, legId, answer)
    ensures {} + LostOrder(true, answer) == {}
  {}

  // ----- management outcomes ------------------------------------------------------------------

  lemma ManagedNothing(w: World, planId: string)
    requires Tracked(w, planId)
    ensures forall goOn :: Apply(w, planId, Managed(Outcome(w.states[planId], true, goOn, {}), [])) == w
  {
    forall goOn
      ensures Apply(w, planId, Managed(Outcome(w.states[planId], true, goOn, {}), [])) == w
    {
      assert RestingAfter(w.resting, planId, Managed(Outcome(w.states[planId], true, goOn, {}), [])) == w.resting;
    }
  }

  /** Saving a record, or dropping the plan, withdraws and asks for nothing. */
  lemma ManagedSaved(w: World, planId: string, o: Outcome)
    requires Tracked(w, planId) && o.withdrawn == {}
    ensures Apply(w, planId, Managed(o, [])) ==
      if o.tracked then w.(states := w.states[planId := o.state])
      else w.(plans := w.plans - {planId}, states := w.states - {planId})
  {
    ManagedAsked(w, planId, o, []);
    assert w.log + [] == w.log;
  }

  lemma ManagedAsked(w: World, planId: string, o: Outcome, ops: seq<BrokerOp>)
    requires Tracked(w, planId) && o.withdrawn == {}
    ensures Apply(w, planId, Managed(o, ops)) ==
      if o.tracked then w.(states := w.states[planId := o.state], log := w.log + ops)
      else w.(plans := w.plans - {planId}, states := w.states - {planId}, log := w.log + ops)
  {
    assert RestingAfter(w.resting, planId, Managed(o, ops)) == w.resting;
    assert w.partial + {} == w.partial;
  }

  /** A withdrawal takes orders out of the book and saves the record. */
  lemma ManagedWithdrawn(w: World, planId: string, o: Outcome)
    requires Tracked(w, planId) && o.tracked
    ensures Apply(w, planId, Managed(o, [])) ==
      w.(states := w.states[planId := o.state], resting := map q | q in w.resting && q !in o.withdrawn :: w.resting[q])
  {
    assert RestingAfter(w.resting, planId, Managed(o, [])) == map q | q in w.resting && q !in o.withdrawn :: w.resting[q];
    assert w.log + [] == w.log && w.partial + {} == w.partial;
  }

  /** One outcome after another is one effect. */
  lemma ManagedThen(w: World, planId: string, a: Outcome, first: seq<BrokerOp>, b: Outcome, second: seq<BrokerOp>)
    requires Tracked(w, planId) && a.tracked
    ensures Apply(Apply(w, planId, Managed(a, first)), planId, Managed(b, second))
         == Apply(w, planId, Managed(b.(withdrawn := a.withdrawn + b.withdrawn), first + second))
    ensures a.withdrawn == {} ==> b.(withdrawn := a.withdrawn + b.withdrawn) == b
    ensures first == [] ==> first + second == second
    ensures second == [] ==> first + second == first
  {
    var mid := Apply(w, planId, Managed(a, first));
    var both := Managed(b.(withdrawn := a.withdrawn + b.withdrawn), first + second);
    assert RestingAfter(mid.resting, planId, Managed(b, second)) == RestingAfter(w.resting, planId, both);
    assert (w.log + first) + second == w.log + (first + second);
    assert w.states[planId := a.state] - {planId} == w.states - {planId};
  }

  lemma TrackedStays(w: World, planId: string, o: Outcome)
    requires Tracked(w, planId)
    ensures o.tracked ==>
      var after := Apply(w, planId, Managed(o, []));
      Tracked(after, planId) && after.states[planId] == o.state
  {}

  lemma TrackedStaysAsked(w: World, planId: string, o: Outcome, ops: seq<BrokerOp>)
    requires Tracked(w, planId)
    ensures o.tracked ==>
      var after := Apply(w, planId, Managed(o, ops));
      Tracked(after, planId) && after.states[planId] == o.state
  {}

  /** A stop move after a withdrawal. */
  lemma MovedAfterWithdrawal(w: World, planId: string, o: Outcome, after: State)
    requires Tracked(w, planId) && o.tracked
    ensures
      var unfilled := Apply(w, planId, Managed(o, []));
      Tracked(unfilled, planId)
      && Apply(w, planId, Managed(Outcome(after, true, true, o.withdrawn), []))
         == unfilled.(states := unfilled.states[planId := after])
  {}

  lemma ClassifyWithdrawsNothing(state: State, tick: Tick)
    ensures ClassifyMissingLegs(state, tick).withdrawn == {}
  {}

  /** A withdrawal never drops the plan. */
  lemma NoOutcomeGoOn(c: Config, state: State, withdrawal: Withdrawal)
    ensures WithdrawUnfilled(c, state, withdrawal).tracked
  {}

  lemma BookWithdrawn(plan: Plan, c: Config, state: State, tick: Tick, withdrawn: set<int>)
    requires state.nextTarget < |plan.targets|
    ensures BookTarget(plan, c, state, tick, withdrawn)
         == BookTarget(plan, c, state, tick, {}).(withdrawn := withdrawn + BookTarget(plan, c, state, tick, {}).withdrawn)
  {
    hide Allocation, TargetCloseVolume, RatioFrom, AggregateState, BookedState, LegsAfterCloses, AllClosesSucceeded;
  }

  /** Withdrawing entries changes nothing a close looks at. */
  lemma SameRequests(plan: Plan, c: Config, state: State, tick: Tick)
    ensures
      var unfilled := WithdrawUnfilled(c, state, tick.beforeTp).state;
      CloseRequests(plan.planId, unfilled.legs, Slices(plan, c, unfilled, tick))
      == CloseRequests(plan.planId, state.legs, Slices(plan, c, state, tick))
  {
    hide WithdrawUnfilled, Slices, CloseRequests;
    var unfilled := WithdrawUnfilled(c, state, tick.beforeTp).state;
    WithdrawKeepsBook(c, state, tick.beforeTp);
    SameBookSlices(plan, c, state, unfilled, tick, c.symbol);
    SamePositionsSameRequests(plan.planId, state.legs, unfilled.legs, Slices(plan, c, state, tick));
  }

  lemma {:induction false} SamePositionsSameRequests(planId: string, a: seq<Leg>, b: seq<Leg>, slices: seq<int>)
    requires |a| == |b| == |slices| && forall i :: 0 <= i < |a| ==> a[i].positionId == b[i].positionId
    ensures CloseRequests(planId, a, slices) == CloseRequests(planId, b, slices)
  {
    if a != [] {
      var n := |a| - 1;
      SamePositionsSameRequests(planId, a[..n], b[..n], slices[..n]);
    }
  }

  /** Without slices the broker is asked for nothing. */
  lemma {:induction false} NoSlicesNoRequests(planId: string, legs: seq<Leg>, slices: seq<int>)
    requires |slices| == |legs| && forall i :: 0 <= i < |slices| ==> slices[i] <= 0
    ensures CloseRequests(planId, legs, slices) == []
  {
    if legs != [] {
      NoSlicesNoRequests(planId, legs[..|legs| - 1], slices[..|legs| - 1]);
    }
  }

  lemma {:induction false} ShallowNonNegative(remaining: seq<int>, close: int, step: int)
    requires step > 0 && forall i :: 0 <= i < |remaining| ==> remaining[i] >= 0
    ensures forall i :: 0 <= i < |remaining| ==> ShallowFirst(remaining, close, step)[i] >= 0
  {
    if remaining != [] {
      ShallowNonNegative(remaining[..|remaining| - 1], close, step);
    }
  }

  /** With nothing held, no volume due or nothing allocated, no close is asked for. */
  lemma NothingHeldNothingAsked(plan: Plan, c: Config, state: State, tick: Tick)
    requires state.nextTarget < |plan.targets|
    ensures
      var held := OpenVolumes(state.legs, tick.present);
      var slices := Slices(plan, c, state, tick);
      var idle :=
        || (forall i :: 0 <= i < |held| ==> held[i] <= 0)
        || RatioFrom(plan.targets, state.nextTarget) <= 0.0
        || TargetCloseVolume(Sum(held), plan.targets, state.nextTarget, c.symbol) <= 0
        || Sum(slices) <= 0;
      idle ==> CloseRequests(plan.planId, state.legs, slices) == []
  {
    hide TargetCloseVolume, RatioFrom, CloseRequests, ShallowFirst, StepDown, Sum;
    var held, k := OpenVolumes(state.legs, tick.present), state.nextTarget;
    var slices := Slices(plan, c, state, tick);
    var close := if RatioFrom(plan.targets, k) > 0.0 then TargetCloseVolume(Sum(held), plan.targets, k, c.symbol) else 0;
    if forall i :: 0 <= i < |held| ==> held[i] <= 0 {
      SumAtMost(held, 0);
    }
    var total := Sum(held);
    ShallowNonNegative(held, StepDown(if close <= total then close else total, EffectiveStep(c.symbol)), EffectiveStep(c.symbol));
    if Sum(slices) <= 0 {
      SumNonNegative(slices);
    }
    if forall i :: 0 <= i < |slices| ==> slices[i] <= 0 {
      NoSlicesNoRequests(plan.planId, state.legs, slices);
    }
  }

  lemma SoundIdentities(w: World)
    requires Sound(w)
    ensures forall p :: Tracked(w, p) ==> w.plans[p].planId == p && w.states[p].planId == p
  {}

  /** Withdrawing and then settling is one effect. */
  lemma SettleAfterWithdrawal(w: World, planId: string, state: State, input: CancelInput, after: State)
    ensures
      var gone := WithdrawnOrders(state.legs, input.withdrawal.answers);
      var ops := CancelRequests(planId, state.legs);
      var mid := Apply(w, planId, Effect(Some(after), ops, {}, gone, {}, false));
      Apply(mid, planId, Settled(after, input.settlement))
      == Apply(w, planId, Settled(after, input.settlement).(ops := ops, gone := gone))
  {
    hide WithdrawnOrders, CancelRequests, SettleIntent;
    var gone := WithdrawnOrders(state.legs, input.withdrawal.answers);
    var ops := CancelRequests(planId, state.legs);
    var mid := Apply(w, planId, Effect(Some(after), ops, {}, gone, {}, false));
    assert RestingAfter(mid.resting, planId, Settled(after, input.settlement))
        == RestingAfter(w.resting, planId, Settled(after, input.settlement).(ops := ops, gone := gone));
    assert (w.log + ops) + [] == w.log + ops;
    assert w.states[planId := after] - {planId} == w.states - {planId};
  }

  lemma UnneededReconcile(plan: Plan, state: State, input: ReconcileInput)
    ensures !NeedsSubmittedReconcile(state) || state.legs == [] ==>
              ReconcileSubmittedLegs(plan, state, input) == Unchanged(state)
  {
    hide NeedsSubmittedReconcile, Rederived, CheckPendings, AdoptPositions, LegOrders;
  }

  /** The effect of a reconcile from the run of its two passes. */
  lemma ReconcileEffect(plan: Plan, state: State, input: ReconcileInput, run: ReconcileRun)
    requires NeedsSubmittedReconcile(state) && state.legs != []
    requires run == CheckPendings(plan, input, state, |AdoptPositions(plan, input, state, |input.adoptions|).legs|)
    ensures
      var eff := ReconcileSubmittedLegs(plan, state, input);
      var next := Rederived(run.record, run.legs);
      && eff.ops == [] && eff.rested == {} && !eff.acked
      && eff.gone == LegOrders(state.legs) - input.pending && eff.partial == run.partial
      && eff.next ==
           if !run.ok then Some(state)
           else if run.changed && next.groupStage == GroupCancelled && state.groupStage != GroupCancelled then None
           else if run.changed || next.stage != state.stage || input.idsDiffer then Some(next) else Some(state)
  {
    hide NeedsSubmittedReconcile, Rederived, CheckPendings, AdoptPositions, LegOrders;
  }

  /** An effect that places nothing and sends nothing. */
  lemma ReconcileApplies(w: World, planId: string, eff: Effect)
    requires Tracked(w, planId) && eff.ops == [] && eff.rested == {} && !eff.acked
    ensures Apply(w, planId, eff) == w.(
      plans := if eff.next.Some? then w.plans else w.plans - {planId},
      states := if eff.next.Some? then w.states[planId := eff.next.value] else w.states - {planId},
      resting := map q | q in w.resting && q !in eff.gone :: w.resting[q], partial := w.partial + eff.partial)
  {
    assert RestingAfter(w.resting, planId, eff) == map q | q in w.resting && q !in eff.gone :: w.resting[q];
    assert w.log + [] == w.log;
  }

  lemma ForgetForgets(w: World, planId: string)
    ensures Apply(w, planId, Forgotten()) == w.(plans := w.plans - {planId}, states := w.states - {planId})
  {
    assert RestingAfter(w.resting, planId, Forgotten()) == w.resting;
  }

  lemma NextLeg(plan: Plan, declared: seq<Declared>, input: SubmitInput, state: State, index: nat)
    requires state.submittedLegCount <= index < |declared|
    requires SubmitLegs(plan, declared, input, state, index).goOn
    ensures SubmitLegs(plan, declared, input, state, index + 1)
         == SubmitLeg(plan, declared, input, index, SubmitLegs(plan, declared, input, state, index))
  {}

  lemma ResumeLeg(plan: Plan, declared: seq<Declared>, input: SubmitInput, state: State)
    ensures
      var index := if state.submittedLegCount <= |declared| then state.submittedLegCount else |declared|;
      SubmitLegs(plan, declared, input, state, index) == StartRun(state, declared)
  {}
}
