/** Over any interleaving of polls, failed placements and resumes, each declared leg gets at
    most one accepted broker order. */
module SubmissionSafety {
  import opened Common
  import opened TradePlanModel
  import opened PositionManagement
  import opened TargetLadder
  import opened OppositeExposureFence
  import opened RuntimeModel
  import opened RuntimeWorld
  import opened RuntimeSteps
  import Sizing

  /** The leg is among the first `count` declared ones. */
  predicate AmongSubmitted(plan: Plan, count: nat, legId: string) {
    exists k :: 0 <= k < count && k < |LegIds(plan)| && LegIds(plan)[k] == legId
  }

  /** The plan declares its leg i as a market order. */
  predicate DeclaredMarket(plan: Plan, i: nat) {
    && (plan.entry.kind == LimitLadder || plan.entry.kind == MarketWithLimitScale)
    && i < |plan.entry.legs| && OrderTypeOf(plan, i) == Some(MarketOrder)
  }

  predicate FirstOfItsId(plan: Plan, i: nat) {
    i < |LegIds(plan)| && forall k :: 0 <= k < i ==> LegIds(plan)[k] != LegIds(plan)[i]
  }

  /** The id of the risk leg is left to the risk leg. */
  predicate RiskIdReserved(plan: Plan) {
    plan.entry.riskLeg.Some? ==> forall i :: 0 <= i < |LegIds(plan)| ==> LegIds(plan)[i] != RISK_LEG_ID
  }

  /** Leg i is the first of its id, comes again at j, and can rest at the broker. */
  predicate ReusedAt(plan: Plan, i: nat, j: nat) {
    i < j < |LegIds(plan)| && LegIds(plan)[i] == LegIds(plan)[j] && FirstOfItsId(plan, i) && !DeclaredMarket(plan, i)
  }

  /** No id is declared again after a leg that can rest: ids differ, or the first leg of a
      repeated one is declared a market order. */
  predicate SafelyIdentified(plan: Plan) {
    RiskIdReserved(plan) && forall i, j :: 0 <= i < j < |LegIds(plan)| ==> !ReusedAt(plan, i, j)
  }

  lemma {:induction false} FirstIndex(plan: Plan, k: nat) returns (i: nat)
    requires k < |LegIds(plan)|
    ensures i <= k && FirstOfItsId(plan, i) && LegIds(plan)[i] == LegIds(plan)[k]
  {
    hide LegIds;
    if FirstOfItsId(plan, k) {
      i := k;
    } else {
      var m :| 0 <= m < k && LegIds(plan)[m] == LegIds(plan)[k];
      i := FirstIndex(plan, m);
    }
  }

  /** Declared legs of one attempt: a prefix of the plan's legs, then the risk leg. */
  predicate DeclaredFrom(plan: Plan, declared: seq<Declared>) {
    var n := PlanLegs(plan, declared);
    && 0 <= n <= |LegIds(plan)|
    && (forall i :: 0 <= i < n ==> declared[i].legId == LegIds(plan)[i])
    && (forall i :: 0 <= i < n && DeclaredMarket(plan, i) ==> declared[i].orderType == Some(MarketOrder))
    && (plan.entry.riskLeg.Some? ==> declared[n].legId == RISK_LEG_ID)
  }

  /** How many of an attempt's legs are the plan's own. */
  function PlanLegs(plan: Plan, declared: seq<Declared>): int {
    if plan.entry.riskLeg.Some? then |declared| - 1 else |declared|
  }

  lemma DeclaredLegsFrom(plan: Plan, sizing: Sizing.VolumePlan, symbol: VolumePlanner.SymbolInfo, singleMarket: bool)
    ensures
      var d := DeclaredLegs(plan, sizing, symbol, singleMarket);
      d.Some? ==> DeclaredFrom(plan, d.value)
  {}

  // ----- what a pending record knows of its ladder ------------------------------------------------

  predicate HasPosition(legs: seq<Leg>, legId: string) {
    exists i :: 0 <= i < |legs| && legs[i].legId == legId && legs[i].positionId.Some?
  }

  /** Legs declared as market orders and worked through hold a position. */
  predicate MarketLegsHeld(plan: Plan, legs: seq<Leg>, count: nat) {
    forall k :: 0 <= k < count && FirstOfItsId(plan, k) && DeclaredMarket(plan, k) ==> HasPosition(legs, LegIds(plan)[k])
  }

  /** Only legs worked through can be the broker's. */
  predicate OwnedSubmitted(plan: Plan, legs: seq<Leg>, count: nat) {
    forall i :: 0 <= i < |legs| && AlreadyOwned(legs[i]) ==> AmongSubmitted(plan, count, legs[i].legId)
  }

  predicate Kept(plan: Plan, legs: seq<Leg>, count: nat) {
    MarketLegsHeld(plan, legs, count) && OwnedSubmitted(plan, legs, count) && DistinctLegs(legs)
  }

  predicate LadderKept(plan: Plan, state: State) {
    IsPendingEntryStage(state) ==> Kept(plan, state.legs, state.submittedLegCount)
  }

  lemma HeldMeansOwned(legs: seq<Leg>, legId: string)
    requires DistinctLegs(legs) && HasPosition(legs, legId)
    ensures OwnedAlready(legs, legId)
  {}

  lemma OwnedIsSubmitted(plan: Plan, legs: seq<Leg>, count: nat, legId: string)
    requires OwnedSubmitted(plan, legs, count) && OwnedAlready(legs, legId)
    ensures AmongSubmitted(plan, count, legId)
  {}

  lemma MoreSubmitted(plan: Plan, count: nat, more: nat, legId: string)
    requires AmongSubmitted(plan, count, legId) && count <= more
    ensures AmongSubmitted(plan, more, legId)
  {}

  /** A leg placed now was never worked through before. */
  lemma PlacedIsFresh(plan: Plan, legs: seq<Leg>, count: nat, index: nat)
    requires SafelyIdentified(plan) && Kept(plan, legs, count) && count <= index < |LegIds(plan)|
    requires !OwnedAlready(legs, LegIds(plan)[index])
    ensures !AmongSubmitted(plan, count, LegIds(plan)[index])
  {
    hide LegIds, OwnedAlready, DeclaredMarket, FirstOfItsId, OwnedSubmitted, HasPosition, DistinctLegs;
    var legId := LegIds(plan)[index];
    if AmongSubmitted(plan, count, legId) {
      var k :| 0 <= k < count && k < |LegIds(plan)| && LegIds(plan)[k] == legId;
      var i := FirstIndex(plan, k);
      assert !ReusedAt(plan, i, index);
      assert HasPosition(legs, LegIds(plan)[i]);
      HeldMeansOwned(legs, legId);
    }
  }

  /** Skipping an owned leg keeps the ladder. */
  lemma SkipKeepsLadder(plan: Plan, legs: seq<Leg>, index: nat)
    requires Kept(plan, legs, index) && index < |LegIds(plan)| && OwnedAlready(legs, LegIds(plan)[index])
    ensures Kept(plan, legs, index + 1)
  {
    hide LegIds, DeclaredMarket, HasPosition, DistinctLegs, AlreadyOwned;
    OwnedIsSubmitted(plan, legs, index, LegIds(plan)[index]);
    assert !FirstOfItsId(plan, index);
    forall i | 0 <= i < |legs| && AlreadyOwned(legs[i])
      ensures AmongSubmitted(plan, index + 1, legs[i].legId)
    {
      MoreSubmitted(plan, index, index + 1, legs[i].legId);
    }
  }

  lemma UpsertHolds(legs: seq<Leg>, leg: Leg, legId: string)
    requires DistinctLegs(legs) && !OwnedAlready(legs, leg.legId)
    ensures HasPosition(legs, legId) ==> HasPosition(UpsertLeg(legs, leg), legId)
    ensures leg.positionId.Some? ==> HasPosition(UpsertLeg(legs, leg), leg.legId)
    ensures OwnedAlready(legs, legId) ==> OwnedAlready(UpsertLeg(legs, leg), legId)
    ensures AlreadyOwned(leg) ==> OwnedAlready(UpsertLeg(legs, leg), leg.legId)
  {
    var after, at := UpsertLeg(legs, leg), FindLeg(legs, leg.legId);
    UpsertDistinct(legs, leg);
    assert after[if at < 0 then |legs| else at] == leg;
    assert forall i :: 0 <= i < |legs| && i != at ==> after[i] == legs[i];
    if i :| 0 <= i < |legs| && legs[i].legId == legId && legs[i].positionId.Some? {
      assert i != at;
      assert after[i] == legs[i];
    }
  }

  /** Placing a leg keeps the ladder. */
  lemma PlacingKeepsLadder(plan: Plan, legs: seq<Leg>, leg: Leg, index: nat)
    requires Kept(plan, legs, index) && index < |LegIds(plan)| && leg.legId == LegIds(plan)[index]
    requires !OwnedAlready(legs, leg.legId) && (DeclaredMarket(plan, index) ==> leg.positionId.Some?)
    ensures Kept(plan, UpsertLeg(legs, leg), index + 1)
  {
    hide LegIds, DeclaredMarket, HasPosition, AlreadyOwned, FirstOfItsId, DistinctLegs, OwnedAlready;
    var after := UpsertLeg(legs, leg);
    UpsertDistinct(legs, leg);
    forall k | 0 <= k < index + 1 && FirstOfItsId(plan, k) && DeclaredMarket(plan, k)
      ensures HasPosition(after, LegIds(plan)[k])
    {
      UpsertHolds(legs, leg, if k < |LegIds(plan)| then LegIds(plan)[k] else "");
    }
    assert AmongSubmitted(plan, index + 1, leg.legId);
    forall i | 0 <= i < |after| && AlreadyOwned(after[i])
      ensures AmongSubmitted(plan, index + 1, after[i].legId)
    {
      if after[i] != leg {
        assert i < |legs| && after[i] == legs[i];
        MoreSubmitted(plan, index, index + 1, legs[i].legId);
      }
    }
  }

  // ----- one attempt ------------------------------------------------------------------------------

  predicate OfPart(declared: seq<Declared>, from: nat, upto: nat, legId: string) {
    exists k :: from <= k < upto && k < |declared| && declared[k].legId == legId
  }

  /** Accepted orders of an attempt: different legs, each from its own part of the ladder and
      none worked through before; all of them the broker's by now. */
  predicate PlacedFrom(
    plan: Plan, declared: seq<Declared>, ops: seq<BrokerOp>, legs: seq<Leg>, from: nat, upto: nat) {
    && (forall i :: 0 <= i < |ops| ==>
          && ops[i].Placed? && ops[i].planId == plan.planId
          && OfPart(declared, from, upto, ops[i].legId)
          && !AmongSubmitted(plan, from, ops[i].legId)
          && OwnedAlready(legs, ops[i].legId))
    && forall i, j :: 0 <= i < j < |ops| && ops[i].Placed? && ops[j].Placed? ==> ops[i].legId != ops[j].legId
  }

  function Later(a: nat, b: nat): nat { if a >= b then a else b }

  predicate LadderRun(plan: Plan, declared: seq<Declared>, state: State, run: SubmitRun, upto: nat) {
    var from := state.submittedLegCount;
    && DistinctLegs(run.working.legs)
    && PlacedFrom(plan, declared, run.ops, run.working.legs, from, upto)
    && (run.goOn && upto <= PlanLegs(plan, declared) ==> Kept(plan, run.working.legs, Later(upto, from)))
    && (IsPendingEntryStage(run.saved) ==>
          && (forall i :: 0 <= i < |run.ops| && run.ops[i].Placed? ==>
                AmongSubmitted(plan, run.saved.submittedLegCount, run.ops[i].legId))
          && Kept(plan, run.saved.legs, run.saved.submittedLegCount))
  }

  lemma PlacedFromWider(
    plan: Plan, declared: seq<Declared>, ops: seq<BrokerOp>, legs: seq<Leg>, from: nat, upto: nat, wider: nat)
    requires PlacedFrom(plan, declared, ops, legs, from, upto) && upto <= wider
    ensures PlacedFrom(plan, declared, ops, legs, from, wider)
  {
    assert forall i :: 0 <= i < |ops| && OfPart(declared, from, upto, ops[i].legId) ==>
      OfPart(declared, from, wider, ops[i].legId);
  }

  lemma PlacedFromSnoc(
    plan: Plan, declared: seq<Declared>, ops: seq<BrokerOp>, legs: seq<Leg>, leg: Leg, from: nat, index: nat)
    requires PlacedFrom(plan, declared, ops, legs, from, index) && from <= index < |declared| && DistinctLegs(legs)
    requires leg.legId == declared[index].legId && !OwnedAlready(legs, leg.legId) && AlreadyOwned(leg)
    requires !AmongSubmitted(plan, from, leg.legId)
    ensures PlacedFrom(plan, declared, ops + [Placed(plan.planId, leg.legId)], UpsertLeg(legs, leg), from, index + 1)
  {
    hide OwnedAlready, AlreadyOwned, UpsertLeg, AmongSubmitted, DistinctLegs;
    PlacedFromWider(plan, declared, ops, legs, from, index, index + 1);
    UpsertHolds(legs, leg, leg.legId);
    assert OfPart(declared, from, index + 1, leg.legId);
    forall i | 0 <= i < |ops|
      ensures OwnedAlready(UpsertLeg(legs, leg), ops[i].legId) && ops[i].legId != leg.legId
    {
      UpsertHolds(legs, leg, ops[i].legId);
    }
  }

  /** The risk leg is never the broker's while its plan is pending. */
  lemma RiskNotOwned(plan: Plan, legs: seq<Leg>, count: nat)
    requires RiskIdReserved(plan) && plan.entry.riskLeg.Some? && OwnedSubmitted(plan, legs, count)
    ensures !OwnedAlready(legs, RISK_LEG_ID) && !AmongSubmitted(plan, count, RISK_LEG_ID)
  {
    hide LegIds;
    if OwnedAlready(legs, RISK_LEG_ID) {
      OwnedIsSubmitted(plan, legs, count, RISK_LEG_ID);
    }
  }

  lemma DeclaredAt(plan: Plan, declared: seq<Declared>, index: nat)
    requires DeclaredFrom(plan, declared) && index < |declared|
    ensures index < PlanLegs(plan, declared) ==>
      && index < |LegIds(plan)| && declared[index].legId == LegIds(plan)[index]
      && (DeclaredMarket(plan, index) ==> declared[index].orderType == Some(MarketOrder))
    ensures index >= PlanLegs(plan, declared) ==>
      plan.entry.riskLeg.Some? && declared[index].legId == RISK_LEG_ID && index == |declared| - 1
  {
    hide LegIds, DeclaredMarket;
  }

  /** The next leg of an attempt is already the broker's. */
  lemma SkipStep(
    plan: Plan, declared: seq<Declared>, input: SubmitInput, state: State, index: nat, run: SubmitRun)
    requires SafelyIdentified(plan) && DeclaredFrom(plan, declared) && index < |declared|
    requires state.submittedLegCount <= index && run.goOn && LadderRun(plan, declared, state, run, index)
    requires OwnedAlready(run.working.legs, declared[index].legId)
    ensures LadderRun(plan, declared, state, SubmitLeg(plan, declared, input, index, run), index + 1)
  {
    hide LegIds, AggregateState, OwnedAlready, PlacedFrom, Kept, DeclaredFrom, DistinctLegs, AmongSubmitted, SafelyIdentified;
    var from, n := state.submittedLegCount, PlanLegs(plan, declared);
    DeclaredAt(plan, declared, index);
    PlacedFromWider(plan, declared, run.ops, run.working.legs, from, index, index + 1);
    KeptAt(plan, declared, run.working.legs, index);
    SkipKeepsLadder(plan, run.working.legs, index);
    SubmittedByNow(plan, declared, run.ops, run.working.legs, from, index);
    AggregateMeans(run.working.(submittedLegCount := index + 1));
  }

  lemma AggregateMeans(state: State)
    ensures AggregateState(state).legs == state.legs
    ensures AggregateState(state).submittedLegCount == state.submittedLegCount
    ensures AggregateState(state).stage == Submitting <==> state.stage == Submitting
    ensures IsPendingEntryStage(AggregateState(state)) <==> state.stage == Submitting
  {
    DerivedRange(state.legs);
  }

  /** While the ladder is kept, the leg at hand is one of the plan's own if it is owned. */
  lemma KeptAt(plan: Plan, declared: seq<Declared>, legs: seq<Leg>, index: nat)
    requires SafelyIdentified(plan) && DeclaredFrom(plan, declared) && index < |declared|
    requires index <= PlanLegs(plan, declared) && Kept(plan, legs, index)
    requires OwnedAlready(legs, declared[index].legId)
    ensures index < PlanLegs(plan, declared)
  {
    hide LegIds, OwnedAlready, MarketLegsHeld, DistinctLegs;
    if index >= PlanLegs(plan, declared) {
      RiskNotOwned(plan, legs, index);
    }
  }

  /** What was placed so far lies before the leg that comes next. */
  lemma SubmittedByNow(
    plan: Plan, declared: seq<Declared>, ops: seq<BrokerOp>, legs: seq<Leg>, from: nat, index: nat)
    requires DeclaredFrom(plan, declared) && index < |declared| && PlacedFrom(plan, declared, ops, legs, from, index)
    ensures forall i :: 0 <= i < |ops| && ops[i].Placed? ==> AmongSubmitted(plan, index + 1, ops[i].legId)
  {
    hide LegIds, DeclaredMarket, OwnedAlready;
    forall i | 0 <= i < |ops| && ops[i].Placed?
      ensures AmongSubmitted(plan, index + 1, ops[i].legId)
    {
      var k :| from <= k < index && k < |declared| && declared[k].legId == ops[i].legId;
      assert LegIds(plan)[k] == ops[i].legId;
    }
  }

  /** The next leg of an attempt is accepted by the broker. */
  lemma PlaceStep(
    plan: Plan, declared: seq<Declared>, input: SubmitInput, state: State, index: nat, run: SubmitRun, leg: Leg)
    requires SafelyIdentified(plan) && DeclaredFrom(plan, declared) && index < |declared|
    requires state.submittedLegCount <= index && run.goOn && LadderRun(plan, declared, state, run, index)
    requires !OwnedAlready(run.working.legs, declared[index].legId)
    requires AcceptedLeg(declared[index], UsesMarket(declared[index], plan.direction, input.bid, input.ask),
               PlacementFor(input, index)) == Some(leg)
    ensures LadderRun(plan, declared, state, SubmitLeg(plan, declared, input, index, run), index + 1)
  {
    hide LegIds, AggregateState, OwnedAlready, PlacedFrom, Kept, DeclaredFrom, DistinctLegs, AmongSubmitted,
      SafelyIdentified, AfterAccept, UpsertLeg;
    var from, n := state.submittedLegCount, PlanLegs(plan, declared);
    var next := AfterAccept(plan, run.working, leg, index, |declared|);
    DeclaredAt(plan, declared, index);
    AfterAcceptMeans(plan, run.working, leg, index, |declared|);
    LegAccepted(declared[index], plan, input, index, leg);
    UpsertDistinct(run.working.legs, leg);
    FreshAt(plan, declared, run.working.legs, from, index);
    PlacedFromSnoc(plan, declared, run.ops, run.working.legs, leg, from, index);
    if index < n {
      PlacingKeepsLadder(plan, run.working.legs, leg, index);
      if index + 1 < |declared| {
        SubmittedByNow(plan, declared, run.ops + [Placed(plan.planId, leg.legId)], next.legs, from, index + 1);
        NextSubmitted(plan, declared, run.ops + [Placed(plan.planId, leg.legId)], next.legs, from, index + 1);
      }
    }
  }

  lemma NextSubmitted(
    plan: Plan, declared: seq<Declared>, ops: seq<BrokerOp>, legs: seq<Leg>, from: nat, upto: nat)
    requires DeclaredFrom(plan, declared) && upto <= PlanLegs(plan, declared)
    requires PlacedFrom(plan, declared, ops, legs, from, upto)
    ensures forall i :: 0 <= i < |ops| && ops[i].Placed? ==> AmongSubmitted(plan, upto, ops[i].legId)
  {
    hide LegIds, DeclaredMarket, OwnedAlready;
    forall i | 0 <= i < |ops| && ops[i].Placed?
      ensures AmongSubmitted(plan, upto, ops[i].legId)
    {
      var k :| from <= k < upto && k < |declared| && declared[k].legId == ops[i].legId;
      assert LegIds(plan)[k] == ops[i].legId;
    }
  }

  lemma AfterAcceptMeans(plan: Plan, working: State, leg: Leg, index: nat, count: nat)
    ensures
      var next := AfterAccept(plan, working, leg, index, count);
      && next.legs == UpsertLeg(working.legs, leg) && next.submittedLegCount == index + 1
      && (IsPendingEntryStage(next) <==> index + 1 < count)
  {
    hide UpsertLeg, WeightedFillPrice, DeriveRuntimeStage, DeriveGroupStage;
    DerivedRange(UpsertLeg(working.legs, leg));
  }

  lemma LegAccepted(declared: Declared, plan: Plan, input: SubmitInput, index: nat, leg: Leg)
    requires AcceptedLeg(declared, UsesMarket(declared, plan.direction, input.bid, input.ask),
               PlacementFor(input, index)) == Some(leg)
    ensures leg.legId == declared.legId && AlreadyOwned(leg)
    ensures declared.orderType == Some(MarketOrder) ==> leg.positionId.Some?
  {}

  /** A leg the broker does not own was never worked through. */
  lemma FreshAt(plan: Plan, declared: seq<Declared>, legs: seq<Leg>, from: nat, index: nat)
    requires SafelyIdentified(plan) && DeclaredFrom(plan, declared) && from <= index < |declared|
    requires index <= PlanLegs(plan, declared) && Kept(plan, legs, index)
    requires !OwnedAlready(legs, declared[index].legId)
    ensures !AmongSubmitted(plan, from, declared[index].legId)
  {
    hide LegIds, OwnedAlready, Kept, DeclaredFrom, ReusedAt, RiskIdReserved;
    DeclaredAt(plan, declared, index);
    if index < PlanLegs(plan, declared) {
      PlacedIsFresh(plan, legs, index, index);
    } else {
      KeptMeans(plan, legs, index);
      RiskNotOwned(plan, legs, index);
    }
    if AmongSubmitted(plan, from, declared[index].legId) {
      MoreSubmitted(plan, from, index, declared[index].legId);
    }
  }

  lemma KeptMeans(plan: Plan, legs: seq<Leg>, count: nat)
    requires Kept(plan, legs, count)
    ensures OwnedSubmitted(plan, legs, count) && DistinctLegs(legs)
  {}

  /** No placement of the attempt was accepted and reported as failed. */
  predicate RepliesKept(input: SubmitInput) {
    forall k :: 0 <= k < |input.placements| ==> !input.placements[k].ReplyLost?
  }

  /** A refused placement leaves nothing at the broker. */
  lemma NothingLost(planId: string, legId: string, market: bool, input: SubmitInput, index: nat)
    requires RepliesKept(input)
    ensures LostOps(planId, legId, PlacementFor(input, index)) == []
    ensures LostOrder(market, PlacementFor(input, index)) == {}
  {}

  lemma LadderStep(
    plan: Plan, declared: seq<Declared>, input: SubmitInput, state: State, index: nat, run: SubmitRun)
    requires RepliesKept(input)
    requires SafelyIdentified(plan) && DeclaredFrom(plan, declared) && index < |declared|
    requires state.submittedLegCount <= index && run.goOn && LadderRun(plan, declared, state, run, index)
    ensures LadderRun(plan, declared, state, SubmitLeg(plan, declared, input, index, run), index + 1)
  {
    hide LadderRun, OwnedAlready, AcceptedLeg, UsesMarket, AfterAccept, AggregateState, SafelyIdentified, DeclaredFrom,
      RepliesKept, LostOps, LostOrder;
    if OwnedAlready(run.working.legs, declared[index].legId) {
      SkipStep(plan, declared, input, state, index, run);
    } else {
      var leg := AcceptedLeg(declared[index], UsesMarket(declared[index], plan.direction, input.bid, input.ask),
        PlacementFor(input, index));
      if leg.Some? {
        PlaceStep(plan, declared, input, state, index, run, leg.value);
      } else {
        NothingLost(plan.planId, declared[index].legId,
          UsesMarket(declared[index], plan.direction, input.bid, input.ask), input, index);
        assert run.ops + [] == run.ops && run.rested + {} == run.rested;
        StoppedStep(plan, declared, state, index, run);
      }
    }
  }

  lemma StoppedStep(plan: Plan, declared: seq<Declared>, state: State, index: nat, run: SubmitRun)
    requires LadderRun(plan, declared, state, run, index)
    ensures LadderRun(plan, declared, state, run.(goOn := false), index + 1)
  {
    hide PlacedFrom, Kept, DistinctLegs, AmongSubmitted;
    PlacedFromWider(plan, declared, run.ops, run.working.legs, state.submittedLegCount, index, index + 1);
  }

  lemma {:induction false} PlannedKeepsLadder(plan: Plan, legs: seq<Leg>, declared: seq<Declared>, count: nat)
    requires Kept(plan, legs, count)
    ensures Kept(plan, EnsurePlannedLegs(legs, declared), count)
  {
    hide LegIds, DeclaredMarket, FirstOfItsId;
    if declared != [] {
      var n := |declared| - 1;
      PlannedKeepsLadder(plan, legs, declared[..n], count);
      var rest := EnsurePlannedLegs(legs, declared[..n]);
      if FindLeg(rest, declared[n].legId) < 0 {
        PlannedAppended(plan, rest, PlannedLeg(declared[n]), count);
      }
    }
  }

  lemma PlannedAppended(plan: Plan, legs: seq<Leg>, leg: Leg, count: nat)
    requires Kept(plan, legs, count) && FindLeg(legs, leg.legId) < 0 && !AlreadyOwned(leg)
    ensures Kept(plan, legs + [leg], count)
  {
    hide LegIds, DeclaredMarket;
    var after := legs + [leg];
    forall k | 0 <= k < count && FirstOfItsId(plan, k) && DeclaredMarket(plan, k)
      ensures HasPosition(after, LegIds(plan)[k])
    {
      var i :| 0 <= i < |legs| && legs[i].legId == LegIds(plan)[k] && legs[i].positionId.Some?;
      assert after[i] == legs[i];
    }
  }

  lemma {:induction false} LadderRunHolds(
    plan: Plan, declared: seq<Declared>, input: SubmitInput, state: State, upto: nat)
    requires SafelyIdentified(plan) && DeclaredFrom(plan, declared) && upto <= |declared|
    requires IsPendingEntryStage(state) && LadderKept(plan, state) && RepliesKept(input)
    ensures LadderRun(plan, declared, state, SubmitLegs(plan, declared, input, state, upto), upto)
  {
    hide SubmitLeg, SafelyIdentified, DeclaredFrom, Kept, LadderRun, EnsurePlannedLegs, RepliesKept;
    if upto <= state.submittedLegCount {
      PlannedKeepsLadder(plan, state.legs, declared, state.submittedLegCount);
      StartIsKept(plan, declared, state, upto);
    } else {
      LadderRunHolds(plan, declared, input, state, upto - 1);
      var run := SubmitLegs(plan, declared, input, state, upto - 1);
      if run.goOn {
        LadderStep(plan, declared, input, state, upto - 1, run);
      } else {
        StoppedStep(plan, declared, state, upto - 1, run);
        assert run.(goOn := false) == run;
      }
    }
  }

  lemma StartIsKept(plan: Plan, declared: seq<Declared>, state: State, upto: nat)
    requires Kept(plan, state.legs, state.submittedLegCount) && upto <= state.submittedLegCount
    requires Kept(plan, EnsurePlannedLegs(state.legs, declared), state.submittedLegCount)
    ensures LadderRun(plan, declared, state, StartRun(state, declared), upto)
  {
    hide EnsurePlannedLegs, MarketLegsHeld, OwnedSubmitted;
  }

  lemma StartPlacesNothing(state: State, declared: seq<Declared>)
    ensures StartRun(state, declared).ops == []
  {}

  /** What one attempt may add to the broker log of its plan. */
  predicate PlacesFresh(plan: Plan, state: State, eff: Effect) {
    && (forall i :: 0 <= i < |eff.ops| && eff.ops[i].Placed? ==>
          && eff.ops[i].planId == plan.planId && IsPendingEntryStage(state)
          && !AmongSubmitted(plan, state.submittedLegCount, eff.ops[i].legId)
          && (eff.next.Some? && IsPendingEntryStage(eff.next.value) ==>
                AmongSubmitted(plan, eff.next.value.submittedLegCount, eff.ops[i].legId)))
    && (forall i, j :: 0 <= i < j < |eff.ops| && eff.ops[i].Placed? && eff.ops[j].Placed? ==>
          eff.ops[i].legId != eff.ops[j].legId)
  }

  lemma LadderPlacesFresh(plan: Plan, state: State, declared: seq<Declared>, input: SubmitInput)
    requires IsPendingEntryStage(state) && SafelyIdentified(plan) && DeclaredFrom(plan, declared) && LadderKept(plan, state)
    requires RepliesKept(input)
    ensures
      var eff := SubmitLadder(plan, state, declared, input);
      PlacesFresh(plan, state, eff) && (eff.next.Some? ==> LadderKept(plan, eff.next.value))
  {
    hide SubmitLegs, AggregateState, OfPart, UsesMarket, DeclaredFrom, SafelyIdentified, AmongSubmitted, Kept,
      DeriveRuntimeStage, DeriveGroupStage, OwnedAlready, DistinctLegs, RepliesKept;
    LadderRunHolds(plan, declared, input, state, |declared|);
    FinishedNotPending(SubmitLegs(plan, declared, input, state, |declared|).working);
  }

  lemma FinishedNotPending(working: State)
    ensures !IsPendingEntryStage(Finished(working))
  {
    DerivedRange(working.legs);
  }

  lemma MarketPlacesFresh(plan: Plan, state: State, total: int, input: SubmitInput)
    requires IsPendingEntryStage(state) && state.stage == Received && WellFormed(state) && LadderKept(plan, state)
    requires plan.entry.kind == Market || plan.entry.kind == MarketWatch
    requires RepliesKept(input)
    ensures
      var eff := SubmitMarket(plan, state, total, input);
      PlacesFresh(plan, state, eff) && (eff.next.Some? ==> LadderKept(plan, eff.next.value))
  {
    hide WeightedFillPrice, DeriveGroupStage, DeriveRuntimeStage, Kept, RepliesKept, LostOps;
    NothingLost(plan.planId, "L1", true, input, 0);
    match AcceptedLeg(
      Declared("L1", if plan.direction == Buy then input.ask else input.bid, total, Some(MarketOrder)), true,
      PlacementFor(input, 0))
    case None =>
    case Some(leg) => DerivedRange([leg]);
  }

  lemma SubmitPlacesFresh(
    plan: Plan, state: State, config: RuntimeConfig, input: SubmitInput, verdict: Option<Verdict>)
    requires WellFormed(state) && SafelyIdentified(plan) && LadderKept(plan, state) && MarketUntouched(plan, state)
    requires RepliesKept(input)
    ensures
      var eff := TrySubmit(plan, state, config, input, verdict);
      PlacesFresh(plan, state, eff) && (eff.next.Some? ==> LadderKept(plan, eff.next.value))
  {
    hide SubmitLadder, SubmitMarket, DeclaredLegs, SafelyIdentified, AmongSubmitted, DeclaredFrom,
      DeriveRuntimeStage, DeriveGroupStage, LadderKept, RepliesKept;
    if IsPendingEntryStage(state) && input.sizing.Some? {
      if plan.entry.kind == Market || plan.entry.kind == MarketWatch {
        MarketPlacesFresh(plan, state, input.sizing.value.total, input);
      } else {
        DeclaredLegsFrom(plan, input.sizing.value, input.symbol, config.singleMarket);
        match DeclaredLegs(plan, input.sizing.value, input.symbol, config.singleMarket)
        case None =>
        case Some(declared) => LadderPlacesFresh(plan, state, declared, input);
      }
    }
  }

  // ----- the other phases -------------------------------------------------------------------------

  /** Legs keep their ids and positions, and none becomes the broker's. */
  predicate Fades(before: seq<Leg>, after: seq<Leg>) {
    && |before| == |after|
    && forall i :: 0 <= i < |before| ==>
         && before[i].legId == after[i].legId && (before[i].positionId.Some? ==> after[i].positionId.Some?)
         && (AlreadyOwned(after[i]) ==> AlreadyOwned(before[i]))
  }

  lemma FadingKeepsLadder(plan: Plan, before: seq<Leg>, after: seq<Leg>, count: nat)
    requires Kept(plan, before, count) && Fades(before, after)
    ensures Kept(plan, after, count)
  {
    hide LegIds, DeclaredMarket, AmongSubmitted;
    SameIdsDistinct(before, after);
    forall k | 0 <= k < count && FirstOfItsId(plan, k) && DeclaredMarket(plan, k)
      ensures HasPosition(after, LegIds(plan)[k])
    {
      var i :| 0 <= i < |before| && before[i].legId == LegIds(plan)[k] && before[i].positionId.Some?;
      assert after[i].legId == LegIds(plan)[k] && after[i].positionId.Some?;
    }
  }

  lemma CancelFades(legs: seq<Leg>, answers: seq<CancelAnswer>)
    ensures Fades(legs, LegsAfterCancels(legs, answers))
  {}

  lemma CancelKeepsLadder(plan: Plan, state: State, config: RuntimeConfig, input: CancelInput)
    requires WellFormed(state) && LadderKept(plan, state)
    ensures
      var eff := ApplyCancelIntent(plan, state, config, input);
      eff.next.Some? ==> LadderKept(plan, eff.next.value)
  {
    hide SettleIntent, AnyResting, AnyCancellable, HasExpiredWithRestingEntries, Kept, WellFormed,
      CancelUnfilledEntryLegs;
    var after := CancelUnfilledEntryLegs(state, input.withdrawal.answers);
    CancelUnfilledKeeps(plan, state, input.withdrawal.answers);
    CancelUnfilledEvolves(state, input.withdrawal.answers);
    EvolvesWellFormed(state, after);
    SettleEvolves(state);
    SettleEvolves(after);
  }

  lemma CancelUnfilledKeeps(plan: Plan, state: State, answers: seq<CancelAnswer>)
    requires LadderKept(plan, state)
    ensures LadderKept(plan, CancelUnfilledEntryLegs(state, answers))
  {
    hide Kept;
    CancelFades(state.legs, answers);
    AggregateMeans(state.(legs := LegsAfterCancels(state.legs, answers)));
    if state.stage == Submitting {
      FadingKeepsLadder(plan, state.legs, LegsAfterCancels(state.legs, answers), state.submittedLegCount);
    }
  }

  /** Reconciling and managing leave a pending record alone or end its submission. */
  lemma OthersKeepLadder(w: World, config: RuntimeConfig, planId: string, e: Event)
    requires Tracked(w, planId) && WellFormed(w.states[planId]) && LadderKept(w.plans[planId], w.states[planId])
    requires !e.Submit?
    ensures
      var eff := PlanEffect(w, config, planId, e);
      eff.next.Some? ==> LadderKept(w.plans[planId], eff.next.value)
  {
    hide ApplyCancelIntent, CheckPendings, AdoptPositions, NeedsSubmittedReconcile, AggregateState, Kept, WellFormed,
      ManageRequests, ManagePlan, CancelUnfilledEntryLegs, LadderKept, CancelRequests, FlattenCloses;
    var plan, state := w.plans[planId], w.states[planId];
    match e
    case Cancel(_, input) => CancelKeepsLadder(plan, state, config, input);
    case Flatten(_, input) => CancelUnfilledKeeps(plan, state, input.withdrawal.answers);
    case Reconcile(_, input) =>
      var first := AdoptPositions(plan, input, state, |input.adoptions|);
      var run := CheckPendings(plan, input, state, |first.legs|);
      RederivedNotPending(run.record, run.legs);
      LadderKeptMeans(plan, PlanEffect(w, config, planId, e).next);
    case Manage(_, c, tick) =>
      ManagedNotPending(plan, c, state, tick);
      LadderKeptMeans(plan, PlanEffect(w, config, planId, e).next);
    case _ =>
  }

  lemma LadderKeptMeans(plan: Plan, next: Option<State>)
    ensures next.Some? && !IsPendingEntryStage(next.value) ==> LadderKept(plan, next.value)
  {}

  lemma RederivedNotPending(state: State, legs: seq<Leg>)
    ensures !IsPendingEntryStage(Rederived(state, legs))
  {
    DerivedRange(legs);
  }

  lemma ManagedNotPending(plan: Plan, config: Config, state: State, tick: Tick)
    requires WellFormed(state)
    ensures ManagePlan(plan, config, state, tick).state == state
            || !IsPendingEntryStage(ManagePlan(plan, config, state, tick).state)
  {
    hide TakeTarget, MoveStops, ClassifyMissingLegs, AggregateState, DeriveRuntimeStage, DeriveGroupStage;
    if IsManagingStage(state) {
      ManagePlanKeeps(plan, config, state, tick);
      DerivedRange(ManagePlan(plan, config, state, tick).state.legs);
    }
  }

  /** Only a submission attempt places orders. */
  lemma OthersPlaceNothing(w: World, config: RuntimeConfig, planId: string, e: Event)
    requires Tracked(w, planId) && !e.Submit?
    ensures
      var eff := PlanEffect(w, config, planId, e);
      eff.rested == {} && forall i :: 0 <= i < |eff.ops| ==> !eff.ops[i].Placed?
  {
    hide SettleIntent, CancelUnfilledEntryLegs, CheckPendings, AdoptPositions, ManagePlan, AggregateState,
      AnyResting, AnyCancellable, AnyHeld, ReachesBooking, Slices, ClassifyMissingLegs;
  }

  // ----- the whole world ------------------------------------------------------------------------------

  /** No two accepted orders for the same leg of plan p. */
  predicate OncePerLeg(w: World, p: string) {
    && (forall i, j :: 0 <= i < j < |w.log| && w.log[i].Placed? && w.log[j].Placed? && w.log[i].planId == p == w.log[j].planId ==>
          w.log[i].legId != w.log[j].legId)
    && ((exists i :: 0 <= i < |w.log| && w.log[i].Placed? && w.log[i].planId == p) ==> p in w.claimed)
  }

  /** A pending plan's accepted legs all lie before the point where it resumes. */
  predicate ResumesPast(w: World, p: string)
    requires Tracked(w, p)
  {
    && SafelyIdentified(w.plans[p]) && LadderKept(w.plans[p], w.states[p])
    && (IsPendingEntryStage(w.states[p]) ==>
          forall i :: 0 <= i < |w.log| && w.log[i].Placed? && w.log[i].planId == p ==>
            AmongSubmitted(w.plans[p], w.states[p].submittedLegCount, w.log[i].legId))
  }

  predicate SubmissionsSafe(w: World, p: string) {
    OncePerLeg(w, p) && (Tracked(w, p) ==> ResumesPast(w, p))
  }

  predicate OpsOf(ops: seq<BrokerOp>, planId: string) {
    forall i :: 0 <= i < |ops| && ops[i].Placed? ==> ops[i].planId == planId
  }

  lemma ApplyKeepsOnce(w: World, p: string, eff: Effect)
    requires Sound(w) && SubmissionsSafe(w, p) && Tracked(w, p) && PlacesFresh(w.plans[p], w.states[p], eff)
    ensures OncePerLeg(Apply(w, p, eff), p)
  {
    hide SafelyIdentified, LadderKept, AmongSubmitted, RestingAfter, WellFormed, MarketUntouched;
    SoundMeans(w, p);
    var log := w.log + eff.ops;
    forall i, j | 0 <= i < j < |log| && log[i].Placed? && log[j].Placed? && log[i].planId == p == log[j].planId
      ensures log[i].legId != log[j].legId
    {
      if i < |w.log| <= j {
        assert log[j] == eff.ops[j - |w.log|];
      } else if |w.log| <= i {
        assert log[i] == eff.ops[i - |w.log|] && log[j] == eff.ops[j - |w.log|];
      }
    }
  }

  lemma ApplyKeepsResume(w: World, p: string, eff: Effect)
    requires Sound(w) && SubmissionsSafe(w, p) && Tracked(w, p) && PlacesFresh(w.plans[p], w.states[p], eff)
    requires eff.next.Some? ==> Evolves(w.states[p], eff.next.value) && LadderKept(w.plans[p], eff.next.value)
    ensures Tracked(Apply(w, p, eff), p) ==> ResumesPast(Apply(w, p, eff), p)
  {
    hide SafelyIdentified, LadderKept, AmongSubmitted, RestingAfter, WellFormed, MarketUntouched;
    SoundMeans(w, p);
    var after := Apply(w, p, eff);
    if Tracked(after, p) && IsPendingEntryStage(after.states[p]) {
      forall i | 0 <= i < |after.log| && after.log[i].Placed? && after.log[i].planId == p
        ensures AmongSubmitted(after.plans[p], after.states[p].submittedLegCount, after.log[i].legId)
      {
        if i < |w.log| {
          assert w.log[i] == after.log[i];
          MoreSubmitted(w.plans[p], w.states[p].submittedLegCount, after.states[p].submittedLegCount, w.log[i].legId);
        } else {
          assert after.log[i] == eff.ops[i - |w.log|];
        }
      }
    }
  }

  /** Another plan's phase leaves everything of p as it was. */
  lemma OthersApply(w: World, q: string, eff: Effect, p: string)
    requires SubmissionsSafe(w, p) && Tracked(w, q) && q != p && OpsOf(eff.ops, q)
    ensures SubmissionsSafe(Apply(w, q, eff), p)
  {
    hide SafelyIdentified, LadderKept, AmongSubmitted, RestingAfter;
    var log := w.log + eff.ops;
    forall i | |w.log| <= i < |log| && log[i].Placed?
      ensures log[i].planId == q
    {
      assert log[i] == eff.ops[i - |w.log|];
    }
    assert forall i :: 0 <= i < |w.log| ==> log[i] == w.log[i];
  }

  lemma EffectPlacesFresh(w: World, config: RuntimeConfig, planId: string, e: Event)
    requires Sound(w) && SubmissionsSafe(w, planId) && Tracked(w, planId)
    requires e.Submit? ==> RepliesKept(e.submit)
    ensures
      var eff := PlanEffect(w, config, planId, e);
      && PlacesFresh(w.plans[planId], w.states[planId], eff)
      && (eff.next.Some? ==>
            Evolves(w.states[planId], eff.next.value) && LadderKept(w.plans[planId], eff.next.value))
  {
    hide TrySubmit, ApplyCancelIntent, ReconcileSubmittedLegs, RuntimeModel.ManageOpenPositions,
      CheckOppositeExposure, WellFormed, AmongSubmitted, SafelyIdentified, Sound, LadderKept, RepliesKept, FlattenPlan;
    SoundMeans(w, planId);
    PlanEffectEvolves(w, config, planId, e);
    if e.Submit? {
      SubmitPlacesFresh(w.plans[planId], w.states[planId], config, e.submit,
        CheckOppositeExposure(w.plans, w.states, config.policies, w.plans[planId], e.submit));
    } else {
      OthersPlaceNothing(w, config, planId, e);
      OthersKeepLadder(w, config, planId, e);
    }
  }

  lemma {:induction false} AttemptPlacesOwn(
    plan: Plan, declared: seq<Declared>, input: SubmitInput, state: State, upto: nat)
    requires upto <= |declared|
    ensures OpsOf(SubmitLegs(plan, declared, input, state, upto).ops, plan.planId)
  {
    hide SubmitLeg;
    if upto > state.submittedLegCount {
      AttemptPlacesOwn(plan, declared, input, state, upto - 1);
      LegPlacesOwn(plan, declared, input, upto - 1, SubmitLegs(plan, declared, input, state, upto - 1));
    }
  }

  lemma LegPlacesOwn(plan: Plan, declared: seq<Declared>, input: SubmitInput, index: nat, run: SubmitRun)
    requires index < |declared| && OpsOf(run.ops, plan.planId)
    ensures OpsOf(SubmitLeg(plan, declared, input, index, run).ops, plan.planId)
  {
    hide AfterAccept, OwnedAlready, AggregateState, UsesMarket;
  }

  /** A phase places orders for its own plan only. */
  lemma EffectOpsOf(w: World, config: RuntimeConfig, planId: string, e: Event)
    requires Sound(w) && Tracked(w, planId)
    ensures OpsOf(PlanEffect(w, config, planId, e).ops, planId)
  {
    hide DeclaredLegs, CheckOppositeExposure, WellFormed, MarketUntouched, AggregateState, SubmitLegs, UsesMarket,
      DeriveRuntimeStage, DeriveGroupStage;
    SoundMeans(w, planId);
    if e.Submit? {
      if e.submit.sizing.Some? {
        match DeclaredLegs(w.plans[planId], e.submit.sizing.value, e.submit.symbol, config.singleMarket)
        case None =>
        case Some(declared) =>
          AttemptPlacesOwn(w.plans[planId], declared, e.submit, w.states[planId], |declared|);
      }
    } else {
      OthersPlaceNothing(w, config, planId, e);
    }
  }

  lemma ArmKeepsOnce(w: World, plan: Plan, sized: bool, recorded: bool, p: string)
    requires Sound(w) && SubmissionsSafe(w, p) && (plan.planId == p ==> SafelyIdentified(plan))
    ensures SubmissionsSafe(ArmPlan(w, plan, sized, recorded), p)
  {
    hide SafelyIdentified, AmongSubmitted, Validates, HasBlockingSameDirectionLivePlan, WellFormed;
  }

  /** The event is no submission of p with a reply lost. */
  predicate KnownReplies(e: Event, p: string) {
    e.Submit? && e.planId == p ==> RepliesKept(e.submit)
  }

  lemma StepKeepsOnce(w: World, config: RuntimeConfig, e: Event, p: string)
    requires Sound(w) && SubmissionsSafe(w, p) && (e.Arm? && e.plan.planId == p ==> SafelyIdentified(e.plan))
    requires KnownReplies(e, p)
    ensures SubmissionsSafe(Step(w, config, e), p)
  {
    hide Apply, PlanEffect, ArmPlan, OncePerLeg, ResumesPast, Sound, SafelyIdentified, PlacesFresh, Evolves, LadderKept,
      OpsOf, RepliesKept;
    match e
    case Arm(plan, sized, recorded) => ArmKeepsOnce(w, plan, sized, recorded, p);
    case OrderGone(orderId) => GoneKeepsOnce(w, orderId, p);
    case _ =>
      if Tracked(w, e.planId) {
        var eff := PlanEffect(w, config, e.planId, e);
        if e.planId == p {
          EffectPlacesFresh(w, config, p, e);
          ApplyKeepsOnce(w, p, eff);
          ApplyKeepsResume(w, p, eff);
        } else {
          EffectOpsOf(w, config, e.planId, e);
          OthersApply(w, e.planId, eff, p);
        }
      }
  }

  lemma GoneKeepsOnce(w: World, orderId: int, p: string)
    requires SubmissionsSafe(w, p)
    ensures SubmissionsSafe(w.(resting := w.resting - {orderId}), p)
  {
    hide SafelyIdentified, AmongSubmitted, LadderKept;
  }

  /** The theorem: whatever order the phases of any number of plans run in, whichever
      placements are refused, however plans are re-sized and resumed, no leg of a safely
      identified plan is ever accepted twice by the broker, as long as every placement of
      that plan the broker accepts is reported so. */
  lemma {:induction false} EachLegAcceptedAtMostOnce(config: RuntimeConfig, events: seq<Event>, p: string)
    requires forall k :: 0 <= k < |events| && events[k].Arm? && events[k].plan.planId == p ==>
      SafelyIdentified(events[k].plan)
    requires forall k :: 0 <= k < |events| ==> KnownReplies(events[k], p)
    ensures SubmissionsSafe(Run(config, events), p)
    ensures !AcceptedTwice(Run(config, events), p)
  {
    hide Step, SafelyIdentified, ResumesPast, KnownReplies;
    if events != [] {
      EachLegAcceptedAtMostOnce(config, events[..|events| - 1], p);
      RunIsSound(config, events[..|events| - 1]);
      StepKeepsOnce(Run(config, events[..|events| - 1]), config, events[|events| - 1], p);
    }
  }

  /** Some leg of the plan was accepted twice. */
  predicate AcceptedTwice(w: World, p: string) {
    exists i, j :: 0 <= i < j < |w.log| && w.log[i].Placed? && w.log[j].Placed?
                   && w.log[i].planId == p == w.log[j].planId && w.log[i].legId == w.log[j].legId
  }
}
