/** How a ladder that declares an id again after a leg of it that can rest has it accepted
    twice: the leg is placed, the store fails behind it, the owner's flatten finds its order
    gone, and the next poll resumes the ladder and places the id once more. */
module ReusedLegIds {
  import opened Common
  import opened TradePlanModel
  import opened VolumePlanner
  import opened PositionManagement
  import opened OppositeExposureFence
  import opened RuntimeModel
  import opened RuntimeWorld
  import opened RuntimeSteps
  import opened SubmissionSafety
  import Sizing

  predicate IsLadder(plan: Plan) { plan.entry.kind == LimitLadder || plan.entry.kind == MarketWithLimitScale }

  // ----- two attempts in which the broker accepts everything -----------------------------------

  function UnitSymbol(): SymbolInfo { SymbolInfo(1, 1, 1000, 100, 2) }

  /** Every declared leg gets a slice. */
  function FullSizing(plan: Plan): Sizing.VolumePlan {
    Sizing.VolumePlan(|plan.entry.legs|, seq(|plan.entry.legs|, _ => 1))
  }

  function FullLadder(plan: Plan): (declared: seq<Declared>)
    requires IsLadder(plan)
    ensures DeclaredLegs(plan, FullSizing(plan), UnitSymbol(), false) == Some(declared)
    ensures |declared| >= |LegIds(plan)|
    ensures forall k :: 0 <= k < |LegIds(plan)| ==>
      declared[k].legId == LegIds(plan)[k] && declared[k].price == plan.entry.legs[k].price
      && declared[k].orderType == OrderTypeOf(plan, k)
  {
    DeclaredLegs(plan, FullSizing(plan), UnitSymbol(), false).value
  }

  /** A quote at which a limit at the price rests and market orders keep clear of the stop. */
  function BidFor(plan: Plan, price: real): real {
    if plan.direction == Buy then plan.stopPrice + 1.0 else price - 1.0
  }

  function AskFor(plan: Plan, price: real): real {
    if plan.direction == Buy then price + 1.0 else plan.stopPrice - 1.0
  }

  /** The broker accepts every leg; the record is stored after each leg before `last`. */
  function Attempt(plan: Plan, price: real, last: nat): SubmitInput
    requires IsLadder(plan)
  {
    var d, bid, ask := FullLadder(plan), BidFor(plan, price), AskFor(plan, price);
    SubmitInput(Go, false, Some(Snapshot([], [])), [], bid, ask, UnitSymbol(), Some(FullSizing(plan)),
      seq(|d|, k requires 0 <= k < |d| =>
        if UsesMarket(d[k], plan.direction, bid, ask) then MarketFilled(k, 1.0, 1) else LimitRested(k)),
      seq(last, _ => true))
  }

  lemma EveryLegAccepted(plan: Plan, price: real, last: nat, k: nat)
    requires IsLadder(plan) && k < |FullLadder(plan)|
    ensures
      var d, input := FullLadder(plan)[k], Attempt(plan, price, last);
      var leg := AcceptedLeg(d, UsesMarket(d, plan.direction, input.bid, input.ask), PlacementFor(input, k));
      && leg.Some? && leg.value.legId == d.legId
      && (!UsesMarket(d, plan.direction, input.bid, input.ask) ==>
            leg.value == Leg(d.legId, d.price, d.volume, Some(k), None, None, 0, 0, Pending))
    ensures StoredAfter(Attempt(plan, price, last), k) <==> k < last
  {
    hide FullLadder, UsesMarket;
  }

  lemma AttemptSubmits(plan: Plan, state: State, config: RuntimeConfig, price: real, last: nat)
    requires IsLadder(plan) && !config.singleMarket
    ensures
      var run := SubmitLegs(plan, FullLadder(plan), Attempt(plan, price, last), state, |FullLadder(plan)|);
      SubmitEntry(plan, state, config, Attempt(plan, price, last))
      == Effect(Some(if run.goOn then Finished(run.working) else run.saved), run.ops, run.rested, {}, {}, false)
  {
    hide FullLadder, DeclaredLegs, SubmitLegs, UsesMarket, Finished;
  }

  // ----- the first attempt ------------------------------------------------------------------------

  lemma {:induction false} PlannedNotOwned(legs: seq<Leg>, declared: seq<Declared>, legId: string)
    requires !OwnedAlready(legs, legId)
    ensures !OwnedAlready(EnsurePlannedLegs(legs, declared), legId)
  {
    if declared != [] {
      PlannedNotOwned(legs, declared[..|declared| - 1], legId);
    }
  }

  lemma UpsertOther(legs: seq<Leg>, leg: Leg, legId: string)
    requires leg.legId != legId
    ensures OwnedAlready(UpsertLeg(legs, leg), legId) <==> OwnedAlready(legs, legId)
  {
    var after, at := UpsertLeg(legs, leg), FindLeg(legs, leg.legId);
    assert forall k :: 0 <= k < |legs| && k != at ==> after[k] == legs[k];
    assert at >= 0 ==> after[at] == leg && legs[at].legId == leg.legId;
  }

  /** Working through other legs does not make this one the broker's. */
  lemma OtherLegStep(
    plan: Plan, price: real, last: nat, run: SubmitRun, k: nat, legId: string)
    requires IsLadder(plan) && k < |FullLadder(plan)| && FullLadder(plan)[k].legId != legId && run.goOn
    requires !OwnedAlready(run.working.legs, legId)
    ensures
      var after := SubmitLeg(plan, FullLadder(plan), Attempt(plan, price, last), k, run);
      !OwnedAlready(after.working.legs, legId) && (after.goOn <==> k < last) && run.ops <= after.ops
  {
    hide FullLadder, UsesMarket, OwnedAlready, AfterAccept, AggregateState, AcceptedLeg, Attempt;
    EveryLegAccepted(plan, price, last, k);
    var d, input := FullLadder(plan)[k], Attempt(plan, price, last);
    if !OwnedAlready(run.working.legs, d.legId) {
      var leg := AcceptedLeg(d, UsesMarket(d, plan.direction, input.bid, input.ask), PlacementFor(input, k)).value;
      AfterAcceptMeans(plan, run.working, leg, k, |FullLadder(plan)|);
      UpsertOther(run.working.legs, leg, legId);
    }
  }

  lemma {:induction false} UpToTheLeg(plan: Plan, state: State, price: real, i: nat, upto: nat)
    requires IsLadder(plan) && i < |LegIds(plan)| && FirstOfItsId(plan, i) && upto <= i
    requires state.submittedLegCount == 0 && !OwnedAlready(state.legs, LegIds(plan)[i])
    ensures
      var run := SubmitLegs(plan, FullLadder(plan), Attempt(plan, price, i), state, upto);
      run.goOn && !OwnedAlready(run.working.legs, LegIds(plan)[i])
  {
    hide FullLadder, SubmitLeg, OwnedAlready, LegIds, EnsurePlannedLegs, Attempt;
    var legId := LegIds(plan)[i];
    if upto == 0 {
      PlannedNotOwned(state.legs, FullLadder(plan), legId);
    } else {
      UpToTheLeg(plan, state, price, i, upto - 1);
      var run := SubmitLegs(plan, FullLadder(plan), Attempt(plan, price, i), state, upto - 1);
      OtherLegStep(plan, price, i, run, upto - 1, legId);
    }
  }

  predicate HasRestingLeg(legs: seq<Leg>, legId: string) {
    exists x :: 0 <= x < |legs| && legs[x].legId == legId
                && legs[x].orderId.Some? && legs[x].positionId.None? && legs[x].stage == Pending
  }

  lemma UpsertRests(legs: seq<Leg>, leg: Leg)
    requires leg.orderId.Some? && leg.positionId.None? && leg.stage == Pending
    ensures HasRestingLeg(UpsertLeg(legs, leg), leg.legId)
  {
    var at := FindLeg(legs, leg.legId);
    assert UpsertLeg(legs, leg)[if at < 0 then |legs| else at] == leg;
  }

  /** The quote lets the leg rest. */
  lemma LegRests(plan: Plan, i: nat)
    requires IsLadder(plan) && i < |LegIds(plan)| && !DeclaredMarket(plan, i)
    ensures !UsesMarket(FullLadder(plan)[i], plan.direction, BidFor(plan, plan.entry.legs[i].price),
              AskFor(plan, plan.entry.legs[i].price))
  {
    hide FullLadder;
  }

  /** The first attempt places the leg, fails to store the record after it, and leaves the
      plan pending. */
  lemma FirstAttempt(plan: Plan, state: State, config: RuntimeConfig, i: nat)
    requires IsLadder(plan) && !config.singleMarket && i + 1 < |LegIds(plan)|
    requires FirstOfItsId(plan, i) && !DeclaredMarket(plan, i)
    requires state.submittedLegCount == 0 && !OwnedAlready(state.legs, LegIds(plan)[i])
    ensures
      var eff := SubmitEntry(plan, state, config, Attempt(plan, plan.entry.legs[i].price, i));
      && eff.next.Some? && eff.next.value.stage == Submitting && eff.next.value.submittedLegCount == i + 1
      && HasRestingLeg(eff.next.value.legs, LegIds(plan)[i])
      && Placed(plan.planId, LegIds(plan)[i]) in eff.ops
  {
    hide FullLadder, OwnedAlready, LegIds, AfterAccept, SubmitLegs, UsesMarket, AcceptedLeg, Attempt, SubmitEntry, Finished;
    var d, price := FullLadder(plan), plan.entry.legs[i].price;
    var input, legId := Attempt(plan, price, i), LegIds(plan)[i];
    AttemptSubmits(plan, state, config, price, i);
    UpToTheLeg(plan, state, price, i, i);
    EveryLegAccepted(plan, price, i, i);
    LegRests(plan, i);
    QuoteOf(plan, price, i);
    var before := SubmitLegs(plan, d, input, state, i);
    var leg := AcceptedLeg(d[i], false, PlacementFor(input, i)).value;
    AfterAcceptMeans(plan, before.working, leg, i, |d|);
    UpsertRests(before.working.legs, leg);
    StepAt(plan, d, input, state, i);
    LaterLegsUntouched(plan, d, input, state, i + 1, |d|);
    SubmittingStays(plan, before.working, leg, i, |d|);
  }

  lemma QuoteOf(plan: Plan, price: real, last: nat)
    requires IsLadder(plan)
    ensures Attempt(plan, price, last).bid == BidFor(plan, price) && Attempt(plan, price, last).ask == AskFor(plan, price)
  {}

  lemma StepAt(plan: Plan, declared: seq<Declared>, input: SubmitInput, state: State, i: nat)
    requires state.submittedLegCount <= i < |declared| && SubmitLegs(plan, declared, input, state, i).goOn
    ensures SubmitLegs(plan, declared, input, state, i + 1)
         == SubmitLeg(plan, declared, input, i, SubmitLegs(plan, declared, input, state, i))
  {}

  lemma SubmittingStays(plan: Plan, working: State, leg: Leg, index: nat, count: nat)
    requires index + 1 < count
    ensures AfterAccept(plan, working, leg, index, count).stage == Submitting
  {
    hide UpsertLeg, WeightedFillPrice;
  }

  // ----- the order leaves the broker ------------------------------------------------------------------

  /** The owner's flatten finds the leg's order gone and fails to cancel every other. */
  function Flattening(legs: seq<Leg>, legId: string): FlattenInput {
    FlattenInput(
      Withdrawal(seq(|legs|, x requires 0 <= x < |legs| =>
                   if legs[x].legId == legId then CancelNotFound(false) else CancelFailed), true),
      |legs|)
  }

  lemma OrderLost(state: State, legId: string)
    requires DistinctLegs(state.legs) && HasRestingLeg(state.legs, legId) && state.stage == Submitting
    ensures
      var eff := FlattenPlan(state, Flattening(state.legs, legId));
      && eff.next.Some? && eff.next.value.stage == Submitting
      && eff.next.value.submittedLegCount == state.submittedLegCount
      && !OwnedAlready(eff.next.value.legs, legId)
  {
    hide CancelRequests, FlattenCloses, WithdrawnOrders, CancelUnfilledEntryLegs, OwnedAlready, AnyCancellable,
      HasRestingLeg, DistinctLegs;
    RestsMeans(state.legs, legId);
    LegLost(state, Flattening(state.legs, legId).withdrawal.answers, legId);
  }

  lemma RestsMeans(legs: seq<Leg>, legId: string)
    requires HasRestingLeg(legs, legId)
    ensures AnyCancellable(legs)
  {
    var x :| 0 <= x < |legs| && legs[x].legId == legId
             && legs[x].orderId.Some? && legs[x].positionId.None? && legs[x].stage == Pending;
    assert IsCancellable(legs[x]);
  }

  lemma LegLost(state: State, answers: seq<CancelAnswer>, legId: string)
    requires DistinctLegs(state.legs) && HasRestingLeg(state.legs, legId) && state.stage == Submitting
    requires forall x :: 0 <= x < |state.legs| && state.legs[x].legId == legId ==>
      AnswerFor(answers, x) == CancelNotFound(false)
    ensures
      var after := CancelUnfilledEntryLegs(state, answers);
      && after.stage == Submitting && after.submittedLegCount == state.submittedLegCount
      && !OwnedAlready(after.legs, legId)
  {
    hide WeightedFillPrice, DeriveRuntimeStage, DeriveGroupStage;
    var x :| 0 <= x < |state.legs| && state.legs[x].legId == legId
             && state.legs[x].orderId.Some? && state.legs[x].positionId.None? && state.legs[x].stage == Pending;
    var after := LegsAfterCancels(state.legs, answers);
    assert !AlreadyOwned(after[x]) && after[x].legId == legId;
    assert forall k :: 0 <= k < |after| ==> after[k].legId == state.legs[k].legId;
    assert CancelUnfilledEntryLegs(state, answers).legs == after;
  }

  // ----- the second attempt ------------------------------------------------------------------------------

  /** Resuming, the id is placed as soon as it comes again. */
  lemma {:induction false} Resumed(plan: Plan, state: State, price: real, i: nat, upto: nat)
    requires IsLadder(plan) && i < |LegIds(plan)| && state.submittedLegCount == i + 1 <= upto <= |FullLadder(plan)|
    requires !OwnedAlready(state.legs, LegIds(plan)[i])
    ensures
      var run := SubmitLegs(plan, FullLadder(plan), Attempt(plan, price, |FullLadder(plan)|), state, upto);
      && run.goOn
      && (|| Placed(plan.planId, LegIds(plan)[i]) in run.ops
          || (!OwnedAlready(run.working.legs, LegIds(plan)[i])
              && forall k :: i < k < upto ==> FullLadder(plan)[k].legId != LegIds(plan)[i]))
  {
    hide FullLadder, SubmitLeg, OwnedAlready, LegIds, EnsurePlannedLegs, Attempt;
    var d, legId := FullLadder(plan), LegIds(plan)[i];
    if upto == i + 1 {
      PlannedNotOwned(state.legs, d, legId);
    } else {
      Resumed(plan, state, price, i, upto - 1);
      var run := SubmitLegs(plan, d, Attempt(plan, price, |d|), state, upto - 1);
      LegStepAccepts(plan, price, run, upto - 1);
      if Placed(plan.planId, legId) !in run.ops && d[upto - 1].legId != legId {
        OtherLegStep(plan, price, |d|, run, upto - 1, legId);
      }
    }
  }

  lemma LegStepAccepts(plan: Plan, price: real, run: SubmitRun, k: nat)
    requires IsLadder(plan) && k < |FullLadder(plan)| && run.goOn
    ensures
      var d := FullLadder(plan);
      var after := SubmitLeg(plan, d, Attempt(plan, price, |d|), k, run);
      && after.goOn && run.ops <= after.ops
      && (!OwnedAlready(run.working.legs, d[k].legId) ==> Placed(plan.planId, d[k].legId) in after.ops)
  {
    hide FullLadder, UsesMarket, OwnedAlready, AfterAccept, AggregateState, AcceptedLeg, Attempt;
    EveryLegAccepted(plan, price, |FullLadder(plan)|, k);
  }

  lemma SecondAttempt(plan: Plan, state: State, config: RuntimeConfig, price: real, i: nat, j: nat)
    requires IsLadder(plan) && !config.singleMarket && ReusedAt(plan, i, j)
    requires state.submittedLegCount == i + 1 && !OwnedAlready(state.legs, LegIds(plan)[i])
    ensures Placed(plan.planId, LegIds(plan)[i])
      in SubmitEntry(plan, state, config, Attempt(plan, price, |FullLadder(plan)|)).ops
  {
    hide FullLadder, OwnedAlready, LegIds, SubmitLegs, Attempt, SubmitEntry, Finished;
    AttemptSubmits(plan, state, config, price, |FullLadder(plan)|);
    Resumed(plan, state, price, i, |FullLadder(plan)|);
    assert FullLadder(plan)[j].legId == LegIds(plan)[i];
  }

  // ----- the run --------------------------------------------------------------------------------------------

  function PlainConfig(): RuntimeConfig { RuntimeConfig(false, false, map[]) }

  lemma ArmedFresh(plan: Plan)
    requires Validates(plan)
    ensures
      var w := Run(PlainConfig(), [Arm(plan, true, true)]);
      && Tracked(w, plan.planId) && w.plans[plan.planId] == plan && w.states[plan.planId] == FreshState(plan)
      && w.settled == {} && w.plans.Keys == {plan.planId}
  {
    hide Validates;
    var e := Arm(plan, true, true);
    assert [e][..0] == [];
    assert Run(PlainConfig(), [e]) == Step(Empty(), PlainConfig(), e);
  }

  lemma FenceClear(w: World, plan: Plan, price: real, last: nat)
    requires IsLadder(plan)
    ensures CheckOppositeExposure(w.plans, w.states, map[], plan, Attempt(plan, price, last)) == Some(Clear)
  {
    hide FullLadder;
  }

  /** A pending plan with a clear fence goes through to its submission. */
  lemma SubmitStep(w: World, plan: Plan, price: real, last: nat)
    requires IsLadder(plan) && Tracked(w, plan.planId) && w.plans[plan.planId] == plan
    requires IsPendingEntryStage(w.states[plan.planId])
    ensures
      var e := Submit(plan.planId, Attempt(plan, price, last));
      PlanEffect(w, PlainConfig(), plan.planId, e)
      == SubmitEntry(plan, w.states[plan.planId], PlainConfig(), Attempt(plan, price, last))
  {
    hide FullLadder, SubmitEntry, CheckOppositeExposure;
    FenceClear(w, plan, price, last);
  }

  /** The plan can have a leg accepted twice in some run in which its id is its own and,
      unless `lossy`, every placement of it the broker accepts is reported so. */
  ghost predicate CanAcceptTwice(plan: Plan, lossy: bool) {
    exists config, events ::
      && AcceptedTwice(Run(config, events), plan.planId) && ArmedAs(events, plan)
      && (lossy || RepliesKnown(events, plan.planId))
  }

  predicate RepliesKnown(events: seq<Event>, p: string) {
    forall k :: 0 <= k < |events| ==> KnownReplies(events[k], p)
  }

  predicate ArmedAs(events: seq<Event>, plan: Plan) {
    forall k :: 0 <= k < |events| && events[k].Arm? && events[k].plan.planId == plan.planId ==> events[k].plan == plan
  }

  /** The plan armed and its first attempt made. */
  lemma AfterFirst(plan: Plan, i: nat)
    requires Validates(plan) && IsLadder(plan) && i + 1 < |LegIds(plan)| && FirstOfItsId(plan, i) && !DeclaredMarket(plan, i)
    ensures
      var w := Run(PlainConfig(), [Arm(plan, true, true), Submit(plan.planId, Attempt(plan, plan.entry.legs[i].price, i))]);
      && Tracked(w, plan.planId) && w.plans[plan.planId] == plan && w.settled == {}
      && w.states[plan.planId].stage == Submitting && w.states[plan.planId].submittedLegCount == i + 1
      && HasRestingLeg(w.states[plan.planId].legs, LegIds(plan)[i])
      && Placed(plan.planId, LegIds(plan)[i]) in w.log
  {
    hide Validates, LegIds, Attempt, Step, SubmitEntry, PlanEffect, FreshState, HasRestingLeg, DeclaredMarket, FirstOfItsId;
    var arm, e := Arm(plan, true, true), Submit(plan.planId, Attempt(plan, plan.entry.legs[i].price, i));
    ArmedFresh(plan);
    var w := Run(PlainConfig(), [arm]);
    FreshUnowned(plan, LegIds(plan)[i]);
    SubmitStep(w, plan, plan.entry.legs[i].price, i);
    FirstAttempt(plan, FreshState(plan), PlainConfig(), i);
    NeverAcksSubmit(w, e);
    PhaseMeans(w, PlainConfig(), e);
    assert [arm, e][..1] == [arm];
  }

  lemma NeverAcksSubmit(w: World, e: Event)
    requires e.Submit? && Tracked(w, e.planId)
    ensures !PlanEffect(w, PlainConfig(), e.planId, e).acked
  {
    OnlyIntentsAck(w, PlainConfig(), e.planId, e);
  }

  lemma FreshUnowned(plan: Plan, legId: string)
    ensures FreshState(plan).submittedLegCount == 0 && !OwnedAlready(FreshState(plan).legs, legId)
    ensures IsPendingEntryStage(FreshState(plan))
  {}

  lemma AttemptKnown(plan: Plan, price: real, last: nat)
    requires IsLadder(plan)
    ensures RepliesKept(Attempt(plan, price, last))
  {
    hide FullLadder, UsesMarket;
  }

  lemma KnownInOrder(plan: Plan, a: SubmitInput, flatten: FlattenInput, b: SubmitInput)
    requires RepliesKept(a) && RepliesKept(b)
    ensures
      var p := plan.planId;
      var events := [Arm(plan, true, true), Submit(p, a)] + [Flatten(p, flatten)] + [Submit(p, b)];
      RepliesKnown(events, p) && ArmedAs(events, plan)
  {
    hide RepliesKept;
  }

  /** For every ladder that declares an id again after a leg of it that can rest, a run has
      the broker accept that id twice: a poll whose store fails, the owner's flatten, and
      the next poll. */
  lemma ReusedIdIsAcceptedTwice(plan: Plan, i: nat, j: nat)
    requires Validates(plan) && IsLadder(plan) && ReusedAt(plan, i, j)
    ensures CanAcceptTwice(plan, false)
  {
    hide Validates, LegIds, Attempt, Step, SubmitEntry, PlanEffect, FlattenPlan, HasRestingLeg, FullLadder,
      DeclaredMarket, FirstOfItsId, OwnedAlready, AcceptedTwice, Sound, RepliesKept, RepliesKnown, ArmedAs;
    var p, legId, price := plan.planId, LegIds(plan)[i], plan.entry.legs[i].price;
    var start := [Arm(plan, true, true), Submit(p, Attempt(plan, price, i))];
    var w1 := Run(PlainConfig(), start);
    AfterFirst(plan, i);
    RunIsSound(PlainConfig(), start);
    SoundDistinct(w1, p);
    var flatten := Flatten(p, Flattening(w1.states[p].legs, legId));
    var w2 := Step(w1, PlainConfig(), flatten);
    OrderLost(w1.states[p], legId);
    FlattenEffect(w1, flatten);
    PhaseMeans(w1, PlainConfig(), flatten);
    var again := Submit(p, Attempt(plan, price, |FullLadder(plan)|));
    SubmitStep(w2, plan, price, |FullLadder(plan)|);
    SecondAttempt(plan, w2.states[p], PlainConfig(), price, i, j);
    PhaseMeans(w2, PlainConfig(), again);
    PlacedAgain(w1.log, w2.log[|w1.log|..], PlanEffect(w2, PlainConfig(), p, again).ops, Placed(p, legId));
    assert w2.log == w1.log + w2.log[|w1.log|..];
    TwiceInLog(Step(w2, PlainConfig(), again), p, legId);
    RunTwoMore(start, flatten, again);
    AttemptKnown(plan, price, i);
    AttemptKnown(plan, price, |FullLadder(plan)|);
    KnownInOrder(plan, Attempt(plan, price, i), Flattening(w1.states[p].legs, legId), again.submit);
    assert AcceptedTwice(Run(PlainConfig(), start + [flatten] + [again]), plan.planId);
  }

  lemma SoundDistinct(w: World, p: string)
    requires Sound(w) && p in w.states
    ensures DistinctLegs(w.states[p].legs)
  {}

  lemma FlattenEffect(w: World, e: Event)
    requires e.Flatten? && Tracked(w, e.planId)
    ensures PlanEffect(w, PlainConfig(), e.planId, e) == FlattenPlan(w.states[e.planId], e.flatten)
  {
    hide FlattenPlan;
  }

  predicate TwiceIn(log: seq<BrokerOp>, op: BrokerOp) { exists a, b :: 0 <= a < b < |log| && log[a] == op == log[b] }

  lemma PlacedAgain(before: seq<BrokerOp>, between: seq<BrokerOp>, more: seq<BrokerOp>, op: BrokerOp)
    requires op in before && op in more
    ensures TwiceIn(before + between + more, op)
  {
    var a :| 0 <= a < |before| && before[a] == op;
    var b :| 0 <= b < |more| && more[b] == op;
    var log := before + between + more;
    assert log[a] == op && log[|before| + |between| + b] == op;
  }

  lemma TwiceInLog(w: World, p: string, legId: string)
    requires TwiceIn(w.log, Placed(p, legId))
    ensures AcceptedTwice(w, p)
  {}

  lemma RunTwoMore(events: seq<Event>, a: Event, b: Event)
    ensures Run(PlainConfig(), events + [a] + [b]) == Step(Step(Run(PlainConfig(), events), PlainConfig(), a), PlainConfig(), b)
  {
    hide Step;
    assert (events + [a] + [b])[..|events| + 1] == events + [a];
    assert (events + [a])[..|events|] == events;
  }
}
