/** Runs from an empty runtime in which a promise is not kept: an intent acknowledged while the
    rest of a partly filled order still rests, one acknowledged while an order rests whose
    placement was reported as failed, and two opposite plans live at once after one of them
    came back from recovery. */
module Scenarios {
  import opened Common
  import opened TradePlanModel
  import opened VolumePlanner
  import opened PositionManagement
  import opened OppositeExposureFence
  import opened RuntimeModel
  import opened RuntimeWorld
  import opened RuntimeSteps
  import opened ExposureSafety
  import opened CancelSafety
  import opened FirstOrders
  import ReusedLegIds
  import Sizing

  // ----- plans and inputs -----------------------------------------------------------------------

  const GOLD := "XAU"

  /** Gold never lets plans oppose here. */
  function Account(): RuntimeConfig { RuntimeConfig(false, false, map[GOLD := Policy(false, None, 1.0, None)]) }

  function UnitSymbol(): SymbolInfo { SymbolInfo(1, 1, 1000, 100, 2) }

  function PlanAt2000(planId: string, direction: Direction, kind: EntryType, legs: seq<EntryLeg>): Plan {
    Plan(planId, GOLD, 0, direction, false, false, Entry(kind, 100, None, None, Some(2000.0), legs, None),
         if direction == Buy then 1990.0 else 2010.0,
         [Target("TP1", if direction == Buy then 2010.0 else 1990.0, 1.0)], Risk(1.0, 1000),
         Management(None, 0, None, None), false, "")
  }

  /** One limit order at 2000. */
  function Single(planId: string, direction: Direction): Plan { PlanAt2000(planId, direction, SingleLimit, []) }

  function Going(slices: seq<int>, placements: seq<Placement>, tracked: seq<string>): SubmitInput {
    SubmitInput(Go, false, Some(Snapshot([], [])), tracked, 2001.0, 2002.0, UnitSymbol(),
      Some(Sizing.VolumePlan(2, slices)), placements, [true, true, true])
  }

  lemma SingleValidates(planId: string, direction: Direction)
    ensures Validates(Single(planId, direction))
  {
    assert EntryPrices(Single(planId, direction).entry) == [2000.0];
  }

  lemma RunSnocs(events: seq<Event>, e: Event)
    ensures Run(Account(), events + [e]) == Step(Run(Account(), events), Account(), e)
  {
    RunSnoc(Account(), events, e);
  }

  // ----- a limit order rests -----------------------------------------------------------------------

  function RestingLeg(order: int): Leg { Leg("L1", 2000.0, 2, Some(order), None, None, 0, 0, Pending) }

  lemma RestingStage(order: int)
    ensures DeriveRuntimeStage([RestingLeg(order)]) == AllSubmitted
    ensures DeriveGroupStage([RestingLeg(order)]) == GroupSubmitted
  {
    var legs := [RestingLeg(order)];
    assert IsPending(legs[0]);
  }

  function SingleDeclared(): seq<Declared> { [Declared("L1", 2000.0, 2, Some(LimitOrder))] }

  lemma SingleDeclares(planId: string, direction: Direction, input: SubmitInput)
    requires input.sizing == Some(Sizing.VolumePlan(2, []))
    ensures DeclaredLegs(Single(planId, direction), input.sizing.value, input.symbol, false) == Some(SingleDeclared())
  {}

  lemma SinglePlanned(state: State)
    requires state.legs == []
    ensures StartRun(state, SingleDeclared()).working == state.(legs := [PlannedLeg(SingleDeclared()[0])])
  {
    assert SingleDeclared()[..0] == [];
  }

  lemma SingleAccepted(plan: Plan, run: SubmitRun, order: int, tracked: seq<string>)
    requires run.goOn && run.working.legs == [PlannedLeg(SingleDeclared()[0])]
    ensures
      var after := SubmitLeg(plan, SingleDeclared(), Going([], [LimitRested(order)], tracked), 0, run);
      && after.goOn && after.working.legs == [RestingLeg(order)] && after.working.submittedLegCount == 1
      && SameIdentity(run.working, after.working) && after.rested == run.rested + {order}
  {
    hide WeightedFillPrice, DeriveRuntimeStage, DeriveGroupStage;
    assert run.working.legs[..0] == [];
  }

  lemma FinishedMeans(working: State)
    ensures
      var next := Finished(working);
      && next.legs == working.legs && next.submittedLegCount == working.submittedLegCount && SameIdentity(working, next)
      && next.stage == DeriveRuntimeStage(working.legs) && next.groupStage == DeriveGroupStage(working.legs)
  {
    hide WeightedFillPrice, DeriveRuntimeStage, DeriveGroupStage;
    DerivedRange(working.legs);
  }

  /** Submitting a single limit plan rests its one order. */
  lemma SingleRests(planId: string, direction: Direction, order: int, tracked: seq<string>)
    ensures
      var plan := Single(planId, direction);
      var eff := SubmitEntry(plan, FreshState(plan), Account(), Going([], [LimitRested(order)], tracked));
      && eff.next.Some? && eff.rested == {order} && eff.gone == {} && !eff.acked
      && eff.next.value.legs == [RestingLeg(order)] && eff.next.value.stage == AllSubmitted
      && eff.next.value.groupStage == GroupSubmitted && eff.next.value.submittedLegCount == 1
      && SameIdentity(FreshState(plan), eff.next.value)
  {
    hide DeclaredLegs, SubmitLeg, DeriveRuntimeStage, DeriveGroupStage, Finished, EnsurePlannedLegs, AggregateState;
    var plan, input := Single(planId, direction), Going([], [LimitRested(order)], tracked);
    var state, d := FreshState(plan), SingleDeclared();
    SingleDeclares(planId, direction, input);
    SinglePlanned(state);
    var start := StartRun(state, d);
    SingleAccepted(plan, start, order, tracked);
    assert SubmitLegs(plan, d, input, state, 0) == start;
    var run := SubmitLegs(plan, d, input, state, 1);
    assert run == SubmitLeg(plan, d, input, 0, start);
    FinishedMeans(run.working);
    RestingStage(order);
  }

  // ----- an acknowledgement over a partly filled order --------------------------------------------

  function PartialPlan(): Plan { Single("p", Buy) }

  /** Order 7 has filled 1 of 2, as position 1, and its rest still rests. */
  function HalfFilled(): ReconcileInput {
    ReconcileInput({7}, [Adoption("L1", 1, 2000.0, 1, Amended)], [], true)
  }

  function PartLeg(): Leg { Leg("L1", 2000.0, 2, Some(7), Some(1), Some(2000.0), 1, 1, Filled) }

  lemma HalfFilledAdopts(plan: Plan, state: State)
    requires state.legs == [RestingLeg(7)] && state.stage == AllSubmitted
    ensures
      var eff := ReconcileSubmittedLegs(plan, state, HalfFilled());
      eff.next.Some? && eff.gone == {} && eff.rested == {} && !eff.acked && eff.next.value.legs == [PartLeg()]
  {
    hide WeightedFillPrice, DeriveRuntimeStage, DeriveGroupStage;
    var input := HalfFilled();
    assert state.legs[..0] == [] && FindLeg(state.legs, "L1") == 0;
    var a := input.adoptions[0];
    var start := ReconcileRun(state, state.legs, false, true, {});
    assert AdoptPositions(plan, input, state, 0) == start && !AlreadyAdopted(start.legs, a);
    var first := AdoptPositions(plan, input, state, 1);
    assert first == Adopt(plan, input, start, a, true);
    assert AdoptFilledLeg(state, a).legs == [PartLeg()];
    assert first.legs == [PartLeg()] && first.ok && first.changed && first.record.legs == [PartLeg()];
    assert CheckPendings(plan, input, state, 0) == first;
    assert CheckPendings(plan, input, state, 1) == first;
    assert LegOrders(state.legs) - input.pending == {};
    PartStage();
  }

  lemma PartStage()
    ensures DeriveRuntimeStage([PartLeg()]) == FullyOpen && DeriveGroupStage([PartLeg()]) == GroupFullyOpen
  {
    var legs := [PartLeg()];
    assert IsOpen(legs[0]) && !IsPending(legs[0]);
  }

  function Withdrawn(): CancelInput { CancelInput(true, 0, Withdrawal([], true), AckWritten) }

  lemma IntentAcks(plan: Plan, state: State)
    requires state.legs == [PartLeg()]
    ensures
      var eff := ApplyCancelIntent(plan, state, Account(), Withdrawn());
      eff.acked && eff.gone == {} && eff.rested == {}
  {
    hide SettleIntent;
  }

  function PartialRun(): seq<Event> {
    [Arm(PartialPlan(), true, true)] + [Submit("p", Going([], [LimitRested(7)], []))] + [Reconcile("p", HalfFilled())]
    + [RuntimeWorld.Cancel("p", Withdrawn())]
  }

  /** Plan p alone, its single order just placed. */
  lemma PlanResting(planId: string, direction: Direction, order: int)
    ensures
      var w := Run(Account(), [Arm(Single(planId, direction), true, true)]
                              + [Submit(planId, Going([], [LimitRested(order)], []))]);
      && Tracked(w, planId) && w.states[planId].legs == [RestingLeg(order)] && w.states[planId].stage == AllSubmitted
      && w.settled == {} && w.resting == map[order := planId]
  {
    hide SubmitEntry, Validates, PlanEffect, Step, FreshState;
    var plan, arm := Single(planId, direction), Arm(Single(planId, direction), true, true);
    var e := Submit(planId, Going([], [LimitRested(order)], []));
    SingleValidates(planId, direction);
    FirstArmed(plan);
    SingleRests(planId, direction, order, []);
    var w := Run(Account(), [arm]);
    FirstSubmits(w, plan, e.submit);
    PhaseMeans(w, Account(), e);
    RunSnocs([arm], e);
  }

  lemma FirstArmed(plan: Plan)
    requires Validates(plan)
    ensures
      var w := Run(Account(), [Arm(plan, true, true)]);
      && Tracked(w, plan.planId) && w.plans == map[plan.planId := plan] && w.states == map[plan.planId := FreshState(plan)]
      && w.settled == {} && w.resting == map[] && w.claimed == {plan.planId} && w.partial == {}
  {
    hide Validates;
    var e := Arm(plan, true, true);
    assert [e][..0] == [];
    assert Run(Account(), [e]) == Step(Empty(), Account(), e);
  }

  /** With nothing tracked beside it and an empty snapshot the fence is clear. */
  lemma FirstSubmits(w: World, plan: Plan, input: SubmitInput)
    requires Tracked(w, plan.planId) && w.plans[plan.planId] == plan && w.states[plan.planId] == FreshState(plan)
    requires !plan.manual && input.snapshot == Some(Snapshot([], [])) && input.trackedOrder == []
    requires input.decision == Go && !input.paused
    ensures PlanEffect(w, Account(), plan.planId, Submit(plan.planId, input))
         == SubmitEntry(plan, FreshState(plan), Account(), input)
  {
    hide SubmitEntry;
    assert CheckOppositeExposure(w.plans, w.states, Account().policies, plan, input) == Some(Clear);
  }

  /** The intent of plan p is acknowledged, and order 7 of it still rests. */
  lemma PartialFillIsLeftResting()
    ensures var w := Run(Account(), PartialRun()); "p" in w.acked && RestsFor(w, "p", 7)
  {
    hide Run, PlanEffect, Step, ReconcileSubmittedLegs, ApplyCancelIntent;
    var start := [Arm(PartialPlan(), true, true)] + [Submit("p", Going([], [LimitRested(7)], []))];
    PlanResting("p", Buy, 7);
    var w1, half := Run(Account(), start), Reconcile("p", HalfFilled());
    HalfFilledAdopts(w1.plans["p"], w1.states["p"]);
    ReconcileMeans(w1, half);
    PhaseMeans(w1, Account(), half);
    var w2, intent := Step(w1, Account(), half), RuntimeWorld.Cancel("p", Withdrawn());
    IntentAcks(w2.plans["p"], w2.states["p"]);
    CancelMeans(w2, intent);
    PhaseMeans(w2, Account(), intent);
    RunSnocs(start, half);
    RunSnocs(start + [half], intent);
  }

  lemma ReconcileMeans(w: World, e: Event)
    requires e.Reconcile? && Tracked(w, e.planId)
    ensures PlanEffect(w, Account(), e.planId, e)
         == ReconcileSubmittedLegs(w.plans[e.planId], w.states[e.planId], e.reconcile)
  {
    hide ReconcileSubmittedLegs;
  }

  lemma CancelMeans(w: World, e: Event)
    requires e.Cancel? && Tracked(w, e.planId) && e.planId !in w.settled
    ensures PlanEffect(w, Account(), e.planId, e)
         == ApplyCancelIntent(w.plans[e.planId], w.states[e.planId], Account(), e.cancel)
  {
    hide ApplyCancelIntent;
  }

  // ----- an acknowledgement over a lost order -------------------------------------------------------

  /** The broker rests order 1 of plan p, the reply is lost, and the plan is withdrawn. */
  function LostRun(): seq<Event> {
    [Arm(PartialPlan(), true, true)] + [Submit("p", Trying(PartialPlan(), [], ReplyLost(1)))]
    + [RuntimeWorld.Cancel("p", Withdrawn())]
  }

  /** With no legs on the record the intent is acknowledged at once. */
  lemma EmptyAcks(plan: Plan)
    ensures
      var eff := ApplyCancelIntent(plan, FreshState(plan), Account(), Withdrawn());
      eff.acked && eff.gone == {} && eff.rested == {} && eff.partial == {}
  {
    hide SettleIntent;
  }

  lemma PartialPlanRests()
    requires Validates(PartialPlan())
    ensures !FirstAtMarket(PartialPlan())
  {
    hide Validates;
    var plan := PartialPlan();
    assert BuildDeclaredLegs(plan, ReusedLegIds.FullSizing(plan))[0].orderType == Some(LimitOrder);
  }

  /** The intent of plan p is acknowledged, and an order of it still rests of which the record
      knows nothing. */
  lemma LostOrderIsLeftResting()
    ensures var w := Run(Account(), LostRun()); "p" in w.acked && RestsFor(w, "p", 1) && w.partial == {}
  {
    hide Run, PlanEffect, Step, SubmitEntry, ApplyCancelIntent, FreshState, Trying, Validates, FirstAtMarket;
    var plan, arm := PartialPlan(), Arm(PartialPlan(), true, true);
    var lost, intent := Submit("p", Trying(plan, [], ReplyLost(1))), RuntimeWorld.Cancel("p", Withdrawn());
    SingleValidates("p", Buy);
    FirstArmed(plan);
    var w := Run(Account(), [arm]);
    TryingMeans(plan);
    FirstSubmits(w, plan, lost.submit);
    PartialPlanRests();
    LostLeavesFresh(plan, Account());
    PhaseMeans(w, Account(), lost);
    RunSnocs([arm], lost);
    var w1 := Step(w, Account(), lost);
    EmptyAcks(plan);
    CancelMeans(w1, intent);
    PhaseMeans(w1, Account(), intent);
    RunSnocs([arm] + [lost], intent);
  }

  lemma TryingMeans(plan: Plan)
    ensures
      var input := Trying(plan, [], ReplyLost(1));
      && input.snapshot == Some(Snapshot([], [])) && input.trackedOrder == [] && input.decision == Go && !input.paused
  {
    hide QuoteFor;
  }

  // ----- two opposite plans after a recovery ---------------------------------------------------------

  /** Two market legs and a limit below them. */
  function Ladder(): Plan {
    PlanAt2000("p", Buy, LimitLadder,
      [EntryLeg("L1", 2000.0, 0.4, Some(MarketOrder)), EntryLeg("L2", 2000.0, 0.4, Some(MarketOrder)),
       EntryLeg("L3", 1995.0, 0.2, Some(LimitOrder))])
  }

  lemma LadderValidates()
    ensures Validates(Ladder())
  {
    assert EntryPrices(Ladder().entry) == [2000.0, 2000.0, 1995.0];
  }

  function LadderInput(): SubmitInput {
    Going([1, 1, 1], [MarketFilled(1, 2000.0, 1), MarketFilled(2, 2000.0, 1), LimitRested(3)], [])
  }

  function FilledLeg(legId: string, position: int): Leg {
    Leg(legId, 2000.0, 1, None, Some(position), Some(2000.0), 1, 1, Filled)
  }

  function DeepLeg(): Leg { Leg("L3", 1995.0, 1, Some(3), None, None, 0, 0, Pending) }

  function LadderLegs(): seq<Leg> { [FilledLeg("L1", 1), FilledLeg("L2", 2), DeepLeg()] }

  function LadderDeclared(): seq<Declared> {
    [Declared("L1", 2000.0, 1, Some(MarketOrder)), Declared("L2", 2000.0, 1, Some(MarketOrder)),
     Declared("L3", 1995.0, 1, Some(LimitOrder))]
  }

  lemma LadderStage()
    ensures DeriveRuntimeStage(LadderLegs()) == PartiallyOpen && DeriveGroupStage(LadderLegs()) == GroupPartiallyOpen
  {
    var legs := LadderLegs();
    assert IsOpen(legs[0]) && IsPending(legs[2]);
  }

  lemma PlannedNext(legs: seq<Leg>, declared: seq<Declared>, n: nat)
    requires n < |declared| && EnsurePlannedLegs([], declared[..n]) == legs
    requires forall k :: 0 <= k < |legs| ==> legs[k].legId != declared[n].legId
    ensures EnsurePlannedLegs([], declared[..n + 1]) == legs + [PlannedLeg(declared[n])]
  {
    assert declared[..n + 1][..n] == declared[..n];
  }

  lemma LadderPlanned()
    ensures EnsurePlannedLegs([], LadderDeclared())
         == [PlannedLeg(LadderDeclared()[0]), PlannedLeg(LadderDeclared()[1]), PlannedLeg(LadderDeclared()[2])]
  {
    hide EnsurePlannedLegs;
    var d := LadderDeclared();
    assert EnsurePlannedLegs([], d[..0]) == [] by { NonePlanned(d); }
    PlannedNext([], d, 0);
    PlannedNext([PlannedLeg(d[0])], d, 1);
    PlannedNext([PlannedLeg(d[0]), PlannedLeg(d[1])], d, 2);
    assert d[..3] == d;
  }

  lemma NonePlanned(declared: seq<Declared>)
    ensures EnsurePlannedLegs([], declared[..0]) == []
  {}

  lemma Finds(a: Leg, b: Leg, c: Leg, legId: string)
    requires a.legId == "L1" && b.legId == "L2" && c.legId == "L3"
    ensures legId == "L1" ==> FindLeg([a, b, c], legId) == 0
    ensures legId == "L2" ==> FindLeg([a, b, c], legId) == 1
    ensures legId == "L3" ==> FindLeg([a, b, c], legId) == 2
  {
    hide FindLeg;
    var legs := [a, b, c];
    assert legs[0].legId != legs[1].legId && legs[1].legId != legs[2].legId && legs[0].legId != legs[2].legId;
  }

  /** One leg of the ladder accepted. */
  lemma LadderLegAccepted(run: SubmitRun, index: nat, leg: Leg)
    requires index < 3 && run.goOn && |run.working.legs| == 3
    requires run.working.legs[0].legId == "L1" && run.working.legs[1].legId == "L2" && run.working.legs[2].legId == "L3"
    requires run.working.legs[index] == PlannedLeg(LadderDeclared()[index]) && leg == LadderLegs()[index]
    ensures
      var after := SubmitLeg(Ladder(), LadderDeclared(), LadderInput(), index, run);
      && after.goOn && after.working.legs == run.working.legs[index := leg]
      && after.working.submittedLegCount == index + 1 && SameIdentity(run.working, after.working)
      && after.rested == (if index == 2 then run.rested + {3} else run.rested)
  {
    hide WeightedFillPrice, DeriveRuntimeStage, DeriveGroupStage, FindLeg;
    var legs := run.working.legs;
    Finds(legs[0], legs[1], legs[2], LadderDeclared()[index].legId);
    assert legs == [legs[0], legs[1], legs[2]];
  }

  lemma LadderSubmits()
    ensures
      var eff := SubmitEntry(Ladder(), FreshState(Ladder()), Account(), LadderInput());
      && eff.next.Some? && eff.next.value.legs == LadderLegs() && eff.next.value.stage == PartiallyOpen
      && eff.next.value.groupStage == GroupPartiallyOpen && eff.next.value.submittedLegCount == 3
      && eff.rested == {3} && eff.gone == {} && !eff.acked && SameIdentity(FreshState(Ladder()), eff.next.value)
  {
    hide WeightedFillPrice, DeriveRuntimeStage, DeriveGroupStage, SubmitLeg, EnsurePlannedLegs, FindLeg;
    var plan, input, d, state := Ladder(), LadderInput(), LadderDeclared(), FreshState(Ladder());
    LadderDeclares();
    LadderPlanned();
    LadderStage();
    var start := StartRun(state, d);
    assert SubmitLegs(plan, d, input, state, 0) == start;
    LadderLegAccepted(start, 0, LadderLegs()[0]);
    var one := SubmitLeg(plan, d, input, 0, start);
    assert SubmitLegs(plan, d, input, state, 1) == one;
    LadderLegAccepted(one, 1, LadderLegs()[1]);
    var two := SubmitLeg(plan, d, input, 1, one);
    assert SubmitLegs(plan, d, input, state, 2) == two;
    LadderLegAccepted(two, 2, LadderLegs()[2]);
    assert SubmitLegs(plan, d, input, state, 3) == SubmitLeg(plan, d, input, 2, two);
    assert SubmitLeg(plan, d, input, 2, two).working.legs == LadderLegs();
  }

  lemma LadderDeclares()
    ensures DeclaredLegs(Ladder(), LadderInput().sizing.value, UnitSymbol(), false) == Some(LadderDeclared())
  {
    var built := BuildDeclaredLegs(Ladder(), LadderInput().sizing.value);
    assert |built| == 3 && built[0] == LadderDeclared()[0] && built[1] == LadderDeclared()[1];
    assert built == LadderDeclared();
  }

  /** Both positions are gone at the broker: one closed by hand at an unknown price, one by
      its stop. */
  function BothVanished(): Tick {
    var none := Withdrawal([], true);
    Tick(2000.0, {}, [Lookup(ManualOrExternal, false), Lookup(StopOrTarget, true)], none, [], true, none, false, none,
      false, none, false)
  }

  function VanishedLegs(): seq<Leg> {
    [FilledLeg("L1", 1).(remaining := 0, stage := Closed), FilledLeg("L2", 2).(remaining := 0, stage := Closed), DeepLeg()]
  }

  lemma VanishedStage()
    ensures DeriveRuntimeStage(VanishedLegs()) == AllSubmitted && DeriveGroupStage(VanishedLegs()) == GroupSubmitted
  {
    var legs := VanishedLegs();
    assert IsPending(legs[2]);
  }

  lemma VanishedEvidence()
    ensures EvidenceOf(LadderLegs(), {}, BothVanished().lookups) == Evidence(false, false, false, false)
    ensures AnyMissing(LadderLegs(), {}) && LegsAfterVanish(LadderLegs(), {}) == VanishedLegs()
    ensures !AnyHeld(VanishedLegs(), {})
  {
    var legs := LadderLegs();
    assert legs[..2][..1] == legs[..1] && legs[..1][..0] == [];
    assert IsMissing(legs[0], {}) && IsMissing(legs[1], {}) && !IsMissing(legs[2], {});
    assert EvidenceOf(legs[..1], {}, BothVanished().lookups) == Evidence(false, false, false, true);
    assert EvidenceOf(legs[..2], {}, BothVanished().lookups) == Evidence(false, false, false, false);
  }

  /** Which is a mixture that raises recovery. */
  lemma RecoveryRaised(plan: Plan, config: Config, state: State)
    requires state.legs == LadderLegs() && state.stage == PartiallyOpen && state.groupStage == GroupPartiallyOpen
    ensures
      var eff := RuntimeModel.ManageOpenPositions(plan, state, config, BothVanished());
      && eff.next.Some? && eff.gone == {} && eff.rested == {} && !eff.acked
      && eff.next.value.legs == VanishedLegs() && eff.next.value.stage == AllSubmitted
      && eff.next.value.groupStage == RecoveryRequired && eff.next.value.submittedLegCount == state.submittedLegCount
      && SameIdentity(state, eff.next.value)
  {
    hide WeightedFillPrice, DeriveRuntimeStage, DeriveGroupStage, EvidenceOf, LegsAfterVanish, AnyMissing, AnyHeld,
      TakeTarget, MoveStops, ManageRequests;
    LadderStage();
    VanishedStage();
    VanishedEvidence();
  }

  function Nothing(): ReconcileInput { ReconcileInput({}, [], [], true) }

  /** A reconcile that learns nothing still re-derives both stages. */
  lemma RecoveryLeft(plan: Plan, state: State)
    requires state.legs == VanishedLegs() && state.stage == AllSubmitted
    ensures
      var eff := ReconcileSubmittedLegs(plan, state, Nothing());
      && eff.next.Some? && eff.rested == {} && !eff.acked
      && eff.next.value.legs == VanishedLegs() && eff.next.value.stage == AllSubmitted
      && eff.next.value.groupStage == GroupSubmitted && eff.next.value.submittedLegCount == state.submittedLegCount
      && SameIdentity(state, eff.next.value)
  {
    hide WeightedFillPrice, DeriveRuntimeStage, DeriveGroupStage;
    VanishedStage();
    var input := Nothing();
    var start := ReconcileRun(state, state.legs, false, true, {});
    assert AdoptPositions(plan, input, state, 0) == start;
    assert CheckPendings(plan, input, state, 0) == start;
    assert CheckPendings(plan, input, state, 1) == start;
    assert CheckPendings(plan, input, state, 2) == start;
    assert CheckPendings(plan, input, state, 3) == start;
  }

  function Sides(): Config { Config(false, 0.1, UnitSymbol()) }

  /** Plan p fills two legs, loses both and goes into recovery; its third order leaves the
      broker. */
  function IntoRecovery(): seq<Event> {
    [Arm(Ladder(), true, true)] + [Submit("p", LadderInput())] + [Manage("p", Sides(), BothVanished())] + [OrderGone(3)]
  }

  function Opposite(): Plan { Single("q", Sell) }
  function OppositeInput(): SubmitInput { Going([], [LimitRested(9)], ["p", "q"]) }

  /** Plan q is armed and submitted on the other side, and p is reconciled. */
  function OppositeRun(): seq<Event> {
    IntoRecovery() + [Arm(Opposite(), true, true)] + [Submit("q", OppositeInput())] + [Reconcile("p", Nothing())]
  }

  lemma InRecovery()
    ensures
      var w := Run(Account(), IntoRecovery());
      && w.plans == map["p" := Ladder()] && w.states.Keys == {"p"} && w.claimed == {"p"} && w.resting == map[]
      && w.states["p"].planId == "p" && w.states["p"].legs == VanishedLegs() && w.states["p"].stage == AllSubmitted
      && w.states["p"].groupStage == RecoveryRequired && w.states["p"].submittedLegCount == 3
      && w.states["p"].symbol == GOLD && w.states["p"].direction == Buy
  {
    hide Run, SubmitEntry, Validates, PlanEffect, Step, RuntimeModel.ManageOpenPositions;
    var arm, submit, manage := Arm(Ladder(), true, true), Submit("p", LadderInput()), Manage("p", Sides(), BothVanished());
    LadderValidates();
    FirstArmed(Ladder());
    var w0 := Run(Account(), [arm]);
    FirstSubmits(w0, Ladder(), LadderInput());
    LadderSubmits();
    PhaseMeans(w0, Account(), submit);
    RunSnocs([arm], submit);
    var w1 := Step(w0, Account(), submit);
    RecoveryRaised(Ladder(), Sides(), w1.states["p"]);
    ManageMeans(w1, manage);
    PhaseMeans(w1, Account(), manage);
    RunSnocs([arm] + [submit], manage);
    RunSnocs([arm] + [submit] + [manage], OrderGone(3));
    GoneMeans(Step(w1, Account(), manage), 3);
  }

  lemma ManageMeans(w: World, e: Event)
    requires e.Manage? && Tracked(w, e.planId)
    ensures PlanEffect(w, Account(), e.planId, e)
         == RuntimeModel.ManageOpenPositions(w.plans[e.planId], w.states[e.planId], e.config, e.tick)
  {
    hide RuntimeModel.ManageOpenPositions;
  }

  lemma GoneMeans(w: World, order: int)
    ensures Step(w, Account(), OrderGone(order)) == w.(resting := w.resting - {order})
  {}

  /** Plan q armed beside p. */
  lemma OppositeArmed(w: World)
    requires w.plans == map["p" := Ladder()] && w.states.Keys == {"p"} && w.claimed == {"p"}
    requires w.states["p"].symbol == GOLD && w.states["p"].direction == Buy
    ensures Step(w, Account(), Arm(Opposite(), true, true))
         == w.(claimed := {"p", "q"}, plans := w.plans["q" := Opposite()], states := w.states["q" := FreshState(Opposite())])
  {
    hide Validates, FreshState;
    SingleValidates("q", Sell);
    assert w.claimed + {"q"} == {"p", "q"};
  }

  /** The fence clears q: p is in recovery and the broker reports nothing of it. */
  lemma FenceClears(w: World)
    requires w.states.Keys == {"p", "q"} && w.states["p"].groupStage == RecoveryRequired
    requires w.states["q"].planId == "q"
    ensures CheckOppositeExposure(w.plans, w.states, Account().policies, Opposite(), OppositeInput()) == Some(Clear)
  {
    var order := OppositeInput().trackedOrder;
    var counted := Counted(w.plans, w.states, Opposite(), order);
    forall s | s in counted
      ensures !Counts(s, GOLD)
    {
      assert s == w.states["p"];
    }
    NothingCounts(counted);
  }

  lemma {:induction false} NothingCounts(tracked: seq<State>)
    requires forall s :: s in tracked ==> !Counts(s, GOLD)
    ensures PlanGroups(Sell, GOLD, tracked) == []
  {
    if tracked != [] {
      assert tracked[|tracked| - 1] in tracked;
      NothingCounts(tracked[..|tracked| - 1]);
    }
  }

  lemma SecondSubmits(w: World)
    requires w.states.Keys == {"p", "q"} && w.plans.Keys == {"p", "q"} && w.states["p"].groupStage == RecoveryRequired
    requires w.plans["q"] == Opposite() && w.states["q"] == FreshState(Opposite())
    ensures PlanEffect(w, Account(), "q", Submit("q", OppositeInput()))
         == SubmitEntry(Opposite(), FreshState(Opposite()), Account(), OppositeInput())
  {
    hide SubmitEntry, CheckOppositeExposure;
    FenceClears(w);
  }

  /** A plan that comes back from recovery after the broker stopped reporting anything of it
      faces the opposite plan the fence let through meanwhile: both are live, on an
      instrument that never lets plans oppose. */
  lemma RecoveryDefeatsTheFence()
    ensures
      var cleared := Run(Account(), IntoRecovery() + [Arm(Opposite(), true, true)]);
      && cleared.resting == map[]
      && CheckOppositeExposure(cleared.plans, cleared.states, Account().policies, Opposite(), OppositeInput()) == Some(Clear)
    ensures
      var w := Run(Account(), OppositeRun());
      && NeverOpposes(Account(), GOLD) && !NoOpposites(w, GOLD)
      && Tracked(w, "p") && Tracked(w, "q") && IsLive(w.states["p"]) && IsLive(w.states["q"])
  {
    hide Run, SubmitEntry, PlanEffect, Step, ReconcileSubmittedLegs, CheckOppositeExposure, FreshState;
    var arm, submit, back := Arm(Opposite(), true, true), Submit("q", OppositeInput()), Reconcile("p", Nothing());
    var w0 := Run(Account(), IntoRecovery());
    InRecovery();
    OppositeArmed(w0);
    RunSnocs(IntoRecovery(), arm);
    var w1 := Step(w0, Account(), arm);
    FreshIsSound(Opposite());
    FenceClears(w1);
    SecondSubmits(w1);
    SingleRests("q", Sell, 9, ["p", "q"]);
    PhaseMeans(w1, Account(), submit);
    RunSnocs(IntoRecovery() + [arm], submit);
    var w2 := Step(w1, Account(), submit);
    RecoveryLeft(w2.plans["p"], w2.states["p"]);
    ReconcileMeans(w2, back);
    PhaseMeans(w2, Account(), back);
    RunSnocs(IntoRecovery() + [arm] + [submit], back);
    var w := Step(w2, Account(), back);
    assert Standing(w, "p") && Standing(w, "q");
    assert w.states["p"].direction == Buy && w.states["q"].direction == Sell;
  }
}
