/** One management poll of one open plan: vanished legs, the next target, break-even and
    trailing; and what every run of polls keeps. */
module PositionManagement {
  import opened Common
  import opened TradePlanModel
  import opened ExecutionEngine
  import opened VolumePlanner

  datatype Config = Config(cancelUnfilledAfterTp: bool, pipSize: real, symbol: SymbolInfo)

  datatype CloseAnswer = Executed(volume: int, price: real) | CloseRefused

  /** Why a position left the broker, as far as deals and quote tell, and whether its exit
      price is known. */
  datatype CloseReason = StopOrTarget | ManualOrExternal | UnknownReason
  datatype Lookup = Lookup(reason: CloseReason, priced: bool)

  /** The broker's side of withdrawing unfilled legs; `confirmed` is false when the
      refresh after the cancels fails, which aborts the poll. */
  datatype Withdrawal = Withdrawal(answers: seq<CancelAnswer>, confirmed: bool)

  /** Everything one poll reads from quote and broker. */
  datatype Tick = Tick(
    exit: real,                      // bid for a BUY plan, ask for a SELL plan
    present: set<int>,               // positions in the broker snapshot
    lookups: seq<Lookup>,            // per leg, for legs whose position vanished
    beforeTp: Withdrawal, closes: seq<CloseAnswer>, published: bool,
    beforeBe: Withdrawal, beAmended: bool,
    beforeManualTrail: Withdrawal, manualTrailAmended: bool,
    beforeTrail: Withdrawal, trailAmended: bool)

  /** The record after a step, whether the plan is still tracked, whether the poll goes
      on, and the orders the broker no longer rests. */
  datatype Outcome = Outcome(state: State, tracked: bool, goOn: bool, withdrawn: set<int>)

  predicate HeldAt(leg: Leg, present: set<int>) {
    leg.positionId.Some? && leg.positionId.value in present && leg.remaining > 0
  }

  function HeldLegs(legs: seq<Leg>, present: set<int>): (r: seq<Leg>)
    ensures forall i :: 0 <= i < |r| ==> HeldAt(r[i], present)
    ensures r != [] <==> exists i :: 0 <= i < |legs| && HeldAt(legs[i], present)
  {
    if legs == [] then []
    else
      var n := |legs| - 1;
      var rest := HeldLegs(legs[..n], present);
      if HeldAt(legs[n], present) then rest + [legs[n]] else rest
  }

  predicate AnyHeld(legs: seq<Leg>, present: set<int>) {
    exists i :: 0 <= i < |legs| && HeldAt(legs[i], present)
  }

  // ----- withdrawing what has not filled -------------------------------------------------

  function WithdrawUnfilled(config: Config, state: State, w: Withdrawal): Outcome {
    if !config.cancelUnfilledAfterTp || (forall i :: 0 <= i < |state.legs| ==> !IsCancellable(state.legs[i]))
    then Outcome(state, true, true, {})
    else
      var gone := WithdrawnOrders(state.legs, w.answers);
      if w.confirmed then Outcome(CancelUnfilledEntryLegs(state, w.answers), true, true, gone)
      else Outcome(state, true, false, gone)
  }

  // ----- legs whose position vanished -------------------------------------------------------

  predicate IsMissing(leg: Leg, present: set<int>) {
    IsOpen(leg) && leg.positionId.value !in present
  }

  function LegsAfterVanish(legs: seq<Leg>, present: set<int>): (r: seq<Leg>)
    ensures |r| == |legs|
    ensures forall i :: 0 <= i < |legs| ==>
      r[i] == if IsMissing(legs[i], present) then legs[i].(remaining := 0, stage := Closed) else legs[i]
  {
    seq(|legs|, i requires 0 <= i < |legs| =>
      if IsMissing(legs[i], present) then legs[i].(remaining := 0, stage := Closed) else legs[i])
  }

  function LookupFor(lookups: seq<Lookup>, i: nat): Lookup {
    if i < |lookups| then lookups[i] else Lookup(UnknownReason, false)
  }

  predicate AnyMissing(legs: seq<Leg>, present: set<int>) {
    exists i :: 0 <= i < |legs| && IsMissing(legs[i], present)
  }

  /** What the lookups of the vanished legs have in common. */
  datatype Evidence = Evidence(unknown: bool, priced: bool, stops: bool, manual: bool)

  function EvidenceOf(legs: seq<Leg>, present: set<int>, lookups: seq<Lookup>): Evidence {
    if legs == [] then Evidence(false, true, true, true)
    else
      var n := |legs| - 1;
      var rest, l := EvidenceOf(legs[..n], present, lookups), LookupFor(lookups, n);
      if !IsMissing(legs[n], present) then rest
      else Evidence(rest.unknown || l.reason == UnknownReason, rest.priced && l.priced,
                    rest.stops && l.reason == StopOrTarget, rest.manual && l.reason == ManualOrExternal)
  }

  /** Recovery is raised for reasons that neither explain a close nor can be guessed: with
      legs still open, an unknown close at a known price; with none, a mixture without all
      its prices. */
  predicate RaisesRecovery(e: Evidence, stillOpen: bool) {
    if stillOpen then e.unknown && e.priced
    else !e.unknown && !e.stops && !e.manual && !e.priced
  }

  function ClassifyMissingLegs(state: State, tick: Tick): Outcome {
    if !AnyMissing(state.legs, tick.present)
    then Outcome(state, true, true, {})
    else
      var legs := LegsAfterVanish(state.legs, tick.present);
      var closed := state.(legs := legs);
      var stillOpen := AnyHeld(legs, tick.present);
      if RaisesRecovery(EvidenceOf(state.legs, tick.present, tick.lookups), stillOpen) then
        Outcome(AggregateState(closed.(groupStage := RecoveryRequired)), true, true, {})
      else if stillOpen then
        Outcome(AggregateState(closed.(groupStage := GroupPartiallyClosed)), true, true, {})
      else
        Outcome(AggregateState(closed.(groupStage := GroupClosed, stage := PlanClosed)), false, false, {})
  }

  // ----- the next target ------------------------------------------------------------------------

  /** Volume each leg can give to a close: zero for a leg that is not open. */
  function OpenVolumes(legs: seq<Leg>, present: set<int>): (v: seq<int>)
    ensures |v| == |legs|
    ensures forall i :: 0 <= i < |v| ==>
      v[i] == if HeldAt(legs[i], present) && legs[i].stage != Closed then legs[i].remaining else 0
  {
    seq(|legs|, i requires 0 <= i < |legs| =>
      if HeldAt(legs[i], present) && legs[i].stage != Closed then legs[i].remaining else 0)
  }

  /** Sum of the close ratios from target k on. */
  function RatioFrom(targets: seq<Target>, k: nat): real
    requires k <= |targets|
    decreases |targets| - k
  {
    if k == |targets| then 0.0 else targets[k].closeRatio + RatioFrom(targets, k + 1)
  }

  function DesiredClose(remaining: int, ratio: real, ratioFrom: real): int
    requires ratioFrom > 0.0
  {
    var share := remaining as real * ratio / ratioFrom;
    if share >= 0.0 then share.Floor else -((-share).Floor)
  }

  /** A non-final share under two broker steps is deferred. */
  function TargetCloseVolume(remaining: int, targets: seq<Target>, k: nat, symbol: SymbolInfo): int
    requires k < |targets| && RatioFrom(targets, k) > 0.0
  {
    var isFinal := k >= |targets| - 1;
    var desired := DesiredClose(remaining, targets[k].closeRatio, RatioFrom(targets, k));
    if !isFinal && desired < 2 * symbol.stepVolume then 0
    else PlanPartialCloseVolume(remaining, desired, symbol, isFinal)
  }

  function CloseFor(closes: seq<CloseAnswer>, i: nat): CloseAnswer {
    if i < |closes| then closes[i] else CloseRefused
  }

  function AfterClose(leg: Leg, slice: int, answer: CloseAnswer): Leg {
    if slice <= 0 || answer.CloseRefused? then leg
    else
      var left := if leg.remaining >= answer.volume then leg.remaining - answer.volume else 0;
      leg.(remaining := left, stage := if left <= 0 then Closed else Managing)
  }

  function LegsAfterCloses(legs: seq<Leg>, slices: seq<int>, closes: seq<CloseAnswer>): (r: seq<Leg>)
    requires |slices| == |legs|
    ensures |r| == |legs|
    ensures forall i :: 0 <= i < |legs| ==> r[i] == AfterClose(legs[i], slices[i], CloseFor(closes, i))
  {
    seq(|legs|, i requires 0 <= i < |legs| => AfterClose(legs[i], slices[i], CloseFor(closes, i)))
  }

  predicate AllClosesSucceeded(slices: seq<int>, closes: seq<CloseAnswer>) {
    forall i :: 0 <= i < |slices| && slices[i] > 0 ==> CloseFor(closes, i).Executed?
  }

  /** Signed pip volume one close booked. */
  function LegPips(direction: Direction, leg: Leg, answer: CloseAnswer, pipSize: real): real {
    if answer.CloseRefused? || leg.fillPrice.None? || pipSize <= 0.0 then 0.0
    else
      (if direction == Buy then answer.price - leg.fillPrice.value else leg.fillPrice.value - answer.price)
      / pipSize * answer.volume as real
  }

  function BookedPips(
    direction: Direction, legs: seq<Leg>, slices: seq<int>, closes: seq<CloseAnswer>, pipSize: real): real
    requires |slices| == |legs|
  {
    if legs == [] then 0.0
    else
      var n := |legs| - 1;
      var rest := BookedPips(direction, legs[..n], slices[..n], closes, pipSize);
      if slices[n] <= 0 then rest else rest + LegPips(direction, legs[n], CloseFor(closes, n), pipSize)
  }

  function Advance(state: State): State {
    AggregateState(state.(nextTarget := state.nextTarget + 1))
  }

  /** The reached target is not beyond the fill: passed over without closing anything. */
  predicate SkipsTarget(plan: Plan, state: State, exit: real) {
    && state.nextTarget < |plan.targets|
    && HasReachedExitTarget(plan.direction, exit, plan.targets[state.nextTarget].price)
    && (state.groupFill.None?
        || !TargetIsBeyondFill(plan.direction, state.groupFill.value, plan.targets[state.nextTarget].price))
  }

  function TakeTarget(plan: Plan, config: Config, state: State, tick: Tick): Outcome {
    var k := state.nextTarget;
    if k >= |plan.targets| || !HasReachedExitTarget(plan.direction, tick.exit, plan.targets[k].price)
    then Outcome(state, true, true, {})
    else if SkipsTarget(plan, state, tick.exit) then Outcome(Advance(state), true, false, {})
    else if !ExitIsFavorableVsFill(plan.direction, state.groupFill.value, tick.exit)
    then Outcome(state, true, false, {})
    else
      var w := WithdrawUnfilled(config, state, tick.beforeTp);
      if !w.goOn then w
      else BookTarget(plan, config, w.state, tick, w.withdrawn)
  }

  /** The record once every slice is closed: the target counts as booked. */
  function BookedState(plan: Plan, config: Config, state: State, slices: seq<int>, closes: seq<CloseAnswer>): State
    requires state.nextTarget < |plan.targets| && |slices| == |state.legs|
  {
    var legs := LegsAfterCloses(state.legs, slices, closes);
    var booked := IndexOfTarget(plan.targets, plan.targets[state.nextTarget].targetId);
    state.(
      legs := legs, nextTarget := state.nextTarget + 1,
      highestBooked := if booked > state.highestBooked then booked else state.highestBooked,
      bookedPipVolume := state.bookedPipVolume
        + BookedPips(plan.direction, state.legs, slices, closes, config.pipSize),
      groupStage := if Sum(RemainingVolumes(legs)) <= 0 then GroupClosed else GroupPartiallyClosed)
  }

  /** The record after the broker answered the closes of a target. */
  function CloseOutcome(
    plan: Plan, config: Config, state: State, tick: Tick, slices: seq<int>, withdrawn: set<int>): Outcome
    requires state.nextTarget < |plan.targets| && |slices| == |state.legs|
  {
    var legs := LegsAfterCloses(state.legs, slices, tick.closes);
    if !AllClosesSucceeded(slices, tick.closes)
    then Outcome(AggregateState(state.(legs := legs)), true, false, withdrawn)
    else if !tick.published then Outcome(state, true, false, withdrawn)
    else
      var emptied := Sum(RemainingVolumes(legs)) <= 0;
      var next := AggregateState(BookedState(plan, config, state, slices, tick.closes));
      Outcome(next, !emptied, !emptied, withdrawn)
  }

  function BookTarget(plan: Plan, config: Config, state: State, tick: Tick, withdrawn: set<int>): Outcome
    requires state.nextTarget < |plan.targets|
  {
    var k := state.nextTarget;
    var held := OpenVolumes(state.legs, tick.present);
    if (forall i :: 0 <= i < |held| ==> held[i] <= 0) || RatioFrom(plan.targets, k) <= 0.0
    then Outcome(state, true, false, withdrawn)
    else
      var close := TargetCloseVolume(Sum(held), plan.targets, k, config.symbol);
      var slices := Allocation(held, close, config.symbol);
      if close <= 0 || Sum(slices) <= 0 then Outcome(Advance(state), true, false, withdrawn)
      else CloseOutcome(plan, config, state, tick, slices, withdrawn)
  }

  // ----- stop moves ------------------------------------------------------------------------------

  function BreakEvenReference(state: State, present: set<int>, fallback: real): real {
    var reference := EntryLegs(HeldLegs(state.legs, present));
    var (value, volume) := HeldTotals(reference);
    if reference != [] && FillsKnown(reference) && volume != 0 then value / volume as real else fallback
  }

  function ApplyBreakEven(plan: Plan, config: Config, state: State, tick: Tick): Outcome {
    var be := plan.management.beAfter;
    var index := if be.None? then -1 else IndexOfTarget(plan.targets, be.value);
    var own := WeightedFillPrice(EntryLegs(state.legs));
    var fill := if own.Some? then own else state.groupFill;
    if state.breakEvenApplied || index < 0 || fill.None? || state.highestBooked < index
    then Outcome(state, true, true, {})
    else
      var w := WithdrawUnfilled(config, state, tick.beforeBe);
      if !w.goOn then w
      else
        var s := w.state;
        var digits := config.symbol.digits;
        var move :=
          if plan.manual then
            CalculateManualGroupBreakEven(
              plan.direction, plan.management.beBufferTicks, HeldLegs(s.legs, tick.present),
              Sum(FilledVolumes(s.legs)), s.bookedPipVolume, config.pipSize, s.currentStop, digits,
              PlannedDeepestEntry(plan, s.legs))
          else
            CalculateBreakEven(
              plan.direction, plan.management.beBufferTicks,
              BreakEvenReference(s, tick.present, fill.value), s.currentStop, digits);
        if move.improved && AnyHeld(s.legs, tick.present) && tick.beAmended
        then Outcome(s.(currentStop := move.newStop, breakEvenApplied := true), true, true, w.withdrawn)
        else w
  }

  function ApplyManualTrail(plan: Plan, config: Config, state: State, tick: Tick): Outcome {
    var move := if plan.manual
                then PlanManualTrailStop(plan, state.highestBooked + 1, state.legs, config.symbol.digits)
                else None;
    if move.None? || !Tighter(plan.direction, move.value, state.currentStop)
    then Outcome(state, true, true, {})
    else
      var w := WithdrawUnfilled(config, state, tick.beforeManualTrail);
      if w.goOn && AnyHeld(w.state.legs, tick.present) && tick.manualTrailAmended
      then Outcome(w.state.(currentStop := move.value), true, true, w.withdrawn)
      else w
  }

  function ApplyTrail(plan: Plan, config: Config, state: State, tick: Tick): Outcome {
    var to := if plan.manual then -1 else ResolveTrailTargetIndex(plan, state.nextTarget, state.highestBooked);
    if to < 0 then Outcome(state, true, true, {})
    else
      var w := WithdrawUnfilled(config, state, tick.beforeTrail);
      var desired := RoundTo(plan.targets[to].price, config.symbol.digits);
      if w.goOn && Tighter(plan.direction, desired, w.state.currentStop)
         && AnyHeld(w.state.legs, tick.present) && tick.trailAmended
      then Outcome(w.state.(currentStop := desired), true, true, w.withdrawn)
      else w
  }

  // ----- the whole poll --------------------------------------------------------------------------------

  predicate IsManagingStage(state: State) {
    && (state.stage == PartiallyOpen || state.stage == FullyOpen)
    && (exists i :: 0 <= i < |state.legs| && state.legs[i].positionId.Some?)
    && state.groupStage != RecoveryRequired
  }

  function Then(first: Outcome, second: Outcome): Outcome {
    if !first.tracked || !first.goOn then first else second.(withdrawn := first.withdrawn + second.withdrawn)
  }

  /** The stop moves of a poll, in order. */
  function MoveStops(plan: Plan, config: Config, state: State, tick: Tick): Outcome {
    var a := ApplyBreakEven(plan, config, state, tick);
    var b := Then(a, ApplyManualTrail(plan, config, a.state, tick));
    Then(b, ApplyTrail(plan, config, b.state, tick))
  }

  function ManagePlan(plan: Plan, config: Config, state: State, tick: Tick): Outcome {
    if !IsManagingStage(state) then Outcome(state, true, true, {})
    else
      var a := ClassifyMissingLegs(AggregateState(state), tick);
      if !a.tracked || !AnyHeld(a.state.legs, tick.present) then a
      else
        var b := TakeTarget(plan, config, a.state, tick);
        Then(b, MoveStops(plan, config, b.state, tick))
  }

  // ----- stops: what every run of polls keeps -------------------------------------------------------

  /** Target bookkeeping of a tracked plan. */
  predicate TargetsInOrder(plan: Plan, state: State) {
    && -1 <= state.highestBooked < state.nextTarget as int
    && state.nextTarget <= |plan.targets|
    && (state.breakEvenApplied ==>
          && plan.management.beAfter.Some?
          && 0 <= IndexOfTarget(plan.targets, plan.management.beAfter.value) <= state.highestBooked)
  }

  /** `after` is a possible successor of `before` as far as stop and targets go. */
  predicate Progresses(plan: Plan, before: State, after: State) {
    && AtLeastAsTight(plan.direction, after.currentStop, before.currentStop)
    && after.highestBooked >= before.highestBooked
    && after.nextTarget >= before.nextTarget
    && (before.breakEvenApplied ==> after.breakEvenApplied)
    && (after.highestBooked > before.highestBooked ==> after.highestBooked <= before.nextTarget)
    && (TargetsInOrder(plan, before) ==> TargetsInOrder(plan, after))
  }

  lemma WithdrawProgresses(plan: Plan, config: Config, state: State, w: Withdrawal)
    ensures Progresses(plan, state, WithdrawUnfilled(config, state, w).state)
    ensures WithdrawUnfilled(config, state, w).state.currentStop == state.currentStop
    ensures WithdrawUnfilled(config, state, w).state.nextTarget == state.nextTarget
    ensures WithdrawUnfilled(config, state, w).state.highestBooked == state.highestBooked
    ensures WithdrawUnfilled(config, state, w).state.breakEvenApplied == state.breakEvenApplied
  {
    hide WeightedFillPrice, DeriveRuntimeStage, DeriveGroupStage;
  }

  /** Re-deriving a record leaves stop and targets alone. */
  lemma AggregateKeepsProgress(state: State)
    ensures
      var a := AggregateState(state);
      && a.currentStop == state.currentStop && a.highestBooked == state.highestBooked
      && a.nextTarget == state.nextTarget && a.breakEvenApplied == state.breakEvenApplied
  {}

  lemma BookedStateProgresses(
    plan: Plan, config: Config, state: State, slices: seq<int>, closes: seq<CloseAnswer>)
    requires state.nextTarget < |plan.targets| && |slices| == |state.legs|
    ensures Progresses(plan, state, AggregateState(BookedState(plan, config, state, slices, closes)))
  {
    hide AggregateState, BookedPips;
    AggregateKeepsProgress(BookedState(plan, config, state, slices, closes));
  }

  lemma AdvanceProgresses(plan: Plan, state: State)
    requires state.nextTarget < |plan.targets|
    ensures Progresses(plan, state, Advance(state))
  {
    hide AggregateState;
    AggregateKeepsProgress(state.(nextTarget := state.nextTarget + 1));
  }

  lemma BookTargetProgresses(plan: Plan, config: Config, state: State, tick: Tick, withdrawn: set<int>)
    requires state.nextTarget < |plan.targets|
    ensures Progresses(plan, state, BookTarget(plan, config, state, tick, withdrawn).state)
  {
    hide AggregateState, BookedState, Allocation, TargetCloseVolume, RatioFrom, Advance, AllClosesSucceeded,
      LegsAfterCloses;
    AdvanceProgresses(plan, state);
    var k := state.nextTarget;
    if RatioFrom(plan.targets, k) > 0.0 {
      var held := OpenVolumes(state.legs, tick.present);
      var slices := Allocation(held, TargetCloseVolume(Sum(held), plan.targets, k, config.symbol), config.symbol);
      AggregateKeepsProgress(state.(legs := LegsAfterCloses(state.legs, slices, tick.closes)));
      BookedStateProgresses(plan, config, state, slices, tick.closes);
    }
  }

  lemma TakeTargetProgresses(plan: Plan, config: Config, state: State, tick: Tick)
    ensures Progresses(plan, state, TakeTarget(plan, config, state, tick).state)
  {
    hide WithdrawUnfilled, BookTarget, Advance, HasReachedExitTarget;
    WithdrawProgresses(plan, config, state, tick.beforeTp);
    if state.nextTarget < |plan.targets| {
      AdvanceProgresses(plan, state);
      var w := WithdrawUnfilled(config, state, tick.beforeTp);
      BookTargetProgresses(plan, config, w.state, tick, w.withdrawn);
    }
  }

  lemma MoveStopsProgresses(plan: Plan, config: Config, state: State, tick: Tick)
    ensures Progresses(plan, state, MoveStops(plan, config, state, tick).state)
    ensures MoveStops(plan, config, state, tick).state.highestBooked == state.highestBooked
  {
    hide WithdrawUnfilled, CalculateManualGroupBreakEven, CalculateBreakEven, BreakEvenReference,
      PlanManualTrailStop, ResolveTrailTargetIndex, RoundTo, WeightedFillPrice;
    var a := ApplyBreakEven(plan, config, state, tick);
    WithdrawProgresses(plan, config, state, tick.beforeBe);
    assert Progresses(plan, state, a.state);
    WithdrawProgresses(plan, config, a.state, tick.beforeManualTrail);
    var b := ApplyManualTrail(plan, config, a.state, tick);
    assert Progresses(plan, a.state, b.state);
    WithdrawProgresses(plan, config, b.state, tick.beforeTrail);
  }

  /** One poll never loosens the recorded stop, never lowers the highest booked target,
      never undoes break-even, and keeps the bookkeeping in order. */
  lemma ManagePlanProgresses(plan: Plan, config: Config, state: State, tick: Tick)
    ensures Progresses(plan, state, ManagePlan(plan, config, state, tick).state)
  {
    hide TakeTarget, MoveStops, ClassifyMissingLegs, AggregateState, IsManagingStage;
    if IsManagingStage(state) {
      AggregateKeepsProgress(state);
      var a := ClassifyMissingLegs(AggregateState(state), tick);
      ClassifyKeepsProgress(AggregateState(state), tick);
      TakeTargetProgresses(plan, config, a.state, tick);
      MoveStopsProgresses(plan, config, TakeTarget(plan, config, a.state, tick).state, tick);
    }
  }

  lemma ClassifyKeepsProgress(state: State, tick: Tick)
    ensures
      var a := ClassifyMissingLegs(state, tick).state;
      && a.currentStop == state.currentStop && a.highestBooked == state.highestBooked
      && a.nextTarget == state.nextTarget && a.breakEvenApplied == state.breakEvenApplied
  {
    hide AggregateState;
    var closed := state.(legs := LegsAfterVanish(state.legs, tick.present));
    AggregateKeepsProgress(closed.(groupStage := RecoveryRequired));
    AggregateKeepsProgress(closed.(groupStage := GroupPartiallyClosed));
    AggregateKeepsProgress(closed.(groupStage := GroupClosed, stage := PlanClosed));
  }

  /** The record after a run of polls; a plan that stops being tracked stays as it was. */
  function RunPolls(plan: Plan, config: Config, state: State, ticks: seq<Tick>): Outcome {
    if ticks == [] then Outcome(state, true, true, {})
    else
      var before := RunPolls(plan, config, state, ticks[..|ticks| - 1]);
      if !before.tracked then before
      else ManagePlan(plan, config, before.state, ticks[|ticks| - 1])
  }

  /** Over any run of polls, whatever the broker answers: the stop only tightens, targets
      are passed in order, break-even is only ever applied behind a target that was
      really booked. */
  lemma {:induction false} StopsNeverLoosen(plan: Plan, config: Config, state: State, ticks: seq<Tick>)
    ensures
      var after := RunPolls(plan, config, state, ticks).state;
      && AtLeastAsTight(plan.direction, after.currentStop, state.currentStop)
      && after.highestBooked >= state.highestBooked
      && after.nextTarget >= state.nextTarget
      && (TargetsInOrder(plan, state) ==> TargetsInOrder(plan, after))
  {
    if ticks != [] {
      StopsNeverLoosen(plan, config, state, ticks[..|ticks| - 1]);
      var before := RunPolls(plan, config, state, ticks[..|ticks| - 1]);
      ManagePlanProgresses(plan, config, before.state, ticks[|ticks| - 1]);
    }
  }
}
