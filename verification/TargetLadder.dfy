/** Volume over a whole ladder of targets: what is left before each target, and that
    closed plus remaining is always what filled. */
module TargetLadder {
  import opened Common
  import opened TradePlanModel
  import opened ExecutionEngine
  import opened VolumePlanner
  import opened PositionManagement

  function Remaining(state: State): int { Sum(RemainingVolumes(state.legs)) }
  function Filled(state: State): int { Sum(FilledVolumes(state.legs)) }

  /** Positive close ratios on an instrument whose minimum is at most one step. */
  predicate LadderContract(plan: Plan, symbol: SymbolInfo) {
    && 0 < symbol.minVolume <= symbol.stepVolume
    && plan.targets != []
    && forall k :: 0 <= k < |plan.targets| ==> plan.targets[k].closeRatio > 0.0
  }

  /** Step-aligned legs, each holding a position while it holds volume. */
  predicate AlignedLegs(legs: seq<Leg>, symbol: SymbolInfo)
    requires symbol.stepVolume > 0
  {
    forall i :: 0 <= i < |legs| ==>
      && 0 <= legs[i].remaining && Aligned(legs[i].remaining, symbol.stepVolume)
      && (legs[i].remaining > 0 ==> legs[i].positionId.Some? && legs[i].stage != Closed)
  }

  predicate AllPresent(legs: seq<Leg>, present: set<int>) {
    forall i :: 0 <= i < |legs| && legs[i].remaining > 0 ==>
      legs[i].positionId.Some? && legs[i].positionId.value in present
  }

  /** What the poll would close on each leg. */
  function Slices(plan: Plan, config: Config, state: State, tick: Tick): (s: seq<int>)
    ensures |s| == |state.legs|
  {
    var held := OpenVolumes(state.legs, tick.present);
    var k := state.nextTarget;
    if k < |plan.targets| && RatioFrom(plan.targets, k) > 0.0
    then Allocation(held, TargetCloseVolume(Sum(held), plan.targets, k, config.symbol), config.symbol)
    else seq(|state.legs|, _ => 0)
  }

  /** Volumes the broker reported for the closes it was asked for. */
  function ExecutedVolumes(slices: seq<int>, closes: seq<CloseAnswer>): (v: seq<int>)
    ensures |v| == |slices|
    ensures forall i :: 0 <= i < |v| ==>
      v[i] == if slices[i] > 0 && CloseFor(closes, i).Executed? then CloseFor(closes, i).volume else 0
  {
    seq(|slices|, i requires 0 <= i < |slices| =>
      if slices[i] > 0 && CloseFor(closes, i).Executed? then CloseFor(closes, i).volume else 0)
  }

  /** Executed closes report whole steps and never more than was asked for. */
  predicate NeverOverExecuted(slices: seq<int>, closes: seq<CloseAnswer>, step: int)
    requires step > 0
  {
    forall i :: 0 <= i < |slices| && slices[i] > 0 && CloseFor(closes, i).Executed? ==>
      0 <= CloseFor(closes, i).volume <= slices[i] && Aligned(CloseFor(closes, i).volume, step)
  }

  predicate FullyExecuted(slices: seq<int>, closes: seq<CloseAnswer>) {
    forall i :: 0 <= i < |slices| && slices[i] > 0 ==>
      CloseFor(closes, i).Executed? && CloseFor(closes, i).volume == slices[i]
  }

  /** Closes over positions that are all still there, reported once they are done. */
  predicate CalmClose(plan: Plan, config: Config, state: State, tick: Tick)
    requires config.symbol.stepVolume > 0
  {
    && AllPresent(state.legs, tick.present)
    && tick.published
    && NeverOverExecuted(Slices(plan, config, state, tick), tick.closes, config.symbol.stepVolume)
  }

  // ----- steps that move no volume -----------------------------------------------------------

  /** Same volumes and target position; only orders, stops and stages may differ. */
  predicate SameBook(a: State, b: State) {
    && |a.legs| == |b.legs| && a.nextTarget == b.nextTarget
    && forall i :: 0 <= i < |a.legs| ==>
         && a.legs[i].remaining == b.legs[i].remaining && a.legs[i].filled == b.legs[i].filled
         && a.legs[i].positionId == b.legs[i].positionId
         && (a.legs[i].positionId.Some? ==> a.legs[i].stage == b.legs[i].stage)
  }

  lemma WithdrawKeepsBook(config: Config, state: State, w: Withdrawal)
    ensures SameBook(state, WithdrawUnfilled(config, state, w).state)
  {
    hide WeightedFillPrice, DeriveRuntimeStage, DeriveGroupStage;
  }

  lemma MoveStopsKeepsBook(plan: Plan, config: Config, state: State, tick: Tick)
    ensures SameBook(state, MoveStops(plan, config, state, tick).state)
  {
    hide WithdrawUnfilled, CalculateManualGroupBreakEven, CalculateBreakEven, BreakEvenReference,
      PlanManualTrailStop, ResolveTrailTargetIndex, RoundTo, WeightedFillPrice;
    var a := ApplyBreakEven(plan, config, state, tick);
    WithdrawKeepsBook(config, state, tick.beforeBe);
    WithdrawKeepsBook(config, a.state, tick.beforeManualTrail);
    var b := ApplyManualTrail(plan, config, a.state, tick);
    WithdrawKeepsBook(config, b.state, tick.beforeTrail);
  }

  // ----- closing ---------------------------------------------------------------------------------

  lemma {:induction false} SumDifference(a: seq<int>, b: seq<int>, c: seq<int>)
    requires |a| == |b| == |c|
    requires forall i :: 0 <= i < |a| ==> c[i] == a[i] - b[i]
    ensures Sum(c) == Sum(a) - Sum(b)
  {
    if a != [] {
      var n := |a| - 1;
      SumDifference(a[..n], b[..n], c[..n]);
    }
  }

  /** Slices never exceed what the legs hold, and sum to the aligned close volume. */
  lemma AllocationFits(held: seq<int>, close: int, symbol: SymbolInfo)
    requires symbol.stepVolume > 0 && 0 <= close <= Sum(held) && Aligned(close, symbol.stepVolume)
    requires forall i :: 0 <= i < |held| ==> held[i] >= 0 && Aligned(held[i], symbol.stepVolume)
    ensures
      var slices := Allocation(held, close, symbol);
      && Sum(slices) == close
      && forall i :: 0 <= i < |slices| ==> 0 <= slices[i] <= held[i] && Aligned(slices[i], symbol.stepVolume)
  {
    hide StepDown, Aligned, ShallowFirst, Sum;
    SumNonNegative(held);
    if close <= 0 || Sum(held) <= 0 {
      ZeroSum(|held|);
      MultipleAligned(0, symbol.stepVolume);
    } else {
      StepDownAligned(close, symbol.stepVolume);
      ShallowFirstExact(held, close, symbol.stepVolume);
    }
  }

  lemma {:induction false} ZeroSum(n: nat)
    ensures Sum(seq(n, _ => 0)) == 0
  {
    SumAtMost(seq(n, _ => 0), 0);
    SumNonNegative(seq(n, _ => 0));
  }

  lemma PresentVolumes(legs: seq<Leg>, symbol: SymbolInfo, present: set<int>)
    requires symbol.stepVolume > 0 && AlignedLegs(legs, symbol) && AllPresent(legs, present)
    ensures OpenVolumes(legs, present) == RemainingVolumes(legs)
  {}

  lemma {:induction false} RatioFromPositive(targets: seq<Target>, k: nat)
    requires k <= |targets| && forall i :: 0 <= i < |targets| ==> targets[i].closeRatio > 0.0
    ensures RatioFrom(targets, k) >= 0.0
    ensures k < |targets| ==> RatioFrom(targets, k) >= targets[k].closeRatio
    ensures k < |targets| - 1 ==> RatioFrom(targets, k) > targets[k].closeRatio
    decreases |targets| - k
  {
    if k < |targets| {
      RatioFromPositive(targets, k + 1);
    }
  }

  /** The target's exact, unrounded share of what is left. */
  function ExactShare(remaining: int, ratio: real, from: real): real
    requires from > 0.0
  {
    remaining as real * ratio / from
  }

  /** The close never exceeds the target's exact share of what is left and falls short of
      it by less than two steps; the last target closes everything. */
  lemma CloseBounds(remaining: int, targets: seq<Target>, k: nat, symbol: SymbolInfo)
    requires 0 < symbol.minVolume <= symbol.stepVolume
    requires k < |targets| && forall i :: 0 <= i < |targets| ==> targets[i].closeRatio > 0.0
    requires remaining > 0 && Aligned(remaining, symbol.stepVolume)
    requires RatioFrom(targets, k) > 0.0
    ensures
      var close := TargetCloseVolume(remaining, targets, k, symbol);
      var share := ExactShare(remaining, targets[k].closeRatio, RatioFrom(targets, k));
      && 0 <= close <= remaining && Aligned(close, symbol.stepVolume)
      && share - 2.0 * symbol.stepVolume as real < close as real <= share
      && (k == |targets| - 1 ==> close == remaining)
  {
    hide Aligned, RatioFrom, ExactShare, DesiredClose, PlanPartialCloseVolume;
    var ratio, from := targets[k].closeRatio, RatioFrom(targets, k);
    RatioFromPositive(targets, k);
    if k == |targets| - 1 {
      LastRatio(targets);
      WholeShare(remaining, ratio, from);
      FinalClose(remaining, DesiredClose(remaining, ratio, from), symbol);
    } else {
      ShareBelow(remaining, ratio, from);
      NonFinalClose(remaining, DesiredClose(remaining, ratio, from), symbol);
    }
  }

  lemma FinalClose(remaining: int, desired: int, symbol: SymbolInfo)
    ensures remaining > 0 ==> PlanPartialCloseVolume(remaining, desired, symbol, true) == remaining
  {}

  lemma LastRatio(targets: seq<Target>)
    requires targets != []
    ensures RatioFrom(targets, |targets| - 1) == targets[|targets| - 1].closeRatio
  {}

  lemma QuotientNonNegative(x: real, d: real)
    requires x >= 0.0 && d > 0.0
    ensures x / d >= 0.0
  {}

  lemma ShareBelow(remaining: int, ratio: real, from: real)
    requires remaining > 0 && 0.0 < ratio < from
    ensures
      var share := ExactShare(remaining, ratio, from);
      && 0.0 <= share < remaining as real
      && DesiredClose(remaining, ratio, from) as real <= share < DesiredClose(remaining, ratio, from) as real + 1.0
      && 0 <= DesiredClose(remaining, ratio, from) < remaining
  {
    var r := remaining as real;
    var share := r * ratio / from;
    assert share * from == r * ratio;
    assert r * ratio < r * from;
    if share >= r {
      MulLeReal(r, share, from);
    }
    QuotientNonNegative(r * ratio, from);
  }

  lemma NonFinalClose(remaining: int, desired: int, symbol: SymbolInfo)
    requires 0 < symbol.minVolume <= symbol.stepVolume
    requires 0 <= desired < remaining && Aligned(remaining, symbol.stepVolume)
    ensures
      var close := if desired < 2 * symbol.stepVolume then 0
                   else PlanPartialCloseVolume(remaining, desired, symbol, false);
      && 0 <= close <= desired && Aligned(close, symbol.stepVolume)
      && desired < close + 2 * symbol.stepVolume
  {
    hide Aligned;
    var step := symbol.stepVolume;
    MultipleAligned(0, step);
    if desired >= 2 * step {
      DownToStep(desired, step);
      var down := desired / step * step;
      AlignedSum(remaining, down, step);
      AlignedSum(down, remaining, step);
      assert (remaining - down) % step == 0 by { AlignedMeans(remaining - down, step); }
    }
  }

  lemma AlignedMeans(v: int, step: int)
    requires step > 0 && Aligned(v, step)
    ensures v % step == 0
  {}

  lemma DownToStep(v: int, step: int)
    requires step > 0 && v >= 0
    ensures v - step < v / step * step <= v && Aligned(v / step * step, step)
  {
    MultipleAligned(v / step, step);
  }

  lemma WholeShare(remaining: int, ratio: real, from: real)
    requires 0.0 < ratio == from
    ensures ExactShare(remaining, ratio, from) == remaining as real
  {}

  // ----- one poll over the ladder ------------------------------------------------------------------

  /** The next target is reached and may be booked. */
  predicate ReachesBooking(plan: Plan, config: Config, state: State, tick: Tick) {
    && state.nextTarget < |plan.targets|
    && HasReachedExitTarget(plan.direction, tick.exit, plan.targets[state.nextTarget].price)
    && !SkipsTarget(plan, state, tick.exit)
    && ExitIsFavorableVsFill(plan.direction, state.groupFill.value, tick.exit)
    && WithdrawUnfilled(config, state, tick.beforeTp).goOn
  }

  /** The poll gets as far as closing the target's share. */
  predicate Books(plan: Plan, config: Config, state: State, tick: Tick) {
    && IsManagingStage(state) && AnyHeld(state.legs, tick.present)
    && ReachesBooking(plan, config, AggregateState(state), tick)
  }

  /** A poll in which every position is still there and, if it closes anything, closes are
      never overdone and the booking is reported. */
  predicate CalmPoll(plan: Plan, config: Config, state: State, tick: Tick)
    requires config.symbol.stepVolume > 0
  {
    && AllPresent(state.legs, tick.present)
    && (Books(plan, config, state, tick) ==> CalmClose(plan, config, state, tick))
  }

  /** Every close asked for was refused, or failed. */
  predicate NothingExecuted(slices: seq<int>, closes: seq<CloseAnswer>) {
    forall i :: 0 <= i < |slices| && slices[i] > 0 ==> CloseFor(closes, i).CloseRefused?
  }

  /** A calm poll in which every close succeeds, at whatever volume, or none does. */
  predicate CleanPoll(plan: Plan, config: Config, state: State, tick: Tick)
    requires config.symbol.stepVolume > 0
  {
    && CalmPoll(plan, config, state, tick)
    && (Books(plan, config, state, tick) ==>
          || AllClosesSucceeded(Slices(plan, config, state, tick), tick.closes)
          || NothingExecuted(Slices(plan, config, state, tick), tick.closes))
  }

  /** Every close succeeds, and some with less than it was asked for. */
  predicate FallsShort(plan: Plan, config: Config, state: State, tick: Tick) {
    && Books(plan, config, state, tick) && AllClosesSucceeded(Slices(plan, config, state, tick), tick.closes)
    && !FullyExecuted(Slices(plan, config, state, tick), tick.closes)
  }

  /** What the broker reported closed during the poll. */
  function ClosedVolume(plan: Plan, config: Config, state: State, tick: Tick): int {
    if Books(plan, config, state, tick)
    then Sum(ExecutedVolumes(Slices(plan, config, state, tick), tick.closes)) else 0
  }

  /** The poll passes the target without trying to close anything on it. */
  predicate Skips(plan: Plan, config: Config, state: State, tick: Tick) {
    IsManagingStage(state) && AnyHeld(state.legs, tick.present) && SkipsTarget(plan, AggregateState(state), tick.exit)
  }

  lemma SameBookSlices(plan: Plan, config: Config, a: State, b: State, tick: Tick, symbol: SymbolInfo)
    requires SameBook(a, b)
    ensures Slices(plan, config, a, tick) == Slices(plan, config, b, tick)
    ensures symbol.stepVolume > 0 && AlignedLegs(a.legs, symbol) ==> AlignedLegs(b.legs, symbol)
    ensures AllPresent(a.legs, tick.present) ==> AllPresent(b.legs, tick.present)
  {
    hide Allocation, TargetCloseVolume, RatioFrom, Aligned;
    assert OpenVolumes(a.legs, tick.present) == OpenVolumes(b.legs, tick.present);
  }

  /** A booking takes from each leg exactly what the broker reported for it. */
  predicate LegsTake(before: seq<Leg>, after: seq<Leg>, executed: seq<int>) {
    && |after| == |before| == |executed|
    && forall i :: 0 <= i < |before| ==>
         && after[i].remaining == before[i].remaining - executed[i]
         && after[i].filled == before[i].filled && after[i].positionId == before[i].positionId
         && (after[i].remaining > 0 && after[i].positionId.Some? ==>
               after[i].stage != Closed || after[i].stage == before[i].stage)
  }

  lemma ClosesTake(legs: seq<Leg>, slices: seq<int>, closes: seq<CloseAnswer>, step: int)
    requires step > 0 && |slices| == |legs| && NeverOverExecuted(slices, closes, step)
    requires forall i :: 0 <= i < |legs| ==> 0 <= slices[i] <= legs[i].remaining
    ensures LegsTake(legs, LegsAfterCloses(legs, slices, closes), ExecutedVolumes(slices, closes))
  {}

  lemma NothingTaken(legs: seq<Leg>, slices: seq<int>, closes: seq<CloseAnswer>)
    requires |slices| == |legs| && forall i :: 0 <= i < |legs| ==> slices[i] <= 0
    ensures LegsTake(legs, legs, ExecutedVolumes(slices, closes))
  {}

  lemma TakenSum(before: State, after: State, executed: seq<int>)
    requires LegsTake(before.legs, after.legs, executed)
    ensures Filled(after) == Filled(before) && Remaining(after) == Remaining(before) - Sum(executed)
  {
    assert FilledVolumes(before.legs) == FilledVolumes(after.legs);
    SumDifference(RemainingVolumes(before.legs), executed, RemainingVolumes(after.legs));
  }

  /** The slices of a poll fit the legs; together they are the target's close volume. */
  lemma SlicesFit(plan: Plan, config: Config, state: State, tick: Tick)
    requires LadderContract(plan, config.symbol) && AlignedLegs(state.legs, config.symbol)
    requires AllPresent(state.legs, tick.present) && state.nextTarget < |plan.targets|
    ensures RatioFrom(plan.targets, state.nextTarget) > 0.0
    ensures
      var slices := Slices(plan, config, state, tick);
      && (forall i :: 0 <= i < |slices| ==> 0 <= slices[i] <= state.legs[i].remaining)
      && (forall i :: 0 <= i < |slices| ==> Aligned(slices[i], config.symbol.stepVolume))
      && (Remaining(state) > 0 ==>
            Sum(slices) == TargetCloseVolume(Remaining(state), plan.targets, state.nextTarget, config.symbol))
      && OpenVolumes(state.legs, tick.present) == RemainingVolumes(state.legs)
      && Sum(RemainingVolumes(state.legs)) >= 0
  {
    hide Allocation, TargetCloseVolume, RatioFrom, Aligned, Sum;
    RatioFromPositive(plan.targets, state.nextTarget);
    PresentVolumes(state.legs, config.symbol, tick.present);
    SumNonNegative(RemainingVolumes(state.legs));
    var held := RemainingVolumes(state.legs);
    if Sum(held) > 0 {
      SumAlignedVolumes(held, config.symbol.stepVolume);
      CloseBounds(Sum(held), plan.targets, state.nextTarget, config.symbol);
      AllocationFits(held, TargetCloseVolume(Sum(held), plan.targets, state.nextTarget, config.symbol), config.symbol);
    } else {
      AllocationOfNothing(held, TargetCloseVolume(Sum(held), plan.targets, state.nextTarget, config.symbol), config.symbol);
    }
  }

  lemma AllocationOfNothing(held: seq<int>, close: int, symbol: SymbolInfo)
    requires symbol.stepVolume > 0 && Sum(held) <= 0
    requires forall i :: 0 <= i < |held| ==> 0 <= held[i]
    ensures forall i :: 0 <= i < |held| ==> 0 <= Allocation(held, close, symbol)[i] <= held[i]
    ensures forall i :: 0 <= i < |held| ==> Aligned(Allocation(held, close, symbol)[i], symbol.stepVolume)
  {
    MultipleAligned(0, symbol.stepVolume);
  }

  lemma {:induction false} SumAlignedVolumes(v: seq<int>, step: int)
    requires step > 0 && forall i :: 0 <= i < |v| ==> Aligned(v[i], step)
    ensures Aligned(Sum(v), step)
  {
    hide Aligned;
    if v == [] {
      MultipleAligned(0, step);
    } else {
      SumAlignedVolumes(v[..|v| - 1], step);
      AlignedSum(Sum(v[..|v| - 1]), v[|v| - 1], step);
    }
  }

  /** Booking: legs give exactly what was executed; the target is passed exactly when no
      close failed. */
  lemma BookTargetTakes(plan: Plan, config: Config, state: State, tick: Tick, withdrawn: set<int>)
    requires LadderContract(plan, config.symbol) && AlignedLegs(state.legs, config.symbol)
    requires CalmClose(plan, config, state, tick) && state.nextTarget < |plan.targets|
    ensures
      var slices := Slices(plan, config, state, tick);
      var after := BookTarget(plan, config, state, tick, withdrawn).state;
      && LegsTake(state.legs, after.legs, ExecutedVolumes(slices, tick.closes))
      && (AnyHeld(state.legs, tick.present) ==>
            after.nextTarget == state.nextTarget + if AllClosesSucceeded(slices, tick.closes) then 1 else 0)
  {
    hide Allocation, TargetCloseVolume, RatioFrom, Aligned, Sum, WeightedFillPrice, DeriveRuntimeStage,
      DeriveGroupStage, BookedPips;
    SlicesFit(plan, config, state, tick);
    var slices := Slices(plan, config, state, tick);
    SumNonNegative(slices);
    SumNonNegative(RemainingVolumes(state.legs));
    if forall i :: 0 <= i < |slices| ==> slices[i] <= 0 {
      SumAtMost(slices, 0);
      NothingTaken(state.legs, slices, tick.closes);
    } else {
      ClosesTake(state.legs, slices, tick.closes, config.symbol.stepVolume);
    }
  }

  /** Per leg, what the broker reported closed during the poll. */
  function ExecutedPerLeg(plan: Plan, config: Config, state: State, tick: Tick): (v: seq<int>)
    ensures |v| == |state.legs|
  {
    if Books(plan, config, state, tick)
    then ExecutedVolumes(Slices(plan, config, state, tick), tick.closes) else seq(|state.legs|, _ => 0)
  }

  lemma ClosedIsExecuted(plan: Plan, config: Config, state: State, tick: Tick)
    ensures ClosedVolume(plan, config, state, tick) == Sum(ExecutedPerLeg(plan, config, state, tick))
  {
    ZeroSum(|state.legs|);
  }

  lemma SameBookTakesNothing(a: State, b: State)
    requires SameBook(a, b)
    ensures LegsTake(a.legs, b.legs, seq(|a.legs|, _ => 0))
  {}

  /** Where a poll leaves the ladder position. */
  predicate Moves(plan: Plan, config: Config, state: State, tick: Tick, nextTarget: nat) {
    nextTarget ==
      if Books(plan, config, state, tick) then
        state.nextTarget + if AllClosesSucceeded(Slices(plan, config, state, tick), tick.closes) then 1 else 0
      else if Skips(plan, config, state, tick) then state.nextTarget + 1
      else state.nextTarget
  }

  lemma TakeTargetTakes(plan: Plan, config: Config, state: State, tick: Tick)
    requires LadderContract(plan, config.symbol) && AlignedLegs(state.legs, config.symbol)
    requires CalmPoll(plan, config, state, tick)
    requires IsManagingStage(state) && AnyHeld(state.legs, tick.present)
    ensures
      var after := TakeTarget(plan, config, AggregateState(state), tick).state;
      && LegsTake(state.legs, after.legs, ExecutedPerLeg(plan, config, state, tick))
      && Moves(plan, config, state, tick, after.nextTarget)
  {
    hide BookTarget, WithdrawUnfilled, Slices, WeightedFillPrice, DeriveRuntimeStage, DeriveGroupStage,
      Aligned, AllClosesSucceeded, HasReachedExitTarget, IsManagingStage, ExecutedVolumes, Sum, AlignedLegs;
    var a := AggregateState(state);
    SameBookTakesNothing(state, a);
    if Books(plan, config, state, tick) {
      WithdrawKeepsBook(config, a, tick.beforeTp);
      var w := WithdrawUnfilled(config, a, tick.beforeTp);
      SameBookTrans(state, a, w.state);
      SameBookSlices(plan, config, state, w.state, tick, config.symbol);
      SameBookHeld(state, w.state, tick.present);
      assert CalmClose(plan, config, w.state, tick);
      BookTargetTakes(plan, config, w.state, tick, w.withdrawn);
      SameBookThenTakes(state, w.state, BookTarget(plan, config, w.state, tick, w.withdrawn).state,
        ExecutedVolumes(Slices(plan, config, w.state, tick), tick.closes));
    } else {
      WithdrawKeepsBook(config, a, tick.beforeTp);
      SameBookTakesNothing(state, WithdrawUnfilled(config, a, tick.beforeTp).state);
    }
  }

  lemma SameBookTrans(a: State, b: State, c: State)
    requires SameBook(a, b) && SameBook(b, c)
    ensures SameBook(a, c)
  {}

  lemma SameBookHeld(a: State, b: State, present: set<int>)
    requires SameBook(a, b)
    ensures AnyHeld(a.legs, present) <==> AnyHeld(b.legs, present)
  {
    assert forall i :: 0 <= i < |a.legs| ==> (HeldAt(a.legs[i], present) <==> HeldAt(b.legs[i], present));
  }

  lemma SameBookThenTakes(a: State, b: State, c: State, executed: seq<int>)
    requires SameBook(a, b) && LegsTake(b.legs, c.legs, executed)
    ensures LegsTake(a.legs, c.legs, executed)
  {}

  lemma TakesThenSameBook(a: State, b: State, c: State, executed: seq<int>)
    requires LegsTake(a.legs, b.legs, executed) && SameBook(b, c)
    ensures LegsTake(a.legs, c.legs, executed)
  {}

  lemma PollTakes(plan: Plan, config: Config, state: State, tick: Tick)
    requires LadderContract(plan, config.symbol) && AlignedLegs(state.legs, config.symbol)
    requires CalmPoll(plan, config, state, tick)
    ensures
      var after := ManagePlan(plan, config, state, tick).state;
      && LegsTake(state.legs, after.legs, ExecutedPerLeg(plan, config, state, tick))
      && Moves(plan, config, state, tick, after.nextTarget)
  {
    hide TakeTarget, MoveStops, WeightedFillPrice, DeriveRuntimeStage, DeriveGroupStage,
      Aligned, Sum, LadderContract, IsManagingStage, ExecutedVolumes, Slices, AllClosesSucceeded, WithdrawUnfilled,
      HasReachedExitTarget;
    var a := AggregateState(state);
    SameBookTakesNothing(state, a);
    NoneMissing(state.legs, config.symbol, tick.present);
    if IsManagingStage(state) && AnyHeld(state.legs, tick.present) {
      TakeTargetTakes(plan, config, state, tick);
      var b := TakeTarget(plan, config, a, tick);
      MoveStopsKeepsBook(plan, config, b.state, tick);
      TakesThenSameBook(state, b.state, MoveStops(plan, config, b.state, tick).state, ExecutedPerLeg(plan, config, state, tick));
    } else {
      SameBookTakesNothing(state, state);
    }
  }

  lemma NoneMissing(legs: seq<Leg>, symbol: SymbolInfo, present: set<int>)
    requires AllPresent(legs, present)
    ensures !AnyMissing(legs, present)
  {}

  /** Exact conservation for one poll, whatever closes fail or fill short: what left the
      record is what the broker reported closed. */
  lemma PollConservesVolume(plan: Plan, config: Config, state: State, tick: Tick)
    requires LadderContract(plan, config.symbol) && AlignedLegs(state.legs, config.symbol)
    requires CalmPoll(plan, config, state, tick)
    ensures
      var after := ManagePlan(plan, config, state, tick).state;
      && Filled(after) == Filled(state)
      && Remaining(after) == Remaining(state) - ClosedVolume(plan, config, state, tick)
  {
    hide ManagePlan, ClosedVolume, Sum;
    PollTakes(plan, config, state, tick);
    TakenSum(state, ManagePlan(plan, config, state, tick).state, ExecutedPerLeg(plan, config, state, tick));
    ZeroSum(|state.legs|);
    assert ClosedVolume(plan, config, state, tick) == Sum(ExecutedPerLeg(plan, config, state, tick)) by { ClosedIsExecuted(plan, config, state, tick); }
  }

  lemma ExecutedAligned(plan: Plan, config: Config, state: State, tick: Tick)
    requires LadderContract(plan, config.symbol) && AlignedLegs(state.legs, config.symbol)
    requires CalmPoll(plan, config, state, tick)
    ensures
      var v := ExecutedPerLeg(plan, config, state, tick);
      forall i :: 0 <= i < |v| ==> 0 <= v[i] <= state.legs[i].remaining && Aligned(v[i], config.symbol.stepVolume)
  {
    hide Aligned, Slices, AllClosesSucceeded, HasReachedExitTarget, WithdrawUnfilled, RatioFrom;
    MultipleAligned(0, config.symbol.stepVolume);
    if Books(plan, config, state, tick) {
      SlicesFit(plan, config, state, tick);
    }
  }

  lemma TakingKeepsAligned(before: seq<Leg>, after: seq<Leg>, executed: seq<int>, symbol: SymbolInfo)
    requires symbol.stepVolume > 0 && AlignedLegs(before, symbol) && LegsTake(before, after, executed)
    requires forall i :: 0 <= i < |executed| ==>
      0 <= executed[i] <= before[i].remaining && Aligned(executed[i], symbol.stepVolume)
    ensures AlignedLegs(after, symbol)
  {
    hide Aligned;
    forall i | 0 <= i < |after|
      ensures Aligned(after[i].remaining, symbol.stepVolume)
    {
      AlignedSum(before[i].remaining, executed[i], symbol.stepVolume);
    }
  }

  // ----- whole runs ------------------------------------------------------------------------------

  function StateAfter(plan: Plan, config: Config, state: State, ticks: seq<Tick>): State {
    RunPolls(plan, config, state, ticks).state
  }

  predicate CalmRun(plan: Plan, config: Config, state: State, ticks: seq<Tick>)
    requires config.symbol.stepVolume > 0
  {
    ticks != [] ==>
      var earlier := ticks[..|ticks| - 1];
      && CalmRun(plan, config, state, earlier)
      && CalmPoll(plan, config, StateAfter(plan, config, state, earlier), ticks[|ticks| - 1])
  }

  predicate CleanRun(plan: Plan, config: Config, state: State, ticks: seq<Tick>)
    requires config.symbol.stepVolume > 0
  {
    ticks != [] ==>
      var earlier := ticks[..|ticks| - 1];
      && CleanRun(plan, config, state, earlier)
      && CleanPoll(plan, config, StateAfter(plan, config, state, earlier), ticks[|ticks| - 1])
  }

  predicate NeverSkips(plan: Plan, config: Config, state: State, ticks: seq<Tick>) {
    ticks != [] ==>
      var earlier := ticks[..|ticks| - 1];
      && NeverSkips(plan, config, state, earlier)
      && !Skips(plan, config, StateAfter(plan, config, state, earlier), ticks[|ticks| - 1])
  }

  predicate NeverFallsShort(plan: Plan, config: Config, state: State, ticks: seq<Tick>) {
    ticks != [] ==>
      var earlier := ticks[..|ticks| - 1];
      && NeverFallsShort(plan, config, state, earlier)
      && !FallsShort(plan, config, StateAfter(plan, config, state, earlier), ticks[|ticks| - 1])
  }

  /** Everything the broker reported closed over a run, while the plan was tracked. */
  function TotalClosed(plan: Plan, config: Config, state: State, ticks: seq<Tick>): int {
    if ticks == [] then 0
    else
      var earlier := ticks[..|ticks| - 1];
      var before := RunPolls(plan, config, state, earlier);
      TotalClosed(plan, config, state, earlier)
      + if before.tracked then ClosedVolume(plan, config, before.state, ticks[|ticks| - 1]) else 0
  }

  /** Conservation over every run of calm polls, failed and partial closes included:
      closed plus remaining is what was held at the start, and what filled never changes. */
  lemma {:induction false} RunConservesVolume(plan: Plan, config: Config, state: State, ticks: seq<Tick>)
    requires LadderContract(plan, config.symbol) && AlignedLegs(state.legs, config.symbol)
    requires CalmRun(plan, config, state, ticks)
    ensures
      var after := StateAfter(plan, config, state, ticks);
      && Remaining(after) + TotalClosed(plan, config, state, ticks) == Remaining(state)
      && Filled(after) == Filled(state)
      && AlignedLegs(after.legs, config.symbol)
  {
    hide ManagePlan, ClosedVolume, Remaining, Filled, AlignedLegs, LadderContract, CalmPoll;
    if ticks != [] {
      var earlier, tick := ticks[..|ticks| - 1], ticks[|ticks| - 1];
      RunConservesVolume(plan, config, state, earlier);
      var before := RunPolls(plan, config, state, earlier);
      if before.tracked {
        PollConservesVolume(plan, config, before.state, tick);
        PollKeepsAligned(plan, config, before.state, tick);
      }
    }
  }

  lemma PollKeepsAligned(plan: Plan, config: Config, state: State, tick: Tick)
    requires LadderContract(plan, config.symbol) && AlignedLegs(state.legs, config.symbol)
    requires CalmPoll(plan, config, state, tick)
    ensures AlignedLegs(ManagePlan(plan, config, state, tick).state.legs, config.symbol)
  {
    hide ManagePlan, ExecutedPerLeg, AlignedLegs, CalmPoll;
    PollTakes(plan, config, state, tick);
    ExecutedAligned(plan, config, state, tick);
    TakingKeepsAligned(state.legs, ManagePlan(plan, config, state, tick).state.legs,
      ExecutedPerLeg(plan, config, state, tick), config.symbol);
  }

  /** What a clean poll does to the ladder: nothing, pass a target untouched, or close at most
      the target's volume and pass it. */
  lemma CleanPollSteps(plan: Plan, config: Config, state: State, tick: Tick)
    requires LadderContract(plan, config.symbol) && AlignedLegs(state.legs, config.symbol)
    requires CleanPoll(plan, config, state, tick)
    ensures
      var after := ManagePlan(plan, config, state, tick).state;
      var k := state.nextTarget;
      || (after.nextTarget == k && Remaining(after) == Remaining(state))
      || (Skips(plan, config, state, tick) && k < |plan.targets|
          && after.nextTarget == k + 1 && Remaining(after) == Remaining(state))
      || (k < |plan.targets| && after.nextTarget == k + 1
          && Remaining(state) > 0 && RatioFrom(plan.targets, k) > 0.0
          && Remaining(after) >= Remaining(state) - TargetCloseVolume(Remaining(state), plan.targets, k, config.symbol)
          && (!FallsShort(plan, config, state, tick) ==>
                Remaining(after)
                == Remaining(state) - TargetCloseVolume(Remaining(state), plan.targets, k, config.symbol)))
  {
    hide ManagePlan, Slices, AlignedLegs, IsManagingStage, HasReachedExitTarget, WithdrawUnfilled, RatioFrom,
      TargetCloseVolume, WeightedFillPrice, DeriveGroupStage, DeriveRuntimeStage, Sum, Aligned;
    PollTakes(plan, config, state, tick);
    PollConservesVolume(plan, config, state, tick);
    if Books(plan, config, state, tick) {
      SlicesFit(plan, config, state, tick);
      HeldIsPositive(state, tick.present, config.symbol);
      var slices := Slices(plan, config, state, tick);
      if AllClosesSucceeded(slices, tick.closes) {
        SumAtMostAsked(slices, tick.closes, config.symbol.stepVolume);
        if FullyExecuted(slices, tick.closes) {
          CleanExecutes(slices, tick.closes);
        }
      } else {
        RefusedExecutesNothing(slices, tick.closes);
      }
    }
  }

  /** When every close is refused the target stays current and nothing is taken. */
  lemma RefusedExecutesNothing(slices: seq<int>, closes: seq<CloseAnswer>)
    requires NothingExecuted(slices, closes)
    ensures Sum(ExecutedVolumes(slices, closes)) == 0
  {
    var v := ExecutedVolumes(slices, closes);
    SumAtMost(v, 0);
    SumNonNegative(v);
  }

  /** No more is taken than was asked for. */
  lemma SumAtMostAsked(slices: seq<int>, closes: seq<CloseAnswer>, step: int)
    requires step > 0 && NeverOverExecuted(slices, closes, step) && forall i :: 0 <= i < |slices| ==> slices[i] >= 0
    ensures Sum(ExecutedVolumes(slices, closes)) <= Sum(slices)
  {
    hide Sum, Aligned;
    var v := ExecutedVolumes(slices, closes);
    var left := seq(|slices|, i requires 0 <= i < |slices| => slices[i] - v[i]);
    SumDifference(slices, v, left);
    SumNonNegative(left);
  }

  lemma CleanExecutes(slices: seq<int>, closes: seq<CloseAnswer>)
    requires FullyExecuted(slices, closes)
    requires forall i :: 0 <= i < |slices| ==> slices[i] >= 0
    ensures ExecutedVolumes(slices, closes) == slices && AllClosesSucceeded(slices, closes)
  {}

  lemma HeldIsPositive(state: State, present: set<int>, symbol: SymbolInfo)
    requires symbol.stepVolume > 0 && AlignedLegs(state.legs, symbol) && AnyHeld(state.legs, present)
    ensures Remaining(state) > 0
  {
    hide Sum, Aligned;
    SumNonNegative(RemainingVolumes(state.legs));
  }

  // ----- the ladder bounds -----------------------------------------------------------------------

  /** left / all >= filled share: kept as products, so that nothing is divided. */
  predicate Covers(left: real, all: real, filled: real, from: real) {
    left * all >= filled * from
  }

  predicate CoveredWithin(left: real, all: real, filled: real, from: real, above: real) {
    left * all <= filled * from + above * all
  }

  /** `remaining` is at least the share of `filled` that targets from k on are owed. */
  predicate AtLeastOwed(remaining: int, filled: int, targets: seq<Target>, k: nat)
    requires k <= |targets|
  {
    Covers(remaining as real, RatioFrom(targets, 0), filled as real, RatioFrom(targets, k))
  }

  /** ... and at most two steps per passed target above it. */
  predicate AtMostOwed(remaining: int, filled: int, targets: seq<Target>, k: nat, step: int)
    requires k <= |targets|
  {
    CoveredWithin(remaining as real, RatioFrom(targets, 0), filled as real, RatioFrom(targets, k), Slack(k, step))
  }

  function Slack(k: nat, step: int): real { (2 * k * step) as real }

  lemma RealCancel(a: real, b: real, c: real)
    requires c > 0.0 && a * c == b * c
    ensures a == b
  {
    assert (a - b) * c == 0.0;
  }

  /** What stays after giving up the exact share. */
  lemma KeptPart(r: real, share: real, ratio: real, from: real, keep: real)
    requires from > 0.0 && share * from == r * ratio && keep * from == from - ratio
    ensures r - share == r * keep
  {
    assert (r - share) * from == r * from - r * ratio;
    assert (r * keep) * from == r * (keep * from);
    RealCancel(r - share, r * keep, from);
  }

  /** Closing at most the exact share keeps the rest at least proportional. */
  lemma ShareKeepsLower(r: real, close: real, share: real, ratio: real, from: real, all: real, filled: real)
    requires 0.0 < ratio <= from && all > 0.0
    requires share * from == r * ratio && close <= share && Covers(r, all, filled, from)
    ensures Covers(r - close, all, filled, from - ratio)
  {
    var keep := (from - ratio) / from;
    assert keep * from == from - ratio;
    QuotientNonNegative(from - ratio, from);
    KeptPart(r, share, ratio, from, keep);
    MulLeReal(r * keep, r - close, all);
    MulLeReal(filled * from, r * all, keep);
    assert (r * all) * keep == (r * keep) * all;
    assert (filled * from) * keep == filled * (keep * from);
  }

  /** Falling short of the exact share by less than `slack` adds at most that. */
  lemma ShareKeepsUpper(
    r: real, close: real, share: real, ratio: real, from: real, all: real, filled: real, above: real, slack: real)
    requires 0.0 < ratio <= from && all > 0.0 && above >= 0.0
    requires share * from == r * ratio && share - slack <= close && CoveredWithin(r, all, filled, from, above)
    ensures CoveredWithin(r - close, all, filled, from - ratio, above + slack)
  {
    var keep := (from - ratio) / from;
    assert keep * from == from - ratio;
    QuotientNonNegative(from - ratio, from);
    KeptPart(r, share, ratio, from, keep);
    MulLeReal(r - close, r * keep + slack, all);
    MulLeReal(r * all, filled * from + above * all, keep);
    UpperRearranged(r, all, keep, filled, from, above, slack);
    AtMostOne(ratio, from);
    MulLeReal(keep, 1.0, above * all);
  }

  lemma AtMostOne(ratio: real, from: real)
    requires 0.0 < ratio <= from
    ensures (from - ratio) / from <= 1.0
  {}

  lemma UpperRearranged(r: real, all: real, keep: real, filled: real, from: real, above: real, slack: real)
    ensures (r * keep + slack) * all == (r * all) * keep + slack * all
    ensures (filled * from + above * all) * keep == filled * (keep * from) + keep * (above * all)
  {}

  lemma StepKeepsOwed(remaining: int, filled: int, targets: seq<Target>, k: nat, symbol: SymbolInfo)
    requires 0 < symbol.minVolume <= symbol.stepVolume && remaining > 0 && Aligned(remaining, symbol.stepVolume)
    requires k < |targets| && forall i :: 0 <= i < |targets| ==> targets[i].closeRatio > 0.0
    requires RatioFrom(targets, k) > 0.0
    ensures
      var left := remaining - TargetCloseVolume(remaining, targets, k, symbol);
      && (AtLeastOwed(remaining, filled, targets, k) ==> AtLeastOwed(left, filled, targets, k + 1))
      && (AtMostOwed(remaining, filled, targets, k, symbol.stepVolume) ==>
            AtMostOwed(left, filled, targets, k + 1, symbol.stepVolume))
  {
    hide Aligned, TargetCloseVolume, ExactShare, RatioFrom, Covers, CoveredWithin;
    CloseBounds(remaining, targets, k, symbol);
    RatioFromPositive(targets, k);
    RatioFromPositive(targets, 0);
    RatioFromNext(targets, k);
    var close := TargetCloseVolume(remaining, targets, k, symbol);
    var ratio, from, all := targets[k].closeRatio, RatioFrom(targets, k), RatioFrom(targets, 0);
    var share := ExactShare(remaining, ratio, from);
    ExactShareMeans(remaining, ratio, from);
    SlackNext(k, symbol.stepVolume);
    var r, c, f := remaining as real, close as real, filled as real;
    if Covers(r, all, f, from) {
      ShareKeepsLower(r, c, share, ratio, from, all, f);
    }
    if CoveredWithin(r, all, f, from, Slack(k, symbol.stepVolume)) {
      ShareKeepsUpper(r, c, share, ratio, from, all, f, Slack(k, symbol.stepVolume), 2.0 * symbol.stepVolume as real);
    }
  }

  lemma RatioFromNext(targets: seq<Target>, k: nat)
    requires k < |targets|
    ensures RatioFrom(targets, k + 1) == RatioFrom(targets, k) - targets[k].closeRatio
  {}

  lemma ExactShareMeans(remaining: int, ratio: real, from: real)
    requires from > 0.0
    ensures ExactShare(remaining, ratio, from) * from == remaining as real * ratio
  {}

  lemma SlackNext(k: nat, step: int)
    requires step > 0
    ensures Slack(k, step) >= 0.0 && Slack(k, step) + 2.0 * step as real == Slack(k + 1, step)
  {
    MulLe(0, 2 * k, step);
    assert 2 * (k + 1) * step == 2 * k * step + 2 * step;
  }

  /** What is owed stays covered when more is left. */
  lemma MoreLeftCovers(less: int, more: int, filled: int, targets: seq<Target>, k: nat)
    requires k <= |targets| && less <= more && RatioFrom(targets, 0) >= 0.0 && AtLeastOwed(less, filled, targets, k)
    ensures AtLeastOwed(more, filled, targets, k)
  {
    MulLeReal(less as real, more as real, RatioFrom(targets, 0));
  }

  lemma SkipKeepsOwed(remaining: int, filled: int, targets: seq<Target>, k: nat)
    requires k < |targets| && targets[k].closeRatio > 0.0 && filled >= 0
    requires AtLeastOwed(remaining, filled, targets, k)
    ensures AtLeastOwed(remaining, filled, targets, k + 1)
  {
    MulLeReal(RatioFrom(targets, k + 1), RatioFrom(targets, k), filled as real);
  }

  lemma FullIsOwed(filled: int, targets: seq<Target>, step: int)
    ensures AtLeastOwed(filled, filled, targets, 0) && AtMostOwed(filled, filled, targets, 0, step)
  {}

  lemma {:induction false} CleanRunIsCalm(plan: Plan, config: Config, state: State, ticks: seq<Tick>)
    requires config.symbol.stepVolume > 0 && CleanRun(plan, config, state, ticks)
    ensures CalmRun(plan, config, state, ticks)
  {
    hide StateAfter, CalmPoll, FullyExecuted;
    if ticks != [] {
      CleanRunIsCalm(plan, config, state, ticks[..|ticks| - 1]);
    }
  }

  lemma VolumesAligned(state: State, symbol: SymbolInfo)
    requires symbol.stepVolume > 0 && AlignedLegs(state.legs, symbol)
    ensures Aligned(Remaining(state), symbol.stepVolume) && Remaining(state) >= 0
  {
    hide Aligned, Sum;
    SumAlignedVolumes(RemainingVolumes(state.legs), symbol.stepVolume);
    SumNonNegative(RemainingVolumes(state.legs));
  }

  lemma PollKeepsOwed(plan: Plan, config: Config, state: State, tick: Tick, filled: int, whole: bool)
    requires LadderContract(plan, config.symbol) && AlignedLegs(state.legs, config.symbol)
    requires CleanPoll(plan, config, state, tick) && filled >= 0
    requires whole ==> !Skips(plan, config, state, tick) && !FallsShort(plan, config, state, tick)
    requires state.nextTarget <= |plan.targets|
    requires AtLeastOwed(Remaining(state), filled, plan.targets, state.nextTarget)
    requires whole ==>
      AtMostOwed(Remaining(state), filled, plan.targets, state.nextTarget, config.symbol.stepVolume)
    ensures
      var after := ManagePlan(plan, config, state, tick).state;
      && after.nextTarget <= |plan.targets|
      && AtLeastOwed(Remaining(after), filled, plan.targets, after.nextTarget)
      && (whole ==>
            AtMostOwed(Remaining(after), filled, plan.targets, after.nextTarget, config.symbol.stepVolume))
  {
    hide ManagePlan, Remaining, AlignedLegs, CleanPoll, AtLeastOwed, AtMostOwed, Skips, FallsShort, Aligned,
      TargetCloseVolume, RatioFrom;
    CleanPollSteps(plan, config, state, tick);
    VolumesAligned(state, config.symbol);
    var k := state.nextTarget;
    var after := ManagePlan(plan, config, state, tick).state;
    if k < |plan.targets| {
      SkipKeepsOwed(Remaining(state), filled, plan.targets, k);
      if Remaining(state) > 0 && RatioFrom(plan.targets, k) > 0.0 {
        StepKeepsOwed(Remaining(state), filled, plan.targets, k, config.symbol);
        RatioFromPositive(plan.targets, 0);
        var left := Remaining(state) - TargetCloseVolume(Remaining(state), plan.targets, k, config.symbol);
        if left <= Remaining(after) {
          MoreLeftCovers(left, Remaining(after), filled, plan.targets, k + 1);
        }
      }
    }
  }

  /** The ladder theorem. Starting full at the first target, over any run of clean polls
      that book, defer or skip targets: what is left before target k is never below the
      share the remaining targets are owed, and with no target skipped and no close that
      falls short it is at most 2k steps above that share. */
  lemma {:induction false} LadderStaysProportional(plan: Plan, config: Config, state: State, ticks: seq<Tick>)
    requires LadderContract(plan, config.symbol) && AlignedLegs(state.legs, config.symbol)
    requires state.nextTarget == 0 && Remaining(state) == Filled(state)
    requires CleanRun(plan, config, state, ticks)
    ensures
      var after := StateAfter(plan, config, state, ticks);
      && after.nextTarget <= |plan.targets|
      && AtLeastOwed(Remaining(after), Filled(state), plan.targets, after.nextTarget)
      && (NeverSkips(plan, config, state, ticks) && NeverFallsShort(plan, config, state, ticks) ==>
            AtMostOwed(Remaining(after), Filled(state), plan.targets, after.nextTarget, config.symbol.stepVolume))
  {
    hide ManagePlan, Remaining, Filled, AlignedLegs, CleanPoll, AtLeastOwed, AtMostOwed, Skips, FallsShort, Aligned,
      CalmRun;
    if ticks == [] {
      FullIsOwed(Filled(state), plan.targets, config.symbol.stepVolume);
    } else {
      var earlier, tick := ticks[..|ticks| - 1], ticks[|ticks| - 1];
      LadderStaysProportional(plan, config, state, earlier);
      CleanRunIsCalm(plan, config, state, earlier);
      RunConservesVolume(plan, config, state, earlier);
      VolumesAligned(state, config.symbol);
      var before := RunPolls(plan, config, state, earlier);
      if before.tracked {
        PollKeepsOwed(plan, config, before.state, tick, Filled(state),
          NeverSkips(plan, config, state, ticks) && NeverFallsShort(plan, config, state, ticks));
      }
    }
  }

  /** On the last target every leg is asked for all it holds. */
  lemma LastSlicesTakeAll(plan: Plan, config: Config, state: State, tick: Tick)
    requires LadderContract(plan, config.symbol) && AlignedLegs(state.legs, config.symbol)
    requires AllPresent(state.legs, tick.present) && AnyHeld(state.legs, tick.present)
    requires state.nextTarget == |plan.targets| - 1
    ensures Slices(plan, config, state, tick) == RemainingVolumes(state.legs)
    ensures RatioFrom(plan.targets, state.nextTarget) > 0.0
    ensures TargetCloseVolume(Remaining(state), plan.targets, state.nextTarget, config.symbol) == Remaining(state) > 0
    ensures OpenVolumes(state.legs, tick.present) == RemainingVolumes(state.legs)
  {
    hide Slices, TargetCloseVolume, RatioFrom, Aligned, Sum, AlignedLegs;
    SlicesFit(plan, config, state, tick);
    HeldIsPositive(state, tick.present, config.symbol);
    VolumesAligned(state, config.symbol);
    CloseBounds(Remaining(state), plan.targets, state.nextTarget, config.symbol);
    FullSlices(RemainingVolumes(state.legs), Slices(plan, config, state, tick));
  }

  lemma FullSlices(held: seq<int>, slices: seq<int>)
    requires |held| == |slices| && Sum(held) == Sum(slices)
    requires forall i :: 0 <= i < |held| ==> 0 <= slices[i] <= held[i]
    ensures slices == held
  {
    var left := seq(|held|, i requires 0 <= i < |held| => held[i] - slices[i]);
    SumDifference(held, slices, left);
    SumNonNegative(left);
    forall i | 0 <= i < |held|
      ensures slices[i] == held[i]
    {
      assert left[i] == held[i] - slices[i];
    }
  }

  lemma FullClosesEmpty(legs: seq<Leg>, closes: seq<CloseAnswer>)
    requires FullyExecuted(RemainingVolumes(legs), closes)
    requires forall i :: 0 <= i < |legs| ==> legs[i].remaining >= 0
    ensures
      var r := LegsAfterCloses(legs, RemainingVolumes(legs), closes);
      && (forall i :: 0 <= i < |r| ==> r[i].remaining == 0)
      && Sum(RemainingVolumes(r)) == 0
      && AllClosesSucceeded(RemainingVolumes(legs), closes)
  {
    var r := LegsAfterCloses(legs, RemainingVolumes(legs), closes);
    SumAtMost(RemainingVolumes(r), 0);
    SumNonNegative(RemainingVolumes(r));
  }

  lemma LastBookingEmpties(plan: Plan, config: Config, state: State, tick: Tick, withdrawn: set<int>)
    requires LadderContract(plan, config.symbol) && AlignedLegs(state.legs, config.symbol)
    requires CalmClose(plan, config, state, tick) && FullyExecuted(Slices(plan, config, state, tick), tick.closes)
    requires AnyHeld(state.legs, tick.present)
    requires state.nextTarget == |plan.targets| - 1
    ensures
      var after := BookTarget(plan, config, state, tick, withdrawn);
      && !after.tracked && forall i :: 0 <= i < |after.state.legs| ==> after.state.legs[i].remaining == 0
  {
    hide Allocation, TargetCloseVolume, RatioFrom, Aligned, Sum, WeightedFillPrice, DeriveRuntimeStage,
      DeriveGroupStage, BookedPips, FullyExecuted, NeverOverExecuted, AllClosesSucceeded, LegsAfterCloses;
    LastSlicesTakeAll(plan, config, state, tick);
    FullClosesEmpty(state.legs, tick.closes);
    SumNonNegative(RemainingVolumes(state.legs));
  }

  /** Booking the last target empties every leg and lets the plan go. */
  lemma LastTargetEmptiesEveryLeg(plan: Plan, config: Config, state: State, tick: Tick)
    requires LadderContract(plan, config.symbol) && AlignedLegs(state.legs, config.symbol)
    requires CalmPoll(plan, config, state, tick) && Books(plan, config, state, tick)
    requires FullyExecuted(Slices(plan, config, state, tick), tick.closes)
    requires state.nextTarget == |plan.targets| - 1
    ensures
      var after := ManagePlan(plan, config, state, tick);
      && !after.tracked && forall i :: 0 <= i < |after.state.legs| ==> after.state.legs[i].remaining == 0
  {
    hide BookTarget, WithdrawUnfilled, Slices, WeightedFillPrice, DeriveRuntimeStage, DeriveGroupStage,
      Aligned, FullyExecuted, NeverOverExecuted, HasReachedExitTarget, IsManagingStage, ExecutedVolumes, AlignedLegs,
      MoveStops;
    var a := AggregateState(state);
    SameBookTakesNothing(state, a);
    NoneMissing(state.legs, config.symbol, tick.present);
    WithdrawKeepsBook(config, a, tick.beforeTp);
    var w := WithdrawUnfilled(config, a, tick.beforeTp);
    SameBookTrans(state, a, w.state);
    SameBookSlices(plan, config, state, w.state, tick, config.symbol);
    SameBookHeld(state, w.state, tick.present);
    LastBookingEmpties(plan, config, w.state, tick, w.withdrawn);
  }

  // ----- when the booking cannot be published ---------------------------------------------------------

  /** A booking whose event cannot be published leaves the record's volumes as they were. */
  lemma UnpublishedBookingTakesNothing(plan: Plan, config: Config, state: State, tick: Tick, withdrawn: set<int>)
    requires state.nextTarget < |plan.targets| && !tick.published
    requires AllClosesSucceeded(Slices(plan, config, state, tick), tick.closes)
    ensures Remaining(BookTarget(plan, config, state, tick, withdrawn).state) == Remaining(state)
  {
    hide Allocation, TargetCloseVolume, RatioFrom, AllClosesSucceeded, WeightedFillPrice, DeriveRuntimeStage,
      DeriveGroupStage, Sum, OpenVolumes;
  }

  /** As long as a close failed, publishing makes no difference. */
  lemma FailedBookingIsNotPublished(plan: Plan, config: Config, state: State, tick: Tick, withdrawn: set<int>)
    requires state.nextTarget < |plan.targets|
    requires !AllClosesSucceeded(Slices(plan, config, state, tick), tick.closes)
    ensures BookTarget(plan, config, state, tick, withdrawn)
         == BookTarget(plan, config, state, tick.(published := true), withdrawn)
  {
    hide Allocation, TargetCloseVolume, RatioFrom, AllClosesSucceeded, AggregateState, Sum, OpenVolumes,
      LegsAfterCloses, BookedState;
  }

  lemma SameBookRemaining(a: State, b: State)
    requires SameBook(a, b)
    ensures Remaining(a) == Remaining(b)
  {
    assert RemainingVolumes(a.legs) == RemainingVolumes(b.legs);
  }

  /** Exactly when the record keeps up with the broker in a poll that closes something: not
      if every close succeeded, volume went, and the event could not be published. */
  lemma BookingKeptExactly(plan: Plan, config: Config, state: State, tick: Tick)
    requires LadderContract(plan, config.symbol) && AlignedLegs(state.legs, config.symbol)
    requires Books(plan, config, state, tick) && CalmClose(plan, config, state, tick.(published := true))
    ensures
      var after := ManagePlan(plan, config, state, tick).state;
      var closed := ClosedVolume(plan, config, state, tick);
      Remaining(after) == Remaining(state) - closed <==>
        tick.published || !AllClosesSucceeded(Slices(plan, config, state, tick), tick.closes) || closed == 0
  {
    hide ManagePlan, Books, Slices, AllClosesSucceeded, AlignedLegs, ClosedVolume, Remaining, ReachesBooking;
    var told := tick.(published := true);
    ToldAlike(plan, config, state, tick);
    PollConservesVolume(plan, config, state, told);
    if tick.published {
      assert told == tick;
    } else {
      UnpublishedPoll(plan, config, state, tick);
    }
  }

  lemma ToldAlike(plan: Plan, config: Config, state: State, tick: Tick)
    ensures
      var told := tick.(published := true);
      && Slices(plan, config, state, told) == Slices(plan, config, state, tick)
      && (Books(plan, config, state, told) <==> Books(plan, config, state, tick))
      && ClosedVolume(plan, config, state, told) == ClosedVolume(plan, config, state, tick)
  {
    hide Allocation, TargetCloseVolume, RatioFrom, Sum, IsManagingStage, AggregateState, WithdrawUnfilled,
      HasReachedExitTarget;
  }

  lemma UnpublishedPoll(plan: Plan, config: Config, state: State, tick: Tick)
    requires config.symbol.stepVolume > 0 && AllPresent(state.legs, tick.present)
    requires Books(plan, config, state, tick) && !tick.published
    ensures
      var after := ManagePlan(plan, config, state, tick).state;
      if AllClosesSucceeded(Slices(plan, config, state, tick), tick.closes) then Remaining(after) == Remaining(state)
      else Remaining(after) == Remaining(ManagePlan(plan, config, state, tick.(published := true)).state)
  {
    hide BookTarget, WithdrawUnfilled, Slices, WeightedFillPrice, DeriveRuntimeStage, DeriveGroupStage, AllClosesSucceeded,
      HasReachedExitTarget, IsManagingStage, Remaining, MoveStops, AllPresent;
    var a := AggregateState(state);
    SameBookTakesNothing(state, a);
    NoneMissing(state.legs, config.symbol, tick.present);
    WithdrawKeepsBook(config, a, tick.beforeTp);
    var w := WithdrawUnfilled(config, a, tick.beforeTp);
    SameBookTrans(state, a, w.state);
    SameBookSlices(plan, config, state, w.state, tick, config.symbol);
    SameBookRemaining(state, w.state);
    BookNeverGoesOnUnpublished(plan, config, w.state, tick, w.withdrawn);
    if AllClosesSucceeded(Slices(plan, config, state, tick), tick.closes) {
      UnpublishedBookingTakesNothing(plan, config, w.state, tick, w.withdrawn);
    } else {
      FailedBookingIsNotPublished(plan, config, w.state, tick, w.withdrawn);
    }
  }

  lemma BookNeverGoesOnUnpublished(plan: Plan, config: Config, state: State, tick: Tick, withdrawn: set<int>)
    requires state.nextTarget < |plan.targets| && !tick.published
    ensures !BookTarget(plan, config, state, tick, withdrawn).goOn
  {
    hide Allocation, TargetCloseVolume, RatioFrom, AllClosesSucceeded, AggregateState, Sum, OpenVolumes,
      LegsAfterCloses, BookedState;
  }

  // ----- when a close fails -------------------------------------------------------------------------

  /** How far a close falls short of the target's exact share. */
  function Shortfall(remaining: int, targets: seq<Target>, k: nat, symbol: SymbolInfo): real
    requires k < |targets| && RatioFrom(targets, k) > 0.0
  {
    ExactShare(remaining, targets[k].closeRatio, RatioFrom(targets, k))
    - TargetCloseVolume(remaining, targets, k, symbol) as real
  }

  /** What was held beyond the share owed, as a product. */
  function Surplus(before: real, filled: real, from: real, all: real): real { before * all - filled * from }

  /** More was closed than was held beyond the share owed and than rounding keeps back. */
  predicate Exceeds(closed: real, before: real, filled: real, from: real, next: real, all: real, short: real) {
    (closed * all - Surplus(before, filled, from, all)) * next > short * from * all
  }

  /** A failed poll at target k closed so much that, the retry taking its share of the rest
      once more, less is left than the later targets are owed. */
  predicate OverBooks(before: int, closed: int, filled: int, targets: seq<Target>, k: nat, symbol: SymbolInfo)
    requires k < |targets| && RatioFrom(targets, k) > 0.0
  {
    Exceeds(closed as real, before as real, filled as real, RatioFrom(targets, k), RatioFrom(targets, k + 1),
      RatioFrom(targets, 0), Shortfall(before - closed, targets, k, symbol))
  }

  /** The arithmetic of a retry: r was held, e closed at the failed poll, c at the retry;
      s is owed from k on, t from k + 1 on, all of it a. */
  lemma RetryArithmetic(r: real, e: real, c: real, x: real, f: real, s: real, t: real, a: real)
    requires s > 0.0 && a > 0.0 && x * s == (r - e) * (s - t)
    ensures Covers(r - e - c, a, f, t) <==> !Exceeds(e, r, f, s, t, a, x - c)
  {
    var left, owed := (r - e - c) * a, f * t;
    RetryProducts(r, e, c, x, f, s, t, a);
    if left >= owed {
      MulLeReal(owed, left, s);
    } else {
      MulLtReal(left, owed, s);
    }
  }

  lemma RetryProducts(r: real, e: real, c: real, x: real, f: real, s: real, t: real, a: real)
    requires x * s == (r - e) * (s - t)
    ensures (r - e - c) * a * s - f * t * s == (x - c) * s * a - (e * a - Surplus(r, f, s, a)) * t
  {
    assert (r - e - c) * a * s == (r - e) * s * a - c * s * a;
    assert (r - e) * s * a == (r - e) * t * a + x * s * a;
    assert (e * a - Surplus(r, f, s, a)) * t == f * s * t - (r - e) * a * t;
  }

  lemma MulLtReal(a: real, b: real, c: real)
    requires a < b && c > 0.0
    ensures a * c < b * c
  {
    assert (b - a) * c > 0.0;
  }

  /** What a fully executed poll at target k leaves. */
  lemma BookedLeaves(plan: Plan, config: Config, state: State, tick: Tick)
    requires LadderContract(plan, config.symbol) && AlignedLegs(state.legs, config.symbol)
    requires CalmPoll(plan, config, state, tick) && Books(plan, config, state, tick)
    requires FullyExecuted(Slices(plan, config, state, tick), tick.closes)
    ensures
      var after := ManagePlan(plan, config, state, tick).state;
      var k := state.nextTarget;
      && k < |plan.targets| && RatioFrom(plan.targets, k) > 0.0 && after.nextTarget == k + 1
      && Remaining(after) == Remaining(state) - TargetCloseVolume(Remaining(state), plan.targets, k, config.symbol)
  {
    hide ManagePlan, Slices, AlignedLegs, IsManagingStage, HasReachedExitTarget, WithdrawUnfilled, RatioFrom,
      TargetCloseVolume, WeightedFillPrice, DeriveGroupStage, DeriveRuntimeStage, Sum, Aligned;
    PollTakes(plan, config, state, tick);
    PollConservesVolume(plan, config, state, tick);
    SlicesFit(plan, config, state, tick);
    HeldIsPositive(state, tick.present, config.symbol);
    CleanExecutes(Slices(plan, config, state, tick), tick.closes);
  }

  /** A poll in which a close fails keeps its target current; what was closed is gone. */
  lemma FailedPollLeaves(plan: Plan, config: Config, state: State, tick: Tick)
    requires LadderContract(plan, config.symbol) && AlignedLegs(state.legs, config.symbol)
    requires CalmPoll(plan, config, state, tick) && Books(plan, config, state, tick)
    requires !AllClosesSucceeded(Slices(plan, config, state, tick), tick.closes)
    ensures
      var after := ManagePlan(plan, config, state, tick).state;
      && state.nextTarget < |plan.targets| && after.nextTarget == state.nextTarget
      && Remaining(after) == Remaining(state) - ClosedVolume(plan, config, state, tick)
      && AlignedLegs(after.legs, config.symbol)
  {
    hide ManagePlan, Slices, AlignedLegs, IsManagingStage, HasReachedExitTarget, WithdrawUnfilled, RatioFrom,
      WeightedFillPrice, DeriveGroupStage, DeriveRuntimeStage, Sum, Aligned, ClosedVolume, AllClosesSucceeded;
    PollTakes(plan, config, state, tick);
    PollConservesVolume(plan, config, state, tick);
    PollKeepsAligned(plan, config, state, tick);
  }

  lemma RetryLeaves(before: int, closed: int, filled: int, targets: seq<Target>, k: nat, symbol: SymbolInfo)
    requires k < |targets| && RatioFrom(targets, k) > 0.0 && RatioFrom(targets, 0) > 0.0
    ensures
      var left := before - closed - TargetCloseVolume(before - closed, targets, k, symbol);
      !AtLeastOwed(left, filled, targets, k + 1) <==> OverBooks(before, closed, filled, targets, k, symbol)
  {
    hide TargetCloseVolume, RatioFrom, ExactShare, Covers, Exceeds;
    var ratio, s, t, a := targets[k].closeRatio, RatioFrom(targets, k), RatioFrom(targets, k + 1), RatioFrom(targets, 0);
    var x, c := ExactShare(before - closed, ratio, s), TargetCloseVolume(before - closed, targets, k, symbol);
    RatioFromNext(targets, k);
    ExactShareMeans(before - closed, ratio, s);
    var r, e := before as real, closed as real;
    assert (before - closed) as real == r - e && ratio == s - t;
    assert (before - closed - c) as real == r - e - c as real;
    RetryArithmetic(r, e, c as real, x, filled as real, s, t, a);
  }

  /** Exactly when a failed close costs the later targets their share. A poll at target k
      closes part of what it asks for; the next one that books closes everything it asks
      for. Then less is left than is owed to the targets behind k if and only if the failed
      poll closed too much. */
  lemma RetryOverBooksExactly(
    plan: Plan, config: Config, state: State, failed: Tick, retry: Tick, filled: int)
    requires LadderContract(plan, config.symbol) && AlignedLegs(state.legs, config.symbol)
    requires CalmPoll(plan, config, state, failed) && Books(plan, config, state, failed)
    requires !AllClosesSucceeded(Slices(plan, config, state, failed), failed.closes)
    requires
      var between := ManagePlan(plan, config, state, failed).state;
      && CalmPoll(plan, config, between, retry) && Books(plan, config, between, retry)
      && FullyExecuted(Slices(plan, config, between, retry), retry.closes)
    ensures
      var after := ManagePlan(plan, config, ManagePlan(plan, config, state, failed).state, retry).state;
      var k := state.nextTarget;
      && k < |plan.targets| && RatioFrom(plan.targets, k) > 0.0 && after.nextTarget == k + 1
      && (!AtLeastOwed(Remaining(after), filled, plan.targets, k + 1) <==>
            OverBooks(Remaining(state), ClosedVolume(plan, config, state, failed), filled, plan.targets, k, config.symbol))
  {
    hide ManagePlan, Slices, AlignedLegs, CalmPoll, Books, FullyExecuted, AllClosesSucceeded, Remaining, ClosedVolume,
      RatioFrom, TargetCloseVolume, OverBooks, AtLeastOwed;
    var between := ManagePlan(plan, config, state, failed).state;
    FailedPollLeaves(plan, config, state, failed);
    BookedLeaves(plan, config, between, retry);
    RatioFromPositive(plan.targets, 0);
    RetryLeaves(Remaining(state), ClosedVolume(plan, config, state, failed), filled, plan.targets, state.nextTarget,
      config.symbol);
  }

  /** Rounding keeps back less than two steps: a failed poll that closed two steps' worth
      beyond what was held over always over-books, and one that closed nothing never does. */
  lemma TwoStepsOverBook(before: int, closed: int, filled: int, targets: seq<Target>, k: nat, symbol: SymbolInfo)
    requires 0 < symbol.minVolume <= symbol.stepVolume && k < |targets|
    requires forall i :: 0 <= i < |targets| ==> targets[i].closeRatio > 0.0
    requires RatioFrom(targets, k) > 0.0
    requires before - closed > 0 && Aligned(before - closed, symbol.stepVolume)
    ensures (closed as real * RatioFrom(targets, 0)
               - Surplus(before as real, filled as real, RatioFrom(targets, k), RatioFrom(targets, 0)))
              * RatioFrom(targets, k + 1)
            >= 2.0 * symbol.stepVolume as real * RatioFrom(targets, k) * RatioFrom(targets, 0)
            ==> OverBooks(before, closed, filled, targets, k, symbol)
    ensures closed == 0 && AtLeastOwed(before, filled, targets, k) ==> !OverBooks(before, closed, filled, targets, k, symbol)
  {
    hide TargetCloseVolume, RatioFrom, ExactShare, Aligned, Exceeds, Covers, Surplus;
    CloseBounds(before - closed, targets, k, symbol);
    RatioFromPositive(targets, 0);
    RatioFromPositive(targets, k + 1);
    ExceedsBounds(closed as real, before as real, filled as real, RatioFrom(targets, k), RatioFrom(targets, k + 1),
      RatioFrom(targets, 0), Shortfall(before - closed, targets, k, symbol), 2.0 * symbol.stepVolume as real);
  }

  lemma ExceedsBounds(e: real, r: real, f: real, s: real, t: real, a: real, short: real, most: real)
    requires s > 0.0 && t >= 0.0 && a > 0.0 && 0.0 <= short < most
    ensures (e * a - Surplus(r, f, s, a)) * t >= most * s * a ==> Exceeds(e, r, f, s, t, a, short)
    ensures e == 0.0 && Covers(r, a, f, s) ==> !Exceeds(e, r, f, s, t, a, short)
  {
    ScaledUp(short, most, s, a);
    ScaledUp(0.0, short, s, a);
    if e == 0.0 && Covers(r, a, f, s) {
      MulLeReal(0.0, Surplus(r, f, s, a), t);
    }
  }

  lemma ScaledUp(x: real, y: real, s: real, a: real)
    requires s > 0.0 && a > 0.0
    ensures x < y ==> x * s * a < y * s * a
    ensures x <= y ==> x * s * a <= y * s * a
  {
    assert s * a > 0.0;
    assert x * s * a == x * (s * a) && y * s * a == y * (s * a);
    if x < y {
      MulLtReal(x, y, s * a);
    }
  }

  // A run in which it happens: legs of 4 and 6, half due at TP1.

  function HeldLeg(legId: string, position: int, volume: int): Leg {
    Leg(legId, 2000.0, volume, Some(position), Some(position), Some(2000.0), volume, volume, Managing)
  }

  function TwoHalves(): seq<Target> { [Target("TP1", 2010.0, 0.5), Target("TP2", 2020.0, 0.5)] }

  function UnitSteps(): SymbolInfo { SymbolInfo(1, 1, 1000, 100, 2) }

  function HalvesPlan(): Plan {
    Plan("plan", "XAU", 0, Buy, false, false, Entry(SingleLimit, 0, None, None, Some(2000.0), [], None), 1990.0,
         TwoHalves(), Risk(1.0, 1000), Management(None, 0, None, None), false, "")
  }

  function KeepEntries(): Config { Config(false, 0.1, UnitSteps()) }

  /** Both legs filled at 2000, `a` and `b` of them left. */
  function Halfway(legs: seq<Leg>): State {
    State("plan", "XAU", Buy, FullyOpen, GroupFullyOpen, legs, 1, 10, Some(2000.0), Some(2000.0), 1990.0, 0, -1, false, 0.0)
  }

  function FullLegs(): seq<Leg> { [HeldLeg("L1", 1, 4), HeldLeg("L2", 2, 6)] }

  function LegsAfterFailure(): seq<Leg> {
    [HeldLeg("L1", 1, 4).(remaining := 0, stage := Closed), HeldLeg("L2", 2, 6)]
  }

  function PollWith(present: set<int>, closes: seq<CloseAnswer>): Tick {
    var none := Withdrawal([], true);
    Tick(2010.0, present, [], none, closes, true, none, false, none, false, none, false)
  }

  /** The first poll closes 4 and fails on 1. */
  function FailedPoll(): Tick { PollWith({1, 2}, [Executed(4, 2010.0), CloseRefused]) }

  /** The retry takes half of the 6 that are left. */
  function RetryPoll(): Tick { PollWith({2}, [CloseRefused, Executed(3, 2010.0)]) }

  lemma UnitStepDown(v: int)
    ensures v >= 0 ==> StepDown(v, 1) == v
  {}

  lemma TwoSum(a: int, b: int)
    ensures Sum([a]) == a && Sum([a, b]) == a + b
  {
    assert [a] == [] + [a] && [a, b] == [a] + [b];
    SumSnoc([], a);
    SumSnoc([a], b);
  }

  lemma HalfOf(remaining: int)
    requires remaining >= 4
    ensures RatioFrom(TwoHalves(), 0) == 1.0 && RatioFrom(TwoHalves(), 1) == 0.5
    ensures TargetCloseVolume(remaining, TwoHalves(), 0, UnitSteps()) == remaining / 2
  {
    assert RatioFrom(TwoHalves(), 2) == 0.0;
    assert (remaining as real * 0.5 / 1.0).Floor == remaining / 2;
  }

  lemma TwoLegAllocation(a: int, b: int, close: int)
    requires 0 <= a <= close <= a + b && close > 0
    ensures Allocation([a, b], close, UnitSteps()) == [a, close - a]
  {
    hide StepDown;
    UnitStepDown(close);
    UnitStepDown(a);
    UnitStepDown(close - a);
    TwoSum(a, b);
    assert [a, b][..1] == [a] && [a][..0] == [];
    assert ShallowFirst([], close, 1) == [];
    assert ShallowFirst([a], close, 1) == [LegTake(a, close, 1)] == [a];
    assert ShallowFirst([a, b], close, 1) == [a] + [LegTake(b, close - a, 1)];
  }

  /** What TP1 asks of two legs. */
  lemma HalfwaySlices(legs: seq<Leg>, tick: Tick, a: int, b: int)
    requires |legs| == 2 && OpenVolumes(legs, tick.present) == [a, b] && 0 <= a <= (a + b) / 2 && a + b >= 4
    ensures Slices(HalvesPlan(), KeepEntries(), Halfway(legs), tick) == [a, (a + b) / 2 - a]
  {
    hide Allocation, TargetCloseVolume, RatioFrom, OpenVolumes;
    HalfOf(a + b);
    TwoSum(a, b);
    TwoLegAllocation(a, b, (a + b) / 2);
  }

  /** Filled 4 and 6 at 2000. */
  predicate FilledAt2000(legs: seq<Leg>) {
    |legs| == 2 && legs[0].fillPrice == legs[1].fillPrice == Some(2000.0) && legs[0].filled == 4 && legs[1].filled == 6
  }

  lemma FillIs2000(legs: seq<Leg>)
    requires FilledAt2000(legs)
    ensures WeightedFillPrice(legs) == Some(2000.0) && Sum(FilledVolumes(legs)) == 10
  {
    assert legs[..1][..0] == [];
    assert FillTotals(legs[..1]) == (2000.0 * 4.0, 4);
    assert FillTotals(legs) == (2000.0 * 4.0 + 2000.0 * 6.0, 10);
    assert FilledVolumes(legs) == [4, 6];
    TwoSum(4, 6);
  }

  lemma OneOpenLeg(legs: seq<Leg>)
    requires |legs| == 2 && IsOpen(legs[1]) && !IsPending(legs[0]) && !IsPending(legs[1])
    ensures DeriveRuntimeStage(legs) == FullyOpen && DeriveGroupStage(legs) == GroupFullyOpen
  {}

  /** Such a record is already aggregated and at its first target. */
  lemma HalfwayAggregated(legs: seq<Leg>, tick: Tick)
    requires FilledAt2000(legs) && IsOpen(legs[1]) && !IsPending(legs[0]) && !IsPending(legs[1])
    requires legs[1].positionId.value in tick.present && tick.exit == 2010.0
    ensures AggregateState(Halfway(legs)) == Halfway(legs)
    ensures Books(HalvesPlan(), KeepEntries(), Halfway(legs), tick)
  {
    hide WeightedFillPrice, DeriveRuntimeStage, DeriveGroupStage, Sum;
    FillIs2000(legs);
    OneOpenLeg(legs);
    assert HeldAt(legs[1], tick.present);
  }

  lemma FailedPollHere()
    ensures
      var s := Halfway(FullLegs());
      && CalmPoll(HalvesPlan(), KeepEntries(), s, FailedPoll()) && Books(HalvesPlan(), KeepEntries(), s, FailedPoll())
      && !AllClosesSucceeded(Slices(HalvesPlan(), KeepEntries(), s, FailedPoll()), FailedPoll().closes)
      && ClosedVolume(HalvesPlan(), KeepEntries(), s, FailedPoll()) == 4
  {
    hide Slices, Books, Sum;
    var s, tick := Halfway(FullLegs()), FailedPoll();
    assert OpenVolumes(s.legs, tick.present) == [4, 6];
    HalfwaySlices(s.legs, tick, 4, 6);
    HalfwayAggregated(s.legs, tick);
    assert CloseFor(tick.closes, 1).CloseRefused?;
    assert ExecutedVolumes([4, 1], tick.closes) == [4, 0];
    TwoSum(4, 0);
  }

  lemma RetryPollHere()
    ensures
      var s := Halfway(LegsAfterFailure());
      && CalmPoll(HalvesPlan(), KeepEntries(), s, RetryPoll()) && Books(HalvesPlan(), KeepEntries(), s, RetryPoll())
      && FullyExecuted(Slices(HalvesPlan(), KeepEntries(), s, RetryPoll()), RetryPoll().closes)
  {
    hide Slices, Books, Sum;
    var s, tick := Halfway(LegsAfterFailure()), RetryPoll();
    assert OpenVolumes(s.legs, tick.present) == [0, 6];
    HalfwaySlices(s.legs, tick, 0, 6);
    HalfwayAggregated(s.legs, tick);
  }

  /** The first poll leaves the target current and 6 of 10. */
  lemma FailedPollState()
    ensures ManagePlan(HalvesPlan(), KeepEntries(), Halfway(FullLegs()), FailedPoll())
         == Outcome(Halfway(LegsAfterFailure()), true, false, {})
  {
    hide Slices, Sum, AggregateState, Allocation, TargetCloseVolume, RatioFrom, MoveStops, AllClosesSucceeded, BookedState;
    var s, tick := Halfway(FullLegs()), FailedPoll();
    assert OpenVolumes(s.legs, tick.present) == [4, 6];
    HalfwayAggregated(s.legs, tick);
    HalfwayAggregated(LegsAfterFailure(), tick);
    FailedPollHere();
    NoneMissing(s.legs, UnitSteps(), tick.present);
    FailedBooking();
  }

  lemma FailedBooking()
    ensures BookTarget(HalvesPlan(), KeepEntries(), Halfway(FullLegs()), FailedPoll(), {})
         == Outcome(AggregateState(Halfway(LegsAfterFailure())), true, false, {})
  {
    hide Sum, AggregateState, Allocation, TargetCloseVolume, RatioFrom, BookedState;
    var s, tick := Halfway(FullLegs()), FailedPoll();
    assert OpenVolumes(s.legs, tick.present) == [4, 6];
    TwoSum(4, 6);
    TwoSum(4, 1);
    HalfOf(10);
    TwoLegAllocation(4, 6, 5);
    assert CloseFor(tick.closes, 1).CloseRefused?;
    assert LegsAfterCloses(s.legs, [4, 1], tick.closes) == LegsAfterFailure();
  }

  /** A close that fails leaves the target current, and the next poll takes its share of what
      is left once more: 3 are left where 5 of 10 are owed to TP2. */
  lemma RetryAfterAFailedCloseOverBooks()
    ensures
      var after := StateAfter(HalvesPlan(), KeepEntries(), Halfway(FullLegs()), [FailedPoll(), RetryPoll()]);
      && Filled(Halfway(FullLegs())) == 10 && after.nextTarget == 1
      && !AtLeastOwed(Remaining(after), 10, TwoHalves(), 1)
  {
    hide ManagePlan, Books, Slices, FullyExecuted, AllClosesSucceeded, CalmPoll, RatioFrom, TargetCloseVolume,
      AtLeastOwed, ClosedVolume, Sum, OverBooks;
    var plan, config, s := HalvesPlan(), KeepEntries(), Halfway(FullLegs());
    FailedPollHere();
    RetryPollHere();
    FailedPollState();
    RetryOverBooksExactly(plan, config, s, FailedPoll(), RetryPoll(), 10);
    FourOverBook();
    assert FilledVolumes(s.legs) == [4, 6] && RemainingVolumes(s.legs) == [4, 6];
    TwoSum(4, 6);
    TwoPolls(plan, config, s, FailedPoll(), RetryPoll());
  }

  lemma FourOverBook()
    ensures RatioFrom(TwoHalves(), 0) > 0.0 && OverBooks(10, 4, 10, TwoHalves(), 0, UnitSteps())
  {
    hide TargetCloseVolume, RatioFrom;
    HalfOf(6);
  }

  lemma TwoPolls(plan: Plan, config: Config, state: State, first: Tick, second: Tick)
    requires ManagePlan(plan, config, state, first).tracked
    ensures StateAfter(plan, config, state, [first, second])
         == ManagePlan(plan, config, ManagePlan(plan, config, state, first).state, second).state
  {
    hide ManagePlan;
    assert [first, second][..1] == [first] && [first][..0] == [];
    assert RunPolls(plan, config, state, [first]) == ManagePlan(plan, config, state, first);
  }
}
