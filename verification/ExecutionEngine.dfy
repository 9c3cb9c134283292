/** Pure stop and target decisions for an open plan, and what the group-economic stop
    guarantees in money. */
module ExecutionEngine {
  import opened Common
  import opened TradePlanModel

  function TickSize(digits: nat): (t: real)
    ensures t > 0.0
  {
    1.0 / Pow10(digits) as real
  }

  /** SELL targets on a whole price get a cushion of 0.10 above the handle. */
  function HasReachedExitTarget(direction: Direction, exit: real, target: real): bool {
    if direction == Buy then exit >= target
    else if target == target.Floor as real then exit < target + 0.1
    else exit <= target
  }

  predicate TargetIsBeyondFill(direction: Direction, fill: real, target: real) {
    if direction == Buy then target > fill else target < fill
  }

  predicate ExitIsFavorableVsFill(direction: Direction, fill: real, exit: real) {
    if direction == Buy then exit > fill else exit < fill
  }

  /** a protects at least as well as b: never looser for the given direction. */
  predicate AtLeastAsTight(direction: Direction, a: real, b: real) {
    if direction == Buy then a >= b else a <= b
  }

  predicate Tighter(direction: Direction, a: real, b: real) {
    if direction == Buy then a > b else a < b
  }

  function Tightest(direction: Direction, a: real, b: real): real {
    if direction == Buy then MaxReal(a, b) else MinReal(a, b)
  }

  datatype StopMove = StopMove(newStop: real, improved: bool)

  function BreakEvenPrice(direction: Direction, bufferTicks: int, fill: real, digits: nat): real {
    var buffer := bufferTicks as real * TickSize(digits);
    RoundTo(if direction == Buy then fill + buffer else fill - buffer, digits)
  }

  function CalculateBreakEven(
    direction: Direction, bufferTicks: int, fill: real, currentStop: real, digits: nat): (m: StopMove)
    ensures AtLeastAsTight(direction, m.newStop, currentStop)
    ensures AtLeastAsTight(direction, m.newStop, BreakEvenPrice(direction, bufferTicks, fill, digits))
    ensures m.improved <==> Tighter(direction, m.newStop, currentStop)
  {
    var newStop := Tightest(direction, currentStop, BreakEvenPrice(direction, bufferTicks, fill, digits));
    StopMove(newStop, newStop != currentStop)
  }

  // ----- the manual group stop after the first target ----------------------------------

  /** Fill value and volume still held by legs whose fill is known. */
  function HeldTotals(legs: seq<Leg>): (real, int) {
    if legs == [] then (0.0, 0)
    else
      var n := |legs| - 1;
      var (value, volume) := HeldTotals(legs[..n]);
      (value + (if legs[n].fillPrice.Some? then legs[n].fillPrice.value * legs[n].remaining as real else 0.0),
       volume + legs[n].remaining)
  }

  predicate FillsKnown(legs: seq<Leg>) {
    forall i :: 0 <= i < |legs| ==> legs[i].fillPrice.Some?
  }

  function KnownFillSum(legs: seq<Leg>): (real, int) {
    if legs == [] then (0.0, 0)
    else
      var n := |legs| - 1;
      var (sum, count) := KnownFillSum(legs[..n]);
      if legs[n].fillPrice.Some? then (sum + legs[n].fillPrice.value, count + 1) else (sum, count)
  }

  function AverageFill(legs: seq<Leg>, fallback: real): real {
    var (sum, count) := KnownFillSum(legs);
    if count == 0 then fallback else sum / count as real
  }

  predicate GroupStopComputable(open: seq<Leg>, groupInitialVolume: int, pipSize: real) {
    open != [] && HeldTotals(open).1 > 0 && groupInitialVolume > 0 && pipSize > 0.0 && FillsKnown(open)
  }

  function CeilingReal(x: real): (c: int)
    ensures x <= c as real < x + 1.0
  {
    -((-x).Floor)
  }

  /** Ceiling to the next tick for a BUY stop, floor for a SELL stop. */
  function ToTick(direction: Direction, price: real, digits: nat): real {
    RoundTo(OnGrid(TicksToward(direction, price, digits), digits), digits)
  }

  function OnGrid(ticks: int, digits: nat): real { ticks as real * TickSize(digits) }

  function TicksToward(direction: Direction, price: real, digits: nat): int {
    if direction == Buy then CeilingReal(price / TickSize(digits)) else (price / TickSize(digits)).Floor
  }

  /** The stop at which closing what is held, plus what was booked, is worth exactly the
      buffer on the whole group. */
  function FundedStop(
    direction: Direction, bufferTicks: int, open: seq<Leg>, groupInitialVolume: int,
    bookedPipVolume: real, pipSize: real, digits: nat): real
    requires GroupStopComputable(open, groupInitialVolume, pipSize)
  {
    var (value, volume) := HeldTotals(open);
    var bufferPips := bufferTicks as real * TickSize(digits) / pipSize;
    var unfunded := bufferPips * groupInitialVolume as real - bookedPipVolume;
    var shift := unfunded * pipSize / volume as real;
    if direction == Buy then value / volume as real + shift else value / volume as real - shift
  }

  function CalculateManualGroupBreakEven(
    direction: Direction, bufferTicks: int, open: seq<Leg>, groupInitialVolume: int, bookedPipVolume: real,
    pipSize: real, currentStop: real, digits: nat, plannedDeepestEntry: Option<real>): (m: StopMove)
    ensures AtLeastAsTight(direction, m.newStop, currentStop)
    ensures m.improved <==> Tighter(direction, m.newStop, currentStop)
  {
    if !GroupStopComputable(open, groupInitialVolume, pipSize) then
      CalculateBreakEven(direction, bufferTicks, AverageFill(open, currentStop), currentStop, digits)
    else
      var (value, volume) := HeldTotals(open);
      var wanted :=
        if plannedDeepestEntry.Some? && plannedDeepestEntry.value > 0.0 then plannedDeepestEntry.value
        else FundedStop(direction, bufferTicks, open, groupInitialVolume, bookedPipVolume, pipSize, digits);
      var desired := ToTick(direction, Tightest(direction, wanted, currentStop), digits);
      if Tighter(direction, desired, currentStop) then StopMove(desired, true)
      else CalculateBreakEven(direction, bufferTicks, value / volume as real, currentStop, digits)
  }

  /** Signed pip volume of closing every held leg at one price. */
  function ExitPipVolume(direction: Direction, open: seq<Leg>, price: real, pipSize: real): real
    requires pipSize > 0.0
  {
    var (value, volume) := HeldTotals(open);
    (if direction == Buy then price * volume as real - value else value - price * volume as real) / pipSize
  }

  lemma Reciprocal(t: real, p: real)
    requires p > 0.0
    ensures t * (1.0 / p) * p == t && t / p == t * (1.0 / p)
  {
    assert 1.0 / p * p == 1.0;
    assert t * (1.0 / p) * p == t * (1.0 / p * p);
    assert (t / p - t * (1.0 / p)) * p == 0.0;
  }

  lemma RoundToExact(x: real, digits: nat, k: int)
    requires Scaled(x, digits) == k as real
    ensures RoundTo(x, digits) == k as real / Pow10(digits) as real
  {
    hide Pow10, Scaled;
  }

  lemma TickMultiple(ticks: int, digits: nat)
    ensures RoundTo(OnGrid(ticks, digits), digits) == OnGrid(ticks, digits)
  {
    hide RoundTo, Pow10;
    Reciprocal(ticks as real, Pow10(digits) as real);
    RoundToExact(OnGrid(ticks, digits), digits, ticks);
  }

  /** Moving a stop to the tick grid never loosens it. */
  lemma ToTickNeverLoosens(direction: Direction, price: real, digits: nat)
    ensures AtLeastAsTight(direction, ToTick(direction, price, digits), price)
  {
    hide TickSize, RoundTo;
    var ticks := TicksToward(direction, price, digits);
    TickMultiple(ticks, digits);
    var q := price / TickSize(digits);
    assert q * TickSize(digits) == price;
    if direction == Buy {
      MulLeReal(q, ticks as real, TickSize(digits));
    } else {
      MulLeReal(ticks as real, q, TickSize(digits));
    }
  }

  lemma FundedStopValue(
    direction: Direction, bufferTicks: int, open: seq<Leg>, groupInitialVolume: int,
    bookedPipVolume: real, pipSize: real, digits: nat)
    requires GroupStopComputable(open, groupInitialVolume, pipSize)
    ensures
      var stop := FundedStop(direction, bufferTicks, open, groupInitialVolume, bookedPipVolume, pipSize, digits);
      ExitPipVolume(direction, open, stop, pipSize) + bookedPipVolume
        == bufferTicks as real * TickSize(digits) / pipSize * groupInitialVolume as real
  {
    hide TickSize, HeldTotals;
    var (value, volume) := HeldTotals(open);
    var v := volume as real;
    var unfunded := bufferTicks as real * TickSize(digits) / pipSize * groupInitialVolume as real - bookedPipVolume;
    var shift := unfunded * pipSize / v;
    ShiftedExit(value, v, shift, unfunded, pipSize);
  }

  lemma ShiftedExit(value: real, v: real, shift: real, unfunded: real, pipSize: real)
    requires v > 0.0 && pipSize > 0.0 && shift == unfunded * pipSize / v
    ensures ((value / v + shift) * v - value) / pipSize == unfunded
    ensures (value - (value / v - shift) * v) / pipSize == unfunded
  {
    assert value / v * v == value;
    assert shift * v == unfunded * pipSize;
    assert (value / v + shift) * v == value / v * v + shift * v;
    assert (value / v - shift) * v == value / v * v - shift * v;
    assert unfunded * pipSize / pipSize == unfunded;
  }

  lemma TighterStopWorthMore(direction: Direction, open: seq<Leg>, a: real, b: real, pipSize: real)
    requires pipSize > 0.0 && HeldTotals(open).1 > 0 && AtLeastAsTight(direction, a, b)
    ensures ExitPipVolume(direction, open, a, pipSize) >= ExitPipVolume(direction, open, b, pipSize)
  {
    hide HeldTotals;
    var (value, volume) := HeldTotals(open);
    if direction == Buy {
      MulLeReal(b, a, volume as real);
      DivLe(b * volume as real - value, a * volume as real - value, pipSize);
    } else {
      MulLeReal(a, b, volume as real);
      DivLe(value - b * volume as real, value - a * volume as real, pipSize);
    }
  }

  /** With no declared entry to fall back on, closing every remaining leg at the returned
      stop plus the pips already booked locks at least the buffer on the whole original
      group: on the funded path, on the fallback path, and when the stop does not move. */
  lemma ManualGroupStopLocksBuffer(
    direction: Direction, bufferTicks: int, open: seq<Leg>, groupInitialVolume: int, bookedPipVolume: real,
    pipSize: real, currentStop: real, digits: nat, plannedDeepestEntry: Option<real>)
    requires GroupStopComputable(open, groupInitialVolume, pipSize)
    requires plannedDeepestEntry.None? || plannedDeepestEntry.value <= 0.0
    ensures
      var m := CalculateManualGroupBreakEven(direction, bufferTicks, open, groupInitialVolume, bookedPipVolume,
                                             pipSize, currentStop, digits, plannedDeepestEntry);
      ExitPipVolume(direction, open, m.newStop, pipSize) + bookedPipVolume
        >= bufferTicks as real * TickSize(digits) / pipSize * groupInitialVolume as real
  {
    hide HeldTotals, ExitPipVolume, FundedStop, TickSize, ToTick;
    var funded := FundedStop(direction, bufferTicks, open, groupInitialVolume, bookedPipVolume, pipSize, digits);
    var wanted := Tightest(direction, funded, currentStop);
    var m := CalculateManualGroupBreakEven(direction, bufferTicks, open, groupInitialVolume, bookedPipVolume,
                                           pipSize, currentStop, digits, plannedDeepestEntry);
    ToTickNeverLoosens(direction, wanted, digits);
    FundedStopValue(direction, bufferTicks, open, groupInitialVolume, bookedPipVolume, pipSize, digits);
    TighterStopWorthMore(direction, open, m.newStop, funded, pipSize);
  }

  // ----- trailing -----------------------------------------------------------------------

  /** First leg's fill, or the worst filled leg when it never filled: the shallow entry. */
  function WorstFill(direction: Direction, legs: seq<Leg>): Option<real> {
    if legs == [] then None
    else
      var n := |legs| - 1;
      var rest := WorstFill(direction, legs[..n]);
      if legs[n].fillPrice.None? then rest
      else if rest.None? then legs[n].fillPrice
      else Some(if direction == Buy then MaxReal(rest.value, legs[n].fillPrice.value)
                else MinReal(rest.value, legs[n].fillPrice.value))
  }

  function EntryLegs(legs: seq<Leg>): (r: seq<Leg>)
    ensures forall i :: 0 <= i < |r| ==> r[i] in legs && r[i].legId != RISK_LEG_ID
  {
    if legs == [] then []
    else
      var n := |legs| - 1;
      EntryLegs(legs[..n]) + if legs[n].legId == RISK_LEG_ID then [] else [legs[n]]
  }

  function PlanManualTrailStop(plan: Plan, completedOrdinal: int, legs: seq<Leg>, digits: nat): Option<real> {
    var total := |plan.targets|;
    if completedOrdinal < 2 || completedOrdinal >= total then None
    else
      var entryLegs := EntryLegs(legs);
      if completedOrdinal == 2 && |entryLegs| > 1 then
        var worst := WorstFill(plan.direction, entryLegs);
        if worst.None? then None
        else Some(RoundTo(if entryLegs[0].fillPrice.Some? then entryLegs[0].fillPrice.value else worst.value, digits))
      else
        var ordinal := if completedOrdinal == total - 1 && completedOrdinal - 2 >= 1
                       then completedOrdinal - 2 else completedOrdinal - 1;
        Some(RoundTo(plan.targets[ordinal - 1].price, digits))
  }

  function ResolveTrailTargetIndex(plan: Plan, nextTarget: int, highestBooked: int): (i: int)
    ensures -1 <= i < |plan.targets|
  {
    var m := plan.management;
    if m.trailAfter.Some? && m.trailTo.Some? then
      var after := IndexOfTarget(plan.targets, m.trailAfter.value);
      var to := IndexOfTarget(plan.targets, m.trailTo.value);
      if after >= 0 && to >= 0 && highestBooked >= after then to else -1
    else if |plan.targets| <= 2 then -1
    else if 0 <= nextTarget - 3 < |plan.targets| then nextTarget - 3 else -1
  }

  /** On a validated plan the trail reference always lies strictly before a target that
      was passed; with explicit ids, strictly before one that was really booked. */
  lemma TrailTargetBeforeBooked(plan: Plan, nextTarget: int, highestBooked: int)
    requires ManagementValid(plan)
    ensures
      var i := ResolveTrailTargetIndex(plan, nextTarget, highestBooked);
      i >= 0 ==> if plan.management.trailAfter.Some? then i < highestBooked else i < nextTarget - 2
  {}

  /** The deep edge of the zone, or a non-RISK leg's own price when that is deeper. */
  function DeepestOf(direction: Direction, legs: seq<Leg>): Option<real> {
    if legs == [] then None
    else
      var n := |legs| - 1;
      var rest := DeepestOf(direction, legs[..n]);
      var price := if legs[n].fillPrice.Some? then legs[n].fillPrice.value else legs[n].intendedPrice;
      if legs[n].legId == RISK_LEG_ID || price <= 0.0 then rest else Some(Deeper(direction, rest, price))
  }

  function Deeper(direction: Direction, a: Option<real>, b: real): real {
    if a.None? then b else if direction == Buy then MinReal(a.value, b) else MaxReal(a.value, b)
  }

  function PlannedDeepestEntry(plan: Plan, legs: seq<Leg>): Option<real> {
    var deepest := DeepestOf(plan.direction, legs);
    var edge := if plan.direction == Buy then plan.entry.zoneLow else plan.entry.zoneHigh;
    if edge.Some? && edge.value > 0.0 then Some(Deeper(plan.direction, deepest, edge.value)) else deepest
  }
}
