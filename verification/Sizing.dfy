/** Position sizing against the live account, and what the `risk` mode promises about the
    money at stake. */
module Sizing {
  import opened Common
  import opened TradePlanModel
  import opened VolumePlanner
  import opened ExecutionEngine

  datatype Mode = EquityTable | RiskBudget | UnsupportedMode
  datatype VolumePlan = VolumePlan(total: int, slices: seq<int>)

  /** The account as resolved for sizing. `tableLots` is the equity table's answer and
      `tableSized` the lots the table mode derives from it. */
  datatype Account = Account(equity: real, pipSize: real, pipValuePerLot: real, tableLots: real, tableSized: real)

  /** The entry price farthest from the stop: highest for BUY, lowest for SELL. */
  function WorstEntry(direction: Direction, prices: seq<real>): (worst: real)
    requires prices != []
    ensures worst in prices
    ensures forall i :: 0 <= i < |prices| ==> if direction == Buy then prices[i] <= worst else prices[i] >= worst
  {
    var n := |prices| - 1;
    if n == 0 then prices[0]
    else
      var rest := WorstEntry(direction, prices[..n]);
      assert forall i :: 0 <= i < n ==> prices[i] == prices[..n][i];
      if direction == Buy then MaxReal(rest, prices[n]) else MinReal(rest, prices[n])
  }

  function StopPips(fill: real, stop: real, pipSize: real): real
    requires pipSize > 0.0
  {
    Abs(fill - stop) / pipSize
  }

  function Budget(equity: real, percent: real): real { equity * percent / 100.0 }

  function RiskLots(plan: Plan, account: Account): Option<real>
    requires account.pipSize > 0.0 && account.pipValuePerLot > 0.0
  {
    var prices := EntryPrices(plan.entry);
    if plan.risk.riskPercent <= 0.0 || prices == [] then None
    else
      var pips := StopPips(WorstEntry(plan.direction, prices), plan.stopPrice, account.pipSize);
      if pips <= 0.0 then None
      else Some(PerRisk(Budget(account.equity, plan.risk.riskPercent), pips, account.pipValuePerLot))
  }

  function PerRisk(budget: real, pips: real, pipValue: real): real
    requires pips > 0.0 && pipValue > 0.0
  {
    assert pips * pipValue > 0.0;
    budget / (pips * pipValue)
  }

  function SizedLots(plan: Plan, mode: Mode, account: Account): Option<real>
    requires account.pipSize > 0.0 && account.pipValuePerLot > 0.0
  {
    match mode
    case EquityTable => Some(account.tableSized)
    case RiskBudget => RiskLots(plan, account)
    case UnsupportedMode => None
  }

  /** Hard ceilings: sizing never shrinks to fit them, it refuses. */
  predicate AboveCeiling(plan: Plan, lots: real, symbol: SymbolInfo) {
    || (symbol.lotSize > 0 && plan.risk.maxVolume > 0 && lots > plan.risk.maxVolume as real / symbol.lotSize as real)
    || (symbol.maxVolume > 0 && symbol.lotSize > 0 && lots * symbol.lotSize as real > symbol.maxVolume as real)
  }

  predicate IsLadder(plan: Plan) { plan.entry.kind == LimitLadder || plan.entry.kind == MarketWithLimitScale }

  function LegRatios(plan: Plan, declared: seq<real>): (r: seq<real>)
    ensures declared == [] ==> |r| == |plan.entry.legs|
  {
    if declared != [] then declared
    else seq(|plan.entry.legs|, i requires 0 <= i < |plan.entry.legs| => plan.entry.legs[i].ratio)
  }

  /** `ratios` are the sizing contract's own leg ratios, empty when it has none. None
      stands for every refusal. */
  function CalculateVolume(
    plan: Plan, mode: Mode, ratios: seq<real>, account: Account, symbol: SymbolInfo): Option<VolumePlan>
  {
    if account.equity <= 0.0 || account.pipSize <= 0.0 || account.pipValuePerLot <= 0.0 || account.tableLots <= 0.0
    then None
    else
      var lots := SizedLots(plan, mode, account);
      if lots.None? || AboveCeiling(plan, lots.value, symbol) then None
      else
        var volume := VolumeForLots(lots.value, symbol);
        if volume <= 0 then None
        else if !IsLadder(plan) then Some(VolumePlan(volume, []))
        else if plan.entry.legs == [] || |LegRatios(plan, ratios)| != |plan.entry.legs| then None
        else
          match SplitOf(volume, symbol, LegRatios(plan, ratios))
          case Rejected => None
          case Legs(slices) =>
            Some(VolumePlan(volume, if |slices| == 1 && |plan.entry.legs| > 1 then [volume] else slices))
  }

  /** The volume each submitted order carries. */
  function OrderVolumes(plan: Plan, sized: VolumePlan): seq<int> {
    if IsLadder(plan) then sized.slices else [sized.total]
  }

  // ----- the money at stake -----------------------------------------------------------------

  /** Every order filled where the plan declares: a ladder leg at its own price, a zone
      anywhere inside it, a single order at its price. */
  predicate FilledAsDeclared(plan: Plan, sized: VolumePlan, fills: seq<real>) {
    && |fills| == |OrderVolumes(plan, sized)|
    && forall i :: 0 <= i < |fills| ==>
         if IsLadder(plan) then i < |plan.entry.legs| && fills[i] == plan.entry.legs[i].price
         else WithinEntry(EntryPrices(plan.entry), fills[i])
  }

  predicate WithinEntry(prices: seq<real>, fill: real) {
    && (exists i :: 0 <= i < |prices| && prices[i] <= fill)
    && (exists i :: 0 <= i < |prices| && fill <= prices[i])
  }

  function LotsOf(volume: int, lotSize: int): real
    requires lotSize > 0
  {
    volume as real / lotSize as real
  }

  function LegLoss(lots: real, pips: real, pipValue: real): real { lots * pips * pipValue }

  /** What stopping every order out costs. */
  function StopLoss(volumes: seq<int>, fills: seq<real>, stop: real, lotSize: int, account: Account): real
    requires |volumes| == |fills| && lotSize > 0 && account.pipSize > 0.0
  {
    if volumes == [] then 0.0
    else
      var n := |volumes| - 1;
      StopLoss(volumes[..n], fills[..n], stop, lotSize, account)
      + LegLoss(LotsOf(volumes[n], lotSize), StopPips(fills[n], stop, account.pipSize), account.pipValuePerLot)
  }

  lemma LotsAdd(a: int, b: int, lotSize: int)
    requires lotSize > 0
    ensures LotsOf(a + b, lotSize) == LotsOf(a, lotSize) + LotsOf(b, lotSize)
    ensures LotsOf(0, lotSize) == 0.0
    ensures a >= 0 ==> LotsOf(a, lotSize) >= 0.0
  {}

  lemma LegLossMonotone(lots: real, pips: real, worst: real, pipValue: real)
    requires lots >= 0.0 && pips <= worst && pipValue > 0.0
    ensures LegLoss(lots, pips, pipValue) <= LegLoss(lots, worst, pipValue)
  {
    MulLeReal(pips, worst, lots);
    MulLeReal(lots * pips, lots * worst, pipValue);
  }

  lemma LegLossAdds(a: real, b: real, pips: real, pipValue: real)
    ensures LegLoss(a + b, pips, pipValue) == LegLoss(a, pips, pipValue) + LegLoss(b, pips, pipValue)
    ensures LegLoss(0.0, pips, pipValue) == 0.0
  {}

  /** Stopping out fills no worse than `worst` costs at most the whole volume at `worst`. */
  lemma {:induction false} StopLossBounded(
    volumes: seq<int>, fills: seq<real>, stop: real, worst: real, lotSize: int, account: Account)
    requires |volumes| == |fills| && lotSize > 0 && account.pipSize > 0.0 && account.pipValuePerLot > 0.0
    requires forall i :: 0 <= i < |volumes| ==>
      volumes[i] >= 0 && StopPips(fills[i], stop, account.pipSize) <= worst
    ensures StopLoss(volumes, fills, stop, lotSize, account)
            <= LegLoss(LotsOf(Sum(volumes), lotSize), worst, account.pipValuePerLot)
  {
    hide StopPips, LotsOf, LegLoss;
    if volumes == [] {
      LotsAdd(0, 0, lotSize);
      LegLossAdds(0.0, 0.0, worst, account.pipValuePerLot);
    } else {
      var n := |volumes| - 1;
      StopLossBounded(volumes[..n], fills[..n], stop, worst, lotSize, account);
      LotsAdd(volumes[n], 0, lotSize);
      LotsAdd(Sum(volumes[..n]), volumes[n], lotSize);
      LegLossMonotone(LotsOf(volumes[n], lotSize), StopPips(fills[n], stop, account.pipSize), worst,
        account.pipValuePerLot);
      LegLossAdds(LotsOf(Sum(volumes[..n]), lotSize), LotsOf(volumes[n], lotSize), worst, account.pipValuePerLot);
    }
  }

  lemma FilledAt(plan: Plan, sized: VolumePlan, fills: seq<real>, i: nat)
    requires FilledAsDeclared(plan, sized, fills) && i < |fills| && IsLadder(plan)
    ensures i < |plan.entry.legs| && fills[i] == plan.entry.legs[i].price
  {
    var fill := fills[i];
  }

  /** A declared fill is one of the entry's prices, or between two of them. */
  lemma FillInEntry(plan: Plan, sized: VolumePlan, fills: seq<real>, i: nat)
    requires FilledAsDeclared(plan, sized, fills) && i < |fills|
    ensures WithinEntry(EntryPrices(plan.entry), fills[i])
  {
    var prices := EntryPrices(plan.entry);
    if IsLadder(plan) {
      FilledAt(plan, sized, fills, i);
      assert |prices| == |plan.entry.legs| && prices[i] == fills[i];
    }
  }

  /** Nothing within the entry is farther from the stop than the worst price. */
  lemma WorstIsFarthest(plan: Plan, fill: real)
    requires Validates(plan) && WithinEntry(EntryPrices(plan.entry), fill)
    ensures Abs(fill - plan.stopPrice) <= Abs(WorstEntry(plan.direction, EntryPrices(plan.entry)) - plan.stopPrice)
  {
    hide ManagementValid, EntryPrices, WorstEntry;
    var prices := EntryPrices(plan.entry);
    var worst := WorstEntry(plan.direction, prices);
    var low :| 0 <= low < |prices| && prices[low] <= fill;
    var high :| 0 <= high < |prices| && fill <= prices[high];
    assert StopBeyond(plan.direction, plan.stopPrice, prices[low]);
    assert StopBeyond(plan.direction, plan.stopPrice, prices[high]);
  }

  /** A declared fill lies between the stop and the worst entry. */
  lemma FillWithinStop(plan: Plan, sized: VolumePlan, fills: seq<real>, i: nat, pipSize: real)
    requires Validates(plan) && FilledAsDeclared(plan, sized, fills) && i < |fills| && pipSize > 0.0
    ensures StopPips(fills[i], plan.stopPrice, pipSize)
            <= StopPips(WorstEntry(plan.direction, EntryPrices(plan.entry)), plan.stopPrice, pipSize)
  {
    hide Validates, FilledAsDeclared, WithinEntry, EntryPrices, WorstEntry;
    FillInEntry(plan, sized, fills, i);
    ValidatesMeansPrices(plan);
    WorstIsFarthest(plan, fills[i]);
    DivLe(Abs(fills[i] - plan.stopPrice), Abs(WorstEntry(plan.direction, EntryPrices(plan.entry)) - plan.stopPrice), pipSize);
  }

  lemma ValidatesMeansPrices(plan: Plan)
    requires Validates(plan)
    ensures EntryPrices(plan.entry) != []
  {}

  /** Lots sized to a budget spend exactly that budget at the worst stop distance. */
  lemma PerRiskSpendsBudget(budget: real, pips: real, pipValue: real, lots: real)
    requires pips > 0.0 && pipValue > 0.0 && lots <= PerRisk(budget, pips, pipValue)
    ensures LegLoss(lots, pips, pipValue) <= budget
  {
    var d := pips * pipValue;
    assert d > 0.0;
    var full := PerRisk(budget, pips, pipValue);
    assert full * d == budget;
    MulLeReal(lots, full, d);
    assert LegLoss(lots, pips, pipValue) == lots * d;
  }

  lemma FlooredLots(lots: real, symbol: SymbolInfo)
    requires VolumeForLots(lots, symbol) > 0
    ensures symbol.lotSize > 0 && LotsOf(VolumeForLots(lots, symbol), symbol.lotSize) <= lots
  {
    var v, l := VolumeForLots(lots, symbol) as real, symbol.lotSize as real;
    DivLe(v, lots * l, l);
  }

  /** What the orders of a sized plan carry: no more than the floored volume. */
  lemma OrdersSumToTotal(plan: Plan, mode: Mode, ratios: seq<real>, account: Account, symbol: SymbolInfo)
    requires CalculateVolume(plan, mode, ratios, account, symbol).Some?
    ensures
      var sized := CalculateVolume(plan, mode, ratios, account, symbol).value;
      var volumes := OrderVolumes(plan, sized);
      && sized.total > 0 && Sum(volumes) == sized.total
      && forall i :: 0 <= i < |volumes| ==> volumes[i] > 0
  {
    hide SplitOf, AboveCeiling, SizedLots, Collapses, InitialSlices, Shortfall;
    var sized := CalculateVolume(plan, mode, ratios, account, symbol).value;
    SumSnoc([], sized.total);
    assert [] + [sized.total] == [sized.total];
    if IsLadder(plan) {
      SplitOutcome(sized.total, symbol, LegRatios(plan, ratios));
    }
  }

  /** The risk promise: in `risk` mode a validated plan whose orders all fill where it
      declares and all stop out loses at most equity * riskPercent / 100 (the separately
      sized risk leg aside), through lot flooring, step alignment and the leg split. */
  lemma RiskStaysWithinBudget(
    plan: Plan, ratios: seq<real>, account: Account, symbol: SymbolInfo, fills: seq<real>)
    requires Validates(plan) && CalculateVolume(plan, RiskBudget, ratios, account, symbol).Some?
    requires FilledAsDeclared(plan, CalculateVolume(plan, RiskBudget, ratios, account, symbol).value, fills)
    ensures symbol.lotSize > 0 && account.pipSize > 0.0
    ensures
      var sized := CalculateVolume(plan, RiskBudget, ratios, account, symbol).value;
      StopLoss(OrderVolumes(plan, sized), fills, plan.stopPrice, symbol.lotSize, account)
        <= Budget(account.equity, plan.risk.riskPercent)
  {
    hide Validates, FilledAsDeclared, AboveCeiling, VolumeForLots, SplitOf, StopPips, LotsOf, LegLoss, PerRisk,
      Budget, WorstEntry, EntryPrices;
    var sized := CalculateVolume(plan, RiskBudget, ratios, account, symbol).value;
    var lots := RiskLots(plan, account).value;
    var volumes := OrderVolumes(plan, sized);
    var worst := StopPips(WorstEntry(plan.direction, EntryPrices(plan.entry)), plan.stopPrice, account.pipSize);
    OrdersSumToTotal(plan, RiskBudget, ratios, account, symbol);
    FlooredLots(lots, symbol);
    FillsMatch(plan, sized, fills);
    forall i | 0 <= i < |volumes|
      ensures StopPips(fills[i], plan.stopPrice, account.pipSize) <= worst
    {
      FillWithinStop(plan, sized, fills, i, account.pipSize);
    }
    StopLossBounded(volumes, fills, plan.stopPrice, worst, symbol.lotSize, account);
    PerRiskSpendsBudget(Budget(account.equity, plan.risk.riskPercent), worst, account.pipValuePerLot,
      LotsOf(sized.total, symbol.lotSize));
  }

  lemma FillsMatch(plan: Plan, sized: VolumePlan, fills: seq<real>)
    requires FilledAsDeclared(plan, sized, fills)
    ensures |fills| == |OrderVolumes(plan, sized)|
  {}
}
