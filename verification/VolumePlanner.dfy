/** Broker-valid volumes: lots to volume, an entry volume split over ladder legs, and
    the volume a partial take-profit may close. */
module VolumePlanner {
  import opened Common

  /** The broker's contract for one instrument. */
  datatype SymbolInfo = SymbolInfo(
    minVolume: int, stepVolume: int, maxVolume: int, lotSize: int, digits: nat)

  // ----- lots to volume ----------------------------------------------------------

  function VolumeForLots(lots: real, symbol: SymbolInfo): (volume: int)
    ensures volume > 0 ==>
      && symbol.minVolume <= volume <= symbol.maxVolume && symbol.stepVolume > 0
      && volume % symbol.stepVolume == 0
      && volume as real <= lots * symbol.lotSize as real
  {
    if lots <= 0.0 || symbol.lotSize <= 0 || symbol.minVolume <= 0
       || symbol.stepVolume <= 0 || symbol.maxVolume < symbol.minVolume then 0
    else
      var raw := (lots * symbol.lotSize as real).Floor;
      if raw > symbol.maxVolume then 0
      else
        var stepped := raw / symbol.stepVolume * symbol.stepVolume;
        MultipleAligned(raw / symbol.stepVolume, symbol.stepVolume);
        if stepped >= symbol.minVolume then stepped else 0
  }

  // ----- splitting an entry volume over the legs ----------------------------------

  datatype Split = Rejected | Legs(slices: seq<int>)

  /** What every caller is promised about the slices of a split. */
  predicate BrokerValid(slices: seq<int>, total: int, symbol: SymbolInfo)
    requires symbol.stepVolume > 0
  {
    && Sum(slices) == total
    && forall i :: 0 <= i < |slices| ==>
         slices[i] >= symbol.minVolume && Aligned(slices[i], symbol.stepVolume)
  }

  /** The guard that refuses the request before any slice is computed. */
  predicate SplittableInput(total: int, symbol: SymbolInfo, ratios: seq<real>) {
    && total > 0 && symbol.stepVolume > 0 && symbol.minVolume > 0 && symbol.lotSize > 0
    && total % symbol.stepVolume == 0
    && |ratios| > 0 && (forall i :: 0 <= i < |ratios| ==> ratios[i] > 0.0)
    && Abs(SumReal(ratios) - 1.0) <= 0.0001
  }

  function MinimumStepsPerClose(symbol: SymbolInfo): (steps: int)
    requires symbol.stepVolume > 0 && symbol.minVolume > 0
    ensures steps >= 1
    ensures (steps - 1) * symbol.stepVolume < symbol.minVolume <= steps * symbol.stepVolume
  {
    (symbol.minVolume + symbol.stepVolume - 1) / symbol.stepVolume
  }

  /** One entry order carries everything: a single leg, or too few steps for all. */
  predicate Collapses(total: int, symbol: SymbolInfo, ratios: seq<real>)
    requires SplittableInput(total, symbol, ratios)
  {
    || |ratios| == 1
    || total / symbol.stepVolume < MinimumStepsPerClose(symbol) * |ratios|
  }

  /** A non-final leg's share: rounded to lot cents, then to volume units, then down
      to a broker step. */
  function RoundedShare(total: int, symbol: SymbolInfo, ratio: real): int
    requires symbol.lotSize > 0 && symbol.stepVolume > 0
  {
    StepDown(RawShare(total, symbol, ratio), symbol.stepVolume)
  }

  function RawShare(total: int, symbol: SymbolInfo, ratio: real): int
    requires symbol.lotSize > 0
  {
    LotsToUnits(RoundTo(IdealLots(total, symbol.lotSize, ratio), 2), symbol.lotSize)
  }

  function IdealLots(total: int, lotSize: int, ratio: real): real
    requires lotSize > 0
  {
    total as real / lotSize as real * ratio
  }

  function LotsToUnits(lots: real, lotSize: int): int {
    RoundAway(lots * lotSize as real)
  }

  function RoundedShares(total: int, symbol: SymbolInfo, ratios: seq<real>): (shares: seq<int>)
    requires symbol.lotSize > 0 && symbol.stepVolume > 0
    ensures |shares| == |ratios|
    ensures forall i :: 0 <= i < |ratios| ==> shares[i] == RoundedShare(total, symbol, ratios[i])
  {
    seq(|ratios|, i requires 0 <= i < |ratios| => RoundedShare(total, symbol, ratios[i]))
  }

  /** The allocation before repair: rounded shares, the last leg takes the rest. */
  function InitialSlices(total: int, symbol: SymbolInfo, ratios: seq<real>): (slices: seq<int>)
    requires |ratios| > 0 && symbol.lotSize > 0 && symbol.stepVolume > 0
    ensures |slices| == |ratios|
  {
    var shares := RoundedShares(total, symbol, ratios[..|ratios| - 1]);
    shares + [total - Sum(shares)]
  }

  function FirstShortFrom(slices: seq<int>, min: int, from: nat): (i: int)
    requires from <= |slices|
    ensures -1 <= i < |slices|
    ensures i == -1 <==> forall k :: from <= k < |slices| ==> slices[k] >= min
    ensures i >= 0 ==> from <= i && slices[i] < min && forall k :: from <= k < i ==> slices[k] >= min
    decreases |slices| - from
  {
    if from == |slices| then -1
    else if slices[from] < min then from
    else FirstShortFrom(slices, min, from + 1)
  }

  /** The leg with the most room above the minimum among the first `upto`, the
      earliest on ties; -1 when none can give a whole step. */
  function DonorAmong(slices: seq<int>, short: int, symbol: SymbolInfo, upto: nat): (d: int)
    requires upto <= |slices|
    ensures -1 <= d < upto
    ensures d >= 0 ==> d != short && slices[d] - symbol.minVolume >= symbol.stepVolume
    ensures d == -1 ==> forall k :: 0 <= k < upto && k != short ==>
      slices[k] - symbol.minVolume < symbol.stepVolume
  {
    if upto == 0 then -1
    else
      var d := DonorAmong(slices, short, symbol, upto - 1);
      var i := upto - 1;
      var extra := slices[i] - symbol.minVolume;
      if i != short && extra >= symbol.stepVolume
         && (d == -1 || extra > slices[d] - symbol.minVolume) then i else d
  }

  /** Move one step from the best donor to the first short leg, at most `passes`
      times; None is the exit without a donor. */
  function Repair(slices: seq<int>, symbol: SymbolInfo, passes: nat): Option<seq<int>>
    decreases passes
  {
    var short := FirstShortFrom(slices, symbol.minVolume, 0);
    if passes == 0 || short < 0 then Some(slices)
    else
      var donor := DonorAmong(slices, short, symbol, |slices|);
      if donor < 0 then None
      else Repair(Moved(slices, donor, short, symbol.stepVolume), symbol, passes - 1)
  }

  function Moved(slices: seq<int>, donor: nat, short: nat, step: int): seq<int>
    requires donor < |slices| && short < |slices| && donor != short
  {
    slices[donor := slices[donor] - step][short := slices[short] + step]
  }

  function SplitOf(total: int, symbol: SymbolInfo, ratios: seq<real>): Split {
    if !SplittableInput(total, symbol, ratios) then Rejected
    else if Collapses(total, symbol, ratios) then Legs([total])
    else
      match Repair(InitialSlices(total, symbol, ratios), symbol, 4 * |ratios|)
      case None => Legs([total])
      case Some(slices) =>
        if FirstShortFrom(slices, symbol.minVolume, 0) >= 0 || Sum(slices) != total
        then Rejected else Legs(slices)
  }

  method SplitEntryVolume(total: int, symbol: SymbolInfo, ratios: seq<real>) returns (result: Split)
    ensures result == SplitOf(total, symbol, ratios)
  {
    hide InitialSlices, Collapses;
    if !SplittableInput(total, symbol, ratios) {
      return Rejected;
    }
    if Collapses(total, symbol, ratios) {
      return Legs([total]);
    }
    var slices := RoundedAllocation(total, symbol, ratios);
    ghost var initial := slices[..];
    var donorFound := RepairInPlace(slices, symbol, 4 * |ratios|);
    if !donorFound {
      return Legs([total]);
    }
    var short := FirstShort(slices, symbol.minVolume);
    var sum := SumOf(slices);
    if short >= 0 || sum != total {
      return Rejected;
    }
    return Legs(slices[..]);
  }

  method RoundedAllocation(total: int, symbol: SymbolInfo, ratios: seq<real>) returns (slices: array<int>)
    requires |ratios| > 0 && symbol.lotSize > 0 && symbol.stepVolume > 0
    ensures fresh(slices) && slices[..] == InitialSlices(total, symbol, ratios)
  {
    hide RoundedShare;
    var n := |ratios|;
    slices := new int[n];
    var handedOut := 0;
    ghost var shares := RoundedShares(total, symbol, ratios[..n - 1]);
    for index := 0 to n - 1
      invariant forall k :: 0 <= k < index ==> slices[k] == shares[k]
      invariant handedOut == Sum(shares[..index])
    {
      var stepped := RoundedShare(total, symbol, ratios[index]);
      slices[index] := stepped;
      handedOut := handedOut + stepped;
      SumPrefix(shares, index);
    }
    slices[n - 1] := total - handedOut;
    assert shares[..n - 1] == shares;
  }

  /** The repair loop; false is the exit without a donor. */
  method RepairInPlace(slices: array<int>, symbol: SymbolInfo, passes: nat) returns (donorFound: bool)
    modifies slices
    ensures donorFound <==> Repair(old(slices[..]), symbol, passes).Some?
    ensures donorFound ==> slices[..] == Repair(old(slices[..]), symbol, passes).value
  {
    hide FirstShortFrom, DonorAmong;
    ghost var outcome := Repair(slices[..], symbol, passes);
    for pass := 0 to passes
      invariant Repair(slices[..], symbol, passes - pass) == outcome
    {
      var short := FirstShort(slices, symbol.minVolume);
      if short < 0 {
        return true;
      }
      var donor := FindDonor(slices, short, symbol);
      if donor < 0 {
        return false;
      }
      ghost var before := slices[..];
      slices[donor] := slices[donor] - symbol.stepVolume;
      slices[short] := slices[short] + symbol.stepVolume;
      assert slices[..] == Moved(before, donor, short, symbol.stepVolume);
    }
    return true;
  }

  method FirstShort(slices: array<int>, min: int) returns (i: int)
    ensures i == FirstShortFrom(slices[..], min, 0)
  {
    i := -1;
    for index := 0 to slices.Length
      invariant i == -1
      invariant FirstShortFrom(slices[..], min, 0) == FirstShortFrom(slices[..], min, index)
    {
      if slices[index] < min {
        return index;
      }
    }
  }

  method FindDonor(slices: array<int>, short: int, symbol: SymbolInfo) returns (donor: int)
    requires 0 <= short < slices.Length
    ensures donor == DonorAmong(slices[..], short, symbol, slices.Length)
  {
    donor := -1;
    for index := 0 to slices.Length
      invariant donor == DonorAmong(slices[..], short, symbol, index)
    {
      if index != short {
        var extra := slices[index] - symbol.minVolume;
        if extra >= symbol.stepVolume
           && (donor == -1 || extra > slices[donor] - symbol.minVolume) {
          donor := index;
        }
      }
    }
  }

  method SumOf(slices: array<int>) returns (sum: int)
    ensures sum == Sum(slices[..])
  {
    sum := 0;
    for index := 0 to slices.Length
      invariant sum == Sum(slices[..index])
    {
      sum := sum + slices[index];
      SumPrefix(slices[..], index);
      assert slices[..][..index + 1] == slices[..index + 1] && slices[..][..index] == slices[..index];
    }
    assert slices[..slices.Length] == slices[..];
  }

  // ----- why the repair works -----------------------------------------------------

  /** Whole steps a slice is missing to reach the broker minimum. */
  function Missing(slice: int, symbol: SymbolInfo): (m: nat)
    requires symbol.stepVolume > 0
    ensures m == 0 <==> slice >= symbol.minVolume
  {
    if slice >= symbol.minVolume then 0
    else (symbol.minVolume - slice + symbol.stepVolume - 1) / symbol.stepVolume
  }

  function Shortfalls(slices: seq<int>, symbol: SymbolInfo): (m: seq<int>)
    requires symbol.stepVolume > 0
    ensures |m| == |slices|
    ensures forall i :: 0 <= i < |m| ==> m[i] == Missing(slices[i], symbol)
  {
    seq(|slices|, i requires 0 <= i < |slices| => Missing(slices[i], symbol))
  }

  /** Total shortfall in broker steps. */
  function Shortfall(slices: seq<int>, symbol: SymbolInfo): int
    requires symbol.stepVolume > 0
  {
    Sum(Shortfalls(slices, symbol))
  }

  /** A state the repair loop can be in. */
  predicate Repairable(slices: seq<int>, total: int, symbol: SymbolInfo) {
    && symbol.stepVolume > 0 && symbol.minVolume > 0
    && (forall i :: 0 <= i < |slices| ==> Aligned(slices[i], symbol.stepVolume))
    && Sum(slices) == total
    && total >= Needed(|slices|, symbol)
  }

  /** The least aligned volume the broker accepts. */
  function FloorVolume(symbol: SymbolInfo): (floor: int)
    requires symbol.stepVolume > 0 && symbol.minVolume > 0
    ensures floor >= symbol.minVolume
  {
    MinimumStepsPerClose(symbol) * symbol.stepVolume
  }

  /** Enough for n legs. */
  function Needed(n: nat, symbol: SymbolInfo): int
    requires symbol.stepVolume > 0 && symbol.minVolume > 0
  {
    n * FloorVolume(symbol)
  }

  lemma MinimumFloor(symbol: SymbolInfo, slice: int)
    requires symbol.stepVolume > 0 && symbol.minVolume > 0 && Aligned(slice, symbol.stepVolume)
    requires slice - symbol.minVolume < symbol.stepVolume
    ensures slice <= FloorVolume(symbol)
  {
    var steps, step := MinimumStepsPerClose(symbol), symbol.stepVolume;
    MultipleAligned(steps, step);
    AlignedSum(steps * step, slice, step);
  }

  /** Pigeonhole: while some leg is short, another can give a whole step, so the exit
      without a donor is never taken. */
  lemma DonorExists(slices: seq<int>, total: int, symbol: SymbolInfo)
    requires Repairable(slices, total, symbol)
    requires FirstShortFrom(slices, symbol.minVolume, 0) >= 0
    ensures DonorAmong(slices, FirstShortFrom(slices, symbol.minVolume, 0), symbol, |slices|) >= 0
  {
    hide FloorVolume, Aligned, Sum, DonorAmong, FirstShortFrom;
    var short := FirstShortFrom(slices, symbol.minVolume, 0);
    if DonorAmong(slices, short, symbol, |slices|) < 0 {
      forall k | 0 <= k < |slices|
        ensures slices[k] <= FloorVolume(symbol)
      {
        MinimumFloor(symbol, slices[k]);
      }
      SumAtMost(slices, FloorVolume(symbol));
    }
  }

  /** Adding a step takes exactly one step off a short slice's shortfall. */
  lemma MissingOneLess(slice: int, symbol: SymbolInfo)
    requires symbol.stepVolume > 0 && slice < symbol.minVolume
    ensures Missing(slice + symbol.stepVolume, symbol) == Missing(slice, symbol) - 1
  {
    var step := symbol.stepVolume;
    var a := symbol.minVolume - slice - 1;
    DivModUnique(a + step, step, a / step + 1, a % step);
    if slice + step >= symbol.minVolume {
      DivModUnique(a, step, 0, a);
    }
  }

  /** Each repair pass lowers the total shortfall by exactly one step and keeps the
      total volume, the alignment and everything else the loop needs. */
  lemma PassLowersShortfall(slices: seq<int>, total: int, symbol: SymbolInfo)
    requires Repairable(slices, total, symbol)
    requires FirstShortFrom(slices, symbol.minVolume, 0) >= 0
    ensures
      var short := FirstShortFrom(slices, symbol.minVolume, 0);
      var donor := DonorAmong(slices, short, symbol, |slices|);
      && donor >= 0
      && Repairable(Moved(slices, donor, short, symbol.stepVolume), total, symbol)
      && Shortfall(Moved(slices, donor, short, symbol.stepVolume), symbol) == Shortfall(slices, symbol) - 1
  {
    hide MinimumStepsPerClose, Moved, Shortfall;
    DonorExists(slices, total, symbol);
    var short := FirstShortFrom(slices, symbol.minVolume, 0);
    var donor := DonorAmong(slices, short, symbol, |slices|);
    MoveKeepsRepairable(slices, total, symbol, donor, short);
    MoveLowersShortfall(slices, symbol, donor, short);
  }

  lemma MoveLowersShortfall(slices: seq<int>, symbol: SymbolInfo, donor: nat, short: nat)
    requires symbol.stepVolume > 0
    requires donor < |slices| && short < |slices| && donor != short
    requires slices[donor] - symbol.minVolume >= symbol.stepVolume && slices[short] < symbol.minVolume
    ensures Shortfall(Moved(slices, donor, short, symbol.stepVolume), symbol) == Shortfall(slices, symbol) - 1
  {
    hide Missing;
    MissingOneLess(slices[short], symbol);
    var m := Shortfalls(slices, symbol);
    assert Shortfalls(Moved(slices, donor, short, symbol.stepVolume), symbol) == m[short := m[short] - 1];
    SumUpdate(m, short, m[short] - 1);
  }

  lemma MoveKeepsRepairable(slices: seq<int>, total: int, symbol: SymbolInfo, donor: nat, short: nat)
    requires Repairable(slices, total, symbol)
    requires donor < |slices| && short < |slices| && donor != short
    ensures Repairable(Moved(slices, donor, short, symbol.stepVolume), total, symbol)
  {
    var step := symbol.stepVolume;
    var given := slices[donor := slices[donor] - step];
    SumUpdate(slices, donor, slices[donor] - step);
    SumUpdate(given, short, given[short] + step);
    MultipleAligned(1, step);
    AlignedSum(slices[donor], step, step);
    AlignedSum(slices[short], step, step);
  }

  /** The repair ends with no short leg exactly when the passes cover the shortfall. */
  lemma {:induction false} RepairOutcome(slices: seq<int>, total: int, symbol: SymbolInfo, passes: nat)
    requires Repairable(slices, total, symbol)
    ensures Repair(slices, symbol, passes).Some?
    ensures var r := Repair(slices, symbol, passes).value;
      && |r| == |slices|
      && Repairable(r, total, symbol)
      && (FirstShortFrom(r, symbol.minVolume, 0) < 0 <==> Shortfall(slices, symbol) <= passes)
      && (Shortfall(slices, symbol) == 0 ==> r == slices)
    decreases passes
  {
    hide Repairable, Missing, DonorAmong, FirstShortFrom, Sum;
    RepairableMeans(slices, total, symbol);
    var short := FirstShortFrom(slices, symbol.minVolume, 0);
    var m := Shortfalls(slices, symbol);
    SumNonNegative(m);
    if short < 0 {
      AllMetMeansNoShortfall(slices, symbol);
    } else {
      assert m[short] >= 1;
      if passes > 0 {
        PassLowersShortfall(slices, total, symbol);
        var donor := DonorAmong(slices, short, symbol, |slices|);
        RepairOutcome(Moved(slices, donor, short, symbol.stepVolume), total, symbol, passes - 1);
      }
    }
  }

  lemma RepairableMeans(slices: seq<int>, total: int, symbol: SymbolInfo)
    requires Repairable(slices, total, symbol)
    ensures symbol.stepVolume > 0 && symbol.minVolume > 0
  {}

  lemma {:induction false} AllMetMeansNoShortfall(slices: seq<int>, symbol: SymbolInfo)
    requires symbol.stepVolume > 0
    requires forall i :: 0 <= i < |slices| ==> slices[i] >= symbol.minVolume
    ensures Shortfall(slices, symbol) == 0
  {
    SumAtMost(Shortfalls(slices, symbol), 0);
    SumNonNegative(Shortfalls(slices, symbol));
  }

  lemma InitialSlicesRepairable(total: int, symbol: SymbolInfo, ratios: seq<real>)
    requires SplittableInput(total, symbol, ratios) && !Collapses(total, symbol, ratios)
    ensures Repairable(InitialSlices(total, symbol, ratios), total, symbol)
  {
    var n, step, steps := |ratios|, symbol.stepVolume, MinimumStepsPerClose(symbol);
    var shares := RoundedShares(total, symbol, ratios[..n - 1]);
    assert InitialSlices(total, symbol, ratios)[..n - 1] == shares;
    forall i | 0 <= i < n - 1
      ensures Aligned(shares[i], symbol.stepVolume)
    {
      RoundedShareAligned(total, symbol, ratios[i]);
    }
    SumAligned(shares, symbol);
    AlignedSum(total, Sum(shares), step);
    EnoughSteps(total, step, steps, n);
    assert Needed(n, symbol) == n * (steps * step);
  }

  lemma EnoughSteps(total: int, step: int, steps: int, n: nat)
    requires step > 0 && total % step == 0 && total / step >= steps * n
    ensures total >= n * (steps * step)
  {
    MulLe(steps * n, total / step, step);
    assert steps * n * step == n * (steps * step);
  }

  lemma RoundedShareAligned(total: int, symbol: SymbolInfo, ratio: real)
    requires symbol.lotSize > 0 && symbol.stepVolume > 0
    ensures Aligned(RoundedShare(total, symbol, ratio), symbol.stepVolume)
  {
    hide RawShare, StepDown;
    StepDownAligned(RawShare(total, symbol, ratio), symbol.stepVolume);
  }

  lemma {:induction false} SumAligned(s: seq<int>, symbol: SymbolInfo)
    requires symbol.stepVolume > 0
    requires forall i :: 0 <= i < |s| ==> Aligned(s[i], symbol.stepVolume)
    ensures Aligned(Sum(s), symbol.stepVolume)
  {
    if s != [] {
      SumAligned(s[..|s| - 1], symbol);
      AlignedSum(Sum(s[..|s| - 1]), s[|s| - 1], symbol.stepVolume);
    }
  }

  /** A split is refused exactly on malformed input or when the rounded allocation is
      more than 4n steps short; otherwise it is the whole volume on one leg, exactly
      when the input collapses, or one broker-valid slice per ratio. When the rounded
      allocation is already valid it is returned untouched. */
  lemma SplitOutcome(total: int, symbol: SymbolInfo, ratios: seq<real>)
    ensures
      var r := SplitOf(total, symbol, ratios);
      && (r.Rejected? <==>
            || !SplittableInput(total, symbol, ratios)
            || (!Collapses(total, symbol, ratios)
                && Shortfall(InitialSlices(total, symbol, ratios), symbol) > 4 * |ratios|))
      && (r.Legs? ==>
            if Collapses(total, symbol, ratios) then r.slices == [total]
            else |r.slices| == |ratios| && BrokerValid(r.slices, total, symbol))
      && (r.Legs? && !Collapses(total, symbol, ratios)
          && Shortfall(InitialSlices(total, symbol, ratios), symbol) == 0 ==>
            r.slices == InitialSlices(total, symbol, ratios))
  {
    if SplittableInput(total, symbol, ratios) && !Collapses(total, symbol, ratios) {
      InitialSlicesRepairable(total, symbol, ratios);
      RepairOutcome(InitialSlices(total, symbol, ratios), total, symbol, 4 * |ratios|);
    }
  }

  // ----- instruments whose minimum and step are one lot cent ----------------------

  /** A leg's whole broker steps, rounded half away. */
  function ShareSteps(t: int, ratio: real): (steps: int) {
    RoundAway(t as real * ratio)
  }

  lemma ShareStepsBound(t: int, ratio: real)
    ensures ShareSteps(t, ratio) as real <= t as real * ratio + 0.5
    ensures t >= 0 && ratio > 0.0 ==> ShareSteps(t, ratio) >= 0
  {
    var x := t as real * ratio;
    if t >= 0 && ratio > 0.0 {
      MulLeReal(0.0, t as real, ratio);
    }
    assert RoundAway(x) as real <= x + 0.5;
  }

  /** On such an instrument a share is exactly the leg's rounded step count. */
  lemma LotCentShare(total: int, symbol: SymbolInfo, ratio: real)
    requires total > 0 && symbol.stepVolume > 0 && symbol.lotSize == 100 * symbol.stepVolume
    requires total % symbol.stepVolume == 0 && ratio > 0.0
    ensures RoundedShare(total, symbol, ratio) == ShareSteps(total / symbol.stepVolume, ratio) * symbol.stepVolume
    ensures RoundedShare(total, symbol, ratio) >= 0
  {
    hide RawShare, StepDown, ShareSteps;
    var c, t := symbol.stepVolume, total / symbol.stepVolume;
    var k := ShareSteps(t, ratio);
    assert total == t * c;
    LotCentRaw(t, symbol, ratio);
    ShareStepsBound(t, ratio);
    MultipleAligned(k, c);
    MulLe(0, k, c);
    StepDownAligned(k * c, c);
  }

  lemma LotCentRaw(t: int, symbol: SymbolInfo, ratio: real)
    requires symbol.stepVolume > 0 && symbol.lotSize == 100 * symbol.stepVolume
    ensures RawShare(t * symbol.stepVolume, symbol, ratio) == ShareSteps(t, ratio) * symbol.stepVolume
  {
    hide RoundAway, RoundTo, LotsToUnits, IdealLots;
    var c, y := symbol.stepVolume, t as real * ratio;
    IdealLotsInCents(t, c, ratio);
    RoundToCents(IdealLots(t * c, 100 * c, ratio), y);
    CentsToVolume(RoundAway(y), c, RoundTo(IdealLots(t * c, 100 * c, ratio), 2));
  }

  lemma IdealLotsInCents(t: int, c: int, ratio: real)
    requires c > 0
    ensures IdealLots(t * c, 100 * c, ratio) * 100.0 == t as real * ratio
  {
    var lots := (t * c) as real / (100 * c) as real;
    LotsInCents(t, c, lots);
    assert (lots * ratio) * 100.0 == (lots * 100.0) * ratio;
  }

  lemma RoundToCents(x: real, y: real)
    requires x * 100.0 == y
    ensures RoundTo(x, 2) == RoundAway(y) as real / 100.0
  {
    hide RoundAway;
    assert Pow10(0) == 1 && Pow10(1) == 10 && Pow10(2) == 100;
  }

  lemma LotsInCents(t: int, c: int, lots: real)
    requires c > 0 && lots == (t * c) as real / (100 * c) as real
    ensures lots * 100.0 == t as real
  {
    assert (t * c) as real == t as real * c as real;
    assert lots * (100.0 * c as real) == t as real * c as real;
    assert (lots * 100.0 - t as real) * c as real == 0.0;
  }

  lemma CentsToVolume(k: int, c: int, ideal: real)
    requires c > 0 && ideal == k as real / 100.0
    ensures LotsToUnits(ideal, 100 * c) == k * c
  {
    assert ideal * (100 * c) as real == k as real * c as real == (k * c) as real;
  }

  /** The steps handed to the non-final legs exceed their exact share by at most half
      a step each. */
  lemma SharesBounded(total: int, symbol: SymbolInfo, ratios: seq<real>)
    requires total > 0 && symbol.stepVolume > 0 && symbol.lotSize == 100 * symbol.stepVolume
    requires total % symbol.stepVolume == 0
    requires forall i :: 0 <= i < |ratios| ==> ratios[i] > 0.0
    ensures
      var t := total / symbol.stepVolume;
      Sum(RoundedShares(total, symbol, ratios)) as real
        <= ShareBound(t, SumReal(ratios), |ratios|, symbol.stepVolume)
  {
    hide RoundedShare, RoundAway, Sum, SumReal, ShareBound;
    var t := total / symbol.stepVolume;
    var shares := RoundedShares(total, symbol, ratios);
    var k := 0;
    assert Sum(shares[..0]) as real <= ShareBound(t, SumReal(ratios[..0]), 0, symbol.stepVolume) by { ShareStart(shares, ratios, t, symbol.stepVolume); }
    while k < |ratios|
      invariant 0 <= k <= |ratios|
      invariant Sum(shares[..k]) as real <= ShareBound(t, SumReal(ratios[..k]), k, symbol.stepVolume)
    {
      ShareStepAt(total, symbol, ratios, k);
      SumPrefix(shares, k);
      k := k + 1;
    }
    assert shares[..k] == shares && ratios[..k] == ratios;
  }

  /** Volume of n legs taking `head` of t steps, each rounded up by at most half. */
  ghost function ShareBound(t: int, head: real, n: int, step: int): real {
    (t as real * head + n as real * 0.5) * step as real
  }

  lemma ShareStart(shares: seq<int>, ratios: seq<real>, t: int, step: int)
    ensures Sum(shares[..0]) as real <= ShareBound(t, SumReal(ratios[..0]), 0, step)
  {}

  lemma ShareStepAt(total: int, symbol: SymbolInfo, ratios: seq<real>, k: nat)
    requires total > 0 && symbol.stepVolume > 0 && symbol.lotSize == 100 * symbol.stepVolume
    requires total % symbol.stepVolume == 0
    requires k < |ratios| && ratios[k] > 0.0
    ensures
      var t := total / symbol.stepVolume;
      ShareBound(t, SumReal(ratios[..k]), k, symbol.stepVolume) + RoundedShare(total, symbol, ratios[k]) as real
        <= ShareBound(t, SumReal(ratios[..k + 1]), k + 1, symbol.stepVolume)
  {
    hide RoundedShare, SumReal, ShareBound, ShareSteps;
    LotCentShare(total, symbol, ratios[k]);
    ShareStep(total / symbol.stepVolume, SumReal(ratios[..k]), ratios[k], k, symbol.stepVolume);
    SumRealPrefix(ratios, k);
  }

  lemma ShareStep(t: int, head: real, ratio: real, n: nat, step: int)
    requires step > 0
    ensures ShareBound(t, head, n, step) + (ShareSteps(t, ratio) * step) as real
         <= ShareBound(t, head + ratio, n + 1, step)
  {
    hide ShareSteps;
    var k := ShareSteps(t, ratio);
    ShareStepsBound(t, ratio);
    MulLeReal(k as real, t as real * ratio + 0.5, step as real);
    assert (k * step) as real == k as real * step as real;
    var a, b := t as real * head + n as real * 0.5, t as real * ratio + 0.5;
    assert a * step as real + b * step as real == (a + b) * step as real;
  }

  /** When minimum and step are one lot cent and the ratios sum to exactly one, 4n
      passes always suffice: the split never refuses a well-formed request. */
  lemma LotCentSplitNeverRefused(total: int, symbol: SymbolInfo, ratios: seq<real>)
    requires SplittableInput(total, symbol, ratios) && SumReal(ratios) == 1.0
    requires symbol.minVolume == symbol.stepVolume && symbol.lotSize == 100 * symbol.stepVolume
    ensures SplitOf(total, symbol, ratios).Legs?
  {
    hide RoundedShare, Missing, MinimumStepsPerClose, SplitOf;
    SplitOutcome(total, symbol, ratios);
    if !Collapses(total, symbol, ratios) {
      LotCentShortfall(total, symbol, ratios);
    }
  }

  lemma LotCentShortfall(total: int, symbol: SymbolInfo, ratios: seq<real>)
    requires SplittableInput(total, symbol, ratios) && SumReal(ratios) == 1.0 && |ratios| >= 2
    requires symbol.minVolume == symbol.stepVolume && symbol.lotSize == 100 * symbol.stepVolume
    ensures Shortfall(InitialSlices(total, symbol, ratios), symbol) <= 2 * |ratios|
  {
    hide RoundedShare, Missing, SumReal;
    var n := |ratios|;
    var slices := InitialSlices(total, symbol, ratios);
    var missing := Shortfalls(slices, symbol);
    forall i | 0 <= i < n - 1
      ensures missing[i] <= 1
    {
      assert slices[i] == RoundedShare(total, symbol, ratios[i]);
      LotCentShare(total, symbol, ratios[i]);
      MissingBound(slices[i], symbol, 1);
    }
    SumAtMost(missing[..n - 1], 1);
    LastLegShortfall(total, symbol, ratios);
  }

  lemma LastLegShortfall(total: int, symbol: SymbolInfo, ratios: seq<real>)
    requires SplittableInput(total, symbol, ratios) && SumReal(ratios) == 1.0 && |ratios| >= 2
    requires symbol.minVolume == symbol.stepVolume && symbol.lotSize == 100 * symbol.stepVolume
    ensures Missing(InitialSlices(total, symbol, ratios)[|ratios| - 1], symbol) <= |ratios|
  {
    hide RoundedShare, Missing, ShareBound;
    var n, c := |ratios|, symbol.stepVolume;
    var head := ratios[..n - 1];
    var shares := RoundedShares(total, symbol, head);
    SharesBounded(total, symbol, head);
    LastLegBound(total / c, c, n, SumReal(head), ratios[n - 1], Sum(shares));
    MissingBound(total - Sum(shares), symbol, n);
  }

  lemma LastLegBound(t: int, c: int, n: int, head: real, last: real, handedOut: int)
    requires t >= 0 && c > 0 && n >= 2 && head + last == 1.0 && last > 0.0
    requires handedOut as real <= ShareBound(t, head, n - 1, c)
    ensures t * c - handedOut >= -((n - 1) * c)
  {
    MulLeReal(head, 1.0, t as real);
    MulLeReal(t as real * head + (n - 1) as real * 0.5, t as real + (n - 1) as real, c as real);
    assert (t as real + (n - 1) as real) * c as real == (t * c + (n - 1) * c) as real;
  }

  lemma MissingBound(slice: int, symbol: SymbolInfo, n: int)
    requires symbol.stepVolume > 0 && symbol.minVolume == symbol.stepVolume && n >= 1
    requires slice >= -((n - 1) * symbol.stepVolume)
    ensures Missing(slice, symbol) <= n
  {
    var c := symbol.stepVolume;
    var m := Missing(slice, symbol);
    if m > n {
      MulLe(n + 1, m, c);
    }
  }

  function ExampleSymbol(): SymbolInfo { SymbolInfo(100, 100, 1000000, 10000, 2) }

  lemma ExampleSlices()
    ensures SumReal([0.7, 0.3]) == 1.0
    ensures InitialSlices(1100, ExampleSymbol(), [0.7, 0.3]) == [800, 300]
  {
    hide RoundedShare;
    var ratios := [0.7, 0.3];
    assert ratios[..1] == [0.7] && [0.7][..0] == [];
    assert SumReal([0.7]) == 0.7;
    assert ShareSteps(11, 0.7) == 8;
    LotCentShare(1100, ExampleSymbol(), 0.7);
    var shares := RoundedShares(1100, ExampleSymbol(), ratios[..1]);
    assert shares == [800] && shares[..0] == [];
    assert Sum(shares) == 800;
  }

  /** The repository's own example: 0.11 lots at 70/30 become 0.08 + 0.03. */
  lemma DocumentedSplit()
    ensures SplitOf(1100, ExampleSymbol(), [0.7, 0.3]) == Legs([800, 300])
  {
    hide InitialSlices, SplitOf, Repair, Missing, Sum, SumReal;
    ExampleSlices();
    AllMetMeansNoShortfall([800, 300], ExampleSymbol());
    SplitOutcome(1100, ExampleSymbol(), [0.7, 0.3]);
  }

  // ----- partial take-profit closes ------------------------------------------------

  function PlanPartialCloseVolume(
    remaining: int, desired: int, symbol: SymbolInfo, isFinalTarget: bool): (close: int)
    ensures 0 <= close <= remaining || (remaining <= 0 && close == 0)
    ensures isFinalTarget && remaining > 0 ==> close == remaining
  {
    if remaining <= 0 then 0
    else if isFinalTarget || desired >= remaining then remaining
    else if desired <= 0 then 0
    else if symbol.stepVolume <= 0 || symbol.minVolume <= 0 then desired
    else
      var close := desired / symbol.stepVolume * symbol.stepVolume;
      if close < symbol.minVolume then
        if remaining <= symbol.minVolume then remaining else 0
      else
        var leftover := remaining - close;
        if leftover < symbol.minVolume || leftover % symbol.stepVolume != 0 then remaining
        else close
  }

  /** A partial close never strands volume the broker could not close later: either
      everything goes, or nothing, or a step-aligned part that leaves an aligned
      remainder of at least the minimum. */
  lemma PartialCloseLeavesNoDust(remaining: int, desired: int, symbol: SymbolInfo, isFinalTarget: bool)
    requires symbol.stepVolume > 0 && symbol.minVolume > 0 && remaining > 0
    ensures
      var close := PlanPartialCloseVolume(remaining, desired, symbol, isFinalTarget);
      || close == 0
      || close == remaining
      || (&& symbol.minVolume <= close <= desired && Aligned(close, symbol.stepVolume)
          && remaining - close >= symbol.minVolume && Aligned(remaining - close, symbol.stepVolume))
  {
    MultipleAligned(desired / symbol.stepVolume, symbol.stepVolume);
  }

  /** The step-aligned volume taken from each leg, shallowest first, out of `close`. */
  function ShallowFirst(remaining: seq<int>, close: int, step: int): (taken: seq<int>)
    requires step > 0
    ensures |taken| == |remaining|
  {
    if remaining == [] then []
    else
      var n := |remaining| - 1;
      var head := ShallowFirst(remaining[..n], close, step);
      head + [LegTake(remaining[n], close - Sum(head), step)]
  }

  function LegTake(held: int, left: int, step: int): int
    requires step > 0
  {
    if left <= 0 then 0 else StepDown(if held <= left then held else left, step)
  }

  function EffectiveStep(symbol: SymbolInfo): (step: int)
    ensures step >= 1
  {
    if symbol.stepVolume >= 1 then symbol.stepVolume else 1
  }

  function Allocation(remaining: seq<int>, close: int, symbol: SymbolInfo): (taken: seq<int>)
    ensures |taken| == |remaining|
  {
    var total := Sum(remaining);
    var step := EffectiveStep(symbol);
    if total <= 0 || close <= 0 then seq(|remaining|, _ => 0)
    else ShallowFirst(remaining, StepDown(if close <= total then close else total, step), step)
  }

  method AllocateShallowFirstStepped(remaining: array<int>, closeVolume: int, symbol: SymbolInfo)
    returns (allocations: array<int>)
    ensures allocations.Length == remaining.Length && fresh(allocations)
    ensures allocations[..] == Allocation(remaining[..], closeVolume, symbol)
    ensures remaining[..] == old(remaining[..])
  {
    hide StepDown, ShallowFirst, Sum;
    var total := SumOf(remaining);
    allocations := new int[remaining.Length](_ => 0);
    if total <= 0 || closeVolume <= 0 {
      return;
    }
    var step := EffectiveStep(symbol);
    var close := StepDown(if closeVolume <= total then closeVolume else total, step);
    var left := close;
    ghost var r := remaining[..];
    var i := 0;
    ShallowFirstEmpty(close, step);
    while i < remaining.Length && left > 0
      invariant 0 <= i <= remaining.Length
      invariant remaining[..] == r
      invariant forall k :: i <= k < remaining.Length ==> allocations[k] == 0
      invariant allocations[..i] == ShallowFirst(r[..i], close, step)
      invariant left == close - Sum(allocations[..i])
    {
      var take := StepDown(if remaining[i] <= left then remaining[i] else left, step);
      ShallowFirstSnoc(r, close, step, i);
      SumSnoc(allocations[..i], take);
      ghost var before := allocations[..i];
      allocations[i] := take;
      left := left - take;
      i := i + 1;
      assert allocations[..i] == before + [take];
    }
    NothingLeft(r, close, step, i);
    assert allocations[i..] == seq(|r| - i, _ => 0);
    assert allocations[..] == allocations[..i] + allocations[i..];
  }

  lemma ShallowFirstEmpty(close: int, step: int)
    requires step > 0
    ensures ShallowFirst([], close, step) == [] && Sum([]) == 0
  {}

  lemma ShallowFirstSnoc(remaining: seq<int>, close: int, step: int, k: nat)
    requires step > 0 && k < |remaining|
    ensures
      var head := ShallowFirst(remaining[..k], close, step);
      ShallowFirst(remaining[..k + 1], close, step) == head + [LegTake(remaining[k], close - Sum(head), step)]
  {
    assert remaining[..k + 1][..k] == remaining[..k];
  }

  /** Once the close volume is used up, deeper legs give nothing. */
  lemma {:induction false} NothingLeft(r: seq<int>, close: int, step: int, i: nat)
    requires step > 0 && i <= |r|
    requires i < |r| ==> close - Sum(ShallowFirst(r[..i], close, step)) <= 0
    ensures ShallowFirst(r, close, step) == ShallowFirst(r[..i], close, step) + seq(|r| - i, _ => 0)
  {
    hide ShallowFirst;
    var k := i;
    while k < |r|
      invariant i <= k <= |r|
      invariant ShallowFirst(r[..k], close, step) == ShallowFirst(r[..i], close, step) + seq(k - i, _ => 0)
      invariant k < |r| ==> close - Sum(ShallowFirst(r[..k], close, step)) <= 0
    {
      ShallowFirstSnoc(r, close, step, k);
      SumSnoc(ShallowFirst(r[..k], close, step), 0);
      k := k + 1;
    }
    assert r[..k] == r;
  }

  /** Closing an aligned volume out of aligned legs takes exactly that volume, or
      everything when the legs hold no more, and never more than a leg holds; a prefix
      of the legs that holds no more than the close volume is drained completely. */
  lemma ShallowFirstExact(remaining: seq<int>, close: int, step: int)
    requires step > 0 && close >= 0 && Aligned(close, step)
    requires forall i :: 0 <= i < |remaining| ==> remaining[i] >= 0 && Aligned(remaining[i], step)
    ensures
      var taken := ShallowFirst(remaining, close, step);
      && (if Sum(remaining) <= close then taken == remaining else Sum(taken) == close)
      && forall i :: 0 <= i < |taken| ==> 0 <= taken[i] <= remaining[i] && Aligned(taken[i], step)
  {
    hide StepDown, Aligned, ShallowFirst, LegTake;
    var k := 0;
    MultipleAligned(0, step);
    while k < |remaining|
      invariant 0 <= k <= |remaining|
      invariant TakenExactly(remaining[..k], ShallowFirst(remaining[..k], close, step), close, step)
    {
      var head := ShallowFirst(remaining[..k], close, step);
      ShallowFirstSnoc(remaining, close, step, k);
      LegTakeExact(remaining[k], close, Sum(head), step);
      assert remaining[..k + 1] == remaining[..k] + [remaining[k]];
      TakenExactlySnoc(remaining[..k], head, remaining[k], LegTake(remaining[k], close - Sum(head), step), close, step);
      k := k + 1;
    }
    assert remaining[..k] == remaining;
  }

  predicate TakenExactly(held: seq<int>, taken: seq<int>, close: int, step: int)
    requires step > 0
  {
    && |taken| == |held|
    && (if Sum(held) <= close then taken == held else Sum(taken) == close)
    && Aligned(Sum(taken), step)
    && forall i :: 0 <= i < |taken| ==> 0 <= taken[i] <= held[i] && Aligned(taken[i], step)
  }

  lemma TakenExactlySnoc(held: seq<int>, taken: seq<int>, leg: int, take: int, close: int, step: int)
    requires step > 0 && TakenExactly(held, taken, close, step)
    requires leg >= 0 && Aligned(take, step)
    requires take == if close <= Sum(taken) then 0 else if leg <= close - Sum(taken) then leg else close - Sum(taken)
    ensures TakenExactly(held + [leg], taken + [take], close, step)
  {
    hide Aligned;
    SumSnoc(held, leg);
    SumSnoc(taken, take);
    AlignedSum(Sum(taken), take, step);
  }

  lemma LegTakeExact(held: int, close: int, used: int, step: int)
    requires step > 0 && held >= 0
    requires Aligned(held, step) && Aligned(close, step) && Aligned(used, step)
    ensures LegTake(held, close - used, step) ==
      if close <= used then 0 else if held <= close - used then held else close - used
    ensures Aligned(LegTake(held, close - used, step), step)
  {
    hide StepDown, Aligned;
    AlignedSum(close, used, step);
    StepDownAligned(if held <= close - used then held else close - used, step);
    MultipleAligned(0, step);
  }

  /** A deeper leg is touched only when every shallower one has been emptied. */
  lemma ShallowDrainedFirst(remaining: seq<int>, close: int, step: int, i: nat, j: nat)
    requires step > 0 && close >= 0 && Aligned(close, step) && i < j < |remaining|
    requires forall i :: 0 <= i < |remaining| ==> remaining[i] >= 0 && Aligned(remaining[i], step)
    requires ShallowFirst(remaining, close, step)[j] > 0
    ensures ShallowFirst(remaining, close, step)[i] == remaining[i]
  {
    hide StepDown, Aligned, ShallowFirst;
    ShallowFirstPrefix(remaining, close, step, j + 1);
    ShallowFirstPrefix(remaining, close, step, j);
    ShallowFirstSnoc(remaining, close, step, j);
    ShallowFirstExact(remaining[..j], close, step);
    var head := ShallowFirst(remaining[..j], close, step);
    var taken := ShallowFirst(remaining, close, step);
    assert taken[j] == taken[..j + 1][j];
    assert taken[i] == taken[..j][i];
  }

  lemma ShallowFirstPrefix(remaining: seq<int>, close: int, step: int, k: nat)
    requires step > 0 && k <= |remaining|
    ensures ShallowFirst(remaining, close, step)[..k] == ShallowFirst(remaining[..k], close, step)
  {
    hide ShallowFirst;
    var m := k;
    while m < |remaining|
      invariant k <= m <= |remaining|
      invariant ShallowFirst(remaining[..m], close, step)[..k] == ShallowFirst(remaining[..k], close, step)
    {
      ShallowFirstSnoc(remaining, close, step, m);
      m := m + 1;
    }
    assert remaining[..m] == remaining;
  }
}
