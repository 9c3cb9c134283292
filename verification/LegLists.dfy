/** The leg lists of a record, rewritten by index as the runtime does: planned, withdrawn,
    cancelled, adopted, vanished and closed legs. Each loop is proved to be the function the
    phases of a poll are described by. */
module LegLists {
  import opened Common
  import opened TradePlanModel
  import opened VolumePlanner
  import opened PositionManagement
  import opened TargetLadder
  import opened OppositeExposureFence
  import opened RuntimeModel

  // ----- submitting and withdrawing ----------------------------------------------------------------

  method EnsurePlanned(legs: seq<Leg>, declared: seq<Declared>) returns (r: seq<Leg>)
    ensures r == EnsurePlannedLegs(legs, declared)
  {
    r := legs;
    for i := 0 to |declared|
      invariant r == EnsurePlannedLegs(legs, declared[..i])
    {
      assert declared[..i + 1][..i] == declared[..i];
      if FindLeg(r, declared[i].legId) < 0 {
        r := r + [PlannedLeg(declared[i])];
      }
    }
    assert declared[..|declared|] == declared;
  }

  /** The two passes that withdraw what was never sent and clear dead orders. */
  method WithdrawLegs(legs: seq<Leg>) returns (r: seq<Leg>)
    ensures r == WithdrawnLegs(legs)
  {
    r := legs;
    for i := 0 to |legs|
      invariant |r| == |legs|
      invariant forall k :: 0 <= k < i ==> r[k] == Unsent(legs[k])
      invariant forall k :: i <= k < |legs| ==> r[k] == legs[k]
    {
      if NeverSent(r[i]) {
        r := r[i := r[i].(stage := Cancelled)];
      }
    }
    ghost var marked := r;
    for i := 0 to |legs|
      invariant |r| == |legs|
      invariant forall k :: 0 <= k < i ==> r[k] == Withdrawn(legs[k])
      invariant forall k :: i <= k < |legs| ==> r[k] == marked[k]
    {
      if r[i].stage == Cancelled && r[i].positionId.None? && r[i].orderId.Some? {
        r := r[i := r[i].(orderId := None)];
      }
    }
  }

  /** Cancels every cancellable leg in turn; a refused cancel leaves its leg as it was. */
  method CancelLegs(planId: string, legs: seq<Leg>, answers: seq<CancelAnswer>)
    returns (r: seq<Leg>, sent: seq<BrokerOp>, gone: set<int>)
    ensures r == LegsAfterCancels(legs, answers)
    ensures sent == CancelRequests(planId, legs)
    ensures gone == WithdrawnOrders(legs, answers)
  {
    r, sent, gone := legs, [], {};
    for i := 0 to |legs|
      invariant |r| == |legs|
      invariant forall k :: 0 <= k < i ==> r[k] == AfterCancel(legs[k], AnswerFor(answers, k))
      invariant forall k :: i <= k < |legs| ==> r[k] == legs[k]
      invariant sent == CancelRequests(planId, legs[..i])
      invariant gone == WithdrawnOrders(legs[..i], answers)
    {
      assert legs[..i + 1][..i] == legs[..i];
      WithdrawnOrdersNext(legs, answers, i);
      var leg := legs[i];
      if IsCancellable(leg) {
        sent := sent + [CancelSent(planId, leg.orderId.value)];
        match AnswerFor(answers, i)
        case CancelAccepted =>
          r := r[i := leg.(stage := Cancelled)];
          gone := gone + {leg.orderId.value};
        case CancelNotFound(filledSeen) =>
          if !filledSeen {
            r := r[i := leg.(stage := Cancelled, orderId := None)];
          }
          gone := gone + {leg.orderId.value};
        case CancelFailed =>
      }
    }
    assert legs[..|legs|] == legs;
  }

  /** Closes whole what the walked legs still hold. */
  method SendCloses(planId: string, legs: seq<Leg>, walked: nat) returns (sent: seq<BrokerOp>)
    ensures sent == FlattenCloses(planId, Walked(legs, walked))
  {
    sent := [];
    var i := 0;
    while i < |legs| && i < walked
      invariant i <= |legs| && i <= walked
      invariant sent == FlattenCloses(planId, legs[..i])
    {
      assert legs[..i + 1][..i] == legs[..i];
      if legs[i].positionId.Some? && legs[i].remaining > 0 {
        sent := sent + [CloseSent(planId, legs[i].positionId.value, legs[i].remaining)];
      }
      i := i + 1;
    }
    assert i == |legs| ==> legs[..i] == legs;
  }

  lemma WithdrawnOrdersNext(legs: seq<Leg>, answers: seq<CancelAnswer>, i: nat)
    requires i < |legs|
    ensures WithdrawnOrders(legs[..i + 1], answers) == WithdrawnOrders(legs[..i], answers)
      + if IsCancellable(legs[i]) && !AnswerFor(answers, i).CancelFailed? then {legs[i].orderId.value} else {}
  {
    var a, b := WithdrawnOrders(legs[..i + 1], answers), WithdrawnOrders(legs[..i], answers);
    forall o | o in b
      ensures o in a
    {
      var k :| 0 <= k < i && IsCancellable(legs[..i][k]) && !AnswerFor(answers, k).CancelFailed?
               && legs[..i][k].orderId.value == o;
      assert legs[..i + 1][k] == legs[k];
    }
    if IsCancellable(legs[i]) && !AnswerFor(answers, i).CancelFailed? {
      assert legs[..i + 1][i] == legs[i];
    }
    forall o | o in a
      ensures o in b || (IsCancellable(legs[i]) && !AnswerFor(answers, i).CancelFailed? && o == legs[i].orderId.value)
    {
      var k :| 0 <= k < i + 1 && IsCancellable(legs[..i + 1][k]) && !AnswerFor(answers, k).CancelFailed?
               && legs[..i + 1][k].orderId.value == o;
      if k < i {
        assert legs[..i][k] == legs[k];
      }
    }
  }

  // ----- reconciling ---------------------------------------------------------------------------------

  /** Puts a broker position on its leg, or on a new one. */
  method AdoptLeg(state: State, a: Adoption) returns (r: State)
    ensures r == AdoptFilledLeg(state, a)
  {
    hide AggregateState, DeriveRuntimeStage, DeriveGroupStage;
    var legs := state.legs;
    var i := FindLeg(legs, a.legId);
    if i < 0 {
      legs := legs + [Leg(a.legId, a.price, a.volume, None, Some(a.positionId), Some(a.price), a.volume, a.volume, Filled)];
    } else {
      legs := legs[i := legs[i].(positionId := Some(a.positionId), fillPrice := Some(a.price),
                                 filled := a.volume, remaining := a.volume, stage := Filled)];
    }
    r := AggregateState(state.(legs := legs, stage := DeriveRuntimeStage(legs), groupStage := DeriveGroupStage(legs)));
  }

  /** Adopts a position and moves its stop to the plan's; false when that call throws. */
  method AdoptAndAmend(plan: Plan, record: State, a: Adoption, amends: bool) returns (r: State, ok: bool)
    ensures ok <==> !(amends && a.amend == AmendFailed)
    ensures ok ==> r == if amends then AfterAmend(plan, AdoptFilledLeg(record, a), a.amend) else AdoptFilledLeg(record, a)
  {
    hide AggregateState, AdoptFilledLeg;
    ok := true;
    r := AdoptLeg(record, a);
    if amends {
      if a.amend == AmendFailed {
        ok := false;
        return;
      }
      if a.amend == Amended {
        r := r.(currentStop := plan.stopPrice);
      }
      r := AggregateState(r);
    }
  }

  /** First pass of a reconcile: broker positions are matched onto legs. */
  method AdoptAll(plan: Plan, input: ReconcileInput, state: State) returns (run: ReconcileRun)
    ensures run == AdoptPositions(plan, input, state, |input.adoptions|)
  {
    hide AdoptFilledLeg, AfterAmend, PartialOrder, FindLeg;
    var record, legs, changed := state, state.legs, false;
    var partial: set<int> := {};
    for i := 0 to |input.adoptions|
      invariant ReconcileRun(record, legs, changed, true, partial) == AdoptPositions(plan, input, state, i)
    {
      var a := input.adoptions[i];
      var k := FindLeg(legs, a.legId);
      if k >= 0 && legs[k].positionId == Some(a.positionId) && (legs[k].stage == Filled || legs[k].stage == Managing) {
        continue;
      }
      partial := partial + PartialOrder(record.legs, a.legId, input.pending);
      var next, ok := AdoptAndAmend(plan, record, a, true);
      if !ok {
        AdoptionsStopped(plan, input, state, i + 1, |input.adoptions|);
        return ReconcileRun(record, legs, changed, false, partial);
      }
      record := next;
      legs := record.legs;
      changed := true;
    }
    return ReconcileRun(record, legs, changed, true, partial);
  }

  /** Once a call has thrown, the remaining positions are not looked at. */
  lemma {:induction false} AdoptionsStopped(plan: Plan, input: ReconcileInput, state: State, from: nat, upto: nat)
    requires from <= upto <= |input.adoptions| && !AdoptPositions(plan, input, state, from).ok
    ensures AdoptPositions(plan, input, state, upto) == AdoptPositions(plan, input, state, from)
  {
    hide Adopt, AlreadyAdopted;
    if from < upto {
      AdoptionsStopped(plan, input, state, from, upto - 1);
    }
  }

  /** Second pass: legs whose order left the pending snapshot. */
  method CheckAll(plan: Plan, input: ReconcileInput, state: State, first: ReconcileRun) returns (run: ReconcileRun)
    requires first == AdoptPositions(plan, input, state, |input.adoptions|)
    ensures run == CheckPendings(plan, input, state, |first.legs|)
  {
    hide AdoptFilledLeg, AfterAmend, PartialOrder, AdoptPositions, VerdictFor;
    if !first.ok {
      ChecksStopped(plan, input, state, 0, |first.legs|);
      return first;
    }
    var record, legs, changed, partial := first.record, first.legs, first.changed, first.partial;
    for i := 0 to |first.legs|
      invariant ReconcileRun(record, legs, changed, true, partial) == CheckPendings(plan, input, state, i)
    {
      ghost var before := ReconcileRun(record, legs, changed, true, partial);
      if i >= |legs| || legs[i].orderId.None? || legs[i].orderId.value in input.pending {
        continue;
      }
      var leg := legs[i];
      if leg.positionId.Some? {
        if leg.stage == Pending {
          legs := legs[i := leg.(stage := Filled)];
          changed := true;
        }
        continue;
      }
      match VerdictFor(input, i)
      case Undecided =>
      case NeverFilled =>
        legs := legs[i := leg.(stage := Cancelled, orderId := None)];
        changed := true;
      case FilledAs(a, stillOpen) =>
        var found := a.(legId := leg.legId);
        partial := partial + PartialOrder(record.legs, found.legId, input.pending);
        var next, ok := AdoptAndAmend(plan, record, found, stillOpen);
        if !ok {
          assert CheckPendings(plan, input, state, i + 1) == CheckPending(plan, input, before, i);
          ChecksStopped(plan, input, state, i + 1, |first.legs|);
          return ReconcileRun(record, legs, changed, false, partial);
        }
        record := next;
        legs := record.legs;
        changed := true;
    }
    return ReconcileRun(record, legs, changed, true, partial);
  }

  lemma {:induction false} ChecksStopped(plan: Plan, input: ReconcileInput, state: State, from: nat, upto: nat)
    requires from <= upto && !CheckPendings(plan, input, state, from).ok
    ensures CheckPendings(plan, input, state, upto) == CheckPendings(plan, input, state, from)
  {
    hide CheckPending, AdoptPositions;
    if from < upto {
      ChecksStopped(plan, input, state, from, upto - 1);
    }
  }

  // ----- managing --------------------------------------------------------------------------------------

  /** Empties the legs whose position vanished, and sums up what was found about them. */
  method VanishLegs(legs: seq<Leg>, present: set<int>, lookups: seq<Lookup>)
    returns (r: seq<Leg>, missing: bool, evidence: Evidence)
    ensures r == LegsAfterVanish(legs, present)
    ensures missing <==> AnyMissing(legs, present)
    ensures evidence == EvidenceOf(legs, present, lookups)
  {
    r, missing := legs, false;
    evidence := Evidence(false, true, true, true);
    for i := 0 to |legs|
      invariant |r| == |legs|
      invariant forall k :: 0 <= k < i ==>
        r[k] == if IsMissing(legs[k], present) then legs[k].(remaining := 0, stage := Closed) else legs[k]
      invariant forall k :: i <= k < |legs| ==> r[k] == legs[k]
      invariant missing <==> exists k :: 0 <= k < i && IsMissing(legs[k], present)
      invariant evidence == EvidenceOf(legs[..i], present, lookups)
    {
      assert legs[..i + 1][..i] == legs[..i];
      if IsMissing(legs[i], present) {
        missing := true;
        r := r[i := legs[i].(remaining := 0, stage := Closed)];
        var found := LookupFor(lookups, i);
        evidence := Evidence(
          evidence.unknown || found.reason == UnknownReason, evidence.priced && found.priced,
          evidence.stops && found.reason == StopOrTarget, evidence.manual && found.reason == ManualOrExternal);
      }
    }
    assert legs[..|legs|] == legs;
  }

  lemma EmptySlices(plan: Plan, closes: seq<CloseAnswer>, pipSize: real)
    ensures CloseRequests(plan.planId, [], []) == [] && BookedPips(plan.direction, [], [], closes, pipSize) == 0.0
  {}

  /** What one more slice adds to the requests and to the booked pips. */
  lemma NextSlice(plan: Plan, legs: seq<Leg>, slices: seq<int>, closes: seq<CloseAnswer>, pipSize: real, i: nat)
    requires i < |legs| == |slices|
    ensures CloseRequests(plan.planId, legs[..i + 1], slices[..i + 1])
         == CloseRequests(plan.planId, legs[..i], slices[..i])
            + if slices[i] > 0 && legs[i].positionId.Some?
              then [CloseSent(plan.planId, legs[i].positionId.value, slices[i])] else []
    ensures BookedPips(plan.direction, legs[..i + 1], slices[..i + 1], closes, pipSize)
         == BookedPips(plan.direction, legs[..i], slices[..i], closes, pipSize)
            + if slices[i] > 0 then LegPips(plan.direction, legs[i], CloseFor(closes, i), pipSize) else 0.0
  {
    hide LegPips;
    assert legs[..i + 1][..i] == legs[..i] && slices[..i + 1][..i] == slices[..i];
  }

  /** Closes each leg's slice in turn; a refused close leaves its leg for the next poll. */
  method CloseSlices(
    plan: Plan, legs: seq<Leg>, slices: seq<int>, closes: seq<CloseAnswer>, pipSize: real)
    returns (r: seq<Leg>, allClosed: bool, pips: real, sent: seq<BrokerOp>)
    requires |slices| == |legs|
    ensures r == LegsAfterCloses(legs, slices, closes)
    ensures allClosed <==> AllClosesSucceeded(slices, closes)
    ensures pips == BookedPips(plan.direction, legs, slices, closes, pipSize)
    ensures sent == CloseRequests(plan.planId, legs, slices)
  {
    hide LegPips, CloseRequests, BookedPips;
    EmptySlices(plan, closes, pipSize);
    assert legs[..0] == [] && slices[..0] == [];
    r, allClosed, pips, sent := legs, true, 0.0, [];
    for i := 0 to |legs|
      invariant |r| == |legs|
      invariant forall k :: 0 <= k < i ==> r[k] == AfterClose(legs[k], slices[k], CloseFor(closes, k))
      invariant forall k :: i <= k < |legs| ==> r[k] == legs[k]
      invariant allClosed <==> forall k :: 0 <= k < i && slices[k] > 0 ==> CloseFor(closes, k).Executed?
      invariant pips == BookedPips(plan.direction, legs[..i], slices[..i], closes, pipSize)
      invariant sent == CloseRequests(plan.planId, legs[..i], slices[..i])
    {
      NextSlice(plan, legs, slices, closes, pipSize, i);
      if slices[i] > 0 {
        if legs[i].positionId.Some? {
          sent := sent + [CloseSent(plan.planId, legs[i].positionId.value, slices[i])];
        }
        var answer := CloseFor(closes, i);
        if answer.CloseRefused? {
          allClosed := false;
        } else {
          var left := if legs[i].remaining >= answer.volume then legs[i].remaining - answer.volume else 0;
          r := r[i := legs[i].(remaining := left, stage := if left <= 0 then Closed else Managing)];
        }
        pips := pips + LegPips(plan.direction, legs[i], answer, pipSize);
      }
    }
    assert legs[..|legs|] == legs && slices[..|legs|] == slices;
  }
}
