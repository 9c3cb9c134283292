/** When a leg can be accepted twice: exactly when a placement of its plan was accepted and
    reported as failed, or the plan declares an id again after a leg of it that can rest. */
module DoubleAcceptance {
  import opened Common
  import opened TradePlanModel
  import opened OppositeExposureFence
  import opened RuntimeModel
  import opened RuntimeWorld
  import opened RuntimeSteps
  import opened SubmissionSafety
  import opened ReusedLegIds
  import opened FirstOrders

  /** A fresh plan with a clear fence goes through to its submission. */
  lemma FreshSubmits(w: World, plan: Plan, answer: Placement)
    requires Tracked(w, plan.planId) && w.plans[plan.planId] == plan && w.states[plan.planId] == FreshState(plan)
    ensures
      var e := Submit(plan.planId, Trying(plan, [], answer));
      PlanEffect(w, PlainConfig(), plan.planId, e)
      == SubmitEntry(plan, FreshState(plan), PlainConfig(), Trying(plan, [], answer))
  {
    hide QuoteFor, SubmitEntry;
    var input := Trying(plan, [], answer);
    assert CheckOppositeExposure(w.plans, w.states, map[], plan, input) == Some(Clear);
  }

  function LostReplyRun(plan: Plan): seq<Event>
    requires Validates(plan)
  {
    [Arm(plan, true, true)] + [Submit(plan.planId, Trying(plan, [], ReplyLost(1)))]
    + [Submit(plan.planId, Trying(plan, [], Taken(plan)))]
  }

  /** For every validated plan: the broker takes its first order, the reply is lost, and the
      next poll has the same leg accepted once more. */
  lemma LostReplyIsPlacedAgain(plan: Plan)
    requires Validates(plan)
    ensures AcceptedTwice(Run(PlainConfig(), LostReplyRun(plan)), plan.planId)
  {
    hide Validates, Step, SubmitEntry, PlanEffect, FreshState, Trying, Taken, FirstLeg, FirstAtMarket, AcceptedTwice;
    var p, arm := plan.planId, [Arm(plan, true, true)];
    var first, second := Submit(p, Trying(plan, [], ReplyLost(1))), Submit(p, Trying(plan, [], Taken(plan)));
    ArmedFresh(plan);
    var w := Run(PlainConfig(), arm);
    FreshSubmits(w, plan, ReplyLost(1));
    LostLeavesFresh(plan, PlainConfig());
    PhaseMeans(w, PlainConfig(), first);
    var w1 := Step(w, PlainConfig(), first);
    FreshSubmits(w1, plan, Taken(plan));
    TakenPlaces(plan, PlainConfig());
    PhaseMeans(w1, PlainConfig(), second);
    assert w1.log + [] == w1.log;
    PlacedAgain(w1.log, [], PlanEffect(w1, PlainConfig(), p, second).ops, Placed(p, FirstLeg(plan)));
    TwiceInLog(Step(w1, PlainConfig(), second), p, FirstLeg(plan));
    RunTwoMore(arm, first, second);
  }

  /** Exactly which validated plans can have a leg accepted twice, the id of the risk leg being
      left to it: every one when a reply can be lost, and otherwise those that declare an id
      again after a leg of it that is not a market order. */
  lemma AcceptedTwiceExactly(plan: Plan, lossy: bool)
    requires Validates(plan) && RiskIdReserved(plan)
    ensures CanAcceptTwice(plan, lossy) <==> lossy || exists i, j :: ReusedAt(plan, i, j)
  {
    hide Validates, RiskIdReserved, AcceptedTwice, Run, RepliesKnown, ReusedAt;
    if lossy {
      LostReplyIsPlacedAgain(plan);
      LostRunIsOwn(plan);
    } else if i, j :| ReusedAt(plan, i, j) {
      ReusedMeansLadder(plan, i, j);
      ReusedIdIsAcceptedTwice(plan, i, j);
    } else if CanAcceptTwice(plan, false) {
      var config, events :| AcceptedTwice(Run(config, events), plan.planId) && ArmedAs(events, plan)
                            && RepliesKnown(events, plan.planId);
      KnownMeans(events, plan.planId);
      assert SafelyIdentified(plan);
      EachLegAcceptedAtMostOnce(config, events, plan.planId);
    }
  }

  lemma KnownMeans(events: seq<Event>, p: string)
    requires RepliesKnown(events, p)
    ensures forall k :: 0 <= k < |events| ==> KnownReplies(events[k], p)
  {}

  lemma LostRunIsOwn(plan: Plan)
    requires Validates(plan)
    ensures ArmedAs(LostReplyRun(plan), plan)
  {
    hide Validates, Trying, Taken;
  }

  lemma ReusedMeansLadder(plan: Plan, i: nat, j: nat)
    requires ReusedAt(plan, i, j)
    ensures IsLadder(plan)
  {}
}
