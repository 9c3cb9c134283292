/** The exception to "opposites never meet", exactly: after a run in which the broker reported
    what the fence had to know, one more ordinary event can make two autonomous plans face
    each other if and only if a plan stands against one that was not submitted yet, and no
    live plan that counts does. */
module FenceLoophole {
  import opened Common
  import opened TradePlanModel
  import opened OppositeExposureFence
  import opened RuntimeModel
  import opened RuntimeWorld
  import opened RuntimeSteps
  import opened OrdinaryRuns
  import opened ExposureSafety
  import opened FirstOrders
  import SubmissionSafety

  /** Some live plan that counts against the incoming one faces it. */
  ghost predicate LiveFaces(w: World, plan: Plan) {
    exists r :: Tracked(w, r) && CountsAgainstIncoming(w.states[r], Some(w.plans[r]), plan)
                && Exposes(w.states[r], plan.direction, plan.symbol)
  }

  /** Plan p, in recovery or with nothing but lost replies, stands against plan q, which the
      fence has yet to judge, and no live plan is held against q. */
  ghost predicate Loophole(w: World, symbol: string, p: string, q: string) {
    && Tracked(w, p) && Tracked(w, q)
    && !w.plans[q].manual && w.plans[q].symbol == symbol && AwaitsFence(w.states[q])
    && StandsAgainst(w, p, w.plans[q]) && Uncounted(w, p, w.plans[q])
    && !LiveFaces(w, w.plans[q])
  }

  /** The fence looks at every tracked plan, in whatever order the map yields them. */
  predicate SeesAll(w: World, e: Event) {
    e.Submit? ==> forall r :: r in w.states ==> r in e.submit.trackedOrder
  }

  /** One more ordinary event, whatever the broker reports in it, makes two opposites. */
  ghost predicate CanOppose(w: World, config: RuntimeConfig, symbol: string) {
    exists e :: OrdinaryEvent(e) && SeesAll(w, e) && !NoOpposites(Step(w, config, e), symbol)
  }

  // ----- only through the loophole ------------------------------------------------------------------

  /** A plan the fence sees is a tracked one that counts. */
  lemma SeenIsLive(w: World, plan: Plan, input: SubmitInput)
    requires Sound(w) && FacesPlan(w, plan, input)
    ensures LiveFaces(w, plan)
  {
    hide Exposes, CountsAgainstIncoming, WellFormed, MarketUntouched;
    var counted := CountedFor(w, plan, input);
    var i :| 0 <= i < |counted| && Exposes(counted[i], plan.direction, plan.symbol);
    assert counted[i] in counted;
    var r :| r in input.trackedOrder && r in w.states && counted[i] == w.states[r]
             && CountsAgainstIncoming(w.states[r], PlanOf(w.plans, r), plan);
    assert Tracked(w, r);
  }

  /** Seeing everything, the fence sees every live plan that faces the incoming one. */
  lemma LiveIsSeen(w: World, plan: Plan, input: SubmitInput)
    requires LiveFaces(w, plan) && forall r :: r in w.states ==> r in input.trackedOrder
    ensures FacesPlan(w, plan, input)
  {
    hide Exposes, CountsAgainstIncoming;
    var r :| Tracked(w, r) && CountsAgainstIncoming(w.states[r], Some(w.plans[r]), plan)
             && Exposes(w.states[r], plan.direction, plan.symbol);
    assert w.states[r] in CountedFor(w, plan, input);
  }

  /** What stands against a plan the fence cleared is a loophole. */
  lemma ClearedThrough(w: World, config: RuntimeConfig, e: Event, symbol: string, p: string)
    requires Sound(w) && OrdinaryWorld(w) && OrdinaryEvent(e) && SeesAll(w, e) && NeverOpposes(config, symbol)
    requires AsksFence(w, e, symbol) && p != e.planId && StandsAgainst(w, p, w.plans[e.planId])
    requires CheckOppositeExposure(w.plans, w.states, config.policies, w.plans[e.planId], e.submit) == Some(Clear)
    ensures Loophole(w, symbol, p, e.planId)
  {
    hide FacesPlan, FacesItem, CheckOppositeExposure, IncomingReference, LiveFaces, Sound, Priced,
      IntendedEntryPriceFrom, Uncounted, PlacedFor;
    var plan := w.plans[e.planId];
    SnapshotRead(w, config, plan, e.submit);
    OrdinaryReference(plan, e.submit);
    ClearExactly(w, config, plan, e.submit);
    SoundMeans(w, e.planId);
    if LiveFaces(w, plan) {
      LiveIsSeen(w, plan, e.submit);
    }
    if !Uncounted(w, p, plan) {
      CountedStandingFaces(w, plan, e.submit, p);
    }
  }

  lemma NoLoopholeNoOpposites(w: World, config: RuntimeConfig, e: Event, symbol: string)
    requires Sound(w) && OrdinaryWorld(w) && NoOpposites(w, symbol) && NeverOpposes(config, symbol) && LogClaimed(w)
    requires OrdinaryEvent(e) && SeesAll(w, e) && forall p, q :: !Loophole(w, symbol, p, q)
    ensures NoOpposites(Step(w, config, e), symbol)
  {
    hide Apply, PlanEffect, OrdinaryWorld, OrdinaryEvent, SeesAll, WellFormed, MarketUntouched, Loophole, StandsAgainst,
      ArmPlan, NoOpposites, NeverOpposes, BeginsToStand, SubmissionSafety.OpsOf, LogClaimed;
    match e
    case Arm(plan, sized, recorded) => ArmKeepsNoOpposites(w, plan, sized, recorded, symbol);
    case OrderGone(orderId) => GoneKeepsNoOpposites(w, orderId, symbol);
    case _ =>
      if Tracked(w, e.planId) {
        SoundMeans(w, e.planId);
        PlanEffectEvolves(w, config, e.planId, e);
        SubmissionSafety.EffectOpsOf(w, config, e.planId, e);
        EffectWithoutLoophole(w, config, e, symbol);
        ApplyKeepsNoOpposites(w, e.planId, PlanEffect(w, config, e.planId, e), symbol);
      }
  }

  lemma EffectWithoutLoophole(w: World, config: RuntimeConfig, e: Event, symbol: string)
    requires Sound(w) && OrdinaryWorld(w) && NeverOpposes(config, symbol) && !e.Arm? && !e.OrderGone?
    requires OrdinaryEvent(e) && SeesAll(w, e) && Tracked(w, e.planId)
    requires forall p, q :: !Loophole(w, symbol, p, q)
    ensures
      var eff := PlanEffect(w, config, e.planId, e);
      BeginsToStand(w, e.planId, eff) && !w.plans[e.planId].manual && w.states[e.planId].symbol == symbol ==>
        forall q :: q != e.planId ==> !StandsAgainst(w, q, w.plans[e.planId])
  {
    hide PlanEffect, WellFormed, MarketUntouched, OrdinaryWorld, OrdinaryEvent, SeesAll, StandsAgainst, BeginsToStand,
      Loophole, NeverOpposes, AwaitsFence;
    SoundMeans(w, e.planId);
    var plan, state := w.plans[e.planId], w.states[e.planId];
    if BeginsToStand(w, e.planId, PlanEffect(w, config, e.planId, e)) && !plan.manual && state.symbol == symbol {
      SubmittedBehindFence(w, config, e);
      forall q | q != e.planId
        ensures !StandsAgainst(w, q, plan)
      {
        if StandsAgainst(w, q, plan) {
          ClearedThrough(w, config, e, symbol, q);
        }
      }
    }
  }

  // ----- through the loophole -----------------------------------------------------------------------

  lemma {:induction false} AllNegative(prices: seq<real>)
    requires forall i :: 0 <= i < |prices| ==> prices[i] <= 0.0
    ensures SumReal(prices) <= 0.0
  {
    if prices != [] {
      AllNegative(prices[..|prices| - 1]);
    }
  }

  lemma NegativeQuotient(x: real, n: real)
    requires x <= 0.0 && n > 0.0
    ensures x / n <= 0.0
  {}

  /** A short with a positive planned entry has its stop above zero. */
  lemma QuoteIsPositive(plan: Plan)
    requires Validates(plan) && Positive(IntendedEntryPriceFrom(plan))
    ensures QuoteFor(plan) > 0.0
  {
    hide EntryPrices;
    var prices := EntryPrices(plan.entry);
    if plan.direction == Sell && plan.stopPrice <= 0.0 {
      AllNegative(prices);
      NegativeQuotient(SumReal(prices), |prices| as real);
    }
  }

  /** The submission that goes through: nothing is reported, everything is seen. */
  function Through(w: World, q: string, order: seq<string>): Event
    requires q in w.plans && Validates(w.plans[q])
  {
    Submit(q, Trying(w.plans[q], order, Taken(w.plans[q])))
  }

  lemma ThroughIsOrdinary(w: World, q: string, order: seq<string>)
    requires q in w.plans && Validates(w.plans[q]) && OrdinaryWorld(w)
    ensures OrdinaryEvent(Through(w, q, order))
  {
    hide Validates, FirstAtMarket, QuoteFor, IntendedEntryPriceFrom, Priced;
    QuoteIsPositive(w.plans[q]);
  }

  lemma ThroughIsClear(w: World, config: RuntimeConfig, q: string, order: seq<string>)
    requires OrdinaryWorld(w) && Tracked(w, q) && Validates(w.plans[q]) && !w.plans[q].manual
    requires NeverOpposes(config, w.plans[q].symbol) && !LiveFaces(w, w.plans[q]) && Sound(w)
    ensures CheckOppositeExposure(w.plans, w.states, config.policies, w.plans[q], Through(w, q, order).submit) == Some(Clear)
  {
    hide Validates, FirstAtMarket, QuoteFor, IntendedEntryPriceFrom, CheckOppositeExposure, IncomingReference,
      FacesPlan, LiveFaces, Sound, Priced;
    var plan, input := w.plans[q], Through(w, q, order).submit;
    QuoteIsPositive(plan);
    OrdinaryReference(plan, input);
    ClearExactly(w, config, plan, input);
    if FacesPlan(w, plan, input) {
      SeenIsLive(w, plan, input);
    }
  }

  /** Past a clear fence the plan is submitted. */
  lemma ThroughSubmits(w: World, config: RuntimeConfig, q: string, order: seq<string>)
    requires Tracked(w, q) && Validates(w.plans[q]) && AwaitsFence(w.states[q]) && !config.dryRun
    requires
      CheckOppositeExposure(w.plans, w.states, config.policies, w.plans[q], Through(w, q, order).submit) == Some(Clear)
    ensures PlanEffect(w, config, q, Through(w, q, order))
         == SubmitEntry(w.plans[q], w.states[q], config, Through(w, q, order).submit)
  {
    hide Validates, FirstAtMarket, QuoteFor, CheckOppositeExposure, SubmitEntry;
  }

  lemma ThroughTheLoophole(w: World, config: RuntimeConfig, symbol: string, p: string, q: string, order: seq<string>)
    requires Sound(w) && OrdinaryWorld(w) && Loophole(w, symbol, p, q) && Validates(w.plans[q])
    requires NeverOpposes(config, symbol) && !config.dryRun
    ensures !NoOpposites(Step(w, config, Through(w, q, order)), symbol)
  {
    hide Validates, Through, CheckOppositeExposure, SubmitEntry, PlanEffect, Step, OrdinaryWorld, NeverOpposes, LiveFaces,
      WellFormed, MarketUntouched, PlacedFor, Uncounted;
    var e := Through(w, q, order);
    ThroughIsClear(w, config, q, order);
    ThroughSubmits(w, config, q, order);
    SoundMeans(w, p);
    SoundMeans(w, q);
    ThroughTakes(w, q, order);
    TakenStands(w.plans[q], w.states[q], config, order);
    PlanEffectEvolves(w, config, q, e);
    PhaseMeans(w, config, e);
    var after := Step(w, config, e);
    assert after.states[p] == w.states[p];
    LongerLog(w.log, PlanEffect(w, config, q, e).ops, p);
    assert Standing(after, q) && Standing(after, p);
  }

  lemma LongerLog(log: seq<BrokerOp>, more: seq<BrokerOp>, p: string)
    ensures PlacedFor(log, p) ==> PlacedFor(log + more, p)
  {
    if i :| 0 <= i < |log| && log[i].Placed? && log[i].planId == p {
      assert (log + more)[i] == log[i];
    }
  }

  lemma ThroughTakes(w: World, q: string, order: seq<string>)
    requires q in w.plans && Validates(w.plans[q])
    ensures Through(w, q, order) == Submit(q, Trying(w.plans[q], order, Taken(w.plans[q])))
  {
    hide Validates, Trying, Taken;
  }

  /** A map yields its keys in some order. */
  lemma {:induction false} InSomeOrder(keys: set<string>) returns (order: seq<string>)
    ensures forall k :: k in keys ==> k in order
  {
    if keys == {} {
      order := [];
    } else {
      var k :| k in keys;
      var rest := InSomeOrder(keys - {k});
      order := rest + [k];
    }
  }

  // ----- exactly ------------------------------------------------------------------------------------

  predicate AllValidated(w: World) { forall p :: p in w.plans ==> Validates(w.plans[p]) }

  lemma {:induction false} TrackedPlansValidate(config: RuntimeConfig, events: seq<Event>)
    ensures AllValidated(Run(config, events))
  {
    hide PlanEffect, Validates, HasBlockingSameDirectionLivePlan, RestingAfter;
    if events != [] {
      TrackedPlansValidate(config, events[..|events| - 1]);
    }
  }

  /** Exactly when the exception can happen. After a watchful run, one more ordinary event makes
      two autonomous plans face each other on an instrument that never lets plans oppose if
      and only if some plan stands against one the fence has yet to judge while no live plan
      that counts faces that one. */
  lemma OppositesMeetExactly(config: RuntimeConfig, events: seq<Event>, symbol: string)
    requires NeverOpposes(config, symbol) && !config.dryRun && WatchfulRun(config, events, symbol)
    ensures
      var w := Run(config, events);
      CanOppose(w, config, symbol) <==> exists p, q :: Loophole(w, symbol, p, q)
  {
    hide Run, Step, OrdinaryEvent, SeesAll, Loophole, NoOpposites, NeverOpposes, OrdinaryWorld, Sound, WatchfulRun,
      Validates, LogClaimed;
    var w := Run(config, events);
    RunIsSound(config, events);
    OppositesNeverMeet(config, events, symbol);
    TrackedPlansValidate(config, events);
    LogIsClaimed(config, events);
    if p, q :| Loophole(w, symbol, p, q) {
      LoopholeMeans(w, symbol, p, q);
      var order := InSomeOrder(w.states.Keys);
      ThroughTheLoophole(w, config, symbol, p, q, order);
      ThroughIsOrdinary(w, q, order);
      ThroughSees(w, q, order);
    } else if CanOppose(w, config, symbol) {
      var e :| OrdinaryEvent(e) && SeesAll(w, e) && !NoOpposites(Step(w, config, e), symbol);
      NoLoopholeNoOpposites(w, config, e, symbol);
    }
  }

  lemma LoopholeMeans(w: World, symbol: string, p: string, q: string)
    requires Loophole(w, symbol, p, q)
    ensures Tracked(w, p) && Tracked(w, q)
  {}

  lemma ThroughSees(w: World, q: string, order: seq<string>)
    requires q in w.plans && Validates(w.plans[q]) && forall k :: k in w.states.Keys ==> k in order
    ensures SeesAll(w, Through(w, q, order))
  {
    hide Validates, FirstAtMarket, QuoteFor;
  }
}
