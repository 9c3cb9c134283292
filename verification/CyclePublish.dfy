/** Any number of workers racing to publish one closed-bar cycle: a lock with ownership
    tokens, an owner record, and a ranked list walked under the lock. */
module CyclePublish {
  import opened Common

  /** What the publisher says about one intent. Only a terminal rejection exposes the next. */
  datatype Answer = Published | TerminalReject | Blocked

  /** Where a worker stands in the protocol; `next` counts ranked intents. */
  datatype Phase =
    | Idle | Locking | Rechecking | Ranking(next: nat) | Announcing(published: nat) | Releasing | Done

  datatype Worker = Worker(phase: Phase, token: Option<nat>)

  /** The shared keys, the workers, and the history of the cycle. `lock` holds the token of
      the instance that owns it. */
  datatype World = World(
    owner: Option<nat>, lock: Option<nat>, nextToken: nat, workers: seq<Worker>,
    published: seq<(nat, nat)>, rejected: set<(nat, nat)>)

  datatype Event =
    | ReadOwner(w: nat) | Acquire(w: nat) | Recheck(w: nat) | Try(w: nat, answer: Answer)
    | Announce(w: nat, written: bool)      // the owner record, unless its write fails
    | Fail(w: nat)                         // the publisher or a read throws
    | Release(w: nat) | ReleaseUnavailable(w: nat)
    | Expire                               // the lock's time to live runs out

  function Start(workers: nat): World {
    World(None, None, 0, seq(workers, _ => Worker(Idle, None)), [], {})
  }

  predicate Critical(phase: Phase) { phase.Rechecking? || phase.Ranking? || phase.Announcing? }
  predicate HasToken(phase: Phase) { Critical(phase) || phase.Releasing? }

  function To(s: World, w: nat, phase: Phase): World
    requires w < |s.workers|
  {
    s.(workers := s.workers[w := s.workers[w].(phase := phase)])
  }

  /** One step over `intents` ranked intents; an event that does not fit its worker's phase
      does nothing. */
  function Step(s: World, intents: nat, e: Event): World {
    if e.Expire? then s.(lock := None)
    else if e.w >= |s.workers| then s
    else
      var me := s.workers[e.w];
      match e
      case ReadOwner(w) =>
        if me.phase != Idle then s else To(s, w, if s.owner.Some? then Done else Locking)
      case Acquire(w) =>
        if me.phase != Locking then s
        else if s.lock.Some? then To(s, w, Done)
        else s.(lock := Some(s.nextToken), nextToken := s.nextToken + 1,
                workers := s.workers[w := Worker(Rechecking, Some(s.nextToken))])
      case Recheck(w) =>
        if me.phase != Rechecking then s else To(s, w, if s.owner.Some? then Releasing else Ranking(0))
      case Try(w, answer) =>
        if !me.phase.Ranking? then s
        else
          var k := me.phase.next;
          if k >= intents || answer == Blocked then To(s, w, Releasing)
          else if answer == TerminalReject then To(s.(rejected := s.rejected + {(w, k)}), w, Ranking(k + 1))
          else To(s.(published := s.published + [(w, k)]), w, Announcing(k))
      case Announce(w, written) =>
        if !me.phase.Announcing? then s
        else To(if written && s.owner.None? then s.(owner := Some(me.phase.published)) else s, w, Releasing)
      case Fail(w) => if Critical(me.phase) then To(s, w, Releasing) else s
      case Release(w) =>
        if me.phase != Releasing then s
        else To(if s.lock == me.token then s.(lock := None) else s, w, Done)
      case ReleaseUnavailable(w) => if me.phase != Releasing then s else To(s, w, Done)
  }

  function Run(workers: nat, intents: nat, events: seq<Event>): World {
    if events == [] then Start(workers)
    else Step(Run(workers, intents, events[..|events| - 1]), intents, events[|events| - 1])
  }

  // ----- tokens ---------------------------------------------------------------------------------

  /** Every worker past acquisition holds its own token, each handed out once. */
  predicate TokensUnique(s: World) {
    && (forall i :: 0 <= i < |s.workers| && HasToken(s.workers[i].phase) ==> s.workers[i].token.Some?)
    && (forall i :: 0 <= i < |s.workers| && s.workers[i].token.Some? ==> s.workers[i].token.value < s.nextToken)
    && (forall i, j :: 0 <= i < j < |s.workers| && s.workers[i].token.Some? ==>
          s.workers[i].token != s.workers[j].token)
    && (s.lock.Some? ==> s.lock.value < s.nextToken)
  }

  lemma MoveKeepsTokens(s: World, w: nat, phase: Phase)
    requires TokensUnique(s) && w < |s.workers| && (HasToken(phase) ==> HasToken(s.workers[w].phase))
    ensures TokensUnique(To(s, w, phase))
  {}

  lemma AcquireKeepsTokens(s: World, intents: nat, w: nat)
    requires TokensUnique(s)
    ensures TokensUnique(Step(s, intents, Acquire(w)))
  {
    if w < |s.workers| {
      MoveKeepsTokens(s, w, Done);
    }
  }

  lemma StepKeepsTokens(s: World, intents: nat, e: Event)
    requires TokensUnique(s)
    ensures TokensUnique(Step(s, intents, e)) && |Step(s, intents, e).workers| == |s.workers|
  {
    hide TokensUnique;
    if e.Acquire? {
      AcquireKeepsTokens(s, intents, e.w);
    } else {
      SameTokens(s, Step(s, intents, e).(workers := s.workers));
      if !e.Expire? && e.w < |s.workers| && Step(s, intents, e) != s {
        var t := Step(s, intents, e);
        MoveKeepsTokens(t.(workers := s.workers), e.w, t.workers[e.w].phase);
      }
    }
  }

  /** Nothing but the workers' phases and tokens and a lock that may have gone matters. */
  lemma SameTokens(s: World, t: World)
    requires TokensUnique(s) && t.workers == s.workers && t.nextToken == s.nextToken
    requires t.lock == s.lock || t.lock.None?
    ensures TokensUnique(t)
  {}

  lemma {:induction false} RunKeepsTokens(workers: nat, intents: nat, events: seq<Event>)
    ensures TokensUnique(Run(workers, intents, events)) && |Run(workers, intents, events).workers| == workers
  {
    hide Step;
    if events != [] {
      RunKeepsTokens(workers, intents, events[..|events| - 1]);
      StepKeepsTokens(Run(workers, intents, events[..|events| - 1]), intents, events[|events| - 1]);
    }
  }

  /** With the lock expiring at any moment, a release never removes a lock that another
      worker has acquired since: it only ever removes its own. */
  lemma ReleaseOnlyOwnLock(workers: nat, intents: nat, events: seq<Event>, w: nat, other: nat)
    requires
      var s := Run(workers, intents, events);
      && w < |s.workers| && other < |s.workers| && w != other
      && s.workers[other].token.Some? && s.lock == s.workers[other].token
    ensures Step(Run(workers, intents, events), intents, Release(w)).lock == Run(workers, intents, events).lock
  {
    hide Run;
    RunKeepsTokens(workers, intents, events);
  }

  // ----- at most one plan ---------------------------------------------------------------------------

  /** The worker has published a plan it has not recorded yet, or may still publish one. */
  predicate AtStake(s: World, intents: nat, phase: Phase) {
    || phase.Announcing?
    || (s.owner.None? && ((phase.Rechecking? && intents > 0) || (phase.Ranking? && phase.next < intents)))
  }

  /** The lock outlives every critical section in which something is at stake, and a
      published plan gets its owner record. */
  predicate Reliable(s: World, intents: nat, e: Event) {
    match e
    case Expire =>
      forall i :: 0 <= i < |s.workers| && AtStake(s, intents, s.workers[i].phase) ==> s.lock != s.workers[i].token
    case Announce(w, written) => w < |s.workers| && s.workers[w].phase.Announcing? ==> written
    case Fail(w) => w < |s.workers| ==> !s.workers[w].phase.Announcing?
    case _ => true
  }

  predicate ReliableRun(workers: nat, intents: nat, events: seq<Event>) {
    events != [] ==>
      var earlier := events[..|events| - 1];
      ReliableRun(workers, intents, earlier) && Reliable(Run(workers, intents, earlier), intents, events[|events| - 1])
  }

  predicate AllRejected(s: World, w: nat, k: nat) { forall j :: 0 <= j < k ==> (w, j) in s.rejected }

  predicate OnePlan(s: World, intents: nat) {
    && (forall i :: 0 <= i < |s.workers| && AtStake(s, intents, s.workers[i].phase) ==>
          s.workers[i].token.Some? && s.lock == s.workers[i].token)
    && (forall i :: 0 <= i < |s.workers| && s.workers[i].phase.Ranking? && s.workers[i].phase.next < intents ==>
          s.owner.None? && s.published == [] && AllRejected(s, i, s.workers[i].phase.next))
    && (forall i :: 0 <= i < |s.workers| && s.workers[i].phase.Announcing? ==>
          s.owner.None? && s.workers[i].phase.published < intents && s.published == [(i, s.workers[i].phase.published)])
    && |s.published| <= 1
    && (s.published != [] && s.owner.None? ==>
          exists i :: 0 <= i < |s.workers| && s.workers[i].phase.Announcing?)
    && (forall p :: 0 <= p < |s.published| ==> AllRejected(s, s.published[p].0, s.published[p].1))
  }

  /** No two workers have something at stake at once. */
  lemma StakeAlone(s: World, intents: nat, i: nat, j: nat)
    requires TokensUnique(s) && OnePlan(s, intents) && i < |s.workers| && j < |s.workers|
    requires AtStake(s, intents, s.workers[i].phase) && AtStake(s, intents, s.workers[j].phase)
    ensures i == j
  {}

  lemma OthersNothingAtStake(s: World, intents: nat, w: nat)
    requires TokensUnique(s) && OnePlan(s, intents) && w < |s.workers| && AtStake(s, intents, s.workers[w].phase)
    ensures forall i :: 0 <= i < |s.workers| && i != w ==> !AtStake(s, intents, s.workers[i].phase)
  {
    hide TokensUnique, OnePlan, AtStake;
    forall i | 0 <= i < |s.workers| && i != w
      ensures !AtStake(s, intents, s.workers[i].phase)
    {
      if AtStake(s, intents, s.workers[i].phase) {
        StakeAlone(s, intents, i, w);
      }
    }
  }

  lemma RejectKeeps(s: World, intents: nat, w: nat)
    requires OnePlan(s, intents) && w < |s.workers| && s.workers[w].phase.Ranking? && s.workers[w].phase.next < intents
    ensures
      var k := s.workers[w].phase.next;
      OnePlan(To(s.(rejected := s.rejected + {(w, k)}), w, Ranking(k + 1)), intents)
  {}

  lemma PublishKeeps(s: World, intents: nat, w: nat)
    requires OnePlan(s, intents) && w < |s.workers| && s.workers[w].phase.Ranking? && s.workers[w].phase.next < intents
    requires forall i :: 0 <= i < |s.workers| && i != w ==> !AtStake(s, intents, s.workers[i].phase)
    ensures
      var k := s.workers[w].phase.next;
      OnePlan(To(s.(published := s.published + [(w, k)]), w, Announcing(k)), intents)
  {
    var k := s.workers[w].phase.next;
    var t := To(s.(published := s.published + [(w, k)]), w, Announcing(k));
    assert t.published == [(w, k)] && t.workers[w].phase.Announcing?;
  }

  lemma TryKeeps(s: World, intents: nat, w: nat, answer: Answer)
    requires TokensUnique(s) && OnePlan(s, intents)
    ensures OnePlan(Step(s, intents, Try(w, answer)), intents)
  {
    hide TokensUnique, OnePlan;
    if w < |s.workers| && s.workers[w].phase.Ranking? {
      MoveKeeps(s, intents, w, Releasing);
      if s.workers[w].phase.next < intents {
        RankingAtStake(s, intents, w);
        OthersNothingAtStake(s, intents, w);
        RejectKeeps(s, intents, w);
        PublishKeeps(s, intents, w);
      }
    }
  }

  lemma RankingAtStake(s: World, intents: nat, w: nat)
    requires OnePlan(s, intents) && w < |s.workers| && s.workers[w].phase.Ranking? && s.workers[w].phase.next < intents
    ensures AtStake(s, intents, s.workers[w].phase)
  {}

  lemma AnnounceKeeps(s: World, intents: nat, w: nat)
    requires TokensUnique(s) && OnePlan(s, intents)
    ensures OnePlan(Step(s, intents, Announce(w, true)), intents)
  {
    hide TokensUnique;
    if w < |s.workers| && s.workers[w].phase.Announcing? {
      OthersNothingAtStake(s, intents, w);
    }
  }

  /** Moving a worker on, outside the steps that publish, announce or acquire. */
  lemma MoveKeeps(s: World, intents: nat, w: nat, phase: Phase)
    requires OnePlan(s, intents) && w < |s.workers| && !s.workers[w].phase.Announcing? && !phase.Announcing?
    requires AtStake(s, intents, phase) ==> AtStake(s, intents, s.workers[w].phase)
    requires phase.Ranking? && phase.next < intents ==> phase.next == 0 && s.owner.None? && s.published == []
    ensures OnePlan(To(s, w, phase), intents)
  {
    var t := To(s, w, phase);
    if s.published != [] && s.owner.None? {
      var i :| 0 <= i < |s.workers| && s.workers[i].phase.Announcing?;
      assert t.workers[i].phase.Announcing?;
    }
  }

  lemma AcquireKeeps(s: World, intents: nat, w: nat)
    requires OnePlan(s, intents)
    ensures OnePlan(Step(s, intents, Acquire(w)), intents)
  {
    if w < |s.workers| && s.workers[w].phase == Locking {
      if s.lock.Some? {
        MoveKeeps(s, intents, w, Done);
      } else {
        NothingAtStake(s, intents);
        var t := Step(s, intents, Acquire(w));
      }
    }
  }

  lemma NothingAtStake(s: World, intents: nat)
    requires OnePlan(s, intents) && s.lock.None?
    ensures forall i :: 0 <= i < |s.workers| ==> !AtStake(s, intents, s.workers[i].phase)
  {}

  lemma RecheckKeeps(s: World, intents: nat, w: nat)
    requires TokensUnique(s) && OnePlan(s, intents)
    ensures OnePlan(Step(s, intents, Recheck(w)), intents)
  {
    hide TokensUnique;
    if w < |s.workers| && s.workers[w].phase == Rechecking {
      if s.owner.None? && intents > 0 {
        OthersNothingAtStake(s, intents, w);
      }
      MoveKeeps(s, intents, w, if s.owner.Some? then Releasing else Ranking(0));
    }
  }

  lemma ReleaseKeeps(s: World, intents: nat, w: nat)
    requires TokensUnique(s) && OnePlan(s, intents)
    ensures OnePlan(Step(s, intents, Release(w)), intents)
  {
    if w < |s.workers| && s.workers[w].phase == Releasing {
      MoveKeeps(s, intents, w, Done);
      UnlockKeeps(To(s, w, Done), intents, s.workers[w].token);
    }
  }

  /** Removing a lock that guards nothing at stake. */
  lemma UnlockKeeps(s: World, intents: nat, token: Option<nat>)
    requires OnePlan(s, intents)
    requires forall i :: 0 <= i < |s.workers| && AtStake(s, intents, s.workers[i].phase) ==> s.workers[i].token != token
    ensures OnePlan(if s.lock == token then s.(lock := None) else s, intents)
  {}

  lemma StepKeepsOnePlan(s: World, intents: nat, e: Event)
    requires TokensUnique(s) && OnePlan(s, intents) && Reliable(s, intents, e)
    ensures OnePlan(Step(s, intents, e), intents)
  {
    hide OnePlan, TokensUnique;
    match e
    case Try(w, answer) => TryKeeps(s, intents, w, answer);
    case Announce(w, written) =>
      if written {
        AnnounceKeeps(s, intents, w);
      } else {
        UnfitAnnounce(s, intents, w);
      }
    case Acquire(w) => AcquireKeeps(s, intents, w);
    case Recheck(w) => RecheckKeeps(s, intents, w);
    case Release(w) => ReleaseKeeps(s, intents, w);
    case Expire => UnlockKeeps(s, intents, s.lock);
    case ReadOwner(w) =>
      if w < |s.workers| && s.workers[w].phase == Idle {
        MoveKeeps(s, intents, w, if s.owner.Some? then Done else Locking);
      }
    case Fail(w) =>
      if w < |s.workers| && Critical(s.workers[w].phase) {
        MoveKeeps(s, intents, w, Releasing);
      }
    case ReleaseUnavailable(w) =>
      if w < |s.workers| && s.workers[w].phase == Releasing {
        MoveKeeps(s, intents, w, Done);
      }
  }

  lemma UnfitAnnounce(s: World, intents: nat, w: nat)
    requires Reliable(s, intents, Announce(w, false))
    ensures Step(s, intents, Announce(w, false)) == s
  {}

  /** The theorem: however many workers race, as long as the lock outlives every critical
      section with something at stake and a published plan gets its owner record, at most
      one plan is published in the cycle, and its worker had every better-ranked intent
      terminally rejected. */
  lemma {:induction false} AtMostOnePlan(workers: nat, intents: nat, events: seq<Event>)
    requires ReliableRun(workers, intents, events)
    ensures
      var s := Run(workers, intents, events);
      && OnePlan(s, intents) && |s.published| <= 1
      && (s.published != [] ==>
            forall j :: 0 <= j < s.published[0].1 ==> (s.published[0].0, j) in s.rejected)
  {
    hide Step, Reliable, TokensUnique;
    if events != [] {
      var earlier := events[..|events| - 1];
      AtMostOnePlan(workers, intents, earlier);
      RunKeepsTokens(workers, intents, earlier);
      StepKeepsOnePlan(Run(workers, intents, earlier), intents, events[|events| - 1]);
    }
  }

  // ----- neither condition can be dropped ------------------------------------------------------------

  function RunFrom(s: World, intents: nat, events: seq<Event>): World
    decreases |events|
  {
    if events == [] then s else RunFrom(Step(s, intents, events[0]), intents, events[1..])
  }

  lemma {:induction false} RunContinues(workers: nat, intents: nat, events: seq<Event>, more: seq<Event>)
    ensures Run(workers, intents, events + more) == RunFrom(Run(workers, intents, events), intents, more)
    decreases |more|
  {
    hide Step;
    if more == [] {
      assert events + more == events;
    } else {
      var head := events + [more[0]];
      RunContinues(workers, intents, head, more[1..]);
      assert events + more == head + more[1..];
      assert head[..|head| - 1] == events;
    }
  }

  /** The worker has not touched the lock yet. */
  predicate Fresh(phase: Phase) { phase == Idle || phase == Locking }

  /** Three steps of a fresh worker that finds no owner and no lock, up to its ranking. */
  function Enter(s: World, intents: nat, v: nat): World {
    RunFrom(s, intents, [ReadOwner(v), Acquire(v), Recheck(v)])
  }

  lemma FreshEnters(s: World, intents: nat, v: nat)
    requires v < |s.workers| && Fresh(s.workers[v].phase) && s.owner.None? && s.lock.None?
    ensures
      var t := Enter(s, intents, v);
      && t.owner.None? && t.published == s.published && |t.workers| == |s.workers|
      && t.workers[v].phase == Ranking(0)
      && forall i :: 0 <= i < |s.workers| && i != v ==> t.workers[i] == s.workers[i]
  {
    var a := Step(s, intents, ReadOwner(v));
    var b := Step(a, intents, Acquire(v));
    RunThree(s, intents, ReadOwner(v), Acquire(v), Recheck(v));
    assert Enter(s, intents, v) == Step(b, intents, Recheck(v));
  }

  lemma RunThree(s: World, intents: nat, a: Event, b: Event, c: Event)
    ensures RunFrom(s, intents, [a, b, c]) == Step(Step(Step(s, intents, a), intents, b), intents, c)
  {
    hide Step;
    assert [a, b, c][1..] == [b, c] && [b, c][1..] == [c] && [c][1..] == [];
    assert RunFrom(s, intents, [a, b, c]) == RunFrom(Step(s, intents, a), intents, [b, c]);
    assert RunFrom(Step(s, intents, a), intents, [b, c])
        == RunFrom(Step(Step(s, intents, a), intents, b), intents, [c]);
  }

  lemma {:induction false} RunFromConcat(s: World, intents: nat, a: seq<Event>, b: seq<Event>)
    ensures RunFrom(s, intents, a + b) == RunFrom(RunFrom(s, intents, a), intents, b)
    decreases |a|
  {
    hide Step;
    if a == [] {
      assert a + b == b;
    } else {
      assert (a + b)[1..] == a[1..] + b;
      RunFromConcat(Step(s, intents, a[0]), intents, a[1..], b);
    }
  }

  /** A plan published but not recorded, the lock gone: a fresh worker publishes again. */
  lemma PublishesAgain(s: World, intents: nat, v: nat)
    requires v < |s.workers| && Fresh(s.workers[v].phase) && s.owner.None? && s.lock.None?
    requires intents > 0 && |s.published| == 1
    ensures |RunFrom(s, intents, [ReadOwner(v), Acquire(v), Recheck(v)] + [Try(v, Published)]).published| == 2
  {
    hide Enter;
    FreshEnters(s, intents, v);
    RunFromConcat(s, intents, [ReadOwner(v), Acquire(v), Recheck(v)], [Try(v, Published)]);
    EnterMeans(s, intents, v);
    RunOne(Enter(s, intents, v), intents, Try(v, Published));
  }

  lemma EnterMeans(s: World, intents: nat, v: nat)
    ensures Enter(s, intents, v) == RunFrom(s, intents, [ReadOwner(v), Acquire(v), Recheck(v)])
  {}

  lemma RunOne(s: World, intents: nat, e: Event)
    ensures RunFrom(s, intents, [e]) == Step(s, intents, e)
  {
    hide Step;
    assert [e][1..] == [];
  }

  /** The lock gone under a worker that has not published yet: it and a fresh one both do. */
  lemma BothPublish(s: World, intents: nat, w: nat, v: nat)
    requires v < |s.workers| && w < |s.workers| && v != w && Fresh(s.workers[v].phase)
    requires s.owner.None? && s.lock.None? && intents > 0
    requires s.workers[w].phase.Rechecking? || (s.workers[w].phase.Ranking? && s.workers[w].phase.next < intents)
    ensures
      |RunFrom(s, intents, [ReadOwner(v), Acquire(v), Recheck(v)] + [Recheck(w), Try(v, Published), Try(w, Published)])
        .published| == |s.published| + 2
  {
    hide Enter;
    FreshEnters(s, intents, v);
    EnterMeans(s, intents, v);
    RunFromConcat(s, intents, [ReadOwner(v), Acquire(v), Recheck(v)],
      [Recheck(w), Try(v, Published), Try(w, Published)]);
    RunThree(Enter(s, intents, v), intents, Recheck(w), Try(v, Published), Try(w, Published));
  }

  /** Some continuation publishes a second plan. */
  ghost predicate CanPublishTwice(workers: nat, intents: nat, events: seq<Event>) {
    exists more :: |Run(workers, intents, events + more).published| >= 2
  }

  lemma Continuation(workers: nat, intents: nat, events: seq<Event>, more: seq<Event>)
    requires |RunFrom(Run(workers, intents, events), intents, more).published| >= 2
    ensures CanPublishTwice(workers, intents, events)
  {
    hide Run, RunFrom;
    RunContinues(workers, intents, events, more);
  }

  /** A worker with something at stake and no lock beside a fresh one. */
  lemma StakeWithoutLock(workers: nat, intents: nat, events: seq<Event>, w: nat, v: nat)
    requires
      var s := Run(workers, intents, events);
      && w < |s.workers| && v < |s.workers| && Fresh(s.workers[v].phase) && s.owner.None? && s.lock.None?
      && AtStake(s, intents, s.workers[w].phase)
      && (s.workers[w].phase.Announcing? ==> intents > 0 && |s.published| == 1)
    ensures CanPublishTwice(workers, intents, events)
  {
    hide Run, Enter, CanPublishTwice, RunFrom;
    var s := Run(workers, intents, events);
    if s.workers[w].phase.Announcing? {
      PublishesAgain(s, intents, v);
      Continuation(workers, intents, events, [ReadOwner(v), Acquire(v), Recheck(v)] + [Try(v, Published)]);
    } else {
      BothPublish(s, intents, w, v);
      Continuation(workers, intents, events,
        [ReadOwner(v), Acquire(v), Recheck(v)] + [Recheck(w), Try(v, Published), Try(w, Published)]);
    }
  }

  /** The announcement lost: once the lock is released, a fresh worker publishes again. */
  lemma LostAnnouncement(workers: nat, intents: nat, events: seq<Event>, w: nat, v: nat)
    requires
      var s := Run(workers, intents, events);
      && w < |s.workers| && v < |s.workers| && Fresh(s.workers[v].phase) && s.owner.None?
      && s.workers[w].phase == Releasing && s.lock == s.workers[w].token
      && intents > 0 && |s.published| == 1
    ensures CanPublishTwice(workers, intents, events)
  {
    hide Run, CanPublishTwice, RunFrom;
    var s := Run(workers, intents, events);
    var t := Step(s, intents, Release(w));
    RunOne(s, intents, Release(w));
    PublishesAgain(t, intents, v);
    RunFromConcat(s, intents, [Release(w)], [ReadOwner(v), Acquire(v), Recheck(v)] + [Try(v, Published)]);
    Continuation(workers, intents, events,
      [Release(w)] + ([ReadOwner(v), Acquire(v), Recheck(v)] + [Try(v, Published)]));
  }

  lemma RunSnoc(workers: nat, intents: nat, events: seq<Event>, e: Event)
    ensures Run(workers, intents, events + [e]) == Step(Run(workers, intents, events), intents, e)
  {
    hide Step;
    assert (events + [e])[..|events|] == events;
  }

  lemma UnreliableThenTwice(workers: nat, intents: nat, events: seq<Event>, e: Event, v: nat)
    requires ReliableRun(workers, intents, events) && !Reliable(Run(workers, intents, events), intents, e)
    requires v < |Run(workers, intents, events).workers| && Fresh(Run(workers, intents, events).workers[v].phase)
    ensures CanPublishTwice(workers, intents, events + [e])
  {
    hide Run, CanPublishTwice, RunFrom, TokensUnique;
    var s := Run(workers, intents, events);
    AtMostOnePlan(workers, intents, events);
    RunSnoc(workers, intents, events, e);
    if e.Expire? {
      var w :| 0 <= w < |s.workers| && AtStake(s, intents, s.workers[w].phase) && s.lock == s.workers[w].token;
      StakeWithoutLock(workers, intents, events + [e], w, v);
    } else {
      assert AtStake(s, intents, s.workers[e.w].phase);
      LostAnnouncement(workers, intents, events + [e], e.w, v);
    }
  }

  // Without a fresh worker nothing more can happen.

  /** Workers that may still publish. */
  predicate MayPublish(intents: nat, phase: Phase) {
    Fresh(phase) || phase.Rechecking? || (phase.Ranking? && phase.next < intents)
  }

  function Hopeful(s: World, intents: nat): set<nat> {
    set i: nat | i < |s.workers| && MayPublish(intents, s.workers[i].phase)
  }

  lemma StepSpendsHope(s: World, intents: nat, e: Event)
    ensures
      var t := Step(s, intents, e);
      |t.published| + |Hopeful(t, intents)| <= |s.published| + |Hopeful(s, intents)|
  {
    hide Step, Hopeful;
    var t := Step(s, intents, e);
    HopeShrinks(s, intents, e);
    if |t.published| > |s.published| {
      Smaller(Hopeful(t, intents), Hopeful(s, intents) - {e.w});
    } else {
      Smaller(Hopeful(t, intents), Hopeful(s, intents));
    }
  }

  lemma HopeShrinks(s: World, intents: nat, e: Event)
    ensures
      var t := Step(s, intents, e);
      && Hopeful(t, intents) <= Hopeful(s, intents) && |t.published| <= |s.published| + 1
      && (|t.published| > |s.published| ==>
            !e.Expire? && e.w in Hopeful(s, intents) && Hopeful(t, intents) <= Hopeful(s, intents) - {e.w})
  {
    forall i: nat
      ensures i in Hopeful(Step(s, intents, e), intents) ==> i in Hopeful(s, intents)
    {
      PhaseMoves(s, intents, e, i);
    }
  }

  /** Nobody regains the chance to publish. */
  lemma PhaseMoves(s: World, intents: nat, e: Event, i: nat)
    ensures
      var t := Step(s, intents, e);
      && |t.workers| == |s.workers|
      && (i < |s.workers| && MayPublish(intents, t.workers[i].phase) ==> MayPublish(intents, s.workers[i].phase))
  {}

  lemma {:induction false} Smaller(a: set<nat>, b: set<nat>)
    requires a <= b
    ensures |a| <= |b|
  {
    if a != {} {
      var x :| x in a;
      Smaller(a - {x}, b - {x});
    }
  }

  lemma {:induction false} RunSpendsHope(s: World, intents: nat, more: seq<Event>)
    ensures |RunFrom(s, intents, more).published| <= |s.published| + |Hopeful(s, intents)|
    decreases |more|
  {
    hide Step, Hopeful;
    if more != [] {
      RunSpendsHope(Step(s, intents, more[0]), intents, more[1..]);
      StepSpendsHope(s, intents, more[0]);
    }
  }

  /** With something at stake and no fresh worker, one plan is all that can come of it. */
  lemma OneHope(s: World, intents: nat, w: nat)
    requires TokensUnique(s) && OnePlan(s, intents) && w < |s.workers| && AtStake(s, intents, s.workers[w].phase)
    requires forall i :: 0 <= i < |s.workers| ==> !Fresh(s.workers[i].phase)
    ensures |s.published| + |Hopeful(s, intents)| <= 1
  {
    hide TokensUnique;
    OthersNothingAtStake(s, intents, w);
    if s.workers[w].phase.Announcing? {
      assert Hopeful(s, intents) == {};
    } else {
      Smaller(Hopeful(s, intents), {w});
    }
  }

  lemma NoFreshWorkerNoSecondPlan(workers: nat, intents: nat, events: seq<Event>, e: Event)
    requires ReliableRun(workers, intents, events) && !Reliable(Run(workers, intents, events), intents, e)
    requires
      var s := Run(workers, intents, events);
      forall i :: 0 <= i < |s.workers| ==> !Fresh(s.workers[i].phase)
    ensures !CanPublishTwice(workers, intents, events + [e])
  {
    hide Run, RunFrom, TokensUnique, Hopeful, OnePlan;
    var s := Run(workers, intents, events);
    AtMostOnePlan(workers, intents, events);
    RunKeepsTokens(workers, intents, events);
    RunSnoc(workers, intents, events, e);
    var w := if e.Expire? then StakeHolder(s, intents) else e.w;
    OneHope(s, intents, w);
    StepSpendsHope(s, intents, e);
    forall more
      ensures |Run(workers, intents, events + [e] + more).published| <= 1
    {
      RunContinues(workers, intents, events + [e], more);
      RunSpendsHope(Step(s, intents, e), intents, more);
    }
  }

  ghost function StakeHolder(s: World, intents: nat): (w: nat)
    requires !Reliable(s, intents, Expire)
    ensures w < |s.workers| && AtStake(s, intents, s.workers[w].phase) && s.lock == s.workers[w].token
  {
    var w :| 0 <= w < |s.workers| && AtStake(s, intents, s.workers[w].phase) && s.lock == s.workers[w].token;
    w
  }

  /** Exactly why both conditions are needed. After a reliable run, one unreliable event (the
      lock expiring under something at stake, or a published plan left without its owner
      record) makes a second publication possible exactly when some worker has not tried
      the lock yet. */
  lemma SecondPlanExactly(workers: nat, intents: nat, events: seq<Event>, e: Event)
    requires ReliableRun(workers, intents, events) && !Reliable(Run(workers, intents, events), intents, e)
    ensures
      var s := Run(workers, intents, events);
      CanPublishTwice(workers, intents, events + [e]) <==>
        exists v :: 0 <= v < |s.workers| && Fresh(s.workers[v].phase)
  {
    hide Run, CanPublishTwice, Reliable;
    var s := Run(workers, intents, events);
    if v :| 0 <= v < |s.workers| && Fresh(s.workers[v].phase) {
      UnreliableThenTwice(workers, intents, events, e, v);
    } else {
      NoFreshWorkerNoSecondPlan(workers, intents, events, e);
    }
  }

  /** Two workers, one intent, three ways to publish it twice: the lock expires under the
      first worker, ... */
  lemma ExpiredLockPublishesTwice()
    ensures |Run(2, 1, Opening() + [Expire, Acquire(1), Recheck(1), Try(0, Published), Try(1, Published)]).published| == 2
  {
    hide Run, RunFrom;
    FirstRanks();
    RunContinues(2, 1, Opening(), [Expire, Acquire(1), Recheck(1), Try(0, Published), Try(1, Published)]);
    FiveSteps(FirstRanking(), Expire, Acquire(1), Recheck(1), Try(0, Published), Try(1, Published));
  }

  /** ... its owner record is not written, ... */
  lemma UnwrittenOwnerPublishesTwice()
    ensures |Run(2, 1, Opening() + [Try(0, Published)]
                       + [Announce(0, false), Release(0), Acquire(1), Recheck(1), Try(1, Published)]).published| == 2
  {
    hide Run, RunFrom;
    FirstRanks();
    RunSnoc(2, 1, Opening(), Try(0, Published));
    RunContinues(2, 1, Opening() + [Try(0, Published)],
      [Announce(0, false), Release(0), Acquire(1), Recheck(1), Try(1, Published)]);
    FiveSteps(FirstPublished(), Announce(0, false), Release(0), Acquire(1), Recheck(1), Try(1, Published));
  }

  /** ... or it throws before writing it. */
  lemma FailedWorkerPublishesTwice()
    ensures |Run(2, 1, Opening() + [Try(0, Published)]
                       + [Fail(0), Release(0), Acquire(1), Recheck(1), Try(1, Published)]).published| == 2
  {
    hide Run, RunFrom;
    FirstRanks();
    RunSnoc(2, 1, Opening(), Try(0, Published));
    RunContinues(2, 1, Opening() + [Try(0, Published)],
      [Fail(0), Release(0), Acquire(1), Recheck(1), Try(1, Published)]);
    FiveSteps(FirstPublished(), Fail(0), Release(0), Acquire(1), Recheck(1), Try(1, Published));
  }

  function Opening(): seq<Event> { [ReadOwner(0), ReadOwner(1), Acquire(0), Recheck(0)] }

  function FirstPublished(): World { Step(FirstRanking(), 1, Try(0, Published)) }

  /** Worker 0 ranks under the lock, worker 1 is about to ask for it. */
  function FirstRanking(): World {
    World(None, Some(0), 1, [Worker(Ranking(0), Some(0)), Worker(Locking, None)], [], {})
  }

  lemma FirstRanks()
    ensures Run(2, 1, Opening()) == FirstRanking()
  {
    hide Run, Step;
    RunSnoc(2, 1, [], ReadOwner(0));
    RunSnoc(2, 1, [ReadOwner(0)], ReadOwner(1));
    RunSnoc(2, 1, [ReadOwner(0), ReadOwner(1)], Acquire(0));
    RunSnoc(2, 1, [ReadOwner(0), ReadOwner(1), Acquire(0)], Recheck(0));
    BothLocking();
    FirstAcquires();
    assert [] + [ReadOwner(0)] == [ReadOwner(0)];
    assert [ReadOwner(0)] + [ReadOwner(1)] == [ReadOwner(0), ReadOwner(1)];
    assert [ReadOwner(0), ReadOwner(1)] + [Acquire(0)] == [ReadOwner(0), ReadOwner(1), Acquire(0)];
    assert [ReadOwner(0), ReadOwner(1), Acquire(0)] + [Recheck(0)] == Opening();
  }

  function Asking(): World { World(None, None, 0, [Worker(Locking, None), Worker(Locking, None)], [], {}) }

  lemma BothLocking()
    ensures Step(Step(Run(2, 1, []), 1, ReadOwner(0)), 1, ReadOwner(1)) == Asking()
  {
    var start := Run(2, 1, []);
    assert start.workers == [Worker(Idle, None), Worker(Idle, None)];
    assert Step(Step(start, 1, ReadOwner(0)), 1, ReadOwner(1)).workers == Asking().workers;
  }

  lemma FirstAcquires()
    ensures Step(Step(Asking(), 1, Acquire(0)), 1, Recheck(0)) == FirstRanking()
  {
    assert Step(Step(Asking(), 1, Acquire(0)), 1, Recheck(0)).workers == FirstRanking().workers;
  }

  lemma FiveSteps(s: World, a: Event, b: Event, c: Event, d: Event, e: Event)
    ensures RunFrom(s, 1, [a, b, c, d, e]) == Step(Step(Step(Step(Step(s, 1, a), 1, b), 1, c), 1, d), 1, e)
  {
    hide Step;
    assert [a, b, c, d, e] == [a, b, c] + [d, e];
    RunFromConcat(s, 1, [a, b, c], [d, e]);
    RunThree(s, 1, a, b, c);
    var t := RunFrom(s, 1, [a, b, c]);
    assert [d, e][1..] == [e];
    RunOne(Step(t, 1, d), 1, e);
  }

  // ----- the worker's own code -------------------------------------------------------------------------

  datatype Outcome = CycleConflict | RouteInProgress | NothingExecutable | PublishedPlan(intent: nat) | RejectedOrBlocked

  /** The first intent that is not terminally rejected. */
  function FirstStanding(answers: seq<Answer>, from: nat): (k: nat)
    requires from <= |answers|
    ensures from <= k <= |answers|
    ensures k < |answers| ==> answers[k] != TerminalReject
    ensures forall j :: from <= j < k ==> answers[j] == TerminalReject
    decreases |answers| - from
  {
    if from == |answers| || answers[from] != TerminalReject then from else FirstStanding(answers, from + 1)
  }

  class SharedKeys {
    var owner: Option<nat>
    var lock: Option<nat>
    var nextToken: nat
    var published: seq<nat>

    constructor ()
      ensures owner == None && lock == None && published == []
    {
      owner, lock, nextToken, published := None, None, 0, [];
    }

    method AcquireOwnedLock() returns (token: Option<nat>)
      modifies this`lock, this`nextToken
      ensures token.Some? <==> old(lock).None?
      ensures token.Some? ==> lock == token && token.value == old(nextToken) && nextToken == old(nextToken) + 1
      ensures token.None? ==> lock == old(lock) && nextToken == old(nextToken)
    {
      if lock.Some? {
        return None;
      }
      token := Some(nextToken);
      lock, nextToken := token, nextToken + 1;
    }

    method ReleaseOwnedLock(token: nat) returns (released: bool)
      modifies this`lock
      ensures released <==> old(lock) == Some(token)
      ensures lock == if old(lock) == Some(token) then None else old(lock)
    {
      released := lock == Some(token);
      if released {
        lock := None;
      }
    }

    /** One worker alone: it publishes the first intent that stands, after every better one
        was terminally rejected, records the owner, and gives the lock back. */
    method PublishRankedCycle(answers: seq<Answer>) returns (outcome: Outcome)
      modifies this
      ensures
        if answers == [] then outcome == NothingExecutable && published == old(published) && owner == old(owner)
        else if old(owner).Some? then outcome == CycleConflict && published == old(published) && owner == old(owner)
        else if old(lock).Some? then outcome == RouteInProgress && published == old(published) && owner == old(owner)
        else
          var k := FirstStanding(answers, 0);
          if k < |answers| && answers[k] == Published
          then outcome == PublishedPlan(k) && published == old(published) + [k] && owner == Some(k)
          else outcome == RejectedOrBlocked && published == old(published) && owner == old(owner)
      ensures lock == old(lock)
    {
      if answers == [] {
        return NothingExecutable;
      }
      if owner.Some? {
        return CycleConflict;
      }
      var token := AcquireOwnedLock();
      if token.None? {
        return RouteInProgress;
      }
      outcome := RejectedOrBlocked;
      var k := 0;
      while k < |answers|
        invariant 0 <= k <= |answers|
        invariant FirstStanding(answers, 0) == FirstStanding(answers, k)
        invariant published == old(published) && owner == old(owner) && lock == token && outcome == RejectedOrBlocked
      {
        if answers[k] == Published {
          published := published + [k];
          owner := Some(k);
          outcome := PublishedPlan(k);
          break;
        }
        if answers[k] == Blocked {
          break;
        }
        k := k + 1;
      }
      var released := ReleaseOwnedLock(token.value);
    }
  }
}
