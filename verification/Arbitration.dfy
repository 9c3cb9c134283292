/** Which of the intents of one cycle may publish, and in what order. */
module Arbitration {
  import opened Common
  import opened Text
  import EntryOverlap

  /** Scores are None when missing or not finite. */
  datatype Intent = Intent(
    id: string, symbol: string, direction: string, executableNow: bool,
    quality: Option<real>, confluence: int, structural: Option<real>, freshness: Option<real>,
    goThesis: Option<string>, structuralId: string, entryLow: real, entryHigh: real, atr: real, withBias: bool)

  datatype Reason = NoIntent | DirectionConflict | RankedSingleDirection
  datatype Result = Result(
    ordered: seq<Intent>, suppressed: seq<Intent>, reason: Reason, losers: map<string, string>)

  function Score(s: Option<real>): real { if s.Some? then s.value else 0.0 }

  // ----- the rank -------------------------------------------------------------------------

  /** Executable first, then the scores when they count, then the freshest, then the id. */
  predicate Precedes(a: Intent, b: Intent, scores: bool) {
    if a.executableNow != b.executableNow then a.executableNow
    else if scores && Score(a.quality) != Score(b.quality) then Score(a.quality) > Score(b.quality)
    else if scores && a.confluence != b.confluence then a.confluence > b.confluence
    else if scores && Score(a.structural) != Score(b.structural) then Score(a.structural) > Score(b.structural)
    else if Score(a.freshness) != Score(b.freshness) then Score(a.freshness) > Score(b.freshness)
    else Before(a.id, b.id)
  }

  predicate DistinctIds(s: seq<Intent>) { forall i, j :: 0 <= i < j < |s| ==> s[i].id != s[j].id }

  predicate Ranked(s: seq<Intent>, scores: bool) {
    forall i, j :: 0 <= i < j < |s| ==> Precedes(s[i], s[j], scores)
  }

  lemma RankIsStrict(a: Intent, b: Intent, scores: bool)
    ensures !Precedes(a, a, scores)
    ensures Precedes(a, b, scores) ==> !Precedes(b, a, scores)
    ensures a.id != b.id ==> Precedes(a, b, scores) || Precedes(b, a, scores)
  {
    BeforeIsTotal(a.id, b.id);
    BeforeIsTotal(a.id, a.id);
  }

  lemma RankIsTransitive(a: Intent, b: Intent, c: Intent, scores: bool)
    requires Precedes(a, b, scores) && Precedes(b, c, scores)
    ensures Precedes(a, c, scores)
  {
    if Before(a.id, b.id) && Before(b.id, c.id) {
      BeforeIsTransitive(a.id, b.id, c.id);
    }
  }

  // ----- sorting -------------------------------------------------------------------------------

  /** Stable: behind everything the newcomer does not precede. */
  function Insert(s: seq<Intent>, x: Intent, scores: bool): (r: seq<Intent>)
    ensures multiset(r) == multiset(s) + multiset{x}
  {
    if s == [] || !Precedes(x, s[|s| - 1], scores) then s + [x]
    else
      assert s == s[..|s| - 1] + [s[|s| - 1]];
      Insert(s[..|s| - 1], x, scores) + [s[|s| - 1]]
  }

  function Sort(s: seq<Intent>, scores: bool): (r: seq<Intent>)
    ensures multiset(r) == multiset(s)
  {
    if s == [] then []
    else
      assert s == s[..|s| - 1] + [s[|s| - 1]];
      Insert(Sort(s[..|s| - 1], scores), s[|s| - 1], scores)
  }

  lemma SameMembers(a: seq<Intent>, b: seq<Intent>, x: Intent)
    requires multiset(a) == multiset(b)
    ensures x in a <==> x in b
  {
    assert x in a <==> x in multiset(a);
    assert x in b <==> x in multiset(b);
  }

  lemma AppendRanked(s: seq<Intent>, x: Intent, scores: bool)
    requires Ranked(s, scores) && forall i :: 0 <= i < |s| ==> Precedes(s[i], x, scores)
    ensures Ranked(s + [x], scores)
  {}

  lemma InsertMember(s: seq<Intent>, x: Intent, scores: bool, y: Intent)
    requires y in Insert(s, x, scores)
    ensures y in s || y == x
  {
    assert y in multiset(Insert(s, x, scores));
  }

  lemma {:induction false} InsertRanked(s: seq<Intent>, x: Intent, scores: bool)
    requires Ranked(s, scores) && forall i :: 0 <= i < |s| ==> s[i].id != x.id
    ensures Ranked(Insert(s, x, scores), scores)
  {
    hide Precedes;
    if s != [] {
      var n := |s| - 1;
      if Precedes(x, s[n], scores) {
        InsertRanked(s[..n], x, scores);
        BehindLast(s, x, scores);
        AppendRanked(Insert(s[..n], x, scores), s[n], scores);
      } else {
        PrecedesNew(s, x, scores);
        AppendRanked(s, x, scores);
      }
    }
  }

  lemma PrecedesNew(s: seq<Intent>, x: Intent, scores: bool)
    requires s != [] && Ranked(s, scores) && s[|s| - 1].id != x.id && !Precedes(x, s[|s| - 1], scores)
    ensures forall i :: 0 <= i < |s| ==> Precedes(s[i], x, scores)
  {
    hide Precedes;
    var n := |s| - 1;
    RankIsStrict(s[n], x, scores);
    forall i | 0 <= i < n
      ensures Precedes(s[i], x, scores)
    {
      RankIsTransitive(s[i], s[n], x, scores);
    }
  }

  lemma BehindLast(s: seq<Intent>, x: Intent, scores: bool)
    requires s != [] && Ranked(s, scores) && Precedes(x, s[|s| - 1], scores)
    ensures
      var r := Insert(s[..|s| - 1], x, scores);
      forall i :: 0 <= i < |r| ==> Precedes(r[i], s[|s| - 1], scores)
  {
    hide Precedes, Insert;
    var n := |s| - 1;
    var r := Insert(s[..n], x, scores);
    forall i | 0 <= i < |r|
      ensures Precedes(r[i], s[n], scores)
    {
      InsertMember(s[..n], x, scores, r[i]);
    }
  }

  lemma {:induction false} SortRanked(s: seq<Intent>, scores: bool)
    requires DistinctIds(s)
    ensures Ranked(Sort(s, scores), scores)
  {
    hide Precedes;
    if s != [] {
      var n := |s| - 1;
      SortRanked(s[..n], scores);
      var r := Sort(s[..n], scores);
      forall i | 0 <= i < |r|
        ensures r[i].id != s[n].id
      {
        SameMembers(r, s[..n], r[i]);
      }
      InsertRanked(r, s[n], scores);
    }
  }

  lemma HeadsEqual(a: seq<Intent>, b: seq<Intent>, scores: bool)
    requires a != [] && b != [] && Ranked(a, scores) && Ranked(b, scores) && multiset(a) == multiset(b)
    ensures a[0] == b[0]
  {
    hide Precedes;
    SameMembers(a, b, a[0]);
    SameMembers(a, b, b[0]);
    RankIsStrict(a[0], b[0], scores);
  }

  lemma TailsEqual(a: seq<Intent>, b: seq<Intent>)
    requires a != [] && b != [] && a[0] == b[0] && multiset(a) == multiset(b)
    ensures multiset(a[1..]) == multiset(b[1..])
  {
    assert a == [a[0]] + a[1..] && b == [b[0]] + b[1..];
    assert multiset(a[1..]) == multiset(a) - multiset{a[0]};
    assert multiset(b[1..]) == multiset(b) - multiset{b[0]};
  }

  lemma {:induction false} RankedUnique(a: seq<Intent>, b: seq<Intent>, scores: bool)
    requires Ranked(a, scores) && Ranked(b, scores) && multiset(a) == multiset(b)
    ensures a == b
  {
    hide Precedes;
    assert |a| == |multiset(a)| == |multiset(b)| == |b|;
    if a != [] {
      HeadsEqual(a, b, scores);
      TailsEqual(a, b);
      RankedUnique(a[1..], b[1..], scores);
      assert a == [a[0]] + a[1..] && b == [b[0]] + b[1..];
    }
  }

  // ----- theses -------------------------------------------------------------------------------------

  predicate HasCorridor(i: Intent) { i.entryHigh >= i.entryLow > 0.0 }

  predicate SameThesis(a: Intent, b: Intent) {
    && a.symbol == b.symbol && a.direction == b.direction
    && (|| (a.goThesis.Some? && a.goThesis.value != "" && a.goThesis == b.goThesis)
        || (a.structuralId != "" && a.structuralId == b.structuralId)
        || (HasCorridor(a) && HasCorridor(b)
            && EntryOverlap.CorridorsOverlap(a.entryLow, a.entryHigh, b.entryLow, b.entryHigh,
                                             EntryOverlap.Pad(MaxReal(a.atr, b.atr)))))
  }

  function FirstSharing(winners: seq<Intent>, item: Intent, from: nat): (k: nat)
    requires from <= |winners|
    ensures from <= k <= |winners|
    ensures k < |winners| ==> SameThesis(winners[k], item)
    ensures forall m :: from <= m < k ==> !SameThesis(winners[m], item)
    decreases |winners| - from
  {
    if from == |winners| || SameThesis(winners[from], item) then from else FirstSharing(winners, item, from + 1)
  }

  datatype Collapsed = Collapsed(winners: seq<Intent>, losers: map<string, string>)

  function Collapse(ranked: seq<Intent>): Collapsed {
    if ranked == [] then Collapsed([], map[])
    else
      var n := |ranked| - 1;
      var before, item := Collapse(ranked[..n]), ranked[n];
      var k := FirstSharing(before.winners, item, 0);
      if k == |before.winners| then Collapsed(before.winners + [item], before.losers)
      else Collapsed(before.winners, before.losers[item.id := before.winners[k].id])
  }

  method CollapseTheses(ranked: seq<Intent>) returns (winners: seq<Intent>, losers: map<string, string>)
    ensures Collapsed(winners, losers) == Collapse(ranked)
  {
    winners, losers := [], map[];
    for i := 0 to |ranked|
      invariant Collapsed(winners, losers) == Collapse(ranked[..i])
    {
      assert ranked[..i + 1][..i] == ranked[..i];
      var item := ranked[i];
      var owner := 0;
      while owner < |winners| && !SameThesis(winners[owner], item)
        invariant 0 <= owner <= |winners|
        invariant FirstSharing(winners, item, 0) == FirstSharing(winners, item, owner)
      {
        owner := owner + 1;
      }
      if owner == |winners| {
        winners := winners + [item];
      } else {
        losers := losers[item.id := winners[owner].id];
      }
    }
    assert ranked[..|ranked|] == ranked;
  }

  // ----- the decision ----------------------------------------------------------------------------------

  function ExecutableNow(s: seq<Intent>): (r: seq<Intent>)
    ensures forall x :: x in r <==> x in s && x.executableNow
  {
    if s == [] then []
    else
      var n := |s| - 1;
      var rest := ExecutableNow(s[..n]);
      if s[n].executableNow then rest + [s[n]] else rest
  }

  function OfDirection(s: seq<Intent>, direction: string): (r: seq<Intent>)
    ensures forall x :: x in r <==> x in s && x.direction == direction
  {
    if s == [] then []
    else
      var n := |s| - 1;
      var rest := OfDirection(s[..n], direction);
      if s[n].direction == direction then rest + [s[n]] else rest
  }

  function NotOfDirection(s: seq<Intent>, direction: string): (r: seq<Intent>)
    ensures forall x :: x in r <==> x in s && x.direction != direction
  {
    if s == [] then []
    else
      var n := |s| - 1;
      var rest := NotOfDirection(s[..n], direction);
      if s[n].direction != direction then rest + [s[n]] else rest
  }

  function Suppressed(s: seq<Intent>, direction: string, losers: map<string, string>): (r: seq<Intent>)
    ensures forall x :: x in r <==> x in s && (x.direction != direction || x.id in losers)
  {
    if s == [] then []
    else
      var n := |s| - 1;
      var rest := Suppressed(s[..n], direction, losers);
      if s[n].direction != direction || s[n].id in losers then rest + [s[n]] else rest
  }

  function DecisionPool(ranked: seq<Intent>): (pool: seq<Intent>)
    ensures ranked != [] ==> pool != []
  {
    var now := ExecutableNow(ranked);
    if now != [] then now else ranked
  }

  /** The first intent agreeing with the higher-timeframe bias. */
  function FirstAligned(pool: seq<Intent>, from: nat): (k: nat)
    requires from <= |pool|
    ensures from <= k <= |pool|
    ensures k < |pool| ==> pool[k].withBias
    ensures forall i :: from <= i < k ==> !pool[i].withBias
    decreases |pool| - from
  {
    if from == |pool| || pool[from].withBias then from else FirstAligned(pool, from + 1)
  }

  /** Exactly one direction has an intent agreeing with the bias. */
  predicate OneAlignedDirection(pool: seq<Intent>) {
    var k := FirstAligned(pool, 0);
    k < |pool| && forall i :: 0 <= i < |pool| && pool[i].withBias ==> pool[i].direction == pool[k].direction
  }

  /** The intent whose direction trades; None when the directions cannot be separated. */
  function Top(pool: seq<Intent>, margin: real, scores: bool): (top: Option<Intent>)
    requires pool != []
    ensures top.Some? ==> top.value in pool
  {
    var opposing := NotOfDirection(pool, pool[0].direction);
    if opposing == [] || (scores && Score(pool[0].quality) - Score(opposing[0].quality) >= margin) then Some(pool[0])
    else if !OneAlignedDirection(pool) then None
    else
      var aligned := pool[FirstAligned(pool, 0)];
      assert aligned in OfDirection(pool, aligned.direction);
      var agreeing := OfDirection(pool, aligned.direction);
      assert agreeing[0] in agreeing;
      Some(agreeing[0])
  }

  function Decide(ranked: seq<Intent>, margin: real, scores: bool): Result {
    if ranked == [] then Result([], [], NoIntent, map[])
    else
      var top := Top(DecisionPool(ranked), margin, scores);
      if top.None? then Result([], ranked, DirectionConflict, map[])
      else
        var c := Collapse(OfDirection(ranked, top.value.direction));
        Result(c.winners, Suppressed(ranked, top.value.direction, c.losers), RankedSingleDirection, c.losers)
  }

  function Arbitrate(intents: seq<Intent>, margin: real, scores: bool): Result {
    Decide(Sort(intents, scores), margin, scores)
  }

  // ----- what a decision promises -------------------------------------------------------------------------

  /** The same intents in any order of delivery give the same decision. */
  lemma OrderOfDeliveryIsIrrelevant(a: seq<Intent>, b: seq<Intent>, margin: real, scores: bool)
    requires DistinctIds(a) && DistinctIds(b) && multiset(a) == multiset(b)
    ensures Arbitrate(a, margin, scores) == Arbitrate(b, margin, scores)
  {
    hide Sort, Decide;
    SortRanked(a, scores);
    SortRanked(b, scores);
    RankedUnique(Sort(a, scores), Sort(b, scores), scores);
  }

  lemma RankedDistinct(s: seq<Intent>, scores: bool, i: nat, j: nat)
    requires Ranked(s, scores) && i < |s| && j < |s| && s[i] == s[j]
    ensures i == j
  {
    RankIsStrict(s[i], s[i], scores);
  }

  lemma {:induction false} DirectionRanked(s: seq<Intent>, direction: string, scores: bool)
    requires Ranked(s, scores)
    ensures Ranked(OfDirection(s, direction), scores)
  {
    hide Precedes;
    if s != [] {
      var n := |s| - 1;
      DirectionRanked(s[..n], direction, scores);
      var rest := OfDirection(s[..n], direction);
      forall i | 0 <= i < |rest|
        ensures Precedes(rest[i], s[n], scores)
      {
        assert rest[i] in s[..n];
      }
    }
  }

  /** What collapsing theses leaves of a ranked list of distinct intents: the winners are
      ranked and pairwise different; every other intent lost to the first winner sharing its
      thesis, which ranks above it. */
  predicate CollapsesWell(ranked: seq<Intent>, c: Collapsed, scores: bool) {
    && Ranked(c.winners, scores)
    && (forall x :: x in c.winners ==> x in ranked && x.id !in c.losers)
    && (forall i, j :: 0 <= i < j < |c.winners| ==> !SameThesis(c.winners[i], c.winners[j]))
    && (forall x :: x in ranked && x !in c.winners ==> x.id in c.losers && LostWell(c, x, scores))
    && (forall id :: id in c.losers ==> exists x :: x in ranked && x.id == id)
  }

  predicate LostWell(c: Collapsed, x: Intent, scores: bool)
    requires x.id in c.losers
  {
    exists m :: 0 <= m < |c.winners| && c.losers[x.id] == c.winners[m].id
      && SameThesis(c.winners[m], x) && Precedes(c.winners[m], x, scores)
      && forall k :: 0 <= k < m ==> !SameThesis(c.winners[k], x)
  }

  lemma {:induction false} CollapseIsWell(ranked: seq<Intent>, scores: bool)
    requires Ranked(ranked, scores) && DistinctIds(ranked)
    ensures CollapsesWell(ranked, Collapse(ranked), scores)
  {
    hide CollapsesWell, SameThesis, Precedes, Newcomer;
    if ranked == [] {
      EmptyCollapses(scores);
    } else {
      var head, item := ranked[..|ranked| - 1], ranked[|ranked| - 1];
      CollapseIsWell(head, scores);
      assert ranked == head + [item];
      LastIsNewcomer(head, item, scores);
      CollapseStep(head, item, scores);
    }
  }

  lemma EmptyCollapses(scores: bool)
    ensures CollapsesWell([], Collapsed([], map[]), scores)
  {}

  /** The newcomer ranks behind everything before it and is none of it. */
  predicate Newcomer(head: seq<Intent>, item: Intent, scores: bool) {
    forall x :: x in head ==> x.id != item.id && Precedes(x, item, scores)
  }

  lemma LastIsNewcomer(head: seq<Intent>, item: Intent, scores: bool)
    requires Ranked(head + [item], scores) && DistinctIds(head + [item])
    ensures Newcomer(head, item, scores)
  {
    hide Precedes;
    var all := head + [item];
    forall i | 0 <= i < |head|
      ensures head[i].id != item.id && Precedes(head[i], item, scores)
    {
      assert all[i] == head[i] && all[|head|] == item;
    }
  }

  lemma CollapseSnoc(head: seq<Intent>, item: Intent)
    ensures
      var before := Collapse(head);
      var k := FirstSharing(before.winners, item, 0);
      Collapse(head + [item]) ==
        if k == |before.winners| then Collapsed(before.winners + [item], before.losers)
        else Collapsed(before.winners, before.losers[item.id := before.winners[k].id])
  {
    hide FirstSharing;
    assert (head + [item])[..|head|] == head;
  }

  lemma CollapseStep(head: seq<Intent>, item: Intent, scores: bool)
    requires Newcomer(head, item, scores) && CollapsesWell(head, Collapse(head), scores)
    ensures CollapsesWell(head + [item], Collapse(head + [item]), scores)
  {
    hide SameThesis, CollapsesWell, Collapse, Newcomer;
    var before := Collapse(head);
    CollapseSnoc(head, item);
    var k := FirstSharing(before.winners, item, 0);
    if k == |before.winners| {
      WinnerStep(head, before, item, scores);
    } else {
      LoserStep(head, before, item, k, scores);
    }
  }

  lemma WinnerStep(head: seq<Intent>, before: Collapsed, item: Intent, scores: bool)
    requires CollapsesWell(head, before, scores) && Newcomer(head, item, scores)
    requires forall m :: 0 <= m < |before.winners| ==> !SameThesis(before.winners[m], item)
    ensures CollapsesWell(head + [item], Collapsed(before.winners + [item], before.losers), scores)
  {
    hide SameThesis, Precedes, LostWell;
    var c := Collapsed(before.winners + [item], before.losers);
    AppendRanked(before.winners, item, scores);
    forall x | x in head + [item] && x !in c.winners
      ensures x.id in c.losers && LostWell(c, x, scores)
    {
      assert x in head && x !in before.winners;
      LostStays(before, c, x, scores);
    }
    assert item.id !in c.losers;
  }

  lemma LoserStep(head: seq<Intent>, before: Collapsed, item: Intent, k: nat, scores: bool)
    requires CollapsesWell(head, before, scores) && Newcomer(head, item, scores)
    requires k < |before.winners| && SameThesis(before.winners[k], item)
    requires forall m :: 0 <= m < k ==> !SameThesis(before.winners[m], item)
    ensures CollapsesWell(head + [item],
              Collapsed(before.winners, before.losers[item.id := before.winners[k].id]), scores)
  {
    hide SameThesis, Precedes, LostWell;
    var c := Collapsed(before.winners, before.losers[item.id := before.winners[k].id]);
    assert before.winners[k] in head;
    JustLost(c, item, k, scores);
    forall x | x in head + [item] && x !in c.winners
      ensures x.id in c.losers && LostWell(c, x, scores)
    {
      if x in head {
        LostStays(before, c, x, scores);
      }
    }
    forall id | id in c.losers
      ensures exists x :: x in head + [item] && x.id == id
    {
      if id == item.id {
        assert item in head + [item];
      } else {
        var x :| x in head && x.id == id;
        assert x in head + [item];
      }
    }
  }

  lemma JustLost(c: Collapsed, item: Intent, k: nat, scores: bool)
    requires k < |c.winners| && item.id in c.losers && c.losers[item.id] == c.winners[k].id
    requires SameThesis(c.winners[k], item) && Precedes(c.winners[k], item, scores)
    requires forall m :: 0 <= m < k ==> !SameThesis(c.winners[m], item)
    ensures LostWell(c, item, scores)
  {
    hide SameThesis, Precedes;
  }

  lemma LostStays(before: Collapsed, c: Collapsed, x: Intent, scores: bool)
    requires x.id in before.losers && LostWell(before, x, scores)
    requires before.winners <= c.winners && x.id in c.losers && c.losers[x.id] == before.losers[x.id]
    ensures LostWell(c, x, scores)
  {
    hide SameThesis, Precedes;
    var m :| 0 <= m < |before.winners| && before.losers[x.id] == before.winners[m].id
      && SameThesis(before.winners[m], x) && Precedes(before.winners[m], x, scores)
      && forall k :: 0 <= k < m ==> !SameThesis(before.winners[k], x);
    assert c.winners[m] == before.winners[m];
    assert forall k :: 0 <= k < m ==> c.winners[k] == before.winners[k];
  }

  /** The ranked intents of the chosen direction, when one is chosen. */
  lemma DecidedDirection(intents: seq<Intent>, margin: real, scores: bool) returns (direction: string, pool: seq<Intent>)
    requires DistinctIds(intents) && Arbitrate(intents, margin, scores).reason == RankedSingleDirection
    ensures pool == OfDirection(Sort(intents, scores), direction)
    ensures
      var r := Arbitrate(intents, margin, scores);
      && Collapsed(r.ordered, r.losers) == Collapse(pool)
      && r.suppressed == Suppressed(Sort(intents, scores), direction, r.losers)
      && CollapsesWell(pool, Collapse(pool), scores) && Ranked(pool, scores)
    ensures exists top :: top in DecisionPool(Sort(intents, scores)) && top.direction == direction
  {
    hide Precedes, SameThesis, CollapsesWell, Sort;
    var ranked := Sort(intents, scores);
    SortRanked(intents, scores);
    var top := Top(DecisionPool(ranked), margin, scores).value;
    direction := top.direction;
    pool := OfDirection(ranked, direction);
    DirectionRanked(ranked, direction, scores);
    SortDistinct(intents, scores);
    DirectionDistinct(ranked, direction);
    CollapseIsWell(pool, scores);
  }

  lemma {:induction false} InsertDistinct(s: seq<Intent>, x: Intent, scores: bool)
    requires DistinctIds(s) && forall i :: 0 <= i < |s| ==> s[i].id != x.id
    ensures DistinctIds(Insert(s, x, scores))
  {
    hide Precedes;
    if s != [] {
      var n := |s| - 1;
      InsertDistinct(s[..n], x, scores);
      var r := Insert(s[..n], x, scores);
      forall i | 0 <= i < |r|
        ensures r[i].id != s[n].id
      {
        InsertMember(s[..n], x, scores, r[i]);
      }
    }
  }

  lemma {:induction false} SortDistinct(s: seq<Intent>, scores: bool)
    requires DistinctIds(s)
    ensures DistinctIds(Sort(s, scores))
  {
    if s != [] {
      var n := |s| - 1;
      SortDistinct(s[..n], scores);
      var r := Sort(s[..n], scores);
      forall i | 0 <= i < |r|
        ensures r[i].id != s[n].id
      {
        SameMembers(r, s[..n], r[i]);
      }
      InsertDistinct(r, s[n], scores);
    }
  }

  lemma {:induction false} DirectionDistinct(s: seq<Intent>, direction: string)
    requires DistinctIds(s)
    ensures DistinctIds(OfDirection(s, direction))
  {
    if s != [] {
      var n := |s| - 1;
      DirectionDistinct(s[..n], direction);
      var rest := OfDirection(s[..n], direction);
      forall i | 0 <= i < |rest|
        ensures rest[i].id != s[n].id
      {
        assert rest[i] in s[..n];
      }
    }
  }

  /** Every intent is either ordered or suppressed, never both. */
  lemma OrderedAndSuppressedPartition(intents: seq<Intent>, margin: real, scores: bool, x: Intent)
    requires DistinctIds(intents)
    ensures
      var r := Arbitrate(intents, margin, scores);
      && (x in intents <==> x in r.ordered || x in r.suppressed)
      && !(x in r.ordered && x in r.suppressed)
  {
    hide Sort, Precedes, SameThesis;
    SameMembers(intents, Sort(intents, scores), x);
    if Arbitrate(intents, margin, scores).reason == RankedSingleDirection {
      var direction, pool := DecidedDirection(intents, margin, scores);
    }
  }

  lemma LoserLost(pool: seq<Intent>, c: Collapsed, x: Intent, scores: bool)
    requires CollapsesWell(pool, c, scores) && x in pool && x !in c.winners
    ensures x.id in c.losers && LostWell(c, x, scores)
  {}

  lemma WinnerIn(pool: seq<Intent>, c: Collapsed, x: Intent, scores: bool)
    requires CollapsesWell(pool, c, scores) && x in c.winners
    ensures x in pool && x.id !in c.losers
  {}

  /** Each suppressed intent of the traded direction is recorded as losing to a better-ranked
      published intent that argues for the same trade, the first such. */
  lemma LosersPointToTheirWinner(intents: seq<Intent>, margin: real, scores: bool, x: Intent)
    requires DistinctIds(intents) && x in Arbitrate(intents, margin, scores).suppressed
    requires Arbitrate(intents, margin, scores).ordered != []
    requires x.direction == Arbitrate(intents, margin, scores).ordered[0].direction
    ensures
      var r := Arbitrate(intents, margin, scores);
      x.id in r.losers && LostWell(Collapsed(r.ordered, r.losers), x, scores)
  {
    hide Sort, Precedes, SameThesis, LostWell, CollapsesWell, Arbitrate, Collapse;
    var r := Arbitrate(intents, margin, scores);
    NoOrderNoDirection(intents, margin, scores);
    var direction, pool := DecidedDirection(intents, margin, scores);
    WinnerIn(pool, Collapse(pool), r.ordered[0], scores);
    if x in r.ordered {
      WinnerIn(pool, Collapse(pool), x, scores);
    }
    LoserLost(pool, Collapse(pool), x, scores);
  }

  lemma NoOrderNoDirection(intents: seq<Intent>, margin: real, scores: bool)
    ensures Arbitrate(intents, margin, scores).reason != RankedSingleDirection ==>
      Arbitrate(intents, margin, scores).ordered == []
  {
    hide Sort, Collapse, Top;
  }

  /** A choice of intents that could be published together. */
  predicate Independent(s: seq<Intent>) {
    forall i, j :: 0 <= i < j < |s| ==> !SameThesis(s[i], s[j])
  }

  /** The published order is itself such a choice, in one direction and best first, and it is
      maximal: nothing of that direction could be added. */
  lemma OrderedIsMaximal(intents: seq<Intent>, margin: real, scores: bool, x: Intent)
    requires DistinctIds(intents)
    ensures
      var r := Arbitrate(intents, margin, scores);
      && Independent(r.ordered) && Ranked(r.ordered, scores)
      && (forall i :: 0 <= i < |r.ordered| ==> r.ordered[i].direction == r.ordered[0].direction)
      && (r.ordered != [] && x in intents && x.direction == r.ordered[0].direction && x !in r.ordered ==>
            exists m :: 0 <= m < |r.ordered| && SameThesis(r.ordered[m], x))
  {
    hide Sort, Precedes, SameThesis, CollapsesWell, Arbitrate, Collapse, LostWell;
    var r := Arbitrate(intents, margin, scores);
    SameMembers(intents, Sort(intents, scores), x);
    NoOrderNoDirection(intents, margin, scores);
    if r.reason == RankedSingleDirection {
      var direction, pool := DecidedDirection(intents, margin, scores);
      WinnersIndependent(pool, Collapse(pool), scores);
      forall i | 0 <= i < |r.ordered|
        ensures r.ordered[i].direction == direction
      {
        WinnerIn(pool, Collapse(pool), r.ordered[i], scores);
      }
      if x in pool && x !in r.ordered {
        LoserLost(pool, Collapse(pool), x, scores);
        LostShares(Collapse(pool), x, scores);
      }
    }
  }

  lemma WinnersIndependent(pool: seq<Intent>, c: Collapsed, scores: bool)
    requires CollapsesWell(pool, c, scores)
    ensures Independent(c.winners) && Ranked(c.winners, scores)
  {}

  lemma LostShares(c: Collapsed, x: Intent, scores: bool)
    requires x.id in c.losers && LostWell(c, x, scores)
    ensures exists m :: 0 <= m < |c.winners| && SameThesis(c.winners[m], x)
  {}

  /** An intent that shares no thesis with the first k winners is no better than winner k. */
  lemma NextWinnerIsFirst(pool: seq<Intent>, c: Collapsed, x: Intent, k: nat, scores: bool)
    requires CollapsesWell(pool, c, scores) && x in pool && k <= |c.winners|
    requires forall i :: 0 <= i < k ==> !SameThesis(c.winners[i], x) && c.winners[i] != x
    ensures k < |c.winners| && (c.winners[k] == x || Precedes(c.winners[k], x, scores))
  {
    hide Precedes, SameThesis;
    if x in c.winners {
      var m :| 0 <= m < |c.winners| && c.winners[m] == x;
    } else {
      var m :| 0 <= m < |c.winners| && SameThesis(c.winners[m], x) && Precedes(c.winners[m], x, scores);
      if m > k {
        RankIsTransitive(c.winners[k], c.winners[m], x, scores);
      }
    }
  }

  /** Lexicographically first: where another ranked choice of independent intents of the same
      direction first differs from the published order, the published intent ranks above. */
  lemma OrderedIsFirst(
    intents: seq<Intent>, margin: real, scores: bool, other: seq<Intent>, k: nat)
    requires DistinctIds(intents) && Arbitrate(intents, margin, scores).ordered != []
    requires Independent(other) && Ranked(other, scores) && k < |other|
    requires forall i :: 0 <= i < |other| ==>
      other[i] in intents && other[i].direction == Arbitrate(intents, margin, scores).ordered[0].direction
    requires k <= |Arbitrate(intents, margin, scores).ordered|
    requires other[..k] == Arbitrate(intents, margin, scores).ordered[..k]
    ensures
      var ordered := Arbitrate(intents, margin, scores).ordered;
      k < |ordered| && (ordered[k] == other[k] || Precedes(ordered[k], other[k], scores))
  {
    hide Sort, Precedes, SameThesis, CollapsesWell, Arbitrate, Collapse;
    var r := Arbitrate(intents, margin, scores);
    NoOrderNoDirection(intents, margin, scores);
    var direction, pool := DecidedDirection(intents, margin, scores);
    var x := other[k];
    WinnerIn(pool, Collapse(pool), r.ordered[0], scores);
    SameMembers(intents, Sort(intents, scores), x);
    forall i | 0 <= i < k
      ensures !SameThesis(r.ordered[i], x) && r.ordered[i] != x
    {
      assert r.ordered[i] == r.ordered[..k][i] == other[..k][i] == other[i];
      if other[i] == x {
        RankedDistinct(other, scores, i, k);
      }
    }
    NextWinnerIsFirst(pool, Collapse(pool), x, k, scores);
  }

  /** The head can execute now whenever anything can and something is ordered. */
  lemma HeadIsExecutable(intents: seq<Intent>, margin: real, scores: bool, x: Intent)
    requires DistinctIds(intents) && x in intents && x.executableNow
    requires Arbitrate(intents, margin, scores).ordered != []
    ensures Arbitrate(intents, margin, scores).ordered[0].executableNow
  {
    hide Sort, SameThesis, Collapse, Precedes, CollapsesWell, Arbitrate;
    NoOrderNoDirection(intents, margin, scores);
    var direction, pool := DecidedDirection(intents, margin, scores);
    var ranked := Sort(intents, scores);
    SameMembers(intents, ranked, x);
    assert x in ExecutableNow(ranked);
    var top :| top in DecisionPool(ranked) && top.direction == direction;
    assert top.executableNow && top in pool;
    FirstWins(pool);
    ExecutableFirst(pool, top, scores);
  }

  lemma ExecutableFirst(ranked: seq<Intent>, x: Intent, scores: bool)
    requires Ranked(ranked, scores) && x in ranked && x.executableNow
    ensures ranked[0].executableNow
  {
    var k :| 0 <= k < |ranked| && ranked[k] == x;
    if k > 0 {
      assert Precedes(ranked[0], ranked[k], scores);
    }
  }

  lemma {:induction false} FirstWins(ranked: seq<Intent>)
    requires ranked != []
    ensures Collapse(ranked).winners != [] && Collapse(ranked).winners[0] == ranked[0]
  {
    var n := |ranked| - 1;
    if n > 0 {
      FirstWins(ranked[..n]);
    } else {
      assert Collapse(ranked[..0]) == Collapsed([], map[]);
    }
  }
}
