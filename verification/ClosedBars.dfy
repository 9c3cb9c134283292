/** Closed bars for one symbol: a bar is emitted when a newer one appears, its close taken
    from a spot history that forgets what is too old. */
module ClosedBars {
  import opened Common

  datatype Spot = Spot(timestamp: int, bid: real)
  datatype Bar = Bar(timestamp: int, open: real, high: real, low: real, close: real)
  datatype Emission = Emission(timeframe: string, bar: Bar, requiresHistoricalClose: bool)

  /** What an observation comes to. A bar whose low lies above its high has no close to clamp
      to: the clamp throws, and the bar is lost. */
  datatype Answer = Nothing | Emits(emission: Emission) | ClampThrows

  // ----- the spot history -------------------------------------------------------------------

  /** A sorted dictionary: one bid per timestamp, oldest first. */
  predicate Ascending(series: seq<Spot>) {
    forall i, j :: 0 <= i < j < |series| ==> series[i].timestamp < series[j].timestamp
  }

  function Put(series: seq<Spot>, s: Spot): (r: seq<Spot>)
    requires Ascending(series)
    ensures Ascending(r)
    ensures forall i :: 0 <= i < |r| ==> r[i] == s || r[i] in series
  {
    if series == [] then [s]
    else
      var n := |series| - 1;
      assert forall x :: x in series[..n] ==> x in series && x.timestamp < series[n].timestamp;
      if series[n].timestamp < s.timestamp then series + [s]
      else if series[n].timestamp == s.timestamp then series[..n] + [s]
      else Put(series[..n], s) + [series[n]]
  }

  /** The new spot replaces the one of its timestamp and leaves every other. */
  lemma {:induction false} PutMembers(series: seq<Spot>, s: Spot, x: Spot)
    requires Ascending(series)
    ensures x in Put(series, s) <==> x == s || (x in series && x.timestamp != s.timestamp)
  {
    if series != [] {
      var n := |series| - 1;
      assert series == series[..n] + [series[n]];
      if series[n].timestamp > s.timestamp {
        PutMembers(series[..n], s, x);
      }
    }
  }

  /** Everything before the cutoff goes. */
  function Pruned(series: seq<Spot>, cutoff: int): (r: seq<Spot>)
    requires Ascending(series)
    ensures Ascending(r)
    ensures forall x :: x in r <==> x in series && x.timestamp >= cutoff
  {
    if series != [] && series[0].timestamp < cutoff then
      assert series == [series[0]] + series[1..];
      Pruned(series[1..], cutoff)
    else series
  }

  function Observed(series: seq<Spot>, s: Spot, retention: nat): (r: seq<Spot>)
    requires Ascending(series)
    ensures Ascending(r)
  {
    Pruned(Put(series, s), s.timestamp - retention)
  }

  predicate IsLatest(series: seq<Spot>, x: Spot, from: int, to: int) {
    && from <= x.timestamp < to
    && forall y :: y in series && from <= y.timestamp < to ==> y.timestamp <= x.timestamp
  }

  /** The bid of the latest timestamp in [from, to). */
  function LastBid(series: seq<Spot>, from: int, to: int): (bid: Option<real>)
    requires Ascending(series)
    ensures bid.Some? ==> exists x :: x in series && IsLatest(series, x, from, to) && x.bid == bid.value
    ensures bid.None? ==> forall y :: y in series ==> !(from <= y.timestamp < to)
  {
    if series == [] then None
    else
      var n := |series| - 1;
      assert series == series[..n] + [series[n]];
      if series[n].timestamp >= to then LastBid(series[..n], from, to)
      else if series[n].timestamp < from then None
      else Some(series[n].bid)
  }

  method DropBefore(series: seq<Spot>, cutoff: int) returns (r: seq<Spot>)
    requires Ascending(series)
    ensures r == Pruned(series, cutoff)
  {
    var expired := 0;
    while expired < |series| && series[expired].timestamp < cutoff
      invariant 0 <= expired <= |series|
      invariant Pruned(series, cutoff) == Pruned(series[expired..], cutoff)
    {
      assert series[expired..][1..] == series[expired + 1..];
      expired := expired + 1;
    }
    r := series[expired..];
  }

  class SpotHistory {
    var series: seq<Spot>
    const retention: nat

    constructor (retentionSeconds: int)
      ensures series == [] && retention == if retentionSeconds >= 1 then retentionSeconds else 1
    {
      series := [];
      retention := if retentionSeconds >= 1 then retentionSeconds else 1;
    }

    method Observe(s: Spot)
      requires Ascending(series)
      modifies this
      ensures series == Observed(old(series), s, retention)
    {
      hide Put, Pruned;
      series := Put(series, s);
      series := DropBefore(series, s.timestamp - retention);
    }

    method TryLastBid(from: int, to: int) returns (bid: Option<real>)
      requires Ascending(series)
      ensures bid == LastBid(series, from, to)
    {
      var i := |series|;
      assert series[..i] == series;
      while i > 0
        invariant 0 <= i <= |series|
        invariant LastBid(series, from, to) == LastBid(series[..i], from, to)
      {
        i := i - 1;
        assert series[..i + 1][..i] == series[..i];
        if series[i].timestamp >= to {
          continue;
        }
        if series[i].timestamp < from {
          break;
        }
        return Some(series[i].bid);
      }
      return None;
    }
  }

  // ----- the emitter ------------------------------------------------------------------------------

  datatype Emitter = Emitter(forming: map<string, Bar>, emitted: set<(string, int)>)

  function Clamp(x: real, low: real, high: real): real
    requires low <= high
  {
    if x < low then low else if x > high then high else x
  }

  function Closed(timeframe: string, bar: Bar, bid: Option<real>): Answer {
    if bid.None? then Emits(Emission(timeframe, bar, true))
    else if bar.low > bar.high then ClampThrows
    else Emits(Emission(timeframe, bar.(close := Clamp(bid.value, bar.low, bar.high)), false))
  }

  /** The emitter after a live bar, and the bar it closed, if any. `length` is the period of
      the timeframe in seconds. */
  function Observation(e: Emitter, timeframe: string, live: Bar, length: nat, series: seq<Spot>)
    : (r: (Emitter, Answer))
    requires Ascending(series)
  {
    if timeframe !in e.forming then (e.(forming := e.forming[timeframe := live]), Nothing)
    else
      var current := e.forming[timeframe];
      if live.timestamp == current.timestamp then (e.(forming := e.forming[timeframe := live]), Nothing)
      else if live.timestamp < current.timestamp then (e, Nothing)
      else if (timeframe, current.timestamp) in e.emitted then (e.(forming := e.forming[timeframe := live]), Nothing)
      else
        var bid := LastBid(series, current.timestamp, current.timestamp + length);
        (Emitter(e.forming[timeframe := live], e.emitted + {(timeframe, current.timestamp)}),
         Closed(timeframe, current, bid))
  }

  class ClosedBarEmitter {
    const spots: SpotHistory
    var forming: map<string, Bar>
    var emitted: set<(string, int)>

    function View(): Emitter
      reads this
    {
      Emitter(forming, emitted)
    }

    constructor (history: SpotHistory)
      ensures spots == history && View() == Emitter(map[], {})
    {
      spots := history;
      forming, emitted := map[], {};
    }

    method Observe(timeframe: string, live: Bar, length: nat) returns (answer: Answer)
      requires Ascending(spots.series)
      modifies this
      ensures (View(), answer) == Observation(old(View()), timeframe, live, length, spots.series)
    {
      if timeframe !in forming {
        forming := forming[timeframe := live];
        return Nothing;
      }
      var current := forming[timeframe];
      if live.timestamp == current.timestamp {
        forming := forming[timeframe := live];
        return Nothing;
      }
      if live.timestamp < current.timestamp {
        return Nothing;
      }
      forming := forming[timeframe := live];
      if (timeframe, current.timestamp) in emitted {
        return Nothing;
      }
      emitted := emitted + {(timeframe, current.timestamp)};
      var bid := spots.TryLastBid(current.timestamp, current.timestamp + length);
      if bid.None? {
        return Emits(Emission(timeframe, current, true));
      }
      if current.low > current.high {
        return ClampThrows;
      }
      var close := Clamp(bid.value, current.low, current.high);
      return Emits(Emission(timeframe, current.(close := close), false));
    }
  }

  // ----- any stream of spots and bars ----------------------------------------------------------------

  datatype Event = SpotSeen(spot: Spot) | BarSeen(timeframe: string, live: Bar, length: nat)
  datatype World = World(series: seq<Spot>, emitter: Emitter)

  function Start(): World { World([], Emitter(map[], {})) }

  function After(w: World, e: Event, retention: nat): (r: World)
    requires Ascending(w.series)
    ensures Ascending(r.series)
  {
    match e
    case SpotSeen(spot) => w.(series := Observed(w.series, spot, retention))
    case BarSeen(timeframe, live, length) =>
      w.(emitter := Observation(w.emitter, timeframe, live, length, w.series).0)
  }

  function Emitted(w: World, e: Event): Answer
    requires Ascending(w.series)
  {
    if e.SpotSeen? then Nothing else Observation(w.emitter, e.timeframe, e.live, e.length, w.series).1
  }

  function Run(events: seq<Event>, retention: nat): (w: World)
    ensures Ascending(w.series)
  {
    if events == [] then Start() else After(Run(events[..|events| - 1], retention), events[|events| - 1], retention)
  }

  /** What event n caused. */
  function EmissionAt(events: seq<Event>, n: nat, retention: nat): Answer
    requires n < |events|
  {
    Emitted(Run(events[..n], retention), events[n])
  }

  /** The last bar seen for a period. */
  function LastUpdate(events: seq<Event>, timeframe: string, timestamp: int): Option<Bar> {
    if events == [] then None
    else
      var e := events[|events| - 1];
      if e.BarSeen? && e.timeframe == timeframe && e.live.timestamp == timestamp then Some(e.live)
      else LastUpdate(events[..|events| - 1], timeframe, timestamp)
  }

  /** Periods emitted so far lie before the forming one, which holds its own last update. */
  predicate InOrder(events: seq<Event>, w: World) {
    && (forall p :: p in w.emitter.emitted ==>
          p.0 in w.emitter.forming && p.1 < w.emitter.forming[p.0].timestamp)
    && forall tf :: tf in w.emitter.forming ==>
         LastUpdate(events, tf, w.emitter.forming[tf].timestamp) == Some(w.emitter.forming[tf])
  }

  lemma StepInOrder(events: seq<Event>, w: World, e: Event, retention: nat)
    requires Ascending(w.series) && InOrder(events, w)
    ensures InOrder(events + [e], After(w, e, retention))
  {
    hide LastBid, Observed;
    var all, after := events + [e], After(w, e, retention);
    assert all[..|events|] == events && all[|events|] == e;
    forall tf | tf in after.emitter.forming
      ensures LastUpdate(all, tf, after.emitter.forming[tf].timestamp) == Some(after.emitter.forming[tf])
    {
      UpdateSnoc(events, e, tf, after.emitter.forming[tf].timestamp);
    }
  }

  lemma UpdateSnoc(events: seq<Event>, e: Event, tf: string, timestamp: int)
    ensures LastUpdate(events + [e], tf, timestamp) ==
      if e.BarSeen? && e.timeframe == tf && e.live.timestamp == timestamp then Some(e.live)
      else LastUpdate(events, tf, timestamp)
  {
    assert (events + [e])[..|events|] == events;
  }

  lemma {:induction false} RunInOrder(events: seq<Event>, retention: nat)
    ensures InOrder(events, Run(events, retention))
  {
    hide InOrder, After;
    if events == [] {
      StartInOrder();
    } else {
      var n := |events| - 1;
      RunInOrder(events[..n], retention);
      StepInOrder(events[..n], Run(events[..n], retention), events[n], retention);
      assert events[..n] + [events[n]] == events;
    }
  }

  lemma StartInOrder()
    ensures InOrder([], Start())
  {}

  /** A newer bar always closes the forming one: the emitted-set refusal never fires, and
      what is emitted is the last update seen for its period, up to its close. The one bar
      lost is that whose last update has its low above its high while a spot is known. */
  lemma NewerBarCloses(events: seq<Event>, n: nat, retention: nat)
    requires n < |events| && events[n].BarSeen?
    ensures
      var e := events[n];
      var w := Run(events[..n], retention);
      var out := EmissionAt(events, n, retention);
      && (out != Nothing <==> e.timeframe in w.emitter.forming
                              && e.live.timestamp > w.emitter.forming[e.timeframe].timestamp)
      && (out != Nothing ==>
            var closing := w.emitter.forming[e.timeframe];
            var bid := LastBid(w.series, closing.timestamp, closing.timestamp + e.length);
            && LastUpdate(events[..n], e.timeframe, closing.timestamp) == Some(closing)
            && (out.ClampThrows? <==> bid.Some? && closing.low > closing.high)
            && (out.Emits? ==>
                  && out.emission.timeframe == e.timeframe
                  && out.emission.bar == closing.(close := out.emission.bar.close)))
  {
    hide LastBid, LastUpdate, Run, Observed;
    RunInOrder(events[..n], retention);
  }

  lemma StepAdvances(w: World, e: Event, tf: string, retention: nat)
    requires Ascending(w.series) && tf in w.emitter.forming
    ensures
      var after := After(w, e, retention);
      tf in after.emitter.forming && w.emitter.forming[tf].timestamp <= after.emitter.forming[tf].timestamp
  {
    hide LastBid, Observed;
  }

  /** The forming bar of a timeframe never moves back. */
  lemma {:induction false} FormingAdvances(events: seq<Event>, m: nat, n: nat, tf: string, retention: nat)
    requires m <= n <= |events| && tf in Run(events[..m], retention).emitter.forming
    ensures tf in Run(events[..n], retention).emitter.forming
    ensures Run(events[..m], retention).emitter.forming[tf].timestamp
            <= Run(events[..n], retention).emitter.forming[tf].timestamp
  {
    hide Run, After;
    if m < n {
      FormingAdvances(events, m, n - 1, tf, retention);
      RunStep(events, n - 1, retention);
      StepAdvances(Run(events[..n - 1], retention), events[n - 1], tf, retention);
    }
  }

  lemma RunStep(events: seq<Event>, n: nat, retention: nat)
    requires n < |events|
    ensures Run(events[..n + 1], retention) == After(Run(events[..n], retention), events[n], retention)
  {
    assert events[..n + 1][..n] == events[..n];
  }

  /** What an emission says about the world before and after it. */
  lemma EmissionMeans(w: World, e: Event, retention: nat)
    requires Ascending(w.series) && Emitted(w, e).Emits?
    ensures
      var out := Emitted(w, e).emission;
      var after := After(w, e, retention);
      && e.BarSeen? && out.timeframe == e.timeframe
      && e.timeframe in w.emitter.forming && out.bar.timestamp == w.emitter.forming[e.timeframe].timestamp
      && e.timeframe in after.emitter.forming
      && out.bar.timestamp < after.emitter.forming[e.timeframe].timestamp
  {
    hide LastBid, Observed;
  }

  /** Emitted bars have strictly increasing timestamps per timeframe. */
  lemma TimestampsIncrease(events: seq<Event>, m: nat, n: nat, retention: nat)
    requires m < n < |events|
    requires EmissionAt(events, m, retention).Emits? && EmissionAt(events, n, retention).Emits?
    requires EmissionAt(events, m, retention).emission.timeframe == EmissionAt(events, n, retention).emission.timeframe
    ensures EmissionAt(events, m, retention).emission.bar.timestamp < EmissionAt(events, n, retention).emission.bar.timestamp
  {
    hide Run, After, Emitted;
    EmissionMeans(Run(events[..m], retention), events[m], retention);
    EmissionMeans(Run(events[..n], retention), events[n], retention);
    RunStep(events, m, retention);
    FormingAdvances(events, m + 1, n, events[m].timeframe, retention);
  }

  // ----- closes from the full history --------------------------------------------------------------------

  /** Every spot ever seen, the last one of a timestamp counting; nothing forgotten. */
  function FullHistory(events: seq<Event>): (series: seq<Spot>)
    ensures Ascending(series)
  {
    if events == [] then []
    else
      var rest, e := FullHistory(events[..|events| - 1]), events[|events| - 1];
      if e.SpotSeen? then Put(rest, e.spot) else rest
  }

  /** The kept series is part of the full one, and all of it from `from` on. */
  predicate KeepsFrom(kept: seq<Spot>, full: seq<Spot>, from: int) {
    && (forall x :: x in kept ==> x in full)
    && forall x :: x in full && x.timestamp >= from ==> x in kept
  }

  predicate SpotsUpTo(events: seq<Event>, latest: int) {
    forall i :: 0 <= i < |events| && events[i].SpotSeen? ==> events[i].spot.timestamp <= latest
  }

  lemma {:induction false} RetentionKeeps(events: seq<Event>, from: int, retention: nat)
    requires SpotsUpTo(events, from + retention)
    ensures KeepsFrom(Run(events, retention).series, FullHistory(events), from)
  {
    if events != [] {
      var n := |events| - 1;
      RetentionKeeps(events[..n], from, retention);
      if events[n].SpotSeen? {
        ObservedKeeps(Run(events[..n], retention).series, FullHistory(events[..n]), events[n].spot, from, retention);
      }
    }
  }

  lemma SameTime(series: seq<Spot>, x: Spot, y: Spot)
    requires Ascending(series) && x in series && y in series && x.timestamp == y.timestamp
    ensures x == y
  {}

  lemma ObservedKeeps(kept: seq<Spot>, full: seq<Spot>, s: Spot, from: int, retention: nat)
    requires Ascending(kept) && Ascending(full) && KeepsFrom(kept, full, from) && s.timestamp <= from + retention
    ensures KeepsFrom(Observed(kept, s, retention), Put(full, s), from)
  {
    hide Put, Pruned;
    forall x
      ensures x in Observed(kept, s, retention) ==> x in Put(full, s)
      ensures x in Put(full, s) && x.timestamp >= from ==> x in Observed(kept, s, retention)
    {
      PutMembers(kept, s, x);
      PutMembers(full, s, x);
    }
  }

  lemma SameLastBid(kept: seq<Spot>, full: seq<Spot>, from: int, to: int)
    requires Ascending(kept) && Ascending(full) && KeepsFrom(kept, full, from)
    ensures LastBid(kept, from, to) == LastBid(full, from, to)
  {
    hide LastBid;
    var a, b := LastBid(kept, from, to), LastBid(full, from, to);
    if a.Some? && b.Some? {
      var x :| x in kept && IsLatest(kept, x, from, to) && x.bid == a.value;
      var z :| z in full && IsLatest(full, z, from, to) && z.bid == b.value;
      SameTime(full, x, z);
    }
  }

  /** The close of an emitted bar is the clamp of the latest bid of its period in the full,
      never pruned history, spots out of order included, whenever the period opens within
      the retention window; only a period without any spot asks for a historical close. */
  lemma CloseIsLatestBid(events: seq<Event>, n: nat, retention: nat)
    requires n < |events| && EmissionAt(events, n, retention).Emits?
    requires SpotsUpTo(events[..n], EmissionAt(events, n, retention).emission.bar.timestamp + retention)
    ensures
      var out := EmissionAt(events, n, retention).emission;
      var from := out.bar.timestamp;
      var bid := LastBid(FullHistory(events[..n]), from, from + events[n].length);
      && (out.requiresHistoricalClose <==> bid.None?)
      && (bid.Some? ==> out.bar.low <= out.bar.high && out.bar.close == Clamp(bid.value, out.bar.low, out.bar.high))
  {
    hide LastBid, FullHistory, Run;
    var from := EmissionAt(events, n, retention).emission.bar.timestamp;
    RetentionKeeps(events[..n], from, retention);
    SameLastBid(Run(events[..n], retention).series, FullHistory(events[..n]), from, from + events[n].length);
  }
}
