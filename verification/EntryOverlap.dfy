/** The entry-corridor reservation of one symbol: one atomic step decides and writes. */
module EntryOverlap {
  import opened Common
  import opened TradePlanModel

  const WINDOW_SECONDS := 2700
  const MAX_RESERVATIONS := 64

  datatype Reservation = Reservation(
    setupId: string, strategy: string, direction: Direction, low: real, high: real, reservedAt: int, quality: real)

  /** PAD_ATR is one, and a negative ATR counts as none. */
  function Pad(atr: real): (pad: real)
    ensures pad >= 0.0
  {
    MaxReal(0.0, atr)
  }

  predicate CorridorsOverlap(low: real, high: real, otherLow: real, otherHigh: real, pad: real) {
    low - pad <= otherHigh && high + pad >= otherLow
  }

  predicate Live(row: Reservation, now: int) { now - row.reservedAt <= WINDOW_SECONDS }

  predicate Blocks(row: Reservation, r: Reservation, pad: real) {
    row.setupId != r.setupId && row.direction == r.direction
    && CorridorsOverlap(r.low, r.high, row.low, row.high, pad)
  }

  // ----- what one reservation step does ---------------------------------------------------

  function LiveRows(rows: seq<Reservation>, now: int): (live: seq<Reservation>)
    ensures forall i :: 0 <= i < |live| ==> Live(live[i], now) && live[i] in rows
    ensures forall r :: r in rows && Live(r, now) ==> r in live
  {
    if rows == [] then []
    else
      var n := |rows| - 1;
      var rest := LiveRows(rows[..n], now);
      if Live(rows[n], now) then rest + [rows[n]] else rest
  }

  function Others(rows: seq<Reservation>, setupId: string): (kept: seq<Reservation>)
    ensures |kept| <= |rows|
    ensures forall i :: 0 <= i < |kept| ==> kept[i].setupId != setupId && kept[i] in rows
    ensures forall r :: r in rows && r.setupId != setupId ==> r in kept
  {
    if rows == [] then []
    else
      var n := |rows| - 1;
      var rest := Others(rows[..n], setupId);
      if rows[n].setupId != setupId then rest + [rows[n]] else rest
  }

  function FirstBlocker(rows: seq<Reservation>, r: Reservation, pad: real, from: nat): (b: Option<Reservation>)
    requires from <= |rows|
    ensures b.Some? ==> b.value in rows && Blocks(b.value, r, pad)
    ensures b.None? ==> forall i :: from <= i < |rows| ==> !Blocks(rows[i], r, pad)
    decreases |rows| - from
  {
    if from == |rows| then None
    else if Blocks(rows[from], r, pad) then Some(rows[from])
    else FirstBlocker(rows, r, pad, from + 1)
  }

  /** The newest rows within the limit. */
  function Newest(rows: seq<Reservation>, limit: nat): seq<Reservation> {
    if |rows| <= limit then rows else rows[|rows| - limit..]
  }

  /** The store after a step and, when the corridor is taken, the row that holds it. */
  datatype Reserved = Reserved(rows: seq<Reservation>, blocker: Option<Reservation>)

  function Reserve(rows: seq<Reservation>, r: Reservation, pad: real): Reserved {
    var live := LiveRows(rows, r.reservedAt);
    var blocker := FirstBlocker(live, r, pad, 0);
    if blocker.Some? then Reserved(rows, blocker)
    else Reserved(Newest(Others(live, r.setupId) + [r], MAX_RESERVATIONS), None)
  }

  function Release(rows: seq<Reservation>, setupId: string): seq<Reservation> { Others(rows, setupId) }

  // ----- the script, its double, and the release -------------------------------------------------

  class Store {
    var rows: seq<Reservation>

    constructor ()
      ensures rows == []
    {
      rows := [];
    }

    /** The server-side script: one round trip decides and writes. */
    method ReserveScript(r: Reservation, pad: real) returns (blocker: Option<Reservation>)
      modifies this
      ensures Reserved(rows, blocker) == Reserve(old(rows), r, pad)
    {
      hide LiveRows, FirstBlocker, Others, Newest;
      var live := ScriptLive(rows, r.reservedAt);
      blocker := ScriptBlocker(live, r, pad);
      if blocker.Some? {
        return;
      }
      var kept := ScriptOthers(live, r.setupId);
      rows := ScriptTrim(kept + [r]);
    }

    /** The client-side double of the script. */
    method ReserveNonAtomic(r: Reservation, atr: real) returns (blocker: Option<Reservation>)
      modifies this
      ensures Reserved(rows, blocker) == Reserve(old(rows), r, Pad(atr))
    {
      hide LiveRows, FirstBlocker, Others;
      var live := LiveRows(rows, r.reservedAt);
      blocker := FindOverlap(live, r, atr, r.reservedAt);
      FirstHolderBlocks(live, r, Pad(atr), r.reservedAt, blocker);
      if blocker.Some? {
        return;
      }
      live := Others(live, r.setupId) + [r];
      rows := if |live| <= MAX_RESERVATIONS then live else live[|live| - MAX_RESERVATIONS..];
    }

    method ReleaseEntryZone(setupId: string)
      modifies this
      ensures rows == Release(old(rows), setupId)
    {
      var kept := Others(rows, setupId);
      if |kept| == |rows| {
        NothingDropped(rows, setupId);
        return;
      }
      rows := kept;
    }
  }

  // The four loops of the script.

  method ScriptLive(rows: seq<Reservation>, now: int) returns (live: seq<Reservation>)
    ensures live == LiveRows(rows, now)
  {
    live := [];
    for i := 0 to |rows|
      invariant live == LiveRows(rows[..i], now)
    {
      assert rows[..i + 1][..i] == rows[..i];
      if now - rows[i].reservedAt <= WINDOW_SECONDS {
        live := live + [rows[i]];
      }
    }
    assert rows[..|rows|] == rows;
  }

  method ScriptBlocker(live: seq<Reservation>, r: Reservation, pad: real) returns (b: Option<Reservation>)
    ensures b == FirstBlocker(live, r, pad, 0)
  {
    for i := 0 to |live|
      invariant FirstBlocker(live, r, pad, 0) == FirstBlocker(live, r, pad, i)
    {
      var row := live[i];
      if row.setupId != r.setupId && row.direction == r.direction
         && r.low - pad <= row.high && r.high + pad >= row.low {
        return Some(row);
      }
    }
    return None;
  }

  method ScriptOthers(live: seq<Reservation>, setupId: string) returns (kept: seq<Reservation>)
    ensures kept == Others(live, setupId)
  {
    kept := [];
    for i := 0 to |live|
      invariant kept == Others(live[..i], setupId)
    {
      assert live[..i + 1][..i] == live[..i];
      if live[i].setupId != setupId {
        kept := kept + [live[i]];
      }
    }
    assert live[..|live|] == live;
  }

  method ScriptTrim(rows: seq<Reservation>) returns (kept: seq<Reservation>)
    ensures kept == Newest(rows, MAX_RESERVATIONS)
  {
    kept := rows;
    while |kept| > MAX_RESERVATIONS
      invariant |kept| <= |rows| && kept == rows[|rows| - |kept|..]
      invariant |kept| >= MAX_RESERVATIONS || kept == rows
    {
      kept := kept[1..];
    }
  }

  /** The row is live and holds a corridor against r. */
  predicate Holds(row: Reservation, r: Reservation, pad: real, now: int) { Live(row, now) && Blocks(row, r, pad) }

  /** First live same-direction reservation of another setup that overlaps; rows outside the
      window are passed over. */
  method FindOverlap(rows: seq<Reservation>, r: Reservation, atr: real, now: int) returns (b: Option<Reservation>)
    ensures b.Some? ==> exists i :: 0 <= i < |rows| && rows[i] == b.value && Holds(rows[i], r, Pad(atr), now)
                                    && forall k :: 0 <= k < i ==> !Holds(rows[k], r, Pad(atr), now)
    ensures b.None? ==> forall i :: 0 <= i < |rows| ==> !Holds(rows[i], r, Pad(atr), now)
  {
    for i := 0 to |rows|
      invariant forall k :: 0 <= k < i ==> !Holds(rows[k], r, Pad(atr), now)
    {
      var item := rows[i];
      if item.setupId == r.setupId || item.direction != r.direction {
        continue;
      }
      if now - item.reservedAt > WINDOW_SECONDS {
        continue;
      }
      if CorridorsOverlap(r.low, r.high, item.low, item.high, Pad(atr)) {
        return Some(item);
      }
    }
    return None;
  }

  /** Among live rows the first one that holds the corridor is the first blocker. */
  lemma FirstHolderBlocks(rows: seq<Reservation>, r: Reservation, pad: real, now: int, b: Option<Reservation>)
    requires forall i :: 0 <= i < |rows| ==> Live(rows[i], now)
    requires b.Some? ==> exists i :: 0 <= i < |rows| && rows[i] == b.value && Holds(rows[i], r, pad, now)
                                     && forall k :: 0 <= k < i ==> !Holds(rows[k], r, pad, now)
    requires b.None? ==> forall i :: 0 <= i < |rows| ==> !Holds(rows[i], r, pad, now)
    ensures b == FirstBlocker(rows, r, pad, 0)
  {
    hide Blocks, Live;
    var n := if b.Some? then FirstAt(rows, r, pad, now, b.value) else |rows|;
    SkipsUnblocking(rows, r, pad, 0, n);
  }

  ghost function FirstAt(rows: seq<Reservation>, r: Reservation, pad: real, now: int, b: Reservation): (i: nat)
    requires exists i :: 0 <= i < |rows| && rows[i] == b && Holds(rows[i], r, pad, now)
                         && forall k :: 0 <= k < i ==> !Holds(rows[k], r, pad, now)
    ensures i < |rows| && rows[i] == b && Holds(rows[i], r, pad, now)
    ensures forall k :: 0 <= k < i ==> !Holds(rows[k], r, pad, now)
  {
    var i :| 0 <= i < |rows| && rows[i] == b && Holds(rows[i], r, pad, now)
             && forall k :: 0 <= k < i ==> !Holds(rows[k], r, pad, now);
    i
  }

  lemma {:induction false} SkipsUnblocking(rows: seq<Reservation>, r: Reservation, pad: real, from: nat, upto: nat)
    requires from <= upto <= |rows| && forall k :: from <= k < upto ==> !Blocks(rows[k], r, pad)
    ensures FirstBlocker(rows, r, pad, from) == FirstBlocker(rows, r, pad, upto)
    decreases upto - from
  {
    if from < upto {
      SkipsUnblocking(rows, r, pad, from + 1, upto);
    }
  }

  lemma {:induction false} NothingDropped(rows: seq<Reservation>, setupId: string)
    requires |Others(rows, setupId)| == |rows|
    ensures Others(rows, setupId) == rows
  {
    if rows != [] {
      NothingDropped(rows[..|rows| - 1], setupId);
    }
  }

  // ----- what every store keeps --------------------------------------------------------------------

  /** One row per setup, no more than the limit, no two corridors of a direction touching. */
  predicate WellKept(rows: seq<Reservation>) {
    && |rows| <= MAX_RESERVATIONS && Disjoint(rows)
  }

  predicate Disjoint(rows: seq<Reservation>) {
    forall i, j :: 0 <= i < j < |rows| ==> Apart(rows[i], rows[j])
  }

  predicate Apart(a: Reservation, b: Reservation) {
    a.setupId != b.setupId
    && (a.direction == b.direction ==> !CorridorsOverlap(a.low, a.high, b.low, b.high, 0.0))
  }

  lemma {:induction false} LiveDisjoint(rows: seq<Reservation>, now: int)
    requires Disjoint(rows)
    ensures Disjoint(LiveRows(rows, now))
  {
    hide Apart, Live;
    if rows != [] {
      var n := |rows| - 1;
      LiveDisjoint(rows[..n], now);
      var rest := LiveRows(rows[..n], now);
      forall i | 0 <= i < |rest|
        ensures Apart(rest[i], rows[n])
      {
        assert rest[i] in rows[..n];
      }
    }
  }

  lemma {:induction false} OthersDisjoint(rows: seq<Reservation>, setupId: string)
    requires Disjoint(rows)
    ensures Disjoint(Others(rows, setupId))
  {
    hide Apart;
    if rows != [] {
      var n := |rows| - 1;
      OthersDisjoint(rows[..n], setupId);
      var rest := Others(rows[..n], setupId);
      forall i | 0 <= i < |rest|
        ensures Apart(rest[i], rows[n])
      {
        assert rest[i] in rows[..n];
      }
    }
  }

  /** A granted corridor stands clear of every live reservation, padded or not. */
  lemma GrantedIsApart(row: Reservation, r: Reservation, pad: real)
    requires pad >= 0.0 && row.setupId != r.setupId && !Blocks(row, r, pad)
    ensures Apart(row, r)
  {}

  /** Whatever the workers' clocks say, a reservation step leaves a well-kept store. */
  lemma ReserveKeepsStore(rows: seq<Reservation>, r: Reservation, pad: real)
    requires WellKept(rows) && pad >= 0.0
    ensures WellKept(Reserve(rows, r, pad).rows)
  {
    hide Apart, Blocks, Live;
    var live := LiveRows(rows, r.reservedAt);
    if FirstBlocker(live, r, pad, 0).None? {
      LiveDisjoint(rows, r.reservedAt);
      OthersDisjoint(live, r.setupId);
      var kept := Others(live, r.setupId);
      forall i | 0 <= i < |kept|
        ensures Apart(kept[i], r)
      {
        var k :| 0 <= k < |live| && live[k] == kept[i];
        GrantedIsApart(kept[i], r, pad);
      }
      assert Disjoint(kept + [r]);
    }
  }

  // ----- any history ------------------------------------------------------------------------------------

  /** `Expired` is the key's own time-out, which outlives every row's window. */
  datatype Op =
    | ReserveOp(r: Reservation, pad: real)
    | ReleaseOp(setupId: string, at: int)
    | Expired(at: int)

  function Time(op: Op): int { if op.ReserveOp? then op.r.reservedAt else op.at }

  function After(rows: seq<Reservation>, op: Op): seq<Reservation> {
    match op
    case ReserveOp(r, pad) => Reserve(rows, r, pad).rows
    case ReleaseOp(setupId, _) => Release(rows, setupId)
    case Expired(at) => if forall i :: 0 <= i < |rows| ==> !Live(rows[i], at) then [] else rows
  }

  function StoreAt(ops: seq<Op>, n: nat): seq<Reservation>
    requires n <= |ops|
  {
    if n == 0 then [] else After(StoreAt(ops, n - 1), ops[n - 1])
  }

  predicate Padded(ops: seq<Op>) { forall i :: 0 <= i < |ops| && ops[i].ReserveOp? ==> ops[i].pad >= 0.0 }

  lemma {:induction false} EveryStoreWellKept(ops: seq<Op>, n: nat)
    requires n <= |ops| && Padded(ops)
    ensures WellKept(StoreAt(ops, n))
  {
    hide Reserve, Apart;
    if n > 0 {
      EveryStoreWellKept(ops, n - 1);
      match ops[n - 1]
      case ReserveOp(r, pad) => ReserveKeepsStore(StoreAt(ops, n - 1), r, pad);
      case ReleaseOp(setupId, _) => OthersDisjoint(StoreAt(ops, n - 1), setupId);
      case Expired(_) =>
    }
  }

  predicate Granted(ops: seq<Op>, i: nat)
    requires i < |ops|
  {
    ops[i].ReserveOp? && Reserve(StoreAt(ops, i), ops[i].r, ops[i].pad).blocker.None?
  }

  predicate TimeFlows(ops: seq<Op>) { forall i, j :: 0 <= i <= j < |ops| ==> Time(ops[i]) <= Time(ops[j]) }

  /** Granting r leaves more rows than the limit, and the row is not among the newest. */
  predicate Evicts(rows: seq<Reservation>, r: Reservation, row: Reservation) {
    var kept := Others(LiveRows(rows, r.reservedAt), r.setupId) + [r];
    |kept| > MAX_RESERVATIONS && row !in Newest(kept, MAX_RESERVATIONS)
  }

  /** Step k takes the row away before its window ends: its setup is released or reserves
      again, or a grant pushes this very row over the limit. */
  predicate Displaces(ops: seq<Op>, k: nat, row: Reservation)
    requires k < |ops|
  {
    match ops[k]
    case ReserveOp(r, _) =>
      Granted(ops, k) && (r.setupId == row.setupId || Evicts(StoreAt(ops, k), r, row))
    case ReleaseOp(setupId, _) => setupId == row.setupId
    case Expired(_) => false
  }

  /** A live row survives any step that does not displace it. */
  lemma RowSurvives(ops: seq<Op>, k: nat, row: Reservation)
    requires k < |ops| && row in StoreAt(ops, k) && Live(row, Time(ops[k])) && !Displaces(ops, k, row)
    ensures row in StoreAt(ops, k + 1)
  {
    hide StoreAt, Live, Blocks;
    StoreStep(ops, k);
    var rows := StoreAt(ops, k);
    match ops[k]
    case ReserveOp(r, pad) =>
      if FirstBlocker(LiveRows(rows, r.reservedAt), r, pad, 0).None? {
        assert row in Others(LiveRows(rows, r.reservedAt), r.setupId);
      }
    case ReleaseOp(setupId, _) =>
    case Expired(_) =>
  }

  lemma StoreStep(ops: seq<Op>, k: nat)
    requires k < |ops|
    ensures StoreAt(ops, k + 1) == After(StoreAt(ops, k), ops[k])
  {}

  lemma GrantStores(ops: seq<Op>, i: nat)
    requires i < |ops| && Granted(ops, i)
    ensures ops[i].r in StoreAt(ops, i + 1)
  {
    StoreStep(ops, i);
    var kept := Others(LiveRows(StoreAt(ops, i), ops[i].r.reservedAt), ops[i].r.setupId) + [ops[i].r];
    assert kept[|kept| - 1] == ops[i].r;
    var newest := Newest(kept, MAX_RESERVATIONS);
    assert newest[|newest| - 1] == ops[i].r;
  }

  lemma {:induction false} RowStays(ops: seq<Op>, i: nat, m: nat)
    requires i < m <= |ops| && Granted(ops, i)
    requires forall k :: i < k < m ==> Live(ops[i].r, Time(ops[k])) && !Displaces(ops, k, ops[i].r)
    ensures ops[i].r in StoreAt(ops, m)
  {
    hide Live, Displaces, Reserve, StoreAt;
    if m == i + 1 {
      GrantStores(ops, i);
    } else {
      RowStays(ops, i, m - 1);
      RowSurvives(ops, m - 1, ops[i].r);
    }
  }

  /** The 45-minute rule. While time does not run backwards, two grants of overlapping
      corridors in one direction to different setups are more than the window apart, unless
      the first was released, re-reserved or itself pushed out in between. */
  lemma OverlappingGrantsAreApart(ops: seq<Op>, i: nat, j: nat)
    requires i < j < |ops| && TimeFlows(ops) && Granted(ops, i) && Granted(ops, j)
    requires Blocks(ops[i].r, ops[j].r, ops[j].pad)
    ensures Time(ops[j]) - Time(ops[i]) > WINDOW_SECONDS || exists k :: i < k < j && Displaces(ops, k, ops[i].r)
  {
    hide Displaces, StoreAt, Blocks;
    if Time(ops[j]) - Time(ops[i]) <= WINDOW_SECONDS && !exists k :: i < k < j && Displaces(ops, k, ops[i].r) {
      forall k | i < k < j
        ensures Live(ops[i].r, Time(ops[k])) && !Displaces(ops, k, ops[i].r)
      {
        assert Time(ops[k]) <= Time(ops[j]);
      }
      RowStays(ops, i, j);
      GrantSeesNoBlocker(ops, j, ops[i].r);
    }
  }

  lemma GrantSeesNoBlocker(ops: seq<Op>, j: nat, row: Reservation)
    requires j < |ops| && Granted(ops, j) && row in StoreAt(ops, j) && Live(row, Time(ops[j]))
    ensures !Blocks(row, ops[j].r, ops[j].pad)
  {
    hide StoreAt, Blocks, Live;
    assert row in LiveRows(StoreAt(ops, j), ops[j].r.reservedAt);
  }
}
