/** The opportunity ledger behind an at-least-once log: idempotent rows, terminal
    tombstones, and a consumer that commits an offset only after it was handled. */
module OpportunityLedger {
  import opened Common

  datatype Position = Position(topic: string, partition: int, offset: nat)

  datatype Event =
    | Creation(eventId: string, opportunity: string)
    | Terminal(eventId: string, opportunity: string, setupExpired: bool)

  /** What a log record carries. Poison does not parse; an arbitration decision never touches
      the ledger. */
  datatype Record = Fact(event: Event) | Decision | Poison

  datatype State = Active | Invalidated | Expired
  datatype Disposition =
    | Created | LateCreationRejected | DuplicateOpportunity
    | TerminalTombstoned | Terminated | DuplicateTerminal
  datatype Row = Row(state: State, creationEvent: Option<string>, terminalEvent: Option<string>)

  /** The durable tables. */
  datatype Ledger = Ledger(
    events: map<string, Disposition>, positions: set<Position>, rows: map<string, Row>, rejections: set<Position>)

  function EmptyLedger(): Ledger { Ledger(map[], {}, map[], {}) }

  function TerminalState(e: Event): State
    requires e.Terminal?
  {
    if e.setupExpired then Expired else Invalidated
  }

  // ----- one transaction --------------------------------------------------------------------

  function DispositionOf(ledger: Ledger, e: Event): Disposition {
    var known := e.opportunity in ledger.rows;
    if e.Creation? then
      if !known then Created
      else if ledger.rows[e.opportunity].state != Active then LateCreationRejected else DuplicateOpportunity
    else
      if !known then TerminalTombstoned
      else if ledger.rows[e.opportunity].state == Active then Terminated else DuplicateTerminal
  }

  function RowsAfter(ledger: Ledger, e: Event): map<string, Row> {
    match DispositionOf(ledger, e)
    case Created => ledger.rows[e.opportunity := Row(Active, Some(e.eventId), None)]
    case TerminalTombstoned =>
      if e.Terminal? then ledger.rows[e.opportunity := Row(TerminalState(e), None, Some(e.eventId))] else ledger.rows
    case Terminated =>
      if e.Terminal? && e.opportunity in ledger.rows
      then ledger.rows[e.opportunity := ledger.rows[e.opportunity].(
             state := TerminalState(e), terminalEvent := Some(e.eventId))]
      else ledger.rows
    case _ => ledger.rows
  }

  function ApplyFact(ledger: Ledger, e: Event, at: Position): Ledger {
    if e.eventId in ledger.events || at in ledger.positions then ledger
    else
      ledger.(events := ledger.events[e.eventId := DispositionOf(ledger, e)],
              positions := ledger.positions + {at}, rows := RowsAfter(ledger, e))
  }

  function Handle(ledger: Ledger, r: Record, at: Position): Ledger {
    match r
    case Fact(e) => ApplyFact(ledger, e, at)
    case Decision => ledger
    case Poison => ledger.(rejections := ledger.rejections + {at})
  }

  class Repository {
    var events: map<string, Disposition>
    var positions: set<Position>
    var rows: map<string, Row>
    var rejections: set<Position>

    function View(): Ledger
      reads this
    {
      Ledger(events, positions, rows, rejections)
    }

    constructor ()
      ensures View() == EmptyLedger()
    {
      events, positions, rows, rejections := map[], {}, map[], {};
    }

    /** One transaction: the event row is the delivery fence, the opportunity row the state.
        None is a duplicate delivery. */
    method ApplyEvent(e: Event, at: Position) returns (disposition: Option<Disposition>)
      modifies this
      ensures View() == ApplyFact(old(View()), e, at)
      ensures disposition == if e.eventId in old(events) || at in old(positions) then None
                             else Some(DispositionOf(old(View()), e))
    {
      if e.eventId in events || at in positions {
        return None;
      }
      var result: Disposition;
      var known := e.opportunity in rows;
      match e {
        case Creation(eventId, opportunity) =>
          if !known {
            result := Created;
            rows := rows[opportunity := Row(Active, Some(eventId), None)];
          } else if rows[opportunity].state != Active {
            result := LateCreationRejected;
          } else {
            result := DuplicateOpportunity;
          }
        case Terminal(eventId, opportunity, _) =>
          if !known {
            result := TerminalTombstoned;
            rows := rows[opportunity := Row(TerminalState(e), None, Some(eventId))];
          } else if rows[opportunity].state == Active {
            result := Terminated;
            rows := rows[opportunity := rows[opportunity].(
              state := TerminalState(e), terminalEvent := Some(eventId))];
          } else {
            result := DuplicateTerminal;
          }
      }
      events := events[e.eventId := result];
      positions := positions + {at};
      return Some(result);
    }

    method ProcessRecord(r: Record, at: Position)
      modifies this
      ensures View() == Handle(old(View()), r, at)
    {
      match r
      case Fact(e) => var d := ApplyEvent(e, at);
      case Decision =>
      case Poison => rejections := rejections + {at};
    }
  }

  // ----- the consumer ---------------------------------------------------------------------------

  /** The log: per topic-partition the records in offset order. */
  type Log = map<(string, int), seq<Record>>

  datatype World = World(ledger: Ledger, committed: map<(string, int), nat>)

  /** One delivery of the next uncommitted record of a partition. It may fail before the
      ledger transaction, or after it (in the policy, or before the offset is committed);
      then the record is delivered again. */
  datatype Delivery = Delivery(partition: (string, int), applied: bool, committed: bool)

  function Offset(w: World, p: (string, int)): nat { if p in w.committed then w.committed[p] else 0 }

  predicate Delivers(log: Log, w: World, d: Delivery) { d.partition in log && Offset(w, d.partition) < |log[d.partition]| }

  function PositionOf(p: (string, int), offset: nat): Position { Position(p.0, p.1, offset) }

  function Deliver(log: Log, w: World, d: Delivery): World {
    if !Delivers(log, w, d) || !d.applied then w
    else
      var n := Offset(w, d.partition);
      var handled := w.(ledger := Handle(w.ledger, log[d.partition][n], PositionOf(d.partition, n)));
      if d.committed then handled.(committed := w.committed[d.partition := n + 1]) else handled
  }

  function Consume(log: Log, schedule: seq<Delivery>): World {
    if schedule == [] then World(EmptyLedger(), map[])
    else Deliver(log, Consume(log, schedule[..|schedule| - 1]), schedule[|schedule| - 1])
  }

  /** The loop: read, handle, and only then commit. */
  method RunConsumerLoop(log: Log, schedule: seq<Delivery>) returns (repository: Repository, committed: map<(string, int), nat>)
    ensures World(repository.View(), committed) == Consume(log, schedule)
  {
    hide Handle;
    repository := new Repository();
    committed := map[];
    for i := 0 to |schedule|
      invariant fresh(repository) && World(repository.View(), committed) == Consume(log, schedule[..i])
    {
      assert schedule[..i + 1][..i] == schedule[..i];
      var d := schedule[i];
      var offset := if d.partition in committed then committed[d.partition] else 0;
      if d.partition in log && offset < |log[d.partition]| && d.applied {
        repository.ProcessRecord(log[d.partition][offset], PositionOf(d.partition, offset));
        if d.committed {
          committed := committed[d.partition := offset + 1];
        }
      }
    }
    assert schedule[..|schedule|] == schedule;
  }

  // ----- every schedule ends like a crash-free one ----------------------------------------------

  datatype Placed = Placed(record: Record, at: Position)

  /** The ledger after handling each record once, in this order. */
  function Fold(records: seq<Placed>): Ledger {
    if records == [] then EmptyLedger()
    else
      var n := |records| - 1;
      Handle(Fold(records[..n]), records[n].record, records[n].at)
  }

  lemma HandleTwice(ledger: Ledger, r: Record, at: Position)
    ensures Handle(Handle(ledger, r, at), r, at) == Handle(ledger, r, at)
  {}

  /** A handled record leaves its mark for good. */
  predicate Marked(ledger: Ledger, r: Record, at: Position) { Handle(ledger, r, at) == ledger }

  lemma MarkStays(ledger: Ledger, r: Record, at: Position, other: Record, otherAt: Position)
    requires Marked(ledger, r, at)
    ensures Marked(Handle(ledger, other, otherAt), r, at)
  {}

  /** First applications of a run, in order: the crash-free log it amounts to. */
  function FirstApplications(log: Log, schedule: seq<Delivery>): seq<Placed> {
    if schedule == [] then []
    else
      var earlier := schedule[..|schedule| - 1];
      var w, d := Consume(log, earlier), schedule[|schedule| - 1];
      var before := FirstApplications(log, earlier);
      if !Delivers(log, w, d) || !d.applied then before
      else
        var n := Offset(w, d.partition);
        var p := Placed(log[d.partition][n], PositionOf(d.partition, n));
        if p in before then before else before + [p]
  }

  /** Records of one partition among the applications. */
  function OfPartition(records: seq<Placed>, p: (string, int)): seq<Placed> {
    if records == [] then []
    else
      var n := |records| - 1;
      var rest := OfPartition(records[..n], p);
      if records[n].at.topic == p.0 && records[n].at.partition == p.1 then rest + [records[n]] else rest
  }

  function Prefix(log: Log, p: (string, int), n: nat): (r: seq<Placed>)
    requires p in log && n <= |log[p]|
    ensures |r| == n && forall i :: 0 <= i < n ==> r[i] == Placed(log[p][i], PositionOf(p, i))
  {
    seq(n, i requires 0 <= i < n => Placed(log[p][i], PositionOf(p, i)))
  }

  /** Everything committed of a partition has been applied, and perhaps one record more. */
  predicate InStepOn(log: Log, w: World, done: seq<Placed>, p: (string, int))
    requires p in log && Offset(w, p) <= |log[p]|
  {
    || OfPartition(done, p) == Prefix(log, p, Offset(w, p))
    || (Offset(w, p) < |log[p]| && OfPartition(done, p) == Prefix(log, p, Offset(w, p) + 1))
  }

  predicate InStep(log: Log, w: World, done: seq<Placed>) {
    && w.ledger == Fold(done)
    && (forall i :: 0 <= i < |done| ==> Marked(w.ledger, done[i].record, done[i].at))
    && forall p :: p in log ==> Offset(w, p) <= |log[p]| && InStepOn(log, w, done, p)
  }

  lemma {:induction false} OfPartitionMember(records: seq<Placed>, p: (string, int), x: Placed)
    ensures x in OfPartition(records, p) <==> x in records && x.at.topic == p.0 && x.at.partition == p.1
  {
    if records != [] {
      OfPartitionMember(records[..|records| - 1], p, x);
      assert records == records[..|records| - 1] + [records[|records| - 1]];
    }
  }

  lemma OfPartitionSnoc(records: seq<Placed>, x: Placed, p: (string, int))
    ensures OfPartition(records + [x], p)
         == OfPartition(records, p) + if x.at.topic == p.0 && x.at.partition == p.1 then [x] else []
  {
    assert (records + [x])[..|records|] == records;
  }

  /** The record to deliver next is either the one already applied, or new. */
  lemma NextRecord(log: Log, w: World, done: seq<Placed>, p: (string, int))
    requires p in log && Offset(w, p) < |log[p]| && InStepOn(log, w, done, p)
    ensures
      var n := Offset(w, p);
      var x := Placed(log[p][n], PositionOf(p, n));
      OfPartition(done, p) == if x in done then Prefix(log, p, n + 1) else Prefix(log, p, n)
  {
    var n := Offset(w, p);
    var x := Placed(log[p][n], PositionOf(p, n));
    OfPartitionMember(done, p, x);
    if OfPartition(done, p) == Prefix(log, p, n + 1) {
      assert Prefix(log, p, n + 1)[n] == x;
    }
  }

  /** The delivered partition moves on by the one record. */
  lemma DeliveredPartition(log: Log, w: World, done: seq<Placed>, d: Delivery)
    requires d.partition in log && Offset(w, d.partition) < |log[d.partition]| && d.applied
    requires InStepOn(log, w, done, d.partition)
    ensures
      var n := Offset(w, d.partition);
      var x := Placed(log[d.partition][n], PositionOf(d.partition, n));
      var t := Deliver(log, w, d);
      Offset(t, d.partition) <= |log[d.partition]|
      && InStepOn(log, t, if x in done then done else done + [x], d.partition)
  {
    hide Handle, OfPartition, InStepOn;
    var p, n := d.partition, Offset(w, d.partition);
    var x := Placed(log[p][n], PositionOf(p, n));
    OfPartitionSnoc(done, x, p);
    NextRecord(log, w, done, p);
    assert Prefix(log, p, n) + [x] == Prefix(log, p, n + 1);
    InStepAt(log, Deliver(log, w, d), if x in done then done else done + [x], p);
  }

  lemma InStepAt(log: Log, w: World, done: seq<Placed>, p: (string, int))
    requires p in log && Offset(w, p) <= |log[p]|
    requires OfPartition(done, p) == Prefix(log, p, Offset(w, p))
             || (Offset(w, p) < |log[p]| && OfPartition(done, p) == Prefix(log, p, Offset(w, p) + 1))
    ensures InStepOn(log, w, done, p)
  {}

  /** Every other partition stays where it was. */
  lemma OtherPartition(log: Log, w: World, t: World, done: seq<Placed>, x: Placed, p: (string, int))
    requires p in log && Offset(w, p) <= |log[p]| && InStepOn(log, w, done, p) && Offset(t, p) == Offset(w, p)
    requires x.at.topic != p.0 || x.at.partition != p.1
    ensures InStepOn(log, t, done, p) && InStepOn(log, t, done + [x], p)
  {
    hide OfPartition;
    OfPartitionSnoc(done, x, p);
  }

  lemma AppliedKeepsPartition(log: Log, w: World, done: seq<Placed>, d: Delivery, p: (string, int))
    requires InStep(log, w, done) && Delivers(log, w, d) && d.applied && p in log
    ensures
      var n := Offset(w, d.partition);
      var x := Placed(log[d.partition][n], PositionOf(d.partition, n));
      var t := Deliver(log, w, d);
      Offset(t, p) <= |log[p]| && InStepOn(log, t, if x in done then done else done + [x], p)
  {
    hide Handle, Marked, Fold, InStepOn;
    var n := Offset(w, d.partition);
    var x := Placed(log[d.partition][n], PositionOf(d.partition, n));
    if p == d.partition {
      DeliveredPartition(log, w, done, d);
    } else {
      assert d.partition == (d.partition.0, d.partition.1) && p == (p.0, p.1);
      OtherPartition(log, w, Deliver(log, w, d), done, x, p);
    }
  }

  lemma DeliverKeepsStep(log: Log, w: World, done: seq<Placed>, d: Delivery)
    requires InStep(log, w, done) && Delivers(log, w, d) && d.applied
    ensures
      var n := Offset(w, d.partition);
      var x := Placed(log[d.partition][n], PositionOf(d.partition, n));
      InStep(log, Deliver(log, w, d), if x in done then done else done + [x])
  {
    hide InStepOn, Handle, Marked, OfPartition;
    var n := Offset(w, d.partition);
    var x := Placed(log[d.partition][n], PositionOf(d.partition, n));
    var t := Deliver(log, w, d);
    var after := if x in done then done else done + [x];
    forall p | p in log
      ensures Offset(t, p) <= |log[p]| && InStepOn(log, t, after, p)
    {
      AppliedKeepsPartition(log, w, done, d, p);
    }
    HandledIsMarked(w.ledger, x.record, x.at);
    if x in done {
      var i :| 0 <= i < |done| && done[i] == x;
      MarkedMeans(w.ledger, x.record, x.at);
    } else {
      assert (done + [x])[..|done|] == done;
      forall i | 0 <= i < |done|
        ensures Marked(t.ledger, done[i].record, done[i].at)
      {
        MarkStays(w.ledger, done[i].record, done[i].at, x.record, x.at);
      }
    }
  }

  lemma HandledIsMarked(ledger: Ledger, r: Record, at: Position)
    ensures Marked(Handle(ledger, r, at), r, at)
  {
    HandleTwice(ledger, r, at);
  }

  lemma MarkedMeans(ledger: Ledger, r: Record, at: Position)
    requires Marked(ledger, r, at)
    ensures Handle(ledger, r, at) == ledger
  {}

  lemma {:induction false} ConsumeInStep(log: Log, schedule: seq<Delivery>)
    ensures InStep(log, Consume(log, schedule), FirstApplications(log, schedule))
  {
    hide InStep, Deliver, Handle;
    if schedule == [] {
      StartInStep(log);
    } else {
      var earlier, d := schedule[..|schedule| - 1], schedule[|schedule| - 1];
      var w := Consume(log, earlier);
      ConsumeInStep(log, earlier);
      if Delivers(log, w, d) && d.applied {
        DeliverKeepsStep(log, w, FirstApplications(log, earlier), d);
      } else {
        Undelivered(log, w, d);
      }
    }
  }

  lemma StartInStep(log: Log)
    ensures InStep(log, World(EmptyLedger(), map[]), [])
  {
    forall p | p in log
      ensures InStepOn(log, World(EmptyLedger(), map[]), [], p)
    {
      assert Prefix(log, p, 0) == [];
    }
  }

  lemma Undelivered(log: Log, w: World, d: Delivery)
    requires !Delivers(log, w, d) || !d.applied
    ensures Deliver(log, w, d) == w
  {}

  /** Crashes and redeliveries leave no trace. Whatever the schedule, the ledger is the
      crash-free fold over the records in the order they were first applied, and that order
      takes every partition from its start, record by record, exactly once, up to what was
      committed or one past it. */
  lemma LedgerIsCrashFreeFold(log: Log, schedule: seq<Delivery>, p: (string, int))
    requires p in log
    ensures
      var w := Consume(log, schedule);
      var records := FirstApplications(log, schedule);
      && w.ledger == Fold(records)
      && Offset(w, p) <= |log[p]|
      && (|| OfPartition(records, p) == Prefix(log, p, Offset(w, p))
          || (Offset(w, p) < |log[p]| && OfPartition(records, p) == Prefix(log, p, Offset(w, p) + 1)))
  {
    hide Consume, FirstApplications;
    ConsumeInStep(log, schedule);
  }

  // ----- states -----------------------------------------------------------------------------------------

  /** A terminal row is never touched again. */
  lemma TerminalIsFinal(ledger: Ledger, r: Record, at: Position, o: string)
    requires o in ledger.rows && ledger.rows[o].state != Active
    ensures
      var after := Handle(ledger, r, at);
      o in after.rows && after.rows[o] == ledger.rows[o]
  {}

  /** ... over any continuation of any schedule. */
  lemma {:induction false} TerminalStaysFinal(log: Log, schedule: seq<Delivery>, more: seq<Delivery>, o: string)
    requires
      var l := Consume(log, schedule).ledger;
      o in l.rows && l.rows[o].state != Active
    ensures
      var after := Consume(log, schedule + more).ledger;
      o in after.rows && after.rows[o] == Consume(log, schedule).ledger.rows[o]
  {
    hide Handle;
    if more == [] {
      assert schedule + more == schedule;
    } else {
      var m := |more| - 1;
      TerminalStaysFinal(log, schedule, more[..m], o);
      assert (schedule + more)[..|schedule + more| - 1] == schedule + more[..m];
      var w, d := Consume(log, schedule + more[..m]), more[m];
      if Delivers(log, w, d) {
        var n := Offset(w, d.partition);
        TerminalIsFinal(w.ledger, log[d.partition][n], PositionOf(d.partition, n), o);
      }
    }
  }

  predicate HasFact(records: seq<Placed>, e: Event) {
    exists i :: 0 <= i < |records| && records[i].record == Fact(e)
  }

  predicate CreatedIn(records: seq<Placed>, o: string) {
    exists i :: 0 <= i < |records| && records[i].record.Fact? && records[i].record.event.Creation?
                && records[i].record.event.opportunity == o
  }

  predicate EndedIn(records: seq<Placed>, o: string) {
    exists i :: 0 <= i < |records| && records[i].record.Fact? && records[i].record.event.Terminal?
                && records[i].record.event.opportunity == o
  }

  // ----- exactly what makes an opportunity active ----------------------------------------------

  /** The ledger takes record k in: neither its event id nor its position was taken before. */
  predicate Accepted(records: seq<Placed>, k: nat)
    requires k < |records|
  {
    && records[k].record.Fact?
    && records[k].record.event.eventId !in Fold(records[..k]).events
    && records[k].at !in Fold(records[..k]).positions
  }

  predicate AcceptedCreation(records: seq<Placed>, o: string) {
    exists k :: 0 <= k < |records| && Accepted(records, k)
                && records[k].record.event.Creation? && records[k].record.event.opportunity == o
  }

  predicate AcceptedEnd(records: seq<Placed>, o: string) {
    exists k :: 0 <= k < |records| && Accepted(records, k)
                && records[k].record.event.Terminal? && records[k].record.event.opportunity == o
  }

  /** What the ledger says about one opportunity. */
  predicate Faithful(ledger: Ledger, o: string, created: bool, ended: bool) {
    && (o in ledger.rows <==> created || ended)
    && (o in ledger.rows ==> (ledger.rows[o].state == Active <==> created && !ended))
  }

  lemma AcceptedSnoc(records: seq<Placed>, x: Placed, o: string)
    ensures
      var taken := x.record.Fact? && x.record.event.eventId !in Fold(records).events
                    && x.at !in Fold(records).positions && x.record.event.opportunity == o;
      && (AcceptedCreation(records + [x], o) <==> AcceptedCreation(records, o) || (taken && x.record.event.Creation?))
      && (AcceptedEnd(records + [x], o) <==> AcceptedEnd(records, o) || (taken && x.record.event.Terminal?))
  {
    hide Fold;
    var all := records + [x];
    assert all[..|records|] == records && all[|records|] == x;
    forall k | 0 <= k < |records|
      ensures all[k] == records[k] && (Accepted(all, k) <==> Accepted(records, k))
    {
      assert all[..k] == records[..k];
    }
  }

  lemma FaithfulStep(ledger: Ledger, x: Placed, o: string, created: bool, ended: bool)
    requires Faithful(ledger, o, created, ended)
    ensures
      var taken := x.record.Fact? && x.record.event.eventId !in ledger.events
                    && x.at !in ledger.positions && x.record.event.opportunity == o;
      Faithful(Handle(ledger, x.record, x.at), o,
        created || (taken && x.record.event.Creation?), ended || (taken && x.record.event.Terminal?))
  {}

  /** For every sequence of records whatever their ids: the ledger knows an opportunity
      exactly when it took in an event of it, and it is active exactly when it took in a
      creation and no terminal. */
  lemma {:induction false} FoldIsFaithful(records: seq<Placed>, o: string)
    ensures Faithful(Fold(records), o, AcceptedCreation(records, o), AcceptedEnd(records, o))
  {
    hide Handle, Faithful, AcceptedCreation, AcceptedEnd;
    if records == [] {
      NothingAccepted(o);
    } else {
      var n := |records| - 1;
      FoldIsFaithful(records[..n], o);
      assert records == records[..n] + [records[n]];
      AcceptedSnoc(records[..n], records[n], o);
      FaithfulStep(Fold(records[..n]), records[n], o,
        AcceptedCreation(records[..n], o), AcceptedEnd(records[..n], o));
    }
  }

  lemma NothingAccepted(o: string)
    ensures Faithful(EmptyLedger(), o, AcceptedCreation([], o), AcceptedEnd([], o))
  {}

  /** In whatever order the records arrived, with crashes and redeliveries and whatever ids
      they carry: an opportunity is active exactly when a creation of it was taken in and no
      terminal was. */
  lemma ActiveExactly(log: Log, schedule: seq<Delivery>, o: string)
    ensures
      var records := FirstApplications(log, schedule);
      var l := Consume(log, schedule).ledger;
      (o in l.rows && l.rows[o].state == Active) <==> AcceptedCreation(records, o) && !AcceptedEnd(records, o)
  {
    hide Consume, FirstApplications, AcceptedCreation, AcceptedEnd;
    ConsumeInStep(log, schedule);
    FoldIsFaithful(FirstApplications(log, schedule), o);
  }

  // ----- with identifying ids, arrival is all that matters ---------------------------------------

  /** An event id names one event, a log position one record. */
  predicate WellKeyed(records: seq<Placed>) {
    forall i, j :: 0 <= i < j < |records| && records[i].record.Fact? && records[j].record.Fact? ==>
      && (records[i].record.event.eventId == records[j].record.event.eventId ==>
            records[i].record == records[j].record)
      && (records[i].at == records[j].at ==> records[i].record == records[j].record)
  }

  predicate Fenced(records: seq<Placed>, ledger: Ledger) {
    && (forall id :: id in ledger.events ==>
          exists i :: 0 <= i < |records| && records[i].record.Fact? && records[i].record.event.eventId == id)
    && (forall at :: at in ledger.positions ==>
          exists i :: 0 <= i < |records| && records[i].record.Fact? && records[i].at == at)
  }

  lemma SnocFacts(records: seq<Placed>, x: Placed, o: string)
    ensures CreatedIn(records + [x], o) <==>
      (CreatedIn(records, o) || (x.record.Fact? && x.record.event.Creation? && x.record.event.opportunity == o))
    ensures EndedIn(records + [x], o) <==>
      (EndedIn(records, o) || (x.record.Fact? && x.record.event.Terminal? && x.record.event.opportunity == o))
  {
    var all := records + [x];
    assert all[|records|] == x;
    assert forall i :: 0 <= i < |records| ==> all[i] == records[i];
  }

  lemma FencedStep(records: seq<Placed>, ledger: Ledger, x: Placed)
    requires Fenced(records, ledger)
    ensures Fenced(records + [x], Handle(ledger, x.record, x.at))
  {
    var all, after := records + [x], Handle(ledger, x.record, x.at);
    assert all[|records|] == x;
    forall id | id in after.events
      ensures exists i :: 0 <= i < |all| && all[i].record.Fact? && all[i].record.event.eventId == id
    {
      if id in ledger.events {
        var i :| 0 <= i < |records| && records[i].record.Fact? && records[i].record.event.eventId == id;
        assert all[i] == records[i];
      }
    }
    forall at | at in after.positions
      ensures exists i :: 0 <= i < |all| && all[i].record.Fact? && all[i].at == at
    {
      if at in ledger.positions {
        var i :| 0 <= i < |records| && records[i].record.Fact? && records[i].at == at;
        assert all[i] == records[i];
      }
    }
  }

  /** A duplicate delivery brings no new fact. */
  lemma DuplicateAddsNothing(records: seq<Placed>, ledger: Ledger, x: Placed)
    requires Fenced(records, ledger) && WellKeyed(records + [x]) && x.record.Fact?
    requires x.record.event.eventId in ledger.events || x.at in ledger.positions
    ensures HasFact(records, x.record.event)
  {
    var all := records + [x];
    assert all[|records|] == x;
    var i :| 0 <= i < |records| && records[i].record.Fact?
             && (records[i].record.event.eventId == x.record.event.eventId || records[i].at == x.at);
    assert all[i] == records[i];
  }

  lemma KnownFact(records: seq<Placed>, e: Event)
    requires HasFact(records, e)
    ensures e.Creation? ==> CreatedIn(records, e.opportunity)
    ensures e.Terminal? ==> EndedIn(records, e.opportunity)
  {}

  /** With ids that identify, what arrived was taken in when it first arrived. */
  lemma {:induction false} ArrivedIsAccepted(records: seq<Placed>, o: string)
    requires WellKeyed(records)
    ensures Fenced(records, Fold(records))
    ensures CreatedIn(records, o) <==> AcceptedCreation(records, o)
    ensures EndedIn(records, o) <==> AcceptedEnd(records, o)
  {
    hide Handle, Fenced, CreatedIn, EndedIn, AcceptedCreation, AcceptedEnd, WellKeyed;
    if records == [] {
      NothingArrived(o);
    } else {
      var n := |records| - 1;
      var before, x := records[..n], records[n];
      WellKeyedPrefix(records);
      ArrivedIsAccepted(before, o);
      assert records == before + [x];
      FencedStep(before, Fold(before), x);
      SnocFacts(before, x, o);
      AcceptedSnoc(before, x, o);
      if x.record.Fact? && (x.record.event.eventId in Fold(before).events || x.at in Fold(before).positions) {
        DuplicateAddsNothing(before, Fold(before), x);
        KnownFact(before, x.record.event);
      }
    }
  }

  lemma WellKeyedPrefix(records: seq<Placed>)
    requires records != [] && WellKeyed(records)
    ensures WellKeyed(records[..|records| - 1])
  {}

  lemma NothingArrived(o: string)
    ensures Fenced([], Fold([])) && !CreatedIn([], o) && !EndedIn([], o)
    ensures !AcceptedCreation([], o) && !AcceptedEnd([], o)
  {}

  /** Hence, when ids identify: active exactly when a creation arrived and no terminal did. */
  lemma ActiveMeansCreatedNotEnded(log: Log, schedule: seq<Delivery>, o: string)
    requires WellKeyed(FirstApplications(log, schedule))
    ensures
      var records := FirstApplications(log, schedule);
      var l := Consume(log, schedule).ledger;
      (o in l.rows && l.rows[o].state == Active) <==> CreatedIn(records, o) && !EndedIn(records, o)
  {
    hide Consume, FirstApplications, CreatedIn, EndedIn, WellKeyed, AcceptedCreation, AcceptedEnd;
    ActiveExactly(log, schedule, o);
    ArrivedIsAccepted(FirstApplications(log, schedule), o);
  }

  /** Why ids must identify: a terminal that reuses the id of a handled event is taken for its
      redelivery, and the opportunity stays active. */
  lemma ReusedIdHidesTerminal(id: string, o: string, a: Position, b: Position, setupExpired: bool)
    requires a != b
    ensures
      var records := [Placed(Fact(Creation(id, o)), a), Placed(Fact(Terminal(id, o, setupExpired)), b)];
      && EndedIn(records, o)
      && o in Fold(records).rows && Fold(records).rows[o].state == Active
  {
    var records := [Placed(Fact(Creation(id, o)), a), Placed(Fact(Terminal(id, o, setupExpired)), b)];
    assert records[1].record.event.opportunity == o;
    assert records[..1] == [records[0]] && records[..1][..0] == [];
    assert Fold(records[..1]) == Handle(EmptyLedger(), records[0].record, a);
  }
}
