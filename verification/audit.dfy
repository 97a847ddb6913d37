// The audit side: a Kafka consumer that may crash and read again from an older
// offset, and an insert-or-ignore projection.
//
// Assumptions: one writer (one consumer instance), one partition.
module Audit {
  import opened Contracts
  import opened Events

  // A row of audit_events.
  datatype AuditRow = AuditRow(
    id: nat, eventId: Uuid, eventType: EventType, workOrderId: Uuid, propertyId: Uuid,
    correlationId: Option<Uuid>, actorId: Option<Uuid>, occurredAt: nat, payload: EventData)

  // The value of a message of the topic.
  datatype Value = NoValue | Malformed | Json(event: Event)

  function RowFor(id: nat, e: Event): AuditRow {
    AuditRow(id, e.eventId, e.kind, e.data.workOrderId, e.data.propertyId,
             e.correlationId, e.actorId, e.occurredAt, e.data)
  }

  // The event a row records.
  function Recorded(row: AuditRow): Event {
    Event(row.eventId, row.eventType, row.occurredAt, row.correlationId, row.actorId, row.payload)
  }

  function RecordedAll(table: seq<AuditRow>): seq<Event> {
    seq(|table|, i requires 0 <= i < |table| => Recorded(table[i]))
  }

  // The projection, and where its consumer stands on the topic. `high` is the
  // highest position whose message has been inserted so far.
  datatype State = State(
    table: seq<AuditRow>, nextId: nat, position: nat, committed: nat, high: nat)

  const INIT := State([], 1, 0, 0, 0)

  datatype Action =
    | Handle(outcome: Outcome)   // eachMessage for the message at `position`
    | CommitOffset(offset: nat)  // any resolved offset may be the one committed
    | Crash                      // restart from the committed offset
    | FreshGroup                 // read the topic from the beginning

  predicate Enabled(s: State, log: seq<Event>, a: Action) {
    match a
    case Handle(_) => s.position < |log|
    case CommitOffset(offset) => offset <= s.position
    case _ => true
  }

  // INSERT ... ON CONFLICT (event_id) DO NOTHING: the serial id is used up
  // whether or not a row is inserted.
  function Insert(s: State, e: Event): State {
    s.(table := if HasId(RecordedAll(s.table), e.eventId) then s.table else s.table + [RowFor(s.nextId, e)],
       nextId := s.nextId + 1)
  }

  function Next(s: State, log: seq<Event>, a: Action): State
    requires Enabled(s, log, a)
  {
    match a
    case Handle(FailedBefore) => s
    case Handle(outcome) =>
      Insert(s, log[s.position]).(
        position := if outcome.Ok? then s.position + 1 else s.position,
        high := if s.high <= s.position then s.position + 1 else s.high)
    case CommitOffset(offset) => s.(committed := offset)
    case Crash => s.(position := s.committed)
    case FreshGroup => s.(position := 0, committed := 0)
  }

  // ---------- The invariant ----------

  ghost predicate IdsIncrease(table: seq<AuditRow>) {
    forall i, j :: 0 <= i < j < |table| ==> table[i].id < table[j].id
  }

  ghost predicate Inv(s: State, log: seq<Event>) {
    && s.committed <= s.position <= s.high <= |log|
    && RecordedAll(s.table) == Firsts(log[..s.high])
    && IdsIncrease(s.table)
    && (forall row | row in s.table ::
          row.id < s.nextId && row.workOrderId == row.payload.workOrderId && row.propertyId == row.payload.propertyId)
  }

  lemma InsertKeeps(s: State, log: seq<Event>)
    requires Inv(s, log) && s.position < |log|
    ensures var n := Insert(s, log[s.position]);
      RecordedAll(n.table) == Firsts(log[..if s.high <= s.position then s.position + 1 else s.high])
  {
    var e, n := log[s.position], Insert(s, log[s.position]);
    if s.position == s.high {
      assert log[..s.high + 1][..s.high] == log[..s.high];
      assert RecordedAll(s.table + [RowFor(s.nextId, e)]) == RecordedAll(s.table) + [e];
    } else {
      FirstsSound(log[..s.high]);
      assert log[..s.high][s.position] == e;
      assert HasId(log[..s.high], e.eventId);
    }
  }

  lemma StepKeeps(s: State, log: seq<Event>, a: Action)
    requires Inv(s, log) && Enabled(s, log, a)
    ensures Inv(Next(s, log, a), log)
  {
    if a.Handle? && !a.outcome.FailedBefore? {
      InsertKeeps(s, log);
    }
  }

  // The producer may append to the topic at any time.
  lemma LogGrows(s: State, log: seq<Event>, longer: seq<Event>)
    requires Inv(s, log) && log <= longer
    ensures Inv(s, longer)
  {
    assert longer[..s.high] == log[..s.high];
  }

  // ---------- Runs ----------

  datatype Step = Consumer(action: Action) | Produced(event: Event)

  // The state and the topic after some steps; steps that cannot happen are skipped.
  function Run(steps: seq<Step>): (State, seq<Event>) {
    if steps == [] then (INIT, [])
    else
      var (s, log) := Run(steps[..|steps| - 1]);
      match steps[|steps| - 1]
      case Produced(e) => (s, log + [e])
      case Consumer(a) => if Enabled(s, log, a) then (Next(s, log, a), log) else (s, log)
  }

  // Crash-and-rewind refinement: whatever was redelivered, the table lists the
  // first occurrences of the log up to the highest position ever inserted.
  lemma {:induction false} RewindRefinement(steps: seq<Step>)
    ensures Inv(Run(steps).0, Run(steps).1)
  {
    if steps != [] {
      var front, last := steps[..|steps| - 1], steps[|steps| - 1];
      RewindRefinement(front);
      var (s, log) := Run(front);
      if last.Produced? {
        LogGrows(s, log, log + [last.event]);
      } else if Enabled(s, log, last.action) {
        StepKeeps(s, log, last.action);
      }
    }
  }

  // The row says what the event says, column by column.
  predicate SaysEvent(row: AuditRow, e: Event) {
    && row.eventId == e.eventId && row.eventType == e.kind && row.occurredAt == e.occurredAt
    && row.correlationId == e.correlationId && row.actorId == e.actorId && row.payload == e.data
    && row.workOrderId == e.data.workOrderId && row.propertyId == e.data.propertyId
  }

  // Every row of the projection is a message of the topic, in all its columns.
  lemma RowsSayEvents(steps: seq<Step>, row: AuditRow) returns (e: Event)
    requires row in Run(steps).0.table
    ensures e in Run(steps).1 && SaysEvent(row, e)
  {
    RewindRefinement(steps);
    var (s, log) := Run(steps);
    e := Recorded(row);
    var i :| 0 <= i < |s.table| && s.table[i] == row;
    assert RecordedAll(s.table)[i] == e;
    FirstsSound(log[..s.high]);
    assert e in Firsts(log[..s.high]) && e in log[..s.high];
  }

  // Redelivery does happen: a crash before the offset was committed, or a fresh
  // group, handles a message again and inserts nothing; after the commit a crash
  // does not.
  lemma Redelivers(e: Event)
    ensures var once := [Produced(e), Consumer(Handle(Ok))];
      var uncommitted := Run(once + [Consumer(Crash), Consumer(Handle(Ok))]).0;
      var committed := Run(once + [Consumer(CommitOffset(1))] + [Consumer(Crash), Consumer(Handle(Ok))]).0;
      var rebuilt := Run(once + [Consumer(CommitOffset(1))] + [Consumer(FreshGroup), Consumer(Handle(Ok))]).0;
      && uncommitted.table == committed.table == rebuilt.table == [RowFor(1, e)]
      && uncommitted.nextId == 3 && committed.nextId == 2 && rebuilt.nextId == 3
  {
    var once := [Produced(e), Consumer(Handle(Ok))];
    RunAppend([], Produced(e));
    RunAppend([Produced(e)], Consumer(Handle(Ok)));
    assert [] + [Produced(e)] == [Produced(e)] && [Produced(e)] + [Consumer(Handle(Ok))] == once;
    RunRewound(once, Crash, e);
    RunAppend(once, Consumer(CommitOffset(1)));
    RunRewound(once + [Consumer(CommitOffset(1))], Crash, e);
    RunRewound(once + [Consumer(CommitOffset(1))], FreshGroup, e);
  }

  lemma RunAppend(steps: seq<Step>, step: Step)
    ensures Run(steps + [step]) ==
      var (s, log) := Run(steps);
      match step
      case Produced(e) => (s, log + [e])
      case Consumer(a) => if Enabled(s, log, a) then (Next(s, log, a), log) else (s, log)
  {
    assert (steps + [step])[..|steps|] == steps;
  }

  // One message handled, then a rewind to `committed` or the beginning, then one more try.
  lemma RunRewound(steps: seq<Step>, rewind: Action, e: Event)
    requires rewind in {Crash, FreshGroup}
    requires var (s, log) := Run(steps);
      log == [e] && s.table == [RowFor(1, e)] && s.nextId == 2 && s.position == 1 && s.committed <= 1 && s.high == 1
    ensures var (s, log) := Run(steps + [Consumer(rewind), Consumer(Handle(Ok))]);
      && s.table == [RowFor(1, e)] && s.position == 1
      && s.nextId == if rewind == Crash && Run(steps).0.committed == 1 then 2 else 3
  {
    RunAppend(steps, Consumer(rewind));
    RunAppend(steps + [Consumer(rewind)], Consumer(Handle(Ok)));
    assert steps + [Consumer(rewind), Consumer(Handle(Ok))] ==
           (steps + [Consumer(rewind)]) + [Consumer(Handle(Ok))];
    assert RecordedAll([RowFor(1, e)])[0].eventId == e.eventId;
  }

  // A fresh consumer group that handles the first n messages of the topic.
  function Replay(log: seq<Event>, n: nat): State
    requires n <= |log|
    ensures Replay(log, n).position == n
  {
    if n == 0 then INIT else Next(Replay(log, n - 1), log, Handle(Ok))
  }

  lemma {:induction false} ReplayKeeps(log: seq<Event>, n: nat)
    requires n <= |log|
    ensures Inv(Replay(log, n), log) && Replay(log, n).high == n
  {
    if n > 0 {
      ReplayKeeps(log, n - 1);
      StepKeeps(Replay(log, n - 1), log, Handle(Ok));
    }
  }

  // The projection can be rebuilt from the topic: up to row ids, a fresh group
  // arrives at the table that any run with crashes and rewinds arrived at.
  lemma FreshGroupRebuilds(steps: seq<Step>)
    ensures var (s, log) := Run(steps);
      s.high <= |log| && RecordedAll(Replay(log, s.high).table) == RecordedAll(s.table)
  {
    RewindRefinement(steps);
    var (s, log) := Run(steps);
    ReplayKeeps(log, s.high);
  }

  // However a rebuild went, with failures, crashes and rewinds of its own: once it
  // got as far on the same topic, it lists the same events.
  lemma RebuildsAgree(steps: seq<Step>, again: seq<Step>)
    requires Run(steps).1 <= Run(again).1 && Run(again).0.high == Run(steps).0.high
    ensures RecordedAll(Run(again).0.table) == RecordedAll(Run(steps).0.table)
  {
    RewindRefinement(steps);
    RewindRefinement(again);
    var h := Run(steps).0.high;
    assert Run(again).1[..h] == Run(steps).1[..h];
  }

  // ---------- The service ----------

  // No insert fails from position `start` up to `end`.
  ghost predicate NoneFails(insert: nat -> Outcome, start: nat, end: nat) {
    forall p | start <= p < end :: insert(p) == Ok
  }

  lemma NoneFailsNext(insert: nat -> Outcome, start: nat, end: nat)
    requires start <= end
    ensures NoneFails(insert, start, end + 1) <==> NoneFails(insert, start, end) && insert(end) == Ok
  {
  }

  class AuditService {
    var table: seq<AuditRow>
    var nextId: nat
    var position: nat
    var committed: nat
    ghost var high: nat

    constructor ()
      ensures Abs() == INIT
    {
      table, nextId, position, committed := [], 1, 0, 0;
      high := 0;
    }

    ghost function Abs(): State
      reads this
    {
      State(table, nextId, position, committed, high)
    }

    // AuditIngestService.record
    method Record(event: Event)
      modifies this`table, this`nextId
      ensures nextId == old(nextId) + 1
      ensures if exists row | row in old(table) :: row.eventId == event.eventId then table == old(table)
              else |table| == |old(table)| + 1 && table[..|old(table)|] == old(table)
      ensures |table| > |old(table)| ==> var row := table[|old(table)|];
        row.id == old(nextId) && SaysEvent(row, event) && table == old(table) + [RowFor(old(nextId), event)]
      ensures HasId(RecordedAll(old(table)), event.eventId) <==> table == old(table)
    {
      var id := nextId;
      nextId := nextId + 1;
      if exists k | 0 <= k < |table| :: table[k].eventId == event.eventId {
        ghost var k :| 0 <= k < |table| && table[k].eventId == event.eventId;
        assert RecordedAll(table)[k].eventId == event.eventId;
        return;
      }
      var values := AuditRow(id, event.eventId, event.kind, event.data.workOrderId, event.data.propertyId,
                             event.correlationId, event.actorId, event.occurredAt, event.data);
      table := table + [values];
    }

    // eachMessage; a message without a value is skipped, and one that does not
    // parse throws. `insert` is how the insert ends, if there is one.
    method EachMessage(value: Value, insert: Outcome) returns (outcome: Outcome)
      modifies this`table, this`nextId
      ensures outcome ==
        match value
        case NoValue => Ok
        case Malformed => FailedBefore
        case Json(_) => insert
      ensures !value.Json? || insert == FailedBefore ==> table == old(table) && nextId == old(nextId)
      ensures value.Json? && insert != FailedBefore ==> Abs() == Insert(old(Abs()), value.event)
    {
      outcome := Ok;
      if value.NoValue? {
        return;
      }
      if value.Malformed? {
        return FailedBefore;
      }
      outcome := insert;
      if !outcome.FailedBefore? {
        Record(value.event);
      }
    }

    // Handing over one message; the position moves on only if it did not throw.
    method HandleNext(log: seq<Event>, insert: Outcome) returns (ok: bool)
      requires Inv(Abs(), log) && position < |log|
      modifies this
      ensures Inv(Abs(), log) && committed == old(committed) && old(table) <= table
      ensures ok == (insert == Ok) && position == if ok then old(position) + 1 else old(position)
      ensures ok ==> high > old(position)
    {
      ghost var before := Abs();
      var outcome := EachMessage(Json(log[position]), insert);
      ok := outcome.Ok?;
      if !outcome.FailedBefore? {
        high := if high <= position then position + 1 else high;
      }
      if ok {
        position := position + 1;
      }
      StepKeeps(before, log, Handle(outcome));
      assert Abs() == Next(before, log, Handle(outcome));
    }

    // The loop of consumer.run.
    method HandleUntilFailure(log: seq<Event>, insert: nat -> Outcome) returns (failed: bool)
      requires Inv(Abs(), log)
      modifies this
      ensures Inv(Abs(), log) && committed == old(committed) && old(table) <= table
      ensures old(position) <= position <= |log| && NoneFails(insert, old(position), position)
      ensures if failed then position < |log| && insert(position) != Ok else position == |log|
    {
      failed := false;
      while position < |log| && !failed
        invariant Inv(Abs(), log) && committed == old(committed) && old(table) <= table
        invariant old(position) <= position <= |log| && NoneFails(insert, old(position), position)
        invariant failed ==> position < |log| && insert(position) != Ok
        decreases |log| - position, !failed
      {
        NoneFailsNext(insert, old(position), position);
        var ok := HandleNext(log, insert(position));
        failed := !ok;
      }
    }

    // consumer.run: hands over one message after another, and stops at the first
    // one whose processing throws. `insert` says how the insert at a position ends.
    method Consume(log: seq<Event>, insert: nat -> Outcome) returns (failed: bool)
      requires Inv(Abs(), log)
      modifies this
      ensures Inv(Abs(), log) && committed == old(committed) && old(table) <= table
      ensures old(position) <= position <= |log| && NoneFails(insert, old(position), position)
      ensures if failed then position < |log| && insert(position) != Ok else position == |log|
      // everything before the position is in the table, and without a failure the
      // table is the whole log without repeats
      ensures AllInserted(table, log, position)
      ensures !failed ==> RecordedAll(table) == Firsts(log)
    {
      failed := HandleUntilFailure(log, insert);
      ProcessedIsInserted(Abs(), log);
      if !failed {
        WholeLogIsInserted(Abs(), log);
      }
    }
  }

  lemma WholeLogIsInserted(s: State, log: seq<Event>)
    requires Inv(s, log) && s.position == |log|
    ensures RecordedAll(s.table) == Firsts(log)
  {
    assert log[..|log|] == log;
  }

  // Each of the first n messages has a row.
  ghost predicate AllInserted(table: seq<AuditRow>, log: seq<Event>, n: nat)
    requires n <= |log|
  {
    forall p | 0 <= p < n :: exists row | row in table :: row.eventId == log[p].eventId
  }

  lemma HeldHasRow(table: seq<AuditRow>, id: Uuid)
    requires HasId(RecordedAll(table), id)
    ensures exists row | row in table :: row.eventId == id
  {
    var k :| 0 <= k < |RecordedAll(table)| && RecordedAll(table)[k].eventId == id;
    assert table[k] in table && table[k].eventId == id;
  }

  lemma MessageIsInserted(s: State, log: seq<Event>, p: nat)
    requires Inv(s, log) && p < s.position
    ensures exists row | row in s.table :: row.eventId == log[p].eventId
  {
    var done, id := log[..s.high], log[p].eventId;
    FirstsSound(done);
    assert done[p].eventId == id;
    assert HasId(Firsts(done), id);
    HeldHasRow(s.table, id);
  }

  lemma ProcessedIsInserted(s: State, log: seq<Event>)
    requires Inv(s, log)
    ensures AllInserted(s.table, log, s.position)
  {
    forall p: nat | p < s.position ensures exists row | row in s.table :: row.eventId == log[p].eventId {
      MessageIsInserted(s, log, p);
    }
  }
}
