// The lifecycle of a work order: the service's transition tables, the story
// the documentation tells about them, and what both mean for a work order's
// event history.
module Lifecycle {
  import opened Contracts

  // ---------- The tables ----------

  function AllowedTransitions(from: Status): set<Status> {
    match from
    case Open => {Cancelled}
    case Assigned => {InProgress, Cancelled}
    case InProgress => {Completed, Cancelled}
    case Completed => {}
    case Cancelled => {}
  }

  predicate CanTransition(from: Status, to: Status) {
    to in AllowedTransitions(from)
  }

  predicate CanAssign(status: Status) {
    status in {Open, Assigned}
  }

  // Which event an externally triggered status change produces, if any.
  function StatusEvent(next: Status): Option<EventType> {
    match next
    case InProgress => Some(StartedEvent)
    case Completed => Some(CompletedEvent)
    case Cancelled => Some(CancelledEvent)
    case _ => None
  }

  // ---------- Replaying event types through the tables ----------

  function Advance(status: Status, kind: EventType): Option<Status> {
    match kind
    case CreatedEvent => None
    case AssignedEvent => if CanAssign(status) then Some(Assigned) else None
    case StartedEvent => if CanTransition(status, InProgress) then Some(InProgress) else None
    case CompletedEvent => if CanTransition(status, Completed) then Some(Completed) else None
    case CancelledEvent => if CanTransition(status, Cancelled) then Some(Cancelled) else None
    case TriagedEvent => Some(status)
  }

  // The status that a list of event types, oldest first, leads to; None when
  // the tables do not allow it.
  function Replay(kinds: seq<EventType>): Option<Status> {
    if kinds == [] then None
    else if |kinds| == 1 then (if kinds[0] == CreatedEvent then Some(Open) else None)
    else
      match Replay(kinds[..|kinds| - 1])
      case None => None
      case Some(status) => Advance(status, kinds[|kinds| - 1])
  }

  // ---------- The story, written without the tables ----------

  // created, then either cancelled or any number of assignments; an assigned
  // order may be cancelled or started; a started one completed or cancelled.
  ghost predicate IsStory(kinds: seq<EventType>) {
    exists n: nat, ending :: Tells(kinds, n, ending)
  }

  predicate Tells(kinds: seq<EventType>, assignments: nat, ending: seq<EventType>) {
    && kinds == [CreatedEvent] + seq(assignments, _ => AssignedEvent) + ending
    && (|| ending == []
        || ending == [CancelledEvent]
        || (assignments > 0 && (|| ending == [StartedEvent]
                                || ending == [StartedEvent, CompletedEvent]
                                || ending == [StartedEvent, CancelledEvent])))
  }

  function EndStatus(assignments: nat, ending: seq<EventType>): Status {
    if ending == [] then (if assignments == 0 then Open else Assigned)
    else
      match ending[|ending| - 1]
      case CompletedEvent => Completed
      case CancelledEvent => Cancelled
      case _ => InProgress
  }

  lemma {:induction false} ReplayAssignments(n: nat)
    ensures Replay([CreatedEvent] + seq(n, _ => AssignedEvent)) == Some(if n == 0 then Open else Assigned)
  {
    var kinds := [CreatedEvent] + seq(n, _ => AssignedEvent);
    if n > 0 {
      ReplayAssignments(n - 1);
      assert kinds[..|kinds| - 1] == [CreatedEvent] + seq(n - 1, _ => AssignedEvent);
    }
  }

  lemma ReplayAppend(kinds: seq<EventType>, kind: EventType)
    requires kinds != []
    ensures Replay(kinds + [kind]) ==
      match Replay(kinds) case None => None case Some(status) => Advance(status, kind)
  {
  }

  lemma StoryReplays(kinds: seq<EventType>, n: nat, ending: seq<EventType>)
    requires Tells(kinds, n, ending)
    ensures Replay(kinds) == Some(EndStatus(n, ending))
  {
    var head := [CreatedEvent] + seq(n, _ => AssignedEvent);
    ReplayAssignments(n);
    if |ending| == 0 {
      assert kinds == head;
    } else if |ending| == 1 {
      ReplayAppend(head, ending[0]);
      assert kinds == head + [ending[0]];
    } else {
      ReplayAppend(head, ending[0]);
      ReplayAppend(head + [ending[0]], ending[1]);
      assert kinds == head + [ending[0]] + [ending[1]];
    }
  }

  lemma {:induction false} ReplayTells(kinds: seq<EventType>) returns (n: nat, ending: seq<EventType>)
    requires Replay(kinds).Some? && TriagedEvent !in kinds
    ensures Tells(kinds, n, ending)
  {
    n, ending := 0, [];
    if |kinds| > 1 {
      var last := |kinds| - 1;
      n, ending := ReplayTells(kinds[..last]);
      StoryReplays(kinds[..last], n, ending);
      assert kinds == kinds[..last] + [kinds[last]];
      if kinds[last] == AssignedEvent {
        assert ending == [];
        assert seq(n + 1, _ => AssignedEvent) == seq(n, _ => AssignedEvent) + [AssignedEvent];
        n := n + 1;
      } else if ending == [] {
        ending := [kinds[last]];
      } else {
        assert ending == [StartedEvent];
        ending := [StartedEvent, kinds[last]];
      }
    }
  }

  // The tables allow exactly the documented stories.
  lemma TablesTellTheStory(kinds: seq<EventType>)
    requires TriagedEvent !in kinds
    ensures Replay(kinds).Some? <==> IsStory(kinds)
  {
    if Replay(kinds).Some? {
      var n, ending := ReplayTells(kinds);
    }
    if IsStory(kinds) {
      var n: nat, ending :| Tells(kinds, n, ending);
      StoryReplays(kinds, n, ending);
    }
  }

  // Every target the table allows has an event, so a status change is never
  // saved silently.
  lemma AllowedTargetsHaveEvents(from: Status, next: Status)
    requires CanTransition(from, next)
    ensures next != Assigned && StatusEvent(next).Some?
    ensures Advance(from, StatusEvent(next).value) == Some(next)
  {
  }

  // ---------- Histories ----------

  function Kinds(history: seq<Event>): seq<EventType> {
    seq(|history|, i requires 0 <= i < |history| => history[i].kind)
  }

  function WithoutTriage(kinds: seq<EventType>): seq<EventType> {
    if kinds == [] then []
    else
      var rest := WithoutTriage(kinds[..|kinds| - 1]);
      if kinds[|kinds| - 1] == TriagedEvent then rest else rest + [kinds[|kinds| - 1]]
  }

  predicate Birth(e: Event) {
    e.kind == CreatedEvent && e.data.status == Open && e.data.assigneeId == None && e.data.triage == None
  }

  // What one event may change of the snapshot before it.
  predicate Follows(a: EventData, e: Event) {
    var b := e.data;
    && b == a.(status := b.status, assigneeId := b.assigneeId, triage := b.triage)
    && match e.kind
       case CreatedEvent => false
       case AssignedEvent =>
         a.status in {Open, Assigned} && b.status == Assigned && b.assigneeId.Some? && b.triage == a.triage
       case StartedEvent =>
         a.status == Assigned && b == a.(status := InProgress)
       case CompletedEvent =>
         a.status == InProgress && b == a.(status := Completed)
       case CancelledEvent =>
         a.status in {Open, Assigned, InProgress} && b == a.(status := Cancelled)
       case TriagedEvent =>
         a.triage.None? && b.triage.Some? && b == a.(triage := b.triage)
  }

  // A possible history of one work order.
  ghost predicate Chained(history: seq<Event>) {
    && (history != [] ==> Birth(history[0]))
    && forall i :: 0 < i < |history| ==> Follows(history[i - 1].data, history[i])
  }

  lemma WithoutTriageAppend(kinds: seq<EventType>, kind: EventType)
    ensures WithoutTriage(kinds + [kind]) ==
      if kind == TriagedEvent then WithoutTriage(kinds) else WithoutTriage(kinds) + [kind]
  {
  }

  lemma EventReplays(kinds: seq<EventType>, a: EventData, e: Event)
    requires kinds != [] && Replay(kinds) == Some(a.status) && Follows(a, e)
    ensures Replay(kinds + [e.kind]) == Some(e.data.status)
  {
  }

  lemma {:induction false} HistoryReplays(history: seq<Event>)
    requires Chained(history) && history != []
    ensures var kinds, status := Kinds(history), history[|history| - 1].data.status;
      && Replay(kinds) == Some(status)
      && WithoutTriage(kinds) != [] && TriagedEvent !in WithoutTriage(kinds)
      && Replay(WithoutTriage(kinds)) == Some(status)
  {
    var n := |history| - 1;
    var front, e := Kinds(history[..n]), history[n];
    assert Kinds(history) == front + [e.kind];
    WithoutTriageAppend(front, e.kind);
    if n == 0 {
      assert WithoutTriage(front) + [e.kind] == [CreatedEvent] == front + [e.kind];
    } else {
      HistoryReplays(history[..n]);
      assert Follows(history[n - 1].data, e);
      EventReplays(front, history[n - 1].data, e);
      EventReplays(WithoutTriage(front), history[n - 1].data, e);
    }
  }

  // Apart from triage, every history tells one of the documented stories.
  lemma HistoryIsStory(history: seq<Event>)
    requires Chained(history) && history != []
    ensures IsStory(WithoutTriage(Kinds(history)))
  {
    HistoryReplays(history);
    TablesTellTheStory(WithoutTriage(Kinds(history)));
  }

  // What an event at position i settles for every later event j.
  lemma {:induction false} HistorySettles(history: seq<Event>, i: nat, j: nat)
    requires Chained(history) && i <= j < |history|
    ensures var a, b := history[i].data, history[j].data;
      && (a.assigneeId.Some? ==> b.assigneeId.Some?)
      && (a.status == Assigned ==> a.assigneeId.Some?)
      && (a.status in {InProgress, Completed} ==> a.assigneeId.Some? && b.assigneeId == a.assigneeId)
      && (a.status in {Completed, Cancelled} ==>
            b.status == a.status && b.assigneeId == a.assigneeId && (i < j ==> history[j].kind == TriagedEvent))
      && (a.status == InProgress ==> b.status in {InProgress, Completed, Cancelled})
      && (a.triage.Some? ==> b.triage == a.triage && (i < j ==> history[j].kind != TriagedEvent))
      && (history[i].kind == TriagedEvent ==> a.triage.Some?)
  {
    if i < j {
      HistorySettles(history, i, j - 1);
      assert Follows(history[j - 1].data, history[j]);
    } else if i > 0 {
      HistorySettles(history, i - 1, i - 1);
      assert Follows(history[i - 1].data, history[i]);
    }
  }
}
