// The write side: WorkOrdersService, TriageService and the outbox they stage
// into. Assumption (serialized calls per order): one call on one order is one
// step; calls on different orders may interleave, so row ids are increasing
// per order only.
module WorkOrders {
  import opened Contracts
  import opened Events
  import opened Lifecycle

  datatype NewOrder = NewOrder(title: string, description: string, propertyId: Uuid, priority: Option<Priority>)

  datatype Call =
    | Create(dto: NewOrder)
    | Assign(id: Uuid, assigneeId: Uuid)
    | UpdateStatus(id: Uuid, next: Status)
    | ApplyTriage(id: Uuid, triage: Triage)

  // What the outside supplies to one call: generated keys, the clock, the
  // request context, and how the transaction ends: its commit may take effect and
  // still be reported as a failure.
  datatype Env = Env(
    orderId: Uuid, eventId: Uuid, rowId: nat, now: nat,
    correlationId: Option<Uuid>, actorId: Option<Uuid>, commit: Outcome)

  datatype Reply = Saved(order: WorkOrder) | NotFound | Conflict | Failed | Skipped

  datatype Db = Db(orders: map<Uuid, WorkOrder>, outbox: seq<OutboxRow>)

  const EMPTY_DB := Db(map[], [])

  // ---------- The envelope ----------

  function TriageOf(order: WorkOrder): Option<Triage> {
    if order.triageCategory.Some? && order.triageUrgency.Some? then
      Some(Triage(order.triageCategory.value, order.triageUrgency.value,
                  if order.triageReasoning.Some? then order.triageReasoning.value else ""))
    else None
  }

  function Snapshot(order: WorkOrder): EventData {
    EventData(order.id, order.propertyId, order.title, order.description, order.priority,
              order.status, order.assigneeId, TriageOf(order))
  }

  function Envelope(kind: EventType, order: WorkOrder, env: Env): Event {
    Event(env.eventId, kind, env.now, env.correlationId, env.actorId, Snapshot(order))
  }

  // ---------- One call, as a function of the two tables ----------

  predicate Commits(env: Env) {
    !env.commit.FailedBefore?
  }

  function Answer(order: WorkOrder, env: Env): Reply {
    if env.commit.Ok? then Saved(order) else Failed
  }

  function SaveAndStage(db: Db, order: WorkOrder, kind: EventType, env: Env): (Db, Reply) {
    (if Commits(env) then
       Db(db.orders[order.id := order], db.outbox + [OutboxRow(env.rowId, Envelope(kind, order, env))])
     else db,
     Answer(order, env))
  }

  function NewRow(dto: NewOrder, env: Env): WorkOrder {
    WorkOrder(env.orderId, dto.title, dto.description, dto.propertyId,
              if dto.priority.Some? then dto.priority.value else Medium,
              Open, None, None, None, None, None, env.now)
  }

  function Triaged(order: WorkOrder, triage: Triage, now: nat): WorkOrder {
    order.(triageCategory := Some(triage.category), triageUrgency := Some(triage.urgency),
           triageReasoning := Some(triage.reasoning), triagedAt := Some(now))
  }

  // What one call decides to do, given the rows it can see.
  datatype Decision = Refuse(reply: Reply) | Write(order: WorkOrder, kind: Option<EventType>)

  function Decide(orders: map<Uuid, WorkOrder>, call: Call, env: Env): Decision {
    match call
    case Create(dto) => Write(NewRow(dto, env), Some(CreatedEvent))
    case Assign(id, assigneeId) =>
      if id !in orders then Refuse(NotFound)
      else if !CanAssign(orders[id].status) then Refuse(Conflict)
      else Write(orders[id].(assigneeId := Some(assigneeId), status := Assigned), Some(AssignedEvent))
    case UpdateStatus(id, next) =>
      if id !in orders then Refuse(NotFound)
      else if next == Assigned || !CanTransition(orders[id].status, next) then Refuse(Conflict)
      else Write(orders[id].(status := next), StatusEvent(next))
    case ApplyTriage(id, triage) =>
      if id !in orders || orders[id].triagedAt.Some? then Refuse(Skipped)
      else Write(Triaged(orders[id], triage, env.now), Some(TriagedEvent))
  }

  function Execute(db: Db, call: Call, env: Env): (Db, Reply) {
    match Decide(db.orders, call, env)
    case Refuse(reply) => (db, reply)
    case Write(order, Some(kind)) => SaveAndStage(db, order, kind, env)
    case Write(order, None) =>
      (if Commits(env) then db.(orders := db.orders[order.id := order]) else db, Answer(order, env))
  }

  // The call writes, and its transaction takes effect.
  predicate Writes(db: Db, call: Call, env: Env) {
    Decide(db.orders, call, env).Write? && Commits(env)
  }

  // What the documentation allows, by the row the caller could have looked up.
  predicate Allowed(db: Db, call: Call) {
    match call
    case Create(_) => true
    case Assign(id, _) => id in db.orders && db.orders[id].status in {Open, Assigned}
    case UpdateStatus(id, next) =>
      id in db.orders &&
      (db.orders[id].status, next) in {(Open, Cancelled), (Assigned, InProgress), (Assigned, Cancelled),
                                       (InProgress, Completed), (InProgress, Cancelled)}
    case ApplyTriage(id, _) => id in db.orders && db.orders[id].triagedAt.None?
  }

  // An allowed call whose transaction took effect, whatever the caller was told.
  predicate Accepted(db: Db, call: Call, env: Env) {
    Allowed(db, call) && !env.commit.FailedBefore?
  }

  // ---------- The service ----------

  class WorkOrdersService {
    var orders: map<Uuid, WorkOrder>
    var outbox: seq<OutboxRow>

    constructor ()
      ensures Tables() == EMPTY_DB
    {
      orders, outbox := map[], [];
    }

    ghost function Tables(): Db
      reads this
    {
      Db(orders, outbox)
    }

    // WorkOrderEventsOutbox.stage
    method Stage(kind: EventType, order: WorkOrder, env: Env)
      modifies this`outbox
      ensures |outbox| == |old(outbox)| + 1 && outbox[..|old(outbox)|] == old(outbox)
      ensures outbox[|old(outbox)|] == OutboxRow(env.rowId, Envelope(kind, order, env))
      ensures var row, e := outbox[|old(outbox)|], outbox[|old(outbox)|].event;
        && row.id == env.rowId && e.eventId == env.eventId && e.kind == kind && e.occurredAt == env.now
        && e.correlationId == env.correlationId && e.actorId == env.actorId
      ensures var d := outbox[|old(outbox)|].event.data;
        && d.workOrderId == order.id && d.propertyId == order.propertyId
        && d.title == order.title && d.description == order.description
        && d.priority == order.priority && d.status == order.status && d.assigneeId == order.assigneeId
        && d.triage ==
             if order.triageCategory.None? || order.triageUrgency.None? then None
             else Some(Triage(order.triageCategory.value, order.triageUrgency.value,
                              if order.triageReasoning.None? then "" else order.triageReasoning.value))
    {
      var event := Event(env.eventId, kind, env.now, env.correlationId, env.actorId, Snapshot(order));
      outbox := outbox + [OutboxRow(env.rowId, event)];
    }

    // The entity and its event are written in one transaction: both or neither.
    method SaveAndStage(order: WorkOrder, kind: EventType, env: Env) returns (r: Reply)
      modifies this
      ensures r == if env.commit.Ok? then Saved(order) else Failed
      ensures env.commit.FailedBefore? ==> orders == old(orders) && outbox == old(outbox)
      ensures !env.commit.FailedBefore? ==>
        orders == old(orders)[order.id := order] &&
        outbox == old(outbox) + [OutboxRow(env.rowId, Envelope(kind, order, env))]
    {
      var ordersBefore, outboxBefore := orders, outbox;
      orders := orders[order.id := order];
      Stage(kind, order, env);
      if env.commit.FailedBefore? {
        orders, outbox := ordersBefore, outboxBefore;
      }
      r := if env.commit.Ok? then Saved(order) else Failed;
    }

    method FindOne(id: Uuid) returns (found: Option<WorkOrder>)
      ensures found.Some? <==> id in orders
      ensures found.Some? ==> found.value == orders[id]
    {
      found := if id in orders then Some(orders[id]) else None;
    }

    method CreateOrder(dto: NewOrder, env: Env) returns (r: Reply)
      modifies this
      ensures (Tables(), r) == Execute(old(Tables()), Create(dto), env)
    {
      var order := NewRow(dto, env);
      r := SaveAndStage(order, CreatedEvent, env);
    }

    method AssignOrder(id: Uuid, assigneeId: Uuid, env: Env) returns (r: Reply)
      modifies this
      ensures (Tables(), r) == Execute(old(Tables()), Assign(id, assigneeId), env)
    {
      var found := FindOne(id);
      if found.None? {
        return NotFound;
      }
      var order := found.value;
      if !CanAssign(order.status) {
        return Conflict;
      }
      order := order.(assigneeId := Some(assigneeId));
      order := order.(status := Assigned);
      assert order == orders[id].(assigneeId := Some(assigneeId), status := Assigned);
      r := SaveAndStage(order, AssignedEvent, env);
    }

    method UpdateOrderStatus(id: Uuid, next: Status, env: Env) returns (r: Reply)
      modifies this
      ensures (Tables(), r) == Execute(old(Tables()), UpdateStatus(id, next), env)
    {
      var found := FindOne(id);
      if found.None? {
        return NotFound;
      }
      var order := found.value;
      if next == Assigned {
        return Conflict;
      }
      if !CanTransition(order.status, next) {
        return Conflict;
      }
      order := order.(status := next);
      var kind := StatusEvent(next);
      if kind.Some? {
        r := SaveAndStage(order, kind.value, env);
      } else {
        if !env.commit.FailedBefore? {
          orders := orders[order.id := order];
        }
        r := if env.commit.Ok? then Saved(order) else Failed;
      }
    }

    // TriageService.apply
    method ApplyTriageTo(id: Uuid, triage: Triage, env: Env) returns (r: Reply)
      modifies this
      ensures (Tables(), r) == Execute(old(Tables()), ApplyTriage(id, triage), env)
    {
      if id !in orders {
        return Skipped;
      }
      var order := orders[id];
      if order.triagedAt.Some? {
        return Skipped;
      }
      order := order.(triageCategory := Some(triage.category), triageUrgency := Some(triage.urgency),
                      triageReasoning := Some(triage.reasoning));
      order := order.(triagedAt := Some(env.now));
      assert order == Triaged(orders[id], triage, env.now);
      r := SaveAndStage(order, TriagedEvent, env);
    }

    // WorkOrderTriageConsumer.onWorkOrderCreated: `verdict` is the classifier's answer.
    method OnWorkOrderCreated(event: Event, verdict: Option<Triage>, env: Env) returns (r: Reply)
      modifies this
      ensures verdict.None? ==> r == Skipped && Tables() == old(Tables())
      ensures verdict.Some? ==>
        (Tables(), r) == Execute(old(Tables()), ApplyTriage(event.data.workOrderId, verdict.value), env)
    {
      if verdict.None? {
        return Skipped;
      }
      r := ApplyTriageTo(event.data.workOrderId, verdict.value, env);
    }
  }

  // Only an accepted call changes the tables, whatever the caller is told, and it
  // always stages exactly one event: the save without an event is never reached.
  lemma AcceptedStagesOneEvent(db: Db, call: Call, env: Env)
    ensures Accepted(db, call, env) <==> Writes(db, call, env)
    ensures var (after, r) := Execute(db, call, env);
      && (!Accepted(db, call, env) ==> after == db && !r.Saved?)
      && (Accepted(db, call, env) ==>
            var order := Decide(db.orders, call, env).order;
            && after.orders == db.orders[order.id := order]
            && |after.outbox| == |db.outbox| + 1 && after.outbox[..|db.outbox|] == db.outbox
            && after.outbox[|db.outbox|].event.data == Snapshot(order))
  {
  }

  // Which call gets which reply.
  lemma RepliesExactly(db: Db, call: Call, env: Env)
    ensures var (after, r) := Execute(db, call, env);
      && (r.NotFound? <==> (call.Assign? || call.UpdateStatus?) && call.id !in db.orders)
      && (r.Conflict? <==> (call.Assign? || call.UpdateStatus?) && call.id in db.orders && !Allowed(db, call))
      && (r.Skipped? <==> call.ApplyTriage? && !Allowed(db, call))
      && (r.Failed? <==> Allowed(db, call) && !env.commit.Ok?)
      && (r.Saved? <==> Allowed(db, call) && env.commit.Ok?)
      && (r.Saved? ==> r.order.id in after.orders && after.orders[r.order.id] == r.order)
  {
  }

  // ---------- History agrees with state ----------

  function History(db: Db, order: Uuid): seq<Event> {
    OfOrder(EventsOf(db.outbox), order)
  }

  // The row of an order agrees with the last event of its history.
  ghost predicate Agrees(db: Db, id: Uuid) {
    var history := History(db, id);
    && Chained(history)
    && (history == [] <==> id !in db.orders)
    && (id in db.orders ==>
          && db.orders[id].id == id
          && history[|history| - 1].data == Snapshot(db.orders[id])
          && (db.orders[id].triagedAt.Some? <==> TriageOf(db.orders[id]).Some?))
  }

  ghost predicate DbInv(db: Db) {
    RowsOk(db.outbox) && forall id :: Agrees(db, id)
  }

  // Generated keys are new, and the row id is above those of the same order.
  ghost predicate Fresh(db: Db, call: Call, env: Env) {
    && (call.Create? ==> env.orderId !in db.orders)
    && forall row | row in db.outbox ::
         && row.id != env.rowId && row.event.eventId != env.eventId
         && (row.Order() == Target(call, env) ==> row.id < env.rowId)
  }

  function Target(call: Call, env: Env): Uuid {
    if call.Create? then env.orderId else call.id
  }

  lemma StagedHistory(db: Db, order: WorkOrder, kind: EventType, env: Env, id: Uuid)
    requires Commits(env)
    ensures var after := SaveAndStage(db, order, kind, env).0;
      History(after, id) ==
        if id == order.id then History(db, id) + [Envelope(kind, order, env)] else History(db, id)
  {
    var after := SaveAndStage(db, order, kind, env).0;
    var e := Envelope(kind, order, env);
    assert EventsOf(after.outbox) == EventsOf(db.outbox) + [e];
    assert EventsOf(after.outbox)[..|db.outbox|] == EventsOf(db.outbox);
  }

  lemma StagingKeeps(db: Db, order: WorkOrder, kind: EventType, env: Env)
    requires DbInv(db) && Commits(env)
    requires forall row | row in db.outbox ::
      RowBefore(row, OutboxRow(env.rowId, Envelope(kind, order, env)))
    requires order.triagedAt.Some? <==> TriageOf(order).Some?
    requires order.id !in db.orders ==> Birth(Envelope(kind, order, env))
    requires order.id in db.orders ==> Follows(Snapshot(db.orders[order.id]), Envelope(kind, order, env))
    ensures DbInv(SaveAndStage(db, order, kind, env).0)
  {
    var after := SaveAndStage(db, order, kind, env).0;
    forall id ensures Agrees(after, id) {
      StagedHistory(db, order, kind, env, id);
      assert Agrees(db, id);
    }
  }

  lemma ExecuteKeeps(db: Db, call: Call, env: Env)
    requires DbInv(db) && Fresh(db, call, env)
    ensures DbInv(Execute(db, call, env).0)
  {
    if Writes(db, call, env) {
      if !call.Create? {
        assert Agrees(db, call.id);
      }
      var order := Decide(db.orders, call, env).order;
      match call
      case Create(dto) =>
        StagingKeeps(db, order, CreatedEvent, env);
      case Assign(id, assigneeId) =>
        StagingKeeps(db, order, AssignedEvent, env);
      case UpdateStatus(id, next) =>
        AllowedTargetsHaveEvents(db.orders[id].status, next);
        StagingKeeps(db, order, StatusEvent(next).value, env);
      case ApplyTriage(id, triage) =>
        StagingKeeps(db, order, TriagedEvent, env);
    }
  }

  // ---------- Runs of calls ----------

  datatype Request = Request(call: Call, env: Env)

  function AfterCalls(db: Db, calls: seq<Request>): Db {
    if calls == [] then db
    else
      var last := calls[|calls| - 1];
      Execute(AfterCalls(db, calls[..|calls| - 1]), last.call, last.env).0
  }

  ghost predicate AllFresh(db: Db, calls: seq<Request>) {
    calls == [] ||
    (var front, last := calls[..|calls| - 1], calls[|calls| - 1];
     AllFresh(db, front) && Fresh(AfterCalls(db, front), last.call, last.env))
  }

  lemma {:induction false} CallsConcat(db: Db, a: seq<Request>, b: seq<Request>)
    ensures AfterCalls(db, a + b) == AfterCalls(AfterCalls(db, a), b)
    ensures AllFresh(db, a + b) <==> AllFresh(db, a) && AllFresh(AfterCalls(db, a), b)
  {
    if b == [] {
      assert a + b == a;
    } else {
      assert (a + b)[..|a + b| - 1] == a + b[..|b| - 1];
      CallsConcat(db, a, b[..|b| - 1]);
    }
  }

  // After any calls, accepted, rejected or rolled back, every row equals the
  // payload of its newest event, and every history is a possible one.
  lemma {:induction false} HistoryAgreesWithState(calls: seq<Request>)
    requires AllFresh(EMPTY_DB, calls)
    ensures DbInv(AfterCalls(EMPTY_DB, calls))
  {
    var n := |calls| - 1;
    if calls != [] {
      HistoryAgreesWithState(calls[..n]);
      ExecuteKeeps(AfterCalls(EMPTY_DB, calls[..n]), calls[n].call, calls[n].env);
    }
  }

  // The lifecycle of every run: apart from triage, each order's events tell one
  // of the documented stories, and its status is the fold of its events.
  lemma StatusIsFold(calls: seq<Request>, id: Uuid)
    requires AllFresh(EMPTY_DB, calls) && id in AfterCalls(EMPTY_DB, calls).orders
    ensures var db := AfterCalls(EMPTY_DB, calls);
      && IsStory(WithoutTriage(Kinds(History(db, id))))
      && Replay(Kinds(History(db, id))) == Some(db.orders[id].status)
  {
    HistoryAgreesWithState(calls);
    var db := AfterCalls(EMPTY_DB, calls);
    assert Agrees(db, id);
    HistoryReplays(History(db, id));
    HistoryIsStory(History(db, id));
  }

  // The last row of an order in commit order holds the last event of its history.
  lemma {:induction false} LastRowOf(rows: seq<OutboxRow>, order: Uuid) returns (i: nat)
    requires OfOrder(EventsOf(rows), order) != []
    ensures i < |rows| && rows[i].Order() == order
    ensures forall j | i < j < |rows| :: rows[j].Order() != order
    ensures var history := OfOrder(EventsOf(rows), order); history[|history| - 1] == rows[i].event
  {
    var n := |rows| - 1;
    i := n;
    assert EventsOf(rows)[..n] == EventsOf(rows[..n]);
    if rows[n].Order() != order {
      i := LastRowOf(rows[..n], order);
      assert forall j | i < j < n :: rows[j] == rows[..n][j];
    }
  }

  // Of the outbox rows of an order, the one with the highest id carries the
  // snapshot of its current row: a reader that keeps the highest id per order
  // rebuilds the table of orders.
  lemma HighestIdIsCurrent(calls: seq<Request>, id: Uuid) returns (row: OutboxRow)
    requires AllFresh(EMPTY_DB, calls) && id in AfterCalls(EMPTY_DB, calls).orders
    ensures var db := AfterCalls(EMPTY_DB, calls);
      && row in db.outbox && row.Order() == id && row.event.data == Snapshot(db.orders[id])
      && (forall other | other in db.outbox && other.Order() == id && other != row :: other.id < row.id)
      && History(db, id) != [] && row.event == History(db, id)[|History(db, id)| - 1]
  {
    HistoryAgreesWithState(calls);
    var db := AfterCalls(EMPTY_DB, calls);
    assert Agrees(db, id);
    var i := LastRowOf(db.outbox, id);
    row := db.outbox[i];
    forall other | other in db.outbox && other.Order() == id && other != row ensures other.id < row.id {
      var j :| 0 <= j < |db.outbox| && db.outbox[j] == other;
      assert RowBefore(db.outbox[j], db.outbox[i]);
    }
  }

  // ---------- The last accepted call wins ----------

  datatype Aspect = Creation | Assignment | StatusChange | Classification | Anything

  predicate Sets(call: Call, aspect: Aspect) {
    match aspect
    case Creation => call.Create?
    case Assignment => call.Assign?
    case StatusChange => !call.ApplyTriage?
    case Classification => call.ApplyTriage?
    case Anything => true
  }

  // The last accepted call so far, given the one before.
  function Newer(db: Db, r: Request, id: Uuid, aspect: Aspect, before: Option<Request>): Option<Request> {
    if Target(r.call, r.env) == id && Sets(r.call, aspect) && Accepted(db, r.call, r.env) then Some(r) else before
  }

  function LastAccepted(calls: seq<Request>, id: Uuid, aspect: Aspect): Option<Request> {
    if calls == [] then None
    else
      var front, last := calls[..|calls| - 1], calls[|calls| - 1];
      Newer(AfterCalls(EMPTY_DB, front), last, id, aspect, LastAccepted(front, id, aspect))
  }

  // The row shows the last accepted call of each kind and nothing else, and an
  // order exists exactly if its creation was accepted.
  predicate Shows(db: Db, id: Uuid, created: Option<Request>, given: Option<Request>, moved: Option<Request>,
                  classified: Option<Request>) {
    if id in db.orders then ShowsRow(db.orders[id], id, created, given, moved, classified)
    else created.None? && given.None? && moved.None? && classified.None?
  }

  predicate ShowsRow(o: WorkOrder, id: Uuid, created: Option<Request>, given: Option<Request>,
                     moved: Option<Request>, classified: Option<Request>) {
    && o.id == id && created.Some? && created.value.call.Create?
    && ShowsCreation(o, created.value.call.dto) && o.createdAt == created.value.env.now
    && moved.Some? && Some(o.status) == ResultingStatus(moved.value.call)
    && (if given.Some? then given.value.call.Assign? && o.assigneeId == Some(given.value.call.assigneeId)
        else o.assigneeId.None?)
    && ShowsTriage(o, classified)
  }

  predicate ShowsCreation(o: WorkOrder, dto: NewOrder) {
    && o.title == dto.title && o.description == dto.description && o.propertyId == dto.propertyId
    && o.priority == if dto.priority.Some? then dto.priority.value else Medium
  }

  predicate ShowsTriage(o: WorkOrder, classified: Option<Request>) {
    match classified
    case None =>
      o.triageCategory.None? && o.triageUrgency.None? && o.triageReasoning.None? && o.triagedAt.None?
    case Some(r) =>
      && r.call.ApplyTriage? && o.triagedAt == Some(r.env.now)
      && o.triageCategory == Some(r.call.triage.category) && o.triageUrgency == Some(r.call.triage.urgency)
      && o.triageReasoning == Some(r.call.triage.reasoning)
  }

  function ResultingStatus(call: Call): Option<Status> {
    match call
    case Create(_) => Some(Open)
    case Assign(_, _) => Some(Assigned)
    case UpdateStatus(_, next) => Some(next)
    case ApplyTriage(_, _) => None
  }

  // The row of an order after a call that writes it.
  function RowAfter(db: Db, call: Call, env: Env): WorkOrder
    requires Writes(db, call, env)
  {
    Decide(db.orders, call, env).order
  }

  lemma RowOnlyByTarget(db: Db, call: Call, env: Env)
    requires Agrees(db, Target(call, env))
    ensures Execute(db, call, env).0.orders ==
      if Writes(db, call, env) then db.orders[Target(call, env) := RowAfter(db, call, env)] else db.orders
  {
  }

  lemma StillShowsTarget(db: Db, r: Request, created: Option<Request>, given: Option<Request>,
                         moved: Option<Request>, classified: Option<Request>)
    requires Shows(db, Target(r.call, r.env), created, given, moved, classified)
    requires Fresh(db, r.call, r.env) && Writes(db, r.call, r.env)
    ensures var id, o := Target(r.call, r.env), RowAfter(db, r.call, r.env);
      ShowsRow(o, id, Newer(db, r, id, Creation, created), Newer(db, r, id, Assignment, given),
               Newer(db, r, id, StatusChange, moved), Newer(db, r, id, Classification, classified))
  {
    AcceptedStagesOneEvent(db, r.call, r.env);
  }

  lemma StillShows(db: Db, id: Uuid, r: Request, created: Option<Request>, given: Option<Request>,
                   moved: Option<Request>, classified: Option<Request>)
    requires Shows(db, id, created, given, moved, classified)
    requires Agrees(db, Target(r.call, r.env)) && Fresh(db, r.call, r.env)
    ensures Shows(Execute(db, r.call, r.env).0, id,
                  Newer(db, r, id, Creation, created), Newer(db, r, id, Assignment, given),
                  Newer(db, r, id, StatusChange, moved), Newer(db, r, id, Classification, classified))
  {
    AcceptedStagesOneEvent(db, r.call, r.env);
    RowOnlyByTarget(db, r.call, r.env);
    if Writes(db, r.call, r.env) && Target(r.call, r.env) == id {
      StillShowsTarget(db, r, created, given, moved, classified);
    }
  }

  lemma {:induction false} LastAcceptedCallWins(calls: seq<Request>, id: Uuid)
    requires AllFresh(EMPTY_DB, calls)
    ensures Shows(AfterCalls(EMPTY_DB, calls), id,
                  LastAccepted(calls, id, Creation), LastAccepted(calls, id, Assignment),
                  LastAccepted(calls, id, StatusChange), LastAccepted(calls, id, Classification))
  {
    if calls != [] {
      var front, last := calls[..|calls| - 1], calls[|calls| - 1];
      LastAcceptedCallWins(front, id);
      HistoryAgreesWithState(front);
      StillShows(AfterCalls(EMPTY_DB, front), id, last,
                 LastAccepted(front, id, Creation), LastAccepted(front, id, Assignment),
                 LastAccepted(front, id, StatusChange), LastAccepted(front, id, Classification));
    }
  }

  // ---------- What the newest event says ----------

  // The payload, field by field, says what the last accepted calls of the order said.
  predicate Carries(d: EventData, id: Uuid, created: Option<Request>, given: Option<Request>,
                    moved: Option<Request>, classified: Option<Request>) {
    && d.workOrderId == id
    && created.Some? && created.value.call.Create?
    && d.title == created.value.call.dto.title && d.description == created.value.call.dto.description
    && d.propertyId == created.value.call.dto.propertyId
    && d.priority == (match created.value.call.dto.priority case Some(p) => p case None => Medium)
    && moved.Some? && Some(d.status) == ResultingStatus(moved.value.call)
    && (given.Some? ==> given.value.call.Assign?) && (classified.Some? ==> classified.value.call.ApplyTriage?)
    && d.assigneeId == (if given.Some? then Some(given.value.call.assigneeId) else None)
    && d.triage == if classified.Some? then Some(classified.value.call.triage) else None
  }

  lemma SnapshotCarries(o: WorkOrder, id: Uuid, created: Option<Request>, given: Option<Request>,
                        moved: Option<Request>, classified: Option<Request>)
    requires ShowsRow(o, id, created, given, moved, classified)
    ensures Carries(Snapshot(o), id, created, given, moved, classified)
  {
  }

  // The event type a call is announced with.
  function Announced(call: Call): Option<EventType> {
    match call
    case Create(_) => Some(CreatedEvent)
    case Assign(_, _) => Some(AssignedEvent)
    case UpdateStatus(_, InProgress) => Some(StartedEvent)
    case UpdateStatus(_, Completed) => Some(CompletedEvent)
    case UpdateStatus(_, Cancelled) => Some(CancelledEvent)
    case UpdateStatus(_, _) => None
    case ApplyTriage(_, _) => Some(TriagedEvent)
  }

  // The envelope is that of the call: its key, its time, its request context.
  predicate Announces(e: Event, r: Request) {
    && e.eventId == r.env.eventId && Some(e.kind) == Announced(r.call) && e.occurredAt == r.env.now
    && e.correlationId == r.env.correlationId && e.actorId == r.env.actorId
  }

  lemma EnvelopeAnnounces(db: Db, r: Request)
    requires Writes(db, r.call, r.env) && Decide(db.orders, r.call, r.env).kind.Some?
    ensures var decision := Decide(db.orders, r.call, r.env);
      Announces(Envelope(decision.kind.value, decision.order, r.env), r)
  {
  }

  // The history of an order after a call: as it was, or with one more event.
  lemma HistoryAfter(db: Db, r: Request, id: Uuid)
    requires Agrees(db, Target(r.call, r.env))
    ensures var history, after := History(db, id), History(Execute(db, r.call, r.env).0, id);
      if Accepted(db, r.call, r.env) && Target(r.call, r.env) == id
      then |after| == |history| + 1 && Announces(after[|history|], r)
      else after == history
  {
    AcceptedStagesOneEvent(db, r.call, r.env);
    if Writes(db, r.call, r.env) {
      var decision := Decide(db.orders, r.call, r.env);
      if r.call.UpdateStatus? {
        AllowedTargetsHaveEvents(db.orders[r.call.id].status, r.call.next);
      }
      StagedHistory(db, decision.order, decision.kind.value, r.env, id);
      EnvelopeAnnounces(db, r);
    }
  }

  lemma CallAnnounced(db: Db, r: Request, id: Uuid, before: Option<Request>)
    requires Agrees(db, id) && Agrees(db, Target(r.call, r.env)) && Fresh(db, r.call, r.env)
    requires var history := History(db, id);
      history != [] ==> before.Some? && Announces(history[|history| - 1], before.value)
    ensures var history, last := History(Execute(db, r.call, r.env).0, id), Newer(db, r, id, Anything, before);
      history != [] ==> last.Some? && Announces(history[|history| - 1], last.value)
  {
    HistoryAfter(db, r, id);
  }

  lemma {:induction false} NewestEventAnnounces(calls: seq<Request>, id: Uuid)
    requires AllFresh(EMPTY_DB, calls)
    ensures var history, last := History(AfterCalls(EMPTY_DB, calls), id), LastAccepted(calls, id, Anything);
      history != [] ==> last.Some? && Announces(history[|history| - 1], last.value)
  {
    if calls != [] {
      var front, last := calls[..|calls| - 1], calls[|calls| - 1];
      NewestEventAnnounces(front, id);
      HistoryAgreesWithState(front);
      CallAnnounced(AfterCalls(EMPTY_DB, front), last, id, LastAccepted(front, id, Anything));
    }
  }

  // The outbox row with the highest id of an order announces the last accepted
  // call, and its payload says, field by field, what the accepted calls said.
  lemma HighestIdTells(calls: seq<Request>, id: Uuid) returns (row: OutboxRow)
    requires AllFresh(EMPTY_DB, calls) && id in AfterCalls(EMPTY_DB, calls).orders
    ensures row in AfterCalls(EMPTY_DB, calls).outbox && row.event.data.workOrderId == id
    ensures forall other | other in AfterCalls(EMPTY_DB, calls).outbox && other.event.data.workOrderId == id ::
      other == row || other.id < row.id
    ensures LastAccepted(calls, id, Anything).Some? && Announces(row.event, LastAccepted(calls, id, Anything).value)
    ensures Carries(row.event.data, id,
                    LastAccepted(calls, id, Creation), LastAccepted(calls, id, Assignment),
                    LastAccepted(calls, id, StatusChange), LastAccepted(calls, id, Classification))
  {
    row := HighestIdIsCurrent(calls, id);
    LastAcceptedCallWins(calls, id);
    NewestEventAnnounces(calls, id);
    SnapshotCarries(AfterCalls(EMPTY_DB, calls).orders[id], id,
                    LastAccepted(calls, id, Creation), LastAccepted(calls, id, Assignment),
                    LastAccepted(calls, id, StatusChange), LastAccepted(calls, id, Classification));
  }

  // An order gets at most one triaged event, and its row keeps that classification.
  lemma TriageIsOnce(db: Db, id: Uuid, i: nat)
    requires DbInv(db) && i < |History(db, id)| && History(db, id)[i].kind == TriagedEvent
    ensures forall j | 0 <= j < |History(db, id)| && j != i :: History(db, id)[j].kind != TriagedEvent
    ensures id in db.orders && TriageOf(db.orders[id]).Some?
    ensures TriageOf(db.orders[id]) == History(db, id)[i].data.triage
  {
    var history := History(db, id);
    assert Agrees(db, id);
    forall j | 0 <= j < |history| && j != i ensures history[j].kind != TriagedEvent {
      if i < j {
        HistorySettles(history, i, j);
      } else if history[j].kind == TriagedEvent {
        HistorySettles(history, j, i);
      }
    }
    HistorySettles(history, i, |history| - 1);
  }

  // ---------- Triage is independent of the lifecycle ----------

  function OrdersAfter(orders: map<Uuid, WorkOrder>, call: Call, env: Env): map<Uuid, WorkOrder> {
    match Decide(orders, call, env)
    case Refuse(_) => orders
    case Write(order, _) => if Commits(env) then orders[order.id := order] else orders
  }

  lemma OrdersDecide(db: Db, call: Call, env: Env)
    ensures Execute(db, call, env).0.orders == OrdersAfter(db.orders, call, env)
  {
  }

  ghost predicate Keyed(orders: map<Uuid, WorkOrder>) {
    forall id | id in orders :: orders[id].id == id
  }

  lemma TriageCommutes(orders: map<Uuid, WorkOrder>, id: Uuid, triage: Triage, env: Env, other: Request)
    requires Keyed(orders) && id in orders && !(other.call.ApplyTriage? && other.call.id == id)
    requires other.call.Create? ==> other.env.orderId !in orders
    ensures var t := ApplyTriage(id, triage);
      OrdersAfter(OrdersAfter(orders, t, env), other.call, other.env) ==
      OrdersAfter(OrdersAfter(orders, other.call, other.env), t, env)
  {
  }

  // A triage call moved past any run of other calls leaves every row the same.
  lemma {:induction false} TriageMoves(db: Db, id: Uuid, triage: Triage, env: Env, calls: seq<Request>)
    requires DbInv(db) && id in db.orders && AllFresh(db, calls)
    requires forall r | r in calls :: !(r.call.ApplyTriage? && r.call.id == id)
    ensures var t := ApplyTriage(id, triage);
      AfterCalls(Execute(db, t, env).0, calls).orders == Execute(AfterCalls(db, calls), t, env).0.orders
    ensures DbInv(AfterCalls(db, calls)) && id in AfterCalls(db, calls).orders
  {
    if calls != [] {
      var n := |calls| - 1;
      var t, last := ApplyTriage(id, triage), calls[n];
      TriageMoves(db, id, triage, env, calls[..n]);
      var before, triaged := AfterCalls(db, calls[..n]), AfterCalls(Execute(db, t, env).0, calls[..n]);
      ExecuteKeeps(before, last.call, last.env);
      assert Keyed(before.orders) by {
        forall k | k in before.orders ensures before.orders[k].id == k { assert Agrees(before, k); }
      }
      OrdersDecide(before, t, env);
      OrdersDecide(before, last.call, last.env);
      OrdersDecide(triaged, last.call, last.env);
      OrdersDecide(Execute(before, last.call, last.env).0, t, env);
      TriageCommutes(before.orders, id, triage, env, last);
    }
  }

  // Wherever among the calls the triage is inserted, the final table is the
  // same: status, assignee, triage and everything else.
  lemma TriageIsIndependent(db: Db, id: Uuid, triage: Triage, env: Env, calls: seq<Request>, i: nat, j: nat)
    requires DbInv(db) && id in db.orders && AllFresh(db, calls) && i <= |calls| && j <= |calls|
    requires forall r | r in calls :: !(r.call.ApplyTriage? && r.call.id == id)
    ensures var t := Request(ApplyTriage(id, triage), env);
      AfterCalls(db, calls[..i] + [t] + calls[i..]).orders == AfterCalls(db, calls[..j] + [t] + calls[j..]).orders
  {
    TriageLast(db, id, triage, env, calls, i);
    TriageLast(db, id, triage, env, calls, j);
  }

  lemma TriageLast(db: Db, id: Uuid, triage: Triage, env: Env, calls: seq<Request>, i: nat)
    requires DbInv(db) && id in db.orders && AllFresh(db, calls) && i <= |calls|
    requires forall r | r in calls :: !(r.call.ApplyTriage? && r.call.id == id)
    ensures var t := Request(ApplyTriage(id, triage), env);
      AfterCalls(db, calls[..i] + [t] + calls[i..]).orders == AfterCalls(db, calls + [t]).orders
  {
    var t, a, b := Request(ApplyTriage(id, triage), env), calls[..i], calls[i..];
    assert calls == a + b;
    CallsConcat(db, a, b);
    TriageMoves(db, id, triage, env, a);
    TriageMoves(AfterCalls(db, a), id, triage, env, b);
    CallsConcat(db, a + [t], b);
    AfterOne(db, a, t);
    AfterOne(db, calls, t);
  }

  lemma AfterOne(db: Db, calls: seq<Request>, r: Request)
    ensures AfterCalls(db, calls + [r]) == Execute(AfterCalls(db, calls), r.call, r.env).0
  {
  }
}
