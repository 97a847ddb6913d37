// Two relay instances, as deployed: the audit trail of a work order can miss its
// created event while it holds a later one, without any failure.
module TwoRelays {
  import opened Contracts
  import opened Events
  import opened Lifecycle
  import W = WorkOrders
  import R = RelayProtocol
  import O = RelayOrder
  import A = Audit
  import opened P = Pipeline

  predicate Flawless(a: Action) {
    && (a.Relay? ==> !a.relay.Abort?)
    && (a.Relay? && (a.relay.Publish? || a.relay.Record?) ==> a.relay.outcome.Ok?)
    && (a.Consumer? && a.audit.Handle? ==> a.audit.outcome.Ok?)
  }

  predicate NothingFails(acts: seq<Action>) {
    forall a | a in acts :: Flawless(a)
  }

  ghost predicate Leads(acts: seq<Action>, s: System) {
    P.Leads(acts, s) && NothingFails(acts)
  }

  lemma Then(acts: seq<Action>, s: System, a: Action) returns (more: seq<Action>, next: System)
    requires Leads(acts, s) && Enabled(s, a) && Flawless(a)
    ensures more == acts + [a] && next == Next(s, a) && Leads(more, next)
  {
    more, next := P.Then(acts, s, a);
  }

  // What the outside supplies to the two calls: the same order, two events.
  predicate InTurn(first: W.Env, second: W.Env) {
    W.Commits(first) && W.Commits(second) && first.rowId < second.rowId && first.eventId != second.eventId
  }

  // An order is created, and relay 0 claims its created event.
  lemma FirstClaims(dto: W.NewOrder, env: W.Env) returns (acts: seq<Action>, s: System)
    requires W.Commits(env)
    ensures Leads(acts, s)
    ensures var order := W.NewRow(dto, env);
      var row := OutboxRow(env.rowId, W.Envelope(CreatedEvent, order, env));
      && s.db == W.Db(map[env.orderId := order], [row])
      && s.relay == R.INIT.(rows := [row], ticks := map[0 := R.Tick([row], 0, 0, 0)])
      && s.audit == A.INIT
  {
    var row := OutboxRow(env.rowId, W.Envelope(CreatedEvent, W.NewRow(dto, env), env));
    acts, s := Then([], INIT, UserCall(W.Create(dto), env));
    O.OnlyRowIsClaim(s.relay, row);
    acts, s := Then(acts, s, Relay(R.Claim(0, [row])));
  }

  // The order is assigned: its row and a second event.
  lemma ThenAssigned(acts: seq<Action>, s: System, assigneeId: Uuid, id: Uuid, env: W.Env)
      returns (more: seq<Action>, next: System)
    requires Leads(acts, s) && W.Fresh(s.db, W.Assign(id, assigneeId), env) && W.Commits(env)
    requires id in s.db.orders && s.db.orders[id].id == id && s.db.orders[id].status == Open
    ensures Leads(more, next)
    ensures next.audit == s.audit && next.relay == s.relay.(rows := next.db.outbox)
    ensures |next.db.outbox| == |s.db.outbox| + 1 && next.db.outbox[..|s.db.outbox|] == s.db.outbox
    ensures var row := next.db.outbox[|s.db.outbox|];
      row.Order() == id && row.id == env.rowId && row.event.eventId == env.eventId && row.event.kind == AssignedEvent
  {
    more, next := Then(acts, s, UserCall(W.Assign(id, assigneeId), env));
  }

  // While relay 0 still holds the created event, the order is assigned.
  lemma FirstHeld(dto: W.NewOrder, assigneeId: Uuid, first: W.Env, second: W.Env)
      returns (acts: seq<Action>, s: System, created: OutboxRow, later: OutboxRow)
    requires InTurn(first, second)
    ensures Leads(acts, s) && s.db.outbox == [created, later]
    ensures created.Order() == later.Order() == first.orderId
    ensures created.event.kind == CreatedEvent && later.event.kind == AssignedEvent
    ensures s.relay == R.INIT.(rows := [created, later], ticks := map[0 := R.Tick([created], 0, 0, 0)])
    ensures s.audit == A.INIT
  {
    acts, s := FirstClaims(dto, first);
    created := s.db.outbox[0];
    acts, s := ThenAssigned(acts, s, assigneeId, first.orderId, second);
    later := s.db.outbox[1];
  }

  lemma OnlySecondIsFree(relay: R.State, created: OutboxRow, later: OutboxRow)
    requires created != later
    requires relay == R.INIT.(rows := [created, later], ticks := map[0 := R.Tick([created], 0, 0, 0)])
    ensures R.IsLowest(relay, [later])
  {
    assert R.Locked(relay, created) by { assert created in relay.ticks[0].batch; }
    O.OnlyRowIsClaim(relay, later);
  }

  // Relay 1 can only claim the assigned event.
  lemma BothClaim(dto: W.NewOrder, assigneeId: Uuid, first: W.Env, second: W.Env)
      returns (acts: seq<Action>, s: System, created: OutboxRow, later: OutboxRow)
    requires InTurn(first, second)
    ensures Leads(acts, s) && s.db.outbox == [created, later] == s.relay.rows
    ensures created.Order() == later.Order() == first.orderId
    ensures created.event.kind == CreatedEvent && later.event.kind == AssignedEvent
    ensures s.relay.log == [] && s.relay.rabbit == [] && s.audit == A.INIT
    ensures 1 in s.relay.ticks && s.relay.ticks[1] == R.Tick([later], 0, 0, 0)
  {
    acts, s, created, later := FirstHeld(dto, assigneeId, first, second);
    OnlySecondIsFree(s.relay, created, later);
    acts, s := Then(acts, s, Relay(R.Claim(1, [later])));
  }

  lemma HistoryOfTwo(created: OutboxRow, later: OutboxRow)
    requires created.Order() == later.Order()
    ensures OfOrder(EventsOf([created, later]), later.Order()) == [created.event, later.event]
  {
    var one, both := [created.event], [created.event, later.event];
    assert EventsOf([created, later]) == both && both[..1] == one && one[..0] == [];
    assert OfOrder(one, later.Order()) == one;
  }

  lemma TrailOfOne(e: Event)
    ensures OfOrder(A.RecordedAll([A.RowFor(1, e)]), e.data.workOrderId) == [e]
    ensures e.kind == AssignedEvent ==> Replay(Kinds([e])).None?
  {
  }

  lemma ThenForwarded(acts: seq<Action>, s: System, row: OutboxRow) returns (more: seq<Action>, next: System)
    requires Leads(acts, s) && 1 in s.relay.ticks && s.relay.ticks[1] == R.Tick([row], 0, 0, 0)
    ensures Leads(more, next) && next.db == s.db && next.audit == s.audit
    ensures next.relay.log == s.relay.log + [row.event]
  {
    more, next := Then(acts, s, Relay(R.Publish(1, Ok)));
    more, next := Then(more, next, Relay(R.Record(1, Ok)));
  }

  // Relay 1 publishes, and the audit consumer records what it sees.
  lemma OnlyTheLater(dto: W.NewOrder, assigneeId: Uuid, first: W.Env, second: W.Env)
      returns (acts: seq<Action>, s: System, created: OutboxRow, later: OutboxRow)
    requires InTurn(first, second)
    ensures Leads(acts, s) && s.db.outbox == [created, later]
    ensures created.Order() == later.Order() == first.orderId
    ensures created.event.kind == CreatedEvent && later.event.kind == AssignedEvent
    ensures s.audit.table == [A.RowFor(1, later.event)]
  {
    acts, s, created, later := BothClaim(dto, assigneeId, first, second);
    acts, s := ThenForwarded(acts, s, later);
    acts, s := Then(acts, s, Consumer(A.Handle(Ok)));
  }

  // So for every order there is a run without failures in which the trail is not
  // a prefix of the history, and in which the feed tells a story that the
  // transition tables do not allow.
  lemma TrailMissesCreated(dto: W.NewOrder, assigneeId: Uuid, first: W.Env, second: W.Env)
      returns (acts: seq<Action>)
    requires InTurn(first, second)
    ensures Legal(acts) && NothingFails(acts)
    ensures !(Trail(After(acts), first.orderId) <= W.History(After(acts).db, first.orderId))
    ensures Trail(After(acts), first.orderId) != [] && Replay(Kinds(Trail(After(acts), first.orderId))).None?
  {
    var s, created, later;
    acts, s, created, later := OnlyTheLater(dto, assigneeId, first, second);
    HistoryOfTwo(created, later);
    TrailOfOne(later.event);
    assert W.History(s.db, first.orderId)[0] == created.event;
    assert created.event.kind != later.event.kind;
  }
}
