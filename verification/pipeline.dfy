// The whole pipeline as one machine: calls change work orders and stage events,
// relays forward them, the audit consumer projects the topic, the notification
// consumers work off their queues, and triage feeds back into the write side.
module Pipeline {
  import opened Contracts
  import opened Events
  import W = WorkOrders
  import R = RelayProtocol
  import O = RelayOrder
  import A = Audit
  import N = Notifications
  import L = NotificationLaws

  datatype System = System(db: W.Db, relay: R.State, audit: A.State, notes: N.State)

  const INIT := System(W.EMPTY_DB, R.INIT, A.INIT, N.INIT)

  datatype Action =
    | UserCall(call: W.Call, env: W.Env)
    | TriageDelivery(event: Event, verdict: Triage, env: W.Env)
    | Relay(relay: R.Action)
    | Consumer(audit: A.Action)
    | Notifier(notes: N.Action)

  ghost predicate Enabled(s: System, a: Action) {
    match a
    case UserCall(call, env) => !call.ApplyTriage? && W.Fresh(s.db, call, env)
    // the triage consumer reacts to created events that RabbitMQ holds
    case TriageDelivery(e, verdict, env) =>
      e in s.relay.rabbit && e.kind.CreatedEvent? && W.Fresh(s.db, W.ApplyTriage(e.data.workOrderId, verdict), env)
    case Relay(r) => !r.Stage? && R.Enabled(s.relay, r)
    case Consumer(c) => A.Enabled(s.audit, s.relay.log, c)
    case Notifier(n) => !n.Arrive? && N.Enabled(s.notes, n)
  }

  // The notification queue bound to an event type.
  function QueueFor(kind: EventType): Option<N.Queue> {
    match kind
    case CreatedEvent => Some(N.CreatedQueue)
    case CompletedEvent => Some(N.CompletedQueue)
    case _ => None
  }

  // A published event reaches the queue bound to its type, without an attempt header.
  function Routed(notes: N.State, e: Event): N.State {
    if QueueFor(e.kind).Some? then N.Next(notes, N.Arrive(QueueFor(e.kind).value, e, N.Missing)) else notes
  }

  // A call's new outbox row is what the relays see next.
  function Called(s: System, call: W.Call, env: W.Env): System {
    var db := W.Execute(s.db, call, env).0;
    s.(db := db, relay := s.relay.(rows := db.outbox))
  }

  function Next(s: System, a: Action): System
    requires Enabled(s, a)
  {
    match a
    case UserCall(call, env) => Called(s, call, env)
    case TriageDelivery(e, verdict, env) => Called(s, W.ApplyTriage(e.data.workOrderId, verdict), env)
    case Relay(r) =>
      var relay := R.Next(s.relay, r);
      s.(relay := relay,
         notes := if |relay.rabbit| > |s.relay.rabbit| then Routed(s.notes, relay.rabbit[|relay.rabbit| - 1])
                  else s.notes)
    case Consumer(c) => s.(audit := A.Next(s.audit, s.relay.log, c))
    case Notifier(n) => s.(notes := N.Next(s.notes, n))
  }

  ghost predicate Legal(acts: seq<Action>)
    decreases |acts|, 0
  {
    acts == [] ||
    (Legal(acts[..|acts| - 1]) && Enabled(After(acts[..|acts| - 1]), acts[|acts| - 1]))
  }

  ghost function After(acts: seq<Action>): System
    requires Legal(acts)
    decreases |acts|, 1
  {
    if acts == [] then INIT else Next(After(acts[..|acts| - 1]), acts[|acts| - 1])
  }

  // `acts` leads from the initial state to `s`.
  ghost predicate Leads(acts: seq<Action>, s: System) {
    Legal(acts) && After(acts) == s
  }

  lemma Then(acts: seq<Action>, s: System, a: Action) returns (more: seq<Action>, next: System)
    requires Leads(acts, s) && Enabled(s, a)
    ensures more == acts + [a] && next == Next(s, a) && Leads(more, next)
  {
    more, next := acts + [a], Next(s, a);
    assert more[..|acts|] == acts;
  }

  // ---------- Runs of one part, as runs of the whole ----------

  function NotifierSteps(acts: seq<N.Action>): seq<Action> {
    seq(|acts|, i requires 0 <= i < |acts| => Notifier(acts[i]))
  }

  lemma NotifierStepLifts(acts: seq<Action>, s: System, notes: N.State, n: N.Action, end: N.State)
    requires Leads(acts, s.(notes := notes)) && N.Enabled(notes, n) && end == N.Next(notes, n) && !n.Arrive?
    ensures Leads(acts + [Notifier(n)], s.(notes := end))
  {
    var all, next := Then(acts, s.(notes := notes), Notifier(n));
  }

  lemma NotifierStepsAppend(acts: seq<Action>, front: seq<N.Action>, last: N.Action)
    ensures (acts + NotifierSteps(front)) + [Notifier(last)] == acts + NotifierSteps(front + [last])
  {
    assert NotifierSteps(front + [last]) == NotifierSteps(front) + [Notifier(last)];
  }

  lemma {:induction false} NotifierRunLifts(acts: seq<Action>, s: System, notes: seq<N.Action>, end: N.State)
    requires Leads(acts, s) && N.Leads(s.notes, notes, end) && forall n | n in notes :: !n.Arrive?
    ensures Leads(acts + NotifierSteps(notes), s.(notes := end))
    decreases |notes|
  {
    if notes == [] {
      assert acts + NotifierSteps(notes) == acts;
    } else {
      var front, before, last := N.LastStep(s.notes, notes, end);
      NotifierRunLifts(acts, s, front, before);
      NotifierStepLifts(acts + NotifierSteps(front), s, before, last, end);
      NotifierStepsAppend(acts, front, last);
    }
  }

  // ---------- The invariant of every run ----------

  ghost predicate Linked(relay: R.State, notes: N.State) {
    && (forall e | e in relay.rabbit && QueueFor(e.kind).Some? ::
          N.Key(QueueFor(e.kind).value, e) in notes.arrived)
    && (forall k | k in notes.arrived :: k.event in relay.rabbit && QueueFor(k.event.kind) == Some(k.queue))
  }

  ghost predicate NotesOk(notes: N.State) {
    L.Truthful(notes) && forall key :: L.Conserved(notes, key)
  }

  // Triage is applied only after the order's created event went out.
  ghost predicate TriageCaused(s: System) {
    forall row | row in s.db.outbox && row.event.kind.TriagedEvent? ::
      exists e | e in s.relay.rabbit :: e.kind.CreatedEvent? && e.data.workOrderId == row.Order()
  }

  ghost predicate Inv(s: System) {
    && W.DbInv(s.db)
    && s.relay.rows == s.db.outbox && R.Inv(s.relay)
    && A.Inv(s.audit, s.relay.log)
    && NotesOk(s.notes) && Linked(s.relay, s.notes)
    && TriageCaused(s)
  }

  lemma InitInv()
    ensures Inv(INIT)
  {
  }

  // A call either leaves the outbox alone or is a Stage step of the relay protocol.
  lemma CallIsStage(s: System, call: W.Call, env: W.Env)
    requires W.DbInv(s.db) && s.relay.rows == s.db.outbox && W.Fresh(s.db, call, env)
    ensures var n := Called(s, call, env);
      n.relay == s.relay ||
      (exists row :: R.Enabled(s.relay, R.Stage(row)) && n.relay == R.Next(s.relay, R.Stage(row)) &&
         row.Order() == W.Target(call, env) && (row.event.kind.TriagedEvent? ==> call.ApplyTriage?))
  {
    var db := W.Execute(s.db, call, env).0;
    if W.Writes(s.db, call, env) {
      assert W.Agrees(s.db, W.Target(call, env));
      W.AcceptedStagesOneEvent(s.db, call, env);
      var row := db.outbox[|s.db.outbox|];
      assert db.outbox == s.db.outbox + [row];
      assert R.Enabled(s.relay, R.Stage(row));
    }
  }

  lemma CallKeeps(s: System, call: W.Call, env: W.Env)
    requires Inv(s) && W.Fresh(s.db, call, env)
    requires call.ApplyTriage? ==>
      exists e | e in s.relay.rabbit :: e.kind.CreatedEvent? && e.data.workOrderId == call.id
    ensures Inv(Called(s, call, env))
  {
    var n := Called(s, call, env);
    W.ExecuteKeeps(s.db, call, env);
    CallIsStage(s, call, env);
    if n.relay != s.relay {
      var row :| R.Enabled(s.relay, R.Stage(row)) && n.relay == R.Next(s.relay, R.Stage(row)) &&
        row.Order() == W.Target(call, env) && (row.event.kind.TriagedEvent? ==> call.ApplyTriage?);
      R.StageKeeps(s.relay, row);
      StagedTriageIsCaused(s, n, row);
    }
  }

  lemma StagedTriageIsCaused(s: System, n: System, row: OutboxRow)
    requires TriageCaused(s) && n.relay.rabbit == s.relay.rabbit && n.db.outbox == s.db.outbox + [row]
    requires row.event.kind.TriagedEvent? ==>
      exists e | e in s.relay.rabbit :: e.kind.CreatedEvent? && e.data.workOrderId == row.Order()
    ensures TriageCaused(n)
  {
  }

  lemma NotesStep(notes: N.State, a: N.Action)
    requires NotesOk(notes) && N.Enabled(notes, a)
    ensures NotesOk(N.Next(notes, a))
  {
    L.StepTruthful(notes, a);
    forall key ensures L.Conserved(N.Next(notes, a), key) {
      L.StepConserves(notes, a, key);
    }
  }

  // What a relay step does to the brokers: at most one more message each.
  lemma RelayAppends(s: R.State, r: R.Action)
    requires R.Inv(s) && R.Enabled(s, r) && !r.Stage?
    ensures var n := R.Next(s, r);
      && n.rows == s.rows && s.log <= n.log
      && (n.rabbit == s.rabbit || (|n.rabbit| == |s.rabbit| + 1 && s.rabbit <= n.rabbit))
  {
  }

  // A message that RabbitMQ accepts reaches its notification queue.
  lemma RouteKeeps(relay: R.State, n: R.State, notes: N.State, e: Event)
    requires NotesOk(notes) && Linked(relay, notes) && n.rabbit == relay.rabbit + [e]
    ensures NotesOk(Routed(notes, e)) && Linked(n, Routed(notes, e))
  {
    if QueueFor(e.kind).Some? {
      NotesStep(notes, N.Arrive(QueueFor(e.kind).value, e, N.Missing));
    }
  }

  // What a relay step does to the rest of the system.
  lemma RelayRoutes(s: System, r: R.Action)
    requires Inv(s) && Enabled(s, Relay(r))
    ensures var n, relay := Next(s, Relay(r)), R.Next(s.relay, r);
      && n == s.(relay := relay, notes := n.notes) && relay.rows == s.relay.rows && s.relay.log <= relay.log
      && ((relay.rabbit == s.relay.rabbit && n.notes == s.notes) ||
          (|relay.rabbit| == |s.relay.rabbit| + 1 &&
             var e := relay.rabbit[|s.relay.rabbit|];
             relay.rabbit == s.relay.rabbit + [e] && n.notes == Routed(s.notes, e)))
  {
    RelayAppends(s.relay, r);
  }

  lemma TriageStaysCaused(s: System, n: System)
    requires TriageCaused(s) && n.db == s.db && s.relay.rabbit <= n.relay.rabbit
    ensures TriageCaused(n)
  {
  }

  lemma RelayKeeps(s: System, r: R.Action)
    requires Inv(s) && Enabled(s, Relay(r))
    ensures Inv(Next(s, Relay(r)))
  {
    var n := Next(s, Relay(r));
    R.StepKeeps(s.relay, r);
    RelayRoutes(s, r);
    A.LogGrows(s.audit, s.relay.log, n.relay.log);
    if n.relay.rabbit != s.relay.rabbit {
      RouteKeeps(s.relay, n.relay, s.notes, n.relay.rabbit[|s.relay.rabbit|]);
    }
    TriageStaysCaused(s, n);
  }

  lemma NotifierKeeps(s: System, a: N.Action)
    requires Inv(s) && Enabled(s, Notifier(a))
    ensures Inv(Next(s, Notifier(a)))
  {
    NotesStep(s.notes, a);
  }

  lemma StepKeeps(s: System, a: Action)
    requires Inv(s) && Enabled(s, a)
    ensures Inv(Next(s, a))
  {
    match a
    case UserCall(call, env) => CallKeeps(s, call, env);
    case TriageDelivery(e, verdict, env) => CallKeeps(s, W.ApplyTriage(e.data.workOrderId, verdict), env);
    case Relay(r) => RelayKeeps(s, r);
    case Consumer(c) => A.StepKeeps(s.audit, s.relay.log, c);
    case Notifier(n) => NotifierKeeps(s, n);
  }

  // Any number of relays, any failures, crashes and rewinds.
  lemma {:induction false} EveryRun(acts: seq<Action>)
    requires Legal(acts)
    ensures Inv(After(acts))
  {
    if acts == [] {
      InitInv();
    } else {
      EveryRun(acts[..|acts| - 1]);
      StepKeeps(After(acts[..|acts| - 1]), acts[|acts| - 1]);
    }
  }

  // ---------- No silent loss ----------

  lemma SameIdSameEvent(relay: R.State, a: Event, b: Event)
    requires R.Inv(relay) && a in relay.rabbit && b in relay.rabbit && a.eventId == b.eventId
    ensures a == b
  {
  }

  // Where a created or completed event has to be handled.
  function KeyFor(e: Event): N.Key
    requires e.kind in {CreatedEvent, CompletedEvent}
  {
    N.Key(if e.kind == CreatedEvent then N.CreatedQueue else N.CompletedQueue, e)
  }

  // In every reachable state, every committed created or completed event is
  // still unstamped in the outbox, or waits in its main, retry or dead-letter
  // queue, or its notification was sent at least once.
  lemma NoSilentLoss(acts: seq<Action>, row: OutboxRow)
    requires Legal(acts) && row in After(acts).db.outbox && row.event.kind in {CreatedEvent, CompletedEvent}
    ensures var s := After(acts);
      || row !in s.relay.done
      || L.Waiting(s.notes, KeyFor(row.event))
      || row.event in s.notes.sent
  {
    EveryRun(acts);
    var s, key := After(acts), KeyFor(row.event);
    if row in s.relay.done {
      assert row.event in s.relay.rabbit && key in s.notes.arrived;
      assert L.Conserved(s.notes, key);
      L.NoSilentLoss(s.notes, key);
      if !L.Waiting(s.notes, key) {
        var k :| 0 <= k < |s.notes.sent| && s.notes.sent[k].eventId == row.event.eventId;
        var e := s.notes.sent[k];
        assert e in s.notes.sent;
        var q: N.Queue :| N.Key(q, e) in s.notes.arrived;
        SameIdSameEvent(s.relay, e, row.event);
      }
    }
  }

  // No phantoms: every audit row and every notification is of a committed event.
  lemma NoPhantoms(acts: seq<Action>, e: Event)
    requires Legal(acts) && (e in A.RecordedAll(After(acts).audit.table) || e in After(acts).notes.sent)
    ensures R.FromOutbox(After(acts).db.outbox, e)
  {
    EveryRun(acts);
    var s := After(acts);
    if e in A.RecordedAll(s.audit.table) {
      FirstsSound(s.relay.log[..s.audit.high]);
    } else {
      var q: N.Queue :| N.Key(q, e) in s.notes.arrived;
      assert e in s.relay.rabbit;
    }
  }

  // ---------- Order, end to end ----------

  // Every claim is safe when it is made: it skips no locked row of an order it
  // takes a later row of, unless the topic holds that row already.
  ghost predicate ClaimsSafe(acts: seq<Action>)
    requires Legal(acts)
  {
    acts == [] ||
    (var front, a := acts[..|acts| - 1], acts[|acts| - 1];
     ClaimsSafe(front) && (a.Relay? && a.relay.Claim? ==> O.SafeClaim(After(front).relay, a.relay.batch)))
  }

  // No tick starts while another one is open.
  ghost predicate OneTickAtATime(acts: seq<Action>)
    requires Legal(acts)
  {
    acts == [] ||
    (var front, a := acts[..|acts| - 1], acts[|acts| - 1];
     OneTickAtATime(front) && (a.Relay? && a.relay.Claim? ==> After(front).relay.ticks == map[]))
  }

  // All relay steps are those of one instance.
  predicate OneRelay(acts: seq<Action>, r: R.RelayId) {
    forall a | a in acts && a.Relay? && !a.relay.Stage? :: a.relay.relay == r
  }

  lemma OnlyItsTick(s: System, a: Action, r: R.RelayId)
    requires Enabled(s, a) && s.relay.ticks.Keys <= {r} && (a.Relay? ==> a.relay.relay == r)
    ensures Next(s, a).relay.ticks.Keys <= {r}
    ensures a.Relay? && a.relay.Claim? ==> s.relay.ticks == map[]
  {
  }

  lemma {:induction false} OneRelayNeverOverlaps(acts: seq<Action>, r: R.RelayId)
    requires Legal(acts) && OneRelay(acts, r)
    ensures OneTickAtATime(acts) && After(acts).relay.ticks.Keys <= {r}
  {
    if acts != [] {
      var front, a := acts[..|acts| - 1], acts[|acts| - 1];
      OneRelayNeverOverlaps(front, r);
      assert a in acts;
      OnlyItsTick(After(front), a, r);
    }
  }

  lemma {:induction false} OneTickIsSafe(acts: seq<Action>)
    requires Legal(acts) && OneTickAtATime(acts)
    ensures ClaimsSafe(acts)
  {
    if acts != [] {
      var front, a := acts[..|acts| - 1], acts[|acts| - 1];
      OneTickIsSafe(front);
      if a.Relay? && a.relay.Claim? {
        EveryRun(front);
        O.LoneClaimIsSafe(After(front).relay, a.relay.batch);
      }
    }
  }

  lemma StepOrders(s: System, a: Action)
    requires Inv(s) && O.Ordered(s.relay) && Enabled(s, a)
    requires a.Relay? && a.relay.Claim? ==> O.SafeClaim(s.relay, a.relay.batch)
    ensures O.Ordered(Next(s, a).relay)
  {
    match a
    case UserCall(call, env) => CallOrders(s, call, env);
    case TriageDelivery(e, verdict, env) => CallOrders(s, W.ApplyTriage(e.data.workOrderId, verdict), env);
    case Relay(r) => O.StepOrders(s.relay, r);
    case Consumer(_) =>
    case Notifier(_) =>
  }

  lemma CallOrders(s: System, call: W.Call, env: W.Env)
    requires Inv(s) && O.Ordered(s.relay) && W.Fresh(s.db, call, env)
    ensures O.Ordered(Called(s, call, env).relay)
  {
    CallIsStage(s, call, env);
    var n := Called(s, call, env);
    if n.relay != s.relay {
      var row :| R.Enabled(s.relay, R.Stage(row)) && n.relay == R.Next(s.relay, R.Stage(row)) &&
        row.Order() == W.Target(call, env) && (row.event.kind.TriagedEvent? ==> call.ApplyTriage?);
      O.StageOrders(s.relay, row);
    }
  }

  lemma {:induction false} SafeRunIsOrdered(acts: seq<Action>)
    requires Legal(acts) && ClaimsSafe(acts)
    ensures O.Ordered(After(acts).relay)
  {
    if acts != [] {
      var front := acts[..|acts| - 1];
      SafeRunIsOrdered(front);
      EveryRun(front);
      StepOrders(After(front), acts[|acts| - 1]);
    }
  }

  lemma {:induction false} OfOrderPrefix(a: seq<Event>, b: seq<Event>, order: Uuid)
    requires a <= b
    ensures OfOrder(a, order) <= OfOrder(b, order)
  {
    if |a| < |b| {
      OfOrderPrefix(a, b[..|b| - 1], order);
    } else {
      assert a == b;
    }
  }

  // The audit trail of one order: its events by ascending row id.
  function Trail(s: System, order: Uuid): seq<Event> {
    OfOrder(A.RecordedAll(s.audit.table), order)
  }

  // End-to-end prefix: despite aborts, crashes, republished rows and consumer
  // rewinds, the audit rows of every order are a prefix of its outbox events.
  lemma EndToEndPrefix(acts: seq<Action>, order: Uuid)
    requires Legal(acts) && ClaimsSafe(acts)
    ensures Trail(After(acts), order) <= W.History(After(acts).db, order)
  {
    EveryRun(acts);
    SafeRunIsOrdered(acts);
    var s := After(acts);
    FirstsMonotone(s.relay.log[..s.audit.high], s.relay.log);
    OfOrderPrefix(Firsts(s.relay.log[..s.audit.high]), Firsts(s.relay.log), order);
    O.TopicPrefix(s.relay, order);
  }

  // With a single relay instance this is so in every run.
  lemma OneRelayPrefix(acts: seq<Action>, r: R.RelayId, order: Uuid)
    requires Legal(acts) && OneRelay(acts, r)
    ensures Trail(After(acts), order) <= W.History(After(acts).db, order)
  {
    OneRelayNeverOverlaps(acts, r);
    OneTickIsSafe(acts);
    EndToEndPrefix(acts, order);
  }

  // ---------- Catching up ----------

  // Every row is published and every message inserted.
  ghost predicate CaughtUp(s: System) {
    (forall row | row in s.db.outbox :: row in s.relay.done) && s.audit.high == |s.relay.log|
  }

  lemma BeyondPrefix(part: seq<Event>, all: seq<Event>)
    requires part < all && Distinct(all)
    ensures all[|part|] in all && all[|part|] !in part
  {
  }

  lemma WholePrefix(part: seq<Event>, all: seq<Event>)
    requires part <= all && Distinct(all) && forall e | e in all :: e in part
    ensures part == all
  {
    if part < all {
      BeyondPrefix(part, all);
    }
  }

  // The table lists all of a topic that holds every row's event: then the trail,
  // being a prefix of the history, is all of it.
  lemma CaughtUpTrail(relay: R.State, table: seq<A.AuditRow>, order: Uuid)
    requires R.Inv(relay) && A.RecordedAll(table) == Firsts(relay.log)
    requires forall row | row in relay.rows :: row in relay.done
    requires OfOrder(A.RecordedAll(table), order) <= OfOrder(EventsOf(relay.rows), order)
    ensures OfOrder(A.RecordedAll(table), order) == OfOrder(EventsOf(relay.rows), order)
  {
    AllInOutbox(relay);
    TrailIsWhole(relay.rows, relay.log, order);
  }

  // A whole history exists exactly for existing orders, and ends in the row.
  lemma HistoryEndsInRow(db: W.Db, order: Uuid, trail: seq<Event>)
    requires W.DbInv(db) && trail == W.History(db, order)
    ensures order in db.orders <==> trail != []
    ensures order in db.orders ==> trail[|trail| - 1].data == W.Snapshot(db.orders[order])
  {
    assert W.Agrees(db, order);
  }

  lemma CaughtUpTable(s: System)
    requires Inv(s) && CaughtUp(s)
    ensures A.RecordedAll(s.audit.table) == Firsts(s.relay.log)
    ensures forall row | row in s.relay.rows :: row in s.relay.done
  {
    assert s.relay.log[..s.audit.high] == s.relay.log;
  }

  // Then the trail is the whole history, and its last payload is the row.
  lemma CaughtUpAgrees(acts: seq<Action>, s: System, order: Uuid)
    requires Leads(acts, s) && ClaimsSafe(acts) && CaughtUp(s)
    ensures Trail(s, order) == W.History(s.db, order)
    ensures order in s.db.orders <==> Trail(s, order) != []
    ensures order in s.db.orders ==>
      Trail(s, order)[|Trail(s, order)| - 1].data == W.Snapshot(s.db.orders[order])
  {
    EveryRun(acts);
    EndToEndPrefix(acts, order);
    CaughtUpTable(s);
    CaughtUpTrail(s.relay, s.audit.table, order);
    HistoryEndsInRow(s.db, order, Trail(s, order));
  }

  // A topic that holds every row's event holds the whole history of each order.
  lemma TrailIsWhole(rows: seq<OutboxRow>, log: seq<Event>, order: Uuid)
    requires RowsOk(rows) && forall row | row in rows :: row.event in log
    requires forall e | e in log :: e in EventsOf(rows)
    requires OfOrder(Firsts(log), order) <= OfOrder(EventsOf(rows), order)
    ensures OfOrder(Firsts(log), order) == OfOrder(EventsOf(rows), order)
  {
    var all := EventsOf(rows);
    RowEventsDistinct(rows);
    OfOrderDistinct(all, order);
    forall e | e in OfOrder(all, order) ensures e in OfOrder(Firsts(log), order) {
      OfOrderMembers(all, order, e);
      var i :| 0 <= i < |all| && all[i] == e;
      assert rows[i] in rows;
      FirstOfMember(log, e, all);
      OfOrderMembers(Firsts(log), order, e);
    }
    WholePrefix(OfOrder(Firsts(log), order), OfOrder(all, order));
  }

  lemma AllInOutbox(relay: R.State)
    requires R.Inv(relay)
    ensures forall e | e in relay.log :: e in EventsOf(relay.rows)
    ensures forall row | row in relay.done :: row.event in relay.log
  {
    forall e | e in relay.log ensures e in EventsOf(relay.rows) {
      var row :| row in relay.rows && row.event == e;
      var i :| 0 <= i < |relay.rows| && relay.rows[i] == row;
      assert EventsOf(relay.rows)[i] == e;
    }
  }
}
