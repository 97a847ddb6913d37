// What the parts prove holds in the whole: every run of the pipeline contains a
// run of the relay protocol and one of the notification protocol. So without
// stopped ticks and handed-back deliveries nothing is sent twice.
module FaultFreeRuns {
  import opened Contracts
  import opened Events
  import opened Pipeline
  import W = WorkOrders
  import R = RelayProtocol
  import C = RelayAccounting
  import N = Notifications
  import S = NotificationOnce

  // ---------- The relays' share of a run ----------

  lemma CallProjects(s: System, call: W.Call, env: W.Env, acts: seq<R.Action>) returns (more: seq<R.Action>)
    requires Inv(s) && W.Fresh(s.db, call, env) && R.Leads(R.INIT, acts, s.relay)
    ensures R.Leads(R.INIT, more, Called(s, call, env).relay)
  {
    more := acts;
    CallIsStage(s, call, env);
    var n := Called(s, call, env);
    if n.relay != s.relay {
      var row :| R.Enabled(s.relay, R.Stage(row)) && n.relay == R.Next(s.relay, R.Stage(row)) &&
        row.Order() == W.Target(call, env) && (row.event.kind.TriagedEvent? ==> call.ApplyTriage?);
      var end;
      more, end := R.Then(R.INIT, acts, s.relay, R.Stage(row));
    }
  }

  lemma StepProjects(s: System, a: Action, acts: seq<R.Action>) returns (more: seq<R.Action>)
    requires Inv(s) && Enabled(s, a) && R.Leads(R.INIT, acts, s.relay)
    ensures R.Leads(R.INIT, more, Next(s, a).relay)
  {
    more := acts;
    match a
    case UserCall(call, env) => more := CallProjects(s, call, env, acts);
    case TriageDelivery(e, verdict, env) =>
      more := CallProjects(s, W.ApplyTriage(e.data.workOrderId, verdict), env, acts);
    case Relay(r) =>
      var end;
      more, end := R.Then(R.INIT, acts, s.relay, r);
    case Consumer(_) =>
    case Notifier(_) =>
  }

  lemma {:induction false} RelayRun(acts: seq<Action>) returns (relay: seq<R.Action>)
    requires Legal(acts)
    ensures R.Leads(R.INIT, relay, After(acts).relay)
  {
    relay := [];
    if acts != [] {
      var front := acts[..|acts| - 1];
      relay := RelayRun(front);
      EveryRun(front);
      relay := StepProjects(After(front), acts[|acts| - 1], relay);
    }
  }

  // ---------- The callers' share of a run ----------

  lemma {:induction false} CallsRun(acts: seq<Action>) returns (calls: seq<W.Request>)
    requires Legal(acts)
    ensures W.AllFresh(W.EMPTY_DB, calls) && W.AfterCalls(W.EMPTY_DB, calls) == After(acts).db
  {
    calls := [];
    if acts != [] {
      var front, a := acts[..|acts| - 1], acts[|acts| - 1];
      calls := CallsRun(front);
      if a.UserCall? {
        calls := OneMoreCall(calls, a.call, a.env);
      } else if a.TriageDelivery? {
        calls := OneMoreCall(calls, W.ApplyTriage(a.event.data.workOrderId, a.verdict), a.env);
      }
    }
  }

  lemma OneMoreCall(calls: seq<W.Request>, call: W.Call, env: W.Env) returns (more: seq<W.Request>)
    requires W.AllFresh(W.EMPTY_DB, calls) && W.Fresh(W.AfterCalls(W.EMPTY_DB, calls), call, env)
    ensures W.AllFresh(W.EMPTY_DB, more)
    ensures W.AfterCalls(W.EMPTY_DB, more) == W.Execute(W.AfterCalls(W.EMPTY_DB, calls), call, env).0
  {
    more := calls + [W.Request(call, env)];
    assert more[..|calls|] == calls;
  }

  // ---------- The notifiers' share of a run ----------

  // A fault on the notification side: a delivery handed back, a copy whose
  // publish failed, or a send that failed after it took effect.
  predicate Faultless(a: Action) {
    a.Notifier? ==>
      && !a.notes.Requeue?
      && (a.notes.PublishCopy? ==> a.notes.outcome.Ok?)
      && (a.notes.Send? ==> !a.notes.outcome.FailedAfter?)
  }

  predicate Plain(a: N.Action) {
    && (a.Arrive? ==> a.header.Missing?)
    && !a.Requeue?
    && (a.PublishCopy? ==> a.outcome.Ok?)
    && (a.Send? ==> !a.outcome.FailedAfter?)
  }

  // `acts` is a plain run that leads to `notes`.
  ghost predicate PlainRun(acts: seq<N.Action>, notes: N.State) {
    N.Leads(N.INIT, acts, notes) && forall n | n in acts :: Plain(n)
  }

  lemma PlainThen(acts: seq<N.Action>, notes: N.State, a: N.Action) returns (more: seq<N.Action>)
    requires PlainRun(acts, notes) && N.Enabled(notes, a) && Plain(a)
    ensures PlainRun(more, N.Next(notes, a))
  {
    var end;
    more, end := N.Then(N.INIT, acts, notes, a);
  }

  lemma RoutedProjects(notes: N.State, e: Event, acts: seq<N.Action>) returns (more: seq<N.Action>)
    requires PlainRun(acts, notes)
    ensures PlainRun(more, Routed(notes, e))
  {
    more := acts;
    if QueueFor(e.kind).Some? {
      more := PlainThen(acts, notes, N.Arrive(QueueFor(e.kind).value, e, N.Missing));
    }
  }

  lemma NotifierProjects(s: System, a: Action, acts: seq<N.Action>) returns (more: seq<N.Action>)
    requires Inv(s) && Enabled(s, a) && Faultless(a) && PlainRun(acts, s.notes)
    ensures PlainRun(more, Next(s, a).notes)
  {
    more := acts;
    if a.Relay? {
      var relay := R.Next(s.relay, a.relay);
      RelayRoutes(s, a.relay);
      if |relay.rabbit| > |s.relay.rabbit| {
        more := RoutedProjects(s.notes, relay.rabbit[|s.relay.rabbit|], acts);
      }
    } else if a.Notifier? {
      more := PlainThen(acts, s.notes, a.notes);
    }
  }

  lemma {:induction false} NotifierRun(acts: seq<Action>) returns (notes: seq<N.Action>)
    requires Legal(acts) && forall a | a in acts :: Faultless(a)
    ensures PlainRun(notes, After(acts).notes)
  {
    notes := [];
    if acts != [] {
      var front := acts[..|acts| - 1];
      assert acts[|acts| - 1] in acts;
      EveryRun(front);
      notes := NotifierRun(front);
      notes := NotifierProjects(After(front), acts[|acts| - 1], notes);
    }
  }

  // ---------- Arrivals are publications ----------

  // What arrived in a queue is what was published of the type it is for.
  ghost predicate ArrivedFor(notes: N.State, rabbit: seq<Event>, e: Event) {
    && notes.arrived[N.Key(N.CreatedQueue, e)] == (if e.kind == CreatedEvent then multiset(rabbit)[e] else 0)
    && notes.arrived[N.Key(N.CompletedQueue, e)] == (if e.kind == CompletedEvent then multiset(rabbit)[e] else 0)
  }

  ghost predicate ArrivedAsPublished(s: System) {
    forall e :: ArrivedFor(s.notes, s.relay.rabbit, e)
  }

  lemma RouteArrives(notes: N.State, rabbit: seq<Event>, published: Event, e: Event)
    requires ArrivedFor(notes, rabbit, e)
    ensures ArrivedFor(Routed(notes, published), rabbit + [published], e)
  {
    C.CountOneMoreCopy(rabbit, published, e);
  }

  lemma StepArrivesFor(s: System, a: Action, e: Event)
    requires Inv(s) && Enabled(s, a) && ArrivedFor(s.notes, s.relay.rabbit, e)
    ensures ArrivedFor(Next(s, a).notes, Next(s, a).relay.rabbit, e)
  {
    if a.Relay? {
      RelayRoutes(s, a.relay);
      var rabbit := Next(s, a).relay.rabbit;
      if |rabbit| > |s.relay.rabbit| {
        RouteArrives(s.notes, s.relay.rabbit, rabbit[|s.relay.rabbit|], e);
      }
    }
  }

  lemma StepArrives(s: System, a: Action)
    requires Inv(s) && Enabled(s, a) && ArrivedAsPublished(s)
    ensures ArrivedAsPublished(Next(s, a))
  {
    forall e ensures ArrivedFor(Next(s, a).notes, Next(s, a).relay.rabbit, e) {
      StepArrivesFor(s, a, e);
    }
  }

  // In every run, and for every event: as many messages arrived in the queue of
  // its type as RabbitMQ took, and none in the other queue.
  lemma {:induction false} ArrivalsArePublications(acts: seq<Action>)
    requires Legal(acts)
    ensures ArrivedAsPublished(After(acts))
  {
    if acts != [] {
      var front := acts[..|acts| - 1];
      EveryRun(front);
      ArrivalsArePublications(front);
      StepArrives(After(front), acts[|acts| - 1]);
    }
  }

  // ---------- Without faults ----------

  lemma ArrivedOnce(s: System, relay: seq<R.Action>, key: N.Key)
    requires Inv(s) && ArrivedAsPublished(s) && R.Leads(R.INIT, relay, s.relay) && s.relay.aborted == []
    ensures s.notes.arrived[key] <= 1
  {
    assert key.queue.CreatedQueue? || key.queue.CompletedQueue?;
    assert ArrivedFor(s.notes, s.relay.rabbit, key.event);
    if key in s.notes.arrived {
      assert key.event in s.relay.rabbit;
      var row :| row in s.relay.rows && row.event == key.event;
      C.PublishedOnce(relay, row);
    }
  }

  lemma IdsNameMessages(relay: R.State, notes: N.State, p: N.Key, q: N.Key)
    requires R.Inv(relay) && Linked(relay, notes)
    requires p in notes.arrived && q in notes.arrived && p.event.eventId == q.event.eventId
    ensures p == q
  {
    SameIdSameEvent(relay, p.event, q.event);
  }

  // With no stopped tick, each message arrives at most once.
  lemma NoStopSingleArrivals(acts: seq<Action>, s: System)
    requires Leads(acts, s) && s.relay.aborted == []
    ensures S.SingleArrivals(s.notes)
  {
    EveryRun(acts);
    ArrivalsArePublications(acts);
    var relay := RelayRun(acts);
    forall key ensures s.notes.arrived[key] <= 1 {
      ArrivedOnce(s, relay, key);
    }
    forall p, q | p in s.notes.arrived && q in s.notes.arrived && p.event.eventId == q.event.eventId
      ensures p == q
    {
      IdsNameMessages(s.relay, s.notes, p, q);
    }
  }

  // If moreover no delivery is handed back, no copy's publish fails and no send
  // fails late, each created or completed event arrives and is sent at most once:
  // whatever overlaps, evicts, restarts or is retried.
  lemma NothingIsSentTwice(acts: seq<Action>)
    requires Legal(acts) && After(acts).relay.aborted == [] && forall a | a in acts :: Faultless(a)
    ensures Distinct(After(acts).notes.sent)
    ensures forall key :: After(acts).notes.arrived[key] <= 1
  {
    NoStopSingleArrivals(acts, After(acts));
    var notes := NotifierRun(acts);
    S.SingleArrivalsSendOnce(notes);
  }
}
