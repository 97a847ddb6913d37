// The pipeline routes as the declared bindings do: which queue an event reaches,
// and where the copy of a failed message goes.
module Routing {
  import opened Contracts
  import T = Topology
  import N = Notifications
  import P = Pipeline

  function QueueName(q: N.Queue): string {
    match q
    case CreatedQueue => "notifications.work-order-created"
    case CompletedQueue => "notifications.work-order-completed"
  }

  lemma TypeNames(kind: EventType)
    ensures TypeName(kind) == "work-order.created" <==> kind == CreatedEvent
    ensures TypeName(kind) == "work-order.completed" <==> kind == CompletedEvent
  {
    var created, completed := "work-order.created", "work-order.completed";
    assert |created| == 18 && |completed| == 20 && |TypeName(CancelledEvent)| == 20;
    assert |TypeName(AssignedEvent)| == 19 && |TypeName(StartedEvent)| == 18 && |TypeName(TriagedEvent)| == 18;
    assert created[11] == 'c' && TypeName(StartedEvent)[11] == 's' && TypeName(TriagedEvent)[11] == 't';
    assert completed[12] == 'o' && TypeName(CancelledEvent)[12] == 'a';
  }

  // Through the bindings of the notification consumers an event published under
  // its type reaches the created queue if it is a created event, the completed
  // queue if it is a completed one, and no other queue; so it does in the pipeline.
  lemma EventsFollowBindings(kind: EventType, to: string)
    ensures T.Routes(T.CONSUMERS, T.EVENTS_EXCHANGE, TypeName(kind), to) <==>
      || (kind == CreatedEvent && to == "notifications.work-order-created")
      || (kind == CompletedEvent && to == "notifications.work-order-completed")
    ensures T.Routes(T.CONSUMERS, T.EVENTS_EXCHANGE, TypeName(kind), to) <==>
      P.QueueFor(kind).Some? && to == QueueName(P.QueueFor(kind).value)
  {
    TypeNames(kind);
    T.ExchangesDiffer();
    T.EventRoute(T.CONSUMERS, TypeName(kind), to);
    T.ConsumersDoNotClash();
  }

  // A failed message is published under the routing of its main queue: below
  // three attempts to its retry queue, and then to its dead-letter queue.
  lemma CopiesFollowBindings(m: N.Message, to: string)
    ensures var q := QueueName(m.queue);
      N.NextCopy(m).place == N.Retry ==>
        N.AttemptOf(m) < 3 && (T.Routes(T.CONSUMERS, T.DEFAULT_EXCHANGE, T.RetryQueue(q), to) <==> to == q + ".retry")
    ensures var q := QueueName(m.queue);
      N.NextCopy(m).place != N.Retry ==>
        && N.NextCopy(m).place == N.Dead && N.AttemptOf(m) >= 3
        && (T.Routes(T.CONSUMERS, T.DEAD_LETTER_EXCHANGE, q, to) <==> to == q + ".dlq")
  {
    var q := QueueName(m.queue);
    assert q in T.CONSUMERS;
    T.FamilyIsDeclared(T.CONSUMERS, q);
    T.DefaultRoute(T.CONSUMERS, T.RetryConfig(q), to);
    T.DeadLetterRoute(T.CONSUMERS, q, to);
  }
}
