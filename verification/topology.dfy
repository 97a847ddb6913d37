// The retry topology: which queue a message can get to from which, through the
// bindings that the notifications service declares.
module Topology {
  import opened Contracts

  const EVENTS_EXCHANGE := "propflow.events"
  const DEAD_LETTER_EXCHANGE := "propflow.dlx"
  const DEFAULT_EXCHANGE := ""
  const RETRY_DELAY_MS: nat := 5_000

  datatype QueueConfig = QueueConfig(
    name: string,
    binding: Option<(string, string)>,     // exchange and routing key
    messageTtl: Option<nat>,
    deadLetter: Option<(string, string)>)  // exchange and routing key

  function RetryQueue(queue: string): string {
    queue + ".retry"
  }

  function DeadLetterQueue(queue: string): string {
    queue + ".dlq"
  }

  function RetryConfig(queue: string): QueueConfig {
    QueueConfig(RetryQueue(queue), None, Some(RETRY_DELAY_MS), Some((DEFAULT_EXCHANGE, queue)))
  }

  function DeadLetterConfig(queue: string): QueueConfig {
    QueueConfig(DeadLetterQueue(queue), Some((DEAD_LETTER_EXCHANGE, queue)), None, None)
  }

  function ResilienceQueues(queue: string): seq<QueueConfig> {
    [RetryConfig(queue), DeadLetterConfig(queue)]
  }

  // The consumer's own queue, bound to one event type.
  function MainConfig(queue: string, eventType: string): QueueConfig {
    QueueConfig(queue, Some((EVENTS_EXCHANGE, eventType)), None, None)
  }

  // Every queue declared for these consumers: queue name to event type.
  ghost predicate Declares(consumers: map<string, string>, c: QueueConfig) {
    exists q | q in consumers :: c == MainConfig(q, consumers[q]) || c in ResilienceQueues(q)
  }

  // The broker routes a message to the queue. The default exchange routes to
  // the queue named by the key; routing keys here hold no topic wildcards.
  ghost predicate Routes(consumers: map<string, string>, exchange: string, key: string, queue: string) {
    exists c :: Declares(consumers, c) && c.name == queue &&
      if exchange == DEFAULT_EXCHANGE then queue == key else c.binding == Some((exchange, key))
  }

  // The two ways on from a queue: a failed handler publishes a copy to the
  // retry queue or to the dead-letter exchange, and an expired message is
  // dead-lettered by the broker.
  ghost predicate Hop(consumers: map<string, string>, from: string, to: string) {
    || (from in consumers && Routes(consumers, DEFAULT_EXCHANGE, RetryQueue(from), to))
    || (from in consumers && Routes(consumers, DEAD_LETTER_EXCHANGE, from, to))
    || (exists c :: Declares(consumers, c) && c.name == from && c.messageTtl.Some? && c.deadLetter.Some? &&
          Routes(consumers, c.deadLetter.value.0, c.deadLetter.value.1, to))
  }

  ghost predicate IsPath(consumers: map<string, string>, path: seq<string>) {
    forall i | 0 < i < |path| :: Hop(consumers, path[i - 1], path[i])
  }

  function Family(queue: string): set<string> {
    {queue, RetryQueue(queue), DeadLetterQueue(queue)}
  }

  // No consumer's queue is named like another one's retry or dead-letter queue.
  ghost predicate NoClash(consumers: map<string, string>) {
    forall a, b | a in consumers && b in consumers :: a != RetryQueue(b) && a != DeadLetterQueue(b)
  }

  lemma NamesDiffer(a: string, b: string)
    ensures RetryQueue(a) == RetryQueue(b) ==> a == b
    ensures DeadLetterQueue(a) == DeadLetterQueue(b) ==> a == b
    ensures RetryQueue(a) != DeadLetterQueue(b)
    ensures a != RetryQueue(a) && a != DeadLetterQueue(a)
  {
    var ra, rb, db := RetryQueue(a), RetryQueue(b), DeadLetterQueue(b);
    assert ra[..|a|] == a && rb[..|b|] == b && db[..|b|] == b && DeadLetterQueue(a)[..|a|] == a;
    assert ra[|ra| - 1] == 'y' && db[|db| - 1] == 'q';
  }

  // The families of two consumers are apart exactly when their names do not clash.
  lemma FamiliesApart(a: string, b: string)
    requires a != b
    ensures Family(a) !! Family(b) <==>
      a != RetryQueue(b) && a != DeadLetterQueue(b) && b != RetryQueue(a) && b != DeadLetterQueue(a)
  {
    NamesDiffer(a, b);
    NamesDiffer(b, a);
    if Family(a) !! Family(b) {
      assert a in Family(a) && RetryQueue(a) in Family(a) && DeadLetterQueue(a) in Family(a);
      assert a !in Family(b) && RetryQueue(a) !in Family(b) && DeadLetterQueue(a) !in Family(b);
    }
  }

  lemma WhatIsDeclared(consumers: map<string, string>, c: QueueConfig) returns (p: string)
    requires Declares(consumers, c)
    ensures p in consumers
    ensures c == MainConfig(p, consumers[p]) || c == RetryConfig(p) || c == DeadLetterConfig(p)
  {
    p :| p in consumers && (c == MainConfig(p, consumers[p]) || c in ResilienceQueues(p));
  }

  lemma FamilyIsDeclared(consumers: map<string, string>, q: string)
    requires q in consumers
    ensures Declares(consumers, MainConfig(q, consumers[q]))
    ensures Declares(consumers, RetryConfig(q)) && Declares(consumers, DeadLetterConfig(q))
  {
  }

  lemma ExchangesDiffer()
    ensures EVENTS_EXCHANGE != DEAD_LETTER_EXCHANGE && DEAD_LETTER_EXCHANGE != DEFAULT_EXCHANGE
  {
  }

  lemma DefaultRoute(consumers: map<string, string>, c: QueueConfig, to: string)
    requires Declares(consumers, c)
    ensures Routes(consumers, DEFAULT_EXCHANGE, c.name, to) <==> to == c.name
  {
  }

  lemma DeadLetterRoute(consumers: map<string, string>, q: string, to: string)
    requires q in consumers
    ensures Routes(consumers, DEAD_LETTER_EXCHANGE, q, to) <==> to == DeadLetterQueue(q)
  {
    ExchangesDiffer();
    FamilyIsDeclared(consumers, q);
    if Routes(consumers, DEAD_LETTER_EXCHANGE, q, to) {
      var c :| Declares(consumers, c) && c.name == to && c.binding == Some((DEAD_LETTER_EXCHANGE, q));
      var p := WhatIsDeclared(consumers, c);
    } else {
      var c := DeadLetterConfig(q);
      assert Declares(consumers, c) && c.binding == Some((DEAD_LETTER_EXCHANGE, q));
    }
  }

  lemma EventRoute(consumers: map<string, string>, eventType: string, to: string)
    ensures Routes(consumers, EVENTS_EXCHANGE, eventType, to) <==> to in consumers && consumers[to] == eventType
  {
    ExchangesDiffer();
    if Routes(consumers, EVENTS_EXCHANGE, eventType, to) {
      var c :| Declares(consumers, c) && c.name == to && c.binding == Some((EVENTS_EXCHANGE, eventType));
      var p := WhatIsDeclared(consumers, c);
    }
    if to in consumers {
      FamilyIsDeclared(consumers, to);
      var c := MainConfig(to, consumers[to]);
      assert Declares(consumers, c) && c.name == to;
    }
  }

  // Only retry queues expire messages, and only into their own main queue.
  lemma ExpiryRoute(consumers: map<string, string>, q: string, c: QueueConfig)
    requires q in consumers && NoClash(consumers)
    requires Declares(consumers, c) && c.deadLetter.Some? && c.name in Family(q)
    ensures c == RetryConfig(q)
  {
    var p := WhatIsDeclared(consumers, c);
    NamesDiffer(p, q);
  }

  lemma MainHops(consumers: map<string, string>, q: string, to: string)
    requires q in consumers && NoClash(consumers)
    ensures Hop(consumers, q, to) <==> to == RetryQueue(q) || to == DeadLetterQueue(q)
  {
    FamilyIsDeclared(consumers, q);
    DefaultRoute(consumers, RetryConfig(q), to);
    DeadLetterRoute(consumers, q, to);
    NamesDiffer(q, q);
    forall c | Declares(consumers, c) && c.name == q && c.deadLetter.Some? ensures false {
      ExpiryRoute(consumers, q, c);
    }
  }

  // Nothing leaves a retry or dead-letter queue but by expiry.
  lemma OnlyByExpiry(consumers: map<string, string>, q: string, from: string, to: string)
    requires q in consumers && NoClash(consumers) && from in {RetryQueue(q), DeadLetterQueue(q)}
    ensures Hop(consumers, from, to) <==>
      from == RetryQueue(q) && Routes(consumers, DEFAULT_EXCHANGE, q, to)
  {
    FamilyIsDeclared(consumers, q);
    NamesDiffer(q, q);
    assert from !in consumers;
    forall c | Declares(consumers, c) && c.name == from && c.deadLetter.Some? ensures c == RetryConfig(q) {
      ExpiryRoute(consumers, q, c);
    }
    var retry := RetryConfig(q);
    assert Declares(consumers, retry) && retry.name == RetryQueue(q) && retry.messageTtl.Some?;
  }

  lemma RetryHops(consumers: map<string, string>, q: string, to: string)
    requires q in consumers && NoClash(consumers)
    ensures Hop(consumers, RetryQueue(q), to) <==> to == q
    ensures !Hop(consumers, DeadLetterQueue(q), to)
  {
    FamilyIsDeclared(consumers, q);
    DefaultRoute(consumers, MainConfig(q, consumers[q]), to);
    NamesDiffer(q, q);
    OnlyByExpiry(consumers, q, RetryQueue(q), to);
    OnlyByExpiry(consumers, q, DeadLetterQueue(q), to);
  }

  // From its main queue a message gets to its retry or dead-letter queue; from
  // the retry queue back to the main queue; from the dead-letter queue nowhere.
  lemma HopsExactly(consumers: map<string, string>, q: string, to: string)
    requires q in consumers && NoClash(consumers)
    ensures Hop(consumers, q, to) <==> to == RetryQueue(q) || to == DeadLetterQueue(q)
    ensures Hop(consumers, RetryQueue(q), to) <==> to == q
    ensures !Hop(consumers, DeadLetterQueue(q), to)
  {
    MainHops(consumers, q, to);
    RetryHops(consumers, q, to);
  }

  lemma {:induction false} StepInFamily(consumers: map<string, string>, q: string, path: seq<string>, k: nat)
    requires q in consumers && NoClash(consumers) && IsPath(consumers, path) && k < |path| && path[0] == q
    ensures path[k] in Family(q)
  {
    if k > 0 {
      StepInFamily(consumers, q, path, k - 1);
      StaysInFamily(consumers, q, path[k - 1], path[k]);
    }
  }

  // Confinement: whatever happens to it, a message stays in its own family of queues.
  lemma Confinement(consumers: map<string, string>, q: string, path: seq<string>)
    requires q in consumers && NoClash(consumers) && IsPath(consumers, path) && path != [] && path[0] == q
    ensures forall name | name in path :: name in Family(q)
  {
    forall k: nat | k < |path| ensures path[k] in Family(q) {
      StepInFamily(consumers, q, path, k);
    }
  }

  lemma StaysInFamily(consumers: map<string, string>, q: string, from: string, to: string)
    requires q in consumers && NoClash(consumers) && from in Family(q) && Hop(consumers, from, to)
    ensures to in Family(q)
  {
    HopsExactly(consumers, q, to);
  }

  // ---------- The two consumers of the notifications service ----------

  const WORK_ORDER_CREATED := "notifications.work-order-created"
  const WORK_ORDER_COMPLETED := "notifications.work-order-completed"

  const CONSUMERS: map<string, string> :=
    map[WORK_ORDER_CREATED := "work-order.created", WORK_ORDER_COMPLETED := "work-order.completed"]

  // Everything the notifications service declares, name by name.
  lemma DeclaredQueues(c: QueueConfig)
    ensures Declares(CONSUMERS, c) <==>
      || c == QueueConfig("notifications.work-order-created", Some(("propflow.events", "work-order.created")),
                          None, None)
      || c == QueueConfig("notifications.work-order-created.retry", None, Some(5000),
                          Some(("", "notifications.work-order-created")))
      || c == QueueConfig("notifications.work-order-created.dlq",
                          Some(("propflow.dlx", "notifications.work-order-created")), None, None)
      || c == QueueConfig("notifications.work-order-completed", Some(("propflow.events", "work-order.completed")),
                          None, None)
      || c == QueueConfig("notifications.work-order-completed.retry", None, Some(5000),
                          Some(("", "notifications.work-order-completed")))
      || c == QueueConfig("notifications.work-order-completed.dlq",
                          Some(("propflow.dlx", "notifications.work-order-completed")), None, None)
  {
    FamilyNames();
    DeclaredFamilies(c);
  }

  lemma TwoConsumers(q: string)
    ensures q in CONSUMERS <==> q == WORK_ORDER_CREATED || q == WORK_ORDER_COMPLETED
    ensures q == WORK_ORDER_CREATED ==> CONSUMERS[q] == "work-order.created"
    ensures q == WORK_ORDER_COMPLETED ==> CONSUMERS[q] == "work-order.completed"
  {
    assert |WORK_ORDER_CREATED| == 32 && |WORK_ORDER_COMPLETED| == 34;
  }

  lemma DeclaredFamilies(c: QueueConfig)
    ensures Declares(CONSUMERS, c) <==>
      || c == MainConfig(WORK_ORDER_CREATED, "work-order.created")
      || c == RetryConfig(WORK_ORDER_CREATED) || c == DeadLetterConfig(WORK_ORDER_CREATED)
      || c == MainConfig(WORK_ORDER_COMPLETED, "work-order.completed")
      || c == RetryConfig(WORK_ORDER_COMPLETED) || c == DeadLetterConfig(WORK_ORDER_COMPLETED)
  {
    FamilyIsDeclared(CONSUMERS, WORK_ORDER_CREATED);
    FamilyIsDeclared(CONSUMERS, WORK_ORDER_COMPLETED);
    TwoConsumers(WORK_ORDER_CREATED);
    TwoConsumers(WORK_ORDER_COMPLETED);
    if Declares(CONSUMERS, c) {
      var p := WhatIsDeclared(CONSUMERS, c);
      TwoConsumers(p);
    }
  }

  lemma FamilyNames()
    ensures RetryQueue(WORK_ORDER_CREATED) == "notifications.work-order-created.retry"
    ensures DeadLetterQueue(WORK_ORDER_CREATED) == "notifications.work-order-created.dlq"
    ensures RetryQueue(WORK_ORDER_COMPLETED) == "notifications.work-order-completed.retry"
    ensures DeadLetterQueue(WORK_ORDER_COMPLETED) == "notifications.work-order-completed.dlq"
  {
  }

  lemma ConsumersDoNotClash()
    ensures NoClash(CONSUMERS) && Family(WORK_ORDER_CREATED) !! Family(WORK_ORDER_COMPLETED)
  {
    forall a, b | a in CONSUMERS && b in CONSUMERS ensures a != RetryQueue(b) && a != DeadLetterQueue(b) {
      assert a[|a| - 1] == 'd';
      assert RetryQueue(b)[|RetryQueue(b)| - 1] == 'y' && DeadLetterQueue(b)[|DeadLetterQueue(b)| - 1] == 'q';
    }
    assert |WORK_ORDER_CREATED| != |WORK_ORDER_COMPLETED|;
    FamiliesApart(WORK_ORDER_CREATED, WORK_ORDER_COMPLETED);
  }

  // No copy of one consumer's message reaches the other one's queues.
  lemma QueuesAreConfined(path: seq<string>, q: string, other: string)
    requires q in CONSUMERS && other in CONSUMERS && q != other
    requires IsPath(CONSUMERS, path) && path != [] && path[0] == q
    ensures forall name | name in path :: name !in Family(other)
  {
    ConsumersDoNotClash();
    Confinement(CONSUMERS, q, path);
  }
}
