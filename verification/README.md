# The event pipeline of PropFlow, modelled and proved in Dafny

A work order changes state, and the change has to reach an audit feed and the notification senders. This
project models that pipeline and proves what its parts promise together:

1. **Write side** (`contracts`, `lifecycle`, `work_orders`, `paging`, `work_order_list`). A call changes a work order
   and stages an event with a full snapshot of it, in one transaction, guarded by the transition tables. Triage does
   the same. The list of work orders is paged by offset.
2. **Outbox relay** (`relay_protocol`, `relay_accounting`, `relay_order`, `relay_progress`, `outbox_relay`). Any
   number of relays claim the lowest 20 unpublished rows that nobody has locked, publish each to RabbitMQ, record it
   on the Kafka topic and stamp it, and commit all stamps or none.
3. **Audit side** (`events`, `audit`, `activity_feed`). A consumer that may crash and rewind inserts or ignores
   events; a keyset-paginated feed reads the table while it grows.
4. **Notification side** (`processed_events`, `notifications`, `notification_laws`, `notification_chains`,
   `notification_once`, `notification_consumer`, `topology`). Failed handlings move copies between a main queue, a
   retry queue and a dead-letter queue; a bounded set suppresses duplicates.
5. **The whole** (`pipeline`, `routing`, `pipeline_progress`, `fault_free`, `feed_story`, `two_relays`, `send_twice`). One
   machine over all four, with the triage feedback edge; what every run keeps, how every run can be completed, and
   the runs that break what the documentation promises.

Each part that changes state over time is a step relation: `Enabled` says which steps are possible, `Next` what they
do, `Legal` and `After` extend that to runs. How a broker call, a send, an insert or a commit ends is part of it: `Ok`,
`FailedBefore` or `FailedAfter` it took effect. The classes are the code's own loops and branches. At every await
they call an `Others` method whose contract allows any steps of everybody else, so callers know nothing about the
shared state but the protocol; the ghost flag `quiet` singles out the undisturbed case, for which the exact effect is
stated. How the calls of a method end is a parameter of it, so its contract says what it does for every way they end.
`dafny verify dfyconfig.toml` checks everything.

## Assumptions

The code relies on these, and so do the proofs.

- **Serialized calls per order.** `findOne` and `save` are not locked together
  (`apps/work-orders-service/src/work-orders/work-orders.service.ts:82-94`; the gap is noted in
  `docs/notes/phase-1-work-orders.md:32`). One call on one order is one step; calls on different orders interleave,
  so outbox ids increase along one order only (`RowBefore`), not in commit order.
- **Claims are atomic.** `FOR UPDATE SKIP LOCKED` returns the lowest rows that are committed, unstamped and unlocked;
  locks and stamps of a transaction that ends otherwise vanish.
- **Resolved calls.** A resolved publish or record means that the broker holds the message; the queues are bound
  before the first publish; if `handle` itself rejects, the original stays in its main queue.
- **One audit writer, one partition.** Ids of new audit rows exceed all visible ones (`k8s/audit.yaml:10`).
- **Fresh keys.** Generated order ids, event ids and row ids are new.
- **Ordering needs safe claims.** One relay instance has them in every run (`Pipeline.OneRelayPrefix`); with two
  instances the order theorems hold for the runs in which every claim is safe, and `RelayOrder.ClaimOrderExact` shows
  that this condition is exact.
- **Deliveries may overlap** (`apps/notifications-service/src/notifications/notifications.module.ts:28`): checking,
  sending and marking are separate steps.

## Where the code and its documentation disagree

The model follows the code.

- `docs/events.md:102` promises order per aggregate on the Kafka side. With the two instances of
  `k8s/work-orders.yaml:10` a relay can skip a row that the other one has locked and record a later event of the same
  order first (`docs/adr/0007-outbox-pattern.md:33` concedes it). `RelayOrder.TwoRelaysReorder` and
  `TwoRelays.TrailMissesCreated` give the runs; `RelayOrder.ClaimOrderExact` says exactly when a claim is harmless.
- `docs/adr/0007-outbox-pattern.md` calls delivery exactly-once in effect. For notifications a single fault is enough
  to break it: one stopped tick and two overlapping deliveries (`SendTwice.OverlapSendsTwice`), or one restart between
  sending and marking (`SendTwice.RestartSendsTwice`). `NotificationOnce.CheckExact` gives the exact condition on each
  duplicate check, and `FaultFreeRuns.NothingIsSentTwice` shows that without such faults the promise holds.
- The comment at `apps/work-orders-service/src/messaging/outbox-relay.ts:18-20` says that no row is published twice.
  That holds for live claims; a row of a stopped tick is handed out again, any number of times
  (`RelayAccounting.PublishedAgain`), and `RelayAccounting.PublicationAccounting` counts how often.
- The comment at `apps/notifications-service/src/notifications/event-retry.handler.ts:11-16` says that the original is
  always acked. If publishing the copy fails, it is not.
- `apps/work-orders-service/src/messaging/work-order-audit.producer.ts:34` logs that records will be dropped. `record`
  throws instead, so the row stays unstamped.
- Marking an id that a full store already holds still evicts the oldest entry
  (`apps/notifications-service/src/notifications/processed-events.store.ts:24-31`), so the store is not always the last
  10000 marks; `ProcessedEvents.StoreIsLastMarks` gives the exact condition.

## Model

| member | source | states |
|---|---|---|
| `Pipeline.EveryRun` | apps/work-orders-service/src/messaging/outbox-relay.ts:48-83 | Every reachable state of the composed system (calls, triage feedback, any number of relays, audit consumer, notification consumers; any failures, crashes and rewinds) satisfies the combined invariant: tables agree, claims are disjoint, stamps are backed by both brokers, the audit table is the de-duplicated log prefix, notification copies balance, and a triaged event only exists after RabbitMQ took the created event of its order |
| `Pipeline.EndToEndPrefix` | apps/audit-service/src/audit/audit-ingest.service.ts:22-46 | If every claim was safe when made, then in every reachable state the audit rows of each work order, by id, are a prefix of its outbox events, despite aborts, republished rows, crashes and rewinds |
| `Pipeline.OneRelayPrefix` | apps/work-orders-service/src/messaging/outbox-relay.ts:48-82 | With one relay instance the prefix property holds in every run, without any further hypothesis on its claims |
| `Pipeline.OneRelayNeverOverlaps` | apps/work-orders-service/src/messaging/outbox-relay.ts:49-50 | The steps of a single relay never open a tick while another is open |
| `Pipeline.OneTickIsSafe` | apps/work-orders-service/src/messaging/outbox-relay.ts:53-61 | One tick at a time makes every lowest-ids claim safe, whatever the rest of the system does |
| `Pipeline.SafeRunIsOrdered` | apps/work-orders-service/src/messaging/outbox-relay.ts:63-72 | Safe claims keep the whole log causally ordered per work order in every run of the composed system |
| `Pipeline.NoSilentLoss` | apps/notifications-service/src/notifications/event-retry.handler.ts:29-55 | In every reachable state each committed created or completed event is unstamped in the outbox, or waits in its main, retry or dead-letter queue, or its notification was sent at least once |
| `Pipeline.NoPhantoms` | apps/work-orders-service/src/messaging/work-order-events.outbox.ts:48-52 | Every audit row and every notification is of an event that was committed to the outbox |
| `FaultFreeRuns.ArrivalsArePublications` | apps/notifications-service/src/notifications/work-order-events.consumer.ts:25-53 | In every run, and for every event: exactly as many messages arrived in the queue of its type as RabbitMQ took, created events in the created queue and completed events in the completed queue, and nothing else in either |
| `Routing.EventsFollowBindings` | apps/notifications-service/src/notifications/work-order-events.consumer.ts:10-53 | Through the declared bindings an event published under its type name reaches the created queue exactly if it is a created event, the completed queue exactly if it is a completed one, and no other; the pipeline routes the same way |
| `Routing.CopiesFollowBindings` | apps/notifications-service/src/notifications/event-retry.handler.ts:34-54 | The copy of a failed message goes, below three attempts, through the default exchange to its retry queue only, and otherwise through the dead-letter exchange to its dead-letter queue only |
| `Pipeline.CaughtUpAgrees` | apps/audit-service/src/audit/audit-ingest.service.ts:17-46 | Once every row is stamped and every log message inserted, each trail is the whole history, exists exactly for existing orders, and ends in the snapshot of the current row |
| `TwoRelays.TrailMissesCreated` | k8s/work-orders.yaml:8-10 | Counterexample to the per-aggregate order promise: for every order there is a run of two relays, with no failure, whose audit trail is non-empty, not a prefix of the history, and impossible under the transition tables |
| `PipelineProgress.EverythingArrives` | apps/work-orders-service/src/messaging/outbox-relay.ts:48-83 | Every reachable state has a continuation without calls and without failures that leaves the work orders alone and ends with each created or completed event sent or in the dead-letter queue of its consumer and, if the claims so far were safe, with each trail being the whole history and ending in the current row |
| `PipelineProgress.ComesToRest` | apps/audit-service/src/audit/audit-stream.consumer.ts:36-45 | Every reachable state, whatever is in flight, can come to rest: all rows stamped, all log messages inserted, all copies handled, replaced or dead-lettered |
| `FaultFreeRuns.NothingIsSentTwice` | docs/adr/0007-outbox-pattern.md:40 | In every run with no stopped tick, no delivery handed back, no failed publish of a copy and no send failing late, each created or completed event arrives at most once and is sent at most once, whatever overlaps, is retried, evicted or lost with the store |
| `FaultFreeRuns.RelayRun` | apps/work-orders-service/src/messaging/outbox-relay.ts:48-83 | The relays' share of every run of the composed system is a run of the relay protocol, so all its laws carry over |
| `FaultFreeRuns.CallsRun` | apps/work-orders-service/src/work-orders/work-orders.service.ts:38-117 | The callers' share of every run of the composed system, triage included, is a run of calls, so all laws about calls carry over |
| `FaultFreeRuns.NotifierRun` | apps/notifications-service/src/notifications/work-order-events.consumer.ts:31-53 | The notifiers' share of a run without such faults is a run of the notification protocol whose arrivals carry no attempt header |
| `SendTwice.OverlapSendsTwice` | apps/notifications-service/src/notifications/notifications.module.ts:26-28 | Counterexample to exactly-once in effect: for every created order an explicit run from the initial state with one relay and a single fault, one tick stopped between its two calls, in which two overlapping deliveries both notify |
| `SendTwice.RestartSendsTwice` | apps/notifications-service/src/notifications/processed-events.store.ts:6-13 | An explicit run from the initial state with a single publication and one restart between sending and marking, after which the message is handed out again and notifies again |
| `FeedStory.FeedNeverLies` | apps/audit-service/src/audit/activity-feed.service.ts:37-69 | Walking all pages of one order, however the table grows meanwhile, gives event types that replay legally oldest first, tell a documented story once triage is dropped, are a prefix of the real history, and end in the status of a snapshot the order had |
| `FeedStory.FeedCatchesUp` | apps/audit-service/src/audit/activity-feed.service.ts:37-69 | Once the pipeline has caught up, that walk starts with the snapshot of the current row and replays to its current status |
| `FeedStory.FeedShowsCalls` | apps/audit-service/src/audit/activity-feed.service.ts:56-66 | And that first item says, field by field, what the accepted calls said: title, description, property and priority of the creation, the last status, the last assignee, the classification |
| `FeedStory.SelectIsTrail` | apps/audit-service/src/audit/activity-feed.service.ts:46-50 | The rows the feed selects for one order are exactly its trail, reversed |
| `RelayProtocol.RelaySafety` | apps/work-orders-service/src/messaging/outbox-relay.ts:53-72 | For any number of relays under any failure: live claims are pairwise disjoint, a committed stamp means both brokers hold the event, every broker message comes from a committed row, and within a tick stamped <= recorded <= published <= stamped + 1 |
| `RelayProtocol.StepKeeps` | apps/work-orders-service/src/messaging/outbox-relay.ts:63-72 | Each single step (stage, claim, publish, record, stamp, commit, abort) keeps that invariant |
| `RelayAccounting.PublicationAccounting` | apps/work-orders-service/src/messaging/outbox-relay.ts:52-73 | In every run, and for each broker and row: calls made = 1 if its stamp is committed + one per stopped tick that had reached it + 1 if an open tick has |
| `RelayAccounting.MissingRecords` | apps/work-orders-service/src/messaging/outbox-relay.ts:64-68 | RabbitMQ calls minus Kafka calls for a row is exactly the number of ticks stopped, or standing, between the two calls |
| `RelayAccounting.FailureFreeIsExactlyOnce` | apps/work-orders-service/src/messaging/outbox-relay.ts:63-72 | If no tick stopped, each row was handed to each broker at most once, and exactly once if stamped |
| `RelayAccounting.PublishedOnce` | apps/work-orders-service/src/messaging/outbox-relay.ts:64-67 | If no tick stopped, RabbitMQ holds each event at most once |
| `RelayAccounting.PublishedAgain` | apps/work-orders-service/src/messaging/outbox-relay.ts:18-20 | Counterexample to no row being published twice: for every n a run of one relay in which a row is published n times, and never recorded |
| `RelayOrder.ClaimOrderExact` | apps/work-orders-service/src/messaging/outbox-relay.ts:53-61 | From an ordered state a claim keeps the log in per-order order under every continuation with safe claims if and only if it takes no row of an order that has an earlier row neither claimed along with it nor logged already |
| `RelayOrder.SafeClaimsOrder` | apps/work-orders-service/src/messaging/outbox-relay.ts:57-61 | In a run whose claims are all safe, every logged event comes after all earlier events of its order |
| `RelayOrder.UnsafeClaimDisorders` | apps/work-orders-service/src/messaging/outbox-relay.ts:57-61 | From an unsafe claim there is a continuation, with no further claims, that logs a later event of an order before an earlier one |
| `RelayOrder.LoneClaimIsSafe` | apps/work-orders-service/src/messaging/outbox-relay.ts:57-61 | Claiming the lowest unpublished ids while nothing is locked is always safe |
| `RelayOrder.OneRelayNeverOverlaps` | apps/work-orders-service/src/messaging/outbox-relay.ts:49-50 | Every run of the steps of one relay has one tick at a time |
| `RelayOrder.OneTickIsOrdered` | apps/work-orders-service/src/messaging/outbox-relay.ts:48-82 | Every run with one tick at a time is ordered, and so is every claim in it safe |
| `RelayOrder.TopicPrefix` | apps/work-orders-service/src/messaging/work-order-audit.producer.ts:44-49 | What a consumer that drops repeats sees of one order on an ordered log is a prefix of that order's outbox events |
| `RelayOrder.TwoRelaysReorder` | docs/events.md:102 | Counterexample to the documented per-aggregate order on the Kafka side: relay 1 skips the row relay 0 has locked and logs a later event of the same order first, with no failing call |
| `OutboxRelays.OutboxRelay.Drain` | apps/work-orders-service/src/messaging/outbox-relay.ts:48-83 | A drain, interrupted at every await, fails exactly if its select, a publish, record or stamp of a claimed row, or its commit fails, and then nothing takes effect; otherwise all it claimed is stamped. Its own steps are one claim, then publish, record and stamp row by row, then commit, or the same up to the first step that failed; while draining it does nothing. Undisturbed it claims the lowest rows, and if no call fails both brokers hold their events, in id order, and all of them are stamped |
| `OutboxRelays.OutboxRelay.Poll` | apps/work-orders-service/src/messaging/outbox-relay.ts:39-42 | k ticks of the timer, undisturbed and without failures, leave exactly max(0, n - 20k) of n waiting rows, always the highest ids |
| `OutboxRelays.OutboxRelay.Transaction` | apps/work-orders-service/src/messaging/outbox-relay.ts:52-73 | One transaction: it fails exactly if one of its calls does; all stamps of the claimed rows take effect, also if the acknowledgement of the commit is lost, or none |
| `RelayProgress.CanDrain` | apps/work-orders-service/src/messaging/outbox-relay.ts:48-83 | From every reachable state of any number of relays, open ticks can finish and further ticks stamp every row, without failures and with safe claims only |
| `OutboxRelays.OutboxRelay.ForwardRows` | apps/work-orders-service/src/messaging/outbox-relay.ts:63-72 | The loop publishes, records and stamps the claimed rows one after another and gets to the end exactly if none of these calls fails; otherwise its tick stops at the first one that does |
| `OutboxRelays.OutboxRelay.ForwardRow` | apps/work-orders-service/src/messaging/outbox-relay.ts:64-71 | One iteration publishes, then records, then stamps that very row |
| `OutboxRelays.World.SelectForUpdate` | apps/work-orders-service/src/messaging/outbox-relay.ts:53-61 | Repeatedly taking the lowest unpublished, unlocked row gives exactly the at most 20 lowest ones, ascending |
| `OutboxRelays.OneDrain` | apps/work-orders-service/src/messaging/outbox-relay.ts:53-73 | A successful drain removes min(n, 20) of n waiting rows, all below those left |
| `OutboxRelays.DrainProgress` | apps/work-orders-service/src/messaging/outbox-relay.ts:13 | In any sequence of k successful undisturbed drains the waiting rows shrink to max(0, n - 20k), always the highest ids |
| `Audit.RewindRefinement` | apps/audit-service/src/audit/audit-stream.consumer.ts:36-45 | After any interleaving of appends, deliveries (failing before or after the insert), offset commits, crashes and fresh groups, the table in id order lists exactly the first occurrences of the log prefix up to the highest position inserted, and ids increase |
| `Audit.FreshGroupRebuilds` | apps/audit-service/src/audit/audit-stream.consumer.ts:30-35 | A fresh group that replays the log from the beginning builds the same table up to row ids |
| `Audit.RebuildsAgree` | apps/audit-service/src/audit/audit-stream.consumer.ts:30-45 | Any two runs that got equally far on the same topic, each with failures, crashes and rewinds of its own, list the same events |
| `Audit.Redelivers` | apps/audit-service/src/audit/audit-stream.consumer.ts:40-42 | A message is handled again, and inserts nothing, after a crash before its offset was committed and in a fresh group; it is not handled again after a crash once its offset was committed |
| `Audit.StepKeeps` | apps/audit-service/src/audit/audit-stream.consumer.ts:36-45 | Each step of the audit consumer keeps the refinement |
| `Audit.LogGrows` | apps/work-orders-service/src/messaging/work-order-audit.producer.ts:44-49 | Appending to the topic keeps the refinement |
| `Audit.RowsSayEvents` | apps/audit-service/src/audit/audit-ingest.service.ts:27-39 | After any run each row of the table says, column by column, what a message of the topic says |
| `Audit.AuditService.Record` | apps/audit-service/src/audit/audit-ingest.service.ts:22-46 | Inserts one row that says, column by column, what the event says, unless a row with its event id exists; the serial id is used up either way |
| `Audit.AuditService.EachMessage` | apps/audit-service/src/audit/audit-stream.consumer.ts:37-44 | A message without a value changes nothing; one that does not parse throws and changes nothing; any other is inserted or ignored, and ends as its insert ends |
| `Audit.AuditService.Consume` | apps/audit-service/src/audit/audit-stream.consumer.ts:36-45 | The message loop stops at the first message whose insert fails, and only there; everything before its position has a row, and if nothing fails the table is the whole log without repeats |
| `Events.FirstsSound` | apps/audit-service/src/audit/audit-ingest.service.ts:17-21 | Insert-or-ignore over a whole log keeps exactly the ids of the log, each once, and adds nothing |
| `Events.CausalPrefix` | apps/audit-service/src/audit/audit-ingest.service.ts:17-21 | A causally ordered log without its repeats lists, of each work order, a prefix of its history |
| `ActivityFeed.WalkIsComplete` | apps/audit-service/src/audit/activity-feed.service.ts:30-68 | Following nextCursor to the end, with arbitrary rows appended between requests, returns exactly the rows that matched at the first request, newest first, none skipped or repeated |
| `ActivityFeed.WalkIsAnswer` | apps/audit-service/src/audit/activity-feed.service.ts:37-68 | The pages hold exactly the rows of the table at the first request that have the requested work order, if one was given, and an id below the cursor, if one was given; each once, by descending id, and each item says field by field what its row says |
| `ActivityFeed.WholeFeed` | apps/audit-service/src/audit/activity-feed.service.ts:38-50 | Without cursor and filter the pages are the whole table, newest first |
| `ActivityFeed.KeysetEqualsOffset` | apps/audit-service/src/audit/activity-feed.service.ts:38-54 | That walk has max(1, ceil(n / limit)) pages, and page k is the k-th offset slice of the rows matching at the first request, for every n and limit >= 1 |
| `ActivityFeed.CursorDescends` | apps/audit-service/src/audit/activity-feed.service.ts:67 | Each nextCursor is below the cursor it was requested with, so every walk ends |
| `ActivityFeed.NextRequest` | apps/audit-service/src/audit/activity-feed.service.ts:43-67 | If more than limit rows match, the page is the first limit of them and the next request sees exactly the rest, whatever was appended |
| `ActivityFeed.SelectBelow` | apps/audit-service/src/audit/activity-feed.service.ts:40-45 | A cursor at the m-th matching row leaves exactly the matching rows after it |
| `Paging.ChunksAreOffsetPages` | apps/work-orders-service/src/work-orders/work-orders.service.ts:64-69 | Cutting a list into chunks of limit gives max(1, ceil(n / limit)) chunks, the k-th being skip (k-1)*limit, take limit |
| `Paging.OffsetPageExactly` | apps/work-orders-service/src/work-orders/work-orders.service.ts:64-69 | Entry k of page p is entry (p - 1) * limit + k of the list, for as many entries as there are, at most limit |
| `WorkOrderList.FindAllExactly` | apps/work-orders-service/src/work-orders/work-orders.service.ts:54-72 | The total counts the rows that agree with every filter given, and the page is the slice starting at (page - 1) * limit of a listing of exactly those rows |
| `WorkOrderList.FindAllPages` | apps/work-orders-service/src/work-orders/work-orders.service.ts:54-72 | The pages taken from one listing partition the filtered rows: as many pages as the total says, page p is the p-th chunk, empty beyond the last |
| `WorkOrderList.ListingsAgree` | apps/work-orders-service/src/work-orders/work-orders.service.ts:64-69 | The query, which sorts by creation time only, has a single possible answer if and only if no two rows were created at the same instant |
| `WorkOrderList.PagesFitTogether` | apps/work-orders-service/src/work-orders/work-orders.service.ts:54-72 | On a table without such ties, requests each answered from a listing of its own still partition the matching rows |
| `WorkOrders.HistoryAgreesWithState` | apps/work-orders-service/src/work-orders/work-orders.service.ts:38-117 | After any calls, accepted, rejected or rolled back, every row equals the payload of the last event of its order, orders exist exactly if they have events, every history is a possible one, and outbox ids increase along each order |
| `WorkOrders.StatusIsFold` | apps/work-orders-service/src/work-orders/work-orders.service.ts:82-117 | In every run the events of an order other than triaged tell a documented story, and its status is the replay of its events through the tables |
| `WorkOrders.WorkOrdersService.Stage` | apps/work-orders-service/src/messaging/work-order-events.outbox.ts:16-53 | Appends one outbox row whose envelope carries the given type and the key, time and request context of the call, and whose payload carries, field by field, the order and its classification |
| `WorkOrders.ExecuteKeeps` | apps/work-orders-service/src/work-orders/work-orders.service.ts:38-117 | Each call keeps the agreement of rows and histories |
| `WorkOrders.AcceptedStagesOneEvent` | apps/work-orders-service/src/work-orders/work-orders.service.ts:110-116 | Only an accepted call whose transaction took effect changes the tables, whatever the caller is told, and it stages exactly one event carrying the snapshot of the row: the save without an event is never reached |
| `WorkOrders.HighestIdIsCurrent` | apps/work-orders-service/src/messaging/work-order-events.outbox.ts:48-52 | After any calls, the outbox row with the highest id among those of an order carries the snapshot of its current row |
| `WorkOrders.LastAcceptedCallWins` | apps/work-orders-service/src/work-orders/work-orders.service.ts:49-117 | After any calls an order exists exactly if its creation was accepted, and its row shows, column by column, that creation, the status set by the last accepted call, the assignee of the last accepted assign, the accepted classification and when it was applied, and nothing else |
| `WorkOrders.HighestIdTells` | apps/work-orders-service/src/messaging/work-order-events.outbox.ts:21-52 | After any calls, the outbox row with the highest id of an order carries the key, type, time and request context of the last accepted call of that order, and its payload says, field by field, what the accepted calls said |
| `WorkOrders.RepliesExactly` | apps/work-orders-service/src/work-orders/work-orders.service.ts:74-116 | Which call gets which reply: not found, conflict, skipped, failed or saved, by the rows, the documented lifecycle and the end of the transaction |
| `WorkOrders.TriageIsOnce` | apps/work-orders-service/src/triage/triage.service.ts:19-42 | An order has at most one triaged event, and its row carries the classification of that event |
| `WorkOrders.TriageIsIndependent` | apps/work-orders-service/src/triage/work-order-triage.consumer.ts:32-46 | Inserting a triage call anywhere among other calls leaves the same final rows: status, assignee, triage and all else |
| `WorkOrders.TriageMoves` | apps/work-orders-service/src/triage/triage.service.ts:32-42 | A triage call made before any calls or after them leaves the same rows |
| `WorkOrders.WorkOrdersService.SaveAndStage` | apps/work-orders-service/src/work-orders/work-orders.service.ts:38-47 | Row and event are written together, or neither is; the caller is told of success only if the commit was acknowledged |
| `WorkOrders.WorkOrdersService.CreateOrder` | apps/work-orders-service/src/work-orders/work-orders.service.ts:49-52 | The imperative create does what the specification function of calls says |
| `WorkOrders.WorkOrdersService.AssignOrder` | apps/work-orders-service/src/work-orders/work-orders.service.ts:82-94 | Likewise assign: not found, conflict, or assignee and status set with an assigned event |
| `WorkOrders.WorkOrdersService.UpdateOrderStatus` | apps/work-orders-service/src/work-orders/work-orders.service.ts:96-117 | Likewise updateStatus, with both conflict branches and the save without an event |
| `WorkOrders.WorkOrdersService.FindOne` | apps/work-orders-service/src/work-orders/work-orders.service.ts:74-80 | Finds the row exactly if it exists |
| `WorkOrders.WorkOrdersService.ApplyTriageTo` | apps/work-orders-service/src/triage/triage.service.ts:19-47 | Likewise apply: skipped, or the four triage fields set with a triaged event |
| `WorkOrders.WorkOrdersService.OnWorkOrderCreated` | apps/work-orders-service/src/triage/work-order-triage.consumer.ts:32-46 | Without a classification nothing changes; with one it is applied to the order of the event |
| `Lifecycle.TablesTellTheStory` | apps/work-orders-service/src/work-orders/work-order-transitions.ts:3-38 | A list of event types without triaged replays through the tables if and only if it is: created, then cancelled or assignments, then (after at least one) cancelled or started, then completed or cancelled, stopping anywhere |
| `Lifecycle.HistoryReplays` | apps/work-orders-service/src/work-orders/work-order-transitions.ts:9-38 | Every possible history replays to the status of its last snapshot, with or without its triaged event |
| `Lifecycle.HistorySettles` | apps/work-orders-service/src/work-orders/work-order-transitions.ts:9-38 | Along a history: terminal states absorb all but triage, the assignee is set from assigned onwards and fixed once work starts, and the first classification stays |
| `Lifecycle.AllowedTargetsHaveEvents` | apps/work-orders-service/src/work-orders/work-orders.service.ts:18-22 | Every target the table allows has an event, which leads to exactly that target |
| `NotificationLaws.Conservation` | apps/notifications-service/src/notifications/event-retry.handler.ts:29-55 | In every run, with overlaps, failures and crashes: messages that arrived plus originals that came back although their copy lives on = copies in main, retry and dead-letter queues + copies finished |
| `NotificationLaws.FaultFreeIsExact` | apps/notifications-service/src/notifications/event-retry.handler.ts:32-55 | Without handed-back deliveries, failed publishes and numeric headers on arriving messages the two sides balance exactly, and each arrival is handled at most three times |
| `NotificationLaws.NoSilentLoss` | apps/notifications-service/src/notifications/work-order-events.consumer.ts:55-81 | A message that arrived still waits in one of its queues, or its notification was sent |
| `NotificationLaws.MarkedWasSent` | apps/notifications-service/src/notifications/work-order-events.consumer.ts:60-67 | In every run every marked id was sent, and so was everything handled or finished; the store stays within its bound |
| `NotificationLaws.AtMostThreeRuns` | apps/notifications-service/src/notifications/event-retry.handler.ts:32-61 | If arriving messages carry no numeric header, attempts stay in 1..3, and handler runs of a message are at most 3 per arrival or doubled copy, plus one per original handed back |
| `NotificationChains.ThreeRunsPerChain` | apps/notifications-service/src/notifications/event-retry.handler.ts:32-54 | Each copy is followed back, copy by copy, to the message that arrived: the chain has one link per attempt (and one more for a dead-lettered copy), and at most three handler runs along it, plus one for each time a copy on it went back |
| `NotificationChains.FaultFreeChains` | apps/notifications-service/src/notifications/event-retry.handler.ts:32-54 | Without faults the handler runs at most three times along every chain |
| `NotificationChains.DeadAfterThreeRuns` | apps/notifications-service/src/notifications/event-retry.handler.ts:34-54 | A dead-lettered copy carries attempt 3, and its handler ran at least three times along its chain, exactly three times without faults |
| `NotificationChains.RetryAfterRuns` | apps/notifications-service/src/notifications/event-retry.handler.ts:34-41 | A copy in a retry queue carries attempt 2 or 3, and its handler ran at least once, or twice, before |
| `NotificationChains.DeliveriesOfCopy` | apps/notifications-service/src/notifications/event-retry.handler.ts:23-56 | A copy is handed to its handler exactly once more than it went back, once it has left its queue |
| `NotificationLaws.RetryTerminates` | apps/notifications-service/src/notifications/messaging-resilience.ts:10-21 | Without arrivals and faults, the number of steps still possible is bounded by a measure over all copies: every run is finite |
| `NotificationLaws.ProgressCostsEffort` | apps/notifications-service/src/notifications/event-retry.handler.ts:34-54 | Every such step, including each failed handling and each expiry, strictly lowers that measure |
| `NotificationLaws.QuietOrProgress` | apps/notifications-service/src/notifications/messaging-resilience.ts:13-20 | No such step is possible if and only if every copy was handled, replaced or dead-lettered |
| `NotificationLaws.QuietIsSettled` | apps/notifications-service/src/notifications/event-retry.handler.ts:42-54 | When quiet, every message that arrived was sent or lies in the dead-letter queue |
| `NotificationLaws.Quiesces` | apps/notifications-service/src/notifications/messaging-resilience.ts:10-21 | From every state the notification side can come to rest without arrivals and without failures |
| `NotificationLaws.DuplicatesAreSuppressed` | apps/notifications-service/src/notifications/work-order-events.consumer.ts:83-89 | Even with overlapping deliveries, a check after the mark that inserted the id, with at most 9999 marks and no restart in between, sends nothing |
| `NotificationLaws.StoreFollowsMarks` | apps/notifications-service/src/notifications/processed-events.store.ts:23-32 | Between restarts the store is the replay of the marks of the run |
| `NotificationOnce.CheckExact` | apps/notifications-service/src/notifications/work-order-events.consumer.ts:83-89 | From a state without repeats, a duplicate check keeps every continuation with safe checks free of repeated notifications, whatever fails or crashes in it, if and only if the id is in the store, or was not sent and is not being sent by another delivery |
| `NotificationOnce.SafeChecksSendOnce` | apps/notifications-service/src/notifications/work-order-events.consumer.ts:55-81 | In a run whose checks are all safe each event is sent at most once |
| `NotificationOnce.UnsafeCheckSendsTwice` | apps/notifications-service/src/notifications/work-order-events.consumer.ts:55-81 | After an unsafe check, sends that all succeed send an event twice |
| `NotificationOnce.CalmSendsOnce` | apps/notifications-service/src/notifications/work-order-events.consumer.ts:55-81 | With no overlap of one event, no hand-back, no failure after sending, no eviction and no restart, every check is safe and each event is sent at most once |
| `NotificationOnce.SingleArrivalsSendOnce` | apps/notifications-service/src/notifications/work-order-events.consumer.ts:55-81 | If each message arrived once and no delivery was handed back, no publish of a copy failed and no send failed late, each event is sent at most once, with no hypothesis on overlap or on the store |
| `NotificationConsumer.WorkOrderEventsConsumer.OnMessage` | apps/notifications-service/src/notifications/work-order-events.consumer.ts:31-53 | One delivery from hand-over to ack, interrupted at every await, takes protocol steps only; it asks the sender unless the event is marked, and is acked unless both the sender and the publish of a copy fail; undisturbed it notifies, marks, and leaves the message and its copy exactly as the answers of sender and broker determine |
| `NotificationConsumer.WorkOrderEventsConsumer.Handle` | apps/notifications-service/src/notifications/event-retry.handler.ts:23-56 | The original is acked exactly if the handler or the publish of a copy succeeded; otherwise it stays in the main queue |
| `NotificationConsumer.WorkOrderEventsConsumer.RetryOrDeadLetter` | apps/notifications-service/src/notifications/event-retry.handler.ts:31-61 | The numeric attempt header, or 1, decides: below three the copy goes to the retry queue with the attempt raised by one, otherwise to the dead-letter queue with the attempt kept; a failed publish leaves the original in the main queue |
| `NotificationConsumer.WorkOrderEventsConsumer.Notify` | apps/notifications-service/src/notifications/work-order-events.consumer.ts:55-81 | Check, then send, then mark; a duplicate sends nothing and succeeds, otherwise the handler ends as the sender does, and a failed send marks nothing |
| `ProcessedEvents.ProcessedEventsStore.MarkProcessed` | apps/notifications-service/src/notifications/processed-events.store.ts:23-32 | The evict loop with its break drops exactly the oldest of 10000 entries, even if the id is held, and then adds the id unless held |
| `NotificationConsumer.WorkOrderEventsConsumer.HeaderAttempt` | apps/notifications-service/src/notifications/event-retry.handler.ts:58-61 | The numeric header, or 1 |
| `NotificationConsumer.WorkOrderEventsConsumer.IsDuplicate` | apps/notifications-service/src/notifications/work-order-events.consumer.ts:83-89 | True exactly for ids in the store |
| `ProcessedEvents.ProcessedEventsStore.Has` | apps/notifications-service/src/notifications/processed-events.store.ts:17-19 | True exactly for held ids |
| `ProcessedEvents.StoreIsLastMarks` | apps/notifications-service/src/notifications/processed-events.store.ts:15-32 | Throughout a run of marks the set in insertion order is the last min(n, cap) marks if and only if each mark was of an id not held, or of the very entry it evicts |
| `ProcessedEvents.MarkIsLastOf` | apps/notifications-service/src/notifications/processed-events.store.ts:23-32 | The same for one mark: append and drop the oldest, if and only if that condition holds |
| `ProcessedEvents.FreshSurvives` | apps/notifications-service/src/notifications/processed-events.store.ts:24-30 | A freshly inserted id survives the next cap - 1 marks, whatever they are |
| `ProcessedEvents.MarksKeep` | apps/notifications-service/src/notifications/processed-events.store.ts:24-32 | For arbitrary marks the store has no repeats, never exceeds its capacity and holds only ids that were held before or marked |
| `Topology.HopsExactly` | apps/notifications-service/src/notifications/messaging-resilience.ts:22-39 | Through the declared bindings a message gets from its main queue exactly to its retry and dead-letter queues, from its retry queue exactly back, from its dead-letter queue nowhere |
| `Topology.Confinement` | apps/notifications-service/src/notifications/messaging-resilience.ts:22-39 | For any consumers whose queue names do not clash, no path leaves the three queues of its consumer |
| `Topology.DeclaredQueues` | apps/notifications-service/src/notifications/messaging-resilience.ts:4-39 | The six queues the notifications service declares, with their bindings, expiry and dead-letter routing, name by name |
| `Topology.FamiliesApart` | apps/notifications-service/src/notifications/messaging-resilience.ts:7-8 | The queue families of two consumers are disjoint if and only if neither name is the other's retry or dead-letter name |
| `Topology.QueuesAreConfined` | apps/notifications-service/src/notifications/notifications.module.ts:22-25 | No copy of one notification consumer reaches any queue of the other |

## Left out

- RelayOrder.SafeClaimsOrder: the safe-claim condition is required of every claim of the run; order with several relays is not guaranteed otherwise, and no probability of reordering is stated.
- OutboxRelays.DrainProgress: counts successful drains with nobody else at work; nothing is promised if a row fails forever, because the code retries it forever at the head of the batch.
- NotificationOnce.CalmSendsOnce: a sufficient condition on steps; the exact one, on checks, is CheckExact.
- WorkOrders.HistoryAgreesWithState: says nothing about racing writes to one order, which the code does not exclude.
- WorkOrderList.FindAllPages: takes all pages from one listing; ListingsAgree says when the query has only one.
- ActivityFeed.WalkIsComplete: needs ids that increase in the order rows become visible, which holds for one writer.
- Audit.RewindRefinement: the topic holds what the relays append, so no message of it is empty or malformed; EachMessage covers those branches.
- NotificationConsumer.WorkOrderEventsConsumer.HeaderAttempt: numeric headers are integers; fractional, infinite and NaN headers are not modelled, and only outsiders could send them.
- NotificationLaws.RetryTerminates: counts attempts in unbounded integers; a header below -2^53, which the pipeline never writes, would not count up in double arithmetic.
- Topology.HopsExactly: routing keys contain no topic wildcards, and only queues of the notifications service are declared; the triage queue is bound separately and has no retry.
- Several Kafka partitions, rebalancing, and the log cleanup of the topic.
- The classifier (its answer is a parameter), the wording and recipients of notifications, the x-last-error header.
- Manual replay from the dead-letter queue, pruning of published rows, a message lost by a broker.
- Real time: the poll interval, the retry delay and timestamps; ticks and expiries are steps that may happen at any moment.
- A second drain of a crashed instance while its old transaction still holds locks counts as a second relay.
- Update timestamps of rows, and the request context beyond its two ids.
- Controllers, validation, the gateway, the properties service, health probes, metrics, logging and migrations: plumbing with short branches.
