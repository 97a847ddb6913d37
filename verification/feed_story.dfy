// The activity feed of one order never tells an impossible story.
module FeedStory {
  import opened Contracts
  import opened Events
  import opened Lifecycle
  import W = WorkOrders
  import A = Audit
  import opened ActivityFeed
  import P = Pipeline
  import F = FaultFreeRuns

  // The event types of a walk, oldest first.
  function OldestFirst(items: seq<Item>): seq<EventType> {
    seq(|items|, i requires 0 <= i < |items| => items[|items| - 1 - i].eventType)
  }

  function OfOneOrder(order: Uuid, limit: nat): Query {
    Query(limit, None, Some(order))
  }

  // The rows selected for one order are its trail, newest first.
  lemma {:induction false} SelectIsTrail(table: seq<A.AuditRow>, order: Uuid, limit: nat)
    requires forall row | row in table :: Repeats(row)
    ensures var rows, trail := Select(table, OfOneOrder(order, limit)), OfOrder(A.RecordedAll(table), order);
      && |rows| == |trail|
      && forall i | 0 <= i < |rows| :: A.Recorded(rows[i]) == trail[|trail| - 1 - i]
  {
    if table != [] {
      var front, newest := table[..|table| - 1], table[|table| - 1];
      SelectIsTrail(front, order, limit);
      assert A.RecordedAll(table)[..|table| - 1] == A.RecordedAll(front);
      assert newest in table;
    }
  }

  // The item says what the event says, field by field.
  predicate SaysEvent(item: Item, e: Event) {
    && item.eventType == e.kind && item.occurredAt == e.occurredAt
    && item.correlationId == e.correlationId && item.actorId == e.actorId && item.payload == e.data
    && item.workOrderId == e.data.workOrderId && item.propertyId == e.data.propertyId
  }

  // What the pages of one order's feed say, given that its trail is a prefix of
  // a possible history.
  ghost predicate FitsHistory(items: seq<Item>, history: seq<Event>) {
    var kinds := OldestFirst(items);
    && (forall k | 0 <= k < |items| && |items| <= |history| :: SaysEvent(items[k], history[|items| - 1 - k]))
    && |items| <= |history| && kinds == Kinds(history)[..|items|]
    && (items != [] ==>
          && items[0].payload == history[|items| - 1].data
          && Replay(kinds) == Some(items[0].payload.status)
          && IsStory(WithoutTriage(kinds)))
  }

  // The columns that repeat the payload.
  predicate Repeats(row: A.AuditRow) {
    row.workOrderId == row.payload.workOrderId && row.propertyId == row.payload.propertyId
  }

  lemma RowTells(row: A.AuditRow, e: Event)
    requires A.Recorded(row) == e && Repeats(row)
    ensures SaysEvent(ItemOf(row), e)
  {
  }

  lemma TrailTells(rows: seq<A.AuditRow>, trail: seq<Event>, history: seq<Event>)
    requires |rows| == |trail| && forall i | 0 <= i < |rows| :: A.Recorded(rows[i]) == trail[|trail| - 1 - i]
    requires forall row | row in rows :: Repeats(row)
    requires trail <= history && Chained(history)
    ensures FitsHistory(Items(rows), history)
  {
    var items := Items(rows);
    forall k | 0 <= k < |items| ensures SaysEvent(items[k], history[|items| - 1 - k]) {
      RowTells(rows[k], trail[|trail| - 1 - k]);
    }
    TrailReplays(items, trail, history);
  }

  lemma TrailReplays(items: seq<Item>, trail: seq<Event>, history: seq<Event>)
    requires |items| == |trail| && trail <= history && Chained(history)
    requires forall k | 0 <= k < |items| :: SaysEvent(items[k], history[|items| - 1 - k])
    ensures FitsHistory(items, history)
  {
    forall i | 0 <= i < |items| ensures OldestFirst(items)[i] == trail[i].kind {
      assert SaysEvent(items[|items| - 1 - i], history[i]);
    }
    assert OldestFirst(items) == Kinds(trail) == Kinds(history)[..|items|];
    if trail != [] {
      HistoryReplays(trail);
      HistoryIsStory(trail);
    }
  }

  lemma WalkTells(table: seq<A.AuditRow>, growth: seq<seq<A.AuditRow>>, order: Uuid, limit: nat, history: seq<Event>)
    requires limit >= 1 && A.IdsIncrease(Grown(table, growth))
    requires forall row | row in table :: Repeats(row)
    requires OfOrder(A.RecordedAll(table), order) <= history && Chained(history)
    ensures var items := Flatten(Walk(table, growth, OfOneOrder(order, limit)));
      FitsHistory(items, history) && |items| == |OfOrder(A.RecordedAll(table), order)|
  {
    WalkIsComplete(table, growth, OfOneOrder(order, limit));
    SelectIsTrail(table, order, limit);
    SelectMembers(table, OfOneOrder(order, limit));
    TrailTells(Select(table, OfOneOrder(order, limit)), OfOrder(A.RecordedAll(table), order), history);
  }

  lemma TrailIsPossible(acts: seq<P.Action>, order: Uuid)
    requires P.Legal(acts)
    ensures Chained(W.History(P.After(acts).db, order))
    ensures forall row | row in P.After(acts).audit.table :: Repeats(row)
  {
    P.EveryRun(acts);
    assert W.Agrees(P.After(acts).db, order);
  }

  // Walk all pages of one order's feed, however the table grows meanwhile, and
  // replay the event types oldest first through the transition tables: the run
  // is legal, tells one of the documented stories, and ends in the status of a
  // snapshot that the order really had.
  lemma FeedNeverLies(acts: seq<P.Action>, order: Uuid, limit: nat, growth: seq<seq<A.AuditRow>>)
    requires P.Legal(acts) && P.ClaimsSafe(acts) && limit >= 1
    requires A.IdsIncrease(Grown(P.After(acts).audit.table, growth))
    ensures var s := P.After(acts);
      FitsHistory(Flatten(Walk(s.audit.table, growth, OfOneOrder(order, limit))), W.History(s.db, order))
  {
    TrailIsPossible(acts, order);
    P.EndToEndPrefix(acts, order);
    WalkTells(P.After(acts).audit.table, growth, order, limit, W.History(P.After(acts).db, order));
  }

  // Once everything is published and consumed, the feed ends in the snapshot of
  // the row as it is now.
  lemma FeedCatchesUp(acts: seq<P.Action>, order: Uuid, limit: nat, growth: seq<seq<A.AuditRow>>)
    requires P.Legal(acts) && P.ClaimsSafe(acts) && P.CaughtUp(P.After(acts)) && limit >= 1
    requires A.IdsIncrease(Grown(P.After(acts).audit.table, growth))
    requires order in P.After(acts).db.orders
    ensures var s := P.After(acts);
      var items := Flatten(Walk(s.audit.table, growth, OfOneOrder(order, limit)));
      && items != [] && items[0].payload == W.Snapshot(s.db.orders[order])
      && Replay(OldestFirst(items)) == Some(s.db.orders[order].status)
  {
    TrailIsPossible(acts, order);
    P.CaughtUpAgrees(acts, P.After(acts), order);
    WalkTells(P.After(acts).audit.table, growth, order, limit, W.History(P.After(acts).db, order));
  }

  // And that first item says, field by field, what the accepted calls said.
  lemma FeedShowsCalls(acts: seq<P.Action>, order: Uuid, limit: nat, growth: seq<seq<A.AuditRow>>)
      returns (calls: seq<W.Request>)
    requires P.Legal(acts) && P.ClaimsSafe(acts) && P.CaughtUp(P.After(acts)) && limit >= 1
    requires A.IdsIncrease(Grown(P.After(acts).audit.table, growth))
    requires order in P.After(acts).db.orders
    ensures W.AllFresh(W.EMPTY_DB, calls) && W.AfterCalls(W.EMPTY_DB, calls) == P.After(acts).db
    ensures var items := Flatten(Walk(P.After(acts).audit.table, growth, OfOneOrder(order, limit)));
      items != [] &&
      W.Carries(items[0].payload, order,
                W.LastAccepted(calls, order, W.Creation), W.LastAccepted(calls, order, W.Assignment),
                W.LastAccepted(calls, order, W.StatusChange), W.LastAccepted(calls, order, W.Classification))
  {
    calls := F.CallsRun(acts);
    FeedCatchesUp(acts, order, limit, growth);
    W.LastAcceptedCallWins(calls, order);
    W.SnapshotCarries(P.After(acts).db.orders[order], order,
                      W.LastAccepted(calls, order, W.Creation), W.LastAccepted(calls, order, W.Assignment),
                      W.LastAccepted(calls, order, W.StatusChange), W.LastAccepted(calls, order, W.Classification));
  }
}
