// The activity feed: keyset pagination over a table that grows while it is
// read, against the arithmetic of offset pagination.
module ActivityFeed {
  import opened Contracts
  import opened Audit
  import opened Paging

  datatype Query = Query(limit: nat, cursor: Option<nat>, workOrderId: Option<Uuid>)

  datatype Item = Item(
    id: nat, eventType: EventType, workOrderId: Uuid, propertyId: Uuid,
    correlationId: Option<Uuid>, actorId: Option<Uuid>, occurredAt: nat, payload: EventData)

  datatype Page = Page(data: seq<Item>, nextCursor: Option<nat>)

  function ItemOf(row: AuditRow): Item {
    Item(row.id, row.eventType, row.workOrderId, row.propertyId,
         row.correlationId, row.actorId, row.occurredAt, row.payload)
  }

  function Items(rows: seq<AuditRow>): seq<Item> {
    seq(|rows|, i requires 0 <= i < |rows| => ItemOf(rows[i]))
  }

  // The item says what the row says, field by field.
  predicate SaysRow(item: Item, row: AuditRow) {
    && item.id == row.id && item.eventType == row.eventType && item.occurredAt == row.occurredAt
    && item.workOrderId == row.workOrderId && item.propertyId == row.propertyId
    && item.correlationId == row.correlationId && item.actorId == row.actorId && item.payload == row.payload
  }

  // ---------- One request ----------

  predicate Matches(row: AuditRow, q: Query) {
    && (q.cursor.Some? ==> row.id < q.cursor.value)
    && (q.workOrderId.Some? ==> row.workOrderId == q.workOrderId.value)
  }

  // The matching rows, by descending id. A table lists its rows by ascending id.
  function Select(table: seq<AuditRow>, q: Query): seq<AuditRow> {
    if table == [] then []
    else
      var rest := Select(table[..|table| - 1], q);
      var newest := table[|table| - 1];
      if Matches(newest, q) then [newest] + rest else rest
  }

  // ActivityFeedService.list. The query DTO rejects a limit below 1.
  function List(table: seq<AuditRow>, q: Query): Page
    requires q.limit >= 1
  {
    var all := Select(table, q);
    var rows := if |all| <= q.limit + 1 then all else all[..q.limit + 1];
    var hasMore := |rows| > q.limit;
    var page := if hasMore then rows[..q.limit] else rows;
    Page(Items(page), if hasMore then Some(page[|page| - 1].id) else None)
  }

  // ---------- Following nextCursor to the end ----------

  // The pages of a walk; before each further request the table grows by the
  // next chunk of `growth`.
  function Walk(table: seq<AuditRow>, growth: seq<seq<AuditRow>>, q: Query): seq<seq<Item>>
    requires q.limit >= 1
    decreases q.cursor.None?, if q.cursor.Some? then q.cursor.value else 0
  {
    var page := List(table, q);
    if page.nextCursor.None? then [page.data]
    else
      CursorDescends(table, q);
      [page.data] + Walk(table + First(growth), Rest(growth), q.(cursor := page.nextCursor))
  }

  function First(growth: seq<seq<AuditRow>>): seq<AuditRow> {
    if growth == [] then [] else growth[0]
  }

  function Rest(growth: seq<seq<AuditRow>>): seq<seq<AuditRow>> {
    if growth == [] then [] else growth[1..]
  }

  function Grown(table: seq<AuditRow>, growth: seq<seq<AuditRow>>): seq<AuditRow>
    decreases |growth|
  {
    if growth == [] then table else Grown(table + growth[0], growth[1..])
  }

  lemma {:induction false} SelectMembers(table: seq<AuditRow>, q: Query)
    ensures forall row :: row in Select(table, q) <==> row in table && Matches(row, q)
  {
    if table != [] {
      SelectMembers(table[..|table| - 1], q);
      assert table == table[..|table| - 1] + [table[|table| - 1]];
    }
  }

  lemma CursorDescends(table: seq<AuditRow>, q: Query)
    requires q.limit >= 1 && List(table, q).nextCursor.Some?
    ensures q.cursor.Some? ==> List(table, q).nextCursor.value < q.cursor.value
  {
    SelectMembers(table, q);
    assert Select(table, q)[q.limit - 1] in Select(table, q);
  }

  // ---------- Keyset equals offset, even while the table grows ----------

  lemma {:induction false} SelectConcat(a: seq<AuditRow>, b: seq<AuditRow>, q: Query)
    ensures Select(a + b, q) == Select(b, q) + Select(a, q)
  {
    if b == [] {
      assert a + b == a;
    } else {
      SelectConcat(a, b[..|b| - 1], q);
      assert (a + b)[..|a + b| - 1] == a + b[..|b| - 1];
    }
  }

  lemma {:induction false} SameMatches(table: seq<AuditRow>, p: Query, q: Query)
    requires forall row | row in table :: Matches(row, p) <==> Matches(row, q)
    ensures Select(table, p) == Select(table, q)
  {
    if table != [] {
      SameMatches(table[..|table| - 1], p, q);
    }
  }

  lemma {:induction false} NothingMatches(table: seq<AuditRow>, q: Query)
    requires forall row | row in table :: !Matches(row, q)
    ensures Select(table, q) == []
  {
    if table != [] {
      NothingMatches(table[..|table| - 1], q);
    }
  }

  // Moving the cursor to the m-th matching row leaves those after it.
  lemma {:induction false} SelectBelow(table: seq<AuditRow>, q: Query, m: nat)
    requires IdsIncrease(table) && m < |Select(table, q)|
    ensures Select(table, q.(cursor := Some(Select(table, q)[m].id))) == Select(table, q)[m + 1..]
  {
    var n := |table| - 1;
    var front, newest, all := table[..n], table[n], Select(table, q);
    var below := q.(cursor := Some(all[m].id));
    SelectMembers(front, q);
    if m > 0 || !Matches(newest, q) {
      var k := if Matches(newest, q) then m - 1 else m;
      SelectBelow(front, q, k);
      assert Select(front, q)[k] in front;
      assert !Matches(newest, below);
    } else {
      SameMatches(front, q, below);
    }
  }

  lemma {:induction false} GrownExtends(table: seq<AuditRow>, growth: seq<seq<AuditRow>>)
    ensures table <= Grown(table, growth)
    decreases |growth|
  {
    if growth != [] {
      GrownExtends(table + growth[0], growth[1..]);
    }
  }

  // Rows appended later have higher ids, so no cursor into the table reaches them.
  lemma AppendedStayOut(table: seq<AuditRow>, added: seq<AuditRow>, q: Query, row: AuditRow)
    requires IdsIncrease(table + added) && row in table && q.cursor == Some(row.id)
    ensures Select(table + added, q) == Select(table, q)
  {
    SelectConcat(table, added, q);
    var all := table + added;
    forall x | x in added ensures !Matches(x, q) {
      var i :| 0 <= i < |table| && table[i] == row;
      var j :| 0 <= j < |added| && added[j] == x;
      assert all[i] == row && all[|table| + j] == x;
    }
    NothingMatches(added, q);
  }

  lemma GrownLater(table: seq<AuditRow>, growth: seq<seq<AuditRow>>)
    requires IdsIncrease(Grown(table, growth))
    ensures IdsIncrease(table + First(growth)) && IdsIncrease(Grown(table + First(growth), Rest(growth)))
    ensures IdsIncrease(table)
  {
    assert growth == [] ==> table + First(growth) == table;
    GrownExtends(table + First(growth), Rest(growth));
    GrownExtends(table, growth);
  }

  // A cursor at a selected row selects the rows after it, whatever was appended.
  lemma NextSelection(table: seq<AuditRow>, added: seq<AuditRow>, q: Query, m: nat)
    requires IdsIncrease(table) && IdsIncrease(table + added) && m < |Select(table, q)|
    ensures Select(table + added, q.(cursor := Some(Select(table, q)[m].id))) == Select(table, q)[m + 1..]
  {
    var last := Select(table, q)[m];
    SelectMembers(table, q);
    assert last in Select(table, q);
    SelectBelow(table, q, m);
    AppendedStayOut(table, added, q.(cursor := Some(last.id)), last);
  }

  lemma FullPage(table: seq<AuditRow>, q: Query)
    requires q.limit >= 1 && |Select(table, q)| > q.limit
    ensures List(table, q).data == Items(Select(table, q)[..q.limit])
    ensures List(table, q).nextCursor == Some(Select(table, q)[q.limit - 1].id)
  {
    var all := Select(table, q);
    assert all[..q.limit + 1][..q.limit] == all[..q.limit];
  }

  // The next request of a walk sees exactly the rows after the last one seen,
  // whatever was appended meanwhile.
  lemma NextRequest(table: seq<AuditRow>, growth: seq<seq<AuditRow>>, q: Query)
    requires q.limit >= 1 && IdsIncrease(Grown(table, growth)) && |Select(table, q)| > q.limit
    ensures var next := List(table, q).nextCursor;
      next.Some? && Select(table + First(growth), q.(cursor := next)) == Select(table, q)[q.limit..]
    ensures List(table, q).data == Items(Select(table, q)[..q.limit])
    ensures IdsIncrease(Grown(table + First(growth), Rest(growth)))
  {
    FullPage(table, q);
    GrownLater(table, growth);
    NextSelection(table, First(growth), q, q.limit - 1);
  }

  function ItemPages(pages: seq<seq<AuditRow>>): seq<seq<Item>> {
    seq(|pages|, i requires 0 <= i < |pages| => Items(pages[i]))
  }

  lemma PagesOfCons(first: seq<AuditRow>, rest: seq<seq<AuditRow>>)
    ensures ItemPages([first] + rest) == [Items(first)] + ItemPages(rest)
  {
  }

  lemma {:induction false} WalkIsChunks(table: seq<AuditRow>, growth: seq<seq<AuditRow>>, q: Query)
    requires q.limit >= 1 && IdsIncrease(Grown(table, growth))
    ensures Walk(table, growth, q) == ItemPages(Chunks(Select(table, q), q.limit))
    decreases |Select(table, q)|
  {
    var all := Select(table, q);
    if |all| > q.limit {
      NextRequest(table, growth, q);
      var next := q.(cursor := List(table, q).nextCursor);
      WalkIsChunks(table + First(growth), Rest(growth), next);
      PagesOfCons(all[..q.limit], Chunks(all[q.limit..], q.limit));
    } else {
      assert Chunks(all, q.limit) == [all];
    }
  }

  // The walk over a growing table has max(1, ceil(n / limit)) pages, and page k
  // is the k-th offset slice of the rows that matched at the first request.
  lemma KeysetEqualsOffset(table: seq<AuditRow>, growth: seq<seq<AuditRow>>, q: Query)
    requires q.limit >= 1 && IdsIncrease(Grown(table, growth))
    ensures var all, pages := Select(table, q), Walk(table, growth, q);
      && IsPageCount(|pages|, |all|, q.limit)
      && forall k | 0 <= k < |pages| :: pages[k] == Items(OffsetPage(all, k + 1, q.limit))
  {
    WalkIsChunks(table, growth, q);
    ChunksAreOffsetPages(Select(table, q), q.limit);
  }

  function Flatten(pages: seq<seq<Item>>): seq<Item> {
    if pages == [] then [] else pages[0] + Flatten(pages[1..])
  }

  lemma {:induction false} FlattenChunks(rows: seq<AuditRow>, limit: nat)
    requires limit >= 1
    ensures Flatten(ItemPages(Chunks(rows, limit))) == Items(rows)
  {
    var pages := ItemPages(Chunks(rows, limit));
    if |rows| > limit {
      FlattenChunks(rows[limit..], limit);
      assert pages[1..] == ItemPages(Chunks(rows[limit..], limit));
      assert rows == rows[..limit] + rows[limit..];
    } else {
      assert pages[1..] == [];
    }
  }

  // Nothing skipped, nothing repeated: the pages in order are the matching rows
  // of the first request, newest first.
  lemma WalkIsComplete(table: seq<AuditRow>, growth: seq<seq<AuditRow>>, q: Query)
    requires q.limit >= 1 && IdsIncrease(Grown(table, growth))
    ensures Flatten(Walk(table, growth, q)) == Items(Select(table, q))
  {
    WalkIsChunks(table, growth, q);
    FlattenChunks(Select(table, q), q.limit);
  }

  // ---------- What a walk returns, without the query ----------

  // No cursor or a higher one, and no work order or this one.
  predicate Wanted(row: AuditRow, q: Query) {
    && (q.cursor == None || row.id < q.cursor.value)
    && (q.workOrderId == None || q.workOrderId == Some(row.workOrderId))
  }

  // Exactly the wanted rows of the table, each once, by descending id.
  ghost predicate IsAnswer(items: seq<Item>, table: seq<AuditRow>, q: Query) {
    && (forall i, j :: 0 <= i < j < |items| ==> items[i].id > items[j].id)
    && (forall item | item in items :: exists row | row in table :: SaysRow(item, row) && Wanted(row, q))
    && (forall row | row in table && Wanted(row, q) :: exists item | item in items :: SaysRow(item, row))
  }

  lemma {:induction false} SelectDescends(table: seq<AuditRow>, q: Query)
    requires IdsIncrease(table)
    ensures forall i, j :: 0 <= i < j < |Select(table, q)| ==> Select(table, q)[i].id > Select(table, q)[j].id
  {
    if table != [] {
      var front := table[..|table| - 1];
      SelectDescends(front, q);
      SelectMembers(front, q);
      assert forall k | 0 <= k < |Select(front, q)| :: Select(front, q)[k] in front;
    }
  }

  lemma WalkIsAnswer(table: seq<AuditRow>, growth: seq<seq<AuditRow>>, q: Query)
    requires q.limit >= 1 && IdsIncrease(Grown(table, growth))
    ensures IsAnswer(Flatten(Walk(table, growth, q)), table, q)
  {
    GrownLater(table, growth);
    WalkIsComplete(table, growth, q);
    SelectDescends(table, q);
    SelectMembers(table, q);
    var rows := Select(table, q);
    var items := Items(rows);
    forall item | item in items ensures exists row | row in table :: SaysRow(item, row) && Wanted(row, q) {
      var i :| 0 <= i < |rows| && items[i] == item;
      assert rows[i] in table && SaysRow(item, rows[i]) && Wanted(rows[i], q);
    }
    forall row | row in table && Wanted(row, q) ensures exists item | item in items :: SaysRow(item, row) {
      assert row in rows;
      var i :| 0 <= i < |rows| && rows[i] == row;
      assert items[i] in items && SaysRow(items[i], row);
    }
  }

  lemma {:induction false} SelectAll(table: seq<AuditRow>, q: Query)
    requires q.cursor == None && q.workOrderId == None
    ensures |Select(table, q)| == |table|
    ensures forall k | 0 <= k < |table| :: Select(table, q)[k] == table[|table| - 1 - k]
  {
    if table != [] {
      SelectAll(table[..|table| - 1], q);
    }
  }

  // Without a filter the pages are the whole table, newest first.
  lemma WholeFeed(table: seq<AuditRow>, growth: seq<seq<AuditRow>>, limit: nat)
    requires limit >= 1 && IdsIncrease(Grown(table, growth))
    ensures var items := Flatten(Walk(table, growth, Query(limit, None, None)));
      |items| == |table| && forall k | 0 <= k < |table| :: SaysRow(items[k], table[|table| - 1 - k])
  {
    WalkIsComplete(table, growth, Query(limit, None, None));
    SelectAll(table, Query(limit, None, None));
  }
}
