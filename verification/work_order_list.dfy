// The work-order list: offset pages of the rows by descending creation time.
module WorkOrderList {
  import opened Contracts
  import opened Paging

  datatype OrderFilter = OrderFilter(status: Option<Status>, priority: Option<Priority>, propertyId: Option<Uuid>)

  function Where(newestFirst: seq<WorkOrder>, f: OrderFilter): seq<WorkOrder> {
    if newestFirst == [] then []
    else
      var o, rest := newestFirst[0], Where(newestFirst[1..], f);
      if (f.status.None? || f.status.value == o.status) && (f.priority.None? || f.priority.value == o.priority) &&
         (f.propertyId.None? || f.propertyId.value == o.propertyId)
      then [o] + rest else rest
  }

  // WorkOrdersService.findAll over the rows by descending creation time: one
  // page, and the total.
  function FindAll(newestFirst: seq<WorkOrder>, f: OrderFilter, page: nat, limit: nat): (seq<WorkOrder>, nat)
    requires page >= 1 && limit >= 1
  {
    var all := Where(newestFirst, f);
    (OffsetPage(all, page, limit), |all|)
  }

  // ---------- Pages of one listing ----------

  // The pages of the work-order list, taken on an unchanging table: as many as
  // the total says, each row on one page, and nothing after the last page.
  lemma FindAllPages(newestFirst: seq<WorkOrder>, f: OrderFilter, limit: nat, page: nat)
    requires limit >= 1 && page >= 1
    ensures var (data, total) := FindAll(newestFirst, f, page, limit);
      var pages := Chunks(Where(newestFirst, f), limit);
      && IsPageCount(|pages|, total, limit)
      && data == if page <= |pages| then pages[page - 1] else []
  {
    var all := Where(newestFirst, f);
    ChunksAreOffsetPages(all, limit);
    if page > |Chunks(all, limit)| {
      PastTheEnd(all, page, |Chunks(all, limit)|, limit);
    }
  }

  // ---------- Listings the query may return ----------

  // The query sorts by creation time only, so any of these may be the answer.
  ghost predicate IsListing(rows: seq<WorkOrder>, table: set<WorkOrder>) {
    && (forall i, j :: 0 <= i < j < |rows| ==> rows[i] != rows[j] && rows[i].createdAt >= rows[j].createdAt)
    && (forall o :: o in rows <==> o in table)
  }

  ghost predicate NoTies(table: set<WorkOrder>) {
    forall a, b | a in table && b in table && a.createdAt == b.createdAt :: a == b
  }

  lemma {:induction false} Newest(table: set<WorkOrder>) returns (newest: WorkOrder)
    requires table != {}
    ensures newest in table && forall o | o in table :: o.createdAt <= newest.createdAt
    decreases |table|
  {
    newest :| newest in table;
    var rest := table - {newest};
    assert forall o | o in table :: o == newest || o in rest;
    if rest != {} {
      var other := Newest(rest);
      if newest.createdAt < other.createdAt {
        newest := other;
      }
    }
  }

  lemma ListingCons(newest: WorkOrder, rows: seq<WorkOrder>, table: set<WorkOrder>)
    requires newest in table && (forall o | o in table :: o.createdAt <= newest.createdAt)
    requires IsListing(rows, table - {newest})
    ensures IsListing([newest] + rows, table)
  {
    forall k | 0 <= k < |rows| ensures rows[k] != newest && rows[k].createdAt <= newest.createdAt {
      assert rows[k] in rows;
    }
  }

  lemma {:induction false} SomeListing(table: set<WorkOrder>) returns (rows: seq<WorkOrder>)
    ensures IsListing(rows, table)
    decreases |table|
  {
    rows := [];
    if table != {} {
      var newest := Newest(table);
      rows := SomeListing(table - {newest});
      ListingCons(newest, rows, table);
      rows := [newest] + rows;
    }
  }

  lemma TailIsListing(rows: seq<WorkOrder>, table: set<WorkOrder>)
    requires IsListing(rows, table) && rows != []
    ensures IsListing(rows[1..], table - {rows[0]})
  {
    assert rows == [rows[0]] + rows[1..];
  }

  lemma HeadIsNewest(rows: seq<WorkOrder>, table: set<WorkOrder>)
    requires IsListing(rows, table)
    ensures rows == [] ==> table == {}
    ensures rows != [] ==> rows[0] in table && forall o | o in table :: o.createdAt <= rows[0].createdAt
  {
    if rows == [] {
      assert forall o :: o in table <==> o in rows;
    } else {
      assert rows[0] in rows;
      forall o | o in table ensures o.createdAt <= rows[0].createdAt {
        var k :| 0 <= k < |rows| && rows[k] == o;
        assert k > 0 ==> rows[0].createdAt >= rows[k].createdAt;
      }
    }
  }

  lemma HeadAndTail(p: seq<WorkOrder>, q: seq<WorkOrder>)
    requires p != [] && q != [] && p[0] == q[0] && p[1..] == q[1..]
    ensures p == q
  {
    assert p == [p[0]] + p[1..] && q == [q[0]] + q[1..];
  }

  lemma {:induction false} ListingIsUnique(p: seq<WorkOrder>, q: seq<WorkOrder>, table: set<WorkOrder>)
    requires IsListing(p, table) && IsListing(q, table) && NoTies(table)
    ensures p == q
    decreases |p|
  {
    HeadIsNewest(p, table);
    HeadIsNewest(q, table);
    if p != [] && q != [] {
      assert p[0].createdAt == q[0].createdAt;
      assert p[0] == q[0];
      TailIsListing(p, table);
      TailIsListing(q, table);
      ListingIsUnique(p[1..], q[1..], table - {p[0]});
      HeadAndTail(p, q);
    } else {
      assert table == {};
    }
  }

  // Two rows of one creation time may change places.
  lemma TieSwaps(p: seq<WorkOrder>, table: set<WorkOrder>, i: nat, j: nat)
    requires IsListing(p, table) && i < j < |p| && p[i].createdAt == p[j].createdAt
    ensures IsListing(p[i := p[j]][j := p[i]], table)
  {
    var q := p[i := p[j]][j := p[i]];
    forall o ensures o in q <==> o in p {
      if o in p {
        var k :| 0 <= k < |p| && p[k] == o;
        assert q[if k == i then j else if k == j then i else k] == o;
      }
    }
  }

  lemma TwoListings(table: set<WorkOrder>, a: WorkOrder, b: WorkOrder)
      returns (p: seq<WorkOrder>, q: seq<WorkOrder>)
    requires a in table && b in table && a != b && a.createdAt == b.createdAt
    ensures IsListing(p, table) && IsListing(q, table) && p != q
  {
    p := SomeListing(table);
    var i: nat :| i < |p| && p[i] == a;
    var j: nat :| j < |p| && p[j] == b;
    var low, high := if i < j then i else j, if i < j then j else i;
    TieSwaps(p, table, low, high);
    q := p[low := p[high]][high := p[low]];
    assert q[low] == p[high] != p[low];
  }

  // The query has only one possible answer if and only if no two rows were
  // created at the same instant.
  lemma ListingsAgree(table: set<WorkOrder>)
    ensures NoTies(table) <==> forall p, q | IsListing(p, table) && IsListing(q, table) :: p == q
  {
    if NoTies(table) {
      forall p, q | IsListing(p, table) && IsListing(q, table) ensures p == q {
        ListingIsUnique(p, q, table);
      }
    } else {
      var a, b :| a in table && b in table && a.createdAt == b.createdAt && a != b;
      var p, q := TwoListings(table, a, b);
    }
  }

  // So on a table without ties any requests, each answered from a listing of its
  // own, partition the matching rows.
  lemma PagesFitTogether(table: set<WorkOrder>, listings: seq<seq<WorkOrder>>, f: OrderFilter, limit: nat, page: nat)
    requires limit >= 1 && 1 <= page <= |listings| && NoTies(table)
    requires forall rows | rows in listings :: IsListing(rows, table)
    ensures var (data, total) := FindAll(listings[page - 1], f, page, limit);
      var pages := Chunks(Where(listings[0], f), limit);
      && IsPageCount(|pages|, total, limit)
      && data == if page <= |pages| then pages[page - 1] else []
  {
    assert listings[0] in listings && listings[page - 1] in listings;
    ListingIsUnique(listings[0], listings[page - 1], table);
    FindAllPages(listings[0], f, limit, page);
  }

  // ---------- What the list filters ----------

  // Each filter that was given agrees with the row.
  predicate Wanted(o: WorkOrder, f: OrderFilter) {
    && (f.status == None || f.status == Some(o.status))
    && (f.priority == None || f.priority == Some(o.priority))
    && (f.propertyId == None || f.propertyId == Some(o.propertyId))
  }

  lemma {:induction false} WhereMembers(rows: seq<WorkOrder>, f: OrderFilter)
    ensures forall o :: o in Where(rows, f) <==> o in rows && Wanted(o, f)
  {
    if rows != [] {
      WhereMembers(rows[1..], f);
      assert rows == [rows[0]] + rows[1..];
    }
  }

  // Filtering a listing of a table lists the wanted rows of the table.
  lemma {:induction false} WhereLists(rows: seq<WorkOrder>, table: set<WorkOrder>, f: OrderFilter)
    requires IsListing(rows, table)
    ensures IsListing(Where(rows, f), set o | o in table && Wanted(o, f))
    decreases |rows|
  {
    WhereMembers(rows, f);
    if rows != [] {
      TailIsListing(rows, table);
      WhereLists(rows[1..], table - {rows[0]}, f);
      WhereMembers(rows[1..], f);
      HeadIsNewest(rows, table);
      assert forall k | 0 <= k < |Where(rows[1..], f)| :: Where(rows[1..], f)[k] in rows[1..];
    }
  }

  lemma {:induction false} ListingSize(rows: seq<WorkOrder>, table: set<WorkOrder>)
    requires IsListing(rows, table)
    ensures |rows| == |table|
    decreases |rows|
  {
    HeadIsNewest(rows, table);
    if rows != [] {
      TailIsListing(rows, table);
      ListingSize(rows[1..], table - {rows[0]});
    }
  }

  // findAll, without its own terms: the total counts the wanted rows, and the page
  // is the slice that starts at (page - 1) * limit of a listing of exactly those.
  lemma FindAllExactly(rows: seq<WorkOrder>, table: set<WorkOrder>, f: OrderFilter, page: nat, limit: nat)
      returns (wanted: seq<WorkOrder>)
    requires limit >= 1 && page >= 1 && IsListing(rows, table)
    ensures IsListing(wanted, set o | o in table && Wanted(o, f))
    ensures var (data, total) := FindAll(rows, f, page, limit);
      var skip := (page - 1) * limit;
      && total == |wanted| == |set o | o in table && Wanted(o, f)|
      && |data| == (if skip >= total then 0 else if total - skip <= limit then total - skip else limit)
      && forall k | 0 <= k < |data| :: skip + k < |wanted| && data[k] == wanted[skip + k]
  {
    wanted := Where(rows, f);
    WhereLists(rows, table, f);
    ListingSize(wanted, set o | o in table && Wanted(o, f));
    OffsetPageExactly(wanted, page, limit);
  }
}
