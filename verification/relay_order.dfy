// When does the Kafka topic keep the events of one work order in order? The
// documentation promises it always does; with two relays it need not. This
// module gives the exact condition on a claim.
module RelayOrder {
  import opened Contracts
  import opened Events
  import opened RelayProtocol

  predicate Earlier(a: OutboxRow, b: OutboxRow) {
    a.Order() == b.Order() && a.id < b.id
  }

  // Every event of the log comes after all earlier events of its order.
  ghost predicate LogOrdered(s: State) {
    Causal(EventsOf(s.rows), s.log)
  }

  // The claim takes no row of an order that has an earlier row which is
  // neither claimed along with it nor on the topic already.
  ghost predicate SafeClaim(s: State, batch: seq<OutboxRow>) {
    forall a, row | a in s.rows && row in batch && Earlier(a, row) :: a in batch || a.event in s.log
  }

  // What open ticks still have to record is only waiting for their own rows.
  ghost predicate TicksOrdered(s: State) {
    forall r, k, a | r in s.ticks && s.ticks[r].recorded <= k < |s.ticks[r].batch| && a in s.rows &&
      Earlier(a, s.ticks[r].batch[k]) :: a.event in s.log || a in s.ticks[r].batch[..k]
  }

  ghost predicate Ordered(s: State) {
    Inv(s) && LogOrdered(s) && TicksOrdered(s)
  }

  ghost predicate ClaimsSafe(s: State, acts: seq<Action>)
    requires Legal(s, acts)
  {
    acts == [] ||
    (var front, a := acts[..|acts| - 1], acts[|acts| - 1];
     ClaimsSafe(s, front) && (a.Claim? ==> SafeClaim(After(s, front), a.batch)))
  }

  // ---------- Safe claims suffice ----------

  // Among the rows, an earlier row of an order also has the lower index.
  lemma EarlierRows(s: State, i: nat, j: nat)
    requires RowsOk(s.rows) && i < |s.rows| && j < |s.rows| && s.rows[i].Order() == s.rows[j].Order()
    ensures i < j <==> Earlier(s.rows[i], s.rows[j])
  {
  }

  lemma CausalAppend(history: seq<Event>, log: seq<Event>, e: Event)
    requires Causal(history, log)
    requires forall j | 0 <= j < |history| && history[j] == e :: Covered(history, j, log)
    ensures Causal(history, log + [e])
  {
    var all := log + [e];
    forall k, j | 0 <= k < |all| && 0 <= j < |history| && history[j] == all[k]
      ensures Covered(history, j, all[..k])
    {
      assert k < |log| ==> all[..k] == log[..k];
      assert k == |log| ==> all[..k] == log;
    }
  }

  lemma StageOrders(s: State, row: OutboxRow)
    requires Ordered(s) && Enabled(s, Stage(row))
    ensures Ordered(Next(s, Stage(row)))
  {
    var n := Next(s, Stage(row));
    StageKeeps(s, row);
    var history, longer := EventsOf(s.rows), EventsOf(n.rows);
    forall k, j | 0 <= k < |n.log| && 0 <= j < |longer| && longer[j] == n.log[k]
      ensures Covered(longer, j, n.log[..k])
    {
      assert n.log[k] in s.log;
      var from :| from in s.rows && from.event == n.log[k];
      assert RowBefore(from, row);
      assert j < |s.rows| && history[j] == s.log[k];
      assert Covered(history, j, s.log[..k]);
      forall i | 0 <= i < j && longer[i].data.workOrderId == longer[j].data.workOrderId
        ensures longer[i] in n.log[..k]
      {
        assert longer[i] == history[i];
      }
    }
    forall r, k, a | r in n.ticks && n.ticks[r].recorded <= k < |n.ticks[r].batch| && a in n.rows &&
      Earlier(a, n.ticks[r].batch[k])
      ensures a.event in n.log || a in n.ticks[r].batch[..k]
    {
      assert TickOk(s, s.ticks[r]);
      assert RowBefore(n.ticks[r].batch[k], row);
    }
  }

  lemma RecordOrders(s: State, r: RelayId, outcome: Outcome)
    requires Ordered(s) && Enabled(s, Record(r, outcome))
    ensures Ordered(Next(s, Record(r, outcome)))
  {
    var n, t := Next(s, Record(r, outcome)), s.ticks[r];
    RecordKeeps(s, r, outcome);
    assert TickOk(s, t);
    var x, history := t.batch[t.recorded], EventsOf(s.rows);
    forall j | 0 <= j < |history| && history[j] == x.event ensures Covered(history, j, s.log) {
      EventIdentifiesRow(s.rows, s.rows[j], x);
      forall i | 0 <= i < j && history[i].data.workOrderId == history[j].data.workOrderId
        ensures history[i] in s.log
      {
        EarlierRows(s, i, j);
        assert s.rows[i] in t.batch[..t.recorded] ==> s.rows[i].event in s.log;
      }
    }
    CausalAppend(history, s.log, x.event);
  }

  lemma EarlierInBatch(batch: seq<OutboxRow>, a: OutboxRow, k: nat)
    requires Ascending(batch) && a in batch && k < |batch| && a.id < batch[k].id
    ensures a in batch[..k]
  {
    var m :| 0 <= m < |batch| && batch[m] == a;
    assert batch[..k][m] == a;
  }

  lemma ClaimOrders(s: State, r: RelayId, batch: seq<OutboxRow>)
    requires Ordered(s) && Enabled(s, Claim(r, batch)) && SafeClaim(s, batch)
    ensures Ordered(Next(s, Claim(r, batch)))
  {
    var n := Next(s, Claim(r, batch));
    ClaimKeeps(s, r, batch);
    assert n.rows == s.rows && n.log == s.log;
    forall q, k, a | q in n.ticks && n.ticks[q].recorded <= k < |n.ticks[q].batch| && a in n.rows &&
      Earlier(a, n.ticks[q].batch[k])
      ensures a.event in n.log || a in n.ticks[q].batch[..k]
    {
      if q == r {
        if a in batch {
          EarlierInBatch(batch, a, k);
        }
      } else {
        assert n.ticks[q] == s.ticks[q];
      }
    }
  }

  lemma QuietOrders(s: State, n: State)
    requires Ordered(s) && Inv(n) && n.rows == s.rows && n.log == s.log
    requires forall r | r in n.ticks ::
      r in s.ticks && n.ticks[r].batch == s.ticks[r].batch && n.ticks[r].recorded == s.ticks[r].recorded
    ensures Ordered(n)
  {
  }

  lemma OtherOrders(s: State, a: Action)
    requires Ordered(s) && Enabled(s, a) && (a.Publish? || a.Stamp? || a.Commit? || a.Abort?)
    ensures Ordered(Next(s, a))
  {
    StepKeeps(s, a);
    var n := Next(s, a);
    assert n.rows == s.rows && n.log == s.log;
    QuietOrders(s, n);
  }

  lemma StepOrders(s: State, a: Action)
    requires Ordered(s) && Enabled(s, a)
    requires a.Claim? ==> SafeClaim(s, a.batch)
    ensures Ordered(Next(s, a))
  {
    if a.Stage? {
      StageOrders(s, a.row);
    } else if a.Claim? {
      ClaimOrders(s, a.relay, a.batch);
    } else if a.Record? {
      RecordOrders(s, a.relay, a.outcome);
    } else {
      OtherOrders(s, a);
    }
  }

  lemma {:induction false} SafeClaimsOrder(s: State, acts: seq<Action>)
    requires Ordered(s) && Legal(s, acts) && ClaimsSafe(s, acts)
    ensures Ordered(After(s, acts))
  {
    if acts != [] {
      SafeClaimsOrder(s, acts[..|acts| - 1]);
      StepOrders(After(s, acts[..|acts| - 1]), acts[|acts| - 1]);
    }
  }

  // ---------- Unsafe claims break it ----------

  predicate NoClaims(acts: seq<Action>) {
    forall a | a in acts :: !a.Claim?
  }

  lemma {:induction false} NoClaimsAreSafe(s: State, acts: seq<Action>)
    requires Legal(s, acts) && NoClaims(acts)
    ensures ClaimsSafe(s, acts)
  {
    if acts != [] {
      assert acts[|acts| - 1] in acts;
      NoClaimsAreSafe(s, acts[..|acts| - 1]);
    }
  }

  // Relay r handles the first n rows of its claim without a failure.
  lemma {:induction false} Drive(s: State, r: RelayId, batch: seq<OutboxRow>, n: nat)
      returns (acts: seq<Action>, end: State)
    requires r in s.ticks && s.ticks[r] == Tick(batch, 0, 0, 0) && n <= |batch|
    ensures Leads(s, acts, end) && NoClaims(acts)
    ensures end.rows == s.rows && end.log == s.log + EventsOf(batch[..n])
    ensures r in end.ticks && end.ticks[r] == Tick(batch, n, n, n)
  {
    if n == 0 {
      acts, end := [], s;
    } else {
      acts, end := Drive(s, r, batch, n - 1);
      acts, end := Then(s, acts, end, Publish(r, Ok));
      acts, end := Then(s, acts, end, Record(r, Ok));
      acts, end := Then(s, acts, end, Stamp(r));
      EventsOfTake(batch, n - 1);
    }
  }

  // An earlier row's event is not among the events of other rows.
  lemma NotAmong(s: State, a: OutboxRow, rows: seq<OutboxRow>)
    requires RowsOk(s.rows) && a in s.rows && a !in rows && forall row | row in rows :: row in s.rows
    ensures a.event !in EventsOf(rows)
  {
    forall m | 0 <= m < |rows| ensures rows[m].event != a.event {
      assert rows[m] in rows;
      if rows[m].event.eventId == a.event.eventId {
        EventIdentifiesRow(s.rows, rows[m], a);
      }
    }
  }

  lemma ClaimedFromOutbox(s: State, batch: seq<OutboxRow>)
    requires IsLowest(s, batch)
    ensures forall b | b in batch :: b in s.rows
  {
  }

  lemma OutOfOrder(s: State, before: seq<Event>, a: OutboxRow, row: OutboxRow)
    requires RowsOk(s.rows) && a in s.rows && row in s.rows && Earlier(a, row)
    requires before + [row.event] <= s.log && a.event !in before
    ensures !LogOrdered(s)
  {
    var history, k := EventsOf(s.rows), |before|;
    var i :| 0 <= i < |s.rows| && s.rows[i] == a;
    var j :| 0 <= j < |s.rows| && s.rows[j] == row;
    EarlierRows(s, i, j);
    assert history[j] == row.event == s.log[k] && history[i] == a.event && s.log[..k] == before;
    assert !Covered(history, j, s.log[..k]);
  }

  // Relay r drives its claim up to and including row k.
  lemma DriveTo(s: State, n: State, r: RelayId, batch: seq<OutboxRow>, k: nat, a: OutboxRow)
      returns (acts: seq<Action>, end: State)
    requires r in n.ticks && n.ticks[r] == Tick(batch, 0, 0, 0) && n.rows == s.rows && n.log == s.log
    requires RowsOk(s.rows) && k < |batch| && (forall b | b in batch :: b in s.rows)
    requires a in s.rows && Earlier(a, batch[k]) && a !in batch && a.event !in s.log
    ensures Leads(n, acts, end) && NoClaims(acts) && !LogOrdered(end)
  {
    acts, end := Drive(n, r, batch, k + 1);
    var before := batch[..k];
    EventsOfTake(batch, k);
    NotAmong(s, a, before);
    OutOfOrder(end, s.log + EventsOf(before), a, batch[k]);
  }

  lemma UnsafeClaimDisorders(s: State, r: RelayId, batch: seq<OutboxRow>) returns (acts: seq<Action>)
    requires RowsOk(s.rows) && Enabled(s, Claim(r, batch)) && !SafeClaim(s, batch)
    ensures var n := Next(s, Claim(r, batch));
      Legal(n, acts) && ClaimsSafe(n, acts) && !LogOrdered(After(n, acts))
  {
    var a, row :| a in s.rows && row in batch && Earlier(a, row) && a !in batch && a.event !in s.log;
    var k :| 0 <= k < |batch| && batch[k] == row;
    var n := Next(s, Claim(r, batch));
    var end;
    ClaimedFromOutbox(s, batch);
    acts, end := DriveTo(s, n, r, batch, k, a);
    NoClaimsAreSafe(n, acts);
  }

  // The exact condition: a claim keeps every continuation ordered, whatever
  // fails in it, if and only if it is safe at the moment it is made.
  lemma ClaimOrderExact(s: State, r: RelayId, batch: seq<OutboxRow>)
    requires Ordered(s) && Enabled(s, Claim(r, batch))
    ensures var n := Next(s, Claim(r, batch));
      SafeClaim(s, batch) <==>
        forall acts | Legal(n, acts) && ClaimsSafe(n, acts) :: LogOrdered(After(n, acts))
  {
    var n := Next(s, Claim(r, batch));
    if SafeClaim(s, batch) {
      ClaimOrders(s, r, batch);
      forall acts | Legal(n, acts) && ClaimsSafe(n, acts) ensures LogOrdered(After(n, acts)) {
        SafeClaimsOrder(n, acts);
      }
    } else {
      var acts := UnsafeClaimDisorders(s, r, batch);
    }
  }

  // ---------- One tick at a time ----------

  // No tick starts while another one is open. One relay instance guarantees
  // it: its `draining` flag keeps its own ticks apart.
  ghost predicate OneTickAtATime(s: State, acts: seq<Action>)
    requires Legal(s, acts)
  {
    acts == [] ||
    (var front, a := acts[..|acts| - 1], acts[|acts| - 1];
     OneTickAtATime(s, front) && (a.Claim? ==> After(s, front).ticks == map[]))
  }

  predicate OneRelay(acts: seq<Action>, r: RelayId) {
    forall a | a in acts :: a.Stage? || a.relay == r
  }

  lemma {:induction false} OneRelayNeverOverlaps(acts: seq<Action>, r: RelayId)
    requires Legal(INIT, acts) && OneRelay(acts, r)
    ensures OneTickAtATime(INIT, acts) && After(INIT, acts).ticks.Keys <= {r}
  {
    if acts != [] {
      var front, a := acts[..|acts| - 1], acts[|acts| - 1];
      OneRelayNeverOverlaps(front, r);
      assert a in acts;
    }
  }

  // Claiming the lowest ids while nothing is locked is safe.
  lemma LoneClaimIsSafe(s: State, batch: seq<OutboxRow>)
    requires Inv(s) && s.ticks == map[] && IsLowest(s, batch)
    ensures SafeClaim(s, batch)
  {
  }

  lemma {:induction false} OneTickIsOrdered(acts: seq<Action>)
    requires Legal(INIT, acts) && OneTickAtATime(INIT, acts)
    ensures Ordered(After(INIT, acts)) && ClaimsSafe(INIT, acts)
  {
    if acts != [] {
      var front, a := acts[..|acts| - 1], acts[|acts| - 1];
      OneTickIsOrdered(front);
      if a.Claim? {
        LoneClaimIsSafe(After(INIT, front), a.batch);
      }
      StepOrders(After(INIT, front), a);
    }
  }

  // What a consumer that drops repeats sees of one work order is always a
  // prefix of that order's outbox rows.
  lemma TopicPrefix(s: State, order: Uuid)
    requires Ordered(s)
    ensures OfOrder(Firsts(s.log), order) <= OfOrder(EventsOf(s.rows), order)
  {
    var history := EventsOf(s.rows);
    RowEventsDistinct(s.rows);
    forall e | e in s.log ensures e in history {
      var row :| row in s.rows && row.event == e;
      var i :| 0 <= i < |s.rows| && s.rows[i] == row;
      assert history[i] == e;
    }
    CausalPrefix(history, s.log, order);
  }

  // ---------- Two relays ----------

  lemma OnlyRowIsClaim(s: State, row: OutboxRow)
    requires Claimable(s, row) && forall other | other in s.rows && other != row :: Locked(s, other)
    ensures IsLowest(s, [row])
  {
  }

  lemma SecondClaim(first: OutboxRow, second: OutboxRow) returns (acts: seq<Action>, s: State)
    requires Earlier(first, second) && first.event.eventId != second.event.eventId
    ensures Leads(INIT, acts, s) && forall a | a in acts :: !a.Publish? && !a.Record?
    ensures s.rows == [first, second] && s.log == []
    ensures 1 in s.ticks && s.ticks[1] == Tick([second], 0, 0, 0)
  {
    acts, s := Then(INIT, [], INIT, Stage(first));
    OnlyRowIsClaim(s, first);
    acts, s := Then(INIT, acts, s, Claim(0, [first]));
    acts, s := Then(INIT, acts, s, Stage(second));
    assert Locked(s, first) by { assert first in s.ticks[0].batch; }
    assert !Locked(s, second);
    OnlyRowIsClaim(s, second);
    acts, s := Then(INIT, acts, s, Claim(1, [second]));
  }

  // Relay 0 holds the first row of an order locked while relay 1 publishes its
  // second: with two instances, and without a single failure, the topic can
  // list the second event and not the first.
  lemma TwoRelaysReorder(first: OutboxRow, second: OutboxRow) returns (acts: seq<Action>)
    requires Earlier(first, second) && first.event.eventId != second.event.eventId
    ensures Legal(INIT, acts) && !LogOrdered(After(INIT, acts))
    ensures forall a | a in acts && (a.Publish? || a.Record?) :: a.outcome.Ok?
  {
    var s: State;
    acts, s := SecondClaim(first, second);
    acts, s := Then(INIT, acts, s, Publish(1, Ok));
    acts, s := Then(INIT, acts, s, Record(1, Ok));
    OutOfOrder(s, [], first, second);
  }
}
