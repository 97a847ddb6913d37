// How often a row is handed to each broker, for any number of interleaved
// relays: once if its stamp is committed, plus once per aborted tick that got
// to it, plus once if a tick has it in flight.
module RelayAccounting {
  import opened Contracts
  import opened Events
  import opened RelayProtocol

  datatype Broker = RabbitMq | Kafka

  function Calls(s: State, b: Broker): multiset<OutboxRow> {
    if b.RabbitMq? then s.publishCalls else s.recordCalls
  }

  function Progress(t: Tick, b: Broker): nat {
    if b.RabbitMq? then t.published else t.recorded
  }

  // The tick made the call for this row.
  predicate Reached(t: Tick, b: Broker, row: OutboxRow) {
    exists k | 0 <= k < |t.batch| :: k < Progress(t, b) && t.batch[k] == row
  }

  // The tick stands between its two broker calls for this row.
  predicate Between(t: Tick, row: OutboxRow) {
    t.recorded < t.published && t.recorded < |t.batch| && t.batch[t.recorded] == row
  }

  function One(p: bool): nat {
    if p then 1 else 0
  }

  function StoppedAfterCall(stopped: seq<Tick>, b: Broker, row: OutboxRow): nat {
    if stopped == [] then 0
    else StoppedAfterCall(stopped[..|stopped| - 1], b, row) + One(Reached(stopped[|stopped| - 1], b, row))
  }

  function StoppedBetween(stopped: seq<Tick>, row: OutboxRow): nat {
    if stopped == [] then 0
    else StoppedBetween(stopped[..|stopped| - 1], row) + One(Between(stopped[|stopped| - 1], row))
  }

  ghost predicate InFlight(ticks: map<RelayId, Tick>, b: Broker, row: OutboxRow) {
    exists r | r in ticks :: Reached(ticks[r], b, row)
  }

  ghost predicate Balanced(s: State, b: Broker, row: OutboxRow) {
    Calls(s, b)[row] ==
      One(row in s.done) + StoppedAfterCall(s.aborted, b, row) + One(InFlight(s.ticks, b, row))
  }

  ghost predicate Accounted(s: State) {
    && (forall b, row :: Balanced(s, b, row))
    && (forall t | t in s.aborted :: StoppedOk(t))
  }

  predicate StoppedOk(t: Tick) {
    t.recorded <= t.published <= t.recorded + 1 && t.published <= |t.batch| &&
    forall i, j :: 0 <= i < j < |t.batch| ==> t.batch[i] != t.batch[j]
  }

  lemma StopAppend(stopped: seq<Tick>, t: Tick, b: Broker, row: OutboxRow)
    ensures StoppedAfterCall(stopped + [t], b, row) == StoppedAfterCall(stopped, b, row) + One(Reached(t, b, row))
  {
  }

  lemma NobodyElse(s: State, r: RelayId, b: Broker, row: OutboxRow)
    requires Inv(s) && r in s.ticks && row in s.ticks[r].batch
    ensures !InFlight(s.ticks - {r}, b, row)
  {
  }

  // A row is in flight in at most one tick.
  lemma InFlightSplit(s: State, r: RelayId, b: Broker, row: OutboxRow)
    requires Inv(s) && r in s.ticks
    ensures One(InFlight(s.ticks, b, row)) ==
      One(Reached(s.ticks[r], b, row)) + One(InFlight(s.ticks - {r}, b, row))
    ensures Reached(s.ticks[r], b, row) ==> row !in s.done
  {
    var rest := s.ticks - {r};
    if InFlight(s.ticks, b, row) && !Reached(s.ticks[r], b, row) {
      var q :| q in s.ticks && Reached(s.ticks[q], b, row);
      assert q in rest && Reached(rest[q], b, row);
    }
    if Reached(s.ticks[r], b, row) {
      assert row in s.ticks[r].batch;
      assert TickOk(s, s.ticks[r]);
      NobodyElse(s, r, b, row);
    }
    if InFlight(rest, b, row) {
      var q :| q in rest && Reached(rest[q], b, row);
      assert Reached(s.ticks[q], b, row);
    }
  }

  lemma InFlightReplace(s: State, r: RelayId, t: Tick, b: Broker, row: OutboxRow)
    requires Inv(s) && r in s.ticks && t.batch == s.ticks[r].batch
    ensures One(InFlight(s.ticks[r := t], b, row)) ==
      One(Reached(t, b, row)) + One(InFlight(s.ticks - {r}, b, row))
  {
    var ticks, rest := s.ticks[r := t], s.ticks - {r};
    if InFlight(rest, b, row) {
      var q :| q in rest && Reached(rest[q], b, row);
      assert q in ticks && Reached(ticks[q], b, row);
      assert row in s.ticks[q].batch;
    }
    if Reached(t, b, row) {
      assert r in ticks && Reached(ticks[r], b, row);
    }
    if InFlight(ticks, b, row) && !Reached(t, b, row) {
      var q :| q in ticks && Reached(ticks[q], b, row);
      assert q in rest && Reached(rest[q], b, row);
    }
  }

  // A tick that makes one more call reaches one more row.
  lemma ReachesOneMore(was: Tick, t: Tick, b: Broker, row: OutboxRow)
    requires Ascending(was.batch) && t.batch == was.batch
    requires Progress(was, b) < |was.batch| && Progress(t, b) == Progress(was, b) + 1
    ensures One(Reached(t, b, row)) == One(Reached(was, b, row)) + One(was.batch[Progress(was, b)] == row)
  {
    var k := Progress(was, b);
    assert Reached(t, b, was.batch[k]);
    assert Reached(was, b, row) ==> row != was.batch[k];
    assert Reached(was, b, row) ==> Reached(t, b, row);
  }

  // What one more call by relay r, which leaves its tick as t, has to do with a row.
  lemma CallReaches(s: State, r: RelayId, t: Tick, made: Broker, b: Broker, row: OutboxRow)
    requires Inv(s) && r in s.ticks && t.batch == s.ticks[r].batch
    requires Progress(s.ticks[r], made) < |t.batch| && Progress(t, made) == Progress(s.ticks[r], made) + 1
    requires b != made ==> Progress(t, b) == Progress(s.ticks[r], b)
    ensures var was := s.ticks[r];
      One(Reached(t, b, row)) ==
        One(Reached(was, b, row)) + One(b == made && was.batch[Progress(was, made)] == row)
    ensures One(InFlight(s.ticks, b, row)) ==
      One(Reached(s.ticks[r], b, row)) + One(InFlight(s.ticks - {r}, b, row))
  {
    assert TickOk(s, s.ticks[r]);
    InFlightSplit(s, r, b, row);
    if b == made {
      ReachesOneMore(s.ticks[r], t, b, row);
    } else {
      assert Reached(t, b, row) <==> Reached(s.ticks[r], b, row);
    }
  }

  // A call keeps the balance of every row, whether its tick goes on or stops.
  lemma CallBalances(s: State, n: State, r: RelayId, t: Tick, ok: bool, made: Broker, b: Broker, row: OutboxRow)
    requires Inv(s) && Balanced(s, b, row) && r in s.ticks && t.batch == s.ticks[r].batch
    requires Progress(s.ticks[r], made) < |t.batch| && Progress(t, made) == Progress(s.ticks[r], made) + 1
    requires b != made ==> Progress(t, b) == Progress(s.ticks[r], b)
    requires n.done == s.done
    requires Calls(n, b) ==
      if b == made then Calls(s, b) + multiset{t.batch[Progress(s.ticks[r], made)]} else Calls(s, b)
    requires if ok then n.ticks == s.ticks[r := t] && n.aborted == s.aborted
             else n.ticks == s.ticks - {r} && n.aborted == s.aborted + [t]
    ensures Balanced(n, b, row)
  {
    CallReaches(s, r, t, made, b, row);
    if ok {
      InFlightReplace(s, r, t, b, row);
    } else {
      StopAppend(s.aborted, t, b, row);
    }
  }

  lemma ClaimBalances(s: State, r: RelayId, batch: seq<OutboxRow>, b: Broker, row: OutboxRow)
    requires Inv(s) && Enabled(s, Claim(r, batch)) && Balanced(s, b, row)
    ensures Balanced(Next(s, Claim(r, batch)), b, row)
  {
    var n := Next(s, Claim(r, batch));
    assert !Reached(n.ticks[r], b, row);
    if InFlight(s.ticks, b, row) {
      var q :| q in s.ticks && Reached(s.ticks[q], b, row);
      assert q in n.ticks && Reached(n.ticks[q], b, row);
    }
    if InFlight(n.ticks, b, row) {
      var q :| q in n.ticks && Reached(n.ticks[q], b, row);
      assert q in s.ticks && Reached(s.ticks[q], b, row);
    }
  }

  lemma CommitBalances(s: State, r: RelayId, b: Broker, row: OutboxRow)
    requires Inv(s) && Enabled(s, Commit(r)) && Balanced(s, b, row)
    ensures Balanced(Next(s, Commit(r)), b, row)
  {
    var t := s.ticks[r];
    assert TickOk(s, t);
    InFlightSplit(s, r, b, row);
    if row in t.batch {
      var k :| 0 <= k < |t.batch| && t.batch[k] == row;
      assert k < Progress(t, b);
    }
  }

  lemma StampBalances(s: State, r: RelayId, b: Broker, row: OutboxRow)
    requires Inv(s) && Enabled(s, Stamp(r)) && Balanced(s, b, row)
    ensures Balanced(Next(s, Stamp(r)), b, row)
  {
    var t := s.ticks[r].(stamped := s.ticks[r].stamped + 1);
    SameReach(s, r, t, b, row);
  }

  lemma SameReach(s: State, r: RelayId, t: Tick, b: Broker, row: OutboxRow)
    requires Inv(s) && r in s.ticks && t.batch == s.ticks[r].batch && Progress(t, b) == Progress(s.ticks[r], b)
    ensures InFlight(s.ticks[r := t], b, row) <==> InFlight(s.ticks, b, row)
  {
    InFlightSplit(s, r, b, row);
    InFlightReplace(s, r, t, b, row);
    assert Reached(t, b, row) <==> Reached(s.ticks[r], b, row);
  }

  // What the two broker calls do to calls, ticks and stopped ticks.
  lemma CallEffect(s: State, a: Action, n: State, made: Broker, t: Tick)
    requires Inv(s) && Enabled(s, a) && n == Next(s, a)
    requires (a.Publish? && made == RabbitMq && t == s.ticks[a.relay].(published := s.ticks[a.relay].published + 1)) ||
      (a.Record? && made == Kafka && t == s.ticks[a.relay].(recorded := s.ticks[a.relay].recorded + 1))
    ensures var was := s.ticks[a.relay];
      && n.done == s.done && Progress(was, made) < |was.batch|
      && (forall c :: Calls(n, c) ==
            if c == made then Calls(s, c) + multiset{was.batch[Progress(was, made)]} else Calls(s, c))
      && (if a.outcome.Ok? then n.ticks == s.ticks[a.relay := t] && n.aborted == s.aborted
          else n.ticks == s.ticks - {a.relay} && n.aborted == s.aborted + [t])
  {
    assert TickOk(s, s.ticks[a.relay]);
  }

  lemma PublishBalances(s: State, r: RelayId, outcome: Outcome, b: Broker, row: OutboxRow)
    requires Inv(s) && Enabled(s, Publish(r, outcome)) && Balanced(s, b, row)
    ensures Balanced(Next(s, Publish(r, outcome)), b, row)
  {
    var t := s.ticks[r].(published := s.ticks[r].published + 1);
    var n := Next(s, Publish(r, outcome));
    CallEffect(s, Publish(r, outcome), n, RabbitMq, t);
    CallBalances(s, n, r, t, outcome.Ok?, RabbitMq, b, row);
  }

  lemma RecordBalances(s: State, r: RelayId, outcome: Outcome, b: Broker, row: OutboxRow)
    requires Inv(s) && Enabled(s, Record(r, outcome)) && Balanced(s, b, row)
    ensures Balanced(Next(s, Record(r, outcome)), b, row)
  {
    var t := s.ticks[r].(recorded := s.ticks[r].recorded + 1);
    var n := Next(s, Record(r, outcome));
    CallEffect(s, Record(r, outcome), n, Kafka, t);
    CallBalances(s, n, r, t, outcome.Ok?, Kafka, b, row);
  }

  lemma AbortBalances(s: State, r: RelayId, b: Broker, row: OutboxRow)
    requires Inv(s) && Enabled(s, Abort(r)) && Balanced(s, b, row)
    ensures Balanced(Next(s, Abort(r)), b, row)
  {
    InFlightSplit(s, r, b, row);
    StopAppend(s.aborted, s.ticks[r], b, row);
  }

  lemma StepBalances(s: State, a: Action, b: Broker, row: OutboxRow)
    requires Inv(s) && Enabled(s, a) && Balanced(s, b, row)
    ensures Balanced(Next(s, a), b, row)
  {
    match a
    case Stage(_) =>
    case Claim(r, batch) => ClaimBalances(s, r, batch, b, row);
    case Publish(r, outcome) => PublishBalances(s, r, outcome, b, row);
    case Record(r, outcome) => RecordBalances(s, r, outcome, b, row);
    case Stamp(r) => StampBalances(s, r, b, row);
    case Commit(r) => CommitBalances(s, r, b, row);
    case Abort(r) => AbortBalances(s, r, b, row);
  }

  lemma StepAccounts(s: State, a: Action)
    requires Inv(s) && Enabled(s, a) && Accounted(s)
    ensures Accounted(Next(s, a))
  {
    forall b, row ensures Balanced(Next(s, a), b, row) {
      StepBalances(s, a, b, row);
    }
    if !a.Stage? && !a.Claim? {
      assert TickOk(s, s.ticks[a.relay]);
    }
  }

  // In every run, both brokers' calls for every row balance.
  lemma {:induction false} PublicationAccounting(acts: seq<Action>)
    requires Legal(INIT, acts)
    ensures Inv(After(INIT, acts)) && Accounted(After(INIT, acts))
  {
    InvInit();
    if acts == [] {
      assert forall b, row :: Balanced(INIT, b, row);
    } else {
      var front := acts[..|acts| - 1];
      PublicationAccounting(front);
      StepKeeps(After(INIT, front), acts[|acts| - 1]);
      StepAccounts(After(INIT, front), acts[|acts| - 1]);
    }
  }

  lemma {:induction false} CountBetween(stopped: seq<Tick>, row: OutboxRow)
    requires forall t | t in stopped :: StoppedOk(t)
    ensures StoppedAfterCall(stopped, RabbitMq, row) ==
      StoppedAfterCall(stopped, Kafka, row) + StoppedBetween(stopped, row)
  {
    if stopped != [] {
      CountBetween(stopped[..|stopped| - 1], row);
      ReachedBetween(stopped[|stopped| - 1], row);
    }
  }

  lemma ReachedBetween(t: Tick, row: OutboxRow)
    requires StoppedOk(t)
    ensures One(Reached(t, RabbitMq, row)) == One(Reached(t, Kafka, row)) + One(Between(t, row))
  {
  }

  // The calls RabbitMQ saw and Kafka did not are exactly the ticks stopped, or
  // standing, between the two calls for the row.
  lemma MissingRecords(acts: seq<Action>, row: OutboxRow)
    requires Legal(INIT, acts)
    ensures var s := After(INIT, acts);
      s.publishCalls[row] == s.recordCalls[row] +
        StoppedBetween(s.aborted, row) + One(exists r | r in s.ticks :: Between(s.ticks[r], row))
  {
    PublicationAccounting(acts);
    var s := After(INIT, acts);
    assert Balanced(s, RabbitMq, row) && Balanced(s, Kafka, row);
    CountBetween(s.aborted, row);
    if r :| r in s.ticks && row in s.ticks[r].batch {
      assert TickOk(s, s.ticks[r]);
      ReachedBetween(s.ticks[r], row);
      InFlightSplit(s, r, RabbitMq, row);
      InFlightSplit(s, r, Kafka, row);
      NobodyElse(s, r, RabbitMq, row);
      NobodyElse(s, r, Kafka, row);
      assert forall q | q in s.ticks && Between(s.ticks[q], row) :: row in s.ticks[q].batch;
    } else {
      assert forall q, b | q in s.ticks && Reached(s.ticks[q], b, row) :: row in s.ticks[q].batch;
      assert forall q | q in s.ticks && Between(s.ticks[q], row) :: row in s.ticks[q].batch;
    }
  }

  // With no aborted tick, no row is handed to either broker twice, and a row
  // with a committed stamp exactly once to each.
  lemma FailureFreeIsExactlyOnce(acts: seq<Action>, row: OutboxRow, b: Broker)
    requires Legal(INIT, acts) && After(INIT, acts).aborted == []
    ensures Calls(After(INIT, acts), b)[row] <= 1
    ensures row in After(INIT, acts).done ==> Calls(After(INIT, acts), b)[row] == 1
  {
    PublicationAccounting(acts);
    var s := After(INIT, acts);
    assert Balanced(s, b, row);
    if InFlight(s.ticks, b, row) {
      var r :| r in s.ticks && Reached(s.ticks[r], b, row);
      InFlightSplit(s, r, b, row);
    }
  }

  // RabbitMQ holds no more copies of a row's event than calls were made for it.
  ghost predicate Counted(s: State) {
    forall row | row in s.rows :: multiset(s.rabbit)[row.event] <= s.publishCalls[row]
  }

  lemma CountOneMoreCopy(es: seq<Event>, e: Event, x: Event)
    ensures multiset(es + [e])[x] == multiset(es)[x] + One(e == x)
  {
    assert multiset(es + [e]) == multiset(es) + multiset{e};
  }

  lemma PublishCounted(s: State, r: RelayId, outcome: Outcome, row: OutboxRow)
    requires Inv(s) && Enabled(s, Publish(r, outcome)) && row in s.rows
    requires multiset(s.rabbit)[row.event] <= s.publishCalls[row]
    ensures var n := Next(s, Publish(r, outcome));
      multiset(n.rabbit)[row.event] <= n.publishCalls[row]
  {
    var x := s.ticks[r].batch[s.ticks[r].published];
    assert TickOk(s, s.ticks[r]) && x in s.ticks[r].batch;
    CountOneMoreCopy(s.rabbit, x.event, row.event);
    if row != x && row.event == x.event {
      EventIdentifiesRow(s.rows, row, x);
    }
  }

  lemma NewRowUncounted(s: State, row: OutboxRow)
    requires Inv(s) && Enabled(s, Stage(row))
    ensures row.event !in s.rabbit
  {
  }

  lemma StepCounted(s: State, a: Action)
    requires Inv(s) && Enabled(s, a) && Counted(s)
    ensures Counted(Next(s, a))
  {
    var n := Next(s, a);
    if a.Publish? {
      forall row | row in n.rows ensures multiset(n.rabbit)[row.event] <= n.publishCalls[row] {
        PublishCounted(s, a.relay, a.outcome, row);
      }
    } else {
      assert n.rabbit == s.rabbit && n.publishCalls == s.publishCalls;
      if a.Stage? {
        NewRowUncounted(s, a.row);
      }
    }
  }

  lemma {:induction false} CopiesAreCalls(acts: seq<Action>)
    requires Legal(INIT, acts)
    ensures Counted(After(INIT, acts))
  {
    if acts != [] {
      var front := acts[..|acts| - 1];
      CopiesAreCalls(front);
      PublicationAccounting(front);
      StepCounted(After(INIT, front), acts[|acts| - 1]);
    }
  }

  // If no tick stopped, RabbitMQ holds each event at most once.
  lemma PublishedOnce(acts: seq<Action>, row: OutboxRow)
    requires Legal(INIT, acts) && After(INIT, acts).aborted == [] && row in After(INIT, acts).rows
    ensures multiset(After(INIT, acts).rabbit)[row.event] <= 1
  {
    CopiesAreCalls(acts);
    FailureFreeIsExactlyOnce(acts, row, RabbitMq);
  }

  // The outbox holds one unstamped row that nobody has claimed.
  ghost predicate OneFree(s: State, row: OutboxRow) {
    s.rows == [row] && s.done == {} && s.ticks == map[]
  }

  lemma ClaimOnly(acts: seq<Action>, s: State, row: OutboxRow) returns (more: seq<Action>, end: State)
    requires Leads(INIT, acts, s) && OneFree(s, row)
    ensures Leads(INIT, more, end) && more == acts + [Claim(0, [row])]
    ensures end == s.(ticks := map[0 := Tick([row], 0, 0, 0)])
  {
    assert IsLowest(s, [row]);
    more, end := Then(INIT, acts, s, Claim(0, [row]));
  }

  lemma OneMoreTry(acts: seq<Action>, s: State, row: OutboxRow) returns (more: seq<Action>, end: State)
    requires Leads(INIT, acts, s) && OneFree(s, row)
    ensures Leads(INIT, more, end) && more == acts + [Claim(0, [row]), Publish(0, Ok), Abort(0)]
    ensures OneFree(end, row) && |end.aborted| == |s.aborted| + 1
    ensures end.publishCalls == s.publishCalls + multiset{row} && end.recordCalls == s.recordCalls
  {
    more, end := ClaimOnly(acts, s, row);
    more, end := Then(INIT, more, end, Publish(0, Ok));
    more, end := Then(INIT, more, end, Abort(0));
  }

  // "Not the same row twice" holds for live claims only: a single relay whose
  // ticks stop between its two calls publishes a row any number of times.
  lemma {:induction false} PublishedAgain(row: OutboxRow, n: nat) returns (acts: seq<Action>, s: State)
    ensures Leads(INIT, acts, s) && s.publishCalls[row] == n && s.recordCalls[row] == 0
    ensures forall a | a in acts :: a.Stage? || a.relay == 0
    ensures OneFree(s, row) && |s.aborted| == n
  {
    if n == 0 {
      acts, s := Then(INIT, [], INIT, Stage(row));
    } else {
      acts, s := PublishedAgain(row, n - 1);
      acts, s := OneMoreTry(acts, s, row);
    }
  }
}
