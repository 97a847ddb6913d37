// The outbox relay as a protocol: any number of relay instances, each in the
// middle of its own drain, over one outbox table and two brokers. Every call
// may fail before or after it took effect, and a tick may stop anywhere.
//
// Assumptions: a claim (FOR UPDATE SKIP LOCKED) is atomic; a resolved publish
// or record means that the broker holds the message; locks and stamps of a
// tick vanish when its transaction rolls back.
module RelayProtocol {
  import opened Contracts
  import opened Events

  const BATCH_SIZE: nat := 20

  type RelayId = int

  // One drain in progress: its claimed rows, and how many of them were
  // published, recorded and (tentatively) stamped so far.
  datatype Tick = Tick(batch: seq<OutboxRow>, published: nat, recorded: nat, stamped: nat)

  datatype State = State(
    rows: seq<OutboxRow>,           // the outbox, in commit order
    done: set<OutboxRow>,           // rows with a committed published_at
    ticks: map<RelayId, Tick>,      // open transactions
    rabbit: seq<Event>,             // everything RabbitMQ ever accepted
    log: seq<Event>,                // the Kafka topic
    aborted: seq<Tick>,             // ticks that stopped, as they were
    publishCalls: multiset<OutboxRow>,
    recordCalls: multiset<OutboxRow>)

  const INIT := State([], {}, map[], [], [], [], multiset{}, multiset{})

  datatype Action =
    | Stage(row: OutboxRow)
    | Claim(relay: RelayId, batch: seq<OutboxRow>)
    | Publish(relay: RelayId, outcome: Outcome)
    | Record(relay: RelayId, outcome: Outcome)
    | Stamp(relay: RelayId)
    | Commit(relay: RelayId)
    | Abort(relay: RelayId)

  // ---------- Claims ----------

  predicate Locked(s: State, row: OutboxRow) {
    exists r | r in s.ticks :: row in s.ticks[r].batch
  }

  predicate Claimable(s: State, row: OutboxRow) {
    row in s.rows && row !in s.done && !Locked(s, row)
  }

  ghost predicate Ascending(batch: seq<OutboxRow>) {
    forall i, j :: 0 <= i < j < |batch| ==> batch[i].id < batch[j].id
  }

  // The lowest BATCH_SIZE claimable rows, by id.
  ghost predicate IsLowest(s: State, batch: seq<OutboxRow>) {
    && |batch| <= BATCH_SIZE
    && Ascending(batch)
    && (forall row | row in batch :: Claimable(s, row))
    && (forall row | Claimable(s, row) && row !in batch ::
          |batch| == BATCH_SIZE && forall b | b in batch :: b.id < row.id)
  }

  // ---------- Steps ----------

  ghost predicate Enabled(s: State, a: Action) {
    match a
    case Stage(row) => forall earlier | earlier in s.rows :: RowBefore(earlier, row)
    case Claim(r, batch) => r !in s.ticks && IsLowest(s, batch)
    case Publish(r, _) =>
      r in s.ticks && s.ticks[r].stamped == s.ticks[r].published < |s.ticks[r].batch|
    case Record(r, _) => r in s.ticks && s.ticks[r].recorded < s.ticks[r].published <= |s.ticks[r].batch|
    case Stamp(r) => r in s.ticks && s.ticks[r].stamped < s.ticks[r].recorded <= |s.ticks[r].batch|
    case Commit(r) => r in s.ticks && s.ticks[r].stamped == |s.ticks[r].batch|
    case Abort(r) => r in s.ticks
  }

  function Next(s: State, a: Action): State
    requires Enabled(s, a)
  {
    match a
    case Stage(row) => s.(rows := s.rows + [row])
    case Claim(r, batch) => s.(ticks := s.ticks[r := Tick(batch, 0, 0, 0)])
    case Publish(r, outcome) =>
      var row, t := s.ticks[r].batch[s.ticks[r].published], s.ticks[r].(published := s.ticks[r].published + 1);
      Called(s.(publishCalls := s.publishCalls + multiset{row},
                rabbit := if outcome.FailedBefore? then s.rabbit else s.rabbit + [row.event]), r, t, outcome)
    case Record(r, outcome) =>
      var row, t := s.ticks[r].batch[s.ticks[r].recorded], s.ticks[r].(recorded := s.ticks[r].recorded + 1);
      Called(s.(recordCalls := s.recordCalls + multiset{row},
                log := if outcome.FailedBefore? then s.log else s.log + [row.event]), r, t, outcome)
    case Stamp(r) => s.(ticks := s.ticks[r := s.ticks[r].(stamped := s.ticks[r].stamped + 1)])
    case Commit(r) => s.(done := s.done + (set row | row in s.ticks[r].batch), ticks := s.ticks - {r})
    case Abort(r) => Stopped(s, r, s.ticks[r])
  }

  // A broker call that fails aborts the tick, whether or not it took effect.
  function Called(s: State, r: RelayId, t: Tick, outcome: Outcome): State {
    if outcome.Ok? then s.(ticks := s.ticks[r := t]) else Stopped(s, r, t)
  }

  function Stopped(s: State, r: RelayId, t: Tick): State {
    s.(ticks := s.ticks - {r}, aborted := s.aborted + [t])
  }

  // ---------- Runs ----------

  ghost predicate Legal(s: State, acts: seq<Action>)
    decreases |acts|, 0
  {
    acts == [] ||
    (Legal(s, acts[..|acts| - 1]) && Enabled(After(s, acts[..|acts| - 1]), acts[|acts| - 1]))
  }

  ghost function After(s: State, acts: seq<Action>): State
    requires Legal(s, acts)
    decreases |acts|, 1
  {
    if acts == [] then s else Next(After(s, acts[..|acts| - 1]), acts[|acts| - 1])
  }

  lemma LegalAppend(s: State, acts: seq<Action>, a: Action)
    requires Legal(s, acts) && Enabled(After(s, acts), a)
    ensures Legal(s, acts + [a]) && After(s, acts + [a]) == Next(After(s, acts), a)
  {
  }

  ghost predicate Leads(s: State, acts: seq<Action>, end: State) {
    Legal(s, acts) && After(s, acts) == end
  }

  lemma Then(s: State, acts: seq<Action>, mid: State, a: Action) returns (more: seq<Action>, end: State)
    requires Leads(s, acts, mid) && Enabled(mid, a)
    ensures more == acts + [a] && end == Next(mid, a) && Leads(s, more, end)
  {
    more, end := acts + [a], Next(mid, a);
    LegalAppend(s, acts, a);
  }

  // The last step of a run.
  lemma LastStep(s: State, acts: seq<Action>, end: State) returns (front: seq<Action>, before: State, last: Action)
    requires Leads(s, acts, end) && acts != []
    ensures acts == front + [last] && |front| == |acts| - 1
    ensures Leads(s, front, before) && Enabled(before, last) && end == Next(before, last)
  {
    front, last := acts[..|acts| - 1], acts[|acts| - 1];
    before := After(s, front);
  }

  lemma Associate(a: seq<Action>, b: seq<Action>, c: Action)
    ensures (a + b) + [c] == a + (b + [c])
  {
  }

  lemma {:induction false} LeadsConcat(s: State, acts: seq<Action>, mid: State, more: seq<Action>, end: State)
    requires Leads(s, acts, mid) && Leads(mid, more, end)
    ensures Leads(s, acts + more, end)
    decreases |more|
  {
    if more == [] {
      assert acts + more == acts;
    } else {
      var front, before, last := LastStep(mid, more, end);
      LeadsConcat(s, acts, mid, front, before);
      var all, now := Then(s, acts + front, before, last);
      Associate(acts, front, last);
    }
  }

  // ---------- The invariant ----------

  ghost predicate TickOk(s: State, t: Tick) {
    && t.stamped <= t.recorded <= t.published <= t.stamped + 1
    && t.published <= |t.batch| <= BATCH_SIZE
    && Ascending(t.batch)
    && (forall row | row in t.batch :: row in s.rows && row !in s.done)
    && (forall row | row in t.batch[..t.published] :: row.event in s.rabbit)
    && (forall row | row in t.batch[..t.recorded] :: row.event in s.log)
  }

  ghost predicate Inv(s: State) {
    && RowsOk(s.rows)
    && (forall r | r in s.ticks :: TickOk(s, s.ticks[r]))
    // live claims of different relays are disjoint
    && (forall r, q, row | r in s.ticks && q in s.ticks && row in s.ticks[r].batch && row in s.ticks[q].batch :: r == q)
    // a committed stamp means both brokers hold the event
    && (forall row | row in s.done :: row in s.rows && row.event in s.rabbit && row.event in s.log)
    // no phantoms: every message comes from a committed row
    && (forall e | e in s.rabbit :: FromOutbox(s.rows, e))
    && (forall e | e in s.log :: FromOutbox(s.rows, e))
  }

  ghost predicate FromOutbox(rows: seq<OutboxRow>, e: Event) {
    exists row | row in rows :: row.event == e
  }

  lemma InvInit()
    ensures Inv(INIT)
  {
  }

  lemma StageKeeps(s: State, row: OutboxRow)
    requires Inv(s) && Enabled(s, Stage(row))
    ensures Inv(Next(s, Stage(row)))
  {
  }

  // Dropping a tick, or only adding broker messages of outbox rows, keeps Inv.
  lemma GrowKeeps(s: State, n: State)
    requires Inv(s) && n.rows == s.rows && n.done == s.done
    requires n.ticks.Keys <= s.ticks.Keys && forall r | r in n.ticks :: n.ticks[r] == s.ticks[r]
    requires s.rabbit <= n.rabbit && s.log <= n.log
    requires forall e | e in n.rabbit[|s.rabbit|..] :: FromOutbox(s.rows, e)
    requires forall e | e in n.log[|s.log|..] :: FromOutbox(s.rows, e)
    ensures Inv(n)
  {
    assert n.rabbit == s.rabbit + n.rabbit[|s.rabbit|..] && n.log == s.log + n.log[|s.log|..];
    forall r | r in n.ticks ensures TickOk(n, n.ticks[r]) {
      assert TickOk(s, s.ticks[r]);
    }
  }

  // Replacing one tick by a later stage of itself keeps Inv.
  lemma AdvanceKeeps(s: State, r: RelayId, t: Tick)
    requires Inv(s) && r in s.ticks && t.batch == s.ticks[r].batch && TickOk(s, t)
    ensures Inv(s.(ticks := s.ticks[r := t]))
  {
  }

  // A call for one row of a tick: both brokers keep what they held, and the
  // tick goes on as `t` if the call succeeded.
  lemma CallKeeps(s: State, mid: State, r: RelayId, t: Tick, outcome: Outcome)
    requires Inv(s) && r in s.ticks && t.batch == s.ticks[r].batch
    requires mid.rows == s.rows && mid.done == s.done && mid.ticks == s.ticks
    requires s.rabbit <= mid.rabbit && s.log <= mid.log
    requires forall e | e in mid.rabbit[|s.rabbit|..] :: FromOutbox(s.rows, e)
    requires forall e | e in mid.log[|s.log|..] :: FromOutbox(s.rows, e)
    requires outcome.Ok? ==> TickOk(mid, t)
    ensures Inv(Called(mid, r, t, outcome))
  {
    GrowKeeps(s, mid);
    if outcome.Ok? {
      AdvanceKeeps(mid, r, t);
    } else {
      GrowKeeps(mid, Stopped(mid, r, t));
    }
  }

  lemma PublishKeeps(s: State, r: RelayId, outcome: Outcome)
    requires Inv(s) && Enabled(s, Publish(r, outcome))
    ensures Inv(Next(s, Publish(r, outcome)))
  {
    var t := s.ticks[r];
    assert TickOk(s, t);
    var row, t' := t.batch[t.published], t.(published := t.published + 1);
    assert row in t.batch && FromOutbox(s.rows, row.event);
    var mid := s.(publishCalls := s.publishCalls + multiset{row},
                  rabbit := if outcome.FailedBefore? then s.rabbit else s.rabbit + [row.event]);
    assert t'.batch[..t'.published] == t.batch[..t.published] + [row];
    assert outcome.Ok? ==> TickOk(mid, t');
    CallKeeps(s, mid, r, t', outcome);
  }

  lemma RecordKeeps(s: State, r: RelayId, outcome: Outcome)
    requires Inv(s) && Enabled(s, Record(r, outcome))
    ensures Inv(Next(s, Record(r, outcome)))
  {
    var t := s.ticks[r];
    assert TickOk(s, t);
    var row, t' := t.batch[t.recorded], t.(recorded := t.recorded + 1);
    assert row in t.batch && FromOutbox(s.rows, row.event);
    var mid := s.(recordCalls := s.recordCalls + multiset{row},
                  log := if outcome.FailedBefore? then s.log else s.log + [row.event]);
    assert t'.batch[..t'.recorded] == t.batch[..t.recorded] + [row];
    assert outcome.Ok? ==> TickOk(mid, t');
    CallKeeps(s, mid, r, t', outcome);
  }

  lemma ClaimKeeps(s: State, r: RelayId, batch: seq<OutboxRow>)
    requires Inv(s) && Enabled(s, Claim(r, batch))
    ensures Inv(Next(s, Claim(r, batch)))
  {
  }

  lemma CommitKeeps(s: State, r: RelayId)
    requires Inv(s) && Enabled(s, Commit(r))
    ensures Inv(Next(s, Commit(r)))
  {
  }

  lemma StepKeeps(s: State, a: Action)
    requires Inv(s) && Enabled(s, a)
    ensures Inv(Next(s, a))
  {
    match a
    case Stage(row) => StageKeeps(s, row);
    case Claim(r, batch) => ClaimKeeps(s, r, batch);
    case Publish(r, outcome) => PublishKeeps(s, r, outcome);
    case Record(r, outcome) => RecordKeeps(s, r, outcome);
    case Stamp(r) =>
      assert TickOk(s, s.ticks[r]);
      AdvanceKeeps(s, r, s.ticks[r].(stamped := s.ticks[r].stamped + 1));
    case Commit(r) => CommitKeeps(s, r);
    case Abort(r) => GrowKeeps(s, Next(s, a));
  }

  // Relay safety: in every run, of any number of relays, under any failures.
  lemma {:induction false} RelaySafety(s: State, acts: seq<Action>)
    requires Inv(s) && Legal(s, acts)
    ensures Inv(After(s, acts))
  {
    if acts != [] {
      RelaySafety(s, acts[..|acts| - 1]);
      StepKeeps(After(s, acts[..|acts| - 1]), acts[|acts| - 1]);
    }
  }
}
