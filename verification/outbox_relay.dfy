// OutboxRelay.drain as code: it may be interrupted at every await by other
// relays and by writers, and still only takes steps of the relay protocol.
module OutboxRelays {
  import opened Contracts
  import opened Events
  import opened RelayProtocol

  // How the calls of one drain end: whether the transaction opens and its select
  // works, how the publish, record and stamp of the k-th row end, and the commit.
  datatype Plan = Plan(
    select: bool, publish: nat -> Outcome, record: nat -> Outcome, stamp: nat -> bool, commit: Outcome)

  predicate RowWorks(plan: Plan, k: nat) {
    plan.publish(k).Ok? && plan.record(k).Ok? && plan.stamp(k)
  }

  predicate RowsWork(plan: Plan, n: nat) {
    forall k | 0 <= k < n :: RowWorks(plan, k)
  }

  // Some call fails so that nothing of a drain of n rows takes effect.
  predicate Fails(plan: Plan, n: nat) {
    !plan.select || !RowsWork(plan, n) || plan.commit.FailedBefore?
  }

  lemma RowsWorkNext(plan: Plan, i: nat)
    ensures RowsWork(plan, i + 1) <==> RowsWork(plan, i) && RowWorks(plan, i)
  {
  }

  // The outbox table, its locks, RabbitMQ and Kafka, shared by every instance.
  class World {
    var s: State

    constructor ()
      ensures s == INIT
    {
      s := INIT;
    }

    // Whatever other instances and writers do while relay `me` awaits.
    method Others(ghost me: RelayId, ghost quiet: bool) returns (ghost acts: seq<Action>)
      modifies this
      ensures Legal(old(s), acts) && s == After(old(s), acts)
      ensures forall a | a in acts :: a.Stage? || a.relay != me
      ensures quiet ==> acts == []
    {
      acts := [];
    }

    // SELECT ... WHERE published_at IS NULL ORDER BY id LIMIT 20 FOR UPDATE SKIP LOCKED
    method SelectForUpdate(me: RelayId) returns (batch: seq<OutboxRow>)
      requires Inv(s) && me !in s.ticks
      modifies this
      ensures Enabled(old(s), Claim(me, batch)) && s == Next(old(s), Claim(me, batch))
    {
      batch := [];
      var rest := set row | row in s.rows && Claimable(s, row);
      while |batch| < BATCH_SIZE && rest != {}
        invariant s == old(s) && |batch| <= BATCH_SIZE && Ascending(batch)
        invariant forall row :: Claimable(s, row) <==> row in batch || row in rest
        invariant forall b, row | b in batch && row in rest :: b.id < row.id
        decreases |rest|
      {
        assert forall row | row in rest :: Claimable(s, row);
        ghost var low := LowestOf(s.rows, rest);
        var lowest :| lowest in rest && forall row | row in rest :: lowest == row || lowest.id < row.id;
        rest := rest - {lowest};
        batch := batch + [lowest];
      }
      s := Next(s, Claim(me, batch));
    }

    // The broker may take the message and still answer with an error. `how` is
    // how the call ends.
    method AmqpPublish(me: RelayId, payload: Event, how: Outcome) returns (outcome: Outcome)
      requires Enabled(s, Publish(me, how)) && s.ticks[me].batch[s.ticks[me].published].event == payload
      modifies this
      ensures outcome == how && s == Next(old(s), Publish(me, how))
      ensures s.rabbit == old(s).rabbit + if how == FailedBefore then [] else [payload]
      ensures s.log == old(s).log && s.rows == old(s).rows && s.done == old(s).done
      ensures me in s.ticks <==> how == Ok
    {
      outcome := how;
      s := Next(s, Publish(me, how));
    }

    // WorkOrderAuditProducer.record
    method AuditRecord(me: RelayId, event: Event, how: Outcome) returns (outcome: Outcome)
      requires Enabled(s, Record(me, how)) && s.ticks[me].batch[s.ticks[me].recorded].event == event
      modifies this
      ensures outcome == how && s == Next(old(s), Record(me, how))
      ensures s.log == old(s).log + if how == FailedBefore then [] else [event]
      ensures s.rabbit == old(s).rabbit && s.rows == old(s).rows && s.done == old(s).done
      ensures me in s.ticks <==> how == Ok
    {
      outcome := how;
      s := Next(s, Record(me, how));
    }

    // A statement on the open transaction: it works, or everything rolls back.
    method UpdatePublishedAt(me: RelayId, rowId: nat, how: bool) returns (ok: bool)
      requires Enabled(s, Stamp(me)) && s.ticks[me].batch[s.ticks[me].stamped].id == rowId
      modifies this
      ensures ok == how && s == Next(old(s), if how then Stamp(me) else Abort(me))
      ensures s.rabbit == old(s).rabbit && s.log == old(s).log && s.rows == old(s).rows && s.done == old(s).done
    {
      ok := how;
      s := Next(s, if how then Stamp(me) else Abort(me));
    }

    // The commit may take effect although its acknowledgement is lost.
    method CommitOrRollback(me: RelayId, how: Outcome) returns (outcome: Outcome)
      requires Enabled(s, Commit(me))
      modifies this
      ensures outcome == how && s == Next(old(s), Ending(me, how))
      ensures me !in s.ticks && s.rows == old(s).rows && s.rabbit == old(s).rabbit && s.log == old(s).log
      ensures s.done == old(s).done +
        if how == FailedBefore then {} else set row | row in old(s).ticks[me].batch
    {
      outcome := how;
      s := Next(s, Ending(me, how));
    }
  }

  lemma {:induction false} LowestOf(rows: seq<OutboxRow>, some: set<OutboxRow>) returns (lowest: OutboxRow)
    requires RowsOk(rows) && some != {} && forall row | row in some :: row in rows
    ensures lowest in some && forall row | row in some :: lowest == row || lowest.id < row.id
  {
    lowest :| lowest in some;
    var rest := some - {lowest};
    assert forall row | row in some :: row == lowest || row in rest;
    if rest != {} {
      var low := LowestOf(rows, rest);
      IdIdentifiesRow(rows, lowest, low);
      if low.id < lowest.id {
        lowest := low;
      }
    }
  }

  lemma StepLeavesMine(s: State, a: Action, me: RelayId)
    requires Enabled(s, a) && (a.Stage? || a.relay != me)
    ensures me in Next(s, a).ticks <==> me in s.ticks
    ensures me in s.ticks ==> Next(s, a).ticks[me] == s.ticks[me]
  {
  }

  // Steps of others leave a relay's own tick alone.
  lemma {:induction false} OthersLeaveMine(s: State, acts: seq<Action>, me: RelayId)
    requires Legal(s, acts) && forall a | a in acts :: a.Stage? || a.relay != me
    ensures me in After(s, acts).ticks <==> me in s.ticks
    ensures me in s.ticks ==> After(s, acts).ticks[me] == s.ticks[me]
  {
    if acts != [] {
      var front, a := acts[..|acts| - 1], acts[|acts| - 1];
      assert a in acts;
      OthersLeaveMine(s, front, me);
      StepLeavesMine(After(s, front), a, me);
    }
  }

  // One undisturbed, successful drain.
  ghost predicate Drained(s: State, n: State, batch: seq<OutboxRow>) {
    && IsLowest(s, batch) && n.rows == s.rows && n.ticks == s.ticks
    && n.done == s.done + (set row | row in batch)
  }

  ghost predicate Published(s: State, n: State, batch: seq<OutboxRow>) {
    Drained(s, n, batch) && n.rabbit == s.rabbit + EventsOf(batch) && n.log == s.log + EventsOf(batch)
  }

  // How far an undisturbed drain has got: its tick stands at `t`, unless it stopped.
  ghost predicate Undisturbed(start: State, now: State, me: RelayId, t: Tick, ok: bool) {
    && now.rows == start.rows && now.done == start.done
    && (ok && t.published <= |t.batch| && t.recorded <= |t.batch| ==>
          && now.ticks == start.ticks[me := t]
          && now.rabbit == start.rabbit + EventsOf(t.batch[..t.published])
          && now.log == start.log + EventsOf(t.batch[..t.recorded]))
  }

  // `acts` leads from `start` to `now`.
  ghost predicate Trace(start: State, acts: seq<Action>, now: State) {
    Legal(start, acts) && After(start, acts) == now && Inv(now)
  }

  lemma TraceStep(start: State, acts: seq<Action>, now: State, a: Action)
    requires Trace(start, acts, now) && Enabled(now, a)
    ensures Trace(start, acts + [a], Next(now, a))
  {
    LegalAppend(start, acts, a);
    StepKeeps(now, a);
  }

  lemma PublishUndisturbed(start: State, now: State, me: RelayId, rows: seq<OutboxRow>, i: nat, outcome: Outcome)
    requires i < |rows| && Undisturbed(start, now, me, Tick(rows, i, i, i), true)
    requires Enabled(now, Publish(me, outcome))
    ensures Undisturbed(start, Next(now, Publish(me, outcome)), me, Tick(rows, i + 1, i, i), outcome.Ok?)
  {
  }

  lemma RecordUndisturbed(start: State, now: State, me: RelayId, rows: seq<OutboxRow>, i: nat, outcome: Outcome)
    requires i < |rows| && Undisturbed(start, now, me, Tick(rows, i + 1, i, i), true)
    requires Enabled(now, Record(me, outcome))
    ensures Undisturbed(start, Next(now, Record(me, outcome)), me, Tick(rows, i + 1, i + 1, i), outcome.Ok?)
  {
  }

  lemma StampUndisturbed(start: State, now: State, me: RelayId, rows: seq<OutboxRow>, i: nat, ok: bool)
    requires i < |rows| && Undisturbed(start, now, me, Tick(rows, i + 1, i + 1, i), true)
    requires Enabled(now, if ok then Stamp(me) else Abort(me))
    ensures Undisturbed(start, Next(now, if ok then Stamp(me) else Abort(me)), me,
                        Tick(rows, i + 1, i + 1, i + 1), ok)
  {
  }

  // ---------- A relay's own steps ----------

  function Mine(acts: seq<Action>, me: RelayId): seq<Action> {
    if acts == [] then []
    else
      var rest, a := Mine(acts[..|acts| - 1], me), acts[|acts| - 1];
      if a.Stage? || a.relay != me then rest else rest + [a]
  }

  lemma {:induction false} MineConcat(acts: seq<Action>, more: seq<Action>, me: RelayId)
    ensures Mine(acts + more, me) == Mine(acts, me) + Mine(more, me)
  {
    if more == [] {
      assert acts + more == acts;
    } else {
      MineConcat(acts, more[..|more| - 1], me);
      assert (acts + more)[..|acts + more| - 1] == acts + more[..|more| - 1];
    }
  }

  lemma {:induction false} OthersAreNotMine(acts: seq<Action>, me: RelayId)
    requires forall a | a in acts :: a.Stage? || a.relay != me
    ensures Mine(acts, me) == []
  {
    if acts != [] {
      OthersAreNotMine(acts[..|acts| - 1], me);
      assert acts[|acts| - 1] in acts;
    }
  }

  lemma {:induction false} MineIsMine(acts: seq<Action>, me: RelayId)
    ensures forall a | a in Mine(acts, me) :: a in acts && !a.Stage? && a.relay == me
  {
    if acts != [] {
      MineIsMine(acts[..|acts| - 1], me);
      assert acts == acts[..|acts| - 1] + [acts[|acts| - 1]];
    }
  }

  // Publish, record and stamp, n times over.
  function Forwarding(me: RelayId, n: nat): seq<Action> {
    if n == 0 then [] else Forwarding(me, n - 1) + [Publish(me, Ok), Record(me, Ok), Stamp(me)]
  }

  // The steps that brought a tick to where it stands.
  function StepsOf(me: RelayId, t: Tick): seq<Action> {
    [Claim(me, t.batch)] + Forwarding(me, t.stamped) +
    (if t.published > t.stamped then [Publish(me, Ok)] else []) +
    (if t.recorded > t.stamped then [Record(me, Ok)] else [])
  }

  // The step at which a tick that stands at `t` may stop.
  predicate StopsAt(me: RelayId, t: Tick, a: Action) {
    match a
    case Publish(r, outcome) => r == me && !outcome.Ok? && t.published == t.stamped < |t.batch|
    case Record(r, outcome) => r == me && !outcome.Ok? && t.recorded < t.published
    case Abort(r) => r == me && (t.stamped < t.recorded || t.stamped == |t.batch|)
    case _ => false
  }

  ghost predicate Halted(me: RelayId, batch: seq<OutboxRow>, own: seq<Action>) {
    exists t: Tick, a :: t.batch == batch && StopsAt(me, t, a) && own == StepsOf(me, t) + [a]
  }

  ghost predicate Owns(me: RelayId, acts: seq<Action>, t: Tick, ok: bool, quiet: bool) {
    && (if ok then Mine(acts, me) == StepsOf(me, t) else Halted(me, t.batch, Mine(acts, me)))
    && (quiet ==> acts == Mine(acts, me))
  }

  lemma OwnStep(me: RelayId, acts: seq<Action>, a: Action)
    requires !a.Stage? && a.relay == me
    ensures Mine(acts + [a], me) == Mine(acts, me) + [a]
  {
    assert (acts + [a])[..|acts|] == acts;
  }

  lemma OwnsStep(me: RelayId, acts: seq<Action>, a: Action, t: Tick, next: Tick, ok: bool, quiet: bool)
    requires Owns(me, acts, t, true, quiet) && next.batch == t.batch && !a.Stage? && a.relay == me
    requires if ok then StepsOf(me, next) == StepsOf(me, t) + [a] else StopsAt(me, t, a)
    ensures Owns(me, acts + [a], next, ok, quiet)
  {
    OwnStep(me, acts, a);
  }

  lemma StampedSteps(me: RelayId, rows: seq<OutboxRow>, i: nat)
    ensures StepsOf(me, Tick(rows, i + 1, i + 1, i + 1)) == StepsOf(me, Tick(rows, i + 1, i + 1, i)) + [Stamp(me)]
  {
  }

  // How far a drain of `me` has got: its tick stands at `t`, unless it stopped.
  ghost predicate Stands(start: State, acts: seq<Action>, now: State, me: RelayId, t: Tick, ok: bool, quiet: bool) {
    && Trace(start, acts, now)
    && (ok ==> me in now.ticks && now.ticks[me] == t)
    && (!ok ==> me !in now.ticks)
    && (quiet ==> Undisturbed(start, now, me, t, ok))
    && Owns(me, acts, t, ok, quiet)
  }

  lemma PublishStands(start: State, acts: seq<Action>, s: State, me: RelayId, rows: seq<OutboxRow>, i: nat,
                      outcome: Outcome, quiet: bool)
    requires i < |rows| && Stands(start, acts, s, me, Tick(rows, i, i, i), true, quiet)
    requires Enabled(s, Publish(me, outcome))
    ensures Stands(start, acts + [Publish(me, outcome)], Next(s, Publish(me, outcome)), me,
                   Tick(rows, i + 1, i, i), outcome.Ok?, quiet)
  {
    TraceStep(start, acts, s, Publish(me, outcome));
    OwnsStep(me, acts, Publish(me, outcome), Tick(rows, i, i, i), Tick(rows, i + 1, i, i), outcome.Ok?, quiet);
    if quiet {
      PublishUndisturbed(start, s, me, rows, i, outcome);
    }
  }

  lemma RecordStands(start: State, acts: seq<Action>, s: State, me: RelayId, rows: seq<OutboxRow>, i: nat,
                     outcome: Outcome, quiet: bool)
    requires i < |rows| && Stands(start, acts, s, me, Tick(rows, i + 1, i, i), true, quiet)
    requires Enabled(s, Record(me, outcome))
    ensures Stands(start, acts + [Record(me, outcome)], Next(s, Record(me, outcome)), me,
                   Tick(rows, i + 1, i + 1, i), outcome.Ok?, quiet)
  {
    TraceStep(start, acts, s, Record(me, outcome));
    OwnsStep(me, acts, Record(me, outcome), Tick(rows, i + 1, i, i), Tick(rows, i + 1, i + 1, i), outcome.Ok?, quiet);
    if quiet {
      RecordUndisturbed(start, s, me, rows, i, outcome);
    }
  }

  lemma StampStands(start: State, acts: seq<Action>, s: State, me: RelayId, rows: seq<OutboxRow>, i: nat,
                    ok: bool, quiet: bool)
    requires i < |rows| && Stands(start, acts, s, me, Tick(rows, i + 1, i + 1, i), true, quiet)
    requires Enabled(s, if ok then Stamp(me) else Abort(me))
    ensures var a := if ok then Stamp(me) else Abort(me);
      Stands(start, acts + [a], Next(s, a), me, Tick(rows, i + 1, i + 1, i + 1), ok, quiet)
  {
    var a := if ok then Stamp(me) else Abort(me);
    TraceStep(start, acts, s, a);
    StampedSteps(me, rows, i);
    OwnsStep(me, acts, a, Tick(rows, i + 1, i + 1, i), Tick(rows, i + 1, i + 1, i + 1), ok, quiet);
    if quiet {
      StampUndisturbed(start, s, me, rows, i, ok);
    }
  }

  // ---------- A whole tick ----------

  // Undisturbed, a tick publishes its rows to both brokers, in id order, and
  // stamps them, or leaves the unpublished rows as they were.
  ghost predicate Effect(start: State, now: State, rows: seq<OutboxRow>, end: Outcome) {
    if end.FailedBefore? then now.done == start.done && now.rows == start.rows else Published(start, now, rows)
  }

  // The relay's own steps: claim, then publish, record and stamp row by row,
  // then commit; or the same up to the first step that failed.
  ghost predicate Ended(me: RelayId, acts: seq<Action>, rows: seq<OutboxRow>, end: Outcome, quiet: bool) {
    && (if end.FailedBefore? then Halted(me, rows, Mine(acts, me))
        else Mine(acts, me) == StepsOf(me, Tick(rows, |rows|, |rows|, |rows|)) + [Commit(me)])
    && (quiet ==> acts == Mine(acts, me))
  }

  function Ending(me: RelayId, end: Outcome): Action {
    if end.FailedBefore? then Abort(me) else Commit(me)
  }

  lemma EndsTick(me: RelayId, acts: seq<Action>, rows: seq<OutboxRow>, end: Outcome, quiet: bool)
    requires Owns(me, acts, Tick(rows, |rows|, |rows|, |rows|), true, quiet)
    ensures Ended(me, acts + [Ending(me, end)], rows, end, quiet)
  {
    OwnStep(me, acts, Ending(me, end));
    assert StopsAt(me, Tick(rows, |rows|, |rows|, |rows|), Abort(me));
  }

  lemma EndUndisturbed(start: State, now: State, me: RelayId, rows: seq<OutboxRow>, end: Outcome)
    requires Undisturbed(start, now, me, Tick(rows, |rows|, |rows|, |rows|), true)
    requires IsLowest(start, rows) && me !in start.ticks && Enabled(now, Ending(me, end))
    ensures Effect(start, Next(now, Ending(me, end)), rows, end)
  {
    assert rows[..|rows|] == rows;
    assert now.ticks - {me} == start.ticks;
  }

  class OutboxRelay {
    const me: RelayId
    const world: World
    var draining: bool

    constructor (me: RelayId, world: World)
      ensures this.me == me && this.world == world && !draining
    {
      this.me, this.world := me, world;
      draining := false;
    }

    ghost predicate Valid()
      reads this, world
    {
      Inv(world.s) && (!draining ==> me !in world.s.ticks)
    }

    // An await: others may act. It only happens with `draining` set, so a tick of
    // this relay that comes meanwhile returns at once.
    method Await(ghost start: State, ghost acts: seq<Action>, ghost quiet: bool) returns (ghost more: seq<Action>)
      requires draining && Trace(start, acts, world.s)
      modifies world
      ensures Trace(start, more, world.s)
      ensures me in world.s.ticks <==> me in old(world.s.ticks)
      ensures me in world.s.ticks ==> world.s.ticks[me] == old(world.s.ticks)[me]
      ensures Mine(more, me) == Mine(acts, me) && (quiet ==> more == acts && world.s == old(world.s))
    {
      ghost var others := world.Others(me, quiet);
      MineConcat(acts, others, me);
      OthersAreNotMine(others, me);
      OthersLeaveMine(old(world.s), others, me);
      RelaySafety(old(world.s), others);
      LeadsConcat(start, acts, old(world.s), others, world.s);
      more := acts + others;
    }

    ghost predicate At(start: State, acts: seq<Action>, t: Tick, ok: bool, quiet: bool)
      reads world
    {
      Stands(start, acts, world.s, me, t, ok, quiet)
    }

    // Awaiting leaves the relay where it stands.
    method AwaitAt(ghost start: State, ghost acts: seq<Action>, ghost t: Tick, ghost quiet: bool)
        returns (ghost more: seq<Action>)
      requires draining && At(start, acts, t, true, quiet)
      modifies world
      ensures At(start, more, t, true, quiet)
    {
      more := Await(start, acts, quiet);
    }

    method PublishRow(rows: seq<OutboxRow>, i: nat, plan: Plan,
                      ghost start: State, ghost acts: seq<Action>, ghost quiet: bool)
        returns (ok: bool, ghost more: seq<Action>)
      requires draining && i < |rows| && At(start, acts, Tick(rows, i, i, i), true, quiet)
      modifies world
      ensures At(start, more, Tick(rows, i + 1, i, i), ok, quiet) && ok == plan.publish(i).Ok?
    {
      more := AwaitAt(start, acts, Tick(rows, i, i, i), quiet);
      PublishStands(start, more, world.s, me, rows, i, plan.publish(i), quiet);
      more := more + [Publish(me, plan.publish(i))];
      var outcome := world.AmqpPublish(me, rows[i].event, plan.publish(i));
      ok := outcome.Ok?;
    }

    method RecordRow(rows: seq<OutboxRow>, i: nat, plan: Plan,
                     ghost start: State, ghost acts: seq<Action>, ghost quiet: bool)
        returns (ok: bool, ghost more: seq<Action>)
      requires draining && i < |rows| && At(start, acts, Tick(rows, i + 1, i, i), true, quiet)
      modifies world
      ensures At(start, more, Tick(rows, i + 1, i + 1, i), ok, quiet) && ok == plan.record(i).Ok?
    {
      more := AwaitAt(start, acts, Tick(rows, i + 1, i, i), quiet);
      RecordStands(start, more, world.s, me, rows, i, plan.record(i), quiet);
      more := more + [Record(me, plan.record(i))];
      var outcome := world.AuditRecord(me, rows[i].event, plan.record(i));
      ok := outcome.Ok?;
    }

    method StampRow(rows: seq<OutboxRow>, i: nat, plan: Plan,
                    ghost start: State, ghost acts: seq<Action>, ghost quiet: bool)
        returns (ok: bool, ghost more: seq<Action>)
      requires draining && i < |rows| && At(start, acts, Tick(rows, i + 1, i + 1, i), true, quiet)
      modifies world
      ensures At(start, more, Tick(rows, i + 1, i + 1, i + 1), ok, quiet) && ok == plan.stamp(i)
    {
      more := AwaitAt(start, acts, Tick(rows, i + 1, i + 1, i), quiet);
      StampStands(start, more, world.s, me, rows, i, plan.stamp(i), quiet);
      more := more + [if plan.stamp(i) then Stamp(me) else Abort(me)];
      ok := world.UpdatePublishedAt(me, rows[i].id, plan.stamp(i));
    }

    // The body of the loop: publish, record, stamp.
    method ForwardRow(rows: seq<OutboxRow>, i: nat, plan: Plan,
                      ghost start: State, ghost acts: seq<Action>, ghost quiet: bool)
        returns (ok: bool, ghost more: seq<Action>)
      requires draining && i < |rows| && At(start, acts, Tick(rows, i, i, i), true, quiet)
      modifies world
      ensures At(start, more, Tick(rows, i + 1, i + 1, i + 1), ok, quiet) && ok == RowWorks(plan, i)
    {
      ok, more := PublishRow(rows, i, plan, start, acts, quiet);
      if !ok {
        return;
      }
      ok, more := RecordRow(rows, i, plan, start, more, quiet);
      if !ok {
        return;
      }
      ok, more := StampRow(rows, i, plan, start, more, quiet);
    }

    method ForwardRows(rows: seq<OutboxRow>, plan: Plan,
                       ghost start: State, ghost acts: seq<Action>, ghost quiet: bool)
        returns (ok: bool, ghost more: seq<Action>)
      requires draining && At(start, acts, Tick(rows, 0, 0, 0), true, quiet)
      modifies world
      ensures At(start, more, Tick(rows, |rows|, |rows|, |rows|), ok, quiet)
      ensures ok <==> RowsWork(plan, |rows|)
    {
      ok, more := true, acts;
      var i := 0;
      while i < |rows| && ok
        invariant 0 <= i <= |rows|
        invariant At(start, more, Tick(rows, i, i, i), ok, quiet)
        invariant ok <==> RowsWork(plan, i)
      {
        ok, more := ForwardRow(rows, i, plan, start, more, quiet);
        RowsWorkNext(plan, i);
        i := i + 1;
      }
    }

    method Finish(rows: seq<OutboxRow>, plan: Plan,
                  ghost start: State, ghost acts: seq<Action>, ghost quiet: bool)
        returns (end: Outcome, ghost more: seq<Action>)
      requires draining && At(start, acts, Tick(rows, |rows|, |rows|, |rows|), true, quiet)
      requires quiet ==> IsLowest(start, rows) && me !in start.ticks
      modifies world
      ensures Trace(start, more, world.s) && me !in world.s.ticks && Ended(me, more, rows, end, quiet)
      ensures end == plan.commit
      ensures !end.FailedBefore? ==> forall row | row in rows :: row in world.s.done
      ensures quiet ==> Effect(start, world.s, rows, end)
    {
      more := Await(start, acts, quiet);
      ghost var before := world.s;
      end := world.CommitOrRollback(me, plan.commit);
      TraceStep(start, more, before, Ending(me, end));
      EndsTick(me, more, rows, end, quiet);
      more := more + [Ending(me, end)];
      if quiet {
        EndUndisturbed(start, before, me, rows, end);
      }
    }

    // The transaction of one tick.
    method Transaction(plan: Plan, ghost start: State, ghost acts: seq<Action>, ghost quiet: bool)
        returns (end: Outcome, ghost more: seq<Action>, ghost claimed: seq<OutboxRow>)
      requires Trace(start, acts, world.s) && me !in world.s.ticks && Mine(acts, me) == []
      requires draining && plan.select && (quiet ==> world.s == start && acts == [])
      modifies world
      ensures Trace(start, more, world.s) && me !in world.s.ticks && Ended(me, more, claimed, end, quiet)
      ensures |claimed| <= 20 && end == if Fails(plan, |claimed|) then FailedBefore else plan.commit
      ensures !end.FailedBefore? ==> forall row | row in claimed :: row in world.s.done
      ensures quiet ==> IsLowest(start, claimed) && Effect(start, world.s, claimed, end)
    {
      ghost var before := world.s;
      var rows := world.SelectForUpdate(me);
      TraceStep(start, acts, before, Claim(me, rows));
      OwnStep(me, acts, Claim(me, rows));
      more, claimed := acts + [Claim(me, rows)], rows;
      end := FailedBefore;
      var ok;
      ok, more := ForwardRows(rows, plan, start, more, quiet);
      if ok {
        end, more := Finish(rows, plan, start, more, quiet);
      }
    }

    // `acts` is everything that happened meanwhile, by this relay and by others;
    // `quiet` says that nobody else did anything. What drain logs is !end.Ok?;
    // what took effect is !end.FailedBefore?.
    method Drain(plan: Plan, ghost quiet: bool)
        returns (end: Outcome, ghost acts: seq<Action>, ghost own: seq<Action>, ghost claimed: seq<OutboxRow>)
      requires Valid()
      modifies this`draining, world
      ensures Valid() && draining == old(draining)
      // a slow tick is never overlapped by the next one of the same relay
      ensures old(draining) ==> end.FailedBefore? && world.s == old(world.s) && acts == []
      // otherwise it takes effect unless one of its calls failed
      ensures !old(draining) ==> end == if Fails(plan, |claimed|) then FailedBefore else plan.commit
      // drain takes protocol steps only, and leaves no tick of its own behind
      ensures Trace(old(world.s), acts, world.s)
      // its own steps are one tick of this relay, or none if nothing could be selected
      ensures own == Mine(acts, me) && (quiet ==> acts == own)
      ensures forall a | a in own :: !a.Stage? && a.relay == me
      ensures if old(draining) || !plan.select then own == [] && claimed == []
              else |claimed| <= 20 && Ended(me, acts, claimed, end, quiet)
      ensures !end.FailedBefore? ==> forall row | row in claimed :: row in world.s.done
      // undisturbed, it claims the lowest rows; if none of its calls fails, both
      // brokers then hold their events, in id order, and all of them are stamped
      ensures quiet && !old(draining) && plan.select ==> IsLowest(old(world.s), claimed)
      ensures quiet ==> Effect(old(world.s), world.s, claimed, end)
      ensures quiet && !old(draining) && plan.select && plan.commit.Ok? && RowsWork(plan, 20) ==>
        end.Ok? && Published(old(world.s), world.s, claimed)
    {
      end, acts, own, claimed := FailedBefore, [], [], [];
      if draining {
        return;
      }
      draining := true;
      ghost var start := world.s;
      acts := Await(start, acts, quiet);
      if plan.select {
        end, acts, claimed := Transaction(plan, start, acts, quiet);
      }
      draining := false;
      own := Mine(acts, me);
      MineIsMine(acts, me);
    }

    // The interval timer: k ticks, with nobody else at work and nothing failing,
    // leave exactly max(0, n - 20k) of n waiting rows, always the highest ids.
    method Poll(k: nat, plan: nat -> Plan)
      requires Valid() && !draining && world.s.ticks == map[]
      requires forall i: nat | i < k :: !Fails(plan(i), 20)
      modifies this`draining, world
      ensures Valid() && !draining && world.s.ticks == map[] && world.s.rows == old(world.s).rows
      ensures var was, now := Waiting(old(world.s)), Waiting(world.s);
        && now <= was
        && |now| == (if |was| <= 20 * k then 0 else |was| - 20 * k)
        && forall gone, left | gone in was - now && left in now :: gone.id < left.id
    {
      ghost var states := [world.s];
      for i := 0 to k
        invariant Valid() && !draining && world.s.rows == old(world.s).rows
        invariant |states| == i + 1 && states[0] == old(world.s) && states[i] == world.s && Drains(states)
      {
        assert !Fails(plan(i), 20);
        var end;
        ghost var acts, own, claimed;
        end, acts, own, claimed := Drain(plan(i), true);
        DrainsAppend(states, world.s, claimed);
        states := states + [world.s];
      }
      DrainProgress(states);
    }
  }

  // ---------- Progress ----------

  ghost function Waiting(s: State): set<OutboxRow> {
    set row | row in s.rows && row !in s.done
  }

  ghost predicate DrainedOnce(s: State, n: State) {
    exists batch :: Drained(s, n, batch)
  }

  // A run of successful drains with nothing else going on.
  ghost predicate Drains(states: seq<State>) {
    && states != [] && Inv(states[0])
    && (forall i | 0 <= i < |states| :: states[i].ticks == map[] && Inv(states[i]))
    && (forall i | 0 < i < |states| :: DrainedOnce(states[i - 1], states[i]))
  }

  lemma DrainsAppend(states: seq<State>, n: State, batch: seq<OutboxRow>)
    requires Drains(states) && Inv(n) && Drained(states[|states| - 1], n, batch)
    ensures Drains(states + [n])
  {
    assert DrainedOnce(states[|states| - 1], n);
  }

  lemma {:induction false} BatchSize(batch: seq<OutboxRow>)
    requires Ascending(batch)
    ensures |set row | row in batch| == |batch|
  {
    if batch != [] {
      var n := |batch| - 1;
      BatchSize(batch[..n]);
      assert batch == batch[..n] + [batch[n]];
      assert (set row | row in batch) == (set row | row in batch[..n]) + {batch[n]};
    }
  }

  lemma OneDrain(s: State, n: State, batch: seq<OutboxRow>)
    requires Inv(s) && s.ticks == map[] && Drained(s, n, batch)
    ensures Waiting(n) <= Waiting(s)
    ensures |Waiting(n)| == if |Waiting(s)| <= 20 then 0 else |Waiting(s)| - 20
    ensures forall gone, left | gone in Waiting(s) - Waiting(n) && left in Waiting(n) :: gone.id < left.id
  {
    var taken := set row | row in batch;
    BatchSize(batch);
    assert forall row :: row in Waiting(s) <==> Claimable(s, row);
    assert taken <= Waiting(s);
    assert Waiting(n) == Waiting(s) - taken;
    if Waiting(n) != {} {
      var left :| left in Waiting(n);
      assert Claimable(s, left) && left !in batch;
    }
    forall gone, left | gone in Waiting(s) - Waiting(n) && left in Waiting(n) ensures gone.id < left.id {
      assert Claimable(s, left) && left !in batch && gone in batch;
    }
  }

  // k drains leave max(0, n - 20k) of n waiting rows, always the highest ids.
  lemma {:induction false} DrainProgress(states: seq<State>)
    requires Drains(states)
    ensures var first, last, k := states[0], states[|states| - 1], |states| - 1;
      && Waiting(last) <= Waiting(first)
      && |Waiting(last)| == (if |Waiting(first)| <= 20 * k then 0 else |Waiting(first)| - 20 * k)
      && forall gone, left | gone in Waiting(first) - Waiting(last) && left in Waiting(last) :: gone.id < left.id
  {
    var k := |states| - 1;
    if k > 0 {
      DrainProgress(states[..k]);
      var batch :| Drained(states[k - 1], states[k], batch);
      OneDrain(states[k - 1], states[k], batch);
    }
  }
}
