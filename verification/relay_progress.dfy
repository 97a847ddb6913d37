// Every state of the relays can be drained: open ticks finish, and then one tick
// after the other claims the lowest rows until none is left.
module RelayProgress {
  import opened Contracts
  import opened Events
  import opened RelayProtocol
  import opened RelayOrder
  import opened OutboxRelays

  // A step in which nothing fails and no new event is staged.
  predicate Works(a: Action) {
    match a
    case Stage(_) => false
    case Abort(_) => false
    case Publish(_, outcome) => outcome.Ok?
    case Record(_, outcome) => outcome.Ok?
    case _ => true
  }

  ghost predicate WorksTo(start: State, acts: seq<Action>, s: State) {
    Leads(start, acts, s) && Inv(s) && ClaimsSafe(start, acts) && forall a | a in acts :: Works(a)
  }

  lemma Go(start: State, acts: seq<Action>, s: State, a: Action) returns (more: seq<Action>, end: State)
    requires WorksTo(start, acts, s) && Enabled(s, a) && Works(a) && (a.Claim? ==> s.ticks == map[])
    ensures WorksTo(start, more, end) && end == Next(s, a)
  {
    more, end := Then(start, acts, s, a);
    StepKeeps(s, a);
    assert more[..|acts|] == acts;
    if a.Claim? {
      LoneClaimIsSafe(s, a.batch);
    }
  }

  function StepsLeft(t: Tick): int {
    3 * |t.batch| - t.published - t.recorded - t.stamped
  }

  function NextOf(r: RelayId, t: Tick): Action {
    if t.stamped < t.recorded then Stamp(r)
    else if t.recorded < t.published then Record(r, Ok)
    else if t.published < |t.batch| then Publish(r, Ok)
    else Commit(r)
  }

  // The tick of relay r is committed.
  ghost predicate Finished(s: State, n: State, r: RelayId)
    requires r in s.ticks
  {
    && n.rows == s.rows && n.ticks == s.ticks - {r}
    && n.done == s.done + set row | row in s.ticks[r].batch
  }

  lemma TickMoves(s: State, r: RelayId)
    requires Inv(s) && r in s.ticks
    ensures Enabled(s, NextOf(r, s.ticks[r]))
    ensures var a, t := NextOf(r, s.ticks[r]), s.ticks[r];
      var n := Next(s, a);
      && StepsLeft(t) >= 0
      && (a.Commit? ==> Finished(s, n, r))
      && (!a.Commit? ==>
            && n.rows == s.rows && n.done == s.done && n.ticks.Keys == s.ticks.Keys
            && n.ticks - {r} == s.ticks - {r}
            && n.ticks[r].batch == t.batch && StepsLeft(n.ticks[r]) < StepsLeft(t))
  {
    assert TickOk(s, s.ticks[r]);
  }

  lemma {:induction false} FinishTick(start: State, acts: seq<Action>, s: State, r: RelayId)
      returns (more: seq<Action>, end: State)
    requires WorksTo(start, acts, s) && r in s.ticks
    ensures WorksTo(start, more, end) && Finished(s, end, r)
    decreases StepsLeft(s.ticks[r])
  {
    var a := NextOf(r, s.ticks[r]);
    TickMoves(s, r);
    more, end := Go(start, acts, s, a);
    if !a.Commit? {
      TickMoves(end, r);
      more, end := FinishTick(start, more, end, r);
    }
  }

  lemma NoTicks(ticks: map<RelayId, Tick>)
    requires forall r :: r !in ticks
    ensures ticks == map[]
  {
    var none: map<RelayId, Tick> := map[];
    assert forall r :: r in ticks <==> r in none;
  }

  lemma SomeTick(ticks: map<RelayId, Tick>) returns (r: RelayId)
    requires ticks != map[]
    ensures r in ticks
  {
    if forall q :: q !in ticks {
      NoTicks(ticks);
      assert false;
    }
    r :| r in ticks;
  }

  lemma {:induction false} FinishTicks(start: State, acts: seq<Action>, s: State)
      returns (more: seq<Action>, end: State)
    requires WorksTo(start, acts, s)
    ensures WorksTo(start, more, end) && end.rows == s.rows && end.ticks == map[]
    decreases s.ticks.Keys
  {
    more, end := acts, s;
    if s.ticks != map[] {
      var r := SomeTick(s.ticks);
      more, end := FinishTick(start, acts, s, r);
      more, end := FinishTicks(start, more, end);
    }
  }

  // The batch a claim takes, extended from `batch` by the lowest of `rest`.
  lemma {:induction false} LowestBatch(s: State, batch: seq<OutboxRow>, rest: set<OutboxRow>)
      returns (all: seq<OutboxRow>)
    requires RowsOk(s.rows) && |batch| <= BATCH_SIZE && Ascending(batch)
    requires forall row :: Claimable(s, row) <==> row in batch || row in rest
    requires forall b, row | b in batch && row in rest :: b.id < row.id
    ensures IsLowest(s, all)
    decreases |rest|
  {
    all := batch;
    if |batch| < BATCH_SIZE && rest != {} {
      assert forall row | row in rest :: Claimable(s, row);
      var low := LowestOf(s.rows, rest);
      all := LowestBatch(s, batch + [low], rest - {low});
    }
  }

  lemma ClaimsSome(s: State) returns (batch: seq<OutboxRow>)
    requires Inv(s) && s.ticks == map[] && Waiting(s) != {}
    ensures Enabled(s, Claim(0, batch)) && batch != []
  {
    assert forall row :: row in Waiting(s) <==> Claimable(s, row);
    batch := LowestBatch(s, [], Waiting(s));
    var row :| row in Waiting(s);
    assert Claimable(s, row);
  }

  lemma {:induction false} DrainAll(start: State, acts: seq<Action>, s: State)
      returns (more: seq<Action>, end: State)
    requires WorksTo(start, acts, s) && s.ticks == map[]
    ensures WorksTo(start, more, end) && end.rows == s.rows && end.ticks == map[] && Waiting(end) == {}
    decreases Waiting(s)
  {
    more, end := acts, s;
    if Waiting(s) != {} {
      var batch := ClaimsSome(s);
      assert Claimable(s, batch[0]);
      more, end := Go(start, acts, s, Claim(0, batch));
      more, end := FinishTick(start, more, end, 0);
      assert batch[0] in Waiting(s) && batch[0] in end.done;
      more, end := DrainAll(start, more, end);
    }
  }

  // From any reachable state, whatever the relays are in the middle of.
  lemma CanDrain(s: State) returns (acts: seq<Action>, end: State)
    requires Inv(s)
    ensures WorksTo(s, acts, end) && end.rows == s.rows && forall row | row in end.rows :: row in end.done
  {
    acts, end := FinishTicks(s, [], s);
    acts, end := DrainAll(s, acts, end);
    assert forall row | row in end.rows && row !in end.done :: row in Waiting(end);
  }
}
