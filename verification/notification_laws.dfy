// What every run of the notification protocol keeps, and what runs without
// faults achieve.
module NotificationLaws {
  import opened Contracts
  import opened Events
  import opened ProcessedEvents
  import opened Notifications

  // ---------- Conservation: no copy is lost ----------

  ghost predicate Conserved(s: State, key: Key) {
    s.arrived[key] + s.surplus[key] == Total(Standing(key), s.copies)
  }

  function One(p: bool): nat {
    if p then 1 else 0
  }

  lemma StandingOfMove(s: State, a: Action, key: Key)
    requires Enabled(s, a) && OnCopy(a) && KeyOf(s.copies[a.i]) == key
    ensures var g, c := Standing(key), s.copies[a.i];
      Reading(g, c.(place := Target(s, a))) + ReadingOf(g, Added(s, a)) == Reading(g, c) + One(Doubles(s, a))
  {
  }

  lemma StandingOfOther(s: State, a: Action, key: Key)
    requires Enabled(s, a) && OnCopy(a) && KeyOf(s.copies[a.i]) != key
    ensures var g, c := Standing(key), s.copies[a.i];
      Reading(g, c.(place := Target(s, a))) == Reading(g, c) == ReadingOf(g, Added(s, a)) == 0
  {
  }

  lemma StepStanding(s: State, a: Action, key: Key)
    requires Enabled(s, a)
    ensures var mine := !a.Restart? && Subject(s, a) == key;
      Total(Standing(key), Next(s, a).copies) ==
        Total(Standing(key), s.copies) + One(mine && a.Arrive?) + One(mine && Doubles(s, a))
  {
    StepTotal(Standing(key), s, a);
    if OnCopy(a) {
      if KeyOf(s.copies[a.i]) == key {
        StandingOfMove(s, a, key);
      } else {
        StandingOfOther(s, a, key);
      }
    }
  }

  lemma StepConserves(s: State, a: Action, key: Key)
    requires Enabled(s, a) && Conserved(s, key)
    ensures Conserved(Next(s, a), key)
  {
    StepStanding(s, a, key);
    CountedOne(s.arrived, s, a, a.Arrive?, key);
    CountedOne(s.surplus, s, a, Doubles(s, a), key);
  }

  lemma PlaceCases(p: Place)
    ensures One(p !in {Copied, Replaced}) ==
      One(p in {Main, Started, Sending, Sent, Failed, Handled}) +
      One(p in {Retry}) + One(p in {Dead}) + One(p in {Done})
    ensures p !in {Copied, Replaced} ==>
      p in {Main, Retry, Dead, Started, Sending, Failed} || p in {Sent, Handled, Done}
  {
    match p
    case Main => case Retry => case Dead => case Started => case Sending => case Sent =>
    case Failed => case Copied => case Handled => case Done => case Replaced =>
  }

  lemma {:induction false} StandingIsPlaces(copies: seq<Copy>, key: Key)
    ensures Total(Standing(key), copies) ==
      Total(Held(key, {Main, Started, Sending, Sent, Failed, Handled}), copies) +
      Total(Held(key, {Retry}), copies) + Total(Held(key, {Dead}), copies) + Total(Held(key, {Done}), copies)
  {
    if copies != [] {
      PlaceCases(copies[|copies| - 1].place);
      StandingIsPlaces(copies[..|copies| - 1], key);
    }
  }

  // Messages that arrived, plus the copies crashes left behind, are exactly
  // the copies that are queued, in hand, dead-lettered or finished.
  lemma {:induction false} Conservation(acts: seq<Action>, key: Key)
    requires Legal(INIT, acts)
    ensures Conserved(After(INIT, acts), key)
    ensures var s := After(INIT, acts);
      s.arrived[key] + s.surplus[key] ==
        Total(Held(key, {Main, Started, Sending, Sent, Failed, Handled}), s.copies) +
        Total(Held(key, {Retry}), s.copies) +
        Total(Held(key, {Dead}), s.copies) + Total(Held(key, {Done}), s.copies)
  {
    StandingIsPlaces(After(INIT, acts).copies, key);
    if acts != [] {
      var front := acts[..|acts| - 1];
      Conservation(front, key);
      StepConserves(After(INIT, front), acts[|acts| - 1], key);
    }
  }

  // ---------- What marks and finished copies mean ----------

  ghost predicate Truthful(s: State) {
    && StoreOk(s.store, MAX_ENTRIES)
    && (forall id | id in s.store :: HasId(s.sent, id))
    && (forall c | c in s.copies :: KeyOf(c) in s.arrived)
    && (forall c | c in s.copies && c.place in {Sent, Handled, Done} :: HasId(s.sent, c.msg.event.eventId))
    && (forall e | e in s.sent :: exists q: Queue :: Key(q, e) in s.arrived)
  }

  lemma StepTruthful(s: State, a: Action)
    requires Enabled(s, a) && Truthful(s)
    ensures Truthful(Next(s, a))
  {
    var n := Next(s, a);
    if a.Send? {
      IdsAppend(s.sent, s.copies[a.i].msg.event);
      assert KeyOf(s.copies[a.i]) in s.arrived;
    }
    if a.MarkSent? {
      MarkKeeps(s.store, s.copies[a.i].msg.event.eventId, MAX_ENTRIES);
      assert HasId(s.sent, s.copies[a.i].msg.event.eventId);
    }
    forall c | c in n.copies
      ensures KeyOf(c) in n.arrived
      ensures c.place in {Sent, Handled, Done} ==> HasId(n.sent, c.msg.event.eventId)
    {
      OriginOfCopy(s, a, c);
    }
  }

  // A copy in the next state was there before, was moved, or is new.
  lemma OriginOfCopy(s: State, a: Action, c: Copy)
    requires Enabled(s, a) && c in Next(s, a).copies
    ensures c in s.copies || Added(s, a) == Some(c) ||
      (OnCopy(a) && s.copies[a.i] in s.copies && c == s.copies[a.i].(place := Target(s, a)))
  {
  }

  // Every marked id was sent, and so was everything that finished.
  lemma {:induction false} MarkedWasSent(acts: seq<Action>)
    requires Legal(INIT, acts)
    ensures Truthful(After(INIT, acts))
  {
    if acts != [] {
      var front := acts[..|acts| - 1];
      MarkedWasSent(front);
      StepTruthful(After(INIT, front), acts[|acts| - 1]);
    }
  }

  lemma {:induction false} SomeReading(g: Gauge, copies: seq<Copy>)
    requires Total(g, copies) > 0
    ensures exists c | c in copies :: Reading(g, c) > 0
  {
    var n := |copies| - 1;
    if Reading(g, copies[n]) == 0 {
      SomeReading(g, copies[..n]);
    }
  }

  // Still in the main queue (perhaps unacked), the retry queue or the dead-letter queue.
  ghost predicate Waiting(s: State, key: Key) {
    exists c | c in s.copies :: KeyOf(c) == key && c.place in {Main, Retry, Dead, Started, Sending, Failed}
  }

  // No silent loss: whatever crashes, a message that arrived still waits in one
  // of its queues, or its notification went out at least once.
  lemma NoSilentLoss(s: State, key: Key)
    requires Truthful(s) && Conserved(s, key) && s.arrived[key] > 0
    ensures Waiting(s, key) || HasId(s.sent, key.event.eventId)
  {
    SomeReading(Standing(key), s.copies);
    var c :| c in s.copies && Reading(Standing(key), c) > 0;
    PlaceCases(c.place);
  }

  // ---------- At most three handler runs ----------

  ghost predicate AttemptsOk(s: State) {
    forall c | c in s.copies :: 1 <= AttemptOf(c.msg) <= MAX_ATTEMPTS
  }

  ghost predicate Budgeted(s: State, key: Key) {
    s.runs[key] + Total(Pending(key), s.copies) <=
      MAX_ATTEMPTS * (s.arrived[key] + s.surplus[key]) + s.returned[key]
  }

  // Fresh messages carry no numeric attempt header.
  predicate PlainArrivals(acts: seq<Action>) {
    forall a | a in acts && a.Arrive? :: !a.header.Number?
  }

  lemma StepAttempts(s: State, a: Action)
    requires Enabled(s, a) && AttemptsOk(s) && (a.Arrive? ==> !a.header.Number?)
    ensures AttemptsOk(Next(s, a))
  {
  }

  lemma BudgetOfMove(s: State, a: Action, key: Key)
    requires Enabled(s, a) && OnCopy(a) && 1 <= AttemptOf(s.copies[a.i].msg) <= MAX_ATTEMPTS
    ensures var g, c := Pending(key), s.copies[a.i];
      var mine := KeyOf(c) == key;
      One(mine && a.Deliver?) + Reading(g, c.(place := Target(s, a))) + ReadingOf(g, Added(s, a)) <=
        Reading(g, c) + 3 * One(mine && Doubles(s, a)) + One(mine && Returns(s, a))
  {
  }

  lemma StepCounts(s: State, a: Action, key: Key)
    requires Enabled(s, a)
    ensures var n, mine := Next(s, a), !a.Restart? && Subject(s, a) == key;
      && n.arrived[key] == s.arrived[key] + One(mine && a.Arrive?)
      && n.runs[key] == s.runs[key] + One(mine && a.Deliver?)
      && n.returned[key] == s.returned[key] + One(mine && Returns(s, a))
      && n.surplus[key] == s.surplus[key] + One(mine && Doubles(s, a))
  {
  }

  lemma PendingOfMove(s: State, a: Action, key: Key)
    requires Enabled(s, a) && AttemptsOk(s) && OnCopy(a)
    ensures var mine := KeyOf(s.copies[a.i]) == key;
      Total(Pending(key), Next(s, a).copies) + One(mine && a.Deliver?) <=
        Total(Pending(key), s.copies) + 3 * One(mine && Doubles(s, a)) + One(mine && Returns(s, a))
  {
    StepTotal(Pending(key), s, a);
    assert s.copies[a.i] in s.copies;
    BudgetOfMove(s, a, key);
  }

  lemma PendingOfArrival(s: State, a: Action, key: Key)
    requires Enabled(s, a) && !OnCopy(a) && (a.Arrive? ==> !a.header.Number?)
    ensures Total(Pending(key), Next(s, a).copies) <=
      Total(Pending(key), s.copies) + 3 * One(a.Arrive? && Key(a.queue, a.event) == key)
  {
    StepTotal(Pending(key), s, a);
  }

  lemma StepBudget(s: State, a: Action, key: Key)
    requires Enabled(s, a) && AttemptsOk(s) && Budgeted(s, key) && (a.Arrive? ==> !a.header.Number?)
    ensures Budgeted(Next(s, a), key)
  {
    StepCounts(s, a, key);
    if OnCopy(a) {
      PendingOfMove(s, a, key);
    } else {
      PendingOfArrival(s, a, key);
    }
  }

  // Queued attempts stay in 1..3. A message's handler runs at most three times
  // per arrival; only a fault (an original that goes back, or a copy left
  // behind by it) allows more.
  lemma {:induction false} AtMostThreeRuns(acts: seq<Action>, key: Key)
    requires Legal(INIT, acts) && PlainArrivals(acts)
    ensures var s := After(INIT, acts);
      AttemptsOk(s) && Budgeted(s, key) &&
      s.runs[key] <= 3 * (s.arrived[key] + s.surplus[key]) + s.returned[key]
  {
    if acts != [] {
      var front, a := acts[..|acts| - 1], acts[|acts| - 1];
      AtMostThreeRuns(front, key);
      assert a in acts;
      StepAttempts(After(INIT, front), a);
      StepBudget(After(INIT, front), a, key);
    }
  }

  // No delivery is handed back, and no publish fails.
  predicate FaultFree(acts: seq<Action>) {
    forall a | a in acts :: !a.Requeue? && (a.PublishCopy? ==> a.outcome.Ok?)
  }

  lemma {:induction false} NothingGoesBack(acts: seq<Action>)
    requires Legal(INIT, acts) && FaultFree(acts)
    ensures After(INIT, acts).surplus == multiset{} && After(INIT, acts).returned == multiset{}
  {
    if acts != [] {
      assert acts[|acts| - 1] in acts;
      NothingGoesBack(acts[..|acts| - 1]);
    }
  }

  // Without faults the books close exactly: what arrived is what is queued, in
  // hand, dead-lettered or finished, and each arrival ran at most three times.
  lemma FaultFreeIsExact(acts: seq<Action>, key: Key)
    requires Legal(INIT, acts) && PlainArrivals(acts) && FaultFree(acts)
    ensures var s := After(INIT, acts);
      && s.arrived[key] ==
           Total(Held(key, {Main, Started, Sending, Sent, Failed, Handled}), s.copies) +
        Total(Held(key, {Retry}), s.copies) +
           Total(Held(key, {Dead}), s.copies) + Total(Held(key, {Done}), s.copies)
      && s.runs[key] <= 3 * s.arrived[key]
  {
    NothingGoesBack(acts);
    Conservation(acts, key);
    AtMostThreeRuns(acts, key);
  }

  // ---------- Retry termination ----------

  // Work of the service and the broker without new arrivals and without faults.
  predicate Progress(a: Action) {
    match a
    case Arrive(_, _, _) => false
    case Requeue(_) => false
    case Restart => false
    case PublishCopy(_, outcome) => outcome.Ok?
    case _ => true
  }

  lemma MoveCostsEffort(s: State, a: Action)
    requires Enabled(s, a) && Progress(a)
    ensures var c := s.copies[a.i];
      Reading(Effort, c.(place := Target(s, a))) + ReadingOf(Effort, Added(s, a)) < Reading(Effort, c)
  {
  }

  lemma ProgressCostsEffort(s: State, a: Action)
    requires Enabled(s, a) && Progress(a)
    ensures Total(Effort, Next(s, a).copies) < Total(Effort, s.copies)
  {
    StepTotal(Effort, s, a);
    MoveCostsEffort(s, a);
  }

  lemma {:induction false} RetryTerminates(s: State, acts: seq<Action>)
    requires Legal(s, acts) && forall a | a in acts :: Progress(a)
    ensures |acts| + Total(Effort, After(s, acts).copies) <= Total(Effort, s.copies)
  {
    if acts != [] {
      var front, a := acts[..|acts| - 1], acts[|acts| - 1];
      assert a in acts;
      RetryTerminates(s, front);
      ProgressCostsEffort(After(s, front), a);
    }
  }

  // Nothing queued for another try and nothing in hand: every copy was
  // handled, replaced by a later copy, or dead-lettered.
  ghost predicate Quiet(s: State) {
    forall c | c in s.copies :: c.place in {Done, Replaced, Dead}
  }

  // A next step that does not fail.
  lemma NextWork(s: State) returns (a: Action)
    requires !Quiet(s)
    ensures Enabled(s, a) && Progress(a) && (a.Send? ==> a.outcome.Ok?)
  {
    var c :| c in s.copies && c.place !in {Done, Replaced, Dead};
    var i: nat :| i < |s.copies| && s.copies[i] == c;
    a :=
      match c.place
      case Main => Deliver(i)
      case Retry => Expire(i)
      case Started => Check(i)
      case Sending => Send(i, Ok)
      case Sent => MarkSent(i)
      case Failed => PublishCopy(i, Ok)
      case _ => Ack(i);
  }

  lemma QuietOrProgress(s: State)
    ensures Quiet(s) <==> !exists a :: Progress(a) && Enabled(s, a)
  {
    if !Quiet(s) {
      var a := NextWork(s);
    }
  }

  predicate Succeeds(a: Action) {
    Progress(a) && (a.Send? ==> a.outcome.Ok?)
  }

  // Every state can come to rest without arrivals and without failures.
  lemma {:induction false} Quiesces(start: State, acts: seq<Action>, s: State) returns (more: seq<Action>, end: State)
    requires Leads(start, acts, s) && forall a | a in acts :: Succeeds(a)
    ensures Leads(start, more, end) && Quiet(end) && forall a | a in more :: Succeeds(a)
    decreases Total(Effort, s.copies)
  {
    more, end := acts, s;
    if !Quiet(s) {
      var a := NextWork(s);
      ProgressCostsEffort(s, a);
      more, end := Then(start, acts, s, a);
      more, end := Quiesces(start, more, end);
    }
  }

  // A quiet system has dealt with every message that ever arrived: it was sent,
  // or it lies in the dead-letter queue.
  lemma QuietIsSettled(s: State, key: Key)
    requires Truthful(s) && Conserved(s, key) && Quiet(s) && s.arrived[key] > 0
    ensures HasId(s.sent, key.event.eventId) ||
      exists c | c in s.copies :: KeyOf(c) == key && c.place.Dead?
  {
    NoSilentLoss(s, key);
  }

  // ---------- Duplicate suppression ----------

  // The ids marked during a run, in order.
  ghost function MarkedIds(s: State, acts: seq<Action>): seq<Uuid>
    requires Legal(s, acts)
  {
    if acts == [] then []
    else
      var front, a := acts[..|acts| - 1], acts[|acts| - 1];
      MarkedIds(s, front) + if a.MarkSent? then [After(s, front).copies[a.i].msg.event.eventId] else []
  }

  predicate NoRestart(acts: seq<Action>) {
    Restart !in acts
  }

  lemma MarkAllAppend(seen: seq<Uuid>, ids: seq<Uuid>, id: Uuid)
    ensures MarkAll(seen, ids + [id], MAX_ENTRIES) == Mark(MarkAll(seen, ids, MAX_ENTRIES), id, MAX_ENTRIES)
  {
  }

  lemma {:induction false} StoreFollowsMarks(s: State, acts: seq<Action>)
    requires Legal(s, acts) && NoRestart(acts)
    ensures After(s, acts).store == MarkAll(s.store, MarkedIds(s, acts), MAX_ENTRIES)
  {
    if acts != [] {
      var front, a := acts[..|acts| - 1], acts[|acts| - 1];
      assert a in acts;
      StoreFollowsMarks(s, front);
      var mid, ids := After(s, front), MarkedIds(s, front);
      assert After(s, acts).store == StoreAfter(mid, a);
      if a.MarkSent? {
        MarkAllAppend(s.store, ids, mid.copies[a.i].msg.event.eventId);
      } else {
        assert ids + [] == ids;
      }
    }
  }

  // Once its id was inserted, and until 9999 further marks or a restart, a
  // delivery of the event is recognised and sends nothing, however deliveries overlap.
  lemma DuplicatesAreSuppressed(s: State, i: nat, acts: seq<Action>, m: State, j: nat)
    requires StoreOk(s.store, MAX_ENTRIES) && Enabled(s, MarkSent(i))
    requires s.copies[i].msg.event.eventId !in s.store
    requires Leads(Next(s, MarkSent(i)), acts, m) && NoRestart(acts)
    requires |MarkedIds(Next(s, MarkSent(i)), acts)| <= 9_999
    requires Enabled(m, Check(j)) && m.copies[j].msg.event.eventId == s.copies[i].msg.event.eventId
    ensures Next(m, Check(j)).copies[j].place == Handled && Next(m, Check(j)).sent == m.sent
  {
    var n := Next(s, MarkSent(i));
    StoreFollowsMarks(n, acts);
    FreshSurvives(s.store, s.copies[i].msg.event.eventId, MarkedIds(n, acts), MAX_ENTRIES);
  }
}
