// From every reachable state the pipeline can come to rest without new calls and
// without failures: everything is published, recorded, projected and either sent
// or dead-lettered.
module PipelineProgress {
  import opened Contracts
  import opened Events
  import opened Pipeline
  import W = WorkOrders
  import R = RelayProtocol
  import O = RelayOrder
  import D = RelayProgress
  import A = Audit
  import N = Notifications
  import L = NotificationLaws

  // A step of the pipeline's own, in which nothing fails.
  predicate Works(a: Action) {
    match a
    case UserCall(_, _) => false
    case TriageDelivery(_, _, _) => false
    case Relay(r) => D.Works(r)
    case Consumer(c) => c == A.Handle(Ok)
    case Notifier(n) => L.Succeeds(n)
  }

  // `all` continues `acts`, without failures, and its claims are safe if those
  // of `acts` are.
  ghost predicate Continues(acts: seq<Action>, all: seq<Action>) {
    && Legal(acts) && Legal(all) && acts <= all
    && (forall a | a in all[|acts|..] :: Works(a))
    && (ClaimsSafe(acts) ==> ClaimsSafe(all))
  }

  lemma Transitive(a: seq<Action>, b: seq<Action>, c: seq<Action>)
    requires Continues(a, b) && Continues(b, c)
    ensures Continues(a, c)
  {
    assert c[|a|..] == b[|a|..] + c[|b|..];
  }

  lemma Go(acts: seq<Action>, s: System, a: Action) returns (all: seq<Action>, next: System)
    requires Leads(acts, s) && Enabled(s, a) && Works(a)
    requires a.Relay? && a.relay.Claim? ==> O.SafeClaim(s.relay, a.relay.batch)
    ensures Leads(all, next) && next == Next(s, a) && Continues(acts, all)
  {
    all, next := Then(acts, s, a);
    assert all[..|acts|] == acts && all[|acts|..] == [a];
  }

  // ---------- The relays drain ----------

  lemma RelayGoes(acts: seq<Action>, s: System, r: R.Action) returns (all: seq<Action>, next: System)
    requires Leads(acts, s) && R.Enabled(s.relay, r) && D.Works(r)
    requires r.Claim? ==> O.SafeClaim(s.relay, r.batch)
    ensures Leads(all, next) && Continues(acts, all)
    ensures next.relay == R.Next(s.relay, r) && next.db == s.db && next.audit == s.audit
  {
    all, next := Go(acts, s, Relay(r));
  }

  lemma {:induction false} RelayRunLifts(acts: seq<Action>, s: System, relay: seq<R.Action>, end: R.State)
      returns (all: seq<Action>, next: System)
    requires Leads(acts, s) && R.Leads(s.relay, relay, end)
    requires O.ClaimsSafe(s.relay, relay) && forall r | r in relay :: D.Works(r)
    ensures Leads(all, next) && Continues(acts, all)
    ensures next.relay == end && next.db == s.db && next.audit == s.audit
    decreases |relay|
  {
    all, next := acts, s;
    if relay != [] {
      var front, before, last := R.LastStep(s.relay, relay, end);
      assert relay[..|relay| - 1] == front && last in relay;
      all, next := RelayRunLifts(acts, s, front, before);
      var mid := all;
      all, next := RelayGoes(all, next, last);
      Transitive(acts, mid, all);
    }
  }

  // ---------- The audit consumer catches up ----------

  lemma {:induction false} ConsumerCatchesUp(acts: seq<Action>, s: System)
      returns (all: seq<Action>, next: System)
    requires Leads(acts, s) && A.Inv(s.audit, s.relay.log)
    ensures Leads(all, next) && Continues(acts, all)
    ensures next.audit.high == |next.relay.log| && next.relay == s.relay && next.db == s.db
    decreases |s.relay.log| - s.audit.position
  {
    all, next := acts, s;
    if s.audit.position < |s.relay.log| {
      A.StepKeeps(s.audit, s.relay.log, A.Handle(Ok));
      all, next := Go(acts, s, Consumer(A.Handle(Ok)));
      var mid := all;
      all, next := ConsumerCatchesUp(all, next);
      Transitive(acts, mid, all);
    }
  }

  // ---------- The notification side comes to rest ----------

  lemma NotifierStepsWork(notes: seq<N.Action>)
    requires forall n | n in notes :: L.Succeeds(n)
    ensures forall a | a in NotifierSteps(notes) :: Works(a) && !a.Relay?
  {
    forall a | a in NotifierSteps(notes) ensures Works(a) && !a.Relay? {
      var i :| 0 <= i < |notes| && NotifierSteps(notes)[i] == a;
      assert notes[i] in notes;
    }
  }

  lemma {:induction false} OthersKeepClaimsSafe(acts: seq<Action>, more: seq<Action>)
    requires Legal(acts) && Legal(acts + more) && ClaimsSafe(acts) && forall a | a in more :: !a.Relay?
    ensures ClaimsSafe(acts + more)
  {
    if more == [] {
      assert acts + more == acts;
    } else {
      var front, last := more[..|more| - 1], more[|more| - 1];
      assert (acts + more)[..|acts + more| - 1] == acts + front && last in more;
      OthersKeepClaimsSafe(acts, front);
    }
  }

  lemma NotifiersRest(acts: seq<Action>, s: System) returns (all: seq<Action>, next: System)
    requires Leads(acts, s)
    ensures Leads(all, next) && Continues(acts, all)
    ensures L.Quiet(next.notes) && next.relay == s.relay && next.audit == s.audit && next.db == s.db
  {
    var notes, end := L.Quiesces(s.notes, [], s.notes);
    NotifierRunLifts(acts, s, notes, end);
    NotifierStepsWork(notes);
    all, next := acts + NotifierSteps(notes), s.(notes := end);
    assert all[|acts|..] == NotifierSteps(notes);
    if ClaimsSafe(acts) {
      OthersKeepClaimsSafe(acts, NotifierSteps(notes));
    }
  }

  // ---------- The whole ----------

  ghost predicate AtRest(s: System) {
    CaughtUp(s) && L.Quiet(s.notes)
  }

  lemma ComesToRest(acts: seq<Action>) returns (all: seq<Action>, end: System)
    requires Legal(acts)
    ensures Leads(all, end) && Continues(acts, all)
    ensures AtRest(end) && end.db == After(acts).db
  {
    EveryRun(acts);
    var s := After(acts);
    var relay, drained := D.CanDrain(s.relay);
    all, end := RelayRunLifts(acts, s, relay, drained);
    var one := all;
    EveryRun(one);
    all, end := ConsumerCatchesUp(one, end);
    var two := all;
    Transitive(acts, one, two);
    all, end := NotifiersRest(two, end);
    Transitive(acts, two, all);
  }

  // The event was sent, or its copy lies in the dead-letter queue of its consumer.
  ghost predicate Settled(s: System, e: Event)
    requires e.kind in {CreatedEvent, CompletedEvent}
  {
    HasId(s.notes.sent, e.eventId) ||
    exists c | c in s.notes.copies :: N.KeyOf(c) == KeyFor(e) && c.place == N.Dead
  }

  // At rest every created or completed event was sent, or waits in a dead-letter queue.
  lemma RestIsSettled(s: System, row: OutboxRow)
    requires Inv(s) && AtRest(s) && row in s.db.outbox && row.event.kind in {CreatedEvent, CompletedEvent}
    ensures Settled(s, row.event)
  {
    var key := KeyFor(row.event);
    assert row.event in s.relay.rabbit && key in s.notes.arrived;
    assert L.Conserved(s.notes, key);
    L.QuietIsSettled(s.notes, key);
  }

  // The trail is the whole history and ends in the snapshot of the row.
  ghost predicate TrailComplete(s: System, id: Uuid) {
    var trail := Trail(s, id);
    && trail == W.History(s.db, id) && (id in s.db.orders <==> trail != [])
    && (id in s.db.orders ==> trail[|trail| - 1].data == W.Snapshot(s.db.orders[id]))
  }

  lemma RestIsComplete(acts: seq<Action>, s: System, id: Uuid)
    requires Leads(acts, s) && ClaimsSafe(acts) && AtRest(s)
    ensures TrailComplete(s, id)
  {
    CaughtUpAgrees(acts, s, id);
  }

  // Whatever happened so far, the calls made up to now can still be carried
  // through: each notification is sent or parked for inspection, and if the claims
  // so far were safe, each order's trail becomes its whole history.
  lemma EverythingArrives(acts: seq<Action>) returns (all: seq<Action>, s: System)
    requires Legal(acts)
    ensures Continues(acts, all) && Leads(all, s) && s.db == After(acts).db
    ensures forall row | row in s.db.outbox && row.event.kind in {CreatedEvent, CompletedEvent} ::
      Settled(s, row.event)
    ensures ClaimsSafe(acts) ==> forall id :: TrailComplete(s, id)
  {
    all, s := ComesToRest(acts);
    EveryRun(all);
    forall row | row in s.db.outbox && row.event.kind in {CreatedEvent, CompletedEvent}
      ensures Settled(s, row.event)
    {
      RestIsSettled(s, row);
    }
    if ClaimsSafe(acts) {
      forall id ensures TrailComplete(s, id) {
        RestIsComplete(all, s, id);
      }
    }
  }
}
