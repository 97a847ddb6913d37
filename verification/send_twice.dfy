// How the pipeline comes to notify somebody twice. Each run below starts from
// nothing and has a single fault.
module SendTwice {
  import opened Contracts
  import W = WorkOrders
  import R = RelayProtocol
  import N = Notifications
  import opened Pipeline

  function CreatedRow(dto: W.NewOrder, env: W.Env): OutboxRow {
    OutboxRow(env.rowId, W.Envelope(CreatedEvent, W.NewRow(dto, env), env))
  }

  function Arrived(e: Event): N.Copy {
    N.Copy(N.Message(N.CreatedQueue, e, N.Missing), N.Main)
  }

  // One created event is in the outbox, and the relay is idle.
  ghost predicate Staged(s: System, row: OutboxRow) {
    && s.db.outbox == [row] == s.relay.rows && row.event.kind == CreatedEvent
    && s.relay.done == {} && s.relay.ticks == map[]
    && s.notes.store == [] && s.notes.sent == []
  }

  lemma Stage(dto: W.NewOrder, env: W.Env) returns (acts: seq<Action>, s: System)
    requires W.Commits(env)
    ensures Leads(acts, s) && Staged(s, CreatedRow(dto, env)) && s.notes == N.INIT && s.relay.aborted == []
    ensures acts == [UserCall(W.Create(dto), env)]
  {
    acts, s := Then([], INIT, UserCall(W.Create(dto), env));
  }

  lemma ClaimRow(acts: seq<Action>, s: System, row: OutboxRow) returns (more: seq<Action>, next: System)
    requires Leads(acts, s) && Staged(s, row)
    ensures Leads(more, next) && more == acts + [Relay(R.Claim(0, [row]))]
    ensures next == s.(relay := s.relay.(ticks := map[0 := R.Tick([row], 0, 0, 0)]))
  {
    assert R.IsLowest(s.relay, [row]);
    more, next := Then(acts, s, Relay(R.Claim(0, [row])));
  }

  // The relay claims the row and publishes it.
  lemma Publish(acts: seq<Action>, s: System, row: OutboxRow) returns (more: seq<Action>, next: System)
    requires Leads(acts, s) && Staged(s, row)
    ensures Leads(more, next) && more == acts + [Relay(R.Claim(0, [row])), Relay(R.Publish(0, Ok))]
    ensures next.notes.copies == s.notes.copies + [Arrived(row.event)]
    ensures next.notes.store == [] && next.notes.sent == []
    ensures next.db == s.db && next.relay.rows == s.relay.rows && next.relay.done == {}
    ensures next.relay.ticks == map[0 := R.Tick([row], 1, 0, 0)] && next.relay.aborted == s.relay.aborted
  {
    more, next := ClaimRow(acts, s, row);
    more, next := PublishClaimed(more, next, row);
  }

  lemma PublishClaimed(acts: seq<Action>, s: System, row: OutboxRow) returns (more: seq<Action>, next: System)
    requires Leads(acts, s) && row.event.kind == CreatedEvent && s.relay.ticks == map[0 := R.Tick([row], 0, 0, 0)]
    ensures Leads(more, next) && more == acts + [Relay(R.Publish(0, Ok))] && next.db == s.db
    ensures next.relay == s.relay.(ticks := map[0 := R.Tick([row], 1, 0, 0)],
                                   rabbit := s.relay.rabbit + [row.event],
                                   publishCalls := s.relay.publishCalls + multiset{row})
    ensures next.notes.copies == s.notes.copies + [Arrived(row.event)]
    ensures next.notes.store == s.notes.store && next.notes.sent == s.notes.sent
  {
    more, next := Then(acts, s, Relay(R.Publish(0, Ok)));
  }

  // Its tick stops before the Kafka call, and the row is free again.
  lemma Stop(acts: seq<Action>, s: System, row: OutboxRow) returns (more: seq<Action>, next: System)
    requires Leads(acts, s) && s.db.outbox == [row] == s.relay.rows && row.event.kind == CreatedEvent
    requires s.relay.done == {} && s.relay.ticks == map[0 := R.Tick([row], 1, 0, 0)]
    requires s.notes.store == [] && s.notes.sent == []
    ensures Leads(more, next) && more == acts + [Relay(R.Abort(0))]
    ensures Staged(next, row) && next.notes == s.notes && |next.relay.aborted| == |s.relay.aborted| + 1
  {
    more, next := Then(acts, s, Relay(R.Abort(0)));
  }

  // ---------- Overlap ----------

  lemma DeliverAndCheck(start: N.State, acts: seq<N.Action>, s: N.State, i: nat)
      returns (more: seq<N.Action>, end: N.State)
    requires N.Leads(start, acts, s) && N.At(s, i, N.Main) && s.copies[i].msg.event.eventId !in s.store
    ensures N.Leads(start, more, end) && more == acts + [N.Deliver(i), N.Check(i)]
    ensures end.store == s.store && end.sent == s.sent
    ensures end.copies == s.copies[i := s.copies[i].(place := N.Sending)]
  {
    more, end := N.Then(start, acts, s, N.Deliver(i));
    more, end := N.Then(start, more, end, N.Check(i));
  }

  lemma SendIt(start: N.State, acts: seq<N.Action>, s: N.State, i: nat)
      returns (more: seq<N.Action>, end: N.State)
    requires N.Leads(start, acts, s) && N.At(s, i, N.Sending)
    ensures N.Leads(start, more, end) && more == acts + [N.Send(i, Ok)]
    ensures end.store == s.store && end.sent == s.sent + [s.copies[i].msg.event]
    ensures end.copies == s.copies[i := s.copies[i].(place := N.Sent)]
  {
    more, end := N.Then(start, acts, s, N.Send(i, Ok));
  }

  const OVERLAP: seq<N.Action> :=
    [N.Deliver(0), N.Check(0), N.Deliver(1), N.Check(1), N.Send(0, Ok), N.Send(1, Ok)]

  // Both deliveries pass the check before either is marked.
  lemma BothCheck(s: N.State, e: Event) returns (acts: seq<N.Action>, end: N.State)
    requires s.copies == [Arrived(e), Arrived(e)] && s.store == [] && s.sent == []
    ensures N.Leads(s, acts, end) && acts == OVERLAP[..4] && end.sent == []
    ensures end.copies == [Arrived(e).(place := N.Sending), Arrived(e).(place := N.Sending)]
  {
    acts, end := DeliverAndCheck(s, [], s, 0);
    acts, end := DeliverAndCheck(s, acts, end, 1);
  }

  lemma SendBoth(start: N.State, acts: seq<N.Action>, s: N.State) returns (more: seq<N.Action>, end: N.State)
    requires N.Leads(start, acts, s) && N.At(s, 0, N.Sending) && N.At(s, 1, N.Sending)
    ensures N.Leads(start, more, end) && more == acts + [N.Send(0, Ok), N.Send(1, Ok)]
    ensures end.sent == s.sent + [s.copies[0].msg.event, s.copies[1].msg.event]
  {
    more, end := SendIt(start, acts, s, 0);
    more, end := SendIt(start, more, end, 1);
  }

  lemma BothSend(s: N.State, e: Event) returns (end: N.State)
    requires s.copies == [Arrived(e), Arrived(e)] && s.store == [] && s.sent == []
    ensures N.Leads(s, OVERLAP, end) && end.sent == [e, e]
  {
    var acts, mid := BothCheck(s, e);
    acts, end := SendBoth(s, acts, mid);
    assert acts == OVERLAP;
  }

  // The relay's first try ends before the Kafka call.
  lemma PublishAndStop(acts: seq<Action>, s: System, row: OutboxRow) returns (more: seq<Action>, next: System)
    requires Leads(acts, s) && Staged(s, row) && s.relay.aborted == [] && s.notes.copies == []
    ensures Leads(more, next) && |next.relay.aborted| == 1
    ensures more == acts + [Relay(R.Claim(0, [row])), Relay(R.Publish(0, Ok)), Relay(R.Abort(0))]
    ensures Staged(next, row) && next.notes.copies == [Arrived(row.event)]
  {
    more, next := Publish(acts, s, row);
    more, next := Stop(more, next, row);
  }

  // One try that stops, and another one.
  function TwoTries(dto: W.NewOrder, env: W.Env): seq<Action> {
    var row := CreatedRow(dto, env);
    [UserCall(W.Create(dto), env), Relay(R.Claim(0, [row])), Relay(R.Publish(0, Ok)), Relay(R.Abort(0)),
     Relay(R.Claim(0, [row])), Relay(R.Publish(0, Ok))]
  }

  lemma PublishTwice(dto: W.NewOrder, env: W.Env) returns (s: System)
    requires W.Commits(env)
    ensures Leads(TwoTries(dto, env), s) && s.notes.store == [] && s.notes.sent == []
    ensures var e := CreatedRow(dto, env).event; s.notes.copies == [Arrived(e), Arrived(e)]
  {
    var acts;
    acts, s := Stage(dto, env);
    acts, s := PublishAndStop(acts, s, CreatedRow(dto, env));
    acts, s := Publish(acts, s, CreatedRow(dto, env));
    assert acts == TwoTries(dto, env);
  }

  // One relay, whose tick stops once between its two calls: the event is
  // published twice, the two deliveries overlap, and both notify. This is the run.
  lemma OverlapSendsTwice(dto: W.NewOrder, env: W.Env) returns (s: System)
    requires W.Commits(env)
    ensures Leads(TwoTries(dto, env) + NotifierSteps(OVERLAP), s)
    ensures s.notes.sent == [CreatedRow(dto, env).event, CreatedRow(dto, env).event]
  {
    s := PublishTwice(dto, env);
    var end := BothSend(s.notes, CreatedRow(dto, env).event);
    NotifierRunLifts(TwoTries(dto, env), s, OVERLAP, end);
    s := s.(notes := end);
  }

  // ---------- Restart ----------

  const FORGETTING: seq<N.Action> :=
    [N.Deliver(0), N.Check(0), N.Send(0, Ok), N.Restart, N.Requeue(0), N.Deliver(0), N.Check(0), N.Send(0, Ok)]

  // The process restarts, and the message in hand is handed out again.
  lemma Forget(start: N.State, acts: seq<N.Action>, s: N.State) returns (more: seq<N.Action>, end: N.State)
    requires N.Leads(start, acts, s) && N.At(s, 0, N.Sent)
    ensures N.Leads(start, more, end) && more == acts + [N.Restart, N.Requeue(0)]
    ensures end.store == [] && end.sent == s.sent
    ensures end.copies == s.copies[0 := s.copies[0].(place := N.Main)]
  {
    more, end := N.Then(start, acts, s, N.Restart);
    more, end := N.Then(start, more, end, N.Requeue(0));
  }

  lemma CheckAndSend(start: N.State, acts: seq<N.Action>, s: N.State, e: Event)
      returns (more: seq<N.Action>, end: N.State)
    requires N.Leads(start, acts, s) && s.copies == [Arrived(e)] && s.store == []
    ensures N.Leads(start, more, end) && more == acts + [N.Deliver(0), N.Check(0), N.Send(0, Ok)]
    ensures end.sent == s.sent + [e] && end.copies == [Arrived(e).(place := N.Sent)]
  {
    more, end := DeliverAndCheck(start, acts, s, 0);
    more, end := SendIt(start, more, end, 0);
  }

  lemma SendAndForget(s: N.State, e: Event) returns (acts: seq<N.Action>, end: N.State)
    requires s.copies == [Arrived(e)] && s.store == [] && s.sent == []
    ensures N.Leads(s, acts, end) && acts == FORGETTING[..5]
    ensures end.copies == [Arrived(e)] && end.store == [] && end.sent == [e]
  {
    acts, end := CheckAndSend(s, [], s, e);
    acts, end := Forget(s, acts, end);
  }

  lemma SendForgetSend(s: N.State, e: Event) returns (end: N.State)
    requires s.copies == [Arrived(e)] && s.store == [] && s.sent == []
    ensures N.Leads(s, FORGETTING, end) && end.sent == [e, e]
  {
    var acts, mid := SendAndForget(s, e);
    acts, end := CheckAndSend(s, acts, mid, e);
    assert acts == FORGETTING;
  }

  function OneTry(dto: W.NewOrder, env: W.Env): seq<Action> {
    [UserCall(W.Create(dto), env), Relay(R.Claim(0, [CreatedRow(dto, env)])), Relay(R.Publish(0, Ok))]
  }

  lemma PublishOnce(dto: W.NewOrder, env: W.Env) returns (s: System)
    requires W.Commits(env)
    ensures Leads(OneTry(dto, env), s) && s.notes.store == [] && s.notes.sent == []
    ensures s.notes.copies == [Arrived(CreatedRow(dto, env).event)]
  {
    var acts;
    acts, s := Stage(dto, env);
    acts, s := Publish(acts, s, CreatedRow(dto, env));
    assert acts == OneTry(dto, env);
  }

  // The event is published once, and the notifications service restarts between
  // sending and marking: the message is handed out again and notifies again.
  lemma RestartSendsTwice(dto: W.NewOrder, env: W.Env) returns (s: System)
    requires W.Commits(env)
    ensures Leads(OneTry(dto, env) + NotifierSteps(FORGETTING), s)
    ensures s.notes.sent == [CreatedRow(dto, env).event, CreatedRow(dto, env).event]
  {
    s := PublishOnce(dto, env);
    var end := SendForgetSend(s.notes, CreatedRow(dto, env).event);
    NotifierRunLifts(OneTry(dto, env), s, FORGETTING, end);
    s := s.(notes := end);
  }
}
