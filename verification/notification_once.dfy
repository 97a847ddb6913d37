// When is every notification sent at most once? The documentation promises it
// in effect; this module gives the exact condition on a duplicate check, and a
// kind of run that meets it.
module NotificationOnce {
  import opened Contracts
  import opened Events
  import opened ProcessedEvents
  import opened Notifications
  import opened NotificationLaws

  function IdAt(s: State, i: nat): Uuid
    requires i < |s.copies|
  {
    s.copies[i].msg.event.eventId
  }

  // Nothing was sent twice, and nothing that was sent is being sent again.
  ghost predicate Clean(s: State) {
    && Distinct(s.sent)
    && (forall i, k | 0 <= i < k < |s.copies| && s.copies[i].place.Sending? && s.copies[k].place.Sending? ::
          IdAt(s, i) != IdAt(s, k))
    && (forall i | 0 <= i < |s.copies| && s.copies[i].place.Sending? :: !HasId(s.sent, IdAt(s, i)))
  }

  // The check finds a mark, or the event was not sent and is not being sent.
  ghost predicate SafeCheck(s: State, i: nat)
    requires i < |s.copies|
  {
    || IdAt(s, i) in s.store
    || (&& !HasId(s.sent, IdAt(s, i))
        && forall k | 0 <= k < |s.copies| && s.copies[k].place.Sending? :: IdAt(s, k) != IdAt(s, i))
  }

  ghost predicate ChecksSafe(s: State, acts: seq<Action>)
    requires Legal(s, acts)
  {
    acts == [] ||
    (var front, a := acts[..|acts| - 1], acts[|acts| - 1];
     ChecksSafe(s, front) && (a.Check? ==> SafeCheck(After(s, front), a.i)))
  }

  // ---------- Safe checks suffice ----------

  lemma SendKeepsClean(s: State, i: nat, outcome: Outcome)
    requires Clean(s) && Enabled(s, Send(i, outcome))
    ensures Clean(Next(s, Send(i, outcome)))
  {
    var n, e := Next(s, Send(i, outcome)), s.copies[i].msg.event;
    forall k | 0 <= k < |n.copies| && n.copies[k].place.Sending? ensures !HasId(n.sent, IdAt(n, k)) {
      assert n.copies[k] == s.copies[k] && IdAt(s, k) != e.eventId;
      assert !HasId(s.sent, IdAt(s, k));
    }
  }

  lemma CheckKeepsClean(s: State, i: nat)
    requires Clean(s) && Enabled(s, Check(i)) && SafeCheck(s, i)
    ensures Clean(Next(s, Check(i)))
  {
  }

  lemma OtherKeepsClean(s: State, a: Action)
    requires Clean(s) && Enabled(s, a) && !a.Send? && !a.Check?
    ensures Clean(Next(s, a))
  {
    var n := Next(s, a);
    assert n.sent == s.sent;
    forall k | 0 <= k < |n.copies| && n.copies[k].place.Sending? ensures k < |s.copies| && n.copies[k] == s.copies[k] {
    }
  }

  lemma StepClean(s: State, a: Action)
    requires Clean(s) && Enabled(s, a) && (a.Check? ==> SafeCheck(s, a.i))
    ensures Clean(Next(s, a))
  {
    if a.Send? {
      SendKeepsClean(s, a.i, a.outcome);
    } else if a.Check? {
      CheckKeepsClean(s, a.i);
    } else {
      OtherKeepsClean(s, a);
    }
  }

  lemma {:induction false} SafeChecksSendOnce(s: State, acts: seq<Action>)
    requires Clean(s) && Legal(s, acts) && ChecksSafe(s, acts)
    ensures Clean(After(s, acts)) && Distinct(After(s, acts).sent)
  {
    if acts != [] {
      var front := acts[..|acts| - 1];
      SafeChecksSendOnce(s, front);
      StepClean(After(s, front), acts[|acts| - 1]);
    }
  }

  // ---------- Unsafe checks break it ----------

  lemma {:induction false} NoChecksAreSafe(s: State, acts: seq<Action>)
    requires Legal(s, acts) && forall a | a in acts :: !a.Check?
    ensures ChecksSafe(s, acts)
  {
    if acts != [] {
      assert acts[|acts| - 1] in acts;
      NoChecksAreSafe(s, acts[..|acts| - 1]);
    }
  }

  lemma SendAgain(s: State, i: nat) returns (acts: seq<Action>)
    requires At(s, i, Sending) && HasId(s.sent, IdAt(s, i))
    ensures Legal(s, acts) && !Distinct(After(s, acts).sent) && acts == [Send(i, Ok)]
  {
    var m;
    acts, m := Then(s, [], s, Send(i, Ok));
    var k :| 0 <= k < |s.sent| && s.sent[k].eventId == IdAt(s, i);
    assert m.sent[k].eventId == m.sent[|s.sent|].eventId;
  }

  lemma SendBoth(s: State, i: nat, k: nat) returns (acts: seq<Action>)
    requires i != k && At(s, i, Sending) && At(s, k, Sending) && IdAt(s, k) == IdAt(s, i)
    ensures Legal(s, acts) && !Distinct(After(s, acts).sent) && acts == [Send(i, Ok), Send(k, Ok)]
  {
    var m, n;
    acts, m := Then(s, [], s, Send(i, Ok));
    CopyAfter(s, Send(i, Ok), k);
    acts, n := Then(s, acts, m, Send(k, Ok));
    assert n.sent[|s.sent|].eventId == n.sent[|s.sent| + 1].eventId;
  }

  // After an unsafe check, sends that all succeed send an event twice.
  lemma UnsafeCheckSendsTwice(s: State, i: nat) returns (acts: seq<Action>)
    requires Enabled(s, Check(i)) && !SafeCheck(s, i)
    ensures var n := Next(s, Check(i));
      Legal(n, acts) && !Distinct(After(n, acts).sent) && forall a | a in acts :: a.Send? && a.outcome.Ok?
  {
    var n := Next(s, Check(i));
    if HasId(s.sent, IdAt(s, i)) {
      acts := SendAgain(n, i);
    } else {
      var k: nat :| k < |s.copies| && s.copies[k].place.Sending? && IdAt(s, k) == IdAt(s, i);
      acts := SendBoth(n, i, k);
    }
  }

  // The exact condition: a check keeps every continuation with safe checks free
  // of repeated notifications, whatever fails or crashes in it, if and only if it
  // is safe at the moment it is made.
  lemma CheckExact(s: State, i: nat)
    requires Clean(s) && Enabled(s, Check(i))
    ensures var n := Next(s, Check(i));
      SafeCheck(s, i) <==> forall acts | Legal(n, acts) && ChecksSafe(n, acts) :: Distinct(After(n, acts).sent)
  {
    var n := Next(s, Check(i));
    if SafeCheck(s, i) {
      CheckKeepsClean(s, i);
      forall acts | Legal(n, acts) && ChecksSafe(n, acts) ensures Distinct(After(n, acts).sent) {
        SafeChecksSendOnce(n, acts);
      }
    } else {
      var acts := UnsafeCheckSendsTwice(s, i);
      NoChecksAreSafe(n, acts);
    }
  }

  // ---------- Single arrivals ----------

  lemma {:induction false} TwoReadings(g: Gauge, copies: seq<Copy>, i: nat, k: nat)
    requires i < k < |copies|
    ensures Reading(g, copies[i]) + Reading(g, copies[k]) <= Total(g, copies)
  {
    var n := |copies| - 1;
    if k < n {
      TwoReadings(g, copies[..n], i, k);
    } else {
      OneReading(g, copies[..n], i);
    }
  }

  lemma {:induction false} OneReading(g: Gauge, copies: seq<Copy>, i: nat)
    requires i < |copies|
    ensures Reading(g, copies[i]) <= Total(g, copies)
  {
    if i < |copies| - 1 {
      OneReading(g, copies[..|copies| - 1], i);
    }
  }

  // Each message arrived once, and messages with one event id are one message.
  ghost predicate SingleArrivals(s: State) {
    && (forall key :: s.arrived[key] <= 1)
    && (forall p, q | p in s.arrived && q in s.arrived && p.event.eventId == q.event.eventId :: p == q)
  }

  // Every event that was sent has a copy past its sending.
  ghost predicate SentByCopies(s: State) {
    forall e | e in s.sent ::
      exists k | 0 <= k < |s.copies| :: s.copies[k].msg.event == e && s.copies[k].place in {Sent, Handled, Done}
  }

  predicate NoLateFailure(a: Action) {
    a.Send? ==> !a.outcome.FailedAfter?
  }

  lemma StepSentByCopies(s: State, a: Action)
    requires Enabled(s, a) && FaultFree([a]) && NoLateFailure(a) && SentByCopies(s)
    ensures SentByCopies(Next(s, a))
  {
    var n := Next(s, a);
    assert a in [a];
    forall e | e in n.sent
      ensures exists k | 0 <= k < |n.copies| :: n.copies[k].msg.event == e && n.copies[k].place in {Sent, Handled, Done}
    {
      var k: nat;
      if e in s.sent {
        k :| k < |s.copies| && s.copies[k].msg.event == e && s.copies[k].place in {Sent, Handled, Done};
      } else {
        k := a.i;
      }
      CopyAfter(s, a, k);
      assert n.copies[k].msg.event == e && n.copies[k].place in {Sent, Handled, Done};
    }
  }

  // Two copies of one message do not both stand.
  lemma OneStands(s: State, i: nat, k: nat)
    requires i != k && i < |s.copies| && k < |s.copies| && KeyOf(s.copies[i]) == KeyOf(s.copies[k])
    requires var key := KeyOf(s.copies[i]); Conserved(s, key) && s.surplus[key] == 0 && s.arrived[key] <= 1
    ensures s.copies[i].place in {Copied, Replaced} || s.copies[k].place in {Copied, Replaced}
  {
    TwoReadings(Standing(KeyOf(s.copies[i])), s.copies, if i < k then i else k, if i < k then k else i);
  }

  // What is being sent was not sent: a second copy of it would have to stand.
  lemma SendingIsNew(s: State, i: nat)
    requires SentByCopies(s) && Truthful(s) && SingleArrivals(s) && At(s, i, Sending)
    requires forall key :: Conserved(s, key) && s.surplus[key] == 0
    ensures !HasId(s.sent, IdAt(s, i))
  {
    if m: nat :| m < |s.sent| && s.sent[m].eventId == IdAt(s, i) {
      var e := s.sent[m];
      assert e in s.sent;
      var k: nat :| k < |s.copies| && s.copies[k].msg.event == e && s.copies[k].place in {Sent, Handled, Done};
      assert s.copies[i] in s.copies && s.copies[k] in s.copies;
      assert KeyOf(s.copies[k]) == KeyOf(s.copies[i]);
      OneStands(s, i, k);
      assert false;
    }
  }

  lemma FaultFreeBooks(acts: seq<Action>)
    requires Legal(INIT, acts) && FaultFree(acts)
    ensures var s := After(INIT, acts);
      Truthful(s) && forall key :: Conserved(s, key) && s.surplus[key] == 0
  {
    MarkedWasSent(acts);
    NothingGoesBack(acts);
    forall key ensures Conserved(After(INIT, acts), key) {
      Conservation(acts, key);
    }
  }

  // The arrivals of a run only grow.
  lemma FewerArrivals(s: State, a: Action)
    requires Enabled(s, a) && SingleArrivals(Next(s, a))
    ensures SingleArrivals(s)
  {
    forall key ensures s.arrived[key] <= Next(s, a).arrived[key] {
      CountedOne(s.arrived, s, a, a.Arrive?, key);
    }
  }

  // If no delivery is handed back, no publish fails and no send fails late, each
  // message that arrives once is sent at most once: whatever overlaps, and even
  // if the store evicts or is lost.
  lemma {:induction false} SingleArrivalsSendOnce(acts: seq<Action>)
    requires Legal(INIT, acts) && FaultFree(acts) && forall a | a in acts :: NoLateFailure(a)
    requires SingleArrivals(After(INIT, acts))
    ensures Distinct(After(INIT, acts).sent) && SentByCopies(After(INIT, acts))
  {
    if acts != [] {
      var front, s, a := LastStep(INIT, acts, After(INIT, acts));
      FewerArrivals(s, a);
      SingleArrivalsSendOnce(front);
      StepSentByCopies(s, a);
      if a.Send? {
        FaultFreeBooks(front);
        SendingIsNew(s, a.i);
        StaysDistinct(s.sent, s.copies[a.i].msg.event);
      }
    }
  }

  lemma StaysDistinct(sent: seq<Event>, e: Event)
    requires Distinct(sent) && !HasId(sent, e.eventId)
    ensures Distinct(sent + [e])
  {
  }

  // ---------- Calm runs ----------

  // A step under which each event goes out at most once: its deliveries do not
  // overlap, none is handed back while in hand, no send fails after it took
  // effect, and the store neither evicts nor is lost.
  ghost predicate Calm(s: State, a: Action)
    requires Enabled(s, a)
  {
    match a
    case Deliver(i) => forall k | 0 <= k < |s.copies| && InHand(s.copies[k].place) ::
      s.copies[k].msg.event.eventId != s.copies[i].msg.event.eventId
    case Send(_, outcome) => !outcome.FailedAfter?
    case MarkSent(_) => |s.store| < 10_000
    case Requeue(_) => false
    case Restart => false
    case _ => true
  }

  ghost predicate AllCalm(s: State, acts: seq<Action>)
    requires Legal(s, acts)
  {
    acts == [] ||
    (var front, a := acts[..|acts| - 1], acts[|acts| - 1];
     AllCalm(s, front) && Calm(After(s, front), a))
  }

  // Deliveries in hand are of different events.
  ghost predicate Apart(copies: seq<Copy>) {
    forall i, k | 0 <= i < k < |copies| && InHand(copies[i].place) && InHand(copies[k].place) ::
      copies[i].msg.event.eventId != copies[k].msg.event.eventId
  }

  // What was sent is marked, or about to be; what is being sent was not sent yet.
  ghost predicate Once(s: State) {
    && Distinct(s.sent)
    && Apart(s.copies)
    && (forall c | c in s.copies && c.place.Sending? :: !HasId(s.sent, c.msg.event.eventId))
    && (forall e | e in s.sent ::
          e.eventId in s.store ||
          exists i | 0 <= i < |s.copies| :: s.copies[i].place.Sent? && s.copies[i].msg.event.eventId == e.eventId)
  }

  lemma StepApart(s: State, a: Action)
    requires Enabled(s, a) && Calm(s, a) && Apart(s.copies)
    ensures Apart(Next(s, a).copies)
  {
    var n := Next(s, a).copies;
    forall i: nat, k: nat | i < k < |n| && InHand(n[i].place) && InHand(n[k].place)
      ensures n[i].msg.event.eventId != n[k].msg.event.eventId
    {
      CopyAfter(s, a, i);
      CopyAfter(s, a, k);
    }
  }

  // A copy about to be sent was not sent before.
  lemma CheckedIsNew(s: State, i: nat)
    requires Once(s) && Enabled(s, Check(i)) && IdAt(s, i) !in s.store
    ensures !HasId(s.sent, IdAt(s, i))
  {
    assert forall m | 0 <= m < |s.copies| && s.copies[m].place.Sent? :: IdAt(s, m) != IdAt(s, i);
    forall k | 0 <= k < |s.sent| ensures s.sent[k].eventId != IdAt(s, i) {
      assert s.sent[k] in s.sent;
    }
  }

  lemma StepSending(s: State, a: Action)
    requires Enabled(s, a) && Calm(s, a) && Once(s)
    ensures forall i | 0 <= i < |Next(s, a).copies| && Next(s, a).copies[i].place.Sending? ::
      !HasId(Next(s, a).sent, IdAt(Next(s, a), i))
  {
    var n := Next(s, a);
    forall i | 0 <= i < |n.copies| && n.copies[i].place.Sending? ensures !HasId(n.sent, IdAt(n, i)) {
      assert i < |s.copies| && n.copies[i].msg == s.copies[i].msg;
      if a == Check(i) {
        CheckedIsNew(s, i);
      } else {
        assert s.copies[i] == n.copies[i] && s.copies[i] in s.copies;
        if a.Send? {
          assert IdAt(s, a.i) != IdAt(s, i);
        }
      }
    }
  }

  lemma MarkedStay(s: State, a: Action, id: Uuid)
    requires Enabled(s, a) && Calm(s, a) && id in s.store
    ensures id in Next(s, a).store
  {
  }

  lemma StepSent(s: State, a: Action, e: Event)
    requires Enabled(s, a) && Calm(s, a) && Once(s) && e in Next(s, a).sent
    ensures var n := Next(s, a);
      e.eventId in n.store ||
      exists i | 0 <= i < |n.copies| :: n.copies[i].place.Sent? && n.copies[i].msg.event.eventId == e.eventId
  {
    var n := Next(s, a);
    if e !in s.sent {
      CopyAfter(s, a, a.i);
      assert n.copies[a.i].place.Sent? && n.copies[a.i].msg.event == e;
    } else if e.eventId in s.store {
      MarkedStay(s, a, e.eventId);
    } else {
      var i: nat :| i < |s.copies| && s.copies[i].place.Sent? && s.copies[i].msg.event.eventId == e.eventId;
      CopyAfter(s, a, i);
      assert a != MarkSent(i) ==> n.copies[i] == s.copies[i];
    }
  }

  lemma StepOnce(s: State, a: Action)
    requires Enabled(s, a) && Calm(s, a) && Once(s)
    ensures Once(Next(s, a))
  {
    var n := Next(s, a);
    StepApart(s, a);
    StepSending(s, a);
    forall c | c in n.copies && c.place.Sending? ensures !HasId(n.sent, c.msg.event.eventId) {
      var i :| 0 <= i < |n.copies| && n.copies[i] == c;
    }
    forall e | e in n.sent
      ensures e.eventId in n.store ||
        exists i | 0 <= i < |n.copies| :: n.copies[i].place.Sent? && n.copies[i].msg.event.eventId == e.eventId
    {
      StepSent(s, a, e);
    }
    if a.Send? {
      assert s.copies[a.i] in s.copies;
    }
  }

  // In a calm run every check is safe, so every event is sent at most once.
  lemma {:induction false} CalmSendsOnce(acts: seq<Action>)
    requires Legal(INIT, acts) && AllCalm(INIT, acts)
    ensures Once(After(INIT, acts)) && ChecksSafe(INIT, acts) && Distinct(After(INIT, acts).sent)
  {
    if acts != [] {
      var front, a := acts[..|acts| - 1], acts[|acts| - 1];
      CalmSendsOnce(front);
      StepOnce(After(INIT, front), a);
      if a.Check? {
        CalmCheckIsSafe(After(INIT, front), a.i);
      }
    }
  }

  lemma CalmCheckIsSafe(s: State, i: nat)
    requires Once(s) && Enabled(s, Check(i))
    ensures SafeCheck(s, i)
  {
    if IdAt(s, i) !in s.store {
      CheckedIsNew(s, i);
      assert forall k | 0 <= k < |s.copies| && s.copies[k].place.Sending? :: IdAt(s, k) != IdAt(s, i);
    }
  }
}
