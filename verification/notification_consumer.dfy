// WorkOrderEventsConsumer and EventRetryHandler as code. Other deliveries may
// run at every await; the handler still only takes steps of the protocol, and
// undisturbed it takes exactly one script of them.
module NotificationConsumer {
  import opened Contracts
  import opened ProcessedEvents
  import opened Notifications

  // One more step of a run.
  lemma ThenStep(start: State, acts: seq<Action>, now: State, a: Action)
    requires Leads(start, acts, now) && Enabled(now, a)
    ensures Leads(start, acts + [a], Next(now, a))
  {
    var more, end := Then(start, acts, now, a);
  }

  // Steps of others leave a delivery in hand alone.
  predicate Elsewhere(acts: seq<Action>, i: nat) {
    forall a | a in acts && OnCopy(a) :: a.i != i
  }

  lemma StepLeavesMine(s: State, a: Action, i: nat)
    requires Enabled(s, a) && (OnCopy(a) ==> a.i != i) && i < |s.copies|
    ensures i < |Next(s, a).copies| && Next(s, a).copies[i] == s.copies[i]
  {
  }

  lemma {:induction false} OthersLeaveMine(s: State, acts: seq<Action>, i: nat)
    requires Legal(s, acts) && Elsewhere(acts, i) && i < |s.copies|
    ensures i < |After(s, acts).copies| && After(s, acts).copies[i] == s.copies[i]
  {
    if acts != [] {
      var front, a := acts[..|acts| - 1], acts[|acts| - 1];
      assert a in acts;
      OthersLeaveMine(s, front, i);
      StepLeavesMine(After(s, front), a, i);
    }
  }

  lemma {:induction false} StoreStaysOk(s: State, acts: seq<Action>)
    requires Legal(s, acts) && StoreOk(s.store, MAX_ENTRIES)
    ensures StoreOk(After(s, acts).store, MAX_ENTRIES)
  {
    if acts != [] {
      var front, a := acts[..|acts| - 1], acts[|acts| - 1];
      StoreStaysOk(s, front);
      if a.MarkSent? {
        MarkKeeps(After(s, front).store, After(s, front).copies[a.i].msg.event.eventId, MAX_ENTRIES);
      }
    }
  }

  // What one undisturbed delivery does, by how its send and its publish end.
  function SendingIt(i: nat, send: Outcome): seq<Action> {
    if send.Ok? then [Send(i, send), MarkSent(i)] else [Send(i, send)]
  }

  function Notifying(i: nat, duplicate: bool, send: Outcome): seq<Action> {
    [Check(i)] + if duplicate then [] else SendingIt(i, send)
  }

  function Rescuing(i: nat, send: Outcome, publish: Outcome): seq<Action> {
    if send.Ok? then [] else [PublishCopy(i, publish)]
  }

  function Script(s: State, i: nat, send: Outcome, publish: Outcome): seq<Action>
    requires i < |s.copies|
  {
    [Deliver(i)] + Notifying(i, s.copies[i].msg.event.eventId in s.store, send) + Rescuing(i, send, publish) +
    if send.Ok? || publish.Ok? then [Ack(i)] else []
  }

  lemma Regroup(a: seq<Action>, b: seq<Action>, c: seq<Action>)
    ensures (a + b) + c == a + (b + c)
  {
  }

  lemma CopyGoesTo(s: State, i: nat, outcome: Outcome, copy: Copy)
    requires At(s, i, Failed) && copy == NextCopy(s.copies[i].msg)
    ensures var moved := s.copies[i := s.copies[i].(place := if outcome.Ok? then Copied else Main)];
      CopiesAfter(s, PublishCopy(i, outcome)) == if outcome.FailedBefore? then moved else moved + [copy]
  {
  }

  lemma NextIs(s: State, a: Action, n: State)
    requires Enabled(s, a) && a.PublishCopy?
    requires n.copies == CopiesAfter(s, a)
    requires n.store == s.store && n.sent == s.sent && n.arrived == s.arrived && n.runs == s.runs
    requires n.returned == s.returned + if a.outcome.Ok? then multiset{} else multiset{KeyOf(s.copies[a.i])}
    requires n.surplus == s.surplus + if a.outcome.FailedAfter? then multiset{KeyOf(s.copies[a.i])} else multiset{}
    ensures n == Next(s, a)
  {
  }

  // How the sender answers, and how the publish of a copy ends, if they are called.
  datatype Answers = Answers(send: Outcome, publish: Outcome)

  // What one delivery does while nobody else is at work: whom it notifies, what it
  // marks, and where the message is left.
  ghost predicate Undisturbed(o: State, n: State, i: nat, how: Answers)
    requires i < |o.copies|
  {
    var c := o.copies[i];
    var id := c.msg.event.eventId;
    var attempt := if c.msg.header.Number? then c.msg.header.n else 1;
    if id in o.store then
      n.sent == o.sent && n.store == o.store && n.copies == o.copies[i := c.(place := Done)]
    else if how.send == Ok then
      && n.sent == o.sent + [c.msg.event] && id in n.store && n.copies == o.copies[i := c.(place := Done)]
      && (|o.store| < 10_000 ==> n.store == o.store + [id])
    else
      && n.sent == o.sent + (if how.send == FailedBefore then [] else [c.msg.event]) && n.store == o.store
      && n.copies == o.copies[i := c.(place := if how.publish == Ok then Replaced else Main)] +
           if how.publish == FailedBefore then []
           else if attempt < 3 then [Copy(c.msg.(header := Number(attempt + 1)), Retry)]
           else [Copy(c.msg.(header := Number(attempt)), Dead)]
  }

  lemma Checked(o: State, i: nat) returns (acts: seq<Action>, s: State)
    requires At(o, i, Main)
    ensures Leads(o, acts, s) && acts == [Deliver(i), Check(i)] && s.store == o.store && s.sent == o.sent
    ensures var c := o.copies[i];
      s.copies == o.copies[i := c.(place := if c.msg.event.eventId in o.store then Handled else Sending)]
  {
    acts, s := Then(o, [], o, Deliver(i));
    acts, s := Then(o, acts, s, Check(i));
  }

  lemma Acked(o: State, acts: seq<Action>, s: State, i: nat) returns (more: seq<Action>, n: State)
    requires Leads(o, acts, s) && (At(s, i, Handled) || At(s, i, Copied))
    ensures Leads(o, more, n) && more == acts + [Ack(i)] && n.store == s.store && n.sent == s.sent
    ensures n.copies ==
      s.copies[i := s.copies[i].(place := if s.copies[i].place == Handled then Done else Replaced)]
  {
    more, n := Then(o, acts, s, Ack(i));
  }

  lemma Answered(o: State, acts: seq<Action>, s: State, i: nat, send: Outcome) returns (more: seq<Action>, n: State)
    requires Leads(o, acts, s) && At(s, i, Sending)
    ensures Leads(o, more, n) && more == acts + [Send(i, send)] && n.store == s.store
    ensures n.sent == s.sent + if send == FailedBefore then [] else [s.copies[i].msg.event]
    ensures n.copies == s.copies[i := s.copies[i].(place := if send == Ok then Sent else Failed)]
  {
    more, n := Then(o, acts, s, Send(i, send));
  }

  lemma Marked(o: State, acts: seq<Action>, s: State, i: nat) returns (more: seq<Action>, n: State)
    requires Leads(o, acts, s) && At(s, i, Sent) && s.copies[i].msg.event.eventId !in s.store
    ensures Leads(o, more, n) && more == acts + [MarkSent(i)] && n.sent == s.sent
    ensures var id := s.copies[i].msg.event.eventId;
      id in n.store && (|s.store| < 10_000 ==> n.store == s.store + [id])
    ensures n.copies == s.copies[i := s.copies[i].(place := Handled)]
  {
    more, n := Then(o, acts, s, MarkSent(i));
  }

  lemma Republished(o: State, acts: seq<Action>, s: State, i: nat, publish: Outcome)
      returns (more: seq<Action>, n: State)
    requires Leads(o, acts, s) && At(s, i, Failed)
    ensures Leads(o, more, n) && more == acts + [PublishCopy(i, publish)] && n.store == s.store && n.sent == s.sent
    ensures var m := s.copies[i].msg;
      var attempt := if m.header.Number? then m.header.n else 1;
      n.copies == s.copies[i := Copy(m, if publish == Ok then Copied else Main)] +
        if publish == FailedBefore then []
        else if attempt < 3 then [Copy(m.(header := Number(attempt + 1)), Retry)]
        else [Copy(m.(header := Number(attempt)), Dead)]
  {
    more, n := Then(o, acts, s, PublishCopy(i, publish));
  }

  lemma DuplicateDelivery(o: State, i: nat, how: Answers) returns (acts: seq<Action>, n: State)
    requires At(o, i, Main) && o.copies[i].msg.event.eventId in o.store
    ensures Leads(o, acts, n) && acts == [Deliver(i), Check(i), Ack(i)] && Undisturbed(o, n, i, how)
  {
    acts, n := Checked(o, i);
    acts, n := Acked(o, acts, n, i);
  }

  lemma SuccessfulDelivery(o: State, i: nat, how: Answers) returns (acts: seq<Action>, n: State)
    requires At(o, i, Main) && o.copies[i].msg.event.eventId !in o.store && how.send == Ok
    ensures Leads(o, acts, n) && Undisturbed(o, n, i, how)
    ensures acts == [Deliver(i), Check(i), Send(i, Ok), MarkSent(i), Ack(i)]
  {
    acts, n := Checked(o, i);
    acts, n := Answered(o, acts, n, i, Ok);
    acts, n := Marked(o, acts, n, i);
    acts, n := Acked(o, acts, n, i);
  }

  lemma FailedAndCopied(o: State, i: nat, how: Answers) returns (acts: seq<Action>, n: State)
    requires At(o, i, Main) && o.copies[i].msg.event.eventId !in o.store && how.send != Ok
    ensures Leads(o, acts, n) && acts == [Deliver(i), Check(i), Send(i, how.send), PublishCopy(i, how.publish)]
    ensures n.store == o.store && n.sent == o.sent + if how.send == FailedBefore then [] else [o.copies[i].msg.event]
    ensures var m := o.copies[i].msg;
      var attempt := if m.header.Number? then m.header.n else 1;
      n.copies == o.copies[i := Copy(m, if how.publish == Ok then Copied else Main)] +
        if how.publish == FailedBefore then []
        else if attempt < 3 then [Copy(m.(header := Number(attempt + 1)), Retry)]
        else [Copy(m.(header := Number(attempt)), Dead)]
  {
    var failed, mid;
    acts, mid := Checked(o, i);
    acts, failed := Answered(o, acts, mid, i, how.send);
    assert failed.copies == o.copies[i := Copy(o.copies[i].msg, Failed)];
    acts, n := Republished(o, acts, failed, i, how.publish);
  }

  lemma FailedDelivery(o: State, i: nat, how: Answers) returns (acts: seq<Action>, n: State)
    requires At(o, i, Main) && o.copies[i].msg.event.eventId !in o.store && how.send != Ok
    ensures Leads(o, acts, n) && Undisturbed(o, n, i, how)
    ensures acts == [Deliver(i), Check(i), Send(i, how.send), PublishCopy(i, how.publish)] +
                    if how.publish == Ok then [Ack(i)] else []
  {
    acts, n := FailedAndCopied(o, i, how);
    if how.publish == Ok {
      acts, n := Acked(o, acts, n, i);
    }
  }

  lemma SpelledOut(o: State, i: nat, send: Outcome, publish: Outcome)
    requires i < |o.copies| && (o.copies[i].msg.event.eventId in o.store ==> send == Ok)
    ensures Script(o, i, send, publish) ==
      if o.copies[i].msg.event.eventId in o.store then [Deliver(i), Check(i), Ack(i)]
      else if send == Ok then [Deliver(i), Check(i), Send(i, Ok), MarkSent(i), Ack(i)]
      else [Deliver(i), Check(i), Send(i, send), PublishCopy(i, publish)] + if publish == Ok then [Ack(i)] else []
  {
  }

  lemma OneDelivery(o: State, i: nat, send: Outcome, how: Answers) returns (acts: seq<Action>, n: State)
    requires At(o, i, Main) && send == if o.copies[i].msg.event.eventId in o.store then Ok else how.send
    ensures Leads(o, acts, n) && acts == Script(o, i, send, how.publish) && Undisturbed(o, n, i, how)
  {
    SpelledOut(o, i, send, how.publish);
    if o.copies[i].msg.event.eventId in o.store {
      acts, n := DuplicateDelivery(o, i, how);
    } else if how.send == Ok {
      acts, n := SuccessfulDelivery(o, i, how);
    } else {
      acts, n := FailedDelivery(o, i, how);
    }
  }

  // The script of one delivery has exactly the undisturbed effect.
  lemma ScriptIsUndisturbed(o: State, acts: seq<Action>, now: State, i: nat, send: Outcome, how: Answers)
    requires At(o, i, Main) && send == if o.copies[i].msg.event.eventId in o.store then Ok else how.send
    requires Leads(o, acts, now) && acts == Script(o, i, send, how.publish)
    ensures Undisturbed(o, now, i, how)
  {
    var same, n := OneDelivery(o, i, send, how);
  }

  class WorkOrderEventsConsumer {
    const processed: ProcessedEventsStore
    var copies: seq<Copy>
    var sent: seq<Event>
    ghost var arrived: multiset<Key>
    ghost var runs: multiset<Key>
    ghost var returned: multiset<Key>
    ghost var surplus: multiset<Key>

    constructor (processed: ProcessedEventsStore)
      requires processed.seen == []
      ensures this.processed == processed && Abs() == INIT
    {
      this.processed := processed;
      copies, sent := [], [];
      arrived, runs, returned, surplus := multiset{}, multiset{}, multiset{}, multiset{};
    }

    ghost function Abs(): State
      reads this, processed
    {
      State(copies, processed.seen, sent, arrived, runs, returned, surplus)
    }

    // An await of delivery i: other deliveries, arrivals and expiries go on.
    method Others(i: nat, ghost quiet: bool) returns (ghost acts: seq<Action>)
      requires processed.Valid()
      modifies this, processed
      ensures Leads(old(Abs()), acts, Abs()) && Elsewhere(acts, i) && (quiet ==> acts == [])
    {
      acts := [];
    }

    method Await(i: nat, ghost start: State, ghost acts: seq<Action>, ghost quiet: bool)
        returns (ghost more: seq<Action>)
      requires processed.Valid() && Leads(start, acts, Abs()) && i < |copies|
      modifies this, processed
      ensures processed.Valid() && Leads(start, more, Abs())
      ensures i < |copies| && copies[i] == old(copies)[i]
      ensures quiet ==> more == acts && processed.seen == old(processed.seen)
    {
      ghost var before := Abs();
      ghost var others := Others(i, quiet);
      OthersLeaveMine(before, others, i);
      StoreStaysOk(before, others);
      LeadsConcat(start, acts, before, others, Abs());
      more := acts + others;
    }

    method Put(i: nat, place: Place)
      requires i < |copies|
      modifies this`copies
      ensures copies == old(copies)[i := old(copies)[i].(place := place)]
    {
      copies := copies[i := copies[i].(place := place)];
    }

    method IsDuplicate(event: Event) returns (duplicate: bool)
      ensures duplicate <==> event.eventId in processed.seen
    {
      var held := processed.Has(event.eventId);
      if !held {
        return false;
      }
      return true;
    }

    method CheckDuplicate(i: nat, ghost start: State, ghost acts: seq<Action>)
        returns (duplicate: bool, ghost more: seq<Action>)
      requires Leads(start, acts, Abs()) && At(Abs(), i, Started)
      modifies this`copies
      ensures Leads(start, more, Abs()) && more == acts + [Check(i)]
      ensures At(Abs(), i, if duplicate then Handled else Sending) && copies[i].msg == old(copies)[i].msg
      ensures duplicate <==> old(copies)[i].msg.event.eventId in processed.seen
    {
      ghost var before := Abs();
      duplicate := IsDuplicate(copies[i].msg.event);
      Put(i, if duplicate then Handled else Sending);
      ThenStep(start, acts, before, Check(i));
      more := acts + [Check(i)];
    }

    // NotificationSender.send: may fail before or after the notification went out.
    method SendNotification(i: nat, how: Outcome) returns (outcome: Outcome)
      requires At(Abs(), i, Sending)
      modifies this`copies, this`sent
      ensures outcome == how && Abs() == Next(old(Abs()), Send(i, how))
      ensures At(Abs(), i, if how.Ok? then Sent else Failed)
      ensures sent == old(sent) + if how == FailedBefore then [] else [old(copies)[i].msg.event]
    {
      outcome := how;
      if !how.FailedBefore? {
        sent := sent + [copies[i].msg.event];
      }
      Put(i, if how.Ok? then Sent else Failed);
    }

    method MarkAsProcessed(i: nat)
      requires processed.Valid() && At(Abs(), i, Sent)
      modifies this`copies, processed
      ensures processed.Valid() && Abs() == Next(old(Abs()), MarkSent(i))
      ensures At(Abs(), i, Handled)
    {
      processed.MarkProcessed(copies[i].msg.event.eventId);
      Put(i, Handled);
    }

    method SendOnce(i: nat, how: Outcome, ghost start: State, ghost acts: seq<Action>, ghost quiet: bool)
        returns (outcome: Outcome, ghost more: seq<Action>)
      requires processed.Valid() && Leads(start, acts, Abs()) && At(Abs(), i, Sending)
      modifies this, processed
      ensures processed.Valid() && Leads(start, more, Abs()) && outcome == how
      ensures At(Abs(), i, if how.Ok? then Sent else Failed) && copies[i].msg == old(copies)[i].msg
      ensures quiet ==> more == acts + [Send(i, how)]
    {
      more := Await(i, start, acts, quiet);
      ghost var before := Abs();
      outcome := SendNotification(i, how);
      ThenStep(start, more, before, Send(i, how));
      more := more + [Send(i, how)];
    }

    method MarkOnce(i: nat, ghost start: State, ghost acts: seq<Action>) returns (ghost more: seq<Action>)
      requires processed.Valid() && Leads(start, acts, Abs()) && At(Abs(), i, Sent)
      modifies this, processed
      ensures processed.Valid() && Leads(start, more, Abs()) && At(Abs(), i, Handled)
      ensures more == acts + [MarkSent(i)] && copies[i].msg == old(copies)[i].msg
    {
      ghost var before := Abs();
      MarkAsProcessed(i);
      ThenStep(start, acts, before, MarkSent(i));
      more := acts + [MarkSent(i)];
    }

    method SendAndMark(i: nat, how: Outcome, ghost start: State, ghost acts: seq<Action>, ghost quiet: bool)
        returns (outcome: Outcome, ghost more: seq<Action>)
      requires processed.Valid() && Leads(start, acts, Abs()) && At(Abs(), i, Sending)
      modifies this, processed
      ensures processed.Valid() && Leads(start, more, Abs()) && outcome == how
      ensures At(Abs(), i, if how.Ok? then Handled else Failed) && copies[i].msg == old(copies)[i].msg
      ensures quiet ==> more == acts + SendingIt(i, how)
    {
      outcome, more := SendOnce(i, how, start, acts, quiet);
      if !outcome.Ok? {
        return;
      }
      more := MarkOnce(i, start, more);
      Regroup(acts, [Send(i, outcome)], [MarkSent(i)]);
    }

    // notifyCreated and notifyCompleted: check, send, then mark. Anything but Ok
    // means that the handler threw.
    method Notify(i: nat, how: Outcome, ghost start: State, ghost acts: seq<Action>, ghost quiet: bool)
        returns (outcome: Outcome, ghost more: seq<Action>)
      requires processed.Valid() && Leads(start, acts, Abs()) && At(Abs(), i, Started)
      modifies this, processed
      ensures processed.Valid() && Leads(start, more, Abs())
      ensures outcome == if old(copies)[i].msg.event.eventId in old(processed.seen) then Ok else how
      ensures At(Abs(), i, if outcome.Ok? then Handled else Failed) && copies[i].msg == old(copies)[i].msg
      ensures quiet ==>
        more == acts + Notifying(i, old(copies)[i].msg.event.eventId in old(processed.seen), outcome)
    {
      var duplicate;
      duplicate, more := CheckDuplicate(i, start, acts);
      if duplicate {
        outcome := Ok;
        return;
      }
      outcome, more := SendAndMark(i, how, start, more, quiet);
      Regroup(acts, [Check(i)], SendingIt(i, outcome));
    }

    // attemptOf: the header if it is a number, 1 otherwise.
    function HeaderAttempt(header: Header): (attempt: int)
      ensures attempt == 1 || header == Number(attempt)
      ensures header.Number? ==> attempt == header.n
      ensures forall m: Message | m.header == header :: attempt == AttemptOf(m)
    {
      match header
      case Number(n) => n
      case _ => 1
    }

    // amqp.publish of the copy: it may fail before or after the broker took it.
    method PublishTo(i: nat, copy: Copy, how: Outcome) returns (outcome: Outcome)
      requires At(Abs(), i, Failed)
      modifies this`copies, this`returned, this`surplus
      ensures outcome == how
      ensures var moved := old(copies)[i := old(copies)[i].(place := if how.Ok? then Copied else Main)];
        copies == if how.FailedBefore? then moved else moved + [copy]
      ensures var key := multiset{KeyOf(old(copies)[i])};
        && returned == old(returned) + (if how.Ok? then multiset{} else key)
        && surplus == old(surplus) + (if how.FailedAfter? then key else multiset{})
    {
      ghost var key := multiset{KeyOf(copies[i])};
      outcome := how;
      Put(i, if how.Ok? then Copied else Main);
      if !how.FailedBefore? {
        copies := copies + [copy];
      }
      returned := returned + if how.Ok? then multiset{} else key;
      surplus := surplus + if how.FailedAfter? then key else multiset{};
    }

    // The catch branch of EventRetryHandler.handle: a copy to the retry queue,
    // or to the dead-letter exchange once the attempts are used up.
    method RetryOrDeadLetter(i: nat, how: Outcome) returns (outcome: Outcome)
      requires At(Abs(), i, Failed)
      modifies this`copies, this`returned, this`surplus
      ensures outcome == how && Abs() == Next(old(Abs()), PublishCopy(i, how))
      ensures At(Abs(), i, if how.Ok? then Copied else Main)
      // the first two attempts go to the retry queue, counted up; the third is dead-lettered
      ensures var m := old(copies)[i].msg;
        var attempt := if m.header.Number? then m.header.n else 1;
        copies == old(copies)[i := Copy(m, if how == Ok then Copied else Main)] +
          if how == FailedBefore then []
          else if attempt < 3 then [Copy(m.(header := Number(attempt + 1)), Retry)]
          else [Copy(m.(header := Number(attempt)), Dead)]
    {
      var message := copies[i].msg;
      var attempt := HeaderAttempt(message.header);
      var copy;
      if attempt < MAX_ATTEMPTS {
        copy := Copy(message.(header := Number(attempt + 1)), Retry);
      } else {
        copy := Copy(message.(header := Number(attempt)), Dead);
      }
      ghost var before := Abs();
      outcome := PublishTo(i, copy, how);
      CopyGoesTo(before, i, outcome, copy);
      NextIs(before, PublishCopy(i, outcome), Abs());
    }

    // EventRetryHandler.handle: true when the original is to be acked.
    method Handle(i: nat, how: Answers, ghost start: State, ghost acts: seq<Action>, ghost quiet: bool)
        returns (ack: bool, send: Outcome, ghost more: seq<Action>)
      requires processed.Valid() && Leads(start, acts, Abs()) && At(Abs(), i, Started)
      modifies this, processed
      ensures processed.Valid() && Leads(start, more, Abs())
      ensures if ack then At(Abs(), i, Handled) || At(Abs(), i, Copied) else At(Abs(), i, Main)
      ensures send == if old(copies)[i].msg.event.eventId in old(processed.seen) then Ok else how.send
      ensures ack <==> send.Ok? || how.publish.Ok?
      ensures quiet ==>
        more == acts + Notifying(i, old(copies)[i].msg.event.eventId in old(processed.seen), send) +
          Rescuing(i, send, how.publish)
    {
      send, more := Notify(i, how.send, start, acts, quiet);
      if send.Ok? {
        return true, send, more;
      }
      more := Await(i, start, more, quiet);
      ghost var before := Abs();
      var publish := RetryOrDeadLetter(i, how.publish);
      ThenStep(start, more, before, PublishCopy(i, publish));
      more := more + [PublishCopy(i, publish)];
      ack := publish.Ok?;
    }

    method BeginDelivery(i: nat)
      requires At(Abs(), i, Main)
      modifies this`copies, this`runs
      ensures Abs() == Next(old(Abs()), Deliver(i)) && At(Abs(), i, Started)
      ensures copies[i].msg == old(copies)[i].msg
    {
      runs := runs + multiset{KeyOf(copies[i])};
      Put(i, Started);
    }

    method Acknowledge(i: nat, ghost start: State, ghost acts: seq<Action>) returns (ghost more: seq<Action>)
      requires Leads(start, acts, Abs()) && (At(Abs(), i, Handled) || At(Abs(), i, Copied))
      modifies this`copies
      ensures Leads(start, more, Abs()) && more == acts + [Ack(i)]
      ensures At(Abs(), i, Done) || At(Abs(), i, Replaced)
    {
      ghost var before := Abs();
      Put(i, if copies[i].place.Handled? then Done else Replaced);
      ThenStep(start, acts, before, Ack(i));
      more := acts + [Ack(i)];
    }

    method Begin(i: nat) returns (ghost acts: seq<Action>)
      requires processed.Valid() && At(Abs(), i, Main)
      modifies this`copies, this`runs
      ensures processed.Valid() && Leads(old(Abs()), acts, Abs()) && At(Abs(), i, Started)
      ensures acts == [Deliver(i)] && copies[i].msg == old(copies)[i].msg && processed.seen == old(processed.seen)
    {
      ghost var start := Abs();
      BeginDelivery(i);
      ThenStep(start, [], start, Deliver(i));
      acts := [Deliver(i)];
      assert [] + acts == acts;
    }

    // onWorkOrderCreated and onWorkOrderCompleted, from delivery to ack.
    method OnMessage(i: nat, how: Answers, ghost quiet: bool)
        returns (ack: bool, send: Outcome, ghost acts: seq<Action>)
      requires processed.Valid() && At(Abs(), i, Main)
      modifies this, processed
      ensures processed.Valid() && Leads(old(Abs()), acts, Abs())
      ensures if ack then At(Abs(), i, Done) || At(Abs(), i, Replaced) else At(Abs(), i, Main)
      // the sender is asked unless the event is marked, and the message is acked
      // unless both the sender and the publish of a copy failed
      ensures send == if old(copies)[i].msg.event.eventId in old(processed.seen) then Ok else how.send
      ensures ack <==> send.Ok? || how.publish.Ok?
      ensures quiet ==> acts == Script(old(Abs()), i, send, how.publish)
      ensures quiet ==> Undisturbed(old(Abs()), Abs(), i, how)
    {
      ghost var start := Abs();
      acts := Begin(i);
      ack, send, acts := Handle(i, how, start, acts, quiet);
      if ack {
        acts := Acknowledge(i, start, acts);
      }
      if quiet {
        ScriptIsUndisturbed(start, acts, Abs(), i, send, how);
      }
    }
  }
}
