// The notification side as a protocol: copies of messages move between a main
// queue, a retry queue and a dead-letter queue; deliveries may overlap, every
// call may fail before or after it took effect, and the process may crash.
//
// A crash is a Restart (the in-memory store is lost) and a Requeue of every
// delivery in hand. Assumptions: a resolved publish means the broker holds the
// copy, and if `handle` itself rejects, the original stays in the main queue.
module Notifications {
  import opened Contracts
  import opened ProcessedEvents

  const MAX_ATTEMPTS: int := 3

  datatype Queue = CreatedQueue | CompletedQueue

  // The x-attempt header.
  datatype Header = Missing | NotANumber | Number(n: int)

  datatype Message = Message(queue: Queue, event: Event, header: Header)

  function AttemptOf(m: Message): int {
    if m.header.Number? then m.header.n else 1
  }

  datatype Place =
    | Main | Retry | Dead
    | Started   // delivered; the handler has not checked for a duplicate yet
    | Sending   // not a duplicate; the notification is being sent
    | Sent      // sent, but not marked as processed yet
    | Failed    // the handler threw
    | Copied    // a copy was published; the original waits for its ack
    | Handled   // the handler finished; waits for its ack
    | Done      // acked after the handler finished
    | Replaced  // acked after a copy was published

  predicate InHand(p: Place) {
    p.Started? || p.Sending? || p.Sent? || p.Failed? || p.Copied? || p.Handled?
  }

  // A copy that was ever in a queue keeps its index for good.
  datatype Copy = Copy(msg: Message, place: Place)

  datatype Key = Key(queue: Queue, event: Event)

  datatype State = State(
    copies: seq<Copy>,
    store: seq<Uuid>,              // the processed-events store
    sent: seq<Event>,              // notifications that went out
    arrived: multiset<Key>,        // messages the exchange routed to a main queue
    runs: multiset<Key>,           // handler runs
    returned: multiset<Key>,       // originals that went back to their main queue
    surplus: multiset<Key>)        // originals that went back although their copy lives on

  const INIT := State([], [], [], multiset{}, multiset{}, multiset{}, multiset{})

  datatype Action =
    | Arrive(queue: Queue, event: Event, header: Header)
    | Deliver(i: nat)
    | Check(i: nat)
    | Send(i: nat, outcome: Outcome)
    | MarkSent(i: nat)
    | PublishCopy(i: nat, outcome: Outcome)
    | Ack(i: nat)
    | Expire(i: nat)
    | Requeue(i: nat)
    | Restart

  predicate At(s: State, i: nat, place: Place) {
    i < |s.copies| && s.copies[i].place == place
  }

  predicate Enabled(s: State, a: Action) {
    match a
    case Arrive(_, _, _) => true
    case Deliver(i) => At(s, i, Main)
    case Check(i) => At(s, i, Started)
    case Send(i, _) => At(s, i, Sending)
    case MarkSent(i) => At(s, i, Sent)
    case PublishCopy(i, _) => At(s, i, Failed)
    case Ack(i) => At(s, i, Handled) || At(s, i, Copied)
    case Expire(i) => At(s, i, Retry)
    case Requeue(i) => i < |s.copies| && InHand(s.copies[i].place)
    case Restart => true
  }

  function KeyOf(c: Copy): Key {
    Key(c.msg.queue, c.msg.event)
  }

  // What a failed handler publishes, by the attempt it was.
  function NextCopy(m: Message): Copy {
    if AttemptOf(m) < MAX_ATTEMPTS then Copy(m.(header := Number(AttemptOf(m) + 1)), Retry)
    else Copy(m.(header := Number(AttemptOf(m))), Dead)
  }

  // Actions that concern one copy.
  predicate OnCopy(a: Action) {
    !a.Arrive? && !a.Restart?
  }

  // Where the action leaves its copy.
  function Target(s: State, a: Action): Place
    requires Enabled(s, a) && OnCopy(a)
  {
    match a
    case Deliver(_) => Started
    case Check(i) => if s.copies[i].msg.event.eventId in s.store then Handled else Sending
    case Send(_, outcome) => if outcome.Ok? then Sent else Failed
    case MarkSent(_) => Handled
    case PublishCopy(_, outcome) => if outcome.Ok? then Copied else Main
    case Ack(i) => if s.copies[i].place.Handled? then Done else Replaced
    case Expire(_) => Main
    case Requeue(_) => Main
  }

  // The copy the action puts into a queue, if any.
  function Added(s: State, a: Action): Option<Copy>
    requires Enabled(s, a)
  {
    match a
    case Arrive(queue, event, header) => Some(Copy(Message(queue, event, header), Main))
    case PublishCopy(i, outcome) => if outcome.FailedBefore? then None else Some(NextCopy(s.copies[i].msg))
    case _ => None
  }

  function Moved(s: State, a: Action): seq<Copy>
    requires Enabled(s, a)
  {
    if OnCopy(a) then s.copies[a.i := s.copies[a.i].(place := Target(s, a))] else s.copies
  }

  function CopiesAfter(s: State, a: Action): seq<Copy>
    requires Enabled(s, a)
  {
    if Added(s, a).Some? then Moved(s, a) + [Added(s, a).value] else Moved(s, a)
  }

  function StoreAfter(s: State, a: Action): seq<Uuid>
    requires Enabled(s, a)
  {
    match a
    case MarkSent(i) => Mark(s.store, s.copies[i].msg.event.eventId, MAX_ENTRIES)
    case Restart => []
    case _ => s.store
  }

  function SentAfter(s: State, a: Action): seq<Event>
    requires Enabled(s, a)
  {
    if a.Send? && !a.outcome.FailedBefore? then s.sent + [s.copies[a.i].msg.event] else s.sent
  }

  // The key of the message an action concerns.
  function Subject(s: State, a: Action): Key
    requires Enabled(s, a) && !a.Restart?
  {
    if a.Arrive? then Key(a.queue, a.event) else KeyOf(s.copies[a.i])
  }

  // The original goes back to its main queue.
  predicate Returns(s: State, a: Action) {
    a.Requeue? || (a.PublishCopy? && !a.outcome.Ok?)
  }

  // The original goes back although its copy is in a queue already.
  predicate Doubles(s: State, a: Action)
    requires Enabled(s, a)
  {
    (a.PublishCopy? && a.outcome.FailedAfter?) || (a.Requeue? && s.copies[a.i].place.Copied?)
  }

  function Counted(m: multiset<Key>, s: State, a: Action, counts: bool): multiset<Key>
    requires Enabled(s, a) && (counts ==> !a.Restart?)
  {
    if counts then m + multiset{Subject(s, a)} else m
  }

  function Next(s: State, a: Action): State
    requires Enabled(s, a)
  {
    State(CopiesAfter(s, a), StoreAfter(s, a), SentAfter(s, a),
          Counted(s.arrived, s, a, a.Arrive?),
          Counted(s.runs, s, a, a.Deliver?),
          Counted(s.returned, s, a, Returns(s, a)),
          Counted(s.surplus, s, a, Doubles(s, a)))
  }

  // ---------- Runs ----------

  ghost predicate Legal(s: State, acts: seq<Action>)
    decreases |acts|, 0
  {
    acts == [] ||
    (Legal(s, acts[..|acts| - 1]) && Enabled(After(s, acts[..|acts| - 1]), acts[|acts| - 1]))
  }

  ghost function After(s: State, acts: seq<Action>): State
    requires Legal(s, acts)
    decreases |acts|, 1
  {
    if acts == [] then s else Next(After(s, acts[..|acts| - 1]), acts[|acts| - 1])
  }

  // `acts` leads from `s` to `end`.
  ghost predicate Leads(s: State, acts: seq<Action>, end: State) {
    Legal(s, acts) && After(s, acts) == end
  }

  lemma Then(s: State, acts: seq<Action>, mid: State, a: Action) returns (more: seq<Action>, end: State)
    requires Leads(s, acts, mid) && Enabled(mid, a)
    ensures more == acts + [a] && end == Next(mid, a) && Leads(s, more, end)
  {
    more, end := acts + [a], Next(mid, a);
    assert more[..|acts|] == acts;
  }

  // The last step of a run.
  lemma LastStep(s: State, acts: seq<Action>, end: State) returns (front: seq<Action>, before: State, last: Action)
    requires Leads(s, acts, end) && acts != []
    ensures acts == front + [last] && |front| == |acts| - 1
    ensures Leads(s, front, before) && Enabled(before, last) && end == Next(before, last)
  {
    front, last := acts[..|acts| - 1], acts[|acts| - 1];
    before := After(s, front);
  }

  lemma Associate(a: seq<Action>, b: seq<Action>, c: Action)
    ensures (a + b) + [c] == a + (b + [c])
  {
  }

  lemma {:induction false} LeadsConcat(s: State, acts: seq<Action>, mid: State, more: seq<Action>, end: State)
    requires Leads(s, acts, mid) && Leads(mid, more, end)
    ensures Leads(s, acts + more, end)
    decreases |more|
  {
    if more == [] {
      assert acts + more == acts;
    } else {
      var front, before, last := LastStep(mid, more, end);
      LeadsConcat(s, acts, mid, front, before);
      var all, now := Then(s, acts + front, before, last);
      Associate(acts, front, last);
    }
  }

  // What one step does to the copies that are there.
  lemma CopyAfter(s: State, a: Action, i: nat)
    requires Enabled(s, a)
    ensures var n := Next(s, a).copies;
      && (i < |s.copies| ==>
            i < |n| && n[i] == if OnCopy(a) && a.i == i then s.copies[i].(place := Target(s, a)) else s.copies[i])
      && (|s.copies| <= i < |n| ==> i == |s.copies| && Added(s, a) == Some(n[i]))
  {
  }

  // ---------- Gauges: sums over all copies ----------

  datatype Gauge =
    | Held(key: Key, places: set<Place>)  // how many copies of a message are there
    | Standing(key: Key)                  // ... anywhere but replaced by a later copy
    | Effort                              // how much work is left
    | Pending(key: Key)                   // how many handler runs a message may still get

  function Left(m: Message): nat {
    if AttemptOf(m) < MAX_ATTEMPTS then MAX_ATTEMPTS - AttemptOf(m) else 0
  }

  function Reading(g: Gauge, c: Copy): nat {
    match g
    case Held(key, places) => if KeyOf(c) == key && c.place in places then 1 else 0
    case Standing(key) => if KeyOf(c) == key && c.place !in {Copied, Replaced} then 1 else 0
    case Effort =>
      (match c.place
       case Retry => 10 * Left(c.msg) + 9
       case Main => 10 * Left(c.msg) + 8
       case Started => 10 * Left(c.msg) + 7
       case Sending => 10 * Left(c.msg) + 6
       case Sent => 10 * Left(c.msg) + 5
       case Failed => 10 * Left(c.msg) + 4
       case Handled => 2
       case Copied => 1
       case _ => 0)
    case Pending(key) =>
      if KeyOf(c) != key then 0
      else
        (match c.place
         case Main => Left(c.msg) + 1
         case Retry => Left(c.msg) + 1
         case Started => Left(c.msg)
         case Sending => Left(c.msg)
         case Sent => Left(c.msg)
         case Failed => Left(c.msg)
         case Handled => Left(c.msg)
         case _ => 0)
  }

  function Total(g: Gauge, copies: seq<Copy>): nat {
    if copies == [] then 0 else Total(g, copies[..|copies| - 1]) + Reading(g, copies[|copies| - 1])
  }

  lemma {:induction false} TotalUpdate(g: Gauge, copies: seq<Copy>, i: nat, c: Copy)
    requires i < |copies|
    ensures Total(g, copies[i := c]) + Reading(g, copies[i]) == Total(g, copies) + Reading(g, c)
  {
    var n := |copies| - 1;
    if i < n {
      TotalUpdate(g, copies[..n], i, c);
      assert copies[i := c][..n] == copies[..n][i := c];
    } else {
      assert copies[i := c][..n] == copies[..n];
    }
  }

  lemma TotalAppend(g: Gauge, copies: seq<Copy>, c: Copy)
    ensures Total(g, copies + [c]) == Total(g, copies) + Reading(g, c)
  {
  }

  function ReadingOf(g: Gauge, c: Option<Copy>): nat {
    if c.Some? then Reading(g, c.value) else 0
  }

  lemma CountedOne(m: multiset<Key>, s: State, a: Action, counts: bool, key: Key)
    requires Enabled(s, a) && (counts ==> !a.Restart?)
    ensures Counted(m, s, a, counts)[key] == m[key] + if counts && Subject(s, a) == key then 1 else 0
  {
  }

  // The gauge after one step: the copy it moves, and the copy it may add.
  lemma StepTotal(g: Gauge, s: State, a: Action)
    requires Enabled(s, a)
    ensures OnCopy(a) ==>
      Total(g, Next(s, a).copies) + Reading(g, s.copies[a.i]) ==
        Total(g, s.copies) + Reading(g, s.copies[a.i].(place := Target(s, a))) + ReadingOf(g, Added(s, a))
    ensures !OnCopy(a) ==> Total(g, Next(s, a).copies) == Total(g, s.copies) + ReadingOf(g, Added(s, a))
  {
    if OnCopy(a) {
      TotalUpdate(g, s.copies, a.i, s.copies[a.i].(place := Target(s, a)));
    }
    if Added(s, a).Some? {
      TotalAppend(g, Moved(s, a), Added(s, a).value);
    }
  }
}
