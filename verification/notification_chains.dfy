// Three handler runs per chain: every copy is followed back, through the copies
// it was published for, to the message that arrived.
module NotificationChains {
  import opened Contracts
  import opened Notifications
  import opened NotificationLaws

  // How often copy i was handed to its handler.
  function Deliveries(acts: seq<Action>, i: nat): nat {
    if acts == [] then 0
    else Deliveries(acts[..|acts| - 1], i) + One(acts[|acts| - 1] == Deliver(i))
  }

  predicate SendsBack(a: Action, i: nat) {
    a == Requeue(i) || (a.PublishCopy? && a.i == i && !a.outcome.Ok?)
  }

  // How often copy i went back to its main queue.
  function Comebacks(acts: seq<Action>, i: nat): nat {
    if acts == [] then 0
    else Comebacks(acts[..|acts| - 1], i) + One(SendsBack(acts[|acts| - 1], i))
  }

  predicate Queued(p: Place) {
    p.Main? || p.Retry? || p.Dead?
  }

  lemma StepDelivers(s: State, a: Action, i: nat)
    requires Enabled(s, a)
    ensures var n := Next(s, a);
      One(i < |n.copies| && !Queued(n.copies[i].place)) + One(SendsBack(a, i)) ==
      One(i < |s.copies| && !Queued(s.copies[i].place)) + One(a == Deliver(i))
  {
    CopyAfter(s, a, i);
  }

  // A copy is delivered once, and once more for each time it went back.
  lemma {:induction false} DeliveriesOfCopy(acts: seq<Action>, i: nat)
    requires Legal(INIT, acts)
    ensures var copies := After(INIT, acts).copies;
      Deliveries(acts, i) == Comebacks(acts, i) + One(i < |copies| && !Queued(copies[i].place))
  {
    if acts != [] {
      var front := acts[..|acts| - 1];
      DeliveriesOfCopy(front, i);
      StepDelivers(After(INIT, front), acts[|acts| - 1], i);
    }
  }

  // From the message that arrived to copy i.
  ghost function Lineage(acts: seq<Action>, i: nat): seq<nat>
    requires Legal(INIT, acts) && i < |After(INIT, acts).copies|
  {
    var front, a := acts[..|acts| - 1], acts[|acts| - 1];
    if i < |After(INIT, front).copies| then Lineage(front, i)
    else if a.PublishCopy? then Lineage(front, a.i) + [i]
    else [i]
  }

  // One link per attempt, and one more for a dead-lettered copy.
  ghost predicate IsChain(copies: seq<Copy>, chain: seq<nat>, i: nat) {
    && i < |copies| && chain != [] && chain[|chain| - 1] == i
    && (forall k | 0 <= k < |chain| :: chain[k] < |copies| && KeyOf(copies[chain[k]]) == KeyOf(copies[i]))
    && (forall j, k | 0 <= j < k < |chain| :: chain[j] < chain[k])
    && !copies[chain[0]].msg.header.Number?
    && |chain| == AttemptOf(copies[i].msg) + One(copies[i].place.Dead?)
  }

  // No step changes a message, or moves a copy into or out of a dead-letter queue.
  lemma MessagesStay(s: State, a: Action)
    requires Enabled(s, a)
    ensures var n := Next(s, a).copies;
      |s.copies| <= |n| &&
      forall k | 0 <= k < |s.copies| ::
        n[k].msg == s.copies[k].msg && (n[k].place.Dead? <==> s.copies[k].place.Dead?)
  {
    forall k: nat | k < |s.copies|
      ensures var n := Next(s, a).copies;
        k < |n| && n[k].msg == s.copies[k].msg && (n[k].place.Dead? <==> s.copies[k].place.Dead?)
    {
      CopyAfter(s, a, k);
    }
  }

  lemma ChainStays(copies: seq<Copy>, n: seq<Copy>, chain: seq<nat>, i: nat)
    requires IsChain(copies, chain, i) && |copies| <= |n|
    requires forall k | 0 <= k < |copies| ::
      n[k].msg == copies[k].msg && (n[k].place.Dead? <==> copies[k].place.Dead?)
    ensures IsChain(n, chain, i)
  {
  }

  lemma ChainGrows(copies: seq<Copy>, chain: seq<nat>, i: nat, c: Copy)
    requires IsChain(copies, chain, i) && !copies[i].place.Dead? && c == NextCopy(copies[i].msg)
    ensures IsChain(copies + [c], chain + [|copies|], |copies|)
  {
  }

  lemma CopyExtendsChain(s: State, a: Action, chain: seq<nat>)
    requires Enabled(s, a) && a.PublishCopy? && Added(s, a).Some? && IsChain(s.copies, chain, a.i)
    ensures IsChain(Next(s, a).copies, chain + [|s.copies|], |s.copies|)
  {
    var moved := Moved(s, a);
    ChainStays(s.copies, moved, chain, a.i);
    ChainGrows(moved, chain, a.i, NextCopy(s.copies[a.i].msg));
  }

  lemma StepExtendsChain(s: State, a: Action, chain: seq<nat>, i: nat)
    requires Enabled(s, a) && i < |Next(s, a).copies| && (a.Arrive? ==> !a.header.Number?)
    requires i < |s.copies| ==> IsChain(s.copies, chain, i)
    requires i >= |s.copies| && a.PublishCopy? ==> IsChain(s.copies, chain, a.i)
    ensures IsChain(Next(s, a).copies,
                    if i < |s.copies| then chain else if a.PublishCopy? then chain + [i] else [i], i)
  {
    CopyAfter(s, a, i);
    if i < |s.copies| {
      MessagesStay(s, a);
      ChainStays(s.copies, Next(s, a).copies, chain, i);
    } else if a.PublishCopy? {
      CopyExtendsChain(s, a, chain);
    }
  }

  lemma {:induction false} LineageIsChain(acts: seq<Action>, i: nat)
    requires Legal(INIT, acts) && PlainArrivals(acts) && i < |After(INIT, acts).copies|
    ensures IsChain(After(INIT, acts).copies, Lineage(acts, i), i)
  {
    var front, a := acts[..|acts| - 1], acts[|acts| - 1];
    var s := After(INIT, front);
    assert a in acts;
    if i < |s.copies| {
      LineageIsChain(front, i);
      StepExtendsChain(s, a, Lineage(front, i), i);
    } else if a.PublishCopy? {
      LineageIsChain(front, a.i);
      StepExtendsChain(s, a, Lineage(front, a.i), i);
    } else {
      StepExtendsChain(s, a, [], i);
    }
  }

  // What is queued says how far it has got: a waiting copy is the second or third
  // attempt, and a dead-lettered one was the third.
  ghost predicate QueuedAttempts(s: State) {
    forall c | c in s.copies ::
      && (c.place == Retry ==> c.msg.header == Number(2) || c.msg.header == Number(3))
      && (c.place == Dead ==> c.msg.header == Number(3))
      && (c.msg.header.Number? ==> c.msg.header.n in {2, 3})
  }

  lemma StepQueues(s: State, a: Action)
    requires Enabled(s, a) && QueuedAttempts(s) && (a.Arrive? ==> !a.header.Number?)
    ensures QueuedAttempts(Next(s, a))
  {
    forall c | c in Next(s, a).copies
      ensures c.place == Retry ==> c.msg.header == Number(2) || c.msg.header == Number(3)
      ensures c.place == Dead ==> c.msg.header == Number(3)
      ensures c.msg.header.Number? ==> c.msg.header.n in {2, 3}
    {
      OriginOfCopy(s, a, c);
      assert OnCopy(a) ==> s.copies[a.i] in s.copies;
    }
  }

  lemma {:induction false} AttemptsOfQueued(acts: seq<Action>)
    requires Legal(INIT, acts) && PlainArrivals(acts)
    ensures QueuedAttempts(After(INIT, acts))
  {
    if acts != [] {
      var front, a := acts[..|acts| - 1], acts[|acts| - 1];
      assert a in acts;
      AttemptsOfQueued(front);
      StepQueues(After(INIT, front), a);
    }
  }

  function DeliveriesAlong(acts: seq<Action>, chain: seq<nat>): nat {
    if chain == [] then 0
    else DeliveriesAlong(acts, chain[..|chain| - 1]) + Deliveries(acts, chain[|chain| - 1])
  }

  function ComebacksAlong(acts: seq<Action>, chain: seq<nat>): nat {
    if chain == [] then 0
    else ComebacksAlong(acts, chain[..|chain| - 1]) + Comebacks(acts, chain[|chain| - 1])
  }

  lemma {:induction false} OncePerLink(acts: seq<Action>, chain: seq<nat>)
    requires Legal(INIT, acts)
    ensures DeliveriesAlong(acts, chain) <= ComebacksAlong(acts, chain) + |chain|
  {
    if chain != [] {
      OncePerLink(acts, chain[..|chain| - 1]);
      DeliveriesOfCopy(acts, chain[|chain| - 1]);
    }
  }

  lemma RunsOfChain(acts: seq<Action>, s: State, chain: seq<nat>, i: nat)
    requires Leads(INIT, acts, s) && IsChain(s.copies, chain, i)
    ensures DeliveriesAlong(acts, chain) <= ComebacksAlong(acts, chain) + AttemptOf(s.copies[i].msg)
  {
    OncePerLink(acts, chain[..|chain| - 1]);
    DeliveriesOfCopy(acts, i);
  }

  lemma AttemptOfCopy(acts: seq<Action>, s: State, i: nat)
    requires Leads(INIT, acts, s) && PlainArrivals(acts) && i < |s.copies|
    ensures AttemptOf(s.copies[i].msg) <= MAX_ATTEMPTS
  {
    AtMostThreeRuns(acts, KeyOf(s.copies[i]));
    assert s.copies[i] in s.copies;
  }

  // However copies multiply: along the chain from an arrived message to any of
  // its copies there are at most three handler runs, plus one for every time a
  // copy on the chain went back to its main queue.
  lemma ThreeRunsPerChain(acts: seq<Action>, i: nat)
    requires Legal(INIT, acts) && PlainArrivals(acts) && i < |After(INIT, acts).copies|
    ensures var chain := Lineage(acts, i);
      && IsChain(After(INIT, acts).copies, chain, i)
      && DeliveriesAlong(acts, chain) <= 3 + ComebacksAlong(acts, chain)
  {
    LineageIsChain(acts, i);
    RunsOfChain(acts, After(INIT, acts), Lineage(acts, i), i);
    AttemptOfCopy(acts, After(INIT, acts), i);
  }

  // Every copy on a chain but the last one failed in its handler.
  ghost predicate Delivered(acts: seq<Action>, chain: seq<nat>) {
    forall k | 0 <= k < |chain| - 1 :: Deliveries(acts, chain[k]) >= 1
  }

  lemma MoreDeliveries(acts: seq<Action>, a: Action, chain: seq<nat>)
    requires Delivered(acts, chain)
    ensures Delivered(acts + [a], chain)
  {
    assert (acts + [a])[..|acts|] == acts;
  }

  // A copy for which another one is published was delivered.
  lemma FailedWasDelivered(acts: seq<Action>, s: State, i: nat)
    requires Leads(INIT, acts, s) && At(s, i, Failed)
    ensures Deliveries(acts, i) >= 1
  {
    DeliveriesOfCopy(acts, i);
  }

  lemma LineageUnfolds(front: seq<Action>, s: State, a: Action, acts: seq<Action>, i: nat)
    requires Leads(INIT, front, s) && Enabled(s, a) && acts == front + [a] && i < |Next(s, a).copies|
    ensures Legal(INIT, acts) && i < |After(INIT, acts).copies|
    ensures i < |s.copies| ==> Lineage(acts, i) == Lineage(front, i)
    ensures i >= |s.copies| && a.PublishCopy? ==> Lineage(acts, i) == Lineage(front, a.i) + [i]
    ensures i >= |s.copies| && !a.PublishCopy? ==> Lineage(acts, i) == [i]
  {
    var all, end := Then(INIT, front, s, a);
    assert acts[..|acts| - 1] == front;
  }

  // The chain ends in copy i, and all its copies before that were delivered.
  ghost predicate GoodChain(acts: seq<Action>, chain: seq<nat>, i: nat) {
    chain != [] && chain[|chain| - 1] == i && Delivered(acts, chain)
  }

  lemma ChainGoesOn(front: seq<Action>, s: State, a: Action, acts: seq<Action>, i: nat)
    requires Leads(INIT, front, s) && Enabled(s, a) && acts == front + [a] && i < |s.copies|
    requires GoodChain(front, Lineage(front, i), i)
    ensures Legal(INIT, acts) && i < |After(INIT, acts).copies| && GoodChain(acts, Lineage(acts, i), i)
  {
    CopyAfter(s, a, i);
    LineageUnfolds(front, s, a, acts, i);
    MoreDeliveries(front, a, Lineage(front, i));
  }

  lemma ChainStarts(front: seq<Action>, s: State, a: Action, acts: seq<Action>, i: nat)
    requires Leads(INIT, front, s) && Enabled(s, a) && acts == front + [a]
    requires |s.copies| <= i < |Next(s, a).copies|
    requires a.PublishCopy? ==> GoodChain(front, Lineage(front, a.i), a.i)
    ensures Legal(INIT, acts) && i < |After(INIT, acts).copies| && GoodChain(acts, Lineage(acts, i), i)
  {
    LineageUnfolds(front, s, a, acts, i);
    if a.PublishCopy? {
      LinkOfFailed(front, s, a, Lineage(front, a.i), i);
    }
  }

  lemma {:induction false} LineageDelivered(acts: seq<Action>, end: State, i: nat)
    requires Leads(INIT, acts, end) && i < |end.copies|
    ensures GoodChain(acts, Lineage(acts, i), i)
    decreases |acts|
  {
    var front, s, a := LastStep(INIT, acts, end);
    if i < |s.copies| {
      LineageDelivered(front, s, i);
      ChainGoesOn(front, s, a, acts, i);
    } else {
      if a.PublishCopy? {
        LineageDelivered(front, s, a.i);
      }
      ChainStarts(front, s, a, acts, i);
    }
  }

  lemma LinkOfFailed(front: seq<Action>, s: State, a: Action, chain: seq<nat>, i: nat)
    requires Leads(INIT, front, s) && a.PublishCopy? && At(s, a.i, Failed) && GoodChain(front, chain, a.i)
    ensures GoodChain(front + [a], chain + [i], i)
  {
    FailedWasDelivered(front, s, a.i);
    OneMoreLink(front, a, chain, i);
  }

  lemma OneMoreLink(acts: seq<Action>, a: Action, chain: seq<nat>, i: nat)
    requires Delivered(acts, chain) && chain != [] && Deliveries(acts, chain[|chain| - 1]) >= 1
    ensures Delivered(acts + [a], chain + [i])
  {
    assert Delivered(acts, chain + [i]);
    MoreDeliveries(acts, a, chain + [i]);
  }

  lemma {:induction false} AtLeastOncePerLink(acts: seq<Action>, chain: seq<nat>)
    requires forall k | 0 <= k < |chain| :: Deliveries(acts, chain[k]) >= 1
    ensures DeliveriesAlong(acts, chain) >= |chain|
  {
    if chain != [] {
      AtLeastOncePerLink(acts, chain[..|chain| - 1]);
    }
  }

  // No early end: on the way to any copy the handler ran at least once for each
  // attempt before it.
  lemma RunsBeforeCopy(acts: seq<Action>, i: nat)
    requires Legal(INIT, acts) && i < |After(INIT, acts).copies|
    ensures DeliveriesAlong(acts, Lineage(acts, i)) >= |Lineage(acts, i)| - 1
  {
    var chain := Lineage(acts, i);
    LineageDelivered(acts, After(INIT, acts), i);
    AtLeastOncePerLink(acts, chain[..|chain| - 1]);
  }

  // A message is dead-lettered only after its handler ran three times, and without
  // faults after exactly three runs.
  lemma DeadAfterThreeRuns(acts: seq<Action>, i: nat)
    requires Legal(INIT, acts) && PlainArrivals(acts) && i < |After(INIT, acts).copies|
    requires After(INIT, acts).copies[i].place == Dead
    ensures After(INIT, acts).copies[i].msg.header == Number(3)
    ensures DeliveriesAlong(acts, Lineage(acts, i)) >= 3
    ensures FaultFree(acts) ==> DeliveriesAlong(acts, Lineage(acts, i)) == 3
  {
    AttemptsOfQueued(acts);
    assert After(INIT, acts).copies[i] in After(INIT, acts).copies;
    LineageIsChain(acts, i);
    RunsBeforeCopy(acts, i);
    if FaultFree(acts) {
      FaultFreeChains(acts, i);
    }
  }

  // A copy waits for another try only after one or two runs, as its header says.
  lemma RetryAfterRuns(acts: seq<Action>, i: nat)
    requires Legal(INIT, acts) && PlainArrivals(acts) && i < |After(INIT, acts).copies|
    requires After(INIT, acts).copies[i].place == Retry
    ensures var header := After(INIT, acts).copies[i].msg.header;
      (header == Number(2) || header == Number(3)) && DeliveriesAlong(acts, Lineage(acts, i)) >= header.n - 1
  {
    AttemptsOfQueued(acts);
    assert After(INIT, acts).copies[i] in After(INIT, acts).copies;
    LineageIsChain(acts, i);
    RunsBeforeCopy(acts, i);
  }

  lemma {:induction false} NoComebacks(acts: seq<Action>, i: nat)
    requires FaultFree(acts)
    ensures Comebacks(acts, i) == 0
  {
    if acts != [] {
      assert acts[|acts| - 1] in acts;
      NoComebacks(acts[..|acts| - 1], i);
    }
  }

  lemma {:induction false} NoneComeBack(acts: seq<Action>, chain: seq<nat>)
    requires FaultFree(acts)
    ensures ComebacksAlong(acts, chain) == 0
  {
    if chain != [] {
      NoneComeBack(acts, chain[..|chain| - 1]);
      NoComebacks(acts, chain[|chain| - 1]);
    }
  }

  // Without faults: at most three runs per chain.
  lemma FaultFreeChains(acts: seq<Action>, i: nat)
    requires Legal(INIT, acts) && PlainArrivals(acts) && FaultFree(acts) && i < |After(INIT, acts).copies|
    ensures DeliveriesAlong(acts, Lineage(acts, i)) <= 3
  {
    ThreeRunsPerChain(acts, i);
    NoneComeBack(acts, Lineage(acts, i));
  }
}
