// Sequences of events: the events of one work order, and what is left of a
// log when every event id is kept only where it occurs first.
module Events {
  import opened Contracts

  ghost predicate Distinct(es: seq<Event>) {
    forall i, j :: 0 <= i < j < |es| ==> es[i].eventId != es[j].eventId
  }

  predicate HasId(es: seq<Event>, id: Uuid) {
    exists k :: 0 <= k < |es| && es[k].eventId == id
  }

  function OfOrder(es: seq<Event>, order: Uuid): seq<Event> {
    if es == [] then []
    else
      var rest := OfOrder(es[..|es| - 1], order);
      var e := es[|es| - 1];
      if e.data.workOrderId == order then rest + [e] else rest
  }

  // Insert-or-ignore over a whole log, keyed by event id.
  function Firsts(log: seq<Event>): seq<Event> {
    if log == [] then []
    else
      var rest := Firsts(log[..|log| - 1]);
      var e := log[|log| - 1];
      if HasId(rest, e.eventId) then rest else rest + [e]
  }

  // The events of outbox rows, in commit order.
  function EventsOf(rows: seq<OutboxRow>): seq<Event> {
    seq(|rows|, i requires 0 <= i < |rows| => rows[i].event)
  }

  lemma EventsOfTake(rows: seq<OutboxRow>, k: nat)
    requires k < |rows|
    ensures EventsOf(rows[..k + 1]) == EventsOf(rows[..k]) + [rows[k].event]
  {
  }

  // Ids of the outbox: unique, and increasing along one order.
  ghost predicate RowsOk(rows: seq<OutboxRow>) {
    forall i, j | 0 <= i < j < |rows| :: RowBefore(rows[i], rows[j])
  }

  ghost predicate RowBefore(a: OutboxRow, b: OutboxRow) {
    a.id != b.id && a.event.eventId != b.event.eventId && (a.Order() == b.Order() ==> a.id < b.id)
  }

  // Rows with the same event id are the same row.
  lemma EventIdentifiesRow(rows: seq<OutboxRow>, p: OutboxRow, q: OutboxRow)
    requires RowsOk(rows) && p in rows && q in rows && p.event.eventId == q.event.eventId
    ensures p == q
  {
  }

  lemma IdIdentifiesRow(rows: seq<OutboxRow>, p: OutboxRow, q: OutboxRow)
    requires RowsOk(rows) && p in rows && q in rows && p != q
    ensures p.id != q.id
  {
  }

  lemma RowEventsDistinct(rows: seq<OutboxRow>)
    requires RowsOk(rows)
    ensures Distinct(EventsOf(rows))
  {
  }

  // Every event of `log` comes after all the earlier events of its own work
  // order in `history`.
  ghost predicate Causal(history: seq<Event>, log: seq<Event>) {
    forall k, j | 0 <= k < |log| && 0 <= j < |history| && history[j] == log[k] ::
      Covered(history, j, log[..k])
  }

  // The earlier events of the work order of history[j] all occur in `log`.
  ghost predicate Covered(history: seq<Event>, j: nat, log: seq<Event>)
    requires j < |history|
  {
    forall i | 0 <= i < j && history[i].data.workOrderId == history[j].data.workOrderId ::
      history[i] in log
  }

  lemma {:induction false} OfOrderConcat(a: seq<Event>, b: seq<Event>, order: Uuid)
    ensures OfOrder(a + b, order) == OfOrder(a, order) + OfOrder(b, order)
  {
    if b == [] {
      assert a + b == a;
    } else {
      OfOrderConcat(a, b[..|b| - 1], order);
      assert (a + b)[..|a + b| - 1] == a + b[..|b| - 1];
    }
  }

  lemma {:induction false} OfOrderMembers(es: seq<Event>, order: Uuid, e: Event)
    ensures e in OfOrder(es, order) <==> e in es && e.data.workOrderId == order
  {
    if es != [] {
      OfOrderMembers(es[..|es| - 1], order, e);
      assert es == es[..|es| - 1] + [es[|es| - 1]];
    }
  }

  lemma {:induction false} OfOrderDistinct(es: seq<Event>, order: Uuid)
    requires Distinct(es)
    ensures Distinct(OfOrder(es, order))
  {
    if es != [] {
      var front := es[..|es| - 1];
      OfOrderDistinct(front, order);
      var kept := OfOrder(front, order);
      forall i | 0 <= i < |kept| ensures kept[i].eventId != es[|es| - 1].eventId {
        OfOrderMembers(front, order, kept[i]);
      }
    }
  }

  lemma HasIdAppend(es: seq<Event>, e: Event, id: Uuid)
    ensures HasId(es + [e], id) <==> HasId(es, id) || e.eventId == id
  {
    var all := es + [e];
    if HasId(es, id) {
      var k :| 0 <= k < |es| && es[k].eventId == id;
      assert all[k].eventId == id;
    }
    assert all[|es|] == e;
  }

  lemma IdsAppend(es: seq<Event>, e: Event)
    ensures forall id :: HasId(es + [e], id) <==> HasId(es, id) || e.eventId == id
  {
    forall id ensures HasId(es + [e], id) <==> HasId(es, id) || e.eventId == id {
      HasIdAppend(es, e, id);
    }
  }

  // Firsts keeps exactly the ids of the log, each once.
  lemma {:induction false} FirstsSound(log: seq<Event>)
    ensures Distinct(Firsts(log))
    ensures forall id :: HasId(Firsts(log), id) <==> HasId(log, id)
    ensures forall e :: e in Firsts(log) ==> e in log
  {
    if log != [] {
      var n := |log| - 1;
      FirstsSound(log[..n]);
      assert log == log[..n] + [log[n]];
      forall id ensures HasId(Firsts(log), id) <==> HasId(log, id) {
        HasIdAppend(log[..n], log[n], id);
        HasIdAppend(Firsts(log[..n]), log[n], id);
      }
    }
  }

  lemma {:induction false} FirstsMonotone(a: seq<Event>, b: seq<Event>)
    requires a <= b
    ensures Firsts(a) <= Firsts(b)
  {
    if |a| < |b| {
      FirstsMonotone(a, b[..|b| - 1]);
    } else {
      assert a == b;
    }
  }

  // The shape every ordering claim rests on: a causal log, once its repeats
  // are dropped, lists a prefix of each work order's history.
  lemma {:induction false} CausalPrefix(history: seq<Event>, log: seq<Event>, order: Uuid)
    requires Distinct(history) && Causal(history, log)
    requires forall e :: e in log ==> e in history
    ensures OfOrder(Firsts(log), order) <= OfOrder(history, order)
  {
    if log != [] {
      var n := |log| - 1;
      var front, e := log[..n], log[n];
      assert log == front + [e];
      assert Causal(history, front) by {
        forall k, j | 0 <= k < |front| && 0 <= j < |history| && history[j] == front[k]
          ensures Covered(history, j, front[..k])
        {
          assert front[k] == log[k] && front[..k] == log[..k];
        }
      }
      CausalPrefix(history, front, order);
      if !HasId(Firsts(front), e.eventId) && e.data.workOrderId == order {
        assert e in log;
        var j :| 0 <= j < |history| && history[j] == e;
        assert history[j] == log[n] && log[..n] == front;
        NextOfOrder(history, front, j);
      }
    }
  }

  lemma {:induction false} OfOrderSplit(history: seq<Event>, j: nat, order: Uuid)
    requires j < |history| && history[j].data.workOrderId == order
    ensures OfOrder(history[..j], order) + [history[j]] <= OfOrder(history, order)
  {
    var front := history[..|history| - 1];
    if j < |front| {
      OfOrderSplit(front, j, order);
      assert front[..j] == history[..j];
    }
  }

  // The first event of an order that a causal log does not hold yet can only
  // be the one right after those it holds.
  lemma NextOfOrder(history: seq<Event>, front: seq<Event>, j: nat)
    requires Distinct(history) && j < |history| && !HasId(Firsts(front), history[j].eventId)
    requires forall x :: x in front ==> x in history
    requires Covered(history, j, front)
    requires var order := history[j].data.workOrderId;
      OfOrder(Firsts(front), order) <= OfOrder(history, order)
    ensures var order := history[j].data.workOrderId;
      OfOrder(Firsts(front), order) + [history[j]] <= OfOrder(history, order)
  {
    var order := history[j].data.workOrderId;
    var all, done, before := OfOrder(history, order), OfOrder(Firsts(front), order), OfOrder(history[..j], order);
    OfOrderSplit(history, j, order);
    assert all[|before|] == history[j];
    if |done| > |before| {
      assert done[|before|] == history[j];
      OfOrderMembers(Firsts(front), order, history[j]);
      assert false;
    }
    if |done| < |before| {
      var missing := before[|done|];
      assert missing == all[|done|];
      OfOrderMembers(history[..j], order, missing);
      FirstOfMember(front, missing, history);
      OfOrderMembers(Firsts(front), order, missing);
      OfOrderDistinct(history, order);
      assert false;
    }
  }

  lemma FirstOfMember(log: seq<Event>, e: Event, history: seq<Event>)
    requires Distinct(history) && e in log
    requires forall x :: x in log ==> x in history
    ensures e in Firsts(log)
  {
    FirstsSound(log);
    var k :| 0 <= k < |log| && log[k] == e;
    assert HasId(log, e.eventId);
    var kept := Firsts(log);
    var m :| 0 <= m < |kept| && kept[m].eventId == e.eventId;
    assert kept[m] in history && e in history;
  }
}
