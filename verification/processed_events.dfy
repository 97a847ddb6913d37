// ProcessedEventsStore: a bounded set in insertion order that evicts its
// oldest entry when full.
module ProcessedEvents {
  import opened Contracts

  const MAX_ENTRIES: nat := 10_000

  ghost predicate NoRepeats(seen: seq<Uuid>) {
    forall i, j :: 0 <= i < j < |seen| ==> seen[i] != seen[j]
  }

  // A store of capacity `cap`, oldest entry first.
  ghost predicate StoreOk(seen: seq<Uuid>, cap: nat) {
    NoRepeats(seen) && |seen| <= cap
  }

  function Mark(seen: seq<Uuid>, id: Uuid, cap: nat): seq<Uuid>
    requires cap >= 1
  {
    var kept := if |seen| >= cap then seen[1..] else seen;
    if id in kept then kept else kept + [id]
  }

  function MarkAll(seen: seq<Uuid>, ids: seq<Uuid>, cap: nat): seq<Uuid>
    requires cap >= 1
  {
    if ids == [] then seen else Mark(MarkAll(seen, ids[..|ids| - 1], cap), ids[|ids| - 1], cap)
  }

  function LastOf(ids: seq<Uuid>, n: nat): seq<Uuid> {
    if |ids| <= n then ids else ids[|ids| - n..]
  }

  class ProcessedEventsStore {
    var seen: seq<Uuid>

    constructor ()
      ensures seen == [] && Valid()
    {
      seen := [];
    }

    ghost predicate Valid()
      reads this
    {
      StoreOk(seen, MAX_ENTRIES)
    }

    method Has(eventId: Uuid) returns (held: bool)
      ensures held <==> eventId in seen
    {
      held := eventId in seen;
    }

    method MarkProcessed(eventId: Uuid)
      requires Valid()
      modifies this
      ensures Valid() && eventId in seen
      ensures seen == Mark(old(seen), eventId, MAX_ENTRIES)
      // a full store drops its oldest entry, even if it holds the id already
      ensures var kept := if |old(seen)| >= 10_000 then old(seen)[1..] else old(seen);
        seen == if eventId in kept then kept else kept + [eventId]
    {
      if |seen| >= MAX_ENTRIES {
        for i := 0 to |seen|
          invariant seen == old(seen) && i == 0
        {
          seen := Delete(seen, seen[i]);
          break;
        }
        DeleteOldest(old(seen));
      }
      if eventId !in seen {
        seen := seen + [eventId];
      }
    }
  }

  // Set.delete on the list of entries.
  function Delete(seen: seq<Uuid>, id: Uuid): seq<Uuid> {
    if seen == [] then []
    else if seen[0] == id then Delete(seen[1..], id)
    else [seen[0]] + Delete(seen[1..], id)
  }

  lemma {:induction false} DeleteAbsent(seen: seq<Uuid>, id: Uuid)
    requires id !in seen
    ensures Delete(seen, id) == seen
  {
    if seen != [] {
      DeleteAbsent(seen[1..], id);
    }
  }

  lemma DeleteOldest(seen: seq<Uuid>)
    requires NoRepeats(seen) && seen != []
    ensures Delete(seen, seen[0]) == seen[1..]
  {
    DeleteAbsent(seen[1..], seen[0]);
  }

  // ---------- Any marks ----------

  lemma MarkKeeps(seen: seq<Uuid>, id: Uuid, cap: nat)
    requires cap >= 1 && StoreOk(seen, cap)
    ensures StoreOk(Mark(seen, id, cap), cap) && id in Mark(seen, id, cap)
    ensures forall x | x in Mark(seen, id, cap) :: x in seen || x == id
  {
  }

  // Whatever is marked, the store never grows beyond its capacity.
  lemma {:induction false} MarksKeep(seen: seq<Uuid>, ids: seq<Uuid>, cap: nat)
    requires cap >= 1 && StoreOk(seen, cap)
    ensures StoreOk(MarkAll(seen, ids, cap), cap)
    ensures forall x | x in MarkAll(seen, ids, cap) :: x in seen || x in ids
  {
    if ids != [] {
      MarksKeep(seen, ids[..|ids| - 1], cap);
      MarkKeeps(MarkAll(seen, ids[..|ids| - 1], cap), ids[|ids| - 1], cap);
    }
  }

  // How many marks entry i can survive: one for each entry before it, and one
  // for each free place.
  function Margin(seen: seq<Uuid>, i: nat, cap: nat): int {
    i + cap - |seen|
  }

  lemma MarkCostsOne(seen: seq<Uuid>, i: nat, id: Uuid, cap: nat) returns (j: nat)
    requires cap >= 1 && StoreOk(seen, cap) && i < |seen| && Margin(seen, i, cap) >= 1
    ensures var after := Mark(seen, id, cap);
      j < |after| && after[j] == seen[i] && Margin(after, j, cap) >= Margin(seen, i, cap) - 1
  {
    j := if |seen| >= cap then i - 1 else i;
  }

  lemma {:induction false} MarksCostOneEach(seen: seq<Uuid>, i: nat, ids: seq<Uuid>, cap: nat) returns (j: nat)
    requires cap >= 1 && StoreOk(seen, cap) && i < |seen| && Margin(seen, i, cap) >= |ids|
    ensures var after := MarkAll(seen, ids, cap);
      j < |after| && after[j] == seen[i] && Margin(after, j, cap) >= Margin(seen, i, cap) - |ids|
  {
    j := i;
    if ids != [] {
      var front := ids[..|ids| - 1];
      j := MarksCostOneEach(seen, i, front, cap);
      MarksKeep(seen, front, cap);
      j := MarkCostsOne(MarkAll(seen, front, cap), j, ids[|ids| - 1], cap);
    }
  }

  // A freshly inserted id survives the next cap - 1 marks, whatever they are.
  lemma FreshSurvives(seen: seq<Uuid>, id: Uuid, later: seq<Uuid>, cap: nat)
    requires cap >= 1 && StoreOk(seen, cap) && id !in seen && |later| <= cap - 1
    ensures id in MarkAll(Mark(seen, id, cap), later, cap)
  {
    var now := Mark(seen, id, cap);
    MarkKeeps(seen, id, cap);
    var j := MarksCostOneEach(now, |now| - 1, later, cap);
  }

  // ---------- What the store remembers ----------

  // Marking appends and drops the oldest beyond the capacity, exactly when the
  // id is not held, or is itself the entry that is evicted.
  lemma MarkIsLastOf(seen: seq<Uuid>, id: Uuid, cap: nat)
    requires cap >= 1 && StoreOk(seen, cap)
    ensures Mark(seen, id, cap) == LastOf(seen + [id], cap) <==>
      (id !in seen || (|seen| == cap && seen[0] == id))
  {
  }

  // Every mark is of an id not held at that moment, as the duplicate check
  // ensures for serial deliveries, or of the very entry it evicts.
  ghost predicate MarksAreFresh(ids: seq<Uuid>, cap: nat)
    requires cap >= 1
  {
    ids == [] ||
    (var front, id := ids[..|ids| - 1], ids[|ids| - 1];
     var seen := MarkAll([], front, cap);
     MarksAreFresh(front, cap) && (id !in seen || (|seen| == cap && seen[0] == id)))
  }

  // After each of the marks, the store is the last min(n, cap) marks so far.
  ghost predicate RemembersLast(ids: seq<Uuid>, cap: nat)
    requires cap >= 1
  {
    (ids == [] || RemembersLast(ids[..|ids| - 1], cap)) && MarkAll([], ids, cap) == LastOf(ids, cap)
  }

  lemma LastOfAppend(ids: seq<Uuid>, id: Uuid, cap: nat)
    requires cap >= 1
    ensures LastOf(LastOf(ids, cap) + [id], cap) == LastOf(ids + [id], cap)
  {
  }

  // Throughout a run of marks the store is the last min(n, cap) of them, in
  // order, if and only if all of them are fresh.
  lemma {:induction false} StoreIsLastMarks(ids: seq<Uuid>, cap: nat)
    requires cap >= 1
    ensures MarksAreFresh(ids, cap) <==> RemembersLast(ids, cap)
  {
    if ids != [] {
      var front, id := ids[..|ids| - 1], ids[|ids| - 1];
      StoreIsLastMarks(front, cap);
      assert ids == front + [id];
      MarksKeep([], front, cap);
      MarkIsLastOf(MarkAll([], front, cap), id, cap);
      LastOfAppend(front, id, cap);
      assert RemembersLast(front, cap) ==> MarkAll([], front, cap) == LastOf(front, cap);
    }
  }
}
