/** The slot allocator of bin/simexp/event_allocator.hpp and event_allocator.cpp: its state as a value,
    what any use of it keeps, and the class that works on it in place. */
module Pools {
  import opened Slots
  import opened Events

  type SlotArray = s: seq<Event> | |s| == MAX_EVENTS witness seq(MAX_EVENTS, i => Event(Invalid, 0))

  datatype Pool = Pool(used: set<EventId>, slots: SlotArray, allocations: nat, frees: nat)

  function Empty(): Pool {
    Pool({}, seq(MAX_EVENTS, k => Event(Invalid, 0)), 0, 0)
  }

  predicate Full(p: Pool) {
    |p.used| == MAX_EVENTS
  }

  lemma {:induction false} CountBelow(used: set<EventId>, n: nat)
    requires n <= MAX_EVENTS && forall i: EventId :: i in used <==> i < n
    ensures |used| == n
  {
    if n == 0 {
      assert used == {};
    } else {
      CountBelow(used - {n - 1}, n - 1);
      assert used == (used - {n - 1}) + {n - 1};
    }
  }

  /** `_slots_used.countr_one()` when not every slot is used: the lowest unused slot. */
  function FirstFree(used: set<EventId>): (id: EventId)
    requires |used| != MAX_EVENTS
    ensures id !in used && forall k: EventId :: k < id ==> k in used
  {
    FreeFrom(used, 0)
  }

  function FreeFrom(used: set<EventId>, i: EventId): (id: EventId)
    requires |used| != MAX_EVENTS && forall k: EventId :: k < i ==> k in used
    ensures id !in used && forall k: EventId :: k < id ==> k in used
    decreases MAX_EVENTS - i
  {
    if i !in used then i
    else if i < MAX_EVENTS - 1 then FreeFrom(used, i + 1)
    else
      CountBelow(used, MAX_EVENTS);
      assert false;
      i
  }

  function Alloc(p: Pool, e: Event): Pool
    requires !Full(p)
  {
    var id := FirstFree(p.used);
    Pool(p.used + {id}, p.slots[id := e], p.allocations + 1, p.frees)
  }

  function Free(p: Pool, id: EventId): Pool {
    p.(used := p.used - {id}, frees := p.frees + 1)
  }

  /** Every allocation is either still in use or has been freed. */
  predicate Balanced(p: Pool) {
    p.allocations == p.frees + |p.used|
  }

  datatype PoolCall = CallAlloc(e: Event) | CallFree(id: EventId)

  function Apply(p: Pool, c: PoolCall): Pool {
    match c
    case CallAlloc(e) => if Full(p) then p else Alloc(p, e)
    case CallFree(id) => Free(p, id)
  }

  /** free does not check that the slot is used; the books balance exactly when it is. */
  lemma {:induction false} FreeBalances(p: Pool, id: EventId)
    requires Balanced(p)
    ensures Balanced(Free(p, id)) <==> id in p.used
  {
    if id !in p.used {
      assert p.used - {id} == p.used;
    }
  }

  function Run(p: Pool, calls: seq<PoolCall>): Pool {
    if calls == [] then p
    else Apply(Run(p, calls[..|calls| - 1]), calls[|calls| - 1])
  }

  /** Only slots in use are freed. */
  ghost predicate Disciplined(p: Pool, calls: seq<PoolCall>) {
    forall i :: 0 <= i < |calls| && calls[i].CallFree? ==> calls[i].id in Run(p, calls[..i]).used
  }

  lemma {:induction false} AlwaysBalanced(p: Pool, calls: seq<PoolCall>)
    requires Balanced(p) && Disciplined(p, calls)
    ensures Balanced(Run(p, calls))
  {
    if calls == [] {
    } else {
      var front, last := calls[..|calls| - 1], calls[|calls| - 1];
      assert forall i :: 0 <= i < |front| ==> front[..i] == calls[..i];
      AlwaysBalanced(p, front);
      if last.CallFree? {
        FreeBalances(Run(p, front), last.id);
      }
    }
  }

  /** Allocating takes a slot that was free and writes no other; freeing it gives the same slots back. */
  lemma {:induction false} AllocThenFree(p: Pool, e: Event)
    requires !Full(p)
    ensures var id := FirstFree(p.used);
      && id !in p.used
      && Free(Alloc(p, e), id).used == p.used
      && Alloc(p, e).slots[id] == e
      && forall k: EventId :: k in p.used ==> Alloc(p, e).slots[k] == p.slots[k]
  {
  }
}

module EventAllocators {
  import opened Slots
  import opened Events
  import P = Pools

  class EventAllocator {
    var slotsUsed: set<EventId>
    const slots: array<Event>
    var allocations: nat
    var frees: nat

    ghost predicate Valid() {
      slots.Length == MAX_EVENTS
    }

    ghost function View(): P.Pool
      reads this, slots
      requires Valid()
    {
      P.Pool(slotsUsed, slots[..], allocations, frees)
    }

    constructor ()
      ensures Valid() && fresh(slots)
      ensures View() == P.Empty()
    {
      slotsUsed, allocations, frees := {}, 0, 0;
      slots := new Event[MAX_EVENTS](i => Event(Invalid, 0));
      new;
      assert slots[..] == P.Empty().slots;
    }

    /** alloc; fails, leaving everything as it was, when no slot is free. */
    method Alloc(e: Event) returns (id: EventId, ok: bool)
      requires Valid()
      modifies this, slots
      ensures ok <==> !P.Full(old(View()))
      ensures ok ==> id == P.FirstFree(old(View()).used) && View() == P.Alloc(old(View()), e)
      ensures !ok ==> View() == old(View())
    {
      if |slotsUsed| == MAX_EVENTS {
        return 0, false;
      }
      id, ok := P.FirstFree(slotsUsed), true;
      slotsUsed := slotsUsed + {id};
      slots[id] := e;
      allocations := allocations + 1;
    }

    method Free(id: EventId)
      requires Valid()
      modifies this
      ensures View() == P.Free(old(View()), id)
    {
      frees := frees + 1;
      slotsUsed := slotsUsed - {id};
    }

    /** operator[], which does not look at the used bit. */
    method Get(id: EventId) returns (e: Event)
      requires Valid()
      ensures e == View().slots[id]
    {
      e := slots[id];
    }
  }
}
