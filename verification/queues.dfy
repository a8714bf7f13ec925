/** What the in-place queue edits (append, steal, swap, fill the hole) do to the contents of the queue. */
module Queues {
  import opened Slots
  import opened Schedules

  /** No event has two entries. */
  ghost predicate NoDup(q: seq<Entry>) {
    forall i, j :: 0 <= i < j < |q| ==> q[i].id != q[j].id
  }

  /** Which events are queued, and for when. */
  ghost function Due(q: seq<Entry>): map<EventId, nat> {
    if q == [] then map[]
    else
      var last := q[|q| - 1];
      Due(q[..|q| - 1])[last.id := last.tick]
  }

  /** `q` holds exactly the events of `m`, once each. */
  ghost predicate Holds(q: seq<Entry>, m: map<EventId, nat>) {
    && NoDup(q)
    && |q| == |m.Keys|
    && forall i :: 0 <= i < |q| ==> q[i].id in m.Keys && m[q[i].id] == q[i].tick
  }

  lemma {:induction false} Grow(m: map<EventId, nat>, id: EventId, tick: nat)
    requires id !in m
    ensures m[id := tick].Keys == m.Keys + {id} && |m[id := tick].Keys| == |m.Keys| + 1
  {
  }

  lemma {:induction false} Shrink(m: map<EventId, nat>, id: EventId)
    requires id in m
    ensures (m - {id}).Keys == m.Keys - {id} && |(m - {id}).Keys| == |m.Keys| - 1
  {
  }

  lemma {:induction false} HoldsAppended(q: seq<Entry>, m: map<EventId, nat>, e: Entry)
    requires Holds(q, m) && e.id !in m
    ensures Holds(q + [e], m[e.id := e.tick])
  {
    Grow(m, e.id, e.tick);
  }

  lemma {:induction false} DueIsHeld(q: seq<Entry>)
    requires NoDup(q)
    ensures Holds(q, Due(q))
    ensures forall id :: id in Due(q) ==> exists i :: 0 <= i < |q| && q[i].id == id
  {
    hide Holds;
    if q == [] {
      NothingHeld();
    } else {
      var front, last := q[..|q| - 1], q[|q| - 1];
      DueIsHeld(front);
      assert q == front + [last];
      NewIsNotHeld(front, Due(front), last);
      HoldsAppended(front, Due(front), last);
      AllThere(front, Due(front), last, Due(q));
    }
  }

  lemma {:induction false} NothingHeld()
    ensures Holds([], map[])
  {
  }

  lemma {:induction false} NewIsNotHeld(front: seq<Entry>, m: map<EventId, nat>, last: Entry)
    requires NoDup(front + [last])
    requires forall id :: id in m ==> exists i :: 0 <= i < |front| && front[i].id == id
    ensures last.id !in m
  {
    var q := front + [last];
    forall i | 0 <= i < |front|
      ensures front[i].id != last.id
    {
      assert q[i].id != q[|front|].id;
    }
  }

  lemma {:induction false} AllThere(front: seq<Entry>, m: map<EventId, nat>, last: Entry, m': map<EventId, nat>)
    requires forall id :: id in m ==> exists i :: 0 <= i < |front| && front[i].id == id
    requires m' == m[last.id := last.tick]
    ensures var q := front + [last];
      forall id :: id in m' ==> exists i :: 0 <= i < |q| && q[i].id == id
  {
    var q := front + [last];
    forall id | id in m'
      ensures exists i :: 0 <= i < |q| && q[i].id == id
    {
      if id == last.id {
        assert q[|front|].id == id;
      } else {
        var i :| 0 <= i < |front| && front[i].id == id;
        assert q[i].id == id;
      }
    }
  }

  lemma {:induction false} HeldIsDue(q: seq<Entry>, m: map<EventId, nat>)
    requires Holds(q, m)
    ensures Due(q) == m
  {
    if q == [] {
      assert m.Keys == {};
    } else {
      var front, last := q[..|q| - 1], q[|q| - 1];
      assert q[|q| - 1].id in m.Keys;
      Shrink(m, last.id);
      HeldIsDue(front, m - {last.id});
    }
  }

  lemma {:induction false} Queued(q: seq<Entry>, k: nat)
    requires NoDup(q) && k < |q|
    ensures q[k].id in Due(q) && Due(q)[q[k].id] == q[k].tick
  {
    DueIsHeld(q);
  }

  lemma {:induction false} SizeOfQueue(q: seq<Entry>)
    requires NoDup(q)
    ensures |q| == |Due(q).Keys| <= MAX_EVENTS
  {
    DueIsHeld(q);
    SlotsBounded(Due(q).Keys);
  }

  /** A queue without duplicates has room for any event that is not in it. */
  lemma {:induction false} RoomFor(q: seq<Entry>, id: EventId)
    requires NoDup(q) && id !in Due(q)
    ensures |q| < MAX_EVENTS
  {
    DueIsHeld(q);
    SlotsBounded(Due(q).Keys + {id});
  }

  lemma {:induction false} Appended(q: seq<Entry>, e: Entry)
    requires NoDup(q) && e.id !in Due(q)
    ensures NoDup(q + [e]) && Due(q + [e]) == Due(q)[e.id := e.tick]
  {
    DueIsHeld(q);
    HoldsAppended(q, Due(q), e);
    HeldIsDue(q + [e], Due(q)[e.id := e.tick]);
  }

  lemma {:induction false} Stolen(q: seq<Entry>, k: nat, e: Entry)
    requires NoDup(q) && k < |q| && e.id !in Due(q)
    ensures NoDup(q[k := e]) && Due(q[k := e]) == (Due(q) - {q[k].id})[e.id := e.tick]
  {
    DueIsHeld(q);
    Shrink(Due(q), q[k].id);
    Grow(Due(q) - {q[k].id}, e.id, e.tick);
    HeldIsDue(q[k := e], (Due(q) - {q[k].id})[e.id := e.tick]);
  }

  lemma {:induction false} SwapKeepsNoDup(q: seq<Entry>, i: nat, j: nat)
    requires NoDup(q) && i < |q| && j < |q|
    ensures NoDup(Swap(q, i, j))
  {
  }

  lemma {:induction false} Swapped(q: seq<Entry>, i: nat, j: nat)
    requires NoDup(q) && i < |q| && j < |q|
    ensures NoDup(Swap(q, i, j)) && Due(Swap(q, i, j)) == Due(q)
  {
    SwapKeepsNoDup(q, i, j);
    DueIsHeld(q);
    HeldIsDue(Swap(q, i, j), Due(q));
  }

  lemma {:induction false} FillHolds(q: seq<Entry>, k: nat, m: map<EventId, nat>)
    requires Holds(q, m) && k < |q|
    ensures Holds(Fill(q, k), m - {q[k].id})
  {
    Shrink(m, q[k].id);
    var r := Fill(q, k);
    forall i | 0 <= i < |r|
      ensures r[i] == if i == k then q[|q| - 1] else q[i]
    {
    }
  }

  lemma {:induction false} Filled(q: seq<Entry>, k: nat)
    requires NoDup(q) && k < |q|
    ensures NoDup(Fill(q, k)) && Due(Fill(q, k)) == Due(q) - {q[k].id}
  {
    DueIsHeld(q);
    FillHolds(q, k, Due(q));
    HeldIsDue(Fill(q, k), Due(q) - {q[k].id});
  }

  lemma {:induction false} Taken(q: seq<Entry>, k: nat)
    requires NoDup(q) && k < |q|
    ensures NoDup(TakeFront(q, k)) && Due(TakeFront(q, k)) == Due(q) - {q[k].id}
  {
    Swapped(q, k, 0);
    Filled(Swap(q, k, 0), 0);
  }

  lemma {:induction false} Found(q: seq<Entry>, id: EventId)
    requires NoDup(q)
    ensures Find(q, id) < |q| <==> id in Due(q)
  {
    DueIsHeld(q);
  }

  lemma {:induction false} Descheduled(q: seq<Entry>, id: EventId)
    requires NoDup(q)
    ensures NoDup(Deschedule(q, id)) && Due(Deschedule(q, id)) == Due(q) - {id}
  {
    var k := Find(q, id);
    Found(q, id);
    if k < |q| {
      Filled(q, k);
      var r := Fill(q, k);
      if k == 0 && |r| > 1 {
        Swapped(r, FirstMin(r), 0);
      }
    }
  }

  /** next_event takes an entry with the least tick, keeps every other entry, and leaves the clock at
      the tick of the entry it took. */
  lemma {:induction false} PopTakesLeast(s: Schedule)
    requires NoDup(s.queue) && s.queue != []
    ensures var e := s.queue[FirstMin(s.queue)];
      && e.id in Due(s.queue) && Due(s.queue)[e.id] == e.tick == Pop(s).now
      && (forall id :: id in Due(s.queue) ==> e.tick <= Due(s.queue)[id])
      && NoDup(Pop(s).queue) && Due(Pop(s).queue) == Due(s.queue) - {e.id}
  {
    var k := FirstMin(s.queue);
    DueIsHeld(s.queue);
    Taken(s.queue, k);
  }

  /** schedule_over gives the dependee the place of the dependent in the queue, or a new one. */
  lemma {:induction false} HandedOver(s: Schedule, dependee: EventId, dependent: EventId, delay: nat)
    requires NoDup(s.queue) && dependee !in Due(s.queue)
    ensures var t := Over(s, dependee, dependent, delay);
      && NoDup(t.queue)
      && Due(t.queue) == (Due(s.queue) - {dependent})[dependee := Cut(s.now + delay)]
      && |t.queue| == if dependent in Due(s.queue) then |s.queue| else |s.queue| + 1
  {
    hide Cut, NoDup, Due, Find;
    var e := Stamp(s.now + delay, dependee);
    Found(s.queue, dependent);
    if dependent in Due(s.queue) {
      Stolen(s.queue, Find(s.queue, dependent), e);
    } else {
      Appended(s.queue, e);
      assert Due(s.queue) - {dependent} == Due(s.queue);
    }
  }
}
