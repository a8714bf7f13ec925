/** bin/simexp/event_scheduler.hpp and event_scheduler.cpp, in place: the queue and the two halves of
    the dependency graph are fixed-size arrays. Each method is proved to have the effect that the
    function of the same operation in Schedules gives, exceptions included. */
module EventSchedulers {
  import opened Arithmetic
  import opened Slots
  import S = Schedules

  class EventScheduler {
    var scheduled: set<EventId>
    const dependencies: array<set<EventId>>
    const dependents: array<set<EventId>>
    var currentTick: nat
    const queue: array<S.Entry>
    var queueSize: nat
    var executed: nat

    ghost predicate Valid()
      reads this
    {
      && queue.Length == dependencies.Length == dependents.Length == MAX_EVENTS
      && dependencies != dependents
      && queueSize <= MAX_EVENTS
    }

    ghost function Repr(): set<object> {
      {this, dependencies, dependents, queue}
    }

    ghost function View(): S.Schedule
      reads this, dependencies, dependents, queue
      requires Valid()
    {
      S.Schedule(queue[..queueSize], currentTick, scheduled, dependencies[..], dependents[..], executed)
    }

    constructor ()
      ensures Valid() && fresh(Repr())
      ensures View() == S.Initial()
    {
      scheduled, currentTick, queueSize, executed := {}, 0, 0, 0;
      dependencies := new set<EventId>[MAX_EVENTS](i => {});
      dependents := new set<EventId>[MAX_EVENTS](i => {});
      queue := new S.Entry[MAX_EVENTS];
      new;
      assert dependencies[..] == S.NoEdges() && dependents[..] == S.NoEdges();
    }

    method Skip(ticks: nat) returns (skipped: bool)
      requires Valid()
      modifies this
      ensures Valid()
      ensures skipped <==> old(View()).queue == []
      ensures View() == if skipped then S.Skip(old(View()), ticks) else old(View())
    {
      if queueSize == 0 {
        currentTick := (currentTick + ticks) % U64_LIMIT;
        return true;
      }
      return false;
    }

    /** Needs a place in the queue, unless it throws. */
    method Schedule(id: EventId, delay: nat) returns (ok: bool)
      requires Valid() && (id in scheduled || queueSize < MAX_EVENTS)
      modifies Repr()
      ensures Valid()
      ensures ok <==> id !in old(View()).scheduled
      ensures View() == if ok then S.Add(old(View()), id, delay) else old(View())
      ensures queueSize == if ok then old(queueSize) + 1 else old(queueSize)
    {
      if id in scheduled {
        return false;
      }
      queue[queueSize] := S.Stamp(currentTick + delay, id);
      queueSize := queueSize + 1;
      scheduled := scheduled + {id};
      return true;
    }

    /** The search loop shared by schedule_over and pause. */
    method IndexOf(id: EventId) returns (k: nat)
      requires Valid()
      ensures k == S.Find(View().queue, id) <= queueSize
    {
      k := 0;
      while k < queueSize && queue[k].id != id
        invariant k <= queueSize
        invariant forall j :: 0 <= j < k ==> queue[j].id != id
      {
        k := k + 1;
      }
      S.FindUnique(queue[..queueSize], id, k);
    }

    /** Write a new entry at position `k`, which is the end of the queue or a place being stolen. */
    method Place(k: nat, e: S.Entry)
      requires Valid() && k <= queueSize && k < MAX_EVENTS
      modifies this`queueSize, queue
      ensures Valid()
      ensures queue[..queueSize] ==
        if k < old(queueSize) then old(queue[..queueSize])[k := e] else old(queue[..queueSize]) + [e]
    {
      queue[k] := e;
      if k == queueSize {
        queueSize := queueSize + 1;
      }
    }

    /** Needs a new place in the queue, unless it throws or there is the dependent's place to steal. */
    method ScheduleOver(dependee: EventId, dependent: EventId, delay: nat) returns (ok: bool)
      requires Valid()
      requires dependee in scheduled || S.Find(View().queue, dependent) < queueSize || queueSize < MAX_EVENTS
      modifies Repr()
      ensures Valid()
      ensures ok <==> dependee !in old(View()).scheduled
      ensures View() == if ok then S.Over(old(View()), dependee, dependent, delay) else old(View())
    {
      if dependee in scheduled {
        return false;
      }
      dependencies[dependent] := dependencies[dependent] + {dependee};
      dependents[dependee] := dependents[dependee] + {dependent};
      scheduled := scheduled - {dependent};
      scheduled := scheduled + {dependee};
      var k := IndexOf(dependent);
      Place(k, S.Stamp(currentTick + delay, dependee));
      return true;
    }

    method ResortQueue()
      requires Valid()
      modifies queue
      ensures queue[..queueSize] == S.Resort(old(queue[..queueSize]))
    {
      if queueSize <= 1 {
        return;
      }
      var m := 0;
      for k := 1 to queueSize
        invariant m < k && m == S.FirstMin(queue[..k])
      {
        assert queue[..k + 1][..k] == queue[..k];
        if queue[k].tick < queue[m].tick {
          m := k;
        }
      }
      queue[m], queue[0] := queue[0], queue[m];
    }

    /** Take the entry of a paused event out of the queue, if it has one. */
    method Deschedule(id: EventId)
      requires Valid()
      modifies this`queueSize, queue
      ensures Valid()
      ensures queue[..queueSize] == S.Deschedule(old(queue[..queueSize]), id)
    {
      var k := IndexOf(id);
      if k < queueSize {
        queueSize := queueSize - 1;
        queue[k] := queue[queueSize];
        assert queue[..queueSize] == S.Fill(old(queue[..queueSize]), k);
        if k == 0 {
          ResortQueue();
        }
      }
    }

    /** Record `dependent` as blocked by every one of `dependees`, lowest first. */
    method Block(dependees: set<EventId>, dependent: EventId)
      requires Valid()
      modifies dependents
      ensures dependents[..] == S.Block(old(dependents[..]), dependees, dependent)
    {
      var bits := dependees;
      while bits != {}
        invariant bits <= dependees
        invariant dependents[..] == S.Block(old(dependents[..]), dependees - bits, dependent)
        decreases |bits|
      {
        var dependee := Least(bits);
        bits := bits - {dependee};
        dependents[dependee] := dependents[dependee] + {dependent};
      }
    }

    method Pause(dependent: EventId, dependees: set<EventId>) returns (ok: bool)
      requires Valid()
      modifies Repr()
      ensures Valid()
      ensures ok <==> dependent !in dependees
      ensures View() == if ok then S.Pause(old(View()), dependent, dependees) else old(View())
    {
      if dependent in dependees {
        return false;
      }
      scheduled := scheduled + {dependent};
      dependencies[dependent] := dependencies[dependent] + dependees;
      Block(dependees, dependent);
      Deschedule(dependent);
      return true;
    }

    /** Take the front entry, and fill the front with the last entry if one is left. */
    method TakeFirst() returns (e: S.Entry)
      requires Valid() && queueSize > 0
      modifies this`queueSize, queue
      ensures Valid() && e == old(queue[0])
      ensures queue[..queueSize] == S.Fill(old(queue[..queueSize]), 0)
    {
      e := queue[0];
      if queueSize > 1 {
        queue[0] := queue[queueSize - 1];
      }
      queueSize := queueSize - 1;
    }

    method NextEvent() returns (id: EventId)
      requires Valid() && queueSize > 0
      modifies Repr()
      ensures Valid()
      ensures View() == S.Pop(old(View()))
      ensures id == old(View()).queue[S.FirstMin(old(View()).queue)].id
    {
      ghost var q := queue[..queueSize];
      S.ResortFirst(q);
      ResortQueue();
      var first := TakeFirst();
      id := first.id;
      currentTick, executed := first.tick, executed + 1;
      scheduled := scheduled - {id};
    }

    /** One turn of complete's loop: `waiter` no longer waits on `done`. */
    method Release(waiter: EventId, done: EventId)
      requires Valid() && (dependencies[waiter] <= {done} ==> queueSize < MAX_EVENTS)
      modifies this`queueSize, queue, dependencies
      ensures Valid()
      ensures View() == S.WakeOne(old(View()), done, waiter)
    {
      dependencies[waiter] := dependencies[waiter] - {done};
      if dependencies[waiter] == {} {
        Place(queueSize, S.Stamp(currentTick, waiter));
      }
    }

    method Complete(id: EventId)
      requires Valid()
      requires queueSize + |S.Woken(View(), id)| <= MAX_EVENTS
      modifies Repr()
      ensures Valid()
      ensures View() == S.Complete(old(View()), id)
    {
      var bits := dependents[id];
      while bits != {}
        invariant Valid() && bits <= old(dependents[id])
        invariant S.Wake(View(), id, bits) == S.Wake(old(View()), id, old(dependents[id]))
        invariant queueSize + |S.Ready(View(), id, bits)| <= MAX_EVENTS
        decreases |bits|
        modifies this`queueSize, queue, dependencies
      {
        var waiter := Least(bits);
        S.ReadyShrinks(View(), id, bits, waiter);
        bits := bits - {waiter};
        Release(waiter, id);
      }
      dependents[id] := {};
      dependencies[id] := {};
    }
  }
}
