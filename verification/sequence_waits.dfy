/** What waiting for a Sequence event does to the scheduler of bin/simexp/event_scheduler.hpp. */
module SequenceWaits {
  import opened Arithmetic
  import opened Slots
  import opened Schedules
  import opened Queues
  import opened Graphs
  import opened Protocol

  /** The slow path, first turn: the running event `e` hands over to the Sequence event `d`, and the
      loop completes `e`. */
  function Wait(s: Schedule, e: EventId, d: EventId, ticks: nat): Schedule {
    Settle(Decide(s, e, HandOver(d, ticks)), e)
  }

  /** Second turn: the front event is popped, its empty handler runs, and it is completed. The third
      turn pops the event that this queues. */
  function RunSequence(s: Schedule): Schedule {
    if s.queue == [] then s else Settle(Pop(s), s.queue[FirstMin(s.queue)].id)
  }

  function Resume(s: Schedule): Schedule {
    if s.queue == [] then s else Pop(s)
  }

  lemma {:induction false} PopOnly(s: Schedule, x: Entry)
    requires s.queue == [x]
    ensures Pop(s) == s.(queue := [], now := x.tick, scheduled := s.scheduled - {x.id}, executed := s.executed + 1)
  {
    assert TakeFront(s.queue, 0) == [];
  }

  /** Nothing waits on `e` or `d`, they wait on nothing, and neither has its scheduled bit set. */
  ghost predicate Quiet(s: Schedule, e: EventId, d: EventId) {
    && d != e
    && s.dents[e] == s.dents[d] == {}
    && s.deps[e] == s.deps[d] == {}
    && e !in s.scheduled && d !in s.scheduled
  }

  /** In a sound scheduler that is what the running event and an idle slot look like. */
  lemma {:induction false} RunningIsQuiet(s: Schedule, e: EventId, d: EventId)
    requires Sound(s, {e}) && s.queue == [] && s.dents[e] == {} && Idle(s, d) && d != e
    ensures Quiet(s, e, d)
  {
    NotWaiting(s, e);
    NotWaiting(s, d);
  }

  lemma {:induction false} NotWaiting(s: Schedule, x: EventId)
    requires Recorded(s, x) && !Waits(s, x)
    ensures s.deps[x] == {}
  {
    assert forall k: EventId :: x !in s.dents[k];
    assert forall k: EventId :: k !in s.deps[x];
  }

  lemma {:induction false} WaitEffect(s: Schedule, e: EventId, d: EventId, ticks: nat)
    requires s.queue == [] && Quiet(s, e, d)
    ensures Wait(s, e, d, ticks)
      == s.(queue := [Stamp(s.now + ticks, d)], scheduled := s.scheduled + {d}, dents := s.dents[d := {e}])
  {
    HandOverEffect(s, e, d, ticks);
    assert s.queue + [Stamp(s.now + ticks, d)] == [Stamp(s.now + ticks, d)];
    assert s.scheduled - {e} + {d} == s.scheduled + {d};
    assert s.deps[e := {}] == s.deps;
  }

  lemma {:induction false} RunSequenceEffect(s: Schedule, e: EventId, d: EventId, tick: nat)
    requires s.queue == [] && Quiet(s, e, d) && tick < TICK_LIMIT
    ensures RunSequence(s.(queue := [Entry(tick, d)], scheduled := s.scheduled + {d}, dents := s.dents[d := {e}]))
      == s.(queue := [Entry(tick, e)], now := tick, executed := s.executed + 1)
  {
    var t := s.(queue := [Entry(tick, d)], scheduled := s.scheduled + {d}, dents := s.dents[d := {e}]);
    PopOnly(t, Entry(tick, d));
    var p := s.(now := tick, dents := s.dents[d := {e}], executed := s.executed + 1);
    assert t.scheduled - {d} == s.scheduled;
    assert Pop(t) == p;
    CompleteHandedOver(p, d, e);
    assert p.queue + [Stamp(tick, e)] == [Entry(tick, e)];
    assert s.dents[d := {e}][d := {}] == s.dents;
  }

  /** When nothing is queued and nothing waits on the running event, the wait leaves the queue, the
      scheduled bits and the dependency graph of a skip; two more events have been executed, and the
      clock is the target tick cut to the 48 bits of a queue entry. */
  lemma {:induction false} ScheduleAfterWait(s: Schedule, e: EventId, d: EventId, ticks: nat)
    requires s.queue == [] && Quiet(s, e, d)
    ensures var t := RunSequence(Wait(s, e, d, ticks));
      && t.queue == [Stamp(s.now + ticks, e)]
      && Resume(t) == Skip(s, ticks).(now := Cut(s.now + ticks), executed := s.executed + 2)
  {
    var tick := Cut(s.now + ticks);
    CutFits(s.now + ticks);
    WaitEffect(s, e, d, ticks);
    RunSequenceEffect(s, e, d, tick);
    var u := s.(queue := [Entry(tick, e)], now := tick, executed := s.executed + 1);
    PopOnly(u, Entry(tick, e));
    assert u.scheduled - {e} == s.scheduled;
  }

  /** The low 48 bits of a tick survive its reduction to 64 bits. */
  lemma {:induction false} SameLowBits(x: nat)
    ensures x % TICK_LIMIT == x % U64_LIMIT % TICK_LIMIT
  {
    var hi, lo := x / U64_LIMIT, x % U64_LIMIT;
    Split(x, U64_LIMIT);
    Split(lo, TICK_LIMIT);
    Quotient(x, TICK_LIMIT, 0x1_0000 * hi + lo / TICK_LIMIT, lo % TICK_LIMIT);
  }

  lemma {:induction false} Unreduced(x: nat, m: nat)
    requires m > 0
    ensures x == x % m <==> x < m
  {
    Split(x, m);
    if x < m {
      Quotient(x, m, 0, x);
    }
  }

  /** The two clocks agree exactly when the target tick fits in 48 bits. */
  lemma {:induction false} ClocksAgreeWhenTickFits(s: Schedule, ticks: nat)
    ensures Skip(s, ticks).now == Cut(s.now + ticks) <==> (s.now + ticks) % U64_LIMIT < TICK_LIMIT
  {
    hide Cut;
    CutIsRemainder(s.now + ticks);
    SameLowBits(s.now + ticks);
    Unreduced((s.now + ticks) % U64_LIMIT, TICK_LIMIT);
  }
}
