/** The three kinds of turn that the running system takes: a CPU starts a memory read, memory answers it,
    and a CPU finishes an instruction and asks for its next clock. Each lemma starts from the state in
    which the event of the turn has just been popped. */
module SystemTurns {
  import opened Slots
  import opened Schedules
  import opened Queues
  import opened Events
  import opened Pools
  import opened Machine
  import opened Options
  import opened Systems
  import opened SystemStructure
  import Protocol

  /** What is due after `e` was handled and `x` was queued for `tick`. */
  ghost function DueAfter(due: map<EventId, nat>, e: EventId, x: EventId, tick: nat): map<EventId, nat> {
    (due - {e})[x := tick]
  }

  lemma {:induction false} Queueing(s: Schedule, e: EventId, x: EventId, tick: nat)
    requires Popped(s, e) && (x == e || x !in Due(s.queue))
    ensures var q := s.queue + [Stamp(tick, x)];
      NoDup(q) && Due(q) == DueAfter(DueWith(s, e), e, x, Cut(tick))
  {
    Appended(s.queue, Stamp(tick, x));
  }

  /* A CPU starts a read. */

  /** Slot `m` reads memory for CPU `i`, whose clock event waits for it. */
  function Reading(p: Sim, i: EventId, m: EventId, request: Event, c: Cpu): Sim
    requires i < |p.cpus|
  {
    Sim(p.sched.(queue := p.sched.queue + [Stamp(p.sched.now + 1, m)],
                 scheduled := p.sched.scheduled - {i} + {m},
                 dents := p.sched.dents[m := {i}]),
        Pool(p.pool.used + {m}, p.pool.slots[m := request], p.pool.allocations + 1, p.pool.frees),
        p.cpus[i := c],
        p.stored)
  }

  lemma {:induction false} ReadEffect(s: Schedule, i: EventId, m: EventId)
    requires Popped(s, i) && i != m && s.dents[i] == s.dents[m] == {} && s.deps[i] == {}
    ensures Complete(Over(s, m, i, 1), i)
      == s.(queue := s.queue + [Stamp(s.now + 1, m)], scheduled := s.scheduled - {i} + {m}, dents := s.dents[m := {i}])
    ensures i !in Over(s, m, i, 1).scheduled
  {
    Found(s.queue, i);
    Protocol.HandOverEffect(s, i, m, 1);
    assert s.deps[i := {}] == s.deps;
  }

  /** The slot that the next request gets. */
  lemma {:induction false} NextSlot(cfg: Config, p: Sim, w: Pending, due: map<EventId, nat>, i: nat)
    requires |w| <= 32 && i < |w| && w[i].None? && Placed(cfg, p, w, due, {i})
    ensures !Full(p.pool)
    ensures var m := FirstFree(p.pool.used);
      && |w| <= m && m !in due && m !in p.sched.scheduled
      && p.sched.dents[i] == p.sched.dents[m] == {} && p.sched.deps[i] == {}
  {
    SlotIsFree(cfg, p, w, due, {i}, i);
  }

  lemma {:induction false} SettleRecurring(s: Sim, e: EventId)
    requires e !in s.sched.scheduled && s.pool.slots[e].recurs
    ensures Settle(s, e) == s.(sched := Complete(s.sched, e))
  {
  }

  lemma {:induction false} ReadTurn(p: Sim, i: EventId, m: EventId, c: Cpu, len: nat, next: Coro)
    requires i < |p.cpus| <= 32 && !Full(p.pool) && m == FirstFree(p.pool.used) && m !in p.sched.scheduled
    requires Popped(p.sched, i) && i != m && p.pool.slots[i].recurs
    requires p.sched.dents[i] == p.sched.dents[m] == {} && p.sched.deps[i] == {}
    ensures Read(p, i, c, i, len, next).Some?
    ensures Settle(Read(p, i, c, i, len, next).value, i)
      == Reading(p, i, m, Request(i, c.pc, len), c.(coro := next, result := Zeros(len)))
  {
    var s := Read(p, i, c, i, len, next).value;
    ReadEffect(p.sched, i, m);
    SettleRecurring(s, i);
  }

  lemma {:induction false} ReadingOneEach(n: nat, w: Pending, due: map<EventId, nat>, slots: SlotArray,
                       i: nat, m: EventId, e: Event, tick: nat)
    requires n == |w| <= 32 && OneEach(n, w, due, slots)
    requires i < n && w[i].None? && n <= m && m !in due && e.buffer == i
    ensures OneEach(n, w[i := Some(m)], DueAfter(due, i, m, tick), slots[m := e])
  {
    var w', due', slots' := w[i := Some(m)], DueAfter(due, i, m, tick), slots[m := e];
    forall j | 0 <= j < n
      ensures Where(w', j) in due'
      ensures w'[j].Some? ==> n <= w'[j].value && slots'[w'[j].value].buffer == j
    {
      assert Where(w, j) in due;
      assert Owner(n, slots, Where(w, j)) == j;
    }
    forall x | x in due'
      ensures Owner(n, slots', x) < n && Where(w', Owner(n, slots', x)) == x
    {
      if x != m {
        assert x in due && x != i;
        assert Owner(n, slots', x) == Owner(n, slots, x);
        assert Where(w, Owner(n, slots, x)) == x;
      }
    }
  }

  lemma {:induction false} ReadingUsed(n: nat, due: map<EventId, nat>, used: set<EventId>, i: nat, m: EventId,
        tick: nat)
    requires UsedOk(n, due, used) && i < n <= 32
    ensures UsedOk(n, DueAfter(due, i, m, tick), used + {m})
  {
  }

  lemma {:induction false} ReadingScheduled(cpus: seq<Cpu>, due: map<EventId, nat>, scheduled: set<EventId>,
                         i: nat, m: EventId, c: Cpu, tick: nat)
    requires i < |cpus| <= 32 && ScheduledOk(cpus, due, scheduled, {i}) && |cpus| <= m && !Resting(c)
    ensures ScheduledOk(cpus[i := c], DueAfter(due, i, m, tick), scheduled - {i} + {m}, {})
  {
    hide Resting;
  }

  lemma {:induction false} ReadingEdges(n: nat, due: map<EventId, nat>, slots: SlotArray, deps: Graph, dents: Graph,
                     i: nat, m: EventId, e: Event, tick: nat)
    requires EdgesOk(n, due, slots, deps, dents) && i < n <= 32 && n <= m && m !in due && e.buffer == i
    ensures EdgesOk(n, DueAfter(due, i, m, tick), slots[m := e], deps, dents[m := {i}])
  {
  }

  lemma {:induction false} ReadingPlaced(cfg: Config, p: Sim, w: Pending, due: map<EventId, nat>,
                      i: nat, m: EventId, request: Event, c: Cpu, tick: nat)
    requires |w| <= 32 && i < |w| && w[i].None? && Placed(cfg, p, w, due, {i})
    requires |w| <= m && m !in due && request.buffer == i && !Resting(c)
    ensures Placed(cfg, Reading(p, i, m, request, c), w[i := Some(m)], DueAfter(due, i, m, tick), {})
  {
    hide UsedOk, ScheduledOk, EdgesOk, OneEach, Resting, DueAfter;
    ReadingOneEach(|w|, w, due, p.pool.slots, i, m, request, tick);
    ReadingUsed(|w|, due, p.pool.used, i, m, tick);
    ReadingScheduled(p.cpus, due, p.sched.scheduled, i, m, c, tick);
    ReadingEdges(|w|, due, p.pool.slots, p.sched.deps, p.sched.dents, i, m, request, tick);
  }

  /* Memory answers. */

  /** Request `m` is answered into the coroutine of CPU `i`, whose clock event is queued at once. */
  function Answered(p: Sim, m: EventId, i: EventId, c: Cpu): Sim
    requires i < |p.cpus|
  {
    Sim(p.sched.(queue := p.sched.queue + [Stamp(p.sched.now, i)], dents := p.sched.dents[m := {}]),
        Free(p.pool, m), p.cpus[i := c], p.stored)
  }

  lemma {:induction false} AnswerTurn(p: Sim, m: EventId, i: EventId, c: Cpu)
    requires i < |p.cpus| && m !in p.sched.scheduled && !p.pool.slots[m].recurs
    requires p.sched.dents[m] == {i} && p.sched.deps[i] == p.sched.deps[m] == {}
    ensures Settle(p.(cpus := p.cpus[i := c]), m) == Answered(p, m, i, c)
  {
    Protocol.CompleteHandedOver(p.sched, m, i);
  }

  lemma {:induction false} AnsweredOneEach(n: nat, w: Pending, due: map<EventId, nat>, slots: SlotArray,
                        i: nat, m: EventId, tick: nat)
    requires n == |w| <= 32 && OneEach(n, w, due, slots)
    requires i < n && w[i] == Some(m) && m in due
    ensures OneEach(n, w[i := None], DueAfter(due, m, i, tick), slots)
  {
    var w', due' := w[i := None], DueAfter(due, m, i, tick);
    forall j | 0 <= j < n
      ensures Where(w', j) in due'
    {
      assert Owner(n, slots, Where(w, j)) == j;
    }
    forall x | x in due'
      ensures Owner(n, slots, x) < n && Where(w', Owner(n, slots, x)) == x
    {
      if x != i {
        assert x in due && x != m;
        assert Where(w, Owner(n, slots, x)) == x;
      }
    }
  }

  /** A CPU that waits for its request has no clock event queued. */
  lemma {:induction false} WaiterIsNotQueued(n: nat, w: Pending, due: map<EventId, nat>, slots: SlotArray, i: nat)
    requires n == |w| <= 32 && OneEach(n, w, due, slots) && i < n && w[i].Some?
    ensures i !in due
  {
    assert Owner(n, slots, i) == i;
  }

  lemma {:induction false} AnsweredUsed(n: nat, due: map<EventId, nat>, used: set<EventId>, i: nat, m: EventId,
        tick: nat)
    requires UsedOk(n, due, used) && i < n <= 32 && n <= m
    ensures UsedOk(n, DueAfter(due, m, i, tick), used - {m})
  {
  }

  lemma {:induction false} AnsweredScheduled(cpus: seq<Cpu>, due: map<EventId, nat>, scheduled: set<EventId>,
                          i: nat, m: EventId, c: Cpu, tick: nat)
    requires ScheduledOk(cpus, due, scheduled, {m}) && i < |cpus| <= 32 && |cpus| <= m
    requires !Resting(cpus[i]) && !Resting(c)
    ensures ScheduledOk(cpus[i := c], DueAfter(due, m, i, tick), scheduled, {})
  {
    hide Resting;
  }

  lemma {:induction false} AnsweredEdges(n: nat, due: map<EventId, nat>, slots: SlotArray, deps: Graph, dents: Graph,
                      i: nat, m: EventId, tick: nat)
    requires EdgesOk(n, due, slots, deps, dents) && i < n <= 32 && n <= m
    ensures EdgesOk(n, DueAfter(due, m, i, tick), slots, deps, dents[m := {}])
  {
  }

  lemma {:induction false} RequestIsLater(n: nat, w: Pending, due: map<EventId, nat>, slots: SlotArray, i: nat,
        m: EventId)
    requires n == |w| <= 32 && OneEach(n, w, due, slots) && i < n && w[i] == Some(m)
    ensures n <= m
  {
  }

  lemma {:induction false} AnsweredPlaced(cfg: Config, p: Sim, w: Pending, due: map<EventId, nat>,
                       i: nat, m: EventId, c: Cpu, tick: nat)
    requires i < |w| && w[i] == Some(m) && Placed(cfg, p, w, due, {m}) && m in due
    requires !Resting(p.cpus[i]) && !Resting(c)
    ensures Placed(cfg, Answered(p, m, i, c), w[i := None], DueAfter(due, m, i, tick), {})
  {
    hide UsedOk, ScheduledOk, EdgesOk, OneEach, Resting, DueAfter;
    RequestIsLater(|w|, w, due, p.pool.slots, i, m);
    AnsweredOneEach(|w|, w, due, p.pool.slots, i, m, tick);
    AnsweredUsed(|w|, due, p.pool.used, i, m, tick);
    AnsweredScheduled(p.cpus, due, p.sched.scheduled, i, m, c, tick);
    AnsweredEdges(|w|, due, p.pool.slots, p.sched.deps, p.sched.dents, i, m, tick);
  }

  /* A CPU asks for its next clock. */

  /** The clock event of CPU `i` is queued for `tick`. */
  function Rested(p: Sim, i: EventId, c: Cpu, tick: nat): Sim
    requires i < |p.cpus|
  {
    p.(sched := p.sched.(queue := p.sched.queue + [Stamp(tick, i)], scheduled := p.sched.scheduled + {i}),
       cpus := p.cpus[i := c])
  }

  lemma {:induction false} RestedPlaced(cfg: Config, p: Sim, w: Pending, due: map<EventId, nat>, i: nat, c: Cpu,
        tick: nat)
    requires |w| <= 32 && i < |w| && w[i].None? && Placed(cfg, p, w, due, {i}) && i in due && Resting(c)
    ensures Placed(cfg, Rested(p, i, c, tick), w, DueAfter(due, i, i, tick), {})
  {
    assert forall x :: x in DueAfter(due, i, i, tick) <==> x in due;
  }
}
