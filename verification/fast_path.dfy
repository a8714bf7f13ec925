/** DelayAwaiter of bin/simexp/pep10isa.hpp: advance the clock at once (EventScheduler::skip), or wait for
    a Sequence event that is allocated, scheduled, dispatched, completed and freed. Proved here: exactly
    when both ways leave the same simulator. */
module FastPath {
  import opened Arithmetic
  import opened Slots
  import opened Schedules
  import opened Events
  import opened Options
  import opened Pools
  import opened Clocks
  import opened Systems
  import D = Dispatchers
  import G = Graphs
  import P = Protocol
  import Q = Queues
  import W = SequenceWaits

  function SequenceEvent(source: DeviceId): Event {
    Event(Sequence, source)
  }

  /** DelayAwaiter::await_suspend, in the handler of the event in slot `e`. */
  function Suspend(s: Sim, e: EventId, source: DeviceId, ticks: nat): Option<Sim> {
    if Full(s.pool) then None
    else
      var d := FirstFree(s.pool.used);
      if d in s.sched.scheduled then None
      else Some(s.(pool := Alloc(s.pool, SequenceEvent(source)), sched := Over(s.sched, d, e, ticks)))
  }

  /** The event that the next turn pops. */
  function Front(s: Sim): EventId
    requires s.sched.queue != []
  {
    s.sched.queue[FirstMin(s.sched.queue)].id
  }

  function Popped(s: Sim): Sim
    requires s.sched.queue != []
  {
    s.(sched := Pop(s.sched))
  }

  /** One turn of the loop that dispatches by `table`. */
  function TurnBy(cfg: Config, table: seq<DeviceId>, s: Sim): Option<Sim>
    requires Shaped(cfg, s) && s.sched.queue != []
  {
    var k := Front(s);
    match HandleBy(cfg, Popped(s), k, RouteBy(table, |cfg.clockOf|, s.pool.slots[k]))
    case None => None
    case Some(t) => Some(Settle(t, k))
  }

  /** With main's wiring this is a turn of the simulator. */
  lemma {:induction false} WiredTurn(cfg: Config, s: Sim)
    requires Shaped(cfg, s) && s.sched.queue != []
    ensures TurnBy(cfg, D.MapAll(Wiring(|cfg.clockOf|)), s) == Turn(cfg, s, FirstMin(s.sched.queue))
  {
    hide HandleBy, Settle, RouteBy;
  }

  /** The slow path: suspend, complete the waiting event, run one turn, and pop the waiting event again.
      It fails on an exception, and when the loop does not come back to the waiting event next. */
  function SlowPath(cfg: Config, table: seq<DeviceId>, s: Sim, e: EventId, source: DeviceId, ticks: nat): Option<Sim>
    requires Shaped(cfg, s)
  {
    match Suspend(s, e, source, ticks)
    case None => None
    case Some(a) =>
      var b := Settle(a, e);
      if b.sched.queue == [] then None
      else
        match TurnBy(cfg, table, b)
        case None => None
        case Some(c) => if c.sched.queue == [] || Front(c) != e then None else Some(Popped(c))
  }

  /** The fast path, on an empty queue. */
  function QuickPath(s: Sim, ticks: nat): Sim {
    s.(sched := Skip(s.sched, ticks))
  }

  /** The slow path ended in `u`, up to the three counters and what unused slots hold. */
  ghost predicate Agrees(slow: Option<Sim>, u: Sim) {
    && slow.Some?
    && var t := slow.value;
    && t.sched == u.sched.(executed := t.sched.executed)
    && t.pool.used == u.pool.used
    && (forall k :: k in u.pool.used ==> t.pool.slots[k] == u.pool.slots[k])
    && t.cpus == u.cpus
    && t.stored == u.stored
  }

  /** The handler of the event in slot `e` runs, nothing is queued, and the scheduler knows of no event
      in an unused slot. */
  ghost predicate Running(s: Sim, e: EventId) {
    && P.Sound(s.sched, {e})
    && s.sched.queue == []
    && e in s.pool.used
    && forall k: EventId :: k !in s.pool.used ==> P.Idle(s.sched, k)
  }

  /** Handlers that do nothing with a Sequence event. */
  predicate Ignores(to: Target) {
    to == ToDram || to == ToGovernor
  }

  /** What a caller can check before waiting. */
  predicate Interchangeable(cfg: Config, table: seq<DeviceId>, s: Sim, e: EventId, source: DeviceId, ticks: nat)
    requires |cfg.clockOf| <= 32
  {
    && !Full(s.pool)
    && s.pool.slots[e].recurs
    && s.sched.dents[e] == {}
    && Ignores(RouteBy(table, |cfg.clockOf|, SequenceEvent(source)))
    && (s.sched.now + ticks) % U64_LIMIT < TICK_LIMIT
  }

  lemma {:induction false} NewSlotIsQuiet(s: Sim, e: EventId)
    requires Running(s, e) && !Full(s.pool)
    ensures var d := FirstFree(s.pool.used);
      && d != e && d !in s.sched.scheduled && s.sched.dents[d] == {}
      && (s.sched.dents[e] == {} ==> W.Quiet(s.sched, e, d))
  {
    var d := FirstFree(s.pool.used);
    assert P.Idle(s.sched, d);
    if s.sched.dents[e] == {} {
      W.RunningIsQuiet(s.sched, e, d);
    }
  }

  /** The state after the suspended handler has returned. */
  lemma {:induction false} Suspended(s: Sim, e: EventId, source: DeviceId, ticks: nat)
    requires Running(s, e) && !Full(s.pool)
    ensures var d := FirstFree(s.pool.used);
      var a := Suspend(s, e, source, ticks);
      && a.Some?
      && var b := Settle(a.value, e);
      && b.sched == W.Wait(s.sched, e, d, ticks)
      && b.sched.dents[e] == {}
      && b.pool.slots == s.pool.slots[d := SequenceEvent(source)]
      && b.pool.used == (if s.pool.slots[e].recurs then s.pool.used + {d} else s.pool.used + {d} - {e})
      && b.cpus == s.cpus && b.stored == s.stored
  {
    hide Complete, Cut, P.Sound, P.Idle;
    NewSlotIsQuiet(s, e);
    var u := Over(s.sched, FirstFree(s.pool.used), e, ticks);
    G.CompleteEffect(u, e);
  }

  /** A handler that changes who waits on whom, or the pool, is that of a CPU, and moves its coroutine. */
  lemma {:induction false} HandlerLeavesTrace(cfg: Config, s: Sim, k: EventId, to: Target, t: Sim)
    requires Shaped(cfg, s) && HandleBy(cfg, s, k, to) == Some(t)
    ensures |t.cpus| == |s.cpus|
    ensures to.ToCpu? ==> exists j :: 0 <= j < |s.cpus| && t.cpus[j].coro != s.cpus[j].coro
    ensures !to.ToCpu? ==> t.sched.dents == s.sched.dents && t.pool == s.pool
  {
    match to
    case ToCpu(i) =>
      CpuMoves(cfg, s, i, k, t);
    case ToGovernor =>
      if s.pool.slots[k].etype == UpdateClockSchedule {
        ClocksOnly(cfg, s, 0, t);
      }
    case _ =>
  }

  lemma {:induction false} CpuMoves(cfg: Config, s: Sim, i: nat, k: EventId, t: Sim)
    requires i < |s.cpus| <= 32 && i < |cfg.clockOf| && cfg.clockOf[i] < |s.stored|
    requires s.stored[cfg.clockOf[i]].period > 0 && CpuEvent(cfg, s, i, k) == Some(t)
    ensures |t.cpus| == |s.cpus| && t.cpus[i].coro != s.cpus[i].coro
  {
    hide Over, Add, Alloc, FirstFree, NextClockTick;
  }

  lemma {:induction false} ClocksOnly(cfg: Config, s: Sim, i: nat, t: Sim)
    requires Proper(cfg) && i <= |cfg.clockOf| && |s.stored| == |cfg.clocks|
    requires UpdateClocks(cfg, s, i) == Some(t)
    ensures t.sched.dents == s.sched.dents && t.pool == s.pool && t.cpus == s.cpus
    decreases |cfg.clockOf| - i
  {
    hide NextClockTick;
    if i == |cfg.clockOf| {
    } else {
      var k := cfg.clockOf[i];
      if s.stored[k] == cfg.clocks[k] && i in s.sched.scheduled {
        ClocksOnly(cfg, s, i + 1, t);
      } else {
        var next := NextClockTick(cfg.clocks[k], cfg.noise, Wrap(s.sched.now), 1);
        ClocksOnly(cfg, s.(sched := Add(s.sched, i, Wrap(next - s.sched.now)),
                           stored := s.stored[k := cfg.clocks[k]]), i + 1, t);
      }
    }
  }

  /** The turn that runs the Sequence event, if its handler ignores it. */
  lemma {:induction false} SequenceTurn(cfg: Config, table: seq<DeviceId>, b: Sim, d: EventId, source: DeviceId)
    requires Shaped(cfg, b) && b.sched.queue != [] && Front(b) == d && d !in Popped(b).sched.scheduled
    requires b.pool.slots[d] == SequenceEvent(source)
    requires Ignores(RouteBy(table, |cfg.clockOf|, SequenceEvent(source)))
    ensures TurnBy(cfg, table, b)
      == Some(b.(sched := P.Settle(Pop(b.sched), d), pool := Free(b.pool, d)))
  {
    hide Complete, Pop, RouteBy;
  }

  /** Under the conditions the slow path is the fast path plus two executed events, one allocation and
      one free; it writes one slot, which was unused and is unused again. */
  lemma {:induction false} SkipEqualsSequence(cfg: Config, table: seq<DeviceId>, s: Sim, e: EventId,
        source: DeviceId, ticks: nat)
    requires Shaped(cfg, s) && Running(s, e) && Interchangeable(cfg, table, s, e, source, ticks)
    ensures var d := FirstFree(s.pool.used);
      var u := QuickPath(s, ticks);
      SlowPath(cfg, table, s, e, source, ticks) == Some(u.(
        sched := u.sched.(executed := s.sched.executed + 2),
        pool := Pool(s.pool.used, s.pool.slots[d := SequenceEvent(source)],
                     s.pool.allocations + 1, s.pool.frees + 1)))
  {
    hide Complete, Cut, P.Sound, P.Idle, RouteBy, Over, Skip, W.Quiet;
    var d := FirstFree(s.pool.used);
    NewSlotIsQuiet(s, e);
    Suspended(s, e, source, ticks);
    var b := Settle(Suspend(s, e, source, ticks).value, e);
    W.WaitEffect(s.sched, e, d, ticks);
    assert d !in Pop(b.sched).scheduled;
    SequenceTurn(cfg, table, b, d, source);
    W.ScheduleAfterWait(s.sched, e, d, ticks);
    W.ClocksAgreeWhenTickFits(s.sched, ticks);
    assert s.pool.used + {d} - {d} == s.pool.used;
  }

  lemma {:induction false} SettleOnlyClears(s: Sim, k: EventId, e: EventId)
    requires s.sched.dents[e] == {}
    ensures Settle(s, k).sched.dents[e] == {}
    ensures Settle(s, k).pool.used <= s.pool.used
    ensures Settle(s, k).cpus == s.cpus
  {
    G.CompleteEffect(s.sched, k);
  }

  /** A turn that moves no coroutine adds no waiter and uses no new slot. */
  lemma {:induction false} PlainTurn(cfg: Config, table: seq<DeviceId>, b: Sim, c: Sim, e: EventId)
    requires Shaped(cfg, b) && b.sched.queue != [] && TurnBy(cfg, table, b) == Some(c)
    requires c.cpus == b.cpus && b.sched.dents[e] == {}
    ensures c.sched.dents[e] == {} && c.pool.used <= b.pool.used
    ensures var to := RouteBy(table, |cfg.clockOf|, b.pool.slots[Front(b)]); !to.ToCpu? && !to.Nobody?
  {
    hide Settle, HandleBy, RouteBy, P.Settle;
    var k := Front(b);
    var to := RouteBy(table, |cfg.clockOf|, b.pool.slots[k]);
    var t := HandleBy(cfg, Popped(b), k, to).value;
    SettleKeepsCpus(t, k);
    HandlerLeavesTrace(cfg, Popped(b), k, to, t);
    SettleOnlyClears(t, k, e);
    NobodyThrows(cfg, Popped(b), k);
  }

  lemma {:induction false} SettleKeepsCpus(s: Sim, k: EventId)
    ensures Settle(s, k).cpus == s.cpus
  {
  }

  lemma {:induction false} NobodyThrows(cfg: Config, s: Sim, k: EventId)
    requires Shaped(cfg, s)
    ensures HandleBy(cfg, s, k, Nobody) == None
  {
  }

  /** If the paths agree, nothing waited on the event, and its slot stays its own. */
  lemma {:induction false} AgreeingIsQuiet(cfg: Config, table: seq<DeviceId>, s: Sim, e: EventId, source: DeviceId,
        ticks: nat)
    requires Shaped(cfg, s) && Running(s, e)
    requires Agrees(SlowPath(cfg, table, s, e, source, ticks), QuickPath(s, ticks))
    ensures !Full(s.pool) && s.pool.slots[e].recurs && s.sched.dents[e] == {}
  {
    hide P.Sound, P.Idle, RouteBy, TurnBy, Settle, W.Wait;
    Suspended(s, e, source, ticks);
    var b := Settle(Suspend(s, e, source, ticks).value, e);
    PlainTurn(cfg, table, b, TurnBy(cfg, table, b).value, e);
  }

  lemma {:induction false} AgreeingIsIgnored(cfg: Config, table: seq<DeviceId>, s: Sim, e: EventId, source: DeviceId,
        ticks: nat)
    requires Shaped(cfg, s) && Running(s, e) && !Full(s.pool) && s.sched.dents[e] == {}
    requires Agrees(SlowPath(cfg, table, s, e, source, ticks), QuickPath(s, ticks))
    ensures Ignores(RouteBy(table, |cfg.clockOf|, SequenceEvent(source)))
    ensures (s.sched.now + ticks) % U64_LIMIT < TICK_LIMIT
  {
    hide P.Sound, P.Idle, RouteBy, TurnBy, Settle, W.Quiet, W.Wait, Over, Cut, Complete;
    var d := FirstFree(s.pool.used);
    NewSlotIsQuiet(s, e);
    Suspended(s, e, source, ticks);
    var b := Settle(Suspend(s, e, source, ticks).value, e);
    W.WaitEffect(s.sched, e, d, ticks);
    assert Front(b) == d;
    PlainTurn(cfg, table, b, TurnBy(cfg, table, b).value, e);
    SequenceTurn(cfg, table, b, d, source);
    W.ScheduleAfterWait(s.sched, e, d, ticks);
    W.ClocksAgreeWhenTickFits(s.sched, ticks);
  }

  /** The two paths agree exactly when a slot is free, the waiting event recurs and nothing waits on it,
      the handler registered for the Sequence event ignores it, and the target tick fits in 48 bits. */
  lemma {:induction false} PathsAgreeExactly(cfg: Config, table: seq<DeviceId>, s: Sim, e: EventId, source: DeviceId,
        ticks: nat)
    requires Shaped(cfg, s) && Running(s, e)
    ensures Agrees(SlowPath(cfg, table, s, e, source, ticks), QuickPath(s, ticks))
      <==> Interchangeable(cfg, table, s, e, source, ticks)
  {
    hide P.Sound, P.Idle, RouteBy, SlowPath;
    if Interchangeable(cfg, table, s, e, source, ticks) {
      SkipEqualsSequence(cfg, table, s, e, source, ticks);
      W.ClocksAgreeWhenTickFits(s.sched, ticks);
    } else if Agrees(SlowPath(cfg, table, s, e, source, ticks), QuickPath(s, ticks)) {
      AgreeingIsQuiet(cfg, table, s, e, source, ticks);
      AgreeingIsIgnored(cfg, table, s, e, source, ticks);
    }
  }

  /* main maps no handler for Sequence events. */

  lemma {:induction false} NoSequenceHandler(n: nat, i: nat, source: DeviceId)
    requires i <= n <= 32
    ensures D.LastMapped(CpuWiring(n, i), D.Key(source, Sequence)) == 0
  {
    if i == 0 {
    } else {
      var calls := CpuWiring(n, i);
      assert calls[..|calls| - 1][..|calls| - 2] == CpuWiring(n, i - 1);
      NoSequenceHandler(n, i - 1, source);
    }
  }

  lemma {:induction false} SequenceIsUnmapped(n: nat, source: DeviceId)
    requires n <= 32
    ensures Route(n, SequenceEvent(source)) == Nobody
  {
    var calls := Wiring(n);
    assert calls[..|calls| - 1] == CpuWiring(n, n);
    NoSequenceHandler(n, n, source);
    D.TableIsLastMapped(calls, D.Key(source, Sequence));
  }

  /** So with main's wiring every wait throws, where skip succeeds. */
  lemma {:induction false} WiredWaitThrows(cfg: Config, s: Sim, e: EventId, source: DeviceId, ticks: nat)
    requires Shaped(cfg, s) && Running(s, e) && s.sched.dents[e] == {}
    ensures SlowPath(cfg, D.MapAll(Wiring(|cfg.clockOf|)), s, e, source, ticks) == None
  {
    hide P.Sound, P.Idle, W.Quiet, W.Wait, Over, Cut, Complete, HandleBy;
    if !Full(s.pool) {
      var d := FirstFree(s.pool.used);
      NewSlotIsQuiet(s, e);
      Suspended(s, e, source, ticks);
      var b := Settle(Suspend(s, e, source, ticks).value, e);
      W.WaitEffect(s.sched, e, d, ticks);
      assert Front(b) == d;
      SequenceIsUnmapped(|cfg.clockOf|, source);
      NobodyThrows(cfg, Popped(b), d);
    }
  }

  /** A simulator in which the first CPU's clock event runs alone. */
  function FirstCpuAlone(cfg: Config): Sim
    requires Proper(cfg)
  {
    Boot(cfg).(sched := Initial(), pool := Alloc(Empty(), Receipt(cfg, 0)))
  }

  lemma {:induction false} WaitThrowsWhereSkipSucceeds(cfg: Config, ticks: nat)
    requires Proper(cfg)
    ensures var s := FirstCpuAlone(cfg);
      && Shaped(cfg, s) && Running(s, 0)
      && SlowPath(cfg, D.MapAll(Wiring(|cfg.clockOf|)), s, 0, CpuId(0), ticks) == None
  {
    var s := FirstCpuAlone(cfg);
    P.InitiallySound();
    CountBelow({}, 0);
    assert FirstFree({}) == 0;
    assert forall k: EventId :: !P.Waits(Initial(), k);
    WiredWaitThrows(cfg, s, 0, CpuId(0), ticks);
  }
}
