/** How the system starts: the slots that wiring allocates, and the first turn of the loop, in which the
    governor queues the clock event of every CPU on edge 1 of its clock. */
module SystemBoot {
  import opened Arithmetic
  import opened Slots
  import opened Schedules
  import opened Queues
  import opened Events
  import opened Pools
  import opened Clocks
  import opened Options
  import opened Systems
  import opened SystemStructure
  import opened SystemTurns
  import opened SystemViews
  import opened SystemSteps
  import opened SystemProgress

  /** Slots 0 to `i` - 1 are used. */
  ghost predicate FirstSlots(used: set<EventId>, i: nat) {
    forall x: EventId :: x in used <==> x < i
  }

  ghost predicate Booted(cfg: Config, p: Pool, i: nat)
    requires Proper(cfg) && i <= |cfg.clockOf|
  {
    && FirstSlots(p.used, i) && p.allocations == i && p.frees == 0
    && forall j :: 0 <= j < i ==> p.slots[j] == Receipt(cfg, j)
  }

  lemma {:induction false} NextFree(p: Pool, i: nat)
    requires FirstSlots(p.used, i) && i < MAX_EVENTS
    ensures !Full(p) && FirstFree(p.used) == i
  {
    CountBelow(p.used, i);
    var id: EventId := i;
    assert id !in p.used;
  }

  lemma {:induction false} BootSlots(cfg: Config, i: nat)
    requires Proper(cfg) && i <= |cfg.clockOf|
    ensures Booted(cfg, BootPool(cfg, i), i)
  {
    hide FirstFree, Full;
    if i == 0 {
    } else {
      BootSlots(cfg, i - 1);
      NextFree(BootPool(cfg, i - 1), i - 1);
    }
  }

  /** The tick for which the governor queues the clock event of CPU `i`. */
  function FirstTickOf(cfg: Config, i: nat): nat
    requires Proper(cfg) && i < |cfg.clockOf|
  {
    Cut(NextClockTick(ClockOf(cfg, i), cfg.noise, 0, 1))
  }

  /** The governor has started the clocks of the first `i` CPUs. */
  ghost predicate Started(cfg: Config, p: Sim, s: Sim, i: nat)
    requires Proper(cfg) && i <= |cfg.clockOf|
  {
    && s == p.(sched := p.sched.(queue := s.sched.queue, scheduled := s.sched.scheduled), stored := s.stored)
    && |s.stored| == |cfg.clocks| && s.sched.now == 0
    && NoDup(s.sched.queue) && FirstSlots(Due(s.sched.queue).Keys, i) && FirstSlots(s.sched.scheduled, i)
    && (forall j :: 0 <= j < i ==>
          && Due(s.sched.queue)[j] == FirstTickOf(cfg, j)
          && s.stored[cfg.clockOf[j]] == ClockOf(cfg, j))
  }

  lemma {:induction false} StartClock(cfg: Config, p: Sim, s: Sim, s': Sim, i: nat, tick: nat)
    requires Proper(cfg) && i < |cfg.clockOf| && Started(cfg, p, s, i)
    requires Cut(tick) == FirstTickOf(cfg, i)
    requires s' == s.(sched := Add(s.sched, i, tick), stored := s.stored[cfg.clockOf[i] := ClockOf(cfg, i)])
    ensures Started(cfg, p, s', i + 1)
  {
    hide NextClockTick, Add, Due, NoDup, FirstSlots;
    StartQueue(s.sched, i, tick);
  }

  /** One more clock event in the queue. */
  lemma {:induction false} StartQueue(s: Schedule, i: EventId, tick: nat)
    requires NoDup(s.queue) && s.now == 0 && FirstSlots(Due(s.queue).Keys, i) && FirstSlots(s.scheduled, i)
    ensures var t := Add(s, i, tick);
      && t == s.(queue := t.queue, scheduled := t.scheduled)
      && NoDup(t.queue) && Due(t.queue) == Due(s.queue)[i := Cut(tick)]
      && FirstSlots(Due(t.queue).Keys, i + 1) && FirstSlots(t.scheduled, i + 1)
  {
    hide NoDup, Due;
    Appended(s.queue, Stamp(tick, i));
  }

  /** The turn of the governor's loop for CPU `i`. */
  lemma {:induction false} FirstClock(cfg: Config, s: Sim, i: nat) returns (tick: nat)
    requires Proper(cfg) && i < |cfg.clockOf| && s.sched.now == 0
    requires |s.stored| == |cfg.clocks| && i !in s.sched.scheduled
    ensures tick == NextClockTick(ClockOf(cfg, i), cfg.noise, 0, 1) && Cut(tick) == FirstTickOf(cfg, i)
    ensures UpdateClocks(cfg, s, i) == UpdateClocks(cfg,
      s.(sched := Add(s.sched, i, tick), stored := s.stored[cfg.clockOf[i] := ClockOf(cfg, i)]), i + 1)
  {
    hide NextClockTick, Add;
    tick := NextClockTick(ClockOf(cfg, i), cfg.noise, 0, 1);
    WrapSmall(tick);
  }

  lemma {:induction false} ClocksStart(cfg: Config, p: Sim, s: Sim, i: nat)
    requires Proper(cfg) && i <= |cfg.clockOf| && Started(cfg, p, s, i)
    ensures UpdateClocks(cfg, s, i).Some? && Started(cfg, p, UpdateClocks(cfg, s, i).value, |cfg.clockOf|)
    decreases |cfg.clockOf| - i
  {
    hide NextClockTick, FirstTickOf, Add;
    if i == |cfg.clockOf| {
    } else {
      var tick := FirstClock(cfg, s, i);
      var s' := s.(sched := Add(s.sched, i, tick), stored := s.stored[cfg.clockOf[i] := ClockOf(cfg, i)]);
      StartClock(cfg, p, s, s', i, tick);
      ClocksStart(cfg, p, s', i + 1);
    }
  }

  /* The first turn. */

  function BootCpu(): Cpu {
    Cpu(0, 0, 0, NotStarted, None, [])
  }

  /** The state in which the governor's event has just been popped. */
  ghost predicate AtBoot(cfg: Config, p: Sim)
    requires Proper(cfg)
  {
    var n := |cfg.clockOf|;
    && p.sched == Initial().(executed := 1)
    && FirstSlots(p.pool.used, n + 1) && p.pool.allocations == n + 1 && p.pool.frees == 0
    && (forall j :: 0 <= j < n ==> p.pool.slots[j] == Receipt(cfg, j))
    && p.pool.slots[n] == Event(UpdateClockSchedule, 0)
    && |p.cpus| == n && (forall j :: 0 <= j < n ==> p.cpus[j] == BootCpu())
    && |p.stored| == |cfg.clocks|
  }

  lemma {:induction false} OnlyEventPopped(n: EventId)
    ensures var s := Add(Initial(), n, 0);
      s.queue == [Entry(0, n)] && PopAt(s, 0) == Initial().(executed := 1)
  {
    var s := Add(Initial(), n, 0);
    assert s.queue == [Entry(0, n)];
    assert TakeFront([Entry(0, n)], 0) == [];
    assert {n} - {n} == {};
  }

  lemma {:induction false} BootPopped(cfg: Config)
    requires Proper(cfg)
    ensures var (s, n) := (Boot(cfg), |cfg.clockOf|);
      Shaped(cfg, s) && s.sched.queue == [Entry(0, n)] && AtBoot(cfg, s.(sched := PopAt(s.sched, 0)))
  {
    hide FirstFree, Full, BootPool, Initial, Add, PopAt;
    var n := |cfg.clockOf|;
    BootSlots(cfg, n);
    NextFree(BootPool(cfg, n), n);
    OnlyEventPopped(n);
  }

  /** The governor's event is completed and its slot freed. */
  lemma {:induction false} SettleBoot(cfg: Config, p: Sim, q: Sim)
    requires Proper(cfg) && AtBoot(cfg, p) && Started(cfg, p, q, |cfg.clockOf|)
    ensures Settle(q, |cfg.clockOf|) == q.(pool := Free(q.pool, |cfg.clockOf|))
  {
    hide Wake;
    var n := |cfg.clockOf|;
    var s := q.sched;
    assert Wake(s, n, {}) == s by {
      WakeNone(s, n);
    }
    assert s.deps[n := {}] == s.deps && s.dents[n := {}] == s.dents;
  }

  lemma {:induction false} WakeNone(s: Schedule, done: EventId)
    ensures Wake(s, done, {}) == s
  {
  }

  function BootView(cfg: Config, i: nat): View
    requires Proper(cfg) && i < |cfg.clockOf|
  {
    View(BootCpu(), None, FirstTickOf(cfg, i))
  }

  function BootViews(cfg: Config): (views: seq<View>)
    requires Proper(cfg)
    ensures |views| == |cfg.clockOf|
  {
    seq(|cfg.clockOf|, i requires 0 <= i < |cfg.clockOf| => BootView(cfg, i))
  }

  /** No CPU waits for memory. */
  function NoRequests(n: nat): Pending {
    seq(n, i => None)
  }

  lemma {:induction false} StartedIsGood(cfg: Config, p: Sim, q: Sim)
    requires Proper(cfg) && AtBoot(cfg, p) && Started(cfg, p, q, |cfg.clockOf|)
    ensures Between(cfg, q.(pool := Free(q.pool, |cfg.clockOf|)), NoRequests(|cfg.clockOf|), BootViews(cfg))
  {
    hide FirstTickOf;
    forall i | 0 <= i < |cfg.clockOf|
      ensures FirstTickOf(cfg, i) < TICK_LIMIT
    {
      FirstTickFits(cfg, i);
    }
  }

  lemma {:induction false} FirstTickFits(cfg: Config, i: nat)
    requires Proper(cfg) && i < |cfg.clockOf|
    ensures FirstTickOf(cfg, i) < TICK_LIMIT
  {
    CutFits(NextClockTick(ClockOf(cfg, i), cfg.noise, 0, 1));
  }

  /** The first turn starts the clock of every CPU. */
  lemma {:induction false} FirstTurn(cfg: Config) returns (t: Sim)
    requires Proper(cfg)
    ensures Boot(cfg).sched.queue == [Entry(0, |cfg.clockOf|)]
    ensures Turn(cfg, Boot(cfg), 0) == Some(t) && t.sched.now == 0
    ensures Between(cfg, t, NoRequests(|cfg.clockOf|), BootViews(cfg))
    ensures t.sched.executed == 1 && t.pool.allocations == |cfg.clockOf| + 1 && t.pool.frees == 1
    ensures Balanced(t.pool)
  {
    hide Between, UpdateClocks, Settle, Route, PopAt, Boot, CpuEvent, DramEvent;
    var n := |cfg.clockOf|;
    var s := Boot(cfg);
    BootPopped(cfg);
    var p := s.(sched := PopAt(s.sched, 0));
    Routes(n, 0);
    ClocksStart(cfg, p, p, 0);
    var q := UpdateClocks(cfg, p, 0).value;
    SettleBoot(cfg, p, q);
    StartedIsGood(cfg, p, q);
    t := q.(pool := Free(q.pool, n));
    assert FirstSlots(t.pool.used, n);
    CountBelow(t.pool.used, n);
  }

  /* Updating the clocks at any later time. */

  /** The tick for which the governor queues the clock event of CPU `i` at time `now`. */
  function StartTick(cfg: Config, now: nat, i: nat): nat
    requires Proper(cfg) && i < |cfg.clockOf|
  {
    Cut(NextClockTick(ClockOf(cfg, i), cfg.noise, Wrap(now), 1))
  }

  /** CPU `j`, from `i` on, is scheduled on a clock that has changed and that no earlier CPU has restarted. */
  ghost predicate Stuck(cfg: Config, s: Sim, i: nat, j: nat)
    requires Proper(cfg) && |s.stored| == |cfg.clocks| && i <= j < |cfg.clockOf|
  {
    && j in s.sched.scheduled && s.stored[cfg.clockOf[j]] != ClockOf(cfg, j)
    && forall h :: i <= h < j && cfg.clockOf[h] == cfg.clockOf[j] ==> h in s.sched.scheduled
  }

  ghost predicate SomeStuck(cfg: Config, s: Sim, i: nat)
    requires Proper(cfg) && |s.stored| == |cfg.clocks| && i <= |cfg.clockOf|
  {
    exists j :: i <= j < |cfg.clockOf| && Stuck(cfg, s, i, j)
  }

  /** From `s` to `t`, the clocks of the CPUs from `i` on were started or left running. */
  ghost predicate Restarted(cfg: Config, s: Sim, t: Sim, i: nat)
    requires Proper(cfg) && i <= |cfg.clockOf|
  {
    && NoDup(t.sched.queue) && t.pool == s.pool && t.cpus == s.cpus
    && |s.stored| == |t.stored| == |cfg.clocks|
    && (forall k :: 0 <= k < |cfg.clocks| ==> t.stored[k] == s.stored[k] || t.stored[k] == cfg.clocks[k])
    && t.sched.now == s.sched.now && t.sched.deps == s.sched.deps && t.sched.dents == s.sched.dents
    && (forall x: EventId :: x in t.sched.scheduled <==> x in s.sched.scheduled || i <= x < |cfg.clockOf|)
    && (forall x: EventId :: x in Due(t.sched.queue)
          <==> x in Due(s.sched.queue) || (i <= x < |cfg.clockOf| && x !in s.sched.scheduled))
    && (forall x :: x in Due(s.sched.queue) ==>
          x in Due(t.sched.queue) && Due(t.sched.queue)[x] == Due(s.sched.queue)[x])
    && (forall j :: i <= j < |cfg.clockOf| && j !in s.sched.scheduled ==>
          j in Due(t.sched.queue) && Due(t.sched.queue)[j] == StartTick(cfg, s.sched.now, j)
          && t.stored[cfg.clockOf[j]] == ClockOf(cfg, j))
  }

  /** No CPU's clock event is queued without its scheduled bit. */
  ghost predicate QueuedAreScheduled(cfg: Config, s: Sim) {
    forall j: EventId :: j < |cfg.clockOf| && j in Due(s.sched.queue) ==> j in s.sched.scheduled
  }

  lemma {:induction false} OneRestart(cfg: Config, s: Sim, i: nat) returns (u: Sim)
    requires Proper(cfg) && i < |cfg.clockOf| && |s.stored| == |cfg.clocks| && i !in s.sched.scheduled
    requires NoDup(s.sched.queue) && QueuedAreScheduled(cfg, s) && s.sched.now < TICK_LIMIT
    ensures u == s.(sched := s.sched.(queue := u.sched.queue, scheduled := s.sched.scheduled + {i}),
                    stored := s.stored[cfg.clockOf[i] := ClockOf(cfg, i)])
    ensures UpdateClocks(cfg, s, i) == UpdateClocks(cfg, u, i + 1)
    ensures NoDup(u.sched.queue) && Due(u.sched.queue) == Due(s.sched.queue)[i := StartTick(cfg, s.sched.now, i)]
  {
    hide NextClockTick, Cut, Add, Due, NoDup;
    var next: u64 := NextClockTick(ClockOf(cfg, i), cfg.noise, Wrap(s.sched.now), 1);
    u := s.(sched := Add(s.sched, i, Wrap(next - s.sched.now)),
            stored := s.stored[cfg.clockOf[i] := ClockOf(cfg, i)]);
    QueueRestart(s.sched, i, next);
    assert UpdateClocks(cfg, s, i) == UpdateClocks(cfg, u, i + 1);
  }

  lemma {:induction false} QueueRestart(s: Schedule, i: EventId, next: u64)
    requires NoDup(s.queue) && i !in Due(s.queue) && s.now < TICK_LIMIT
    ensures var t := Add(s, i, Wrap(next - s.now));
      && t == s.(queue := t.queue, scheduled := s.scheduled + {i})
      && NoDup(t.queue) && Due(t.queue) == Due(s.queue)[i := Cut(next)]
  {
    hide Cut, Due, NoDup;
    DelayTo(s.now, next, i);
    Appended(s.queue, Stamp(next, i));
  }

  lemma {:induction false} NoneToRestart(cfg: Config, s: Sim)
    requires Proper(cfg) && |s.stored| == |cfg.clocks| && NoDup(s.sched.queue)
    ensures Restarted(cfg, s, s, |cfg.clockOf|) && UpdateClocks(cfg, s, |cfg.clockOf|) == Some(s)
  {
  }

  /** ClockGovernor::handle_event at any time: it throws exactly when a CPU is scheduled on a changed clock that
      it has not restarted for an earlier CPU; otherwise every CPU that was not scheduled is queued for the next
      tick of its clock, and every other event stays as it was. */
  lemma {:induction false} UpdateOutcome(cfg: Config, s: Sim, i: nat)
    requires Proper(cfg) && i <= |cfg.clockOf| && |s.stored| == |cfg.clocks|
    requires NoDup(s.sched.queue) && QueuedAreScheduled(cfg, s) && s.sched.now < TICK_LIMIT
    ensures UpdateClocks(cfg, s, i) == None <==> SomeStuck(cfg, s, i)
    ensures UpdateClocks(cfg, s, i).Some? ==> Restarted(cfg, s, UpdateClocks(cfg, s, i).value, i)
    decreases |cfg.clockOf| - i
  {
    hide NextClockTick, Cut, Add, StartTick, Restarted;
    if i == |cfg.clockOf| {
      NoneToRestart(cfg, s);
    } else if i !in s.sched.scheduled {
      var u := OneRestart(cfg, s, i);
      UpdateOutcome(cfg, u, i + 1);
      StuckLater(cfg, s, u, i);
      if UpdateClocks(cfg, u, i + 1).Some? {
        RestartedToo(cfg, s, u, UpdateClocks(cfg, u, i + 1).value, i);
      }
    } else if s.stored[cfg.clockOf[i]] == ClockOf(cfg, i) {
      assert UpdateClocks(cfg, s, i) == UpdateClocks(cfg, s, i + 1);
      UpdateOutcome(cfg, s, i + 1);
      StuckSkipped(cfg, s, i);
      if UpdateClocks(cfg, s, i + 1).Some? {
        RestartedSkipped(cfg, s, UpdateClocks(cfg, s, i + 1).value, i);
      }
    } else {
      assert Stuck(cfg, s, i, i);
    }
  }

  lemma {:induction false} StuckLater(cfg: Config, s: Sim, u: Sim, i: nat)
    requires Proper(cfg) && i < |cfg.clockOf| && |s.stored| == |cfg.clocks| && i !in s.sched.scheduled
    requires u.sched.scheduled == s.sched.scheduled + {i}
    requires u.stored == s.stored[cfg.clockOf[i] := ClockOf(cfg, i)]
    ensures SomeStuck(cfg, s, i) <==> SomeStuck(cfg, u, i + 1)
  {
    forall j | i + 1 <= j < |cfg.clockOf|
      ensures Stuck(cfg, s, i, j) <==> Stuck(cfg, u, i + 1, j)
    {
    }
    assert !Stuck(cfg, s, i, i);
    if SomeStuck(cfg, s, i) {
      var j :| i <= j < |cfg.clockOf| && Stuck(cfg, s, i, j);
      assert Stuck(cfg, u, i + 1, j);
    }
    if SomeStuck(cfg, u, i + 1) {
      var j :| i + 1 <= j < |cfg.clockOf| && Stuck(cfg, u, i + 1, j);
      assert Stuck(cfg, s, i, j);
    }
  }

  lemma {:induction false} StuckSkipped(cfg: Config, s: Sim, i: nat)
    requires Proper(cfg) && i < |cfg.clockOf| && |s.stored| == |cfg.clocks| && i in s.sched.scheduled
    requires s.stored[cfg.clockOf[i]] == ClockOf(cfg, i)
    ensures SomeStuck(cfg, s, i) <==> SomeStuck(cfg, s, i + 1)
  {
    forall j | i + 1 <= j < |cfg.clockOf|
      ensures Stuck(cfg, s, i, j) <==> Stuck(cfg, s, i + 1, j)
    {
    }
    assert !Stuck(cfg, s, i, i);
    if SomeStuck(cfg, s, i) {
      var j :| i <= j < |cfg.clockOf| && Stuck(cfg, s, i, j);
      assert Stuck(cfg, s, i + 1, j);
    }
    if SomeStuck(cfg, s, i + 1) {
      var j :| i + 1 <= j < |cfg.clockOf| && Stuck(cfg, s, i + 1, j);
      assert Stuck(cfg, s, i, j);
    }
  }

  lemma {:induction false} RestartedToo(cfg: Config, s: Sim, u: Sim, t: Sim, i: nat)
    requires Proper(cfg) && i < |cfg.clockOf| && |s.stored| == |cfg.clocks| && i !in s.sched.scheduled
    requires u == s.(sched := s.sched.(queue := u.sched.queue, scheduled := s.sched.scheduled + {i}),
                     stored := s.stored[cfg.clockOf[i] := ClockOf(cfg, i)])
    requires QueuedAreScheduled(cfg, s)
    requires Due(u.sched.queue) == Due(s.sched.queue)[i := StartTick(cfg, s.sched.now, i)]
    requires Restarted(cfg, u, t, i + 1)
    ensures Restarted(cfg, s, t, i)
  {
    hide StartTick, NoDup, Due;
  }

  lemma {:induction false} RestartedSkipped(cfg: Config, s: Sim, t: Sim, i: nat)
    requires Proper(cfg) && i < |cfg.clockOf| && i in s.sched.scheduled && Restarted(cfg, s, t, i + 1)
    ensures Restarted(cfg, s, t, i)
  {
    hide StartTick, NoDup, Due;
  }
}
