/** The devices of the event-driven simulator, in place: the clock governor of sim_clocktree.cpp, and the
    CPU and memory of pep10isa.cpp and pep10isa.hpp. Each method is proved to have the effect that the
    function of the same operation in Systems gives, exceptions (`ok` is false) included. */
module Devices {
  import opened Arithmetic
  import opened Slots
  import opened Events
  import opened Clocks
  import opened Machine
  import opened EventSchedulers
  import opened EventAllocators
  import P = Pools
  import Schedules
  import opened Options
  import Systems

  class ClockGovernor {
    const cfg: Systems.Config
    var schedules: seq<PulseSchedule>

    constructor (cfg: Systems.Config)
      ensures this.cfg == cfg
      ensures schedules == seq(|cfg.clocks|, k => PulseSchedule(0, 0, 0xfeed_dead_beef_cafe))
    {
      this.cfg := cfg;
      schedules := seq(|cfg.clocks|, k => PulseSchedule(0, 0, 0xfeed_dead_beef_cafe));
    }

    /** `s` is the state that the governor and the scheduler see. */
    ghost predicate Sees(s: Systems.Sim, scheduler: EventScheduler)
      reads this, scheduler, scheduler.Repr()
    {
      scheduler.Valid() && s.sched == scheduler.View() && s.stored == schedules
    }

    method RequestClock(ghost s: Systems.Sim, scheduler: EventScheduler, i: nat, cycles: nat)
      returns (ok: bool)
      requires Sees(s, scheduler) && this !in scheduler.Repr() && scheduler.queueSize < MAX_EVENTS
      requires i < |cfg.clockOf| && cfg.clockOf[i] < |schedules| && i < MAX_EVENTS
      requires schedules[cfg.clockOf[i]].period > 0 && cycles < 256
      modifies scheduler.Repr()
      ensures var r := Systems.RequestClock(cfg, s, i, cycles);
        && ok == r.Some?
        && (ok ==> Sees(r.value, scheduler))
    {
      var now := scheduler.currentTick;
      var nextTime: int := NextClockTick(schedules[cfg.clockOf[i]], cfg.noise, Wrap(now), cycles);
      ok := scheduler.Schedule(i, Wrap(nextTime - now));
    }

    /** UpdateClocks, unfolded for the clock of device `i`. */
    static lemma {:induction false} OneClock(cfg: Systems.Config, s: Systems.Sim, i: nat)
      requires Systems.Proper(cfg) && i < |cfg.clockOf| && |s.stored| == |cfg.clocks|
      ensures var k := cfg.clockOf[i];
        var runs := s.stored[k] == cfg.clocks[k] && i in s.sched.scheduled;
        Systems.UpdateClocks(cfg, s, i)
          == if runs then Systems.UpdateClocks(cfg, s, i + 1)
             else if i in s.sched.scheduled then None
             else Systems.UpdateClocks(cfg, ClockStarted(cfg, s, i), i + 1)
    {
      hide NextClockTick, Schedules.Add, Wrap;
    }

    static function ClockStarted(cfg: Systems.Config, s: Systems.Sim, i: nat): Systems.Sim
      requires Systems.Proper(cfg) && i < |cfg.clockOf| && |s.stored| == |cfg.clocks|
    {
      var k := cfg.clockOf[i];
      var next := NextClockTick(cfg.clocks[k], cfg.noise, Wrap(s.sched.now), 1);
      s.(sched := Schedules.Add(s.sched, i, Wrap(next - s.sched.now)), stored := s.stored[k := cfg.clocks[k]])
    }

    /** Start or restart the clock of device `i`. */
    method UpdateClock(ghost s: Systems.Sim, scheduler: EventScheduler, i: nat)
      returns (ok: bool, ghost t: Systems.Sim)
      requires Sees(s, scheduler) && this !in scheduler.Repr()
      requires Systems.Proper(cfg) && |schedules| == |cfg.clocks| && i < |cfg.clockOf|
      requires scheduler.queueSize < MAX_EVENTS
      modifies scheduler.Repr(), this`schedules
      ensures ok ==>
        && Sees(t, scheduler) && |schedules| == |cfg.clocks| && scheduler.queueSize <= old(scheduler.queueSize) + 1
        && Systems.UpdateClocks(cfg, s, i) == Systems.UpdateClocks(cfg, t, i + 1)
      ensures !ok ==> Systems.UpdateClocks(cfg, s, i) == None
    {
      hide NextClockTick, Schedules.Add, Wrap, Systems.UpdateClocks;
      OneClock(cfg, s, i);
      t := s;
      var now := scheduler.currentTick;
      var k := cfg.clockOf[i];
      if schedules[k] == cfg.clocks[k] && i in scheduler.scheduled {
        return true, t;
      }
      var nextTick: int := NextClockTick(cfg.clocks[k], cfg.noise, Wrap(now), 1);
      var delay := Wrap(nextTick - now);
      ok := scheduler.Schedule(i, delay);
      if !ok {
        return;
      }
      schedules := schedules[k := cfg.clocks[k]];
      t := ClockStarted(cfg, s, i);
    }

    method HandleEvent(ghost s: Systems.Sim, scheduler: EventScheduler, e: Event) returns (ok: bool)
      requires Sees(s, scheduler) && this !in scheduler.Repr()
      requires Systems.Proper(cfg) && |schedules| == |cfg.clocks|
      requires scheduler.queueSize + |cfg.clockOf| <= MAX_EVENTS
      modifies scheduler.Repr(), this`schedules
      ensures var r :=
        if e.etype != UpdateClockSchedule then Some(s) else Systems.UpdateClocks(cfg, s, 0);
        && ok == r.Some?
        && (ok ==> Sees(r.value, scheduler))
    {
      hide Schedules.Add, NextClockTick;
      if e.etype != UpdateClockSchedule {
        return true;
      }
      ghost var t := s;
      for i := 0 to |cfg.clockOf|
        invariant Sees(t, scheduler) && |schedules| == |cfg.clocks|
        invariant scheduler.queueSize + |cfg.clockOf| - i <= MAX_EVENTS
        invariant Systems.UpdateClocks(cfg, s, 0) == Systems.UpdateClocks(cfg, t, i)
      {
        ok, t := UpdateClock(t, scheduler, i);
        if !ok {
          return;
        }
      }
      ok := true;
    }
  }

  class Pep10CPU {
    const index: nat
    const scheduler: EventScheduler
    const allocator: EventAllocator
    const governor: ClockGovernor
    var pc: nat
    var icount: nat
    var wcount: int
    var coro: Systems.Coro
    var current: Option<EventId>
    var result: seq<nat>

    constructor (index: nat, scheduler: EventScheduler, allocator: EventAllocator, governor: ClockGovernor)
      ensures this.index == index && this.scheduler == scheduler
      ensures this.allocator == allocator && this.governor == governor
      ensures State() == Systems.Cpu(0, 0, 0, Systems.NotStarted, None, [])
    {
      this.index, this.scheduler, this.allocator, this.governor := index, scheduler, allocator, governor;
      pc, icount, wcount := 0, 0, 0;
      coro, current, result := Systems.NotStarted, None, [];
    }

    ghost function Repr(): set<object>
      reads scheduler, allocator
    {
      scheduler.Repr() + {allocator, allocator.slots}
    }

    ghost function State(): Systems.Cpu
      reads this
    {
      Systems.Cpu(pc, icount, wcount, coro, current, result)
    }

    ghost predicate Valid()
      reads this, scheduler, scheduler.Repr(), allocator, allocator.slots
    {
      && scheduler.Valid() && allocator.Valid()
      && {allocator, allocator.slots} !! scheduler.Repr()
      && this !in Repr() && governor !in Repr()
    }

    /** `s` is the state of what the CPU uses. */
    ghost predicate SeesLoop(s: Systems.Sim)
      reads this, governor, scheduler, scheduler.Repr(), allocator, allocator.slots
    {
      && Valid() && governor.Sees(s, scheduler)
      && s.pool == allocator.View()
      && index < |s.cpus| <= 32
    }

    /** `s` is the state of what the CPU uses and of the CPU. */
    ghost predicate Sees(s: Systems.Sim)
      reads this, governor, scheduler, scheduler.Repr(), allocator, allocator.slots
    {
      SeesLoop(s) && s.cpus[index] == State()
    }

    /** Suspend the coroutine on a read of `len` bytes at the program counter. */
    method AwaitMemory(ghost s: Systems.Sim, ev: EventId, len: nat, next: Systems.Coro) returns (ok: bool)
      requires SeesLoop(s) && scheduler.queueSize < MAX_EVENTS
      modifies this, Repr()
      ensures var r := Systems.Read(s, index, old(State()), ev, len, next);
        && ok == r.Some?
        && (ok ==> Sees(r.value))
    {
      hide P.Alloc, Schedules.Over;
      var m, free := allocator.Alloc(Systems.Request(index, pc, len));
      if !free {
        return false;
      }
      ok := scheduler.ScheduleOver(m, ev, 1);
      coro, result := next, Systems.Zeros(len);
    }

    /** The end of the coroutine's loop body. */
    method EndInstruction(ghost s: Systems.Sim, cycles: nat) returns (ok: bool)
      requires SeesLoop(s) && scheduler.queueSize < MAX_EVENTS && cycles < 256
      requires index < |governor.cfg.clockOf| && governor.cfg.clockOf[index] < |governor.schedules|
      requires governor.schedules[governor.cfg.clockOf[index]].period > 0
      modifies this, Repr()
      ensures var r := Systems.EndInstruction(governor.cfg, s, index, old(State()), cycles);
        && ok == r.Some?
        && (ok ==> Sees(r.value))
    {
      hide Systems.RequestClock, NextClockTick;
      icount := icount + 1;
      coro := Systems.AtClock;
      current := None;
      ok := governor.RequestClock(s.(cpus := s.cpus[index := State()]), scheduler, index, cycles);
      RequestKeeps(governor.cfg, s.(cpus := s.cpus[index := State()]), index, cycles);
    }

    static lemma {:induction false} RequestKeeps(cfg: Systems.Config, s: Systems.Sim, i: nat, cycles: nat)
      requires i < |cfg.clockOf| && cfg.clockOf[i] < |s.stored| && i < MAX_EVENTS
      requires s.stored[cfg.clockOf[i]].period > 0 && cycles < 256
      ensures var r := Systems.RequestClock(cfg, s, i, cycles);
        r.Some? ==> r.value.pool == s.pool && r.value.cpus == s.cpus
    {
    }

    /** Start the coroutine if it has not started, post the event, and resume. */
    method HandleEvent(ghost s: Systems.Sim, e: EventId) returns (ok: bool)
      requires Sees(s) && scheduler.queueSize < MAX_EVENTS
      requires index < |governor.cfg.clockOf| && governor.cfg.clockOf[index] < |governor.schedules|
      requires governor.schedules[governor.cfg.clockOf[index]].period > 0
      modifies this, Repr()
      ensures var r := Systems.CpuEvent(governor.cfg, s, index, e);
        && ok == r.Some?
        && (ok ==> Sees(r.value))
    {
      hide Systems.Read, Systems.EndInstruction;
      current := Some(e);
      match coro
      case NotStarted =>
        current := None;
        ok := AwaitMemory(s, e, 1, Systems.AtOpcode(e));
      case AtClock =>
        current := None;
        ok := AwaitMemory(s, e, 1, Systems.AtOpcode(e));
      case AtOpcode(ev) =>
        var mn := Value(result);
        pc := Advance(pc, 1);
        if mn < 0x80 {
          wcount := wcount + mn;
          ok := EndInstruction(s, 2);
        } else {
          ok := AwaitMemory(s, ev, 2, Systems.AtOperand(ev, mn));
        }
      case AtOperand(ev, mn) =>
        pc := Advance(pc, 2);
        wcount := wcount + governor.cfg.memory.shift(Value(result), mn);
        ok := EndInstruction(s, 4);
    }
  }

  class Dram {
    const memory: Memory

    constructor (memory: Memory)
      ensures this.memory == memory
    {
      this.memory := memory;
    }

    /** The buffer of a request is the result that a CPU awaits. */
    method HandleEvent(e: Event, cpu: Pep10CPU)
      requires e.buffer == cpu.index
      modifies cpu`result
      ensures cpu.result ==
        if e.etype == MemoryAccess then Store(old(cpu.result), memory.word(e.address), e.len) else old(cpu.result)
    {
      if e.etype == MemoryAccess {
        cpu.result := Store(cpu.result, memory.word(e.address), e.len);
      }
    }
  }
}
