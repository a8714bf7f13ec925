/** The simulator of sim_top.hpp and sim_top.cpp with the event loop of event_loop.hpp, in place. Its loop
    is proved to follow the runs of SystemRuns, so that what is proved there holds of it. */
module Simulators {
  import opened Slots
  import opened Events
  import opened Machine
  import opened Options
  import opened Systems
  import opened Devices
  import opened EventSchedulers
  import opened EventAllocators
  import D = Dispatchers
  import P = Pools
  import Clocks
  import Schedules
  import opened SystemMain
  import opened SystemRuns
  import opened SystemStages
  import opened SystemTiming
  import opened SystemStructure
  import opened SystemViews
  import SystemBoot

  class Simulator {
    const cfg: Config
    const scheduler: EventScheduler
    const allocator: EventAllocator
    const dispatcher: D.EventDispatcher
    const governor: ClockGovernor
    const dram: Dram
    const cpus: seq<Pep10CPU>

    /** Put the parts together. */
    constructor (cfg: Config, scheduler: EventScheduler, allocator: EventAllocator,
                 dispatcher: D.EventDispatcher, governor: ClockGovernor, dram: Dram, cpus: seq<Pep10CPU>)
      ensures this.cfg == cfg && this.scheduler == scheduler && this.allocator == allocator
      ensures this.dispatcher == dispatcher && this.governor == governor && this.dram == dram && this.cpus == cpus
    {
      this.cfg, this.scheduler, this.allocator := cfg, scheduler, allocator;
      this.dispatcher, this.governor, this.dram, this.cpus := dispatcher, governor, dram, cpus;
    }

    static method Assemble(cfg: Config, scheduler: EventScheduler, allocator: EventAllocator,
                           dispatcher: D.EventDispatcher, governor: ClockGovernor, cpus: seq<Pep10CPU>)
      returns (s: Simulator)
      requires Proper(cfg) && |cpus| == |cfg.clockOf|
      requires scheduler.Valid() && scheduler.View() == Boot(cfg).sched
      requires allocator.Valid() && allocator.View() == Boot(cfg).pool
      requires governor.cfg == cfg && governor.schedules == Boot(cfg).stored
      requires {allocator, allocator.slots} !! scheduler.Repr()
      requires governor !in scheduler.Repr()
      requires dispatcher.table == D.MapAll(Wiring(|cpus|)) && Registers(dispatcher.handlers, |cpus|)
      requires forall i :: 0 <= i < |cpus| ==>
        && cpus[i].index == i && cpus[i].scheduler == scheduler
        && cpus[i].allocator == allocator && cpus[i].governor == governor
        && cpus[i].State() == SystemBoot.BootCpu() && cpus[i] !in scheduler.Repr()
      ensures fresh(s) && s.cfg == cfg && s.scheduler == scheduler && s.allocator == allocator
      ensures s.governor == governor && s.cpus == cpus
      ensures s.Valid() && s.View() == Boot(cfg)
    {
      hide Boot, D.MapAll, Wiring, Proper;
      var dram := new Dram(cfg.memory);
      s := new Simulator(cfg, scheduler, allocator, dispatcher, governor, dram, cpus);
      BootParts(cfg);
      assert s.States() == seq(|cpus|, i => SystemBoot.BootCpu());
    }

    static method StartLoop(cfg: Config) returns (scheduler: EventScheduler, allocator: EventAllocator)
      requires Proper(cfg)
      ensures fresh(scheduler.Repr()) && scheduler.Valid() && scheduler.View() == Boot(cfg).sched
      ensures fresh({allocator, allocator.slots}) && {allocator, allocator.slots} !! scheduler.Repr()
      ensures allocator.Valid() && allocator.View() == Boot(cfg).pool
    {
      hide Boot, Schedules.Add;
      BootParts(cfg);
      scheduler := new EventScheduler();
      var _ := scheduler.Schedule(|cfg.clockOf|, 0);
      allocator := new EventAllocator();
      AllocateClocks(cfg, allocator);
    }

    /** The simulator that main builds, after init_clocks. */
    static method Build(cfg: Config) returns (s: Simulator)
      requires Proper(cfg)
      ensures fresh(s) && fresh(s.Repr()) && fresh(s.DeviceSet())
      ensures s.cfg == cfg && s.Valid() && s.View() == Boot(cfg) && Reachable(cfg, s.View())
    {
      hide Boot, D.MapAll, Wiring, Schedules.Add, Proper, Registers, Reachable;
      BootStage(cfg);
      BootParts(cfg);
      var n := |cfg.clockOf|;
      BootSize(cfg);
      var scheduler, allocator := StartLoop(cfg);
      var governor := new ClockGovernor(cfg);
      var cpus := MakeCpus(n, scheduler, allocator, governor);
      var dispatcher := new D.EventDispatcher();
      Wire(dispatcher, n);
      s := Assemble(cfg, scheduler, allocator, dispatcher, governor, cpus);
    }

    static lemma {:induction false} BootSize(cfg: Config)
      requires Proper(cfg)
      ensures 1 <= |cfg.clockOf| <= 32
    {
    }

    ghost function Repr(): set<object>
      reads scheduler, allocator
    {
      scheduler.Repr() + {allocator, allocator.slots}
    }

    ghost function DeviceSet(): set<object>
    {
      {governor as object} + set i | 0 <= i < |cpus| :: cpus[i] as object
    }

    /** The devices that main registers with the dispatcher. */
    static ghost predicate Registers(handlers: seq<D.Handler>, n: nat) {
      && n <= 32 && |handlers| == DramId(n) + 1
      && forall id: DeviceId :: id < |handlers| ==> (handlers[id] != D.Absent <==> Registered(n, id) != Nobody)
    }

    ghost predicate Wired()
      reads dispatcher
    {
      Registers(dispatcher.handlers, |cpus|) && dispatcher.table == D.MapAll(Wiring(|cpus|))
    }

    ghost predicate Valid()
      reads this, Repr(), DeviceSet(), dispatcher
    {
      && scheduler.Valid() && allocator.Valid()
      && {allocator, allocator.slots} !! scheduler.Repr()
      && Repr() !! DeviceSet() && this !in Repr() + DeviceSet()
      && dispatcher !in Repr() && dispatcher !in DeviceSet()
      && Proper(cfg) && |cpus| == |cfg.clockOf|
      && governor.cfg == cfg && |governor.schedules| == |cfg.clocks|
      && dram.memory == cfg.memory
      && (forall i :: 0 <= i < |cpus| ==>
            && cpus[i].index == i && cpus[i].scheduler == scheduler
            && cpus[i].allocator == allocator && cpus[i].governor == governor)
      && Wired()
    }

    ghost function States(): (cs: seq<Cpu>)
      reads this, DeviceSet()
      ensures |cs| == |cpus|
    {
      seq(|cpus|, i requires 0 <= i < |cpus| reads (if 0 <= i < |cpus| then {cpus[i]} else {}) => cpus[i].State())
    }

    ghost function View(): Sim
      reads this, Repr(), DeviceSet(), dispatcher
      requires Valid()
    {
      Sim(scheduler.View(), allocator.View(), States(), governor.schedules)
    }

    /* Wiring, as in main and init_clocks. */

    static lemma {:induction false} BootParts(cfg: Config)
      requires Proper(cfg)
      ensures Boot(cfg) == Sim(
        Schedules.Add(Schedules.Initial(), |cfg.clockOf|, 0), Boot(cfg).pool,
        seq(|cfg.clockOf|, i => SystemBoot.BootCpu()),
        seq(|cfg.clocks|, k => Clocks.PulseSchedule(0, 0, 0xfeed_dead_beef_cafe)))
    {
    }

    static method MakeCpus(n: nat, scheduler: EventScheduler, allocator: EventAllocator, governor: ClockGovernor)
      returns (cpus: seq<Pep10CPU>)
      ensures |cpus| == n
      ensures forall i :: 0 <= i < n ==>
        && cpus[i].index == i && cpus[i].scheduler == scheduler
        && cpus[i].allocator == allocator && cpus[i].governor == governor
        && cpus[i].State() == SystemBoot.BootCpu() && fresh(cpus[i])
    {
      cpus := [];
      for i := 0 to n
        invariant |cpus| == i
        invariant forall j :: 0 <= j < i ==>
          && cpus[j].index == j && cpus[j].scheduler == scheduler
          && cpus[j].allocator == allocator && cpus[j].governor == governor
          && cpus[j].State() == SystemBoot.BootCpu() && fresh(cpus[j])
      {
        var cpu := new Pep10CPU(i, scheduler, allocator, governor);
        cpus := cpus + [cpu];
      }
    }

    static lemma {:induction false} MapOneMore(calls: seq<(D.Key, DeviceId)>, call: (D.Key, DeviceId))
      ensures D.MapAll([]) == []
      ensures D.MapAll(calls + [call]) == D.MapIn(D.MapAll(calls), call.0, call.1)
    {
      assert (calls + [call])[..|calls|] == calls;
    }

    static method Wire(dispatcher: D.EventDispatcher, n: nat)
      requires 1 <= n <= 32 && dispatcher.handlers == [] && dispatcher.table == []
      modifies dispatcher
      ensures dispatcher.table == D.MapAll(Wiring(n))
      ensures Registers(dispatcher.handlers, n)
    {
      hide D.MapAll, D.MapIn;
      dispatcher.AddHandler(DramId(n), D.Device);
      dispatcher.AddHandler(GOVERNOR, D.Device);
      MapOneMore([], (D.Key(0, UpdateClockSchedule), GOVERNOR));
      for i := 0 to n
        invariant dispatcher.table == D.MapAll(CpuWiring(n, i))
        invariant |dispatcher.handlers| == DramId(n) + 1
        invariant forall id: DeviceId :: id < |dispatcher.handlers| ==>
          (dispatcher.handlers[id] != D.Absent <==> id == GOVERNOR || 4 <= id < 4 + i || id == DramId(n))
      {
        dispatcher.AddHandler(CpuId(i), D.Device);
        dispatcher.MapHandler(D.Key(CpuId(i), ClockReceipt), CpuId(i));
        dispatcher.MapHandler(D.Key(CpuId(i), MemoryAccess), DramId(n));
        var receipt, access := (D.Key(CpuId(i), ClockReceipt), CpuId(i)), (D.Key(CpuId(i), MemoryAccess), DramId(n));
        MapOneMore(CpuWiring(n, i), receipt);
        MapOneMore(CpuWiring(n, i) + [receipt], access);
        assert CpuWiring(n, i + 1) == CpuWiring(n, i) + [receipt] + [access];
      }
      dispatcher.MapHandler(D.Key(0, UpdateClockSchedule), GOVERNOR);
      MapOneMore(CpuWiring(n, n), (D.Key(0, UpdateClockSchedule), GOVERNOR));
    }

    /** map_device_clock for every CPU, and the event of init_clocks. */
    static method AllocateClocks(cfg: Config, allocator: EventAllocator)
      requires Proper(cfg) && allocator.Valid() && allocator.View() == P.Empty()
      modifies allocator, allocator.slots
      ensures allocator.View() == Boot(cfg).pool
    {
      hide P.Alloc;
      var n := |cfg.clockOf|;
      for i := 0 to n
        invariant allocator.View() == BootPool(cfg, i)
      {
        SystemBoot.BootSlots(cfg, i);
        SystemBoot.NextFree(allocator.View(), i);
        var _, _ := allocator.Alloc(Receipt(cfg, i));
      }
      SystemBoot.BootSlots(cfg, n);
      SystemBoot.NextFree(allocator.View(), n);
      var _, _ := allocator.Alloc(Event(UpdateClockSchedule, 0));
    }

    /* One turn of the loop. */

    /** A CPU's event changes no other CPU. */
    static lemma {:induction false} CpuEventKeepsOthers(cfg: Config, s: Sim, i: nat, e: EventId)
      requires i < |s.cpus| <= 32 && i < |cfg.clockOf| && cfg.clockOf[i] < |s.stored|
      requires s.stored[cfg.clockOf[i]].period > 0
      ensures var r := CpuEvent(cfg, s, i, e);
        r.Some? ==> |r.value.cpus| == |s.cpus| && r.value.cpus == s.cpus[i := r.value.cpus[i]]
    {
    }

    method ResumeCpu(i: nat, e: EventId) returns (ok: bool)
      requires Valid() && i < |cpus| && scheduler.queueSize < MAX_EVENTS
      requires governor.schedules[cfg.clockOf[i]].period > 0
      modifies Repr(), DeviceSet()
      ensures var r := CpuEvent(cfg, old(View()), i, e);
        && ok == r.Some?
        && (ok ==> Valid() && View() == r.value)
    {
      hide CpuEvent;
      ghost var s := View();
      ok := cpus[i].HandleEvent(s, e);
      CpuEventKeepsOthers(cfg, s, i, e);
      if ok {
        ghost var t := CpuEvent(cfg, s, i, e).value;
        assert States() == s.cpus[i := cpus[i].State()];
      }
    }

    /** Every entry of the flat table is the id of a place among the handlers. */
    static lemma {:induction false} MappedIsRegistered(n: nat, i: nat, k: D.Key)
      requires i <= n <= 32
      ensures D.LastMapped(CpuWiring(n, i), k) <= DramId(n)
    {
      if i == 0 {
      } else {
        var calls := CpuWiring(n, i);
        assert calls[..|calls| - 1][..|calls| - 2] == CpuWiring(n, i - 1);
        MappedIsRegistered(n, i - 1, k);
      }
    }

    static lemma {:induction false} TableIsRegistered(n: nat, k: D.Key)
      requires n <= 32
      ensures D.Lookup(D.MapAll(Wiring(n)), k) <= DramId(n)
    {
      var calls := Wiring(n);
      assert calls[..|calls| - 1] == CpuWiring(n, n);
      MappedIsRegistered(n, n, k);
      D.TableIsLastMapped(calls, k);
    }

    /** Dispatching the event reads nothing outside the flat table, the buffers of the CPUs, or a clock
        that has a period. */
    ghost predicate Defined(e: EventId)
      requires Valid()
      reads this, Repr(), DeviceSet(), dispatcher
    {
      var ev := View().pool.slots[e];
      && D.Hash(D.Key(ev.source, ev.etype)) < |dispatcher.table|
      && match Route(|cpus|, ev)
         case ToCpu(i) => i < |cpus| ==> governor.schedules[cfg.clockOf[i]].period > 0
         case ToDram => ev.buffer < |cpus|
         case _ => true
    }

    method Governor(e: Event) returns (ok: bool)
      requires Valid() && scheduler.queueSize + |cpus| <= MAX_EVENTS
      modifies Repr(), DeviceSet()
      ensures var r := if e.etype != UpdateClockSchedule then Some(old(View())) else UpdateClocks(cfg, old(View()), 0);
        && ok == r.Some?
        && (ok ==> Valid() && View() == r.value)
    {
      hide UpdateClocks, Wired;
      ghost var s := View();
      ok := governor.HandleEvent(s, scheduler, e);
      if e.etype == UpdateClockSchedule {
        UpdateKeeps(cfg, s, 0);
      }
      assert States() == s.cpus;
    }

    static lemma {:induction false} UpdateKeeps(cfg: Config, s: Sim, i: nat)
      requires Proper(cfg) && i <= |cfg.clockOf| && |s.stored| == |cfg.clocks|
      ensures var r := UpdateClocks(cfg, s, i);
        r.Some? ==> r.value.cpus == s.cpus && r.value.pool == s.pool && |r.value.stored| == |s.stored|
      decreases |cfg.clockOf| - i
    {
      hide Clocks.NextClockTick;
      if i == |cfg.clockOf| {
      } else {
        var k := cfg.clockOf[i];
        var next := Clocks.NextClockTick(cfg.clocks[k], cfg.noise, Clocks.Wrap(s.sched.now), 1);
        UpdateKeeps(cfg, s, i + 1);
        UpdateKeeps(cfg, s.(sched := Schedules.Add(s.sched, i, Clocks.Wrap(next - s.sched.now)),
                            stored := s.stored[k := cfg.clocks[k]]), i + 1);
      }
    }

    method Memory(e: Event)
      requires Valid() && e.buffer < |cpus|
      modifies DeviceSet()
      ensures Valid() && View() == DramEvent(cfg, old(View()), e)
    {
      hide Wired;
      ghost var s := View();
      dram.HandleEvent(e, cpus[e.buffer]);
      assert States() == DramEvent(cfg, s, e).cpus;
    }

    /** Hand the event in slot `e` to its handler. */
    method Deliver(e: EventId) returns (ok: bool)
      requires Valid() && scheduler.queueSize + |cpus| <= MAX_EVENTS && Defined(e)
      modifies Repr(), DeviceSet()
      ensures var r := Dispatch(cfg, old(View()), e);
        && ok == r.Some?
        && (ok ==> Valid() && View() == r.value)
    {
      hide CpuEvent, DramEvent, UpdateClocks, Proper, D.MapAll, Wiring;
      var ev := allocator.Get(e);
      TableIsRegistered(|cpus|, D.Key(ev.source, ev.etype));
      var target;
      target, ok := dispatcher.Dispatch(D.Key(ev.source, ev.etype));
      if !ok {
        return;
      }
      if target == GOVERNOR {
        ok := Governor(ev);
      } else if target < DramId(|cpus|) {
        ok := ResumeCpu(target - 4, e);
      } else {
        Memory(ev);
      }
    }

    static lemma {:induction false} WakeGrows(s: Schedules.Schedule, done: EventId, bits: set<EventId>)
      ensures |Schedules.Wake(s, done, bits).queue| == |s.queue| + |Schedules.Ready(s, done, bits)|
      decreases |bits|
    {
      hide Schedules.Ready;
      if bits == {} {
        ReadyOfNone(s, done);
      } else {
        var w := Least(bits);
        Schedules.ReadyShrinks(s, done, bits, w);
        WakeGrows(Schedules.WakeOne(s, done, w), done, bits - {w});
      }
    }

    static lemma {:induction false} ReadyOfNone(s: Schedules.Schedule, done: EventId)
      ensures Schedules.Ready(s, done, {}) == {}
    {
    }

    /** Step 3 of the loop. */
    method Finish(e: EventId)
      requires Valid() && |Settle(View(), e).sched.queue| <= MAX_EVENTS
      modifies Repr()
      ensures Valid() && View() == Settle(old(View()), e)
    {
      hide Schedules.Wake, Wired, Proper;
      ghost var s := View();
      if e !in scheduler.scheduled {
        WakeGrows(s.sched, e, s.sched.dents[e]);
        scheduler.Complete(e);
        var ev := allocator.Get(e);
        if !ev.recurs {
          allocator.Free(e);
        }
      }
      assert States() == s.cpus;
    }

    /** One turn of the loop; `ok` is false when the handler throws. */
    method TakeTurn() returns (ok: bool)
      requires Valid() && scheduler.queueSize > 0 && scheduler.queueSize - 1 + |cpus| <= MAX_EVENTS
      requires Defined(View().sched.queue[Schedules.FirstMin(View().sched.queue)].id)
      requires var r := Turn(cfg, View(), Schedules.FirstMin(View().sched.queue));
        r.Some? ==> |r.value.sched.queue| <= MAX_EVENTS
      modifies Repr(), DeviceSet()
      ensures var r := old(Turn(cfg, View(), Schedules.FirstMin(View().sched.queue)));
        && ok == r.Some?
        && (ok ==> Valid() && View() == r.value)
    {
      hide Settle, Dispatch, Wired, Proper;
      ghost var s := View();
      var e := scheduler.NextEvent();
      assert States() == s.cpus;
      ok := Deliver(e);
      if ok {
        Finish(e);
      }
    }

    /** A turn that does not throw is defined. */
    lemma {:induction false} NoThrowIsDefined(k: nat)
      requires Valid() && k < |View().sched.queue| && Turn(cfg, View(), k).Some?
      ensures Defined(View().sched.queue[k].id)
    {
      hide CpuEvent, DramEvent, UpdateClocks, Settle, D.MapAll, Wiring;
    }

    /* The loop. */

    /** A turn of the loop, taken when the stop condition does not hold. */
    method Advance(ghost s0: Sim, ghost stop: Sim -> bool, ghost done: seq<nat>, ghost t: Sim)
      returns (ghost done': seq<nat>)
      requires Valid() && Leads(cfg, s0, stop, done, View()) && !stop(View())
      requires 1 <= scheduler.queueSize <= 32 && |cpus| <= 32 && Shaped(cfg, View()) && |t.sched.queue| <= 32
      requires Turn(cfg, View(), Schedules.FirstMin(View().sched.queue)) == Some(t)
      modifies Repr(), DeviceSet()
      ensures Valid() && View() == t && Leads(cfg, s0, stop, done', t)
    {
      hide Leads, Turn, Wired, Proper, Schedules.FirstMin, Shaped, Defined;
      ghost var s := View();
      ghost var k := Schedules.FirstMin(s.sched.queue);
      FirstMinIsLeast(s.sched.queue);
      LeadsOn(cfg, s0, stop, done, s, k, t);
      NoThrowIsDefined(k);
      var _ := TakeTurn();
      done' := done + [k];
    }

    /** run(max_ticks): the loop ends, at or after the given tick and not for lack of events, having taken
        the turns of a run of SystemTiming. */
    method RunTicks(max: nat)
      requires Valid() && Reachable(cfg, View()) && Spaced(cfg) && Within(cfg, max)
      modifies Repr(), DeviceSet()
      ensures Valid() && Reachable(cfg, View())
      ensures View().sched.now >= max && (View() == Boot(cfg) || Faithful(cfg, View()))
      ensures exists ks ::
        Legal(cfg, old(View()), AtTick(max), ks) && Run(cfg, old(View()), AtTick(max), ks) == Some(View())
    {
      hide Stage, Leads, Legal, Run, Within, Spaced, Wired, Proper, Faithful, Boot, Turn;
      ghost var s0, stop, done := View(), AtTick(max), [];
      ghost var w, views, left :| Stage(cfg, s0, w, views, left);
      LeadsNowhere(cfg, s0, stop);
      StageHasEvents(cfg, View(), w, views, left);
      while scheduler.currentTick < max && scheduler.queueSize > 0
        invariant Valid() && Stage(cfg, View(), w, views, left) && Leads(cfg, s0, stop, done, View())
        invariant scheduler.queueSize > 0
        decreases left
      {
        ghost var t;
        t, w, views, left := StageTurn(cfg, View(), w, views, left, max);
        done := Advance(s0, stop, done, t);
        StageHasEvents(cfg, View(), w, views, left);
      }
      LeadsHere(cfg, s0, stop, done, View());
      StageIsFaithful(cfg, View(), w, views, left);
    }

    /** main's run: the loop ends when the CPU has executed exactly `maxi` instructions. */
    method RunInstructions(maxi: nat)
      requires Valid() && View() == Boot(cfg) && |cpus| == 1 && maxi >= 1
      modifies Repr(), DeviceSet()
      ensures Valid() && Reported(cfg, View(), maxi)
      ensures cpus[0].pc == (3 * maxi - 2 * After(cfg.memory, maxi).unary) % 0x1_0000
      ensures exists ks ::
        Legal(cfg, Boot(cfg), Instructions(maxi), ks) && Run(cfg, Boot(cfg), Instructions(maxi), ks) == Some(View())
    {
      hide MainStage, Leads, Legal, Run, Wired, Proper, Reported, Boot, Turn;
      ghost var s0, stop, done := View(), Instructions(maxi), [];
      ghost var w: Pending, views: seq<View>, left: nat := [], [], 5 * maxi + 1;
      MainBootStage(cfg, maxi, w, views);
      LeadsNowhere(cfg, s0, stop);
      MainStageHasEvents(cfg, View(), maxi, w, views, left);
      while cpus[0].icount < maxi && scheduler.queueSize > 0
        invariant Valid() && MainStage(cfg, View(), maxi, w, views, left) && Leads(cfg, s0, stop, done, View())
        invariant scheduler.queueSize > 0
        decreases left
      {
        ghost var t;
        t, w, views, left := MainStageTurn(cfg, View(), maxi, w, views, left);
        done := Advance(s0, stop, done, t);
        MainStageHasEvents(cfg, View(), maxi, w, views, left);
      }
      LeadsHere(cfg, s0, stop, done, View());
      MainStageReports(cfg, View(), maxi, w, views, left);
      assert cpus[0].pc == View().cpus[0].pc;
      ReportedPc(cfg, View(), maxi);
    }
  }

  /** The stop condition of run(max_ticks). */
  function AtTick(max: nat): Sim -> bool {
    (s: Sim) => s.sched.now >= max
  }
}
