/** The event-driven simulator as wired by bin/simexp/main.cpp, with 1 to 32 CPUs, as values: the state
    of the loop and what one turn of EventLoop::run does to it, exceptions included. */
module Systems {
  import opened Arithmetic
  import opened Slots
  import opened Schedules
  import opened Events
  import opened Options
  import opened Pools
  import opened Clocks
  import opened Machine
  import D = Dispatchers

  /** Where the coroutine of a CPU is suspended. */
  datatype Coro =
    | NotStarted
    | AtClock
    | AtOpcode(ev: EventId)
    | AtOperand(ev: EventId, mn: nat)

  /** Pep10CPU, with the promise's current_event and the result of the awaiter in the coroutine frame. */
  datatype Cpu = Cpu(
    pc: nat,
    icount: nat,
    wcount: int,
    coro: Coro,
    current: Option<EventId>,
    result: seq<nat>)

  /** What does not change during a run: the clock of each CPU, the clocks, and memory. */
  datatype Config = Config(
    clockOf: seq<nat>,
    clocks: seq<PulseSchedule>,
    noise: Noise,
    memory: Memory)

  /** 1 to 32 CPUs on existing clocks, whose periods are not zero. */
  predicate Proper(c: Config) {
    && 1 <= |c.clockOf| <= 32
    && (forall i :: 0 <= i < |c.clockOf| ==> c.clockOf[i] < |c.clocks|)
    && (forall k :: 0 <= k < |c.clocks| ==> c.clocks[k].period > 0)
  }

  /** `stored` is what ClockGovernor::_clocks remembers of each clock. */
  datatype Sim = Sim(sched: Schedule, pool: Pool, cpus: seq<Cpu>, stored: seq<PulseSchedule>)

  const GOVERNOR: DeviceId := 1

  function CpuId(i: nat): DeviceId
    requires i < 32
  {
    4 + i
  }

  function DramId(n: nat): DeviceId
    requires n <= 32
  {
    4 + n
  }

  /** The map_handler calls of main and init_clocks. */
  function CpuWiring(n: nat, i: nat): seq<(D.Key, DeviceId)>
    requires i <= n <= 32
  {
    if i == 0 then []
    else
      CpuWiring(n, i - 1)
      + [(D.Key(CpuId(i - 1), ClockReceipt), CpuId(i - 1)), (D.Key(CpuId(i - 1), MemoryAccess), DramId(n))]
  }

  function Wiring(n: nat): seq<(D.Key, DeviceId)>
    requires n <= 32
  {
    CpuWiring(n, n) + [(D.Key(0, UpdateClockSchedule), GOVERNOR)]
  }

  /** The handlers of the system. */
  datatype Target = Nobody | ToCpu(i: nat) | ToDram | ToGovernor

  /** The handler registered under an id. */
  function Registered(n: nat, id: DeviceId): Target
    requires n <= 32
  {
    if id == GOVERNOR then ToGovernor
    else if 4 <= id < 4 + n then ToCpu(id - 4)
    else if id == DramId(n) then ToDram
    else Nobody
  }

  /** The handler that a dispatch table gives an event. */
  function RouteBy(table: seq<DeviceId>, n: nat, e: Event): Target
    requires n <= 32
  {
    Registered(n, D.Lookup(table, D.Key(e.source, e.etype)))
  }

  /** The handler that main's wiring gives an event. */
  function Route(n: nat, e: Event): Target
    requires n <= 32
  {
    RouteBy(D.MapAll(Wiring(n)), n, e)
  }

  /* Handlers. `None` is an exception. */

  function Request(i: nat, address: nat, len: nat): Event
    requires i < 32
  {
    Event(MemoryAccess, CpuId(i), address := address, len := len, buffer := i)
  }

  function Receipt(c: Config, i: nat): Event
    requires i < |c.clockOf| <= 32
  {
    Event(ClockReceipt, CpuId(i), recurs := true, clock := c.clockOf[i])
  }

  function Zeros(n: nat): (z: seq<nat>)
    ensures |z| == n
  {
    seq(n, i => 0)
  }

  /** MemoryAwaiter::await_suspend, for a read of `len` bytes with a delay of one tick. */
  function Read(s: Sim, i: nat, c: Cpu, ev: EventId, len: nat, next: Coro): Option<Sim>
    requires i < |s.cpus| <= 32
  {
    if Full(s.pool) then None
    else
      var m := FirstFree(s.pool.used);
      if m in s.sched.scheduled then None
      else Some(s.(
        pool := Alloc(s.pool, Request(i, c.pc, len)),
        sched := Over(s.sched, m, ev, 1),
        cpus := s.cpus[i := c.(coro := next, result := Zeros(len))]))
  }

  /** ClockGovernor::request_clock */
  function RequestClock(cfg: Config, s: Sim, i: nat, cycles: nat): Option<Sim>
    requires i < |cfg.clockOf| && cfg.clockOf[i] < |s.stored| && i < MAX_EVENTS
    requires s.stored[cfg.clockOf[i]].period > 0 && cycles < 256
  {
    var next := NextClockTick(s.stored[cfg.clockOf[i]], cfg.noise, Wrap(s.sched.now), cycles);
    if i in s.sched.scheduled then None
    else Some(s.(sched := Add(s.sched, i, Wrap(next - s.sched.now))))
  }

  /** The end of the coroutine's loop body: ask for the next clock, drop the event, and come round to
      the next await. */
  function EndInstruction(cfg: Config, s: Sim, i: nat, c: Cpu, cycles: nat): Option<Sim>
    requires i < |s.cpus| && i < |cfg.clockOf| && cfg.clockOf[i] < |s.stored| && i < MAX_EVENTS
    requires s.stored[cfg.clockOf[i]].period > 0 && cycles < 256
  {
    var c' := c.(icount := c.icount + 1, current := None, coro := AtClock);
    RequestClock(cfg, s.(cpus := s.cpus[i := c']), i, cycles)
  }

  /** Pep10CPU::handle_event: start the coroutine if need be, post the event, and resume. */
  function CpuEvent(cfg: Config, s: Sim, i: nat, e: EventId): Option<Sim>
    requires i < |s.cpus| <= 32 && i < |cfg.clockOf| && cfg.clockOf[i] < |s.stored|
    requires s.stored[cfg.clockOf[i]].period > 0
  {
    var c := s.cpus[i].(current := Some(e));
    match c.coro
    case NotStarted =>
      Read(s, i, c.(current := None), e, 1, AtOpcode(e))
    case AtClock =>
      Read(s, i, c.(current := None), e, 1, AtOpcode(e))
    case AtOpcode(ev) =>
      var mn := Value(c.result);
      var c' := c.(pc := Advance(c.pc, 1));
      if mn < 0x80 then EndInstruction(cfg, s, i, c'.(wcount := c.wcount + mn), 2)
      else Read(s, i, c', ev, 2, AtOperand(ev, mn))
    case AtOperand(ev, mn) =>
      var wcount := c.wcount + cfg.memory.shift(Value(c.result), mn);
      EndInstruction(cfg, s, i, c.(pc := Advance(c.pc, 2), wcount := wcount), 4)
  }

  /** DRAM::handle_event */
  function DramEvent(cfg: Config, s: Sim, e: Event): Sim
    requires e.buffer < |s.cpus|
  {
    var c := s.cpus[e.buffer];
    if e.etype != MemoryAccess then s
    else s.(cpus := s.cpus[e.buffer := c.(result := Store(c.result, cfg.memory.word(e.address), e.len))])
  }

  /** ClockGovernor::handle_event, for the receipts of the CPUs from `i` on. */
  function UpdateClocks(cfg: Config, s: Sim, i: nat): Option<Sim>
    requires Proper(cfg) && i <= |cfg.clockOf| && |s.stored| == |cfg.clocks|
    decreases |cfg.clockOf| - i
  {
    if i == |cfg.clockOf| then Some(s)
    else
      var k := cfg.clockOf[i];
      if s.stored[k] == cfg.clocks[k] && i in s.sched.scheduled then UpdateClocks(cfg, s, i + 1)
      else
        var next := NextClockTick(cfg.clocks[k], cfg.noise, Wrap(s.sched.now), 1);
        if i in s.sched.scheduled then None
        else UpdateClocks(cfg, s.(sched := Add(s.sched, i, Wrap(next - s.sched.now)),
                                  stored := s.stored[k := cfg.clocks[k]]), i + 1)
  }

  /** The state has the shape of the configuration, and its clocks tick. */
  predicate Shaped(cfg: Config, s: Sim) {
    && Proper(cfg)
    && |s.cpus| == |cfg.clockOf|
    && |s.stored| == |cfg.clocks|
  }

  /** The handler `to` on the event in slot `e`. */
  function HandleBy(cfg: Config, s: Sim, e: EventId, to: Target): Option<Sim>
    requires Shaped(cfg, s)
  {
    var ev := s.pool.slots[e];
    match to
    case Nobody => None
    case ToCpu(i) =>
      if i < |s.cpus| && s.stored[cfg.clockOf[i]].period > 0 then CpuEvent(cfg, s, i, e) else None
    case ToDram =>
      if ev.buffer < |s.cpus| then Some(DramEvent(cfg, s, ev)) else None
    case ToGovernor => if ev.etype != UpdateClockSchedule then Some(s) else UpdateClocks(cfg, s, 0)
  }

  /** EventDispatcher::dispatch of the event in slot `e`. */
  function Dispatch(cfg: Config, s: Sim, e: EventId): Option<Sim>
    requires Shaped(cfg, s)
  {
    HandleBy(cfg, s, e, Route(|cfg.clockOf|, s.pool.slots[e]))
  }

  /** Step 3 of the loop. */
  function Settle(s: Sim, e: EventId): Sim {
    if e in s.sched.scheduled then s
    else
      var s' := s.(sched := Complete(s.sched, e));
      if s.pool.slots[e].recurs then s' else s'.(pool := Free(s.pool, e))
  }

  /** Steps 2 and 3 of the loop, for the event popped in step 1. */
  function Handle(cfg: Config, s: Sim, e: EventId): Option<Sim>
    requires Shaped(cfg, s)
  {
    match Dispatch(cfg, s, e)
    case None => None
    case Some(s') => Some(Settle(s', e))
  }

  /** One turn of EventLoop::run that pops entry `k` of the queue. */
  function Turn(cfg: Config, s: Sim, k: nat): Option<Sim>
    requires Shaped(cfg, s) && k < |s.sched.queue|
  {
    Handle(cfg, s.(sched := PopAt(s.sched, k)), s.sched.queue[k].id)
  }

  /** After map_device_clock for every CPU and init_clocks. */
  function BootPool(cfg: Config, i: nat): Pool
    requires Proper(cfg) && i <= |cfg.clockOf|
  {
    if i == 0 then Empty()
    else
      var p := BootPool(cfg, i - 1);
      if Full(p) then p else Alloc(p, Receipt(cfg, i - 1))
  }

  function Boot(cfg: Config): Sim
    requires Proper(cfg)
  {
    var n := |cfg.clockOf|;
    var p := BootPool(cfg, n);
    var pool := if Full(p) then p else Alloc(p, Event(UpdateClockSchedule, 0));
    Sim(Add(Initial(), n, 0), pool,
        seq(n, i => Cpu(0, 0, 0, NotStarted, None, [])),
        seq(|cfg.clocks|, k => PulseSchedule(0, 0, 0xfeed_dead_beef_cafe)))
  }

  /* The wiring sends every event to the handler it is meant for. */

  lemma {:induction false} CpuWiringMaps(n: nat, i: nat, j: nat)
    requires i <= n <= 32 && j < n
    ensures D.LastMapped(CpuWiring(n, i), D.Key(CpuId(j), ClockReceipt)) == if j < i then CpuId(j) else 0
    ensures D.LastMapped(CpuWiring(n, i), D.Key(CpuId(j), MemoryAccess)) == if j < i then DramId(n) else 0
  {
    if i == 0 {
    } else {
      var calls := CpuWiring(n, i);
      var k := |calls|;
      assert calls[..k - 1][..k - 2] == CpuWiring(n, i - 1);
      CpuWiringMaps(n, i - 1, j);
    }
  }

  lemma {:induction false} Routes(n: nat, i: nat)
    requires 1 <= n <= 32 && i < n
    ensures forall e: Event :: e.source == CpuId(i) && e.etype == ClockReceipt ==> Route(n, e) == ToCpu(i)
    ensures forall e: Event :: e.source == CpuId(i) && e.etype == MemoryAccess ==> Route(n, e) == ToDram
    ensures forall e: Event :: e.source == 0 && e.etype == UpdateClockSchedule ==> Route(n, e) == ToGovernor
  {
    var calls := Wiring(n);
    assert calls[..|calls| - 1] == CpuWiring(n, n);
    CpuWiringMaps(n, n, i);
    D.TableIsLastMapped(calls, D.Key(CpuId(i), ClockReceipt));
    D.TableIsLastMapped(calls, D.Key(CpuId(i), MemoryAccess));
    D.TableIsLastMapped(calls, D.Key(0, UpdateClockSchedule));
  }
}
