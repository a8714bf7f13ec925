/** What each CPU of the running system experiences: its own state, the memory request it awaits, and
    the tick (of 48 bits) at which it will move on. A turn of the loop moves exactly one CPU, by a step that depends on
    nothing but that CPU. */
module SystemViews {
  import opened Slots
  import opened Schedules
  import opened Queues
  import opened Events
  import opened Pools
  import opened Clocks
  import opened Machine
  import opened Options
  import opened Systems
  import opened SystemStructure
  import opened SystemTurns

  datatype View = View(cpu: Cpu, request: Option<Event>, at: nat)

  function ClockOf(cfg: Config, i: nat): PulseSchedule
    requires Proper(cfg) && i < |cfg.clockOf|
  {
    cfg.clocks[cfg.clockOf[i]]
  }

  /** Ask memory for the `len` bytes at the program counter. */
  function Ask(i: nat, c: Cpu, len: nat, next: Coro, at: nat): View
    requires i < 32
  {
    View(c.(coro := next, result := Zeros(len)), Some(Request(i, c.pc, len)), Cut(at + 1))
  }

  /** Finish an instruction and wait for the clock. */
  function Rest(s: PulseSchedule, noise: Noise, c: Cpu, cycles: nat, at: nat): View
    requires s.period > 0 && cycles < 256
  {
    View(c.(icount := c.icount + 1, current := None, coro := AtClock), None,
         Cut(NextClockTick(s, noise, Wrap(at), cycles)))
  }

  /** The next step of CPU `i`: the straight-line reading of its coroutine and of DRAM. */
  function Next(cfg: Config, i: nat, v: View): View
    requires Proper(cfg) && i < |cfg.clockOf|
  {
    var c := v.cpu.(current := Some(i));
    match v.request
    case Some(e) => View(v.cpu.(result := Store(v.cpu.result, cfg.memory.word(e.address), e.len)), None, v.at)
    case None =>
      match c.coro
      case NotStarted => Ask(i, c.(current := None), 1, AtOpcode(i), v.at)
      case AtClock => Ask(i, c.(current := None), 1, AtOpcode(i), v.at)
      case AtOpcode(_) =>
        var mn := Value(c.result);
        var c' := c.(pc := Advance(c.pc, 1));
        if mn < 0x80 then Rest(ClockOf(cfg, i), cfg.noise, c'.(wcount := c.wcount + mn), 2, v.at)
        else Ask(i, c', 2, AtOperand(i, mn), v.at)
      case AtOperand(_, mn) =>
        var wcount := c.wcount + cfg.memory.shift(Value(c.result), mn);
        Rest(ClockOf(cfg, i), cfg.noise, c.(pc := Advance(c.pc, 2), wcount := wcount), 4, v.at)
  }

  /** The coroutine of CPU `i` resumes on the CPU's own clock event. */
  predicate OwnEvent(i: nat, c: Coro) {
    match c
    case AtOpcode(ev) => ev == i
    case AtOperand(ev, _) => ev == i
    case _ => true
  }

  ghost function ViewOf(s: Sim, w: Pending, due: map<EventId, nat>, i: nat): View
    requires i < |w| == |s.cpus| <= 32 && Where(w, i) in due
  {
    View(s.cpus[i], if w[i].Some? then Some(s.pool.slots[w[i].value]) else None, due[Where(w, i)])
  }

  ghost predicate Shows(s: Sim, w: Pending, due: map<EventId, nat>, views: seq<View>)
    requires |w| == |s.cpus| <= 32
  {
    && |views| == |w|
    && forall i :: 0 <= i < |w| ==> Where(w, i) in due && views[i] == ViewOf(s, w, due, i)
  }

  /** The governor knows the clocks of the CPUs. */
  ghost predicate ClocksKnown(cfg: Config, stored: seq<PulseSchedule>)
    requires Proper(cfg) && |stored| == |cfg.clocks|
  {
    forall i :: 0 <= i < |cfg.clockOf| ==> stored[cfg.clockOf[i]] == ClockOf(cfg, i)
  }

  /** Queued ticks have 48 bits. */
  ghost predicate Short(due: map<EventId, nat>) {
    forall x :: x in due ==> due[x] < TICK_LIMIT
  }

  ghost predicate Good(cfg: Config, s: Sim, w: Pending, due: map<EventId, nat>, running: set<EventId>,
                       views: seq<View>)
  {
    && Placed(cfg, s, w, due, running)
    && ClocksKnown(cfg, s.stored)
    && Shows(s, w, due, views)
    && Short(due)
  }

  /** From `p` to `t`, CPU `i` moved on, and `x` is now the event that will move it on again. */
  ghost predicate Moved(p: Sim, t: Sim, w: Pending, w': Pending, i: nat, x: EventId)
    requires i < |p.cpus| == |t.cpus| == |w| == |w'| <= 32
  {
    && t.cpus == p.cpus[i := t.cpus[i]] && t.stored == p.stored && w' == w[i := w'[i]]
    && Where(w', i) == x
    && (forall y: EventId :: y != x ==> t.pool.slots[y] == p.pool.slots[y])
    && t.sched.now == p.sched.now
  }

  lemma {:induction false} OthersShow(p: Sim, t: Sim, w: Pending, w': Pending, due: map<EventId, nat>,
                   i: nat, e: EventId, x: EventId, tick: nat, views: seq<View>)
    requires i < |p.cpus| == |t.cpus| == |w| == |w'| <= 32
    requires Moved(p, t, w, w', i, x) && Where(w, i) == e
    requires OneEach(|w|, w, due, p.pool.slots) && OneEach(|w|, w', DueAfter(due, e, x, tick), t.pool.slots)
    requires Shows(p, w, due, views)
    ensures Shows(t, w', DueAfter(due, e, x, tick), views[i := ViewOf(t, w', DueAfter(due, e, x, tick), i)])
  {
    var due' := DueAfter(due, e, x, tick);
    forall j | 0 <= j < |w| && j != i
      ensures Where(w, j) in due' && ViewOf(t, w', due', j) == ViewOf(p, w, due, j)
    {
      OwnersDiffer(|w|, p.pool.slots, w, due, i, j);
      OwnersDiffer(|w|, t.pool.slots, w', due', i, j);
    }
  }

  lemma {:induction false} MovedKeepsGood(cfg: Config, p: Sim, t: Sim, w: Pending, w': Pending, due: map<EventId, nat>,
                       i: nat, e: EventId, x: EventId, tick: nat, views: seq<View>)
    requires i < |w| == |w'| && Good(cfg, p, w, due, {e}, views) && Where(w, i) == e
    requires var due' := DueAfter(due, e, x, tick);
      Placed(cfg, t, w', due', {}) && Moved(p, t, w, w', i, x)
    requires tick < TICK_LIMIT
    ensures var due' := DueAfter(due, e, x, tick);
      Good(cfg, t, w', due', {}, views[i := ViewOf(t, w', due', i)])
  {
    OthersShow(p, t, w, w', due, i, e, x, tick, views);
  }
}
