/** What the steps of one CPU amount to: where it stands in the instruction stream that SimulatorFast
    executes, whatever its clock does, and the tick at which it moves on, if its clock leaves room for the
    two one-tick memory reads. */
module SystemProgress {
  import opened Arithmetic
  import opened Schedules
  import opened Events
  import opened Clocks
  import opened Machine
  import opened Options
  import opened Systems
  import opened SystemStructure
  import opened SystemViews
  import opened SystemSteps

  /** The edge on which the next instruction starts: unary instructions take 2 cycles, the others 4. */
  function EdgeIndex(r: State): nat
    requires r.unary <= r.icount
  {
    1 + 2 * r.unary + 4 * (r.icount - r.unary)
  }

  /** How long after the clock edge the next event of a CPU is due: each memory read takes one tick. */
  function Lag(c: Coro): nat {
    match c
    case NotStarted => 0
    case AtClock => 0
    case AtOpcode(_) => 1
    case AtOperand(_, _) => 2
  }

  /** The read of `len` bytes that CPU `i` awaits is either requested or answered. */
  ghost predicate ReadOk(cfg: Config, i: nat, v: View, len: nat)
    requires i < 32
  {
    if v.request.Some? then |v.cpu.result| == len && v.request.value == Request(i, v.cpu.pc, len)
    else v.cpu.result == Bytes(cfg.memory.word(v.cpu.pc), len)
  }

  /** The registers agree with the state `r` of the straight-line simulator. */
  ghost predicate Agrees(cfg: Config, i: nat, v: View, r: State)
    requires i < 32
  {
    var c := v.cpu;
    && c.wcount == r.wcount
    && match c.coro
       case NotStarted => c.pc == r.pc && v.request.None?
       case AtClock => c.pc == r.pc && v.request.None?
       case AtOpcode(ev) => ev == i && c.pc == r.pc && ReadOk(cfg, i, v, 1)
       case AtOperand(ev, mn) =>
         && ev == i && c.pc == Advance(r.pc, 1)
         && mn == Opcode(cfg.memory, r.pc) && mn >= 0x80
         && ReadOk(cfg, i, v, 2)
  }

  /** The CPU is where the straight-line simulator is after as many instructions, or in the middle of the
      next one. */
  ghost predicate Follows(cfg: Config, i: nat, v: View)
    requires i < 32
  {
    Agrees(cfg, i, v, After(cfg.memory, v.cpu.icount))
  }

  /** The period leaves room for the jitter and two ticks. */
  predicate Roomy(s: PulseSchedule) {
    s.period > 0 && s.period / 2 + s.jitter + 2 < s.period
  }

  /** The CPU's next event is due on the edge of its current instruction, or that many ticks later. */
  ghost predicate OnTime(cfg: Config, i: nat, v: View)
    requires Proper(cfg) && i < |cfg.clockOf|
  {
    var n := EdgeIndex(After(cfg.memory, v.cpu.icount));
    && n < U64_LIMIT && Representable(ClockOf(cfg, i), n)
    && v.at == EdgeTime(ClockOf(cfg, i), cfg.noise, n) + Lag(v.cpu.coro)
  }

  /* Arithmetic of one instruction. */

  /** From up to two ticks after edge `n`, the tick `d` cycles on is edge `n + d`. */
  lemma {:induction false} ClockAhead(s: PulseSchedule, noise: Noise, n: u64, after: nat, d: nat)
    requires Roomy(s) && n >= 1 && Representable(s, n) && after <= 2 && 2 <= d <= 4
    requires EdgeTime(s, noise, n) + after + 6 * s.period < TICK_LIMIT
    ensures n + d < U64_LIMIT && Representable(s, n + d)
    ensures EdgeTime(s, noise, n) + after < U64_LIMIT
    ensures NextClockTick(s, noise, EdgeTime(s, noise, n) + after, d) == EdgeTime(s, noise, n + d)
    ensures EdgeTime(s, noise, n) + after < EdgeTime(s, noise, n + d) < TICK_LIMIT
    ensures EdgeTime(s, noise, n + d) <= EdgeTime(s, noise, n) + 5 * s.period
  {
    EdgeIsNearPulse(s, noise, n);
    assert (n + d + 1) * s.period == n * s.period + (d + 1) * s.period;
    assert (n + d) * s.period == n * s.period + d * s.period;
    MulMonotone(d + 1, 5, s.period);
    MulMonotone(2, d, s.period);
    IndexFits(s, n + d, n);
    EdgeIsNearPulse(s, noise, n + d);
    IndexAfterEdge(s, noise, n, after);
    NextTickOfPulse(s, noise, EdgeTime(s, noise, n) + after, d, n);
  }

  /** At tick 0 the next clock is edge 1. */
  lemma {:induction false} FirstTick(s: PulseSchedule, noise: Noise)
    requires Roomy(s) && 6 * s.period < TICK_LIMIT
    ensures Representable(s, 1)
    ensures NextClockTick(s, noise, 0, 1) == EdgeTime(s, noise, 1) <= 2 * s.period
  {
    EdgeIsNearPulse(s, noise, 1);
    WrapSmall(s.period / 2);
    Quotient(s.period / 2, s.period, 0, s.period / 2);
    NextTickOfPulse(s, noise, 0, 1, 0);
  }

  /* One step. */

  /** A read answered by memory holds the low bytes of the word. */
  lemma {:induction false} AnswerOk(word: nat, buffer: seq<nat>, len: nat)
    requires |buffer| == len && len <= 2
    ensures Store(buffer, word, len) == Bytes(word, len)
  {
  }

  lemma {:induction false} UnaryNext(m: Memory, r: State)
    requires Opcode(m, r.pc) < 0x80 && r.unary <= r.icount
    ensures var r' := NextState(m, r);
      && r'.pc == Advance(r.pc, 1) && r'.wcount == r.wcount + Opcode(m, r.pc)
      && r'.unary == r.unary + 1 && r'.icount == r.icount + 1 && EdgeIndex(r') == EdgeIndex(r) + 2
  {
  }

  lemma {:induction false} NonunaryNext(m: Memory, r: State)
    requires Opcode(m, r.pc) >= 0x80 && r.unary <= r.icount
    ensures var r' := NextState(m, r);
      && r'.pc == Advance(Advance(r.pc, 1), 2)
      && r'.wcount == r.wcount + m.shift(Operand(m, Advance(r.pc, 1)), Opcode(m, r.pc))
      && r'.unary == r.unary && r'.icount == r.icount + 1 && EdgeIndex(r') == EdgeIndex(r) + 4
  {
  }

  lemma {:induction false} AfterNext(m: Memory, n: nat)
    ensures After(m, n + 1) == NextState(m, After(m, n))
  {
  }

  /** The step of a CPU follows the instruction stream. */
  lemma {:induction false} NextFollows(cfg: Config, i: nat, v: View)
    requires Proper(cfg) && i < |cfg.clockOf| && Follows(cfg, i, v)
    ensures Sane(i, v) && Follows(cfg, i, Next(cfg, i, v))
  {
    hide NextClockTick, NextState, Store, Bytes, Value;
    var c := v.cpu;
    var r := After(cfg.memory, c.icount);
    if v.request.Some? {
      AnswerOk(cfg.memory.word(c.pc), c.result, v.request.value.len);
    } else if !Resting(c) {
      AfterNext(cfg.memory, c.icount);
      ReadBack(cfg.memory.word(c.pc));
      if Opcode(cfg.memory, r.pc) < 0x80 {
        UnaryNext(cfg.memory, r);
      } else {
        NonunaryNext(cfg.memory, r);
      }
    }
  }

  /** From `v` to `v'`, time does not go back, and moves at most 5 periods. */
  predicate Timely(s: PulseSchedule, v: View, v': View) {
    && v.at <= v'.at < TICK_LIMIT && v'.at <= v.at + 5 * s.period
    && (v.request.None? ==> v.at < v'.at)
  }

  /** The end of an instruction, `d` cycles long, is followed by the edge `d` pulses on. */
  lemma {:induction false} RestOnTime(cfg: Config, i: nat, v: View, c: Cpu, d: nat)
    requires Proper(cfg) && i < |cfg.clockOf| && Roomy(ClockOf(cfg, i)) && 2 <= d <= 4
    requires c.icount == v.cpu.icount
      && EdgeIndex(After(cfg.memory, c.icount + 1)) == EdgeIndex(After(cfg.memory, c.icount)) + d
    requires OnTime(cfg, i, v) && v.at + 6 * ClockOf(cfg, i).period < TICK_LIMIT
    ensures var v' := Rest(ClockOf(cfg, i), cfg.noise, c, d, v.at);
      OnTime(cfg, i, v') && v.at < v'.at && Timely(ClockOf(cfg, i), v, v')
  {
    hide EdgeTime, NextClockTick, After;
    ClockAhead(ClockOf(cfg, i), cfg.noise, EdgeIndex(After(cfg.memory, c.icount)), Lag(v.cpu.coro), d);
    WrapSmall(v.at);
  }

  /** The step of a CPU keeps it on time. */
  lemma {:induction false} NextOnTime(cfg: Config, i: nat, v: View)
    requires Proper(cfg) && i < |cfg.clockOf| && Roomy(ClockOf(cfg, i))
    requires Follows(cfg, i, v) && OnTime(cfg, i, v) && v.at + 6 * ClockOf(cfg, i).period < TICK_LIMIT
    ensures OnTime(cfg, i, Next(cfg, i, v)) && Timely(ClockOf(cfg, i), v, Next(cfg, i, v))
  {
    hide EdgeTime, NextClockTick, NextState, Store, Rest, Bytes, Value, After;
    var c := v.cpu.(current := Some(i));
    var r := After(cfg.memory, c.icount);
    if v.request.None? && !Resting(c) {
      AfterNext(cfg.memory, c.icount);
      ReadBack(cfg.memory.word(c.pc));
      if c.coro.AtOperand? {
        NonunaryNext(cfg.memory, r);
        RestOnTime(cfg, i, v, c.(pc := Advance(c.pc, 2),
                                 wcount := c.wcount + cfg.memory.shift(Value(c.result), c.coro.mn)), 4);
      } else if Value(c.result) < 0x80 {
        UnaryNext(cfg.memory, r);
        RestOnTime(cfg, i, v, c.(pc := Advance(c.pc, 1), wcount := c.wcount + Value(c.result)), 2);
      }
    }
  }
}
