/** What the CPUs have cost: events executed, slots allocated and slots freed. */
module SystemAccounts {
  import opened Schedules
  import opened Clocks
  import opened Machine
  import opened Options
  import opened Systems
  import opened SystemViews
  import opened SystemSteps
  import opened SystemProgress

  datatype Tally = Tally(executed: nat, allocations: nat, frees: nat)

  function Zero(): Tally {
    Tally(0, 0, 0)
  }

  function Plus(a: Tally, b: Tally): Tally {
    Tally(a.executed + b.executed, a.allocations + b.allocations, a.frees + b.frees)
  }

  /** What a CPU has caused: 3 events and 1 slot per unary instruction, 5 events and 2 slots per nonunary
      one, and its share of the current instruction. */
  function CpuTally(m: Memory, v: View): Tally {
    var r := After(m, v.cpu.icount);
    var unary, nonunary := r.unary, v.cpu.icount - r.unary;
    var whole := Tally(3 * unary + 5 * nonunary, unary + 2 * nonunary, unary + 2 * nonunary);
    match v.cpu.coro
    case NotStarted => whole
    case AtClock => whole
    case AtOpcode(_) => Plus(whole, if v.request.Some? then Tally(1, 1, 0) else Tally(2, 1, 1))
    case AtOperand(_, _) => Plus(whole, if v.request.Some? then Tally(3, 2, 1) else Tally(4, 2, 2))
  }

  /** What one step costs: an event, a slot if it ends in a request, and it frees the slot of the request
      that it answers. */
  function StepTally(v: View, v': View): Tally {
    Tally(1, if v'.request.Some? then 1 else 0, if v.request.Some? then 1 else 0)
  }

  lemma {:induction false} NextTally(cfg: Config, i: nat, v: View)
    requires Proper(cfg) && i < |cfg.clockOf| && Follows(cfg, i, v)
    ensures var v' := Next(cfg, i, v); CpuTally(cfg.memory, v') == Plus(CpuTally(cfg.memory, v), StepTally(v, v'))
  {
    hide NextClockTick, Bytes, Value, Store, NextState, Advance;
    var c := v.cpu;
    var r := After(cfg.memory, c.icount);
    if v.request.None? && !c.coro.NotStarted? && !c.coro.AtClock? {
      assert After(cfg.memory, c.icount + 1) == NextState(cfg.memory, r);
      ReadBack(cfg.memory.word(c.pc));
      if Opcode(cfg.memory, r.pc) < 0x80 {
        UnaryNext(cfg.memory, r);
      } else {
        NonunaryNext(cfg.memory, r);
      }
    }
  }

  function Tallies(m: Memory, views: seq<View>): (ts: seq<Tally>)
    ensures |ts| == |views|
  {
    seq(|views|, i requires 0 <= i < |views| => CpuTally(m, views[i]))
  }

  function Sum(ts: seq<Tally>): Tally {
    if ts == [] then Zero() else Plus(Sum(ts[..|ts| - 1]), ts[|ts| - 1])
  }

  lemma {:induction false} SumUpdated(ts: seq<Tally>, i: nat, more: Tally)
    requires i < |ts|
    ensures Sum(ts[i := Plus(ts[i], more)]) == Plus(Sum(ts), more)
  {
    var last := |ts| - 1;
    var us := ts[i := Plus(ts[i], more)];
    if i == last {
      assert us[..last] == ts[..last];
    } else {
      assert us[..last] == ts[..last][i := Plus(ts[i], more)];
      SumUpdated(ts[..last], i, more);
    }
  }

  function Total(m: Memory, views: seq<View>): Tally {
    Sum(Tallies(m, views))
  }

  lemma {:induction false} TotalUpdated(m: Memory, views: seq<View>, i: nat, v: View, more: Tally)
    requires i < |views| && CpuTally(m, v) == Plus(CpuTally(m, views[i]), more)
    ensures Total(m, views[i := v]) == Plus(Total(m, views), more)
  {
    var ts := Tallies(m, views);
    assert Tallies(m, views[i := v]) == ts[i := Plus(ts[i], more)];
    SumUpdated(ts, i, more);
  }

  lemma {:induction false} SumOfNothing(n: nat)
    ensures Sum(seq(n, i => Zero())) == Zero()
  {
    if n == 0 {
    } else {
      assert seq(n, i => Zero())[..n - 1] == seq(n - 1, i => Zero());
      SumOfNothing(n - 1);
    }
  }

  /* How many turns are left. */

  /** An upper bound on the steps that a CPU can take before ticks reach 48 bits. */
  function StepsLeft(v: View): nat {
    if v.at >= TICK_LIMIT then 0 else 2 * (TICK_LIMIT - v.at) + if v.request.Some? then 1 else 0
  }

  /** Every step brings a CPU closer to that bound. */
  lemma {:induction false} NextHasFewerLeft(cfg: Config, i: nat, v: View)
    requires Proper(cfg) && i < |cfg.clockOf| && Timely(ClockOf(cfg, i), v, Next(cfg, i, v))
    ensures StepsLeft(Next(cfg, i, v)) < StepsLeft(v)
  {
    hide NextClockTick, Store, Bytes, Value;
  }

  function TotalLeft(views: seq<View>): nat {
    if views == [] then 0 else TotalLeft(views[..|views| - 1]) + StepsLeft(views[|views| - 1])
  }

  lemma {:induction false} TotalLeftUpdated(views: seq<View>, i: nat, v: View)
    requires i < |views|
    ensures TotalLeft(views[i := v]) == TotalLeft(views) - StepsLeft(views[i]) + StepsLeft(v)
  {
    hide StepsLeft;
    var last := |views| - 1;
    if i == last {
      assert views[i := v][..last] == views[..last];
    } else {
      assert views[i := v][..last] == views[..last][i := v];
      TotalLeftUpdated(views[..last], i, v);
    }
  }
}
