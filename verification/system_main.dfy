/** The two simulators of bin/simexp/main.cpp agree: running the event-driven one until its CPU has executed
    `maxi` instructions leaves the registers that SimulatorFast::execute(maxi) leaves. */
module SystemMain {
  import opened Clocks
  import opened Machine
  import opened Options
  import opened Schedules
  import opened SystemAccounts
  import opened SystemBoot
  import opened SystemProgress
  import opened SystemRuns
  import opened SystemStructure
  import opened SystemViews
  import opened Systems

  /** main's stop condition. */
  function Instructions(maxi: nat): Sim -> bool {
    (s: Sim) => |s.cpus| > 0 && s.cpus[0].icount >= maxi
  }

  /** The CPU has not executed more than `maxi` instructions, and rests when it has executed them. */
  predicate UpTo(maxi: nat, v: View) {
    v.cpu.icount < maxi || (v.cpu.icount == maxi && Resting(v.cpu))
  }

  /** Events executed for the current instruction. */
  function Phase(v: View): nat {
    match v.cpu.coro
    case NotStarted => 0
    case AtClock => 0
    case AtOpcode(_) => if v.request.Some? then 1 else 2
    case AtOperand(_, _) => if v.request.Some? then 3 else 4
  }

  /** At most this many turns remain: an instruction takes at most 5. */
  function TurnsLeft(maxi: nat, v: View): nat
    requires UpTo(maxi, v)
  {
    if v.cpu.icount == maxi then 0 else 5 * (maxi - v.cpu.icount) - Phase(v)
  }

  lemma {:induction false} NextUpTo(cfg: Config, i: nat, v: View, maxi: nat)
    requires Proper(cfg) && i < |cfg.clockOf| && Follows(cfg, i, v) && v.cpu.icount < maxi
    ensures UpTo(maxi, Next(cfg, i, v))
    ensures TurnsLeft(maxi, Next(cfg, i, v)) < TurnsLeft(maxi, v)
  {
    hide NextClockTick, Value, After, ReadOk;
  }

  /** One CPU: the queue holds one event, and its turn is the CPU's next step. */
  lemma {:induction false} OnlyCpuTurn(cfg: Config, s: Sim, w: Pending, views: seq<View>, maxi: nat)
    returns (t: Sim, w': Pending, views': seq<View>)
    requires Invariant(cfg, s, w, views) && |cfg.clockOf| == 1 && |views| == 1 && UpTo(maxi, views[0])
    requires s.cpus != [] && s.cpus[0].icount < maxi
    ensures |s.sched.queue| == |t.sched.queue| == 1 && Shaped(cfg, s)
    ensures Turn(cfg, s, 0) == Some(t) && Invariant(cfg, t, w', views')
    ensures |views'| == |t.cpus| == 1 && views'[0].cpu == t.cpus[0]
    ensures UpTo(maxi, views'[0]) && TurnsLeft(maxi, views'[0]) < TurnsLeft(maxi, views[0])
  {
    hide Invariant, Turn, Next, UpTo, TurnsLeft, Follows;
    InvariantQueue(cfg, s, w, views);
    CpuOfView(cfg, s, w, views, 0);
    var i;
    t, w', views', i := TurnKeepsInvariant(cfg, s, w, views, 0);
    InvariantQueue(cfg, t, w', views');
    CpuOfView(cfg, t, w', views', 0);
    NextUpTo(cfg, 0, views[0], maxi);
  }

  lemma {:induction false} MainRunKeeps(cfg: Config, s: Sim, w: Pending, views: seq<View>, maxi: nat, ks: seq<nat>)
    returns (t: Sim, w': Pending, views': seq<View>)
    requires Invariant(cfg, s, w, views) && |cfg.clockOf| == |views| == |s.cpus| == 1
    requires views[0].cpu == s.cpus[0] && UpTo(maxi, views[0]) && Possible(cfg, s, Instructions(maxi), ks)
    ensures Run(cfg, s, Instructions(maxi), ks) == Some(t)
    ensures Invariant(cfg, t, w', views') && |views'| == |t.cpus| == 1
    ensures views'[0].cpu == t.cpus[0] && UpTo(maxi, views'[0])
    decreases |ks|
  {
    hide Invariant, Turn, UpTo, TurnsLeft;
    t, w', views' := s, w, views;
    if ks == [] || Instructions(maxi)(s) || s.sched.queue == [] {
    } else {
      var u, x, xs := OnlyCpuTurn(cfg, s, w, views, maxi);
      t, w', views' := MainRunKeeps(cfg, u, x, xs, maxi, ks[1..]);
    }
  }

  /** What main reports when its run stops: the registers of SimulatorFast after `maxi` instructions, and
      counters that say how many of them were unary. */
  ghost predicate Reported(cfg: Config, s: Sim, maxi: nat) {
    var r := After(cfg.memory, maxi);
    var (u, v) := (r.unary, maxi - r.unary);
    && |s.cpus| == 1 && s.cpus[0].icount == maxi && s.cpus[0].pc == r.pc && s.cpus[0].wcount == r.wcount
    && s.sched.executed == 1 + 3 * u + 5 * v
    && s.pool.allocations == 2 + u + 2 * v && s.pool.frees == 1 + u + 2 * v
  }

  /** The program counter reported counts the bytes of the instructions executed. */
  lemma {:induction false} ReportedPc(cfg: Config, s: Sim, maxi: nat)
    requires Reported(cfg, s, maxi)
    ensures |s.cpus| == 1 && s.cpus[0].pc == (3 * maxi - 2 * After(cfg.memory, maxi).unary) % 0x1_0000
  {
    PcCountsBytes(cfg.memory, maxi);
  }

  lemma {:induction false} StoppedReports(cfg: Config, s: Sim, w: Pending, views: seq<View>, maxi: nat)
    requires Invariant(cfg, s, w, views) && |cfg.clockOf| == |views| == |s.cpus| == 1
    requires views[0].cpu == s.cpus[0] && UpTo(maxi, views[0]) && s.cpus[0].icount >= maxi
    ensures Reported(cfg, s, maxi)
  {
    hide Invariant;
    RestingComputed(cfg, s, w, views, 0);
    OneCpuAccounts(cfg, s, w, views);
  }

  lemma {:induction false} BootUpTo(cfg: Config, maxi: nat)
    requires Proper(cfg) && maxi >= 1
    ensures |BootViews(cfg)| == |cfg.clockOf| >= 1 && BootViews(cfg)[0].cpu == BootCpu()
    ensures UpTo(maxi, BootViews(cfg)[0])
  {
    hide FirstTickOf;
  }

  /** The first turn of main's run. */
  lemma {:induction false} MainStarts(cfg: Config, maxi: nat) returns (t: Sim)
    requires Proper(cfg) && |cfg.clockOf| == 1 && maxi >= 1
    ensures Shaped(cfg, Boot(cfg)) && |Boot(cfg).sched.queue| == 1 && Turn(cfg, Boot(cfg), 0) == Some(t)
    ensures Invariant(cfg, t, NoRequests(1), BootViews(cfg)) && |BootViews(cfg)| == |t.cpus| == |t.sched.queue| == 1
    ensures BootViews(cfg)[0].cpu == t.cpus[0] && UpTo(maxi, BootViews(cfg)[0])
  {
    hide Invariant, Turn, Boot, UpTo, BootViews;
    t := FirstTurnInvariant(cfg);
    BootUpTo(cfg, maxi);
    CpuOfView(cfg, t, NoRequests(1), BootViews(cfg), 0);
    InvariantQueue(cfg, t, NoRequests(1), BootViews(cfg));
  }

  /** When main's event-driven run stops, its CPU has executed exactly `maxi` instructions, with the
      program counter and the sum that SimulatorFast ends with, and the counters that main reports are
      determined by how many of the instructions were unary. */
  lemma {:induction false} SimulatorsAgree(cfg: Config, maxi: nat, ks: seq<nat>)
    requires Proper(cfg) && |cfg.clockOf| == 1 && maxi >= 1
    requires Possible(cfg, Boot(cfg), Instructions(maxi), ks)
    ensures Run(cfg, Boot(cfg), Instructions(maxi), ks).Some?
    ensures var s := Run(cfg, Boot(cfg), Instructions(maxi), ks).value;
      Instructions(maxi)(s) ==> Reported(cfg, s, maxi)
  {
    hide Invariant, Turn, UpTo, Reported;
    if ks != [] {
      var t := MainStarts(cfg, maxi);
      var r, w, views := MainRunKeeps(cfg, t, NoRequests(1), BootViews(cfg), maxi, ks[1..]);
      if Instructions(maxi)(r) {
        StoppedReports(cfg, r, w, views, maxi);
      }
    }
  }
}
