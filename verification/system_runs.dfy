/** Whole runs of the event-driven simulator: for 1 to 32 CPUs on any clocks, any memory, and whichever
    queued event each turn pops, no turn raises an exception, every CPU computes what SimulatorFast
    computes, and the counters add up. */
module SystemRuns {
  import opened Arithmetic
  import opened Events
  import opened Machine
  import opened Options
  import opened Pools
  import opened Queues
  import opened Schedules
  import opened Slots
  import opened SystemAccounts
  import opened SystemBoot
  import opened SystemProgress
  import opened SystemSteps
  import opened SystemStructure
  import opened SystemTurns
  import opened SystemViews
  import opened Systems

  ghost predicate AllFollow(cfg: Config, views: seq<View>)
    requires Proper(cfg)
  {
    |views| == |cfg.clockOf| && forall i :: 0 <= i < |views| ==> Follows(cfg, i, views[i])
  }

  /** The counters of the scheduler and the allocator. The first event is the governor's. */
  ghost predicate Booked(cfg: Config, s: Sim, views: seq<View>) {
    var t := Total(cfg.memory, views);
    && s.sched.executed == 1 + t.executed
    && s.pool.allocations == |views| + 1 + t.allocations
    && s.pool.frees == 1 + t.frees
    && Balanced(s.pool)
  }

  ghost predicate Invariant(cfg: Config, s: Sim, w: Pending, views: seq<View>) {
    && Proper(cfg)
    && Between(cfg, s, w, views)
    && AllFollow(cfg, views)
    && Booked(cfg, s, views)
  }

  lemma {:induction false} FollowsAt(cfg: Config, views: seq<View>, i: nat)
    requires Proper(cfg) && AllFollow(cfg, views) && i < |views|
    ensures i < |cfg.clockOf| == |views| && Follows(cfg, i, views[i])
  {
  }

  lemma {:induction false} FollowsUpdated(cfg: Config, views: seq<View>, i: nat, v: View)
    requires Proper(cfg) && AllFollow(cfg, views) && i < |views| && Follows(cfg, i, v)
    ensures AllFollow(cfg, views[i := v])
  {
    hide Follows;
  }

  /** Every turn, whichever event it pops, keeps the invariant: the CPU that the event belongs to takes its
      next step. */
  lemma {:induction false} TurnKeepsInvariant(cfg: Config, s: Sim, w: Pending, views: seq<View>, k: nat)
    returns (t: Sim, w': Pending, views': seq<View>, i: nat)
    requires Invariant(cfg, s, w, views) && k < |s.sched.queue|
    ensures Shaped(cfg, s) && Turn(cfg, s, k) == Some(t) && Invariant(cfg, t, w', views')
    ensures i < |cfg.clockOf| == |views| && Follows(cfg, i, views[i]) && views' == views[i := Next(cfg, i, views[i])]
    ensures t.sched.now == s.sched.queue[k].tick == views[i].at
  {
    hide Between, Follows, Next, CpuTally, Turn, AllFollow;
    i := WhoseTurn(cfg, s, w, views, k);
    FollowsAt(cfg, views, i);
    NextFollows(cfg, i, views[i]);
    NextTally(cfg, i, views[i]);
    var v := Next(cfg, i, views[i]);
    t, w' := TurnMovesOne(cfg, s, w, views, k, i);
    TotalUpdated(cfg.memory, views, i, v, StepTally(views[i], v));
    FollowsUpdated(cfg, views, i, v);
    views' := views[i := v];
  }

  /** After its first turn the system satisfies the invariant. */
  lemma {:induction false} FirstTurnInvariant(cfg: Config) returns (t: Sim)
    requires Proper(cfg)
    ensures Shaped(cfg, Boot(cfg)) && Boot(cfg).sched.queue == [Entry(0, |cfg.clockOf|)]
    ensures Turn(cfg, Boot(cfg), 0) == Some(t) && t.sched.now == 0
    ensures Invariant(cfg, t, NoRequests(|cfg.clockOf|), BootViews(cfg))
  {
    hide Between, Turn, Boot, BootViews, AllFollow, Total;
    BootPopped(cfg);
    t := FirstTurn(cfg);
    BootViewsFollow(cfg);
  }

  lemma {:induction false} BootViewsFollow(cfg: Config)
    requires Proper(cfg)
    ensures AllFollow(cfg, BootViews(cfg)) && Total(cfg.memory, BootViews(cfg)) == Zero()
  {
    hide BootView, CpuTally, Follows, Zero, Sum;
    forall i | 0 <= i < |cfg.clockOf|
      ensures Follows(cfg, i, BootView(cfg, i)) && CpuTally(cfg.memory, BootView(cfg, i)) == Zero()
    {
      BootViewFollows(cfg, i);
    }
    assert Tallies(cfg.memory, BootViews(cfg)) == seq(|cfg.clockOf|, i => Zero());
    SumOfNothing(|cfg.clockOf|);
  }

  lemma {:induction false} BootViewFollows(cfg: Config, i: nat)
    requires Proper(cfg) && i < |cfg.clockOf|
    ensures Follows(cfg, i, BootView(cfg, i)) && CpuTally(cfg.memory, BootView(cfg, i)) == Zero()
  {
    hide FirstTickOf;
  }

  /* Runs. */

  /** EventLoop::run. `ks` says which entry each turn pops. */
  function Run(cfg: Config, s: Sim, stop: Sim -> bool, ks: seq<nat>): Option<Sim>
    decreases |ks|
  {
    if ks == [] || stop(s) || s.sched.queue == [] then Some(s)
    else if !Shaped(cfg, s) || ks[0] >= |s.sched.queue| then None
    else
      match Turn(cfg, s, ks[0])
      case None => None
      case Some(t) => Run(cfg, t, stop, ks[1..])
  }

  /** Every choice is the position of a queued event. */
  predicate Possible(cfg: Config, s: Sim, stop: Sim -> bool, ks: seq<nat>)
    decreases |ks|
  {
    ks == [] || stop(s) || s.sched.queue == []
    || (ks[0] < |s.sched.queue|
        && (Shaped(cfg, s) && Turn(cfg, s, ks[0]).Some?
            ==> Possible(cfg, Turn(cfg, s, ks[0]).value, stop, ks[1..])))
  }

  lemma {:induction false} RunKeepsInvariant(cfg: Config, s: Sim, w: Pending, views: seq<View>,
                                             stop: Sim -> bool, ks: seq<nat>)
    requires Invariant(cfg, s, w, views) && Possible(cfg, s, stop, ks)
    ensures Run(cfg, s, stop, ks).Some?
    ensures exists w', views' :: Invariant(cfg, Run(cfg, s, stop, ks).value, w', views')
    decreases |ks|
  {
    hide Invariant, Turn;
    if ks == [] || stop(s) || s.sched.queue == [] {
    } else {
      var t, w', views', i := TurnKeepsInvariant(cfg, s, w, views, ks[0]);
      RunKeepsInvariant(cfg, t, w', views', stop, ks[1..]);
    }
  }

  /* What the invariant means for the state of the system. */

  /** CPU `i` has the registers of SimulatorFast after as many instructions, and its clock event is queued. */
  ghost predicate Computed(cfg: Config, s: Sim, i: nat)
    requires i < |s.cpus|
  {
    var r := After(cfg.memory, s.cpus[i].icount);
    && s.cpus[i].pc == r.pc && s.cpus[i].wcount == r.wcount
    && i < MAX_EVENTS && i in Due(s.sched.queue)
  }

  /** A CPU that awaits memory has the request queued and not its clock event. */
  ghost predicate OneEvent(s: Sim, x: EventId) {
    x in Due(s.sched.queue) && |s.cpus| <= x ==>
      && x in s.pool.used && s.pool.slots[x].etype == MemoryAccess
      && s.pool.slots[x].buffer < |s.cpus| <= 32 && s.pool.slots[x].source == CpuId(s.pool.slots[x].buffer)
      && s.pool.slots[x].buffer !in Due(s.sched.queue)
  }

  ghost predicate Faithful(cfg: Config, s: Sim) {
    && Shaped(cfg, s) && NoDup(s.sched.queue)
    && (forall i :: 0 <= i < |s.cpus| && Resting(s.cpus[i]) ==> Computed(cfg, s, i))
    && (forall x: EventId :: OneEvent(s, x))
    && |s.sched.queue| == |s.cpus|
    && Balanced(s.pool)
  }

  lemma {:induction false} RestingComputed(cfg: Config, s: Sim, w: Pending, views: seq<View>, i: nat)
    requires Invariant(cfg, s, w, views) && i < |cfg.clockOf| && Resting(s.cpus[i])
    ensures Computed(cfg, s, i)
  {
    hide After;
    assert Follows(cfg, i, views[i]);
    assert views[i] == ViewOf(s, w, Due(s.sched.queue), i);
  }

  lemma {:induction false} RequestIsAlone(cfg: Config, s: Sim, w: Pending, views: seq<View>, x: EventId)
    requires Invariant(cfg, s, w, views)
    ensures OneEvent(s, x)
  {
    hide After;
    if x in Due(s.sched.queue) && |s.cpus| <= x {
      var i := Owner(|w|, s.pool.slots, x);
      assert Where(w, i) == x;
      assert Follows(cfg, i, views[i]);
      WaiterIsNotQueued(|w|, w, Due(s.sched.queue), s.pool.slots, i);
    }
  }

  lemma {:induction false} InvariantIsFaithful(cfg: Config, s: Sim, w: Pending, views: seq<View>)
    requires Invariant(cfg, s, w, views)
    ensures Faithful(cfg, s)
  {
    SizeOfQueue(s.sched.queue);
    OneEventEach(|w|, w, Due(s.sched.queue), s.pool.slots);
    forall i | 0 <= i < |s.cpus| && Resting(s.cpus[i])
      ensures Computed(cfg, s, i)
    {
      RestingComputed(cfg, s, w, views, i);
    }
    forall x: EventId
      ensures OneEvent(s, x)
    {
      RequestIsAlone(cfg, s, w, views, x);
    }
  }

  /** The refinement theorem. Any run from the start raises no exception (so slots never run out), and
      after its first turn every CPU at an instruction boundary has computed what SimulatorFast computes in
      as many instructions. The queue holds exactly one event of each CPU, so the loop never stops for lack
      of events, and every slot in use is accounted for. */
  lemma {:induction false} RunsAreFaithful(cfg: Config, stop: Sim -> bool, ks: seq<nat>)
    requires Proper(cfg) && Possible(cfg, Boot(cfg), stop, ks)
    ensures Run(cfg, Boot(cfg), stop, ks).Some?
    ensures var s := Run(cfg, Boot(cfg), stop, ks).value; s == Boot(cfg) || Faithful(cfg, s)
  {
    hide Invariant, Turn, Faithful, Boot;
    var s := Boot(cfg);
    if ks != [] && !stop(s) {
      var t := FirstTurnInvariant(cfg);
      RunKeepsInvariant(cfg, t, NoRequests(|cfg.clockOf|), BootViews(cfg), stop, ks[1..]);
      var r := Run(cfg, t, stop, ks[1..]).value;
      var w, views :| Invariant(cfg, r, w, views);
      InvariantIsFaithful(cfg, r, w, views);
    }
  }

  lemma {:induction false} InvariantQueue(cfg: Config, s: Sim, w: Pending, views: seq<View>)
    requires Invariant(cfg, s, w, views)
    ensures |s.sched.queue| == |s.cpus| == |cfg.clockOf| == |views| && 1 <= |cfg.clockOf| <= 32
  {
    hide Booked, AllFollow;
    SizeOfQueue(s.sched.queue);
    OneEventEach(|w|, w, Due(s.sched.queue), s.pool.slots);
  }

  lemma {:induction false} CpuOfView(cfg: Config, s: Sim, w: Pending, views: seq<View>, i: nat)
    requires Invariant(cfg, s, w, views) && i < |cfg.clockOf|
    ensures |views| == |s.cpus| == |cfg.clockOf| && views[i].cpu == s.cpus[i]
  {
    assert views[i] == ViewOf(s, w, Due(s.sched.queue), i);
  }

  /** One CPU at an instruction boundary, after u unary and v nonunary instructions. */
  lemma {:induction false} OneCpuAccounts(cfg: Config, s: Sim, w: Pending, views: seq<View>)
    requires Invariant(cfg, s, w, views) && |cfg.clockOf| == 1 && Resting(s.cpus[0])
    ensures var r := After(cfg.memory, s.cpus[0].icount);
      var (u, v) := (r.unary, r.icount - r.unary);
      && s.sched.executed == 1 + 3 * u + 5 * v
      && s.pool.allocations == 2 + u + 2 * v
      && s.pool.frees == 1 + u + 2 * v
  {
    hide Follows;
    CpuOfView(cfg, s, w, views, 0);
    var ts := Tallies(cfg.memory, views);
    assert ts[..0] == [];
    assert Sum(ts) == Plus(Sum([]), ts[0]);
  }
}
