/** Runs on clocks whose periods leave room for jitter and for two one-tick memory reads, as long as ticks
    fit in 48 bits: every CPU is on time, and time does not go back. */
module SystemTiming {
  import opened Clocks
  import opened Machine
  import opened Options
  import opened Queues
  import opened Schedules
  import opened Slots
  import opened Arithmetic
  import opened SystemAccounts
  import opened SystemBoot
  import opened SystemProgress
  import opened SystemRuns
  import opened SystemSteps
  import opened SystemStructure
  import opened SystemViews
  import opened Systems

  predicate Spaced(cfg: Config) {
    forall k :: 0 <= k < |cfg.clocks| ==> Roomy(cfg.clocks[k])
  }

  /** Ticks stay within 48 bits as long as no turn starts after tick `max`. */
  predicate Within(cfg: Config, max: nat) {
    forall k :: 0 <= k < |cfg.clocks| ==> max + 11 * cfg.clocks[k].period < TICK_LIMIT
  }

  /** Every CPU is on time, and due from now on, within 5 periods. */
  ghost predicate Timed(cfg: Config, now: nat, views: seq<View>)
    requires Proper(cfg)
  {
    && |views| == |cfg.clockOf|
    && forall i :: 0 <= i < |views| ==>
         OnTime(cfg, i, views[i]) && now <= views[i].at <= now + 5 * ClockOf(cfg, i).period
  }

  lemma {:induction false} TimedAt(cfg: Config, views: seq<View>, now: nat, max: nat, i: nat)
    requires Proper(cfg) && Spaced(cfg) && Timed(cfg, now, views) && i < |views| && now < max && Within(cfg, max)
    ensures i < |cfg.clockOf| && OnTime(cfg, i, views[i]) && Roomy(ClockOf(cfg, i))
    ensures now <= views[i].at && views[i].at + 6 * ClockOf(cfg, i).period < TICK_LIMIT
  {
    hide OnTime;
  }

  lemma {:induction false} TimedUpdated(cfg: Config, views: seq<View>, now: nat, now': nat, i: nat, v: View)
    requires Proper(cfg) && Timed(cfg, now, views) && i < |views| && now <= now'
    requires forall j :: 0 <= j < |views| ==> now' <= views[j].at
    requires OnTime(cfg, i, v) && now' <= v.at <= now' + 5 * ClockOf(cfg, i).period
    ensures Timed(cfg, now', views[i := v])
  {
    hide OnTime;
  }

  /** `k` is the position of an entry that next_event may take: one with the least tick. */
  predicate IsLeast(q: seq<Entry>, k: nat) {
    k < |q| && forall j :: 0 <= j < |q| ==> q[k].tick <= q[j].tick
  }

  /** std::min_element yields one of the entries with the least tick. */
  lemma {:induction false} FirstMinIsLeast(q: seq<Entry>)
    requires q != []
    ensures IsLeast(q, FirstMin(q))
  {
  }

  /** Nobody is due before the popped event. */
  lemma {:induction false} LeastView(cfg: Config, s: Sim, w: Pending, views: seq<View>, k: nat)
    requires Between(cfg, s, w, views) && IsLeast(s.sched.queue, k)
    ensures forall j :: 0 <= j < |views| ==> s.sched.queue[k].tick <= views[j].at
  {
    DueIsHeld(s.sched.queue);
    forall j | 0 <= j < |views|
      ensures s.sched.queue[k].tick <= views[j].at
    {
      assert views[j] == ViewOf(s, w, Due(s.sched.queue), j);
      var n :| 0 <= n < |s.sched.queue| && s.sched.queue[n].id == Where(w, j);
      Queued(s.sched.queue, n);
    }
  }

  /** A turn that pops one of the events due first keeps everybody on time, and time does not go back. */
  lemma {:induction false} TurnKeepsTimed(cfg: Config, s: Sim, w: Pending, views: seq<View>, k: nat, max: nat)
    returns (t: Sim, w': Pending, views': seq<View>)
    requires Invariant(cfg, s, w, views) && Spaced(cfg) && Timed(cfg, s.sched.now, views)
    requires IsLeast(s.sched.queue, k) && s.sched.now < max && Within(cfg, max)
    ensures Shaped(cfg, s) && Turn(cfg, s, k) == Some(t)
    ensures Invariant(cfg, t, w', views') && Timed(cfg, t.sched.now, views')
    ensures s.sched.now <= t.sched.now && TotalLeft(views') < TotalLeft(views)
  {
    hide Between, Follows, OnTime, Next, CpuTally, Turn, Within, Spaced, Timed, AllFollow, StepsLeft;
    LeastView(cfg, s, w, views, k);
    var i;
    t, w', views', i := TurnKeepsInvariant(cfg, s, w, views, k);
    TimedAt(cfg, views, s.sched.now, max, i);
    NextOnTime(cfg, i, views[i]);
    NextHasFewerLeft(cfg, i, views[i]);
    TimedUpdated(cfg, views, s.sched.now, t.sched.now, i, Next(cfg, i, views[i]));
    TotalLeftUpdated(views, i, Next(cfg, i, views[i]));
  }

  lemma {:induction false} BootTimed(cfg: Config, max: nat)
    requires Proper(cfg) && Spaced(cfg) && Within(cfg, max)
    ensures Timed(cfg, 0, BootViews(cfg))
  {
    hide EdgeTime, NextClockTick;
    forall i | 0 <= i < |cfg.clockOf|
      ensures OnTime(cfg, i, BootView(cfg, i)) && BootView(cfg, i).at <= 5 * ClockOf(cfg, i).period
    {
      FirstTick(ClockOf(cfg, i), cfg.noise);
    }
  }

  /** Every choice is one of the entries with the least tick. */
  predicate Legal(cfg: Config, s: Sim, stop: Sim -> bool, ks: seq<nat>)
    decreases |ks|
  {
    ks == [] || stop(s) || s.sched.queue == []
    || (IsLeast(s.sched.queue, ks[0])
        && (Shaped(cfg, s) && Turn(cfg, s, ks[0]).Some?
            ==> Legal(cfg, Turn(cfg, s, ks[0]).value, stop, ks[1..])))
  }

  lemma {:induction false} LeastIsThere(q: seq<Entry>, k: nat)
    requires IsLeast(q, k)
    ensures k < |q|
  {
  }

  lemma {:induction false} LegalIsPossible(cfg: Config, s: Sim, stop: Sim -> bool, ks: seq<nat>)
    requires Legal(cfg, s, stop, ks)
    ensures Possible(cfg, s, stop, ks)
    decreases |ks|
  {
    hide Turn, Shaped;
    if ks == [] || stop(s) || s.sched.queue == [] || !Shaped(cfg, s) || Turn(cfg, s, ks[0]).None? {
    } else {
      LegalIsPossible(cfg, Turn(cfg, s, ks[0]).value, stop, ks[1..]);
    }
  }

  /** The stop condition does not let the system run past tick `max`. */
  ghost predicate StopsBy(stop: Sim -> bool, max: nat) {
    forall s: Sim :: s.sched.now >= max ==> stop(s)
  }

  lemma {:induction false} RunKeepsTimed(cfg: Config, s: Sim, w: Pending, views: seq<View>,
                                         stop: Sim -> bool, max: nat, ks: seq<nat>)
    returns (t: Sim, w': Pending, views': seq<View>)
    requires Invariant(cfg, s, w, views) && Spaced(cfg) && Timed(cfg, s.sched.now, views)
    requires Within(cfg, max) && StopsBy(stop, max) && Legal(cfg, s, stop, ks)
    ensures Run(cfg, s, stop, ks) == Some(t) && s.sched.now <= t.sched.now
    ensures Invariant(cfg, t, w', views') && Timed(cfg, t.sched.now, views')
    decreases |ks|
  {
    hide Invariant, Turn, IsLeast, Timed, Spaced, Within;
    t, w', views' := s, w, views;
    if ks == [] || stop(s) || s.sched.queue == [] {
    } else {
      var u, x, xs := TurnKeepsTimed(cfg, s, w, views, ks[0], max);
      LeastIsThere(s.sched.queue, ks[0]);
      t, w', views' := RunKeepsTimed(cfg, u, x, xs, stop, max, ks[1..]);
    }
  }

  /** The clock event of a resting CPU is queued for exactly the edge that its instructions take it to. */
  ghost predicate OnEdge(cfg: Config, s: Sim, i: nat)
    requires Proper(cfg) && i < |cfg.clockOf| == |s.cpus|
  {
    var n := EdgeIndex(After(cfg.memory, s.cpus[i].icount));
    i in Due(s.sched.queue) && n < U64_LIMIT
    && Due(s.sched.queue)[i] == EdgeTime(ClockOf(cfg, i), cfg.noise, n)
  }

  ghost predicate NotBefore(now: nat, due: map<EventId, nat>) {
    forall x :: x in due ==> now <= due[x]
  }

  lemma {:induction false} RestingOnEdge(cfg: Config, s: Sim, w: Pending, views: seq<View>, i: nat)
    requires Invariant(cfg, s, w, views) && Timed(cfg, s.sched.now, views)
    requires i < |cfg.clockOf| && Resting(s.cpus[i])
    ensures OnEdge(cfg, s, i)
  {
    hide After, EdgeTime;
    assert Follows(cfg, i, views[i]) && OnTime(cfg, i, views[i]);
    assert views[i] == ViewOf(s, w, Due(s.sched.queue), i);
  }

  lemma {:induction false} NothingIsOverdue(cfg: Config, s: Sim, w: Pending, views: seq<View>)
    requires Invariant(cfg, s, w, views) && Timed(cfg, s.sched.now, views)
    ensures NotBefore(s.sched.now, Due(s.sched.queue))
  {
    hide OnTime, Booked, Follows;
    forall x | x in Due(s.sched.queue)
      ensures s.sched.now <= Due(s.sched.queue)[x]
    {
      var i := Owner(|w|, s.pool.slots, x);
      assert Where(w, i) == x;
      assert views[i] == ViewOf(s, w, Due(s.sched.queue), i);
    }
  }

  /** The timing theorem. After u unary and v nonunary instructions, in whatever order, a CPU waits for
      exactly edge 1 + 2u + 4v of its clock, despite the jitter and the one-tick memory reads; executed
      ticks never decrease, and nothing queued is overdue. */
  lemma {:induction false} RunsAreOnTime(cfg: Config, stop: Sim -> bool, max: nat, ks: seq<nat>)
    requires Proper(cfg) && Spaced(cfg) && Within(cfg, max)
    requires StopsBy(stop, max) && Legal(cfg, Boot(cfg), stop, ks)
    ensures Run(cfg, Boot(cfg), stop, ks).Some?
    ensures var s := Run(cfg, Boot(cfg), stop, ks).value;
      s == Boot(cfg)
      || (Faithful(cfg, s) && NotBefore(s.sched.now, Due(s.sched.queue))
          && forall i :: 0 <= i < |s.cpus| && Resting(s.cpus[i]) ==> OnEdge(cfg, s, i))
  {
    hide Invariant, Turn, Faithful, Boot, Timed, Spaced, Within, OnEdge, NotBefore;
    var s := Boot(cfg);
    if ks != [] && !stop(s) {
      var t := FirstTurnInvariant(cfg);
      BootTimed(cfg, max);
      LeastIsThere(s.sched.queue, ks[0]);
      var r, w, views := RunKeepsTimed(cfg, t, NoRequests(|cfg.clockOf|), BootViews(cfg), stop, max, ks[1..]);
      InvariantIsFaithful(cfg, r, w, views);
      NothingIsOverdue(cfg, r, w, views);
      InvariantQueue(cfg, r, w, views);
      forall i | 0 <= i < |r.cpus| && Resting(r.cpus[i])
        ensures OnEdge(cfg, r, i)
      {
        RestingOnEdge(cfg, r, w, views, i);
      }
    }
  }
}
