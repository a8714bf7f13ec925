/** The stages of a run, turn by turn, as the loop of the simulator goes through them. */
module SystemStages {
  import opened Options
  import opened Schedules
  import opened SystemAccounts
  import opened SystemBoot
  import opened SystemMain
  import opened SystemRuns
  import opened SystemStructure
  import opened SystemTiming
  import opened SystemViews
  import opened Systems

  /** At the start, or at any later stage of a timed run; at most `left` turns remain before ticks reach
      48 bits. */
  ghost predicate Stage(cfg: Config, s: Sim, w: Pending, views: seq<View>, left: nat) {
    && Proper(cfg)
    && ((s == Boot(cfg) && left == TotalLeft(BootViews(cfg)) + 1)
        || (Invariant(cfg, s, w, views) && Timed(cfg, s.sched.now, views) && left == TotalLeft(views)))
  }

  /** A state that a timed run can be in between turns. */
  ghost predicate Reachable(cfg: Config, s: Sim) {
    exists w, views, left :: Stage(cfg, s, w, views, left)
  }

  /** From any stage before tick `max`, the loop's turn leads to the next stage. */
  lemma {:induction false} StageTurn(cfg: Config, s: Sim, w: Pending, views: seq<View>, left: nat, max: nat)
    returns (t: Sim, w': Pending, views': seq<View>, left': nat)
    requires Stage(cfg, s, w, views, left) && Spaced(cfg) && s.sched.now < max && Within(cfg, max)
    ensures Shaped(cfg, s) && 1 <= |s.sched.queue| <= 32 && |t.sched.queue| <= 32 && |cfg.clockOf| <= 32
    ensures Turn(cfg, s, FirstMin(s.sched.queue)) == Some(t)
    ensures Stage(cfg, t, w', views', left') && left' < left
  {
    hide Invariant, Turn, Within, Spaced, Timed;
    if Invariant(cfg, s, w, views) && Timed(cfg, s.sched.now, views) && left == TotalLeft(views) {
      InvariantQueue(cfg, s, w, views);
      FirstMinIsLeast(s.sched.queue);
      t, w', views' := TurnKeepsTimed(cfg, s, w, views, FirstMin(s.sched.queue), max);
    } else {
      t := FirstTurnInvariant(cfg);
      BootTimed(cfg, max);
      w', views' := NoRequests(|cfg.clockOf|), BootViews(cfg);
    }
    InvariantQueue(cfg, t, w', views');
    left' := TotalLeft(views');
  }

  lemma {:induction false} BootStage(cfg: Config)
    requires Proper(cfg)
    ensures Reachable(cfg, Boot(cfg))
  {
    assert Stage(cfg, Boot(cfg), [], [], TotalLeft(BootViews(cfg)) + 1);
  }

  /** There is always another event. */
  lemma {:induction false} StageHasEvents(cfg: Config, s: Sim, w: Pending, views: seq<View>, left: nat)
    requires Stage(cfg, s, w, views, left)
    ensures s.sched.queue != []
  {
    hide Invariant;
    if s != Boot(cfg) {
      InvariantQueue(cfg, s, w, views);
    }
  }

  lemma {:induction false} StageIsFaithful(cfg: Config, s: Sim, w: Pending, views: seq<View>, left: nat)
    requires Stage(cfg, s, w, views, left)
    ensures s == Boot(cfg) || Faithful(cfg, s)
  {
    hide Invariant, Faithful;
    if s != Boot(cfg) {
      InvariantIsFaithful(cfg, s, w, views);
    }
  }

  /** A stage of main's run, which has one CPU: at the start, or with at most `left` turns remaining. */
  ghost predicate MainStage(cfg: Config, s: Sim, maxi: nat, w: Pending, views: seq<View>, left: nat) {
    && Proper(cfg) && |cfg.clockOf| == |s.cpus| == 1 && maxi >= 1
    && ((s == Boot(cfg) && left == 5 * maxi + 1)
        || (Invariant(cfg, s, w, views) && |views| == 1 && views[0].cpu == s.cpus[0]
            && UpTo(maxi, views[0]) && left == TurnsLeft(maxi, views[0])))
  }

  lemma {:induction false} MainStageTurn(cfg: Config, s: Sim, maxi: nat, w: Pending, views: seq<View>, left: nat)
    returns (t: Sim, w': Pending, views': seq<View>, left': nat)
    requires MainStage(cfg, s, maxi, w, views, left) && s.cpus[0].icount < maxi
    ensures Shaped(cfg, s) && |s.sched.queue| == |t.sched.queue| == 1
    ensures Turn(cfg, s, FirstMin(s.sched.queue)) == Some(t)
    ensures MainStage(cfg, t, maxi, w', views', left') && left' < left
  {
    hide Invariant, Turn, UpTo;
    if s == Boot(cfg) && left == 5 * maxi + 1 {
      t := MainStarts(cfg, maxi);
      w', views' := NoRequests(1), BootViews(cfg);
    } else {
      t, w', views' := OnlyCpuTurn(cfg, s, w, views, maxi);
    }
    left' := TurnsLeft(maxi, views'[0]);
  }

  lemma {:induction false} MainBootStage(cfg: Config, maxi: nat, w: Pending, views: seq<View>)
    requires Proper(cfg) && |cfg.clockOf| == 1 && maxi >= 1
    ensures MainStage(cfg, Boot(cfg), maxi, w, views, 5 * maxi + 1)
    ensures Boot(cfg).cpus[0].icount == 0
  {
  }

  lemma {:induction false} MainStageHasEvents(cfg: Config, s: Sim, maxi: nat, w: Pending, views: seq<View>, left: nat)
    requires MainStage(cfg, s, maxi, w, views, left)
    ensures s.sched.queue != []
  {
    hide Invariant;
    if s != Boot(cfg) {
      InvariantQueue(cfg, s, w, views);
    }
  }

  lemma {:induction false} MainStageReports(cfg: Config, s: Sim, maxi: nat, w: Pending, views: seq<View>, left: nat)
    requires MainStage(cfg, s, maxi, w, views, left) && s.cpus[0].icount >= maxi
    ensures Reported(cfg, s, maxi)
  {
    hide Invariant, UpTo, Reported;
    StoppedReports(cfg, s, w, views, maxi);
  }

  /** The loop gets from `s0` to `s` by the turns `done`, without meeting the stop condition on the way. */
  ghost predicate Leads(cfg: Config, s0: Sim, stop: Sim -> bool, done: seq<nat>, s: Sim) {
    forall tail :: Legal(cfg, s, stop, tail) ==>
      Legal(cfg, s0, stop, done + tail) && Run(cfg, s0, stop, done + tail) == Run(cfg, s, stop, tail)
  }

  lemma {:induction false} LeadsNowhere(cfg: Config, s: Sim, stop: Sim -> bool)
    ensures Leads(cfg, s, stop, [], s)
  {
    assert forall tail: seq<nat> :: [] + tail == tail;
  }

  lemma {:induction false} LeadsOn(cfg: Config, s0: Sim, stop: Sim -> bool, done: seq<nat>, s: Sim, k: nat, t: Sim)
    requires Leads(cfg, s0, stop, done, s) && !stop(s) && IsLeast(s.sched.queue, k)
    requires Shaped(cfg, s) && Turn(cfg, s, k) == Some(t)
    ensures Leads(cfg, s0, stop, done + [k], t)
  {
    hide Turn, Shaped;
    forall tail | Legal(cfg, t, stop, tail)
      ensures Legal(cfg, s0, stop, done + [k] + tail)
      ensures Run(cfg, s0, stop, done + [k] + tail) == Run(cfg, t, stop, tail)
    {
      assert ([k] + tail)[1..] == tail;
      assert done + [k] + tail == done + ([k] + tail);
      assert Legal(cfg, s, stop, [k] + tail);
    }
  }

  lemma {:induction false} LeadsHere(cfg: Config, s0: Sim, stop: Sim -> bool, done: seq<nat>, s: Sim)
    requires Leads(cfg, s0, stop, done, s)
    ensures Legal(cfg, s0, stop, done) && Run(cfg, s0, stop, done) == Some(s)
  {
    assert Legal(cfg, s, stop, []);
    assert done + [] == done;
  }
}
