/** The running system is a client of the event loop: every turn of it, as far as the scheduler is
    concerned, is a turn of Protocol that keeps to the client protocol. So what Protocol proves of all such
    clients holds of the system. */
module SystemProtocol {
  import opened Arithmetic
  import opened Slots
  import opened Schedules
  import opened Queues
  import opened Events
  import opened Pools
  import opened Clocks
  import opened Machine
  import opened Options
  import opened Systems
  import opened SystemStructure
  import opened SystemViews
  import opened SystemSteps
  import opened SystemProgress
  import opened SystemBoot
  import opened SystemRuns
  import opened SystemTiming
  import D = Dispatchers
  import F = FastPath
  import P = Protocol

  /** `turn` keeps to the protocol, and takes the scheduler from `s` to `t`. */
  ghost predicate ByProtocol(s: Schedule, turn: P.Turn, t: Schedule) {
    s.queue != [] && P.Follows(s, turn) && t == P.TakeTurn(s, turn)
  }

  lemma {:induction false} SameSettle(s: Sim, e: EventId)
    ensures Settle(s, e).sched == P.Settle(s.sched, e)
  {
  }

  /** A turn in which the popped event `e` schedules no other. */
  lemma {:induction false} MoveAlone(s: Schedule, e: EventId, move: P.Move)
    requires s.queue != [] && e == s.queue[FirstMin(s.queue)].id && P.MayDecide(Pop(s), e, move)
    ensures ByProtocol(s, P.Turn([], move), P.Settle(P.Decide(Pop(s), e, move), e))
  {
    hide Pop, P.Decide, P.Settle, P.MayDecide;
    assert P.SpawnAll(Pop(s), []) == Pop(s);
  }

  /* A CPU's event. */

  lemma {:induction false} SlotIsIdle(cfg: Config, p: Sim, w: Pending, views: seq<View>, i: nat, m: EventId)
    requires |w| <= 32 && i < |w| && w[i].None? && Handling(cfg, p, w, i, views)
    requires |w| <= m && m !in Due(p.sched.queue)
    ensures NoDup(p.sched.queue) && P.Idle(p.sched, m)
  {
    var due := DueWith(p.sched, i);
    forall x: EventId
      ensures m !in p.sched.dents[x]
    {
      if x in due && |w| <= x {
        assert Owner(|w|, p.pool.slots, x) < |w|;
      }
    }
  }

  /** A read hands the event over to the memory request. */
  lemma {:induction false} ReadIsHandOver(cfg: Config, p: Sim, w: Pending, views: seq<View>, i: nat, c: Cpu,
        len: nat, next: Coro)
    returns (move: P.Move)
    requires |w| <= 32 && i < |w| && w[i].None? && Handling(cfg, p, w, i, views) && p.sched.now + 1 < TICK_LIMIT
    ensures i < |p.cpus| <= 32 && P.MayDecide(p.sched, i, move)
    ensures var r := Read(p, i, c, i, len, next);
      r.Some? && Settle(r.value, i).sched == P.Settle(P.Decide(p.sched, i, move), i)
  {
    hide Handling, P.Settle, Settle, Over;
    SlotForRead(cfg, p, w, views, i);
    var m := FirstFree(p.pool.used);
    SlotIsIdle(cfg, p, w, views, i, m);
    move := P.HandOver(m, 1);
    SameSettle(Read(p, i, c, i, len, next).value, i);
  }

  /** The end of an instruction queues the event again. */
  lemma {:induction false} RestIsAgain(cfg: Config, p: Sim, w: Pending, views: seq<View>, i: nat, c: Cpu, cycles: nat)
    returns (move: P.Move)
    requires i < |w| <= 32 && w[i].None? && Handling(cfg, p, w, i, views) && cycles < 256
    requires Proper(cfg) && i < |cfg.clockOf| && i < |p.cpus| && cfg.clockOf[i] < |p.stored|
    requires p.stored[cfg.clockOf[i]] == ClockOf(cfg, i)
    requires p.sched.now
      < NextClockTick(ClockOf(cfg, i), cfg.noise, Wrap(p.sched.now), cycles) < TICK_LIMIT
    ensures P.MayDecide(p.sched, i, move)
    ensures var r := EndInstruction(cfg, p, i, c, cycles);
      r.Some? && Settle(r.value, i).sched == P.Settle(P.Decide(p.sched, i, move), i)
  {
    hide Handling, P.Settle, Settle, NextClockTick;
    ClockFacts(cfg, p, w, views, i);
    PoppedIsOnce(cfg, p, w, i, views);
    var delay := NextClockTick(ClockOf(cfg, i), cfg.noise, Wrap(p.sched.now), cycles) - p.sched.now;
    WrapSmall(delay);
    move := P.Again(delay);
    SameSettle(EndInstruction(cfg, p, i, c, cycles).value, i);
  }

  lemma {:induction false} PoppedIsOnce(cfg: Config, p: Sim, w: Pending, e: EventId, views: seq<View>)
    requires Handling(cfg, p, w, e, views)
    ensures NoDup(p.sched.queue)
  {
  }

  /** The next clock tick is ahead, within 48 bits. */
  lemma {:induction false} ClockIsAhead(cfg: Config, i: nat, v: View, d: nat)
    requires Proper(cfg) && i < |cfg.clockOf| && Roomy(ClockOf(cfg, i)) && 2 <= d <= 4
    requires OnTime(cfg, i, v) && v.at + 6 * ClockOf(cfg, i).period < TICK_LIMIT
    ensures v.at < NextClockTick(ClockOf(cfg, i), cfg.noise, Wrap(v.at), d) < TICK_LIMIT
  {
    hide EdgeTime, NextClockTick, After;
    ClockAhead(ClockOf(cfg, i), cfg.noise, EdgeIndex(After(cfg.memory, v.cpu.icount)), Lag(v.cpu.coro), d);
    WrapSmall(v.at);
  }

  lemma {:induction false} CpuMoves(cfg: Config, p: Sim, w: Pending, views: seq<View>, i: nat) returns (move: P.Move)
    requires i < |w| <= 32 && w[i].None? && Handling(cfg, p, w, i, views)
    requires Proper(cfg) && i < |cfg.clockOf| == |p.cpus| == |views| == |w| && cfg.clockOf[i] < |p.stored|
    requires p.stored[cfg.clockOf[i]] == ClockOf(cfg, i) && views[i] == View(p.cpus[i], None, p.sched.now)
    requires Sane(i, views[i]) && OnTime(cfg, i, views[i]) && Roomy(ClockOf(cfg, i))
    requires p.sched.now + 6 * ClockOf(cfg, i).period < TICK_LIMIT
    ensures P.MayDecide(p.sched, i, move)
    ensures var r := CpuEvent(cfg, p, i, i);
      r.Some? && Settle(r.value, i).sched == P.Settle(P.Decide(p.sched, i, move), i)
  {
    hide Handling, NextClockTick, Settle, P.Settle, P.Decide, P.MayDecide, Read, EndInstruction, OnTime;
    var c := p.cpus[i].(current := Some(i));
    ClockIsAhead(cfg, i, views[i], 2);
    ClockIsAhead(cfg, i, views[i], 4);
    match c.coro
    case NotStarted =>
      move := ReadIsHandOver(cfg, p, w, views, i, c.(current := None), 1, AtOpcode(i));
    case AtClock =>
      move := ReadIsHandOver(cfg, p, w, views, i, c.(current := None), 1, AtOpcode(i));
    case AtOpcode(_) =>
      var mn := Value(c.result);
      var c' := c.(pc := Advance(c.pc, 1));
      if mn < 0x80 {
        move := RestIsAgain(cfg, p, w, views, i, c'.(wcount := c.wcount + mn), 2);
      } else {
        move := ReadIsHandOver(cfg, p, w, views, i, c', 2, AtOperand(i, mn));
      }
    case AtOperand(_, mn) =>
      var wcount := c.wcount + cfg.memory.shift(Value(c.result), mn);
      move := RestIsAgain(cfg, p, w, views, i, c.(pc := Advance(c.pc, 2), wcount := wcount), 4);
  }

  lemma {:induction false} ReceiptMoves(cfg: Config, p: Sim, w: Pending, views: seq<View>, i: nat)
    returns (move: P.Move)
    requires i < |w| <= 32 && w[i].None? && Handling(cfg, p, w, i, views) && i < |views|
    requires Shaped(cfg, p) && i < |cfg.clockOf|
    requires Sane(i, views[i]) && OnTime(cfg, i, views[i]) && Roomy(ClockOf(cfg, i))
    requires views[i].at + 6 * ClockOf(cfg, i).period < TICK_LIMIT
    ensures P.MayDecide(p.sched, i, move)
    ensures var r := Handle(cfg, p, i);
      r.Some? && r.value.sched == P.Settle(P.Decide(p.sched, i, move), i)
  {
    hide Handling, Settle, CpuEvent, Dispatch, P.Settle, P.Decide, P.MayDecide, OnTime, Sane, Roomy;
    ClockFacts(cfg, p, w, views, i);
    DispatchReceipt(cfg, p, i);
    move := CpuMoves(cfg, p, w, views, i);
  }

  /** An answered request is finished. */
  lemma {:induction false} RequestMoves(cfg: Config, p: Sim, w: Pending, views: seq<View>, i: nat, m: EventId)
    requires i < |w| <= 32 && w[i] == Some(m) && Handling(cfg, p, w, m, views) && i < |views|
    requires Shaped(cfg, p) && i < |cfg.clockOf| && Sane(i, views[i])
    ensures P.MayDecide(p.sched, m, P.Finish)
    ensures var r := Handle(cfg, p, m);
      r.Some? && r.value.sched == P.Settle(P.Decide(p.sched, m, P.Finish), m)
  {
    hide Handling, Settle, Dispatch, P.Settle;
    RequestFacts(cfg, p, w, views, i, m);
    PoppedIsOnce(cfg, p, w, m, views);
    DispatchRequest(cfg, p, i, m);
    SameSettle(DramEvent(cfg, p, p.pool.slots[m]), m);
  }

  /** Every turn of the timed system that pops the event min_element finds keeps to the protocol. */
  lemma {:induction false} TurnFollows(cfg: Config, s: Sim, w: Pending, views: seq<View>, max: nat)
    returns (turn: P.Turn)
    requires Invariant(cfg, s, w, views) && Spaced(cfg) && Timed(cfg, s.sched.now, views)
    requires s.sched.queue != [] && s.sched.now < max && Within(cfg, max)
    ensures Shaped(cfg, s)
    ensures var t := Turn(cfg, s, FirstMin(s.sched.queue));
      t.Some? && ByProtocol(s.sched, turn, t.value.sched)
  {
    hide Between, Handling, Follows, OnTime, Handle, Within, Spaced, Timed, AllFollow, Sane, Roomy;
    hide P.Settle, P.Decide, P.MayDecide, P.Follows, ByProtocol;
    var k := FirstMin(s.sched.queue);
    var p, e := s.(sched := Pop(s.sched)), s.sched.queue[k].id;
    var i := WhoseTurn(cfg, s, w, views, k);
    FollowsAt(cfg, views, i);
    NextFollows(cfg, i, views[i]);
    TimedAt(cfg, views, s.sched.now, max, i);
    PopHandling(cfg, s, w, views, k);
    var move;
    if w[i].Some? {
      RequestMoves(cfg, p, w, views, i, w[i].value);
      move := P.Finish;
    } else {
      move := ReceiptMoves(cfg, p, w, views, i);
    }
    MoveAlone(s.sched, e, move);
    turn := P.Turn([], move);
  }

  /* The governor's event. */

  lemma {:induction false} StartIsIdle(cfg: Config, p: Sim, s: Sim, i: nat)
    requires Proper(cfg) && i < |cfg.clockOf| && AtBoot(cfg, p) && Started(cfg, p, s, i)
    ensures NoDup(s.sched.queue) && P.Idle(s.sched, i) && i !in s.sched.scheduled && s.sched.now == 0
  {
    hide FirstTickOf;
    assert forall x: EventId :: s.sched.dents[x] == {};
  }

  lemma {:induction false} SpawnOneMore(s: Schedule, running: set<EventId>, i: EventId, tick: nat,
        rest: seq<(EventId, nat)>)
    requires i !in running && i !in s.scheduled && NoDup(s.queue) && P.Idle(s, i) && s.now + tick < TICK_LIMIT
    requires P.MaySpawn(Add(s, i, tick), running, rest)
    ensures P.MaySpawn(s, running, [(i, tick)] + rest)
    ensures P.SpawnAll(s, [(i, tick)] + rest) == P.SpawnAll(Add(s, i, tick), rest)
  {
    hide Add, P.Idle;
    var spawned := [(i, tick)] + rest;
    assert spawned[1..] == rest;
  }

  /** Starting the clocks schedules the idle clock events. */
  lemma {:induction false} ClocksSpawn(cfg: Config, p: Sim, s: Sim, i: nat) returns (spawned: seq<(EventId, nat)>)
    requires Proper(cfg) && i <= |cfg.clockOf| && AtBoot(cfg, p) && Started(cfg, p, s, i)
    requires forall k :: 0 <= k < |cfg.clocks| ==> Roomy(cfg.clocks[k]) && 6 * cfg.clocks[k].period < TICK_LIMIT
    ensures P.MaySpawn(s.sched, {|cfg.clockOf|}, spawned)
    ensures var r := UpdateClocks(cfg, s, i);
      r.Some? && r.value.sched == P.SpawnAll(s.sched, spawned)
    decreases |cfg.clockOf| - i
  {
    hide NextClockTick, FirstTickOf, Add, AtBoot, Started, P.Idle, EdgeTime;
    if i == |cfg.clockOf| {
      spawned := [];
    } else {
      StartIsIdle(cfg, p, s, i);
      StartedStored(cfg, p, s, i);
      var tick := FirstClock(cfg, s, i);
      var s' := s.(sched := Add(s.sched, i, tick), stored := s.stored[cfg.clockOf[i] := ClockOf(cfg, i)]);
      StartClock(cfg, p, s, s', i, tick);
      var rest := ClocksSpawn(cfg, p, s', i + 1);
      FirstTick(ClockOf(cfg, i), cfg.noise);
      SpawnOneMore(s.sched, {|cfg.clockOf|}, i, tick, rest);
      spawned := [(i as EventId, tick)] + rest;
    }
  }

  lemma {:induction false} StartedStored(cfg: Config, p: Sim, s: Sim, i: nat)
    requires Proper(cfg) && i <= |cfg.clockOf| && Started(cfg, p, s, i)
    ensures |s.stored| == |cfg.clocks|
  {
    hide FirstTickOf;
  }

  lemma {:induction false} NothingStarted(cfg: Config, p: Sim)
    requires Proper(cfg) && AtBoot(cfg, p)
    ensures Started(cfg, p, p, 0)
  {
  }

  lemma {:induction false} DispatchStart(cfg: Config, p: Sim)
    requires Proper(cfg) && AtBoot(cfg, p) && Shaped(cfg, p)
    ensures Dispatch(cfg, p, |cfg.clockOf|) == UpdateClocks(cfg, p, 0)
  {
    hide Route, CpuEvent, DramEvent, UpdateClocks;
    Routes(|cfg.clockOf|, 0);
  }

  lemma {:induction false} SpawnFinishes(s: Schedule, e: EventId, spawned: seq<(EventId, nat)>)
    requires s.queue != [] && e == s.queue[FirstMin(s.queue)].id
    requires P.MaySpawn(Pop(s), {e}, spawned) && NoDup(P.SpawnAll(Pop(s), spawned).queue)
    ensures ByProtocol(s, P.Turn(spawned, P.Finish), P.Settle(P.SpawnAll(Pop(s), spawned), e))
  {
    hide Pop, P.Settle, P.MaySpawn, P.SpawnAll;
  }

  lemma {:induction false} SpawnedIsOnce(s: Schedule, e: EventId, spawned: seq<(EventId, nat)>)
    requires P.Sound(s, {e}) && P.MaySpawn(s, {e}, spawned)
    ensures NoDup(P.SpawnAll(s, spawned).queue)
  {
    P.SpawnKeepsSound(s, {e}, spawned);
  }

  lemma {:induction false} BootIsSound(cfg: Config)
    requires Proper(cfg)
    ensures P.Sound(Boot(cfg).sched, {})
  {
    hide P.Sound;
    P.InitiallySound();
    NothingWaitsInitially(|cfg.clockOf|);
    P.AddKeepsSound(Initial(), {}, |cfg.clockOf|, 0);
    assert {} - {|cfg.clockOf|} == {};
  }

  lemma {:induction false} NothingWaitsInitially(x: EventId)
    ensures NoDup(Initial().queue) && P.Idle(Initial(), x)
  {
  }

  /** So does the first turn. */
  lemma {:induction false} FirstTurnFollows(cfg: Config, max: nat) returns (turn: P.Turn)
    requires Proper(cfg) && Spaced(cfg) && Within(cfg, max)
    ensures Shaped(cfg, Boot(cfg)) && Boot(cfg).sched.queue != [] && FirstMin(Boot(cfg).sched.queue) == 0
    ensures var t := Turn(cfg, Boot(cfg), 0);
      t.Some? && ByProtocol(Boot(cfg).sched, turn, t.value.sched)
  {
    hide Boot, UpdateClocks, P.Sound, P.MaySpawn, P.SpawnAll, AtBoot, Settle, P.Settle, ByProtocol, Started, Dispatch;
    var s, n := Boot(cfg), |cfg.clockOf|;
    BootPopped(cfg);
    var p := s.(sched := Pop(s.sched));
    NothingStarted(cfg, p);
    DispatchStart(cfg, p);
    var spawned := ClocksSpawn(cfg, p, p, 0);
    BootIsSound(cfg);
    P.PopKeepsSound(s.sched);
    SpawnedIsOnce(p.sched, n, spawned);
    SpawnFinishes(s.sched, n, spawned);
    SameSettle(UpdateClocks(cfg, p, 0).value, n);
    turn := P.Turn(spawned, P.Finish);
  }

  /* Whole runs. */

  /** Every turn pops the entry that min_element finds. */
  predicate Picked(cfg: Config, s: Sim, stop: Sim -> bool, ks: seq<nat>)
    decreases |ks|
  {
    ks == [] || stop(s) || s.sched.queue == []
    || (ks[0] == FirstMin(s.sched.queue)
        && (Shaped(cfg, s) && Turn(cfg, s, ks[0]).Some?
            ==> Picked(cfg, Turn(cfg, s, ks[0]).value, stop, ks[1..])))
  }

  /** `turns` keep to the protocol, and take the scheduler from `s` to `t`. */
  ghost predicate Conforms(s: Schedule, turns: seq<P.Turn>, t: Schedule) {
    P.AllFollow(s, turns) && t == P.RunTurns(s, turns)
  }

  lemma {:induction false} ConformsOneMore(s: Schedule, turn: P.Turn, u: Schedule, turns: seq<P.Turn>, t: Schedule)
    requires ByProtocol(s, turn, u) && Conforms(u, turns, t)
    ensures Conforms(s, [turn] + turns, t)
  {
    hide P.Follows, P.TakeTurn;
    assert ([turn] + turns)[1..] == turns;
  }

  lemma {:induction false} ConformsNowhere(s: Schedule)
    ensures Conforms(s, [], s)
  {
  }

  lemma {:induction false} RunConforms(cfg: Config, s: Sim, w: Pending, views: seq<View>, stop: Sim -> bool,
                                       max: nat, ks: seq<nat>)
    returns (turns: seq<P.Turn>)
    requires Invariant(cfg, s, w, views) && Spaced(cfg) && Timed(cfg, s.sched.now, views)
    requires Within(cfg, max) && StopsBy(stop, max) && Picked(cfg, s, stop, ks)
    ensures var r := SystemRuns.Run(cfg, s, stop, ks);
      r.Some? && Conforms(s.sched, turns, r.value.sched)
    decreases |ks|
  {
    hide Invariant, Turn, IsLeast, Timed, Spaced, Within, Conforms, ByProtocol;
    if ks == [] || stop(s) || s.sched.queue == [] {
      turns := [];
      ConformsNowhere(s.sched);
    } else {
      FirstMinIsLeast(s.sched.queue);
      var turn := TurnFollows(cfg, s, w, views, max);
      var u, x, xs := TurnKeepsTimed(cfg, s, w, views, ks[0], max);
      var rest := RunConforms(cfg, u, x, xs, stop, max, ks[1..]);
      turns := [turn] + rest;
      ConformsOneMore(s.sched, turn, u.sched, rest, SystemRuns.Run(cfg, s, stop, ks).value.sched);
    }
  }

  /** Any timed run of the system from the start is, for the scheduler, a run of clients that keep to the
      protocol; so the scheduler is sound after it, and nothing waits in a cycle. */
  lemma {:induction false} RunsConform(cfg: Config, stop: Sim -> bool, max: nat, ks: seq<nat>)
    requires Proper(cfg) && Spaced(cfg) && Within(cfg, max)
    requires StopsBy(stop, max) && Picked(cfg, Boot(cfg), stop, ks)
    ensures SystemRuns.Run(cfg, Boot(cfg), stop, ks).Some?
    ensures var t := SystemRuns.Run(cfg, Boot(cfg), stop, ks).value.sched;
      P.Sound(t, {}) && exists turns :: Conforms(Boot(cfg).sched, turns, t)
  {
    hide Invariant, Turn, Boot, Timed, Spaced, Within, Conforms, ByProtocol, P.Sound;
    var s := Boot(cfg);
    var turns: seq<P.Turn> := [];
    ConformsNowhere(s.sched);
    if ks != [] && !stop(s) {
      var turn := FirstTurnFollows(cfg, max);
      var u := FirstTurnInvariant(cfg);
      BootTimed(cfg, max);
      var rest := RunConforms(cfg, u, NoRequests(|cfg.clockOf|), BootViews(cfg), stop, max, ks[1..]);
      turns := [turn] + rest;
      ConformsOneMore(s.sched, turn, u.sched, rest, SystemRuns.Run(cfg, s, stop, ks).value.sched);
    }
    BootIsSound(cfg);
    ConformingIsSound(s.sched, turns, SystemRuns.Run(cfg, s, stop, ks).value.sched);
  }

  lemma {:induction false} ConformingIsSound(s: Schedule, turns: seq<P.Turn>, t: Schedule)
    requires P.Sound(s, {}) && Conforms(s, turns, t)
    ensures P.Sound(t, {})
  {
    P.RunsAreSound(s, turns);
  }

  /* Waiting in the running system. */

  lemma {:induction false} OnlyEventRuns(cfg: Config, p: Sim, w: Pending, views: seq<View>)
    requires |w| == 1 && w[0].None? && Handling(cfg, p, w, 0, views) && p.sched.queue == [] && P.Sound(p.sched, {0})
    ensures F.Running(p, 0) && p.sched.dents[0] == {} && p.pool.slots[0].recurs
  {
    hide P.Sound;
    assert forall x: EventId :: x in DueWith(p.sched, 0) ==> x == 0;
    assert forall x: EventId :: p.sched.dents[x] == {};
  }

  /** In every state that the system with one CPU reaches, if the CPU waited while it handles its clock
      event, the loop would throw. */
  lemma {:induction false} WaitingThrows(cfg: Config, s: Sim, w: Pending, views: seq<View>, ticks: nat)
    requires Invariant(cfg, s, w, views) && P.Sound(s.sched, {}) && |cfg.clockOf| == |w| == 1 && w[0].None?
    ensures s.sched.queue != []
    ensures var p := s.(sched := Pop(s.sched));
      && Shaped(cfg, p) && F.Running(p, 0)
      && F.SlowPath(cfg, D.MapAll(Wiring(1)), p, 0, CpuId(0), ticks) == None
  {
    hide P.Sound, Handling, Between, AllFollow, Booked, F.SlowPath, F.Running;
    InvariantQueue(cfg, s, w, views);
    var i := WhoseTurn(cfg, s, w, views, FirstMin(s.sched.queue));
    var p := s.(sched := Pop(s.sched));
    assert p.sched.queue == [];
    PopHandling(cfg, s, w, views, FirstMin(s.sched.queue));
    P.PopKeepsSound(s.sched);
    OnlyEventRuns(cfg, p, w, views);
    F.WiredWaitThrows(cfg, p, 0, CpuId(0), ticks);
  }
}
