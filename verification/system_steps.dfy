/** Every turn of the loop moves one CPU by its next step, and keeps the parts of the system fitting
    together. */
module SystemSteps {
  import opened Arithmetic
  import opened Slots
  import opened Schedules
  import opened Queues
  import opened Events
  import opened Pools
  import opened Clocks
  import opened Machine
  import opened Options
  import opened Systems
  import opened SystemStructure
  import opened SystemTurns
  import opened SystemViews

  /** The invariant between turns. */
  ghost predicate Between(cfg: Config, s: Sim, w: Pending, views: seq<View>) {
    NoDup(s.sched.queue) && Good(cfg, s, w, Due(s.sched.queue), {}, views)
  }

  /** The invariant while the popped event `e` is being handled. */
  ghost predicate Handling(cfg: Config, p: Sim, w: Pending, e: EventId, views: seq<View>) {
    Popped(p.sched, e) && Good(cfg, p, w, DueWith(p.sched, e), {e}, views)
  }

  /** The counters after a turn that moved a CPU to view `v'` from view `v`. */
  ghost predicate Counted(p: Sim, t: Sim, v: View, v': View) {
    && t.sched.executed == p.sched.executed
    && t.pool.allocations == p.pool.allocations + (if v'.request.Some? then 1 else 0)
    && t.pool.frees == p.pool.frees + (if v.request.Some? then 1 else 0)
    && (Balanced(p.pool) ==> Balanced(t.pool))
  }

  /* A CPU starts a read. */

  lemma {:induction false} ReadingGood(cfg: Config, p: Sim, w: Pending, due: map<EventId, nat>, views: seq<View>,
                    i: nat, m: EventId, c: Cpu, len: nat)
    requires |w| <= 32 && i < |w| && w[i].None? && Good(cfg, p, w, due, {i}, views)
    requires |w| <= m && m !in due && !Resting(c)
    ensures Good(cfg, Reading(p, i, m, Request(i, c.pc, len), c), w[i := Some(m)],
                 DueAfter(due, i, m, Cut(p.sched.now + 1)), {},
                 views[i := View(c, Some(Request(i, c.pc, len)), Cut(p.sched.now + 1))])
  {
    CutFits(p.sched.now + 1);
    ReadingPlaced(cfg, p, w, due, i, m, Request(i, c.pc, len), c, Cut(p.sched.now + 1));
    MovedKeepsGood(cfg, p, Reading(p, i, m, Request(i, c.pc, len), c), w, w[i := Some(m)], due,
                   i, i, m, Cut(p.sched.now + 1), views);
  }

  lemma {:induction false} BetweenFrom(cfg: Config, t: Sim, w: Pending, due: map<EventId, nat>, views: seq<View>)
    requires NoDup(t.sched.queue) && Due(t.sched.queue) == due && Good(cfg, t, w, due, {}, views)
    ensures Between(cfg, t, w, views)
  {
  }

  lemma {:induction false} ReadingBetween(cfg: Config, p: Sim, w: Pending, views: seq<View>, i: nat, m: EventId,
        c: Cpu, len: nat)
    requires |w| <= 32 && i < |w| && w[i].None? && Handling(cfg, p, w, i, views)
    requires |w| <= m && m !in Due(p.sched.queue) && !Resting(c) && |w| == |p.cpus| == |views|
    ensures Between(cfg, Reading(p, i, m, Request(i, c.pc, len), c), w[i := Some(m)],
                    views[i := View(c, Some(Request(i, c.pc, len)), Cut(p.sched.now + 1))])
  {
    hide Good, Between, Cut;
    ReadingGood(cfg, p, w, DueWith(p.sched, i), views, i, m, c, len);
    Queueing(p.sched, i, m, p.sched.now + 1);
    BetweenFrom(cfg, Reading(p, i, m, Request(i, c.pc, len), c), w[i := Some(m)],
                DueAfter(DueWith(p.sched, i), i, m, Cut(p.sched.now + 1)),
                views[i := View(c, Some(Request(i, c.pc, len)), Cut(p.sched.now + 1))]);
  }

  lemma {:induction false} SlotForRead(cfg: Config, p: Sim, w: Pending, views: seq<View>, i: nat)
    requires |w| <= 32 && i < |w| && w[i].None? && Handling(cfg, p, w, i, views)
    ensures Popped(p.sched, i) && !Full(p.pool)
    ensures i < |p.cpus| <= 32 && |views| == |w| == |p.cpus| && p.pool.slots[i].recurs
    ensures var m := FirstFree(p.pool.used);
      && |w| <= m && m !in Due(p.sched.queue) && m !in p.sched.scheduled
      && p.sched.dents[i] == p.sched.dents[m] == {} && p.sched.deps[i] == {}
  {
    NextSlot(cfg, p, w, DueWith(p.sched, i), i);
  }

  lemma {:induction false} StartRead(cfg: Config, p: Sim, w: Pending, views: seq<View>, i: nat, c: Cpu, len: nat,
        next: Coro)
    returns (t: Sim, w': Pending)
    requires |w| <= 32 && i < |w| && w[i].None? && Handling(cfg, p, w, i, views)
    requires next.AtOpcode? || next.AtOperand?
    requires views[i].request.None?
    ensures Read(p, i, c, i, len, next).Some? && t == Settle(Read(p, i, c, i, len, next).value, i)
    ensures Between(cfg, t, w', views[i := Ask(i, c, len, next, p.sched.now)])
    ensures Counted(p, t, views[i], Ask(i, c, len, next, p.sched.now)) && t.sched.now == p.sched.now
  {
    hide Handling, Between, Settle, Read;
    SlotForRead(cfg, p, w, views, i);
    var m, c' := FirstFree(p.pool.used), c.(coro := next, result := Zeros(len));
    ReadTurn(p, i, m, c, len, next);
    t := Reading(p, i, m, Request(i, c.pc, len), c');
    ReadingBetween(cfg, p, w, views, i, m, c', len);
    w' := w[i := Some(m)];
  }

  /* Memory answers. */

  lemma {:induction false} AnsweredGood(cfg: Config, p: Sim, w: Pending, due: map<EventId, nat>, views: seq<View>,
                     i: nat, m: EventId, c: Cpu)
    requires i < |w| <= 32 && w[i] == Some(m) && Good(cfg, p, w, due, {m}, views) && m in due
    requires !Resting(p.cpus[i]) && !Resting(c) && p.sched.now < TICK_LIMIT
    ensures Good(cfg, Answered(p, m, i, c), w[i := None], DueAfter(due, m, i, p.sched.now), {},
                 views[i := View(c, None, p.sched.now)])
  {
    AnsweredPlaced(cfg, p, w, due, i, m, c, p.sched.now);
    MovedKeepsGood(cfg, p, Answered(p, m, i, c), w, w[i := None], due, i, m, i, p.sched.now, views);
  }

  lemma {:induction false} AnsweredBetween(cfg: Config, p: Sim, w: Pending, views: seq<View>, i: nat, m: EventId,
        c: Cpu)
    requires i < |w| <= 32 && w[i] == Some(m) && Handling(cfg, p, w, m, views)
    requires !Resting(p.cpus[i]) && !Resting(c)
    ensures Between(cfg, Answered(p, m, i, c), w[i := None], views[i := View(c, None, p.sched.now)])
  {
    hide Good, Between;
    NowIsShort(cfg, p, w, m, views);
    AnsweredGood(cfg, p, w, DueWith(p.sched, m), views, i, m, c);
    RequestFacts(cfg, p, w, views, i, m);
    Queueing(p.sched, m, i, p.sched.now);
    BetweenFrom(cfg, Answered(p, m, i, c), w[i := None], DueAfter(DueWith(p.sched, m), m, i, p.sched.now),
                views[i := View(c, None, p.sched.now)]);
  }

  lemma {:induction false} NowIsShort(cfg: Config, p: Sim, w: Pending, e: EventId, views: seq<View>)
    requires Handling(cfg, p, w, e, views)
    ensures p.sched.now < TICK_LIMIT
  {
    assert e in DueWith(p.sched, e);
  }

  lemma {:induction false} RequestFacts(cfg: Config, p: Sim, w: Pending, views: seq<View>, i: nat, m: EventId)
    requires i < |w| <= 32 && w[i] == Some(m) && Handling(cfg, p, w, m, views)
    ensures i < |p.cpus| == |w| == |views| && i !in Due(p.sched.queue)
    ensures m !in p.sched.scheduled && |w| <= m && m in p.pool.used
    ensures p.sched.dents[m] == {i} && p.sched.deps[i] == p.sched.deps[m] == {}
    ensures views[i] == View(p.cpus[i], Some(p.pool.slots[m]), p.sched.now)
  {
    WaiterIsNotQueued(|w|, w, DueWith(p.sched, m), p.pool.slots, i);
    assert Where(w, i) == m;
  }

  lemma {:induction false} FinishRead(cfg: Config, p: Sim, w: Pending, views: seq<View>, i: nat, m: EventId, c: Cpu)
    returns (t: Sim, w': Pending)
    requires i < |w| <= 32 && w[i] == Some(m) && Handling(cfg, p, w, m, views)
    requires |p.cpus| == |w| == |views| && !Resting(p.cpus[i]) && !Resting(c) && !p.pool.slots[m].recurs
    ensures t == Settle(p.(cpus := p.cpus[i := c]), m)
    ensures Between(cfg, t, w', views[i := View(c, None, p.sched.now)])
    ensures Counted(p, t, views[i], View(c, None, p.sched.now)) && t.sched.now == p.sched.now
  {
    hide Handling, Between, Settle;
    RequestFacts(cfg, p, w, views, i, m);
    AnswerTurn(p, m, i, c);
    t := Answered(p, m, i, c);
    AnsweredBetween(cfg, p, w, views, i, m, c);
    w' := w[i := None];
  }

  /* A CPU asks for its next clock. */

  lemma {:induction false} RestedGood(cfg: Config, p: Sim, w: Pending, due: map<EventId, nat>, views: seq<View>,
                   i: nat, c: Cpu, tick: nat)
    requires i < |w| <= 32 && w[i].None? && Good(cfg, p, w, due, {i}, views) && i in due
    requires Resting(c)
    ensures Good(cfg, Rested(p, i, c, tick), w, DueAfter(due, i, i, Cut(tick)), {},
                 views[i := View(c, None, Cut(tick))])
  {
    CutFits(tick);
    RestedPlaced(cfg, p, w, due, i, c, tick);
    assert w[i := None] == w;
    MovedKeepsGood(cfg, p, Rested(p, i, c, tick), w, w, due, i, i, i, Cut(tick), views);
  }

  lemma {:induction false} RestedBetween(cfg: Config, p: Sim, w: Pending, views: seq<View>, i: nat, c: Cpu, tick: nat)
    requires i < |w| <= 32 && w[i].None? && Handling(cfg, p, w, i, views) && i < |p.cpus| && i < |views|
    requires Resting(c)
    ensures Between(cfg, Rested(p, i, c, tick), w, views[i := View(c, None, Cut(tick))])
  {
    hide Good, Between;
    RestedGood(cfg, p, w, DueWith(p.sched, i), views, i, c, tick);
    Queueing(p.sched, i, i, tick);
    BetweenFrom(cfg, Rested(p, i, c, tick), w, DueAfter(DueWith(p.sched, i), i, i, Cut(tick)),
                views[i := View(c, None, Cut(tick))]);
  }

  lemma {:induction false} ClockFacts(cfg: Config, p: Sim, w: Pending, views: seq<View>, i: nat)
    requires i < |w| <= 32 && w[i].None? && Handling(cfg, p, w, i, views)
    ensures Proper(cfg) && i < |cfg.clockOf| == |p.cpus| == |views| == |w| && i !in p.sched.scheduled
    ensures cfg.clockOf[i] < |p.stored| && p.stored[cfg.clockOf[i]] == ClockOf(cfg, i)
    ensures views[i] == View(p.cpus[i], None, p.sched.now) && p.pool.slots[i] == Receipt(cfg, i)
  {
    assert Where(w, i) == i;
  }

  /** The 64-bit delay leads to the tick meant, in 48 bits. */
  lemma {:induction false} DelayTo(now: nat, tick: u64, id: EventId)
    requires now < TICK_LIMIT
    ensures Wrap(now) == now && Stamp(now + Wrap(tick - now), id) == Stamp(tick, id)
  {
    WrapSmall(now);
    if tick >= now {
      WrapSmall(tick - now);
    } else {
      WrapSmall(tick - now + U64_LIMIT);
      assert Wrap(tick - now) == tick - now + U64_LIMIT;
      CutIsRemainder(tick);
      CutIsRemainder(tick + U64_LIMIT);
    }
  }

  lemma {:induction false} FinishInstruction(cfg: Config, p: Sim, w: Pending, views: seq<View>, i: nat, c: Cpu,
        cycles: nat)
    returns (t: Sim)
    requires i < |w| <= 32 && w[i].None? && Handling(cfg, p, w, i, views)
    requires Proper(cfg) && i < |cfg.clockOf| && i < |p.cpus| && cfg.clockOf[i] < |p.stored|
    requires p.stored[cfg.clockOf[i]] == ClockOf(cfg, i) && cycles < 256 && |views| == |w|
    ensures EndInstruction(cfg, p, i, c, cycles) == Some(t) && Settle(t, i) == t
    ensures var v := Rest(ClockOf(cfg, i), cfg.noise, c, cycles, p.sched.now);
      Between(cfg, t, w, views[i := v]) && Counted(p, t, views[i], v) && t.sched.now == p.sched.now
  {
    hide Handling, Between, NextClockTick;
    var tick := NextClockTick(ClockOf(cfg, i), cfg.noise, Wrap(p.sched.now), cycles);
    var c' := c.(icount := c.icount + 1, current := None, coro := AtClock);
    ClockFacts(cfg, p, w, views, i);
    NowIsShort(cfg, p, w, i, views);
    DelayTo(p.sched.now, tick, i);
    RestedBetween(cfg, p, w, views, i, c', tick);
    t := Rested(p, i, c', tick);
  }

  /* The three kinds of turn, as the dispatcher sees them. */

  /** What a CPU's view must be like for the event loop to follow its next step. */
  predicate Sane(i: nat, v: View)
    requires i < 32
  {
    && OwnEvent(i, v.cpu.coro)
    && (v.request.Some? ==>
          && v.request.value.etype == MemoryAccess && v.request.value.source == CpuId(i)
          && !v.request.value.recurs && v.request.value.buffer == i && !Resting(v.cpu))
  }

  lemma {:induction false} CpuTurn(cfg: Config, p: Sim, w: Pending, views: seq<View>, i: nat)
    returns (t: Sim, w': Pending)
    requires i < |w| <= 32 && w[i].None? && Handling(cfg, p, w, i, views)
    requires Proper(cfg) && i < |cfg.clockOf| == |p.cpus| == |views| == |w| && cfg.clockOf[i] < |p.stored|
    requires p.stored[cfg.clockOf[i]] == ClockOf(cfg, i) && views[i] == View(p.cpus[i], None, p.sched.now)
    requires Sane(i, views[i])
    ensures CpuEvent(cfg, p, i, i).Some? && t == Settle(CpuEvent(cfg, p, i, i).value, i)
    ensures Between(cfg, t, w', views[i := Next(cfg, i, views[i])])
    ensures Counted(p, t, views[i], Next(cfg, i, views[i])) && t.sched.now == p.sched.now
  {
    hide Handling, Between, NextClockTick, Settle, Read, RequestClock;
    var c := p.cpus[i].(current := Some(i));
    match c.coro
    case NotStarted =>
      t, w' := StartRead(cfg, p, w, views, i, c.(current := None), 1, AtOpcode(i));
    case AtClock =>
      t, w' := StartRead(cfg, p, w, views, i, c.(current := None), 1, AtOpcode(i));
    case AtOpcode(_) =>
      var mn := Value(c.result);
      var c' := c.(pc := Advance(c.pc, 1));
      if mn < 0x80 {
        t := FinishInstruction(cfg, p, w, views, i, c'.(wcount := c.wcount + mn), 2);
        w' := w;
      } else {
        t, w' := StartRead(cfg, p, w, views, i, c', 2, AtOperand(i, mn));
      }
    case AtOperand(_, mn) =>
      var wcount := c.wcount + cfg.memory.shift(Value(c.result), mn);
      t := FinishInstruction(cfg, p, w, views, i, c.(pc := Advance(c.pc, 2), wcount := wcount), 4);
      w' := w;
  }

  lemma {:induction false} DispatchReceipt(cfg: Config, p: Sim, i: nat)
    requires Shaped(cfg, p) && i < |cfg.clockOf| && p.pool.slots[i] == Receipt(cfg, i)
    requires p.stored[cfg.clockOf[i]] == ClockOf(cfg, i)
    ensures Dispatch(cfg, p, i) == CpuEvent(cfg, p, i, i)
  {
    hide Route, CpuEvent, DramEvent, UpdateClocks;
    Routes(|cfg.clockOf|, i);
  }

  lemma {:induction false} DispatchRequest(cfg: Config, p: Sim, i: nat, m: EventId)
    requires Shaped(cfg, p) && i < |cfg.clockOf|
    requires var e := p.pool.slots[m]; e.etype == MemoryAccess && e.source == CpuId(i) && e.buffer == i
    ensures Dispatch(cfg, p, m) == Some(DramEvent(cfg, p, p.pool.slots[m]))
  {
    hide Route, CpuEvent, DramEvent, UpdateClocks;
    Routes(|cfg.clockOf|, i);
  }

  lemma {:induction false} ReceiptHandled(cfg: Config, p: Sim, w: Pending, views: seq<View>, i: nat)
    returns (t: Sim, w': Pending)
    requires i < |w| <= 32 && w[i].None? && Handling(cfg, p, w, i, views) && i < |views|
    requires Shaped(cfg, p) && i < |cfg.clockOf|
    requires Sane(i, views[i])
    ensures Handle(cfg, p, i) == Some(t)
    ensures Between(cfg, t, w', views[i := Next(cfg, i, views[i])])
    ensures Counted(p, t, views[i], Next(cfg, i, views[i])) && t.sched.now == p.sched.now
  {
    hide Handling, Between, Settle, CpuEvent, Dispatch, Next;
    ClockFacts(cfg, p, w, views, i);
    DispatchReceipt(cfg, p, i);
    t, w' := CpuTurn(cfg, p, w, views, i);
  }

  lemma {:induction false} RequestHandled(cfg: Config, p: Sim, w: Pending, views: seq<View>, i: nat, m: EventId)
    returns (t: Sim, w': Pending)
    requires i < |w| <= 32 && w[i] == Some(m) && Handling(cfg, p, w, m, views) && i < |views|
    requires Shaped(cfg, p) && i < |cfg.clockOf|
    requires Sane(i, views[i])
    ensures Handle(cfg, p, m) == Some(t)
    ensures Between(cfg, t, w', views[i := Next(cfg, i, views[i])])
    ensures Counted(p, t, views[i], Next(cfg, i, views[i])) && t.sched.now == p.sched.now
  {
    hide Handling, Between, Settle, Dispatch;
    RequestFacts(cfg, p, w, views, i, m);
    DispatchRequest(cfg, p, i, m);
    t, w' := FinishRead(cfg, p, w, views, i, m, DramEvent(cfg, p, p.pool.slots[m]).cpus[i]);
  }

  /* A whole turn. */

  /** The popped event belongs to a CPU. */
  lemma {:induction false} WhoseTurn(cfg: Config, s: Sim, w: Pending, views: seq<View>, k: nat) returns (i: nat)
    requires Between(cfg, s, w, views) && k < |s.sched.queue|
    ensures i < |w| <= 32 && i < |views| && Where(w, i) == s.sched.queue[k].id
    ensures views[i].at == s.sched.queue[k].tick
    ensures Shaped(cfg, s) && |w| == |cfg.clockOf|
  {
    Queued(s.sched.queue, k);
    i := Owner(|w|, s.pool.slots, s.sched.queue[k].id);
    assert Where(w, i) == s.sched.queue[k].id;
  }

  lemma {:induction false} PopHandling(cfg: Config, s: Sim, w: Pending, views: seq<View>, k: nat)
    requires Between(cfg, s, w, views) && k < |s.sched.queue|
    ensures Handling(cfg, s.(sched := PopAt(s.sched, k)), w, s.sched.queue[k].id, views)
  {
    var p, e := PopAt(s.sched, k), s.sched.queue[k].id;
    PopEffect(s.sched, k);
    PoppedGood(cfg, s, w, Due(s.sched.queue), p, e, views);
  }

  lemma {:induction false} PoppedGood(cfg: Config, s: Sim, w: Pending, due: map<EventId, nat>, p: Schedule, e: EventId,
                   views: seq<View>)
    requires Good(cfg, s, w, due, {}, views)
    requires p.scheduled == s.sched.scheduled - {e} && p.deps == s.sched.deps && p.dents == s.sched.dents
    ensures Good(cfg, s.(sched := p), w, due, {e}, views)
  {
    PopKeepsPlaced(cfg, s, w, due, p, e);
  }

  /** One turn of the loop raises no exception, and moves one CPU by its next step. */
  lemma {:induction false} TurnMovesOne(cfg: Config, s: Sim, w: Pending, views: seq<View>, k: nat, i: nat)
    returns (t: Sim, w': Pending)
    requires Between(cfg, s, w, views) && k < |s.sched.queue| && Shaped(cfg, s)
    requires i < |w| <= 32 && i < |views| && i < |cfg.clockOf| && Where(w, i) == s.sched.queue[k].id
    requires Sane(i, views[i])
    ensures Turn(cfg, s, k) == Some(t)
    ensures Between(cfg, t, w', views[i := Next(cfg, i, views[i])])
    ensures t.sched.now == s.sched.queue[k].tick
    ensures var v, v' := views[i], Next(cfg, i, views[i]);
      && t.sched.executed == s.sched.executed + 1
      && (Balanced(s.pool) ==> Balanced(t.pool))
      && t.pool.allocations == s.pool.allocations + (if v'.request.Some? then 1 else 0)
      && t.pool.frees == s.pool.frees + (if v.request.Some? then 1 else 0)
  {
    hide Handling, Between, Next, Handle, Sane;
    var p := s.(sched := PopAt(s.sched, k));
    PopHandling(cfg, s, w, views, k);
    if w[i].Some? {
      t, w' := RequestHandled(cfg, p, w, views, i, w[i].value);
    } else {
      t, w' := ReceiptHandled(cfg, p, w, views, i);
    }
  }
}
