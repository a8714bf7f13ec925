/** The dependency graph that the scheduler keeps twice, once by waiter and once by the event waited on. */
module Graphs {
  import opened Slots
  import opened Schedules
  import opened Queues

  /** Every call a client or the event loop can make. A call that throws changes nothing. */
  datatype Call =
    | CallSkip(ticks: nat)
    | CallSchedule(id: EventId, delay: nat)
    | CallOver(dependee: EventId, dependent: EventId, delay: nat)
    | CallPause(dependent: EventId, dependees: set<EventId>)
    | CallNext
    | CallComplete(id: EventId)

  function Apply(s: Schedule, c: Call): Schedule {
    match c
    case CallSkip(ticks) => if s.queue == [] then Skip(s, ticks) else s
    case CallSchedule(id, delay) => if id in s.scheduled then s else Add(s, id, delay)
    case CallOver(dee, dent, delay) => if dee in s.scheduled then s else Over(s, dee, dent, delay)
    case CallPause(dent, dees) => if dent in dees then s else Pause(s, dent, dees)
    case CallNext => if s.queue == [] then s else Pop(s)
    case CallComplete(id) => Complete(s, id)
  }

  function Run(s: Schedule, calls: seq<Call>): Schedule {
    if calls == [] then s
    else Apply(Run(s, calls[..|calls| - 1]), calls[|calls| - 1])
  }

  lemma {:induction false} WakeEffect(s: Schedule, done: EventId, bits: set<EventId>)
    ensures Wake(s, done, bits) == s.(deps := Wake(s, done, bits).deps, queue := Wake(s, done, bits).queue)
    ensures forall x: EventId :: Wake(s, done, bits).deps[x] == if x in bits then s.deps[x] - {done} else s.deps[x]
    decreases |bits|
  {
    if bits == {} {
    } else {
      var w := Least(bits);
      WakeEffect(WakeOne(s, done, w), done, bits - {w});
    }
  }

  lemma {:induction false} CompleteEffect(s: Schedule, done: EventId)
    ensures var t := Complete(s, done);
      && t == s.(deps := t.deps, dents := s.dents[done := {}], queue := Wake(s, done, s.dents[done]).queue)
      && t.deps[done] == {}
      && forall x: EventId :: x != done ==>
        t.deps[x] == if x in s.dents[done] then s.deps[x] - {done} else s.deps[x]
  {
    WakeEffect(s, done, s.dents[done]);
  }

  /** The two halves of the graph agree: who waits on `d` is recorded under `d`. */
  ghost predicate Consistent(s: Schedule) {
    forall x: EventId, d: EventId :: d in s.deps[x] ==> x in s.dents[d]
  }

  lemma {:induction false} ApplyKeepsConsistent(s: Schedule, c: Call)
    requires Consistent(s)
    ensures Consistent(Apply(s, c))
  {
    if c.CallComplete? {
      CompleteEffect(s, c.id);
    }
  }

  /** For any calls in any order, the graph stays consistent. */
  lemma {:induction false} AlwaysConsistent(calls: seq<Call>)
    ensures Consistent(Run(Initial(), calls))
  {
    if calls == [] {
    } else {
      AlwaysConsistent(calls[..|calls| - 1]);
      ApplyKeepsConsistent(Run(Initial(), calls[..|calls| - 1]), calls[|calls| - 1]);
    }
  }

  /** After any calls, completing an event leaves nothing that depends on it, in either half. */
  lemma {:induction false} NothingWaitsOnCompleted(calls: seq<Call>, done: EventId)
    ensures var t := Complete(Run(Initial(), calls), done);
      t.dents[done] == {} && forall x: EventId :: done !in t.deps[x]
  {
    var s := Run(Initial(), calls);
    AlwaysConsistent(calls);
    CompleteEffect(s, done);
  }

  /* The barrier: an event paused on several others. */

  ghost predicate Unqueued(s: Schedule, x: EventId) {
    forall e :: e in s.queue ==> e.id != x
  }

  /** `x` is out of the queue and waits on exactly the events of `left`. */
  ghost predicate Blocked(s: Schedule, x: EventId, left: set<EventId>) {
    && left != {}
    && s.deps[x] == left
    && (forall d: EventId :: x in s.dents[d] <==> d in left)
    && Unqueued(s, x)
  }

  /** `x` waits on nothing. */
  ghost predicate Free(s: Schedule, x: EventId) {
    s.deps[x] == {} && forall d: EventId :: x !in s.dents[d]
  }

  /** No event is added to the queue on behalf of `x`, and `x` is not completed. */
  predicate Elsewhere(c: Call, x: EventId) {
    match c
    case CallSkip(_) => true
    case CallSchedule(id, _) => id != x
    case CallOver(dee, dent, _) => dee != x && dent != x
    case CallPause(dent, _) => dent != x
    case CallNext => true
    case CallComplete(id) => id != x
  }

  lemma {:induction false} DescheduledIsGone(q: seq<Entry>, x: EventId)
    requires NoDup(q)
    ensures forall e :: e in Deschedule(q, x) ==> e.id != x
  {
    var r := Deschedule(q, x);
    Descheduled(q, x);
    forall i | 0 <= i < |r|
      ensures r[i].id != x
    {
      Queued(r, i);
    }
  }

  /** What one call adds to the graph and to the scheduled bits: the event `x` waits on the events of `ds` and
      on no other new one. */
  ghost predicate WaitsAdded(s: Schedule, t: Schedule, x: EventId, ds: set<EventId>) {
    && (forall a: EventId, d: EventId :: d in t.deps[a] <==> d in s.deps[a] || (a == x && d in ds))
    && (forall a: EventId, d: EventId :: a in t.dents[d] <==> a in s.dents[d] || (a == x && d in ds))
  }

  /** schedule_over records the dependency in both halves of the graph and moves the scheduled bit; nothing
      else changes but the queue. */
  lemma {:induction false} OverRecords(s: Schedule, d: EventId, x: EventId, delay: nat)
    requires d !in s.scheduled
    ensures var t := Apply(s, CallOver(d, x, delay));
      && WaitsAdded(s, t, x, {d})
      && (forall y: EventId :: y in t.scheduled <==> y == d || (y in s.scheduled && y != x))
      && t.now == s.now && t.executed == s.executed
  {
  }

  /** pause records every dependency in both halves and sets the scheduled bit; nothing else changes but the
      queue. */
  lemma {:induction false} PauseRecords(s: Schedule, x: EventId, ds: set<EventId>)
    requires x !in ds
    ensures var t := Apply(s, CallPause(x, ds));
      && WaitsAdded(s, t, x, ds)
      && (forall y: EventId :: y in t.scheduled <==> y == x || y in s.scheduled)
      && t.now == s.now && t.executed == s.executed
  {
  }

  /** schedule sets one bit and adds one entry; next_event takes one entry, counts it and clears its bit.
      Neither touches the graph. */
  lemma {:induction false} QueueCallsKeepGraph(s: Schedule, id: EventId, delay: nat)
    ensures id !in s.scheduled ==>
      var t := Apply(s, CallSchedule(id, delay));
      && t.deps == s.deps && t.dents == s.dents && t.now == s.now && t.executed == s.executed
      && (forall y: EventId :: y in t.scheduled <==> y == id || y in s.scheduled)
    ensures s.queue != [] ==>
      var t, e := Apply(s, CallNext), s.queue[FirstMin(s.queue)];
      && t.deps == s.deps && t.dents == s.dents && t.now == e.tick && t.executed == s.executed + 1
      && (forall y: EventId :: y in t.scheduled <==> y in s.scheduled && y != e.id)
  {
  }

  /** skip moves the clock, in 64 bits, exactly when nothing is queued, and changes nothing else. */
  lemma {:induction false} SkipMovesClock(s: Schedule, ticks: nat)
    ensures var t := Apply(s, CallSkip(ticks));
      t == s.(now := if s.queue == [] then (s.now + ticks) % 0x1_0000_0000_0000_0000 else s.now)
  {
  }

  lemma {:induction false} PauseBlocks(s: Schedule, x: EventId, dependees: set<EventId>)
    requires NoDup(s.queue) && Free(s, x) && dependees != {} && x !in dependees
    ensures var t := Apply(s, CallPause(x, dependees));
      Blocked(t, x, dependees) && t.scheduled == s.scheduled + {x}
  {
    PauseRecords(s, x, dependees);
    DescheduledIsGone(s.queue, x);
  }

  lemma {:induction false} StolenIsGone(q: seq<Entry>, x: EventId, e: Entry)
    requires NoDup(q) && e.id != x
    ensures var k := Find(q, x);
      forall f :: f in (if k < |q| then q[k := e] else q + [e]) ==> f.id != x
  {
  }

  /** An event that is handed over waits on exactly the one it was handed to, and leaves the queue. */
  lemma {:induction false} HandOverBlocks(s: Schedule, x: EventId, d: EventId, delay: nat)
    requires NoDup(s.queue) && Free(s, x) && d != x && d !in s.scheduled
    ensures Blocked(Apply(s, CallOver(d, x, delay)), x, {d})
  {
    OverRecords(s, d, x, delay);
    StolenIsGone(s.queue, x, Stamp(s.now + delay, d));
  }

  ghost predicate OnlyOnce(q: seq<Entry>, e: Entry) {
    multiset(q)[e] == 1 && forall f :: f in q && f.id == e.id ==> f == e
  }

  /** Entries for `x` are not added. */
  ghost predicate NoMore(q: seq<Entry>, r: seq<Entry>, x: EventId) {
    forall e: Entry :: e.id == x ==> multiset(r)[e] <= multiset(q)[e]
  }

  lemma {:induction false} WakeElsewhere(s: Schedule, done: EventId, bits: set<EventId>, x: EventId)
    requires x !in bits || s.deps[x] - {done} != {}
    ensures NoMore(s.queue, Wake(s, done, bits).queue, x)
    decreases |bits|
  {
    if bits == {} {
    } else {
      var w := Least(bits);
      WakeElsewhere(WakeOne(s, done, w), done, bits - {w}, x);
    }
  }

  lemma {:induction false} WakeReleases(s: Schedule, done: EventId, bits: set<EventId>, x: EventId)
    requires x in bits && s.deps[x] - {done} == {} && Unqueued(s, x)
    ensures OnlyOnce(Wake(s, done, bits).queue, Stamp(s.now, x))
    decreases |bits|
  {
    var w := Least(bits);
    var t := WakeOne(s, done, w);
    if w == x {
      WakeElsewhere(t, done, bits - {w}, x);
      WakeKeeps(t, done, bits - {w}, Stamp(s.now, x));
      var r := Wake(s, done, bits).queue;
      assert multiset(t.queue)[Stamp(s.now, x)] == 1;
      forall f | f in r && f.id == x
        ensures f == Stamp(s.now, x)
      {
        assert f in multiset(r);
        assert f in multiset(t.queue);
      }
    } else {
      WakeReleases(t, done, bits - {w}, x);
    }
  }

  lemma {:induction false} WakeKeeps(s: Schedule, done: EventId, bits: set<EventId>, e: Entry)
    ensures multiset(s.queue)[e] <= multiset(Wake(s, done, bits).queue)[e]
    decreases |bits|
  {
    if bits == {} {
    } else {
      var w := Least(bits);
      WakeKeeps(WakeOne(s, done, w), done, bits - {w}, e);
    }
  }

  lemma {:induction false} DescheduleOnlyRemoves(q: seq<Entry>, id: EventId)
    ensures multiset(Deschedule(q, id)) <= multiset(q)
  {
    var k := Find(q, id);
    if k < |q| {
      FillContents(q, k);
      var r := Fill(q, k);
      if k == 0 && |r| > 1 {
        SwapContents(r, FirstMin(r), 0);
      }
    }
  }

  lemma {:induction false} PopOnlyRemoves(s: Schedule)
    requires s.queue != []
    ensures multiset(Pop(s).queue) <= multiset(s.queue)
  {
    var k := FirstMin(s.queue);
    SwapContents(s.queue, k, 0);
    FillContents(Swap(s.queue, k, 0), 0);
  }

  lemma {:induction false} PauseQueue(s: Schedule, dent: EventId, dees: set<EventId>, x: EventId)
    ensures NoMore(s.queue, Pause(s, dent, dees).queue, x)
  {
    DescheduleOnlyRemoves(s.queue, dent);
  }

  lemma {:induction false} OverQueue(s: Schedule, dee: EventId, dent: EventId, delay: nat, x: EventId)
    requires x != dee
    ensures NoMore(s.queue, Over(s, dee, dent, delay).queue, x)
  {
  }

  lemma {:induction false} NoMoreEntries(s: Schedule, c: Call, x: EventId)
    requires Elsewhere(c, x)
    requires c.CallComplete? ==> x !in s.dents[c.id] || s.deps[x] - {c.id} != {}
    ensures NoMore(s.queue, Apply(s, c).queue, x)
  {
    match c
    case CallComplete(id) =>
      WakeElsewhere(s, id, s.dents[id], x);
    case CallOver(dee, dent, delay) =>
      OverQueue(s, dee, dent, delay, x);
    case CallPause(dent, dees) =>
      PauseQueue(s, dent, dees, x);
    case CallNext =>
      if s.queue != [] {
        PopOnlyRemoves(s);
      }
    case _ =>
  }

  lemma {:induction false} NoMoreUnqueued(s: Schedule, t: Schedule, x: EventId)
    requires Unqueued(s, x) && NoMore(s.queue, t.queue, x)
    ensures Unqueued(t, x)
  {
    forall e: Entry | e.id == x
      ensures e !in t.queue
    {
      assert multiset(t.queue)[e] <= multiset(s.queue)[e];
    }
  }

  lemma {:induction false} EdgesElsewhere(s: Schedule, c: Call, x: EventId)
    requires Elsewhere(c, x)
    ensures Apply(s, c).deps[x] ==
      if c.CallComplete? && x in s.dents[c.id] then s.deps[x] - {c.id} else s.deps[x]
    ensures forall d: EventId :: x in Apply(s, c).dents[d] <==> x in s.dents[d] && c != CallComplete(d)
  {
    if c.CallComplete? {
      CompleteEffect(s, c.id);
    }
  }

  function Done(c: Call): set<EventId> {
    if c.CallComplete? then {c.id} else {}
  }

  predicate Finishes(c: Call, left: set<EventId>) {
    c.CallComplete? && left == {c.id}
  }

  /** One call while `x` is blocked: it stays blocked unless the call completes the last event it
      waits on, and that call puts it in the queue once, at the current tick. */
  lemma {:induction false} BlockedStep(s: Schedule, c: Call, x: EventId, left: set<EventId>)
    requires Blocked(s, x, left) && Elsewhere(c, x)
    ensures Finishes(c, left) ==>
      Free(Apply(s, c), x) && OnlyOnce(Apply(s, c).queue, Stamp(s.now, x))
    ensures !Finishes(c, left) ==> Blocked(Apply(s, c), x, left - Done(c))
  {
    EdgesElsewhere(s, c, x);
    if Finishes(c, left) {
      WakeReleases(s, c.id, s.dents[c.id], x);
    } else {
      NoMoreEntries(s, c, x);
      NoMoreUnqueued(s, Apply(s, c), x);
    }
  }

  lemma {:induction false} FreeStep(s: Schedule, c: Call, x: EventId)
    requires Free(s, x) && Elsewhere(c, x)
    ensures Free(Apply(s, c), x) && NoMore(s.queue, Apply(s, c).queue, x)
  {
    EdgesElsewhere(s, c, x);
    NoMoreEntries(s, c, x);
  }

  function Completed(calls: seq<Call>): set<EventId> {
    if calls == [] then {} else Completed(calls[..|calls| - 1]) + Done(calls[|calls| - 1])
  }

  /** Call `k` completes the last of `left`, and puts `x` in the queue once, at the tick of that moment. */
  ghost predicate ReleasedAt(s: Schedule, calls: seq<Call>, k: nat, x: EventId, left: set<EventId>)
    requires k < |calls|
  {
    var before, after := Run(s, calls[..k]), Run(s, calls[..k + 1]);
    && calls[k].CallComplete?
    && left - Completed(calls[..k]) == {calls[k].id}
    && Blocked(before, x, {calls[k].id})
    && OnlyOnce(after.queue, Stamp(before.now, x))
  }

  /** What is left of the release at call `k` after all the calls. */
  ghost predicate Released(s: Schedule, calls: seq<Call>, k: nat, x: EventId, left: set<EventId>) {
    && k < |calls|
    && ReleasedAt(s, calls, k, x, left)
    && NoMore(Run(s, calls[..k + 1]).queue, Run(s, calls).queue, x)
  }

  lemma {:induction false} ReleaseNow(s: Schedule, pre: seq<Call>, c: Call, x: EventId, left: set<EventId>)
    requires Blocked(Run(s, pre), x, left - Completed(pre)) && Elsewhere(c, x)
    requires Finishes(c, left - Completed(pre))
    ensures Released(s, pre + [c], |pre|, x, left) && Free(Run(s, pre + [c]), x)
  {
    var calls := pre + [c];
    assert calls[..|pre|] == pre && calls[..|pre| + 1] == calls;
    BlockedStep(Run(s, pre), c, x, left - Completed(pre));
  }

  lemma {:induction false} ReleaseLasts(s: Schedule, pre: seq<Call>, c: Call, k: nat, x: EventId, left: set<EventId>)
    requires Released(s, pre, k, x, left) && Free(Run(s, pre), x) && Elsewhere(c, x)
    ensures Released(s, pre + [c], k, x, left) && Free(Run(s, pre + [c]), x)
  {
    var calls := pre + [c];
    assert calls[..|pre|] == pre && calls[..k] == pre[..k] && calls[..k + 1] == pre[..k + 1];
    FreeStep(Run(s, pre), c, x);
  }

  /** The barrier. From a state in which `x` is blocked on `left`, for any calls that do not themselves
      queue or complete `x`, in any order: as long as some of `left` has not completed, `x` is out of
      the queue; once all have, `x` was queued exactly when the last of them completed, and at most
      that one entry for `x` can still be in the queue. */
  lemma {:induction false} Barrier(s: Schedule, calls: seq<Call>, x: EventId, left: set<EventId>)
    requires Blocked(s, x, left)
    requires forall c :: c in calls ==> Elsewhere(c, x)
    ensures left - Completed(calls) != {} ==> Blocked(Run(s, calls), x, left - Completed(calls))
    ensures left - Completed(calls) == {} ==>
      Free(Run(s, calls), x) && exists k :: Released(s, calls, k, x, left)
  {
    if calls == [] {
      assert left - Completed(calls) == left;
    } else {
      var pre, c := calls[..|calls| - 1], calls[|calls| - 1];
      assert calls == pre + [c];
      Barrier(s, pre, x, left);
      var rest := left - Completed(pre);
      assert left - Completed(calls) == rest - Done(c);
      if rest == {} {
        var k :| Released(s, pre, k, x, left);
        ReleaseLasts(s, pre, c, k, x, left);
      } else if Finishes(c, rest) {
        ReleaseNow(s, pre, c, x, left);
      } else {
        BlockedStep(Run(s, pre), c, x, rest);
      }
    }
  }

  /* The barrier of an event that is handed over to several events, or paused again, while it waits. */

  /** The calls that neither queue `x` on purpose nor complete it; they may make it wait on more events. */
  predicate Spares(c: Call, x: EventId) {
    match c
    case CallSchedule(id, _) => id != x
    case CallOver(dee, _, _) => dee != x
    case CallComplete(id) => id != x
    case _ => true
  }

  /** What `x` waits on after one more call. */
  function LeftAfter(s: Schedule, c: Call, x: EventId, left: set<EventId>): set<EventId> {
    match c
    case CallOver(dee, dent, _) => if dent == x && dee !in s.scheduled then left + {dee} else left
    case CallPause(dent, dees) => if dent == x && x !in dees then left + dees else left
    case CallComplete(id) => left - {id}
    case _ => left
  }

  lemma {:induction false} OverWhileBlocked(s: Schedule, x: EventId, d: EventId, delay: nat, left: set<EventId>)
    requires Blocked(s, x, left) && d != x && d !in s.scheduled
    ensures Blocked(Apply(s, CallOver(d, x, delay)), x, left + {d})
  {
    OverRecords(s, d, x, delay);
    assert Find(s.queue, x) == |s.queue| by {
      FindUnique(s.queue, x, |s.queue|);
    }
  }

  lemma {:induction false} PauseWhileBlocked(s: Schedule, x: EventId, ds: set<EventId>, left: set<EventId>)
    requires Blocked(s, x, left) && x !in ds
    ensures Blocked(Apply(s, CallPause(x, ds)), x, left + ds)
  {
    PauseRecords(s, x, ds);
    assert Find(s.queue, x) == |s.queue| by {
      FindUnique(s.queue, x, |s.queue|);
    }
  }

  lemma {:induction false} GrowingStep(s: Schedule, c: Call, x: EventId, left: set<EventId>)
    requires Blocked(s, x, left) && Spares(c, x)
    ensures LeftAfter(s, c, x, left) != {} ==> Blocked(Apply(s, c), x, LeftAfter(s, c, x, left))
    ensures LeftAfter(s, c, x, left) == {} ==>
      c.CallComplete? && left == {c.id} && Free(Apply(s, c), x) && OnlyOnce(Apply(s, c).queue, Stamp(s.now, x))
  {
    hide Blocked, Free, OnlyOnce, Apply;
    if c.CallOver? && c.dependent == x {
      if c.dependee !in s.scheduled {
        OverWhileBlocked(s, x, c.dependee, c.delay, left);
      } else {
        ThrowsKeeps(s, c);
      }
    } else if c.CallPause? && c.dependent == x {
      if x !in c.dependees {
        PauseWhileBlocked(s, x, c.dependees, left);
      } else {
        ThrowsKeeps(s, c);
      }
    } else {
      BlockedStep(s, c, x, left);
      assert LeftAfter(s, c, x, left) == left - Done(c);
    }
    BlockedIsNotEmpty(s, x, left);
  }

  /** A call that throws changes nothing. */
  lemma {:induction false} ThrowsKeeps(s: Schedule, c: Call)
    requires (c.CallOver? && c.dependee in s.scheduled) || (c.CallPause? && c.dependent in c.dependees)
    ensures Apply(s, c) == s
  {
  }

  lemma {:induction false} BlockedIsNotEmpty(s: Schedule, x: EventId, left: set<EventId>)
    requires Blocked(s, x, left)
    ensures left != {}
  {
  }

  /** What `x` waits on after the calls. */
  function Outstanding(s: Schedule, calls: seq<Call>, x: EventId, left: set<EventId>): set<EventId> {
    if calls == [] then left
    else
      var front := calls[..|calls| - 1];
      LeftAfter(Run(s, front), calls[|calls| - 1], x, Outstanding(s, front, x, left))
  }

  ghost predicate NeverDone(s: Schedule, calls: seq<Call>, x: EventId, left: set<EventId>) {
    forall k :: 0 <= k <= |calls| ==> Outstanding(s, calls[..k], x, left) != {}
  }

  lemma {:induction false} GrowingBarrierHolds(s: Schedule, calls: seq<Call>, x: EventId, left: set<EventId>)
    requires Blocked(s, x, left) && NeverDone(s, calls, x, left)
    requires forall c :: c in calls ==> Spares(c, x)
    ensures Blocked(Run(s, calls), x, Outstanding(s, calls, x, left))
  {
    if calls == [] {
    } else {
      var front, c := calls[..|calls| - 1], calls[|calls| - 1];
      assert calls[..|calls|] == calls;
      assert forall k :: 0 <= k <= |front| ==> front[..k] == calls[..k];
      GrowingBarrierHolds(s, front, x, left);
      GrowingStep(Run(s, front), c, x, Outstanding(s, front, x, left));
    }
  }

  lemma {:induction false} NothingMore(s: Schedule, calls: seq<Call>, x: EventId)
    requires Free(s, x) && forall c :: c in calls ==> Elsewhere(c, x)
    ensures Free(Run(s, calls), x) && NoMore(s.queue, Run(s, calls).queue, x)
  {
    if calls == [] {
    } else {
      NothingMore(s, calls[..|calls| - 1], x);
      FreeStep(Run(s, calls[..|calls| - 1]), calls[|calls| - 1], x);
    }
  }

  /** The barrier, while `x` keeps being handed over and paused. It is out of the queue, and waits on exactly
      what is outstanding, for as long as anything is. The call after which nothing is outstanding completes
      the last event waited on, and puts `x` in the queue once, at the tick of that moment; calls that then
      leave `x` alone add no other entry. */
  lemma {:induction false} GrowingBarrier(s: Schedule, before: seq<Call>, c: Call, after: seq<Call>, x: EventId,
        left: set<EventId>)
    requires Blocked(s, x, left) && NeverDone(s, before, x, left)
    requires (forall b :: b in before ==> Spares(b, x)) && Spares(c, x)
    requires Outstanding(s, before + [c], x, left) == {} && forall a :: a in after ==> Elsewhere(a, x)
    ensures var p, r := Run(s, before), Run(s, before + [c]);
      && c.CallComplete? && Blocked(p, x, {c.id}) && OnlyOnce(r.queue, Stamp(p.now, x))
      && NoMore(r.queue, Run(r, after).queue, x)
  {
    var calls := before + [c];
    assert calls[..|before|] == before;
    GrowingBarrierHolds(s, before, x, left);
    GrowingStep(Run(s, before), c, x, Outstanding(s, before, x, left));
    NothingMore(Run(s, calls), after, x);
  }

  /** So two hand-overs make `x` wait for both: completing one of the two leaves it out of the queue, completing
      the other one as well queues it. */
  lemma {:induction false} BothAreAwaited(s: Schedule, x: EventId, d: EventId, e: EventId, delay: nat)
    requires NoDup(s.queue) && Free(s, x) && d != e && x != d && x != e
    requires d !in s.scheduled && e !in s.scheduled
    ensures var t := Apply(Apply(s, CallOver(d, x, delay)), CallOver(e, x, delay));
      && Blocked(Complete(t, d), x, {e}) && Blocked(Complete(t, e), x, {d})
      && OnlyOnce(Complete(Complete(t, d), e).queue, Stamp(s.now, x))
  {
    hide Blocked, Free, OnlyOnce, Complete, Over;
    var u := Apply(s, CallOver(d, x, delay));
    var t := Apply(u, CallOver(e, x, delay));
    HandOverBlocks(s, x, d, delay);
    OverRecords(s, d, x, delay);
    OverWhileBlocked(u, x, e, delay, {d});
    OverRecords(u, e, x, delay);
    assert {d, e} - {d} == {e} && {d, e} - {e} == {d} && {d} + {e} == {d, e};
    GrowingStep(t, CallComplete(d), x, {d, e});
    GrowingStep(t, CallComplete(e), x, {d, e});
    CompleteEffect(t, d);
    GrowingStep(Complete(t, d), CallComplete(e), x, {e});
  }

  /** But the event loop completes `x` itself at once, because its scheduled bit is clear; that forgets what it
      depends on, and so the first of the two to complete queues it while it is still recorded under the
      other. */
  lemma {:induction false} LoopForgetsHandOvers(s: Schedule, x: EventId, d: EventId, e: EventId, delay: nat)
    requires NoDup(s.queue) && Free(s, x) && d != e && x != d && x != e
    requires d !in s.scheduled && e !in s.scheduled && s.dents[x] == {}
    ensures var t := Apply(Apply(s, CallOver(d, x, delay)), CallOver(e, x, delay));
      var u := Complete(t, x);
      && x !in t.scheduled && x in u.dents[d] && x in u.dents[e]
      && x in Complete(u, d).dents[e] && OnlyOnce(Complete(u, d).queue, Stamp(s.now, x))
  {
    hide OnlyOnce, Complete, Over, Wake;
    var v := Apply(s, CallOver(d, x, delay));
    var t := Apply(v, CallOver(e, x, delay));
    HandOverBlocks(s, x, d, delay);
    OverRecords(s, d, x, delay);
    OverWhileBlocked(v, x, e, delay, {d});
    OverRecords(v, e, x, delay);
    var u := Complete(t, x);
    CompleteEffect(t, x);
    NothingWoken(t, x);
    CompleteEffect(u, d);
    WakeReleases(u, d, u.dents[d], x);
  }

  lemma {:induction false} NothingWoken(s: Schedule, done: EventId)
    requires s.dents[done] == {}
    ensures Wake(s, done, s.dents[done]) == s
  {
  }
}
