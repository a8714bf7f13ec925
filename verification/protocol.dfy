/** The event loop of bin/simexp/event_loop.hpp with arbitrary clients: each turn of the loop pops an
    event, lets its handler schedule idle events and decide what becomes of the event itself, and
    completes the event unless its scheduled bit says that it is still in use. */
module Protocol {
  import opened Slots
  import opened Schedules
  import opened Queues
  import opened Graphs

  /** What the handler of the running event decides about that event. */
  datatype Move =
    | Finish
    | Again(delay: nat)
    | HandOver(dependee: EventId, delay: nat)
    | AwaitAll(dependees: set<EventId>)

  datatype Turn = Turn(spawned: seq<(EventId, nat)>, move: Move)

  function SpawnAll(s: Schedule, spawned: seq<(EventId, nat)>): Schedule
    decreases |spawned|
  {
    if spawned == [] then s
    else SpawnAll(Apply(s, CallSchedule(spawned[0].0, spawned[0].1)), spawned[1..])
  }

  function Decide(s: Schedule, e: EventId, m: Move): Schedule {
    match m
    case Finish => s
    case Again(delay) => Apply(s, CallSchedule(e, delay))
    case HandOver(d, delay) => Apply(s, CallOver(d, e, delay))
    case AwaitAll(ds) => Apply(s, CallPause(e, ds))
  }

  /** Step 3 of the loop. */
  function Settle(s: Schedule, e: EventId): Schedule {
    if e in s.scheduled then s else Complete(s, e)
  }

  function TakeTurn(s: Schedule, t: Turn): Schedule
    requires s.queue != []
  {
    var e := s.queue[FirstMin(s.queue)].id;
    Settle(Decide(SpawnAll(Pop(s), t.spawned), e, t.move), e)
  }

  ghost predicate Waits(s: Schedule, x: EventId) {
    exists d: EventId :: x in s.dents[d]
  }

  ghost predicate Idle(s: Schedule, x: EventId)
    requires NoDup(s.queue)
  {
    x !in Due(s.queue) && !Waits(s, x)
  }

  ghost predicate Ranked(g: Graph, rank: seq<nat>) {
    |rank| == MAX_EVENTS && forall d: EventId, x: EventId :: x in g[d] ==> rank[d] < rank[x]
  }

  /** The waits-on graph has no cycle. */
  ghost predicate Acyclic(g: Graph) {
    exists rank :: Ranked(g, rank)
  }

  /** `x` is `e`, or waits on it through at most `n` events. */
  ghost predicate WaitsWithin(g: Graph, x: EventId, e: EventId, n: nat)
    decreases n
  {
    x == e || (n > 0 && exists d: EventId :: x in g[d] && WaitsWithin(g, d, e, n - 1))
  }

  /** `x` is `e`, or waits on it, directly or through other events. */
  ghost predicate WaitsOn(g: Graph, x: EventId, e: EventId) {
    exists n: nat :: WaitsWithin(g, x, e, n)
  }

  /** `x` is recorded under exactly the events it depends on, or it was handed over to one event. */
  ghost predicate Recorded(s: Schedule, x: EventId) {
    || (forall d: EventId :: x in s.dents[d] <==> d in s.deps[x])
    || (s.deps[x] == {} && forall d: EventId, d': EventId :: x in s.dents[d] && x in s.dents[d'] ==> d == d')
  }

  ghost predicate InTime(s: Schedule)
    requires NoDup(s.queue)
  {
    s.now < TICK_LIMIT && forall x :: x in Due(s.queue) ==> s.now <= Due(s.queue)[x] < TICK_LIMIT
  }

  /** What holds while the events of `running` (the popped one, or none) are being handled. */
  ghost predicate Sound(s: Schedule, running: set<EventId>) {
    && NoDup(s.queue)
    && InTime(s)
    && (forall x: EventId :: Recorded(s, x))
    && (forall x: EventId :: Waits(s, x) ==> x !in Due(s.queue) && x !in running)
    && (forall d: EventId :: s.dents[d] != {} ==> d in Due(s.queue) || Waits(s, d) || d in running)
    && (forall x :: x in s.scheduled ==> x in Due(s.queue) || Waits(s, x))
    && running !! Due(s.queue).Keys
    && Acyclic(s.dents)
  }

  /* The client protocol. */

  /** Only idle events are scheduled, none of them running. */
  ghost predicate MaySpawn(s: Schedule, running: set<EventId>, spawned: seq<(EventId, nat)>)
    decreases |spawned|
  {
    spawned != [] ==>
      var (id, delay) := spawned[0];
      && id !in running && NoDup(s.queue) && Idle(s, id) && s.now + delay < TICK_LIMIT
      && MaySpawn(Apply(s, CallSchedule(id, delay)), running, spawned[1..])
  }

  ghost predicate MayDecide(s: Schedule, e: EventId, m: Move) {
    && NoDup(s.queue)
    && match m
       case Finish => true
       case Again(delay) => s.now + delay < TICK_LIMIT
       // Nothing waits on an event that hands over to another one.
       case HandOver(d, delay) => d != e && Idle(s, d) && s.dents[e] == {} && s.now + delay < TICK_LIMIT
       // The dependees exist, are live, and do not themselves wait on the paused event.
       case AwaitAll(ds) =>
         && ds != {}
         && (forall d :: d in ds ==> d in Due(s.queue) || Waits(s, d))
         && (forall d :: d in ds ==> !WaitsOn(s.dents, d, e))
  }

  ghost predicate Follows(s: Schedule, t: Turn)
    requires s.queue != []
  {
    var e := s.queue[FirstMin(s.queue)].id;
    && MaySpawn(Pop(s), {e}, t.spawned)
    && MayDecide(SpawnAll(Pop(s), t.spawned), e, t.move)
  }

  /* Each step keeps the scheduler sound. */

  lemma {:induction false} PopKeepsSound(s: Schedule)
    requires Sound(s, {}) && s.queue != []
    ensures Sound(Pop(s), {s.queue[FirstMin(s.queue)].id})
    ensures s.now <= Pop(s).now
  {
    var e := s.queue[FirstMin(s.queue)];
    var t := Pop(s);
    PopTakesLeast(s);
    assert forall x: EventId :: Waits(t, x) <==> Waits(s, x);
    assert forall x: EventId :: Recorded(s, x) ==> Recorded(t, x);
  }

  lemma {:induction false} AddKeepsSound(s: Schedule, running: set<EventId>, id: EventId, delay: nat)
    requires Sound(s, running) && Idle(s, id) && s.now + delay < TICK_LIMIT
    ensures id !in s.scheduled
    ensures Sound(Add(s, id, delay), running - {id})
    ensures Due(Add(s, id, delay).queue) == Due(s.queue)[id := s.now + delay]
  {
    var t := Add(s, id, delay);
    Appended(s.queue, Stamp(s.now + delay, id));
    assert forall x: EventId :: Waits(t, x) <==> Waits(s, x);
    assert forall x: EventId :: Recorded(s, x) ==> Recorded(t, x);
  }

  lemma {:induction false} SpawnKeepsSound(s: Schedule, running: set<EventId>, spawned: seq<(EventId, nat)>)
    requires Sound(s, running) && MaySpawn(s, running, spawned)
    ensures Sound(SpawnAll(s, spawned), running)
    ensures SpawnAll(s, spawned).now == s.now
    decreases |spawned|
  {
    hide Sound, Add, Idle;
    if spawned == [] {
    } else {
      var (id, delay) := spawned[0];
      SpawnOne(s, running, id, delay);
      SpawnKeepsSound(Add(s, id, delay), running, spawned[1..]);
    }
  }

  lemma {:induction false} SpawnOne(s: Schedule, running: set<EventId>, id: EventId, delay: nat)
    requires Sound(s, running) && Idle(s, id) && s.now + delay < TICK_LIMIT && id !in running
    ensures Apply(s, CallSchedule(id, delay)) == Add(s, id, delay)
    ensures Sound(Add(s, id, delay), running) && Add(s, id, delay).now == s.now
  {
    AddKeepsSound(s, running, id, delay);
    assert running - {id} == running;
  }

  /** `r` is `m` with the events of `ids` added, all due at `tick`. */
  ghost predicate Extends(r: map<EventId, nat>, m: map<EventId, nat>, ids: set<EventId>, tick: nat) {
    && r.Keys == m.Keys + ids
    && (forall x :: x in m && x !in ids ==> r[x] == m[x])
    && (forall x :: x in ids ==> r[x] == tick)
  }

  lemma {:induction false} ExtendsTwice(m: map<EventId, nat>, n: map<EventId, nat>, r: map<EventId, nat>,
                     a: set<EventId>, b: set<EventId>, tick: nat)
    requires Extends(n, m, a, tick) && Extends(r, n, b, tick)
    ensures Extends(r, m, a + b, tick)
  {
  }

  lemma {:induction false} WakeOneQueues(s: Schedule, done: EventId, w: EventId)
    requires NoDup(s.queue) && s.now < TICK_LIMIT && w !in Due(s.queue)
    ensures NoDup(WakeOne(s, done, w).queue)
    ensures Extends(Due(WakeOne(s, done, w).queue), Due(s.queue), Ready(s, done, {w}), s.now)
  {
    if s.deps[w] - {done} == {} {
      Appended(s.queue, Stamp(s.now, w));
      assert Ready(s, done, {w}) == {w};
    } else {
      assert Ready(s, done, {w}) == {};
    }
  }

  /** Waking queues exactly the ready events, now. */
  lemma {:induction false} WakeQueues(s: Schedule, done: EventId, bits: set<EventId>)
    requires NoDup(s.queue) && s.now < TICK_LIMIT && bits !! Due(s.queue).Keys
    ensures NoDup(Wake(s, done, bits).queue)
    ensures Extends(Due(Wake(s, done, bits).queue), Due(s.queue), Ready(s, done, bits), s.now)
    decreases |bits|
  {
    if bits == {} {
      assert Ready(s, done, bits) == {};
    } else {
      var w := Least(bits);
      var t := WakeOne(s, done, w);
      WakeOneQueues(s, done, w);
      WakeQueues(t, done, bits - {w});
      var first, rest := Ready(s, done, {w}), Ready(t, done, bits - {w});
      ReadyShrinks(s, done, bits, w);
      assert first + rest == Ready(s, done, bits);
      ExtendsTwice(Due(s.queue), Due(t.queue), Due(Wake(s, done, bits).queue), first, rest, s.now);
    }
  }

  /** What completing `e` does to one event: it stops waiting if it was waiting on `e` alone. */
  lemma {:induction false} FinishOne(s: Schedule, e: EventId, x: EventId)
    requires Recorded(s, x) && !Waits(s, e)
    ensures Recorded(Complete(s, e), x)
    ensures Waits(Complete(s, e), x) <==> Waits(s, x) && x !in Woken(s, e)
  {
    var t := Complete(s, e);
    CompleteEffect(s, e);
    assert forall d: EventId :: x in t.dents[d] <==> x in s.dents[d] && d != e;
    if x in s.dents[e] && x !in Woken(s, e) {
      var d :| d in s.deps[x] && d != e;
      assert x in t.dents[d];
    } else if x !in s.dents[e] && Waits(s, x) {
      var d: EventId :| x in s.dents[d];
      assert x in t.dents[d];
    }
  }

  lemma {:induction false} FinishAll(s: Schedule, e: EventId)
    requires !Waits(s, e) && forall x: EventId :: Recorded(s, x)
    ensures forall x: EventId :: Recorded(Complete(s, e), x)
    ensures forall x: EventId :: Waits(Complete(s, e), x) <==> Waits(s, x) && x !in Woken(s, e)
  {
    forall x: EventId
      ensures Recorded(Complete(s, e), x)
      ensures Waits(Complete(s, e), x) <==> Waits(s, x) && x !in Woken(s, e)
    {
      FinishOne(s, e, x);
    }
  }

  lemma {:induction false} FewerEdges(g: Graph, h: Graph)
    requires Acyclic(g) && forall d: EventId :: h[d] <= g[d]
    ensures Acyclic(h)
  {
    var rank :| Ranked(g, rank);
    assert Ranked(h, rank);
  }

  lemma {:induction false} FinishQueue(s: Schedule, e: EventId)
    requires Sound(s, {e})
    ensures |s.queue| + |Woken(s, e)| <= MAX_EVENTS
    ensures NoDup(Complete(s, e).queue)
    ensures Extends(Due(Complete(s, e).queue), Due(s.queue), Woken(s, e), s.now)
  {
    assert forall w :: w in s.dents[e] ==> Waits(s, w);
    CompleteEffect(s, e);
    WakeQueues(s, e, s.dents[e]);
    SizeOfQueue(s.queue);
    SizeOfQueue(Complete(s, e).queue);
  }

  /** The part of soundness that says who is live, from what completing `e` does to the queue and to
      the waiters. */
  lemma {:induction false} StillLive(s: Schedule, t: Schedule, e: EventId, woken: set<EventId>)
    requires Sound(s, {e})
    requires t.dents == s.dents[e := {}] && t.scheduled == s.scheduled && t.now == s.now
    requires woken == Woken(s, e)
    requires NoDup(t.queue) && Extends(Due(t.queue), Due(s.queue), woken, s.now)
    requires forall x: EventId :: Waits(t, x) <==> Waits(s, x) && x !in woken
    ensures InTime(t)
    ensures forall x: EventId :: Waits(t, x) ==> x !in Due(t.queue)
    ensures forall d: EventId :: t.dents[d] != {} ==> d in Due(t.queue) || Waits(t, d)
    ensures forall x :: x in t.scheduled ==> x in Due(t.queue) || Waits(t, x)
  {
  }

  /** Completing the running event keeps the scheduler sound, and never overflows the queue. */
  lemma {:induction false} FinishKeepsSound(s: Schedule, e: EventId)
    requires Sound(s, {e})
    ensures |s.queue| + |Woken(s, e)| <= MAX_EVENTS
    ensures Sound(Complete(s, e), {})
    ensures Complete(s, e).now == s.now
  {
    hide Acyclic, Recorded, Waits, Complete, Wake;
    var t := Complete(s, e);
    RunningIsUnscheduled(s, e);
    CompleteEffect(s, e);
    FinishQueue(s, e);
    FinishAll(s, e);
    StillLive(s, t, e, Woken(s, e));
    FewerEdges(s.dents, t.dents);
  }

  /** `d` is placed below everything: it waits on nothing and only `e` waits on it. */
  lemma {:induction false} RankBelow(g: Graph, d: EventId, e: EventId)
    requires Acyclic(g) && d != e && g[d] == {} && forall k: EventId :: d !in g[k]
    ensures Acyclic(g[d := {e}])
  {
    var rank :| Ranked(g, rank);
    var rank' := seq(MAX_EVENTS, i requires 0 <= i < MAX_EVENTS => if i == d then 0 else rank[i] + 1);
    assert Ranked(g[d := {e}], rank');
  }

  /** schedule_over on the running event, and the completion that follows it in the loop: the event's
      own dependency is dropped at once, but it stays recorded under the event it waits on. */
  lemma {:induction false} HandOverEffect(s: Schedule, e: EventId, d: EventId, delay: nat)
    requires d != e && s.dents[e] == {} && s.dents[d] == {} && Find(s.queue, e) == |s.queue|
    ensures Complete(Over(s, d, e, delay), e) ==
      s.(queue := s.queue + [Stamp(s.now + delay, d)],
         scheduled := s.scheduled - {e} + {d},
         deps := s.deps[e := {}],
         dents := s.dents[d := {e}])
  {
    var u := Over(s, d, e, delay);
    assert s.dents[d] + {e} == {e};
    assert u.dents == s.dents[d := {e}];
    assert u.dents[e] == {};
    assert Wake(u, e, {}) == u;
    assert u.dents[e := {}] == u.dents;
    assert u.deps[e := {}] == s.deps[e := {}];
  }

  /** Completing the event that another one was handed over to queues that other one, now. */
  lemma {:induction false} CompleteHandedOver(s: Schedule, d: EventId, e: EventId)
    requires s.dents[d] == {e} && s.deps[e] == {} && s.deps[d] == {}
    ensures Complete(s, d) == s.(queue := s.queue + [Stamp(s.now, e)], dents := s.dents[d := {}])
  {
    assert Least({e}) == e;
    assert Wake(WakeOne(s, d, e), d, {}) == WakeOne(s, d, e);
    assert Wake(s, d, {e}) == WakeOne(s, d, e) by {
      assert {e} - {e} == {};
    }
    assert s.deps[e := {}] == s.deps && s.deps[d := {}] == s.deps;
  }

  lemma {:induction false} HandOverEdges(s: Schedule, t: Schedule, e: EventId, d: EventId)
    requires t.dents == s.dents[d := {e}] && t.deps == s.deps[e := {}] && s.dents[d] == {}
    requires !Waits(s, e) && forall x: EventId :: Recorded(s, x)
    ensures forall x: EventId :: Recorded(t, x)
    ensures forall x: EventId :: Waits(t, x) <==> Waits(s, x) || x == e
  {
    forall x: EventId
      ensures Recorded(t, x)
      ensures Waits(t, x) <==> Waits(s, x) || x == e
    {
      assert Recorded(s, x);
      assert forall k: EventId :: x in t.dents[k] <==> x in s.dents[k] || (k == d && x == e);
    }
  }

  /** The part of soundness that says who is live, from what the hand-over does to the queue and to the
      waiters. */
  lemma {:induction false} HandOverLive(s: Schedule, t: Schedule, e: EventId, d: EventId, tick: nat)
    requires Sound(s, {e}) && Idle(s, d) && d != e && s.dents[e] == {} && s.now <= tick < TICK_LIMIT
    requires t.dents == s.dents[d := {e}] && t.scheduled == s.scheduled - {e} + {d} && t.now == s.now
    requires NoDup(t.queue) && Due(t.queue) == Due(s.queue)[d := tick]
    requires forall x: EventId :: Waits(t, x) <==> Waits(s, x) || x == e
    ensures InTime(t)
    ensures forall x: EventId :: Waits(t, x) ==> x !in Due(t.queue)
    ensures forall k: EventId :: t.dents[k] != {} ==> k in Due(t.queue) || Waits(t, k)
    ensures forall x :: x in t.scheduled ==> x in Due(t.queue) || Waits(t, x)
  {
    hide Acyclic, Recorded, Waits;
  }

  lemma {:induction false} HandOverFacts(s: Schedule, e: EventId, d: EventId)
    requires Sound(s, {e}) && Idle(s, d)
    ensures NoDup(s.queue) && e !in Due(s.queue) && d !in Due(s.queue) && s.now < TICK_LIMIT
    ensures !Waits(s, e) && Find(s.queue, e) == |s.queue| && d !in s.scheduled
    ensures s.dents[d] == {} || d == e
    ensures forall k: EventId :: d !in s.dents[k]
  {
    Found(s.queue, e);
    assert !Waits(s, d);
  }

  lemma {:induction false} HandOverKeepsSound(s: Schedule, e: EventId, d: EventId, delay: nat)
    requires Sound(s, {e}) && MayDecide(s, e, HandOver(d, delay))
    ensures d !in s.scheduled
    ensures var t := Complete(Over(s, d, e, delay), e);
      Sound(t, {}) && Due(t.queue) == Due(s.queue)[d := s.now + delay] && t.now == s.now
  {
    hide Acyclic, Recorded, Waits, Over, Complete, InTime, Due;
    var t := Complete(Over(s, d, e, delay), e);
    HandOverFacts(s, e, d);
    HandOverEffect(s, e, d, delay);
    HandOverQueues(s, d, delay);
    RankBelow(s.dents, d, e);
    HandOverEdges(s, t, e, d);
    HandOverLive(s, t, e, d, s.now + delay);
  }

  lemma {:induction false} HandOverQueues(s: Schedule, d: EventId, delay: nat)
    requires NoDup(s.queue) && d !in Due(s.queue) && s.now + delay < TICK_LIMIT
    ensures var q := s.queue + [Stamp(s.now + delay, d)];
      NoDup(q) && Due(q) == Due(s.queue)[d := s.now + delay]
  {
    hide NoDup, Due;
    Appended(s.queue, Stamp(s.now + delay, d));
  }

  function TopRank(rank: seq<nat>, n: nat): (top: nat)
    requires n <= |rank|
    ensures forall i :: 0 <= i < n ==> rank[i] < top
  {
    if n == 0 then 0
    else
      var top := TopRank(rank, n - 1);
      if rank[n - 1] < top then top else rank[n - 1] + 1
  }

  /** Waiting on an event means ranking at least as high. */
  lemma {:induction false} WaiterRanksHigher(g: Graph, rank: seq<nat>, x: EventId, e: EventId, n: nat)
    requires Ranked(g, rank) && WaitsWithin(g, x, e, n)
    ensures rank[e] <= rank[x]
    decreases n
  {
    if x == e {
    } else {
      var d: EventId :| x in g[d] && WaitsWithin(g, d, e, n - 1);
      WaiterRanksHigher(g, rank, d, e, n - 1);
    }
  }

  lemma {:induction false} WaitsOnFurther(g: Graph, x: EventId, d: EventId, e: EventId)
    requires x in g[d] && WaitsOn(g, d, e)
    ensures WaitsOn(g, x, e)
  {
    var n: nat :| WaitsWithin(g, d, e, n);
    assert WaitsWithin(g, x, e, n + 1);
  }

  /** The ranks of everything that waits on `e` are lifted above all others. */
  ghost function Lifted(g: Graph, rank: seq<nat>, e: EventId): (r: seq<nat>)
    requires |rank| == MAX_EVENTS
    ensures |r| == MAX_EVENTS
  {
    seq(MAX_EVENTS, i requires 0 <= i < MAX_EVENTS =>
      if WaitsOn(g, i, e) then rank[i] + TopRank(rank, MAX_EVENTS) else rank[i])
  }

  lemma {:induction false} PauseClosesNoCycle(g: Graph, e: EventId, ds: set<EventId>)
    requires Acyclic(g) && forall d :: d in ds ==> !WaitsOn(g, d, e)
    ensures Acyclic(Block(g, ds, e))
  {
    hide WaitsOn;
    var rank :| Ranked(g, rank);
    var lifted := Lifted(g, rank, e);
    assert WaitsOn(g, e, e) by {
      WaitsOnItself(g, e);
    }
    forall d: EventId, x: EventId | x in Block(g, ds, e)[d]
      ensures lifted[d] < lifted[x]
    {
      if x in g[d] && WaitsOn(g, d, e) {
        WaitsOnFurther(g, x, d, e);
      }
    }
    assert Ranked(Block(g, ds, e), lifted);
  }

  lemma {:induction false} WaitsOnItself(g: Graph, e: EventId)
    ensures WaitsOn(g, e, e)
  {
    assert WaitsWithin(g, e, e, 0);
  }

  lemma {:induction false} WaitsWithinMore(g: Graph, h: Graph, x: EventId, e: EventId, n: nat)
    requires WaitsWithin(g, x, e, n) && forall d: EventId :: g[d] <= h[d]
    ensures WaitsWithin(h, x, e, n)
    decreases n
  {
    if x == e {
    } else {
      var d: EventId :| x in g[d] && WaitsWithin(g, d, e, n - 1);
      WaitsWithinMore(g, h, d, e, n - 1);
    }
  }

  /** Exactly when a pause keeps the graph acyclic: no dependee is the paused event or waits on it, directly
      or through other events. The test for direct self-dependency is a part of that condition only. */
  lemma {:induction false} PauseIsAcyclicExactly(g: Graph, e: EventId, ds: set<EventId>)
    requires Acyclic(g)
    ensures Acyclic(Block(g, ds, e)) <==> forall d :: d in ds ==> !WaitsOn(g, d, e)
  {
    if d :| d in ds && WaitsOn(g, d, e) {
      var h := Block(g, ds, e);
      var n: nat :| WaitsWithin(g, d, e, n);
      WaitsWithinMore(g, h, d, e, n);
      assert e in h[d];
      forall rank | Ranked(h, rank)
        ensures false
      {
        WaiterRanksHigher(h, rank, d, e, n);
      }
    } else {
      PauseClosesNoCycle(g, e, ds);
    }
  }

  /** If nothing waits on the paused event, the test for direct self-dependency is all that is needed. */
  lemma {:induction false} UnwaitedPauseIsAcyclic(g: Graph, e: EventId, ds: set<EventId>)
    requires Acyclic(g) && g[e] == {}
    ensures Acyclic(Block(g, ds, e)) <==> e !in ds
  {
    forall d: EventId
      ensures WaitsOn(g, d, e) <==> d == e
    {
      if WaitsOn(g, d, e) {
        var n: nat :| WaitsWithin(g, d, e, n);
        UnwaitedIsNotReached(g, d, e, n);
      }
      WaitsOnItself(g, e);
    }
    PauseIsAcyclicExactly(g, e, ds);
  }

  lemma {:induction false} UnwaitedIsNotReached(g: Graph, x: EventId, e: EventId, n: nat)
    requires g[e] == {} && WaitsWithin(g, x, e, n)
    ensures x == e
    decreases n
  {
    if x == e {
    } else {
      var d: EventId :| x in g[d] && WaitsWithin(g, d, e, n - 1);
      UnwaitedIsNotReached(g, d, e, n - 1);
    }
  }

  lemma {:induction false} AwaitAllEdges(s: Schedule, t: Schedule, e: EventId, ds: set<EventId>)
    requires t.deps == s.deps[e := s.deps[e] + ds] && t.dents == Block(s.dents, ds, e) && ds != {}
    requires !Waits(s, e) && forall x: EventId :: Recorded(s, x)
    ensures forall x: EventId :: Recorded(t, x)
    ensures forall x: EventId :: Waits(t, x) <==> Waits(s, x) || x == e
  {
    forall x: EventId
      ensures Recorded(t, x)
      ensures Waits(t, x) <==> Waits(s, x) || x == e
    {
      assert Recorded(s, x);
      assert forall k: EventId :: x in t.dents[k] <==> x in s.dents[k] || (k in ds && x == e);
      if x == e {
        var d :| d in ds;
        assert x in t.dents[d];
      }
    }
  }

  lemma {:induction false} AwaitAllKeepsSound(s: Schedule, e: EventId, ds: set<EventId>)
    requires Sound(s, {e}) && MayDecide(s, e, AwaitAll(ds))
    ensures e !in ds && Sound(Pause(s, e, ds), {})
  {
    hide Recorded, Acyclic, WaitsOn, Block;
    var t := Pause(s, e, ds);
    WaitsOnItself(s.dents, e);
    Found(s.queue, e);
    assert t.queue == s.queue;
    AwaitAllEdges(s, t, e, ds);
    PauseIsAcyclicExactly(s.dents, e, ds);
    BlockedAreLive(s, e, ds);
  }

  /** Whatever is recorded under something after the pause is live. */
  lemma {:induction false} BlockedAreLive(s: Schedule, e: EventId, ds: set<EventId>)
    requires Sound(s, {e}) && forall d :: d in ds ==> d in Due(s.queue) || Waits(s, d)
    ensures forall d: EventId :: Block(s.dents, ds, e)[d] != {} ==> d in Due(s.queue) || Waits(s, d) || d == e
  {
    hide Acyclic, Recorded;
  }

  lemma {:induction false} RunningIsUnscheduled(s: Schedule, e: EventId)
    requires Sound(s, {e})
    ensures NoDup(s.queue) && e !in s.scheduled && e !in Due(s.queue) && !Waits(s, e)
  {
  }

  lemma {:induction false} DecisionKeepsSound(s: Schedule, e: EventId, m: Move)
    requires Sound(s, {e}) && MayDecide(s, e, m)
    ensures Sound(Settle(Decide(s, e, m), e), {})
    ensures Settle(Decide(s, e, m), e).now == s.now
  {
    hide Sound, Complete, Waits, WaitsOn, Block, Deschedule;
    RunningIsUnscheduled(s, e);
    match m
    case Finish =>
      FinishKeepsSound(s, e);
    case Again(delay) =>
      AddKeepsSound(s, {e}, e, delay);
      assert {e} - {e} == {};
    case HandOver(d, delay) =>
      HandOverKeepsSound(s, e, d, delay);
    case AwaitAll(ds) =>
      AwaitAllKeepsSound(s, e, ds);
  }

  /** A turn that follows the protocol keeps the scheduler sound, and time does not go back. */
  lemma {:induction false} TurnKeepsSound(s: Schedule, t: Turn)
    requires Sound(s, {}) && s.queue != [] && Follows(s, t)
    ensures Sound(TakeTurn(s, t), {})
    ensures s.now <= TakeTurn(s, t).now
  {
    var e := s.queue[FirstMin(s.queue)].id;
    PopKeepsSound(s);
    SpawnKeepsSound(Pop(s), {e}, t.spawned);
    DecisionKeepsSound(SpawnAll(Pop(s), t.spawned), e, t.move);
  }

  /** Starting from a waiting event, going to an event it waits on can only be repeated until a queued
      event is reached. */
  lemma {:induction false} WaitsForQueued(s: Schedule, rank: seq<nat>, x: EventId) returns (y: EventId)
    requires Sound(s, {}) && Ranked(s.dents, rank) && Waits(s, x)
    ensures y in Due(s.queue)
    decreases rank[x]
  {
    var d: EventId :| x in s.dents[d];
    if d in Due(s.queue) {
      y := d;
    } else {
      y := WaitsForQueued(s, rank, d);
    }
  }

  /** No deadlock: when the loop stops because the queue is empty, no event is waiting. */
  lemma {:induction false} EmptyQueueMeansNoneWaiting(s: Schedule)
    requires Sound(s, {}) && s.queue == []
    ensures forall x: EventId :: !Waits(s, x) && s.deps[x] == {} && s.dents[x] == {}
  {
    var rank :| Ranked(s.dents, rank);
    forall x: EventId
      ensures !Waits(s, x) && s.deps[x] == {}
    {
      if Waits(s, x) {
        var y := WaitsForQueued(s, rank, x);
        assert false;
      }
      assert Recorded(s, x);
    }
    forall d: EventId
      ensures s.dents[d] == {}
    {
      if s.dents[d] != {} {
        var x :| x in s.dents[d];
        assert Waits(s, x);
      }
    }
  }

  /** A run of the loop; it stops when the queue is empty. */
  function RunTurns(s: Schedule, turns: seq<Turn>): Schedule
    decreases |turns|
  {
    if turns == [] || s.queue == [] then s else RunTurns(TakeTurn(s, turns[0]), turns[1..])
  }

  ghost predicate AllFollow(s: Schedule, turns: seq<Turn>)
    decreases |turns|
  {
    turns != [] && s.queue != [] ==> Follows(s, turns[0]) && AllFollow(TakeTurn(s, turns[0]), turns[1..])
  }

  lemma {:induction false} InitiallySound()
    ensures Sound(Initial(), {})
  {
    var s := Initial();
    assert Ranked(s.dents, seq(MAX_EVENTS, i => 0));
    assert forall x: EventId :: Recorded(s, x);
  }

  /** Over any run of clients that follow the protocol, the scheduler stays sound, executed ticks never
      decrease, the queue never outgrows its 64 places, and if it runs empty no event is left waiting. */
  lemma {:induction false} RunsAreSound(s: Schedule, turns: seq<Turn>)
    requires Sound(s, {}) && AllFollow(s, turns)
    ensures var t := RunTurns(s, turns);
      && Sound(t, {}) && s.now <= t.now && |t.queue| <= MAX_EVENTS
      && (t.queue == [] ==> forall x: EventId :: !Waits(t, x))
    decreases |turns|
  {
    if turns == [] || s.queue == [] {
      SizeOfQueue(s.queue);
      if s.queue == [] {
        EmptyQueueMeansNoneWaiting(s);
      }
    } else {
      TurnKeepsSound(s, turns[0]);
      RunsAreSound(TakeTurn(s, turns[0]), turns[1..]);
    }
  }

  /** So does any run from the start: clients schedule idle events, and then the loop runs. */
  lemma {:induction false} StartedRunsAreSound(spawned: seq<(EventId, nat)>, turns: seq<Turn>)
    requires MaySpawn(Initial(), {}, spawned) && AllFollow(SpawnAll(Initial(), spawned), turns)
    ensures var t := RunTurns(SpawnAll(Initial(), spawned), turns);
      && Sound(t, {}) && |t.queue| <= MAX_EVENTS
      && (t.queue == [] ==> forall x: EventId :: !Waits(t, x))
  {
    hide Sound, Initial, MaySpawn, AllFollow;
    InitiallySound();
    SpawnKeepsSound(Initial(), {}, spawned);
    RunsAreSound(SpawnAll(Initial(), spawned), turns);
  }

  /* What happens without the protocol. */

  /** An event that hands over while others wait on it is completed by the loop at once: exactly those
      others that wait on nothing else are queued now, while the event itself still waits. */
  lemma {:induction false} HandOverReleasesWaiters(s: Schedule, e: EventId, d: EventId, delay: nat)
    requires Sound(s, {e}) && Idle(s, d) && d != e && s.now + delay < TICK_LIMIT
    ensures var t := Settle(Decide(s, e, HandOver(d, delay)), e);
      && NoDup(t.queue) && e in t.dents[d] && e !in Due(t.queue)
      && Extends(Due(t.queue), Due(s.queue)[d := s.now + delay], Woken(s, e), s.now)
  {
    hide Sound, Idle, Over, Wake, Ready, NoDup, Due, Complete, Extends;
    var u := Over(s, d, e, delay);
    HandOverFacts(s, e, d);
    WaitersAreOut(s, e);
    OverQueues(s, d, e, delay);
    OverWoken(s, d, e, delay);
    WakeQueues(u, e, s.dents[e]);
    CompleteEffect(u, e);
    NotExtended(Due(Wake(u, e, s.dents[e]).queue), Due(u.queue), Woken(s, e), s.now, e);
  }

  lemma {:induction false} OverQueues(s: Schedule, d: EventId, e: EventId, delay: nat)
    requires NoDup(s.queue) && d !in Due(s.queue) && e !in Due(s.queue) && s.now + delay < TICK_LIMIT
    ensures var q := Over(s, d, e, delay).queue;
      NoDup(q) && Due(q) == Due(s.queue)[d := s.now + delay]
  {
    hide NoDup, Due, Over, Cut;
    HandedOver(s, d, e, delay);
    assert Due(s.queue) - {e} == Due(s.queue);
    CutSmall(s.now + delay);
  }

  lemma {:induction false} NotExtended(r: map<EventId, nat>, m: map<EventId, nat>, ids: set<EventId>, tick: nat,
        x: EventId)
    requires Extends(r, m, ids, tick) && x !in m && x !in ids
    ensures x !in r
  {
  }

  lemma {:induction false} WaitersAreOut(s: Schedule, e: EventId)
    requires Sound(s, {e})
    ensures NoDup(s.queue) && s.dents[e] !! Due(s.queue).Keys && e !in s.dents[e] && e !in Woken(s, e)
    ensures forall d: EventId :: Idle(s, d) ==> d !in s.dents[e]
  {
    assert forall w :: w in s.dents[e] ==> Waits(s, w);
  }

  lemma {:induction false} CutSmall(tick: nat)
    requires tick < TICK_LIMIT
    ensures Cut(tick) == tick
  {
  }

  lemma {:induction false} OverWoken(s: Schedule, d: EventId, e: EventId, delay: nat)
    requires d != e && e !in s.dents[e]
    ensures var u := Over(s, d, e, delay);
      && u.dents[e] == s.dents[e] && Ready(u, e, s.dents[e]) == Woken(s, e) && u.now == s.now
      && e in u.dents[d] && e !in u.scheduled
  {
  }

  /** pause only rejects direct self-dependency, so two events can pause on each other: the queue is
      then empty and both wait for ever. */
  lemma {:induction false} MutualPauseDeadlocks()
    ensures var s := Pause(Pause(Initial(), 0, {1}), 1, {0});
      s.queue == [] && Waits(s, 0) && Waits(s, 1) && !Acyclic(s.dents)
  {
    var s := Pause(Pause(Initial(), 0, {1}), 1, {0});
    assert 0 in s.dents[1] && 1 in s.dents[0];
    forall rank: seq<nat>
      ensures !Ranked(s.dents, rank)
    {
      assert |rank| == MAX_EVENTS ==> !(rank[0] < rank[1] && rank[1] < rank[0]);
    }
  }
}
