/** How the parts of the running system fit together between turns of the loop: which slots are in use,
    what is queued, and who waits on whom. */
module SystemStructure {
  import opened Arithmetic
  import opened Slots
  import opened Schedules
  import opened Queues
  import opened Events
  import opened Pools
  import opened Machine
  import opened Options
  import opened Systems
  import Protocol

  /** The memory request that each CPU is waiting for, if it is waiting for one. */
  type Pending = seq<Option<EventId>>

  /** The queued event that will move CPU `i` on: its request, or its clock event. */
  ghost function Where(w: Pending, i: nat): EventId
    requires i < |w| <= 32
  {
    if w[i].Some? then w[i].value else i
  }

  /** The CPU that an event in use belongs to. */
  ghost function Owner(n: nat, slots: SlotArray, x: EventId): nat {
    if x < n then x else slots[x].buffer
  }

  /** The CPU has asked for a clock, and its clock event has its scheduled bit set. */
  predicate Resting(c: Cpu) {
    c.coro.NotStarted? || c.coro.AtClock?
  }

  /** Slot `i` holds the clock event of CPU `i`. */
  ghost predicate HasReceipts(cfg: Config, slots: SlotArray)
    requires |cfg.clockOf| <= 32
  {
    forall i :: 0 <= i < |cfg.clockOf| ==> slots[i] == Receipt(cfg, i)
  }

  /** Every CPU has exactly one event in the queue, and every queued event belongs to a CPU. */
  ghost predicate OneEach(n: nat, w: Pending, due: map<EventId, nat>, slots: SlotArray)
    requires n == |w| <= 32
  {
    && (forall i :: 0 <= i < n && w[i].Some? ==> n <= w[i].value && slots[w[i].value].buffer == i)
    && (forall i :: 0 <= i < n ==> Where(w, i) in due)
    && (forall x :: x in due ==> Owner(n, slots, x) < n && Where(w, Owner(n, slots, x)) == x)
  }

  /** The slots in use are the clock events and the queued requests. */
  ghost predicate UsedOk(n: nat, due: map<EventId, nat>, used: set<EventId>) {
    forall x: EventId :: x in used <==> x < n || x in due
  }

  /** The scheduled bits while the events of `running` (the popped one, or none) are being handled. */
  ghost predicate ScheduledOk(cpus: seq<Cpu>, due: map<EventId, nat>, scheduled: set<EventId>,
                              running: set<EventId>)
  {
    forall x: EventId :: x in scheduled <==>
      x !in running && if x < |cpus| then Resting(cpus[x]) else x in due
  }

  /** The clock event of a CPU waits on its queued request, and nothing else waits on anything. */
  ghost predicate EdgesOk(n: nat, due: map<EventId, nat>, slots: SlotArray, deps: Graph, dents: Graph) {
    && (forall x: EventId :: deps[x] == {})
    && (forall x: EventId :: x < n || x !in due ==> dents[x] == {})
    && (forall x: EventId :: n <= x && x in due ==>
          slots[x].buffer < MAX_EVENTS && dents[x] == {slots[x].buffer})
  }

  /** The parts fit together, with the events of `due` queued or running. */
  ghost predicate Placed(cfg: Config, s: Sim, w: Pending, due: map<EventId, nat>, running: set<EventId>) {
    var n := |cfg.clockOf|;
    && Shaped(cfg, s) && |w| == n
    && HasReceipts(cfg, s.pool.slots)
    && OneEach(n, w, due, s.pool.slots)
    && UsedOk(n, due, s.pool.used)
    && ScheduledOk(s.cpus, due, s.sched.scheduled, running)
    && EdgesOk(n, due, s.pool.slots, s.sched.deps, s.sched.dents)
  }

  /** While `e` runs, its tick is the current one. */
  ghost function DueWith(s: Schedule, e: EventId): map<EventId, nat> {
    Due(s.queue)[e := s.now]
  }

  ghost predicate Popped(s: Schedule, e: EventId) {
    NoDup(s.queue) && e !in Due(s.queue)
  }

  lemma {:induction false} PopEffect(s: Schedule, k: nat)
    requires NoDup(s.queue) && k < |s.queue|
    ensures var (p, e) := (PopAt(s, k), s.queue[k].id);
      && Popped(p, e) && e in Due(s.queue) && DueWith(p, e) == Due(s.queue)
      && p.now == Due(s.queue)[e] && p.scheduled == s.scheduled - {e}
      && p.deps == s.deps && p.dents == s.dents
  {
    Queued(s.queue, k);
    Taken(s.queue, k);
  }

  lemma {:induction false} PopKeepsPlaced(cfg: Config, s: Sim, w: Pending, due: map<EventId, nat>, p: Schedule,
        e: EventId)
    requires Placed(cfg, s, w, due, {})
    requires p.scheduled == s.sched.scheduled - {e} && p.deps == s.sched.deps && p.dents == s.sched.dents
    ensures Placed(cfg, s.(sched := p), w, due, {e})
  {
  }

  /** Two CPUs never have the same event. */
  lemma {:induction false} OwnersDiffer(n: nat, slots: SlotArray, w: Pending, due: map<EventId, nat>, i: nat, j: nat)
    requires n == |w| <= 32 && OneEach(n, w, due, slots) && i < |w| && j < |w| && i != j
    ensures Where(w, i) != Where(w, j)
  {
    assert Owner(n, slots, Where(w, i)) == i;
    assert Owner(n, slots, Where(w, j)) == j;
  }

  /* Slots never run out. */

  /** A set that is mapped one to one into another is not larger. */
  lemma {:induction false} OneToOne<T(!new), U>(f: T -> U, xs: set<T>, ys: set<U>)
    requires forall x :: x in xs ==> f(x) in ys
    requires forall x, y :: x in xs && y in xs && f(x) == f(y) ==> x == y
    ensures |xs| <= |ys|
    decreases |xs|
  {
    if xs == {} {
    } else {
      var x :| x in xs;
      OneToOne(f, xs - {x}, ys - {f(x)});
    }
  }

  ghost function Below(n: nat): (s: set<nat>)
    ensures |s| == n && forall i: nat :: i in s <==> i < n
  {
    if n == 0 then {} else Below(n - 1) + {n - 1}
  }

  lemma {:induction false} RequestsBelongToOthers(n: nat, slots: SlotArray, w: Pending, due: map<EventId, nat>,
                               i: nat, requests: set<EventId>)
    requires n == |w| <= 32 && OneEach(n, w, due, slots) && i < n && w[i].None?
    requires forall x :: x in requests ==> n <= x && x in due
    ensures |requests| <= n - 1
  {
    forall x | x in requests
      ensures Owner(n, slots, x) in Below(n) - {i}
    {
      assert Where(w, Owner(n, slots, x)) == x;
    }
    OneToOne((x: EventId) => Owner(n, slots, x), requests, Below(n) - {i});
  }

  /** While CPU `i` has no request, the others have at most 31, so a slot is free. */
  lemma {:induction false} SlotIsFree(cfg: Config, s: Sim, w: Pending, due: map<EventId, nat>, running: set<EventId>,
        i: nat)
    requires Placed(cfg, s, w, due, running) && i < |w| && w[i].None?
    ensures !Full(s.pool)
  {
    var n := |w|;
    var clocks := set x: EventId | x in s.pool.used && x < n;
    var requests := set x: EventId | x in s.pool.used && n <= x;
    assert s.pool.used == clocks + requests;
    OneToOne((x: EventId) => x as nat, clocks, Below(n));
    RequestsBelongToOthers(n, s.pool.slots, w, due, i, requests);
  }

  /** The queue holds exactly one event of each CPU. */
  lemma {:induction false} OneEventEach(n: nat, w: Pending, due: map<EventId, nat>, slots: SlotArray)
    requires n == |w| <= 32 && OneEach(n, w, due, slots)
    ensures |due.Keys| == n
  {
    AtMostOneEach(n, w, due, slots);
    AtLeastOneEach(n, w, due, slots, n);
  }

  lemma {:induction false} AtMostOneEach(n: nat, w: Pending, due: map<EventId, nat>, slots: SlotArray)
    requires n == |w| <= 32 && OneEach(n, w, due, slots)
    ensures |due.Keys| <= n
  {
    var owner := (x: EventId) => Owner(n, slots, x);
    forall x | x in due.Keys
      ensures owner(x) in Below(n) && Where(w, owner(x)) == x
    {
    }
    OneToOne(owner, due.Keys, Below(n));
  }

  ghost function EventsOf(w: Pending, k: nat): set<EventId>
    requires k <= |w| <= 32
  {
    if k == 0 then {} else EventsOf(w, k - 1) + {Where(w, k - 1)}
  }

  lemma {:induction false} AtLeastOneEach(n: nat, w: Pending, due: map<EventId, nat>, slots: SlotArray, k: nat)
    requires k <= n == |w| <= 32 && OneEach(n, w, due, slots)
    ensures forall x :: x in EventsOf(w, k) ==> x in due && Owner(n, slots, x) < k
    ensures |EventsOf(w, k)| == k <= |due.Keys|
  {
    hide OneEach, Where, Owner;
    if k == 0 {
    } else {
      AtLeastOneEach(n, w, due, slots, k - 1);
      WhoseEvent(n, w, due, slots, k - 1);
    }
    SubsetSize(EventsOf(w, k), due.Keys);
  }

  lemma {:induction false} WhoseEvent(n: nat, w: Pending, due: map<EventId, nat>, slots: SlotArray, i: nat)
    requires i < n == |w| <= 32 && OneEach(n, w, due, slots)
    ensures Where(w, i) in due && Owner(n, slots, Where(w, i)) == i
  {
  }

  lemma {:induction false} SubsetSize(a: set<EventId>, b: set<EventId>)
    requires a <= b
    ensures |a| <= |b|
  {
    OneToOne((x: EventId) => x, a, b);
  }
}
