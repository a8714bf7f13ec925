/** The state of bin/simexp/event_scheduler.hpp as a value, and what each operation does to it. The
    class in event_scheduler.dfy performs these operations in place and is proved to agree with them. */
module Schedules {
  import opened Arithmetic
  import opened Slots

  const TICK_LIMIT := 0x1_0000_0000_0000

  /** ScheduledEvent: the tick field has 48 bits. */
  datatype Entry = Entry(tick: nat, id: EventId)

  /** The low 48 bits of a tick. */
  function Cut(tick: nat): nat {
    if tick < TICK_LIMIT then tick else Cut(tick - TICK_LIMIT)
  }

  lemma {:induction false} CutIsRemainder(tick: nat)
    ensures Cut(tick) == tick % TICK_LIMIT
  {
    if tick < TICK_LIMIT {
    } else {
      CutIsRemainder(tick - TICK_LIMIT);
    }
  }

  lemma {:induction false} CutFits(x: nat)
    ensures Cut(x) < TICK_LIMIT
  {
    if x < TICK_LIMIT {
    } else {
      CutFits(x - TICK_LIMIT);
    }
  }

  function Stamp(tick: nat, id: EventId): Entry {
    Entry(Cut(tick), id)
  }

  datatype Schedule = Schedule(
    queue: seq<Entry>,
    now: nat,
    scheduled: set<EventId>,
    deps: Graph,
    dents: Graph,
    executed: nat)

  function NoEdges(): Graph {
    seq(MAX_EVENTS, i => {})
  }

  function Initial(): Schedule {
    Schedule([], 0, {}, NoEdges(), NoEdges(), 0)
  }

  function Skip(s: Schedule, ticks: nat): Schedule {
    s.(now := (s.now + ticks) % U64_LIMIT)
  }

  function Add(s: Schedule, id: EventId, delay: nat): Schedule {
    s.(queue := s.queue + [Stamp(s.now + delay, id)], scheduled := s.scheduled + {id})
  }

  /** The position of the first entry for `id`, or the queue's length. */
  function Find(q: seq<Entry>, id: EventId): (k: nat)
    ensures k <= |q|
    ensures k < |q| ==> q[k].id == id
    ensures forall j :: 0 <= j < k ==> q[j].id != id
  {
    FindFrom(q, id, 0)
  }

  function FindFrom(q: seq<Entry>, id: EventId, i: nat): (k: nat)
    requires i <= |q|
    ensures i <= k <= |q|
    ensures k < |q| ==> q[k].id == id
    ensures forall j :: i <= j < k ==> q[j].id != id
    decreases |q| - i
  {
    if i == |q| || q[i].id == id then i else FindFrom(q, id, i + 1)
  }

  lemma {:induction false} FindUnique(q: seq<Entry>, id: EventId, k: nat)
    requires k <= |q| && (k < |q| ==> q[k].id == id)
    requires forall j :: 0 <= j < k ==> q[j].id != id
    ensures Find(q, id) == k
  {
  }

  function Over(s: Schedule, dependee: EventId, dependent: EventId, delay: nat): Schedule {
    var k := Find(s.queue, dependent);
    var e := Stamp(s.now + delay, dependee);
    s.(deps := s.deps[dependent := s.deps[dependent] + {dependee}],
       dents := s.dents[dependee := s.dents[dependee] + {dependent}],
       scheduled := s.scheduled - {dependent} + {dependee},
       queue := if k < |s.queue| then s.queue[k := e] else s.queue + [e])
  }

  /** Record `dependent` as blocked by every member of `dependees`. */
  function Block(g: Graph, dependees: set<EventId>, dependent: EventId): (r: Graph)
  {
    seq(MAX_EVENTS, d requires 0 <= d < MAX_EVENTS => if d in dependees then g[d] + {dependent} else g[d])
  }

  /** std::min_element: the first of the entries with the least tick. */
  function FirstMin(q: seq<Entry>): (k: nat)
    requires q != []
    ensures k < |q|
    ensures forall j :: 0 <= j < |q| ==> q[k].tick <= q[j].tick
    ensures forall j :: 0 <= j < k ==> q[k].tick < q[j].tick
  {
    if |q| == 1 then 0
    else
      var m := FirstMin(q[..|q| - 1]);
      if q[|q| - 1].tick < q[m].tick then |q| - 1 else m
  }

  function Swap(q: seq<Entry>, i: nat, j: nat): (r: seq<Entry>)
    requires i < |q| && j < |q|
    ensures |r| == |q|
  {
    q[i := q[j]][j := q[i]]
  }

  lemma {:induction false} SwapContents(q: seq<Entry>, i: nat, j: nat)
    requires i < |q| && j < |q|
    ensures multiset(Swap(q, i, j)) == multiset(q)
  {
  }

  /** resort_queue */
  function Resort(q: seq<Entry>): (r: seq<Entry>)
    ensures |r| == |q|
    ensures forall j :: 0 <= j < |r| ==> r[0].tick <= r[j].tick
  {
    if |q| <= 1 then q
    else
      Swap(q, FirstMin(q), 0)
  }

  lemma {:induction false} ResortFirst(q: seq<Entry>)
    requires q != []
    ensures Resort(q) == Swap(q, FirstMin(q), 0)
  {
  }

  /** Fill position `k` with the last entry and shorten the queue by one. */
  function Fill(q: seq<Entry>, k: nat): (r: seq<Entry>)
    requires k < |q|
    ensures |r| == |q| - 1
  {
    var last := |q| - 1;
    if k == last then q[..last] else q[k := q[last]][..last]
  }

  lemma {:induction false} FillContents(q: seq<Entry>, k: nat)
    requires k < |q|
    ensures multiset(Fill(q, k)) == multiset(q) - multiset{q[k]}
  {
    var last := |q| - 1;
    var front, e := q[..last], q[last];
    assert q == front + [e];
    if k < last {
      assert q[k := e][..last] == front[k := e];
      assert multiset(front[k := e]) == multiset(front) - multiset{front[k]} + multiset{e};
    }
  }

  /** next_event moves a least entry to the front, takes it, and fills the front with the last entry. */
  function TakeFront(q: seq<Entry>, k: nat): (r: seq<Entry>)
    requires k < |q|
    ensures |r| == |q| - 1
  {
    Fill(Swap(q, k, 0), 0)
  }

  /** Remove the first entry for `id`, as pause does: fill its hole with the last entry, and resort
      only when the hole was at the front. */
  function Deschedule(q: seq<Entry>, id: EventId): seq<Entry> {
    var k := Find(q, id);
    if k == |q| then q
    else if k == 0 then Resort(Fill(q, 0))
    else Fill(q, k)
  }

  function Pause(s: Schedule, dependent: EventId, dependees: set<EventId>): Schedule {
    s.(scheduled := s.scheduled + {dependent},
       deps := s.deps[dependent := s.deps[dependent] + dependees],
       dents := Block(s.dents, dependees, dependent),
       queue := Deschedule(s.queue, dependent))
  }

  /** next_event when entry `k` is the least one it finds. */
  function PopAt(s: Schedule, k: nat): Schedule
    requires k < |s.queue|
  {
    s.(queue := TakeFront(s.queue, k),
       now := s.queue[k].tick,
       scheduled := s.scheduled - {s.queue[k].id},
       executed := s.executed + 1)
  }

  /** next_event */
  function Pop(s: Schedule): Schedule
    requires s.queue != []
  {
    PopAt(s, FirstMin(s.queue))
  }

  /** One turn of complete's loop. */
  function WakeOne(s: Schedule, done: EventId, w: EventId): Schedule {
    var left := s.deps[w] - {done};
    s.(deps := s.deps[w := left], queue := if left == {} then s.queue + [Stamp(s.now, w)] else s.queue)
  }

  /** complete's loop over `bits`, lowest first. */
  function Wake(s: Schedule, done: EventId, bits: set<EventId>): Schedule
    decreases |bits|
  {
    if bits == {} then s
    else
      var w := Least(bits);
      Wake(WakeOne(s, done, w), done, bits - {w})
  }

  function Complete(s: Schedule, done: EventId): Schedule {
    var s' := Wake(s, done, s.dents[done]);
    s'.(dents := s'.dents[done := {}], deps := s'.deps[done := {}])
  }

  /** Those of `bits` that wait on nothing but `done`. */
  function Ready(s: Schedule, done: EventId, bits: set<EventId>): set<EventId> {
    set w | w in bits && s.deps[w] <= {done}
  }

  /** The events that completing `done` puts back in the queue. */
  function Woken(s: Schedule, done: EventId): set<EventId> {
    Ready(s, done, s.dents[done])
  }

  lemma {:induction false} ReadyShrinks(s: Schedule, done: EventId, bits: set<EventId>, w: EventId)
    requires w in bits
    ensures Ready(WakeOne(s, done, w), done, bits - {w}) == Ready(s, done, bits) - {w}
    ensures w in Ready(s, done, bits) <==> s.deps[w] - {done} == {}
  {
  }
}
