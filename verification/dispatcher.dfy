/** The dispatcher of bin/simexp/event_dispatch.hpp and event_dispatch.cpp: a flat table from
    (source device, event type) to a handler id, a table from ids to handlers, and filters chained in
    front of a handler. */
module Dispatchers {
  import opened Events

  datatype Key = Key(source: DeviceId, etype: EventType)

  /** The position of a key; it fits in the u16 of the source. */
  function Hash(k: Key): (h: nat)
    ensures h < 0x1_0000
    ensures k.source * TYPE_COUNT <= h < (k.source + 1) * TYPE_COUNT
  {
    k.source * TYPE_COUNT + TypeCode(k.etype)
  }

  lemma {:induction false} HashInjective(a: Key, b: Key)
    requires Hash(a) == Hash(b)
    ensures a == b
  {
  }

  /** A registered device, or a filter in front of handler `previous`. Null entries are Absent. */
  datatype Handler = Absent | Device | Filter(previous: DeviceId)

  function Resize<T>(s: seq<T>, n: nat, x: T): (r: seq<T>)
    ensures |r| == if |s| < n then n else |s|
    ensures s <= r
    ensures forall i :: |s| <= i < |r| ==> r[i] == x
  {
    if |s| < n then s + seq(n - |s|, i => x) else s
  }

  /** What the flat table says about a key; 0 if it says nothing. */
  function Lookup(table: seq<DeviceId>, k: Key): DeviceId {
    if Hash(k) < |table| then table[Hash(k)] else 0
  }

  function HandlerFor(table: seq<DeviceId>, k: Key): DeviceId {
    if k.source >= |table| / TYPE_COUNT then 0
    else
      var h := table[Hash(k)];
      if h == 0 || h >= |table| then 0 else h
  }

  class EventDispatcher {
    var handlers: seq<Handler>
    var table: seq<DeviceId>

    constructor ()
      ensures handlers == [] && table == []
    {
      handlers, table := [], [];
    }

    method AddHandler(id: DeviceId, handler: Handler)
      modifies this`handlers
      ensures handlers == AddIn(old(handlers), id, handler)
    {
      if |handlers| < id + 1 {
        handlers := Resize(handlers, id + 1, Absent);
      }
      handlers := handlers[id := handler];
    }

    method MapHandler(k: Key, handler: DeviceId)
      modifies this`table
      ensures table == MapIn(old(table), k, handler)
    {
      if |table| < (k.source + 1) * TYPE_COUNT {
        table := Resize(table, (k.source + 1) * TYPE_COUNT, 0);
      }
      table := table[Hash(k) := handler];
    }

    method InstallFilter(id: DeviceId, k: Key)
      modifies this
      ensures Routing(table, handlers) == Install(Routing(old(table), old(handlers)), k, id)
    {
      var previous := HandlerFor(table, k);
      AddHandler(id, Filter(previous));
      MapHandler(k, id);
    }

    /** dispatch throws when no handler is registered for the event. */
    method Dispatch(k: Key) returns (target: DeviceId, ok: bool)
      requires Hash(k) < |table| && table[Hash(k)] < |handlers|
      ensures target == Lookup(table, k)
      ensures ok <==> target != 0 && handlers[target] != Absent
    {
      target := table[Hash(k)];
      ok := target != 0 && handlers[target] != Absent;
    }
  }

  function MapIn(table: seq<DeviceId>, k: Key, handler: DeviceId): (r: seq<DeviceId>)
    ensures Hash(k) < |r|
  {
    Resize(table, (k.source + 1) * TYPE_COUNT, 0)[Hash(k) := handler]
  }

  function AddIn(handlers: seq<Handler>, id: DeviceId, h: Handler): (r: seq<Handler>)
    ensures id < |r|
  {
    Resize(handlers, id + 1, Absent)[id := h]
  }

  /** One map_handler call: the key gets the handler and every other key keeps its own. */
  lemma {:induction false} MapChangesOneKey(table: seq<DeviceId>, k: Key, handler: DeviceId, other: Key)
    ensures Lookup(MapIn(table, k, handler), other) == if other == k then handler else Lookup(table, other)
  {
    if Hash(other) == Hash(k) {
      HashInjective(other, k);
    }
  }

  function MapAll(calls: seq<(Key, DeviceId)>): (table: seq<DeviceId>)
    ensures |table| % TYPE_COUNT == 0
  {
    if calls == [] then []
    else
      var (k, h) := calls[|calls| - 1];
      MapIn(MapAll(calls[..|calls| - 1]), k, h)
  }

  /** The handler that the last call for `k` gave it. */
  function LastMapped(calls: seq<(Key, DeviceId)>, k: Key): DeviceId {
    if calls == [] then 0
    else if calls[|calls| - 1].0 == k then calls[|calls| - 1].1
    else LastMapped(calls[..|calls| - 1], k)
  }

  /** After any calls of map_handler, the flat table is the map from each key to its last handler. */
  lemma {:induction false} TableIsLastMapped(calls: seq<(Key, DeviceId)>, k: Key)
    ensures Lookup(MapAll(calls), k) == LastMapped(calls, k)
  {
    if calls == [] {
    } else {
      var front := calls[..|calls| - 1];
      var (last, h) := calls[|calls| - 1];
      TableIsLastMapped(front, k);
      MapChangesOneKey(MapAll(front), last, h, k);
    }
  }

  /** handler_for compares the handler's id with the size of the dispatch table, which has nothing to do
      with the ids of handlers: it reports a mapped handler exactly when the id is below that size. */
  lemma {:induction false} HandlerForFindsSmallIds(calls: seq<(Key, DeviceId)>, k: Key)
    ensures HandlerFor(MapAll(calls), k) == LastMapped(calls, k)
      <==> LastMapped(calls, k) == 0 || LastMapped(calls, k) < |MapAll(calls)|
  {
    TableIsLastMapped(calls, k);
  }

  /* Filters. */

  datatype Routing = Routing(table: seq<DeviceId>, handlers: seq<Handler>)

  /** install_filter */
  function Install(r: Routing, k: Key, id: DeviceId): Routing {
    Routing(MapIn(r.table, k, id), AddIn(r.handlers, id, Filter(HandlerFor(r.table, k))))
  }

  /** Install the filters `ids` in front of whatever handles `k`, oldest first. */
  function InstallAll(r: Routing, k: Key, ids: seq<DeviceId>): Routing {
    if ids == [] then r else Install(InstallAll(r, k, ids[..|ids| - 1]), k, ids[|ids| - 1])
  }

  /** Handling an event at `id` visits exactly the handlers of `path`: a filter that accepts the event
      passes it to the handler it was installed in front of, if there is one. */
  ghost predicate Visits(handlers: seq<Handler>, accepts: DeviceId -> bool, id: DeviceId, path: seq<DeviceId>)
    decreases |path|
  {
    && path != [] && path[0] == id && id < |handlers|
    && match handlers[id]
       case Absent => false
       case Device => |path| == 1
       case Filter(previous) =>
         if accepts(id) && previous < |handlers| && handlers[previous] != Absent
         then Visits(handlers, accepts, previous, path[1..])
         else |path| == 1
  }

  /** Newest filter to oldest, then the base handler, up to the first filter that rejects. */
  function NewestFirst(ids: seq<DeviceId>, base: DeviceId, accepts: DeviceId -> bool): seq<DeviceId> {
    if ids == [] then [base]
    else
      var newest := ids[|ids| - 1];
      if accepts(newest) then [newest] + NewestFirst(ids[..|ids| - 1], base, accepts) else [newest]
  }

  function Front(ids: seq<DeviceId>, base: DeviceId): DeviceId {
    if ids == [] then base else ids[|ids| - 1]
  }

  ghost predicate Chain(handlers: seq<Handler>, ids: seq<DeviceId>, base: DeviceId) {
    && base < |handlers| && handlers[base] == Device
    && forall i :: 0 <= i < |ids| ==>
         ids[i] < |handlers| && handlers[ids[i]] == Filter(Front(ids[..i], base))
  }

  /** The ids of the filters are unused, distinct, and small enough for handler_for to report them. */
  ghost predicate FreshIds(r: Routing, base: DeviceId, ids: seq<DeviceId>) {
    && (forall i :: 0 <= i < |ids| ==> 0 < ids[i] < |r.table| && ids[i] != base)
    && (forall i, j :: 0 <= i < j < |ids| ==> ids[i] != ids[j])
  }

  lemma {:induction false} InstallBuildsChain(r: Routing, k: Key, ids: seq<DeviceId>, base: DeviceId)
    requires Hash(k) < |r.table| && |r.table| % TYPE_COUNT == 0
    requires Lookup(r.table, k) == base && 0 < base < |r.table|
    requires base < |r.handlers| && r.handlers[base] == Device
    requires FreshIds(r, base, ids)
    ensures var t := InstallAll(r, k, ids);
      && |t.table| == |r.table|
      && Lookup(t.table, k) == Front(ids, base)
      && Chain(t.handlers, ids, base)
  {
    if ids == [] {
    } else {
      var front, newest := ids[..|ids| - 1], ids[|ids| - 1];
      InstallBuildsChain(r, k, front, base);
      var t := InstallAll(r, k, front);
      assert 0 < Front(front, base) < |r.table|;
      InstallKeepsTable(t, k, newest, Front(front, base));
      ChainGrows(t.handlers, front, base, newest);
      assert front + [newest] == ids;
    }
  }

  lemma {:induction false} InstallKeepsTable(t: Routing, k: Key, id: DeviceId, current: DeviceId)
    requires Hash(k) < |t.table| && |t.table| % TYPE_COUNT == 0
    requires Lookup(t.table, k) == current && 0 < current < |t.table|
    ensures var u := Install(t, k, id);
      |u.table| == |t.table| && Lookup(u.table, k) == id && u.handlers == AddIn(t.handlers, id, Filter(current))
  {
  }

  lemma {:induction false} ChainGrows(handlers: seq<Handler>, front: seq<DeviceId>, base: DeviceId, newest: DeviceId)
    requires Chain(handlers, front, base) && newest != base
    requires forall i :: 0 <= i < |front| ==> front[i] != newest
    ensures Chain(AddIn(handlers, newest, Filter(Front(front, base))), front + [newest], base)
  {
    hide Front;
    var ids := front + [newest];
    var grown := AddIn(handlers, newest, Filter(Front(front, base)));
    forall i | 0 <= i < |ids|
      ensures ids[i] < |grown| && grown[ids[i]] == Filter(Front(ids[..i], base))
    {
      if i < |front| {
        assert ids[..i] == front[..i];
      } else {
        assert ids[..i] == front;
      }
    }
  }

  lemma {:induction false} ChainIsVisited(handlers: seq<Handler>, ids: seq<DeviceId>, base: DeviceId,
                                          accepts: DeviceId -> bool)
    requires Chain(handlers, ids, base)
    ensures Visits(handlers, accepts, Front(ids, base), NewestFirst(ids, base, accepts))
  {
    if ids == [] {
    } else {
      var front, newest := ids[..|ids| - 1], ids[|ids| - 1];
      assert forall i :: 0 <= i < |front| ==> front[..i] == ids[..i];
      ChainIsVisited(handlers, front, base, accepts);
      if front != [] {
        assert handlers[front[|front| - 1]].Filter?;
      }
      if accepts(newest) {
        assert NewestFirst(ids, base, accepts)[1..] == NewestFirst(front, base, accepts);
      }
    }
  }

  lemma {:induction false} VisitedOnce(ids: seq<DeviceId>, base: DeviceId, accepts: DeviceId -> bool)
    requires forall i :: 0 <= i < |ids| ==> ids[i] != base
    requires forall i, j :: 0 <= i < j < |ids| ==> ids[i] != ids[j]
    ensures var path := NewestFirst(ids, base, accepts);
      && (forall d :: d in path ==> d == base || d in ids)
      && forall i, j :: 0 <= i < j < |path| ==> path[i] != path[j]
  {
    if ids == [] {
    } else {
      var front, newest := ids[..|ids| - 1], ids[|ids| - 1];
      VisitedOnce(front, base, accepts);
      assert forall d :: d in front ==> d in ids && d != newest;
      var rest := NewestFirst(front, base, accepts);
      assert newest !in front && newest != base;
      assert newest !in rest;
      assert forall j :: 0 <= j < |rest| ==> rest[j] != newest;
    }
  }

  /** After installing any number of filters with fresh ids below the table size, an event with key `k`
      visits the filters from newest to oldest and then the base handler, each once, stopping at the
      first filter that rejects it. */
  lemma {:induction false} FiltersRunNewestFirst(r: Routing, k: Key, ids: seq<DeviceId>, base: DeviceId,
        accepts: DeviceId -> bool)
    requires Hash(k) < |r.table| && |r.table| % TYPE_COUNT == 0
    requires Lookup(r.table, k) == base && 0 < base < |r.table|
    requires base < |r.handlers| && r.handlers[base] == Device
    requires FreshIds(r, base, ids)
    ensures var t := InstallAll(r, k, ids);
      Visits(t.handlers, accepts, Lookup(t.table, k), NewestFirst(ids, base, accepts))
    ensures var path := NewestFirst(ids, base, accepts);
      forall i, j :: 0 <= i < j < |path| ==> path[i] != path[j]
  {
    VisitedOnce(ids, base, accepts);
    InstallBuildsChain(r, k, ids, base);
    ChainIsVisited(InstallAll(r, k, ids).handlers, ids, base, accepts);
  }

  /** A filter installed in front of a handler whose id is not below the table size cuts it off: the
      event reaches the filter and nothing else. */
  lemma {:induction false} LargeIdIsCutOff(r: Routing, k: Key, id: DeviceId, base: DeviceId)
    requires Hash(k) < |r.table| && Lookup(r.table, k) == base && |r.table| <= base
    requires 0 < |r.handlers| && r.handlers[0] == Absent && id != 0
    ensures var t := Install(r, k, id);
      Lookup(t.table, k) == id && Visits(t.handlers, _ => true, id, [id])
  {
  }
}
