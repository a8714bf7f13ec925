/** Event slots: the index type of the scheduler and the allocator, and sets of slots
    (`FixedBitset<MAX_EVENTS>`, whose word operations are proved in BitWords). */
module Slots {

  const MAX_EVENTS := 64

  type EventId = i: nat | i < MAX_EVENTS

  /** One set of slots for every slot. */
  type Graph = g: seq<set<EventId>> | |g| == MAX_EVENTS witness seq(MAX_EVENTS, i => {})

  /** The member that a countr_zero loop takes next. */
  function Least(s: set<EventId>): (m: EventId)
    requires s != {}
    ensures m in s && forall k :: k in s ==> m <= k
  {
    var k :| k in s;
    LeastFrom(s, 0, k)
  }

  function LeastFrom(s: set<EventId>, i: EventId, bound: EventId): (m: EventId)
    requires bound in s && i <= bound && forall k :: k in s ==> i <= k
    ensures m in s && forall k :: k in s ==> m <= k
    decreases bound - i
  {
    if i in s then i else LeastFrom(s, i + 1, bound)
  }

  lemma {:induction false} SubsetBounded(s: set<EventId>, n: nat)
    requires forall i :: i in s ==> i < n
    ensures |s| <= n
  {
    if n == 0 {
      assert s == {};
    } else {
      var top := n - 1;
      if top < MAX_EVENTS && top in s {
        SubsetBounded(s - {top}, top);
        assert s == (s - {top}) + {top};
      } else {
        SubsetBounded(s, top);
      }
    }
  }

  /** A set of slots never has more than MAX_EVENTS members. */
  lemma {:induction false} SlotsBounded(s: set<EventId>)
    ensures |s| <= MAX_EVENTS
  {
    SubsetBounded(s, MAX_EVENTS);
  }
}
