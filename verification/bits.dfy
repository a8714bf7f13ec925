/** The 64-slot bitset of core/core/ds/u64_bitset.hpp at the level of its storage word, and the set of slots
    that a word stands for, which is what the rest of the model uses. */
module BitWords {
  import opened Slots

  /** FixedBitset::test. */
  predicate Test(b: bv64, i: bv64)
    requires i < 64
  {
    (b >> i) & 1 == 1
  }

  /** No bit of `b` below position `i` is set. */
  predicate NoneBelow(b: bv64, i: bv64)
    requires i < 64
  {
    b & ((1 << i) - 1) == 0
  }

  function Enabled(b: bv64, p: bv64): bv64
    requires p < 64
  {
    b | (1 << p)
  }

  function Cleared(b: bv64, p: bv64): bv64
    requires p < 64
  {
    b & !(1 << p)
  }

  function United(b: bv64, c: bv64): bv64 {
    b | c
  }

  /** `bits & (bits - 1)` */
  function Dropped(b: bv64): bv64 {
    b & (b - 1)
  }

  lemma {:induction false} EnableBit(b: bv64, i: bv64, k: bv64)
    requires i < 64 && k < 64
    ensures Test(b | (1 << i), k) <==> Test(b, k) || k == i
  {
  }

  lemma {:induction false} ClearBit(b: bv64, i: bv64, k: bv64)
    requires i < 64 && k < 64
    ensures Test(b & !(1 << i), k) <==> Test(b, k) && k != i
  {
  }

  lemma {:induction false} UniteWords(b: bv64, c: bv64, k: bv64)
    requires k < 64
    ensures Test(b | c, k) <==> Test(b, k) || Test(c, k)
  {
  }

  lemma {:induction false} DropLowest(b: bv64, i: bv64, k: bv64)
    requires i < 64 && k < 64 && Test(b, i) && NoneBelow(b, i)
    ensures Test(Dropped(b), k) <==> Test(b, k) && k != i
  {
    LowestBitAlone(b, i);
    ClearBit(b, i, k);
  }

  lemma {:induction false} LowestBitAlone(b: bv64, i: bv64)
    requires i < 64 && Test(b, i) && NoneBelow(b, i)
    ensures b & (b - 1) == b & !(1 << i)
  {
  }

  lemma {:induction false} BelowIsClear(b: bv64, i: bv64, k: bv64)
    requires k < i < 64 && NoneBelow(b, i)
    ensures !Test(b, k)
  {
  }

  lemma {:induction false} Advance(b: bv64, i: bv64)
    requires i < 64 && b != 0 && NoneBelow(b, i) && !Test(b, i)
    ensures i < 63 && NoneBelow(b, i + 1)
  {
  }

  /** std::countr_zero on a non-zero word. */
  method CountrZero(b: bv64) returns (i: bv64)
    requires b != 0
    ensures i < 64 && Test(b, i) && NoneBelow(b, i)
  {
    i := 0;
    while !Test(b, i)
      invariant i < 64 && NoneBelow(b, i)
      decreases 63 - i
    {
      Advance(b, i);
      i := i + 1;
    }
  }

  /* A word stands for a set of slots. */

  lemma {:induction false} PositionsInOrder(p: bv64, q: bv64)
    requires p < q < 64
    ensures (p as int) < q as int
  {
  }

  lemma {:induction false} NextPosition(p: bv64, i: nat)
    requires p as int == i < 63
    ensures p < 63 && (p + 1) as int == i + 1
  {
    SmallPosition(p);
  }

  lemma {:induction false} SmallPosition(p: bv64)
    requires p as int < 63
    ensures p < 63
  {
  }

  /** The position of a slot in the word. */
  function Place(i: EventId): (p: bv64)
    ensures p < 64
  {
    CountsUp(i);
    Counted(i)
  }

  function Counted(i: nat): bv64 {
    if i == 0 then 0 else Counted(i - 1) + 1
  }

  lemma {:induction false} CountsUp(i: nat)
    requires i < MAX_EVENTS
    ensures Counted(i) < 64 && Counted(i) as int == i
  {
    if i == 0 {
    } else {
      CountsUp(i - 1);
      NextPosition(Counted(i - 1), i - 1);
    }
  }

  lemma {:induction false} PlaceOfPosition(p: bv64)
    requires p < 64
    ensures p as int < MAX_EVENTS && Place(p as int) == p
  {
    CountsUp(p as int);
    var q := Place(p as int);
    if p < q {
      PositionsInOrder(p, q);
    } else if q < p {
      PositionsInOrder(q, p);
    }
  }

  /** The slot at a position of the word. */
  function SlotAt(p: bv64): (i: EventId)
    requires p < 64
    ensures Place(i) == p
  {
    PlaceOfPosition(p);
    p as int
  }

  lemma {:induction false} PlaceInOrder(i: EventId, k: EventId)
    ensures i < k ==> Place(i) < Place(k)
    ensures i == k || Place(i) != Place(k)
  {
    CountsUp(i);
    CountsUp(k);
    var p, q := Place(i), Place(k);
    if q < p {
      PositionsInOrder(q, p);
    }
  }

  function Members(b: bv64): set<EventId> {
    set i: EventId | Test(b, Place(i))
  }

  lemma {:induction false} NoMembers()
    ensures Members(0) == {}
  {
    hide Place;
    assert forall i: EventId :: !Test(0, Place(i));
  }

  lemma {:induction false} OperationsAt(b: bv64, c: bv64, p: bv64, q: bv64)
    requires p < 64 && q < 64
    ensures Test(Enabled(b, p), q) <==> Test(b, q) || q == p
    ensures Test(Cleared(b, p), q) <==> Test(b, q) && q != p
    ensures Test(United(b, c), q) <==> Test(b, q) || Test(c, q)
  {
    hide Test;
    EnableBit(b, p, q);
    ClearBit(b, p, q);
    UniteWords(b, c, q);
  }

  /** enable_bit, reset and operator|= are insertion, removal and union. */
  lemma {:induction false} WordOperations(b: bv64, c: bv64, i: EventId)
    ensures Members(Enabled(b, Place(i))) == Members(b) + {i}
    ensures Members(Cleared(b, Place(i))) == Members(b) - {i}
    ensures Members(United(b, c)) == Members(b) + Members(c)
  {
    hide Place, Test, Enabled, Cleared, United;
    forall k: EventId
      ensures Test(Enabled(b, Place(i)), Place(k)) <==> Test(b, Place(k)) || k == i
      ensures Test(Cleared(b, Place(i)), Place(k)) <==> Test(b, Place(k)) && k != i
      ensures Test(United(b, c), Place(k)) <==> Test(b, Place(k)) || Test(c, Place(k))
    {
      PlaceInOrder(i, k);
      OperationsAt(b, c, Place(i), Place(k));
    }
  }

  /** `countr_zero` names the least member, and `bits & (bits - 1)` removes exactly that one. */
  lemma {:induction false} LowestIsLeast(b: bv64, p: bv64)
    requires p < 64 && Test(b, p) && NoneBelow(b, p)
    ensures SlotAt(p) in Members(b) && Least(Members(b)) == SlotAt(p)
    ensures Members(Dropped(b)) == Members(b) - {SlotAt(p)}
  {
    hide Place, Test, NoneBelow, Dropped, SlotAt;
    var i := SlotAt(p);
    forall k: EventId
      ensures Test(b, Place(k)) ==> i <= k
      ensures Test(Dropped(b), Place(k)) <==> Test(b, Place(k)) && k != i
    {
      PlaceInOrder(i, k);
      PlaceInOrder(k, i);
      if k < i {
        BelowIsClear(b, p, Place(k));
      }
      DropLowest(b, p, Place(k));
    }
  }

  /** The members of a set in the order in which the loops of the scheduler take them. */
  function Ascending(s: set<EventId>): seq<EventId>
    decreases |s|
  {
    if s == {} then []
    else
      var least := Least(s);
      [least] + Ascending(s - {least})
  }

  predicate Increasing(s: seq<EventId>) {
    forall j, k :: 0 <= j < k < |s| ==> s[j] < s[k]
  }

  lemma {:induction false} AscendingNext(s: set<EventId>, least: EventId)
    requires s != {} && Least(s) == least
    ensures Ascending(s) == [least] + Ascending(s - {least})
  {
  }

  lemma {:induction false} AscendingVisits(s: set<EventId>)
    ensures forall i :: i in Ascending(s) <==> i in s
    ensures Increasing(Ascending(s))
    decreases |s|
  {
    if s == {} {
    } else {
      var least := Least(s);
      AscendingVisits(s - {least});
      AscendingNext(s, least);
      FirstIsLeast(least, Ascending(s - {least}), s);
    }
  }

  lemma {:induction false} FirstIsLeast(least: EventId, rest: seq<EventId>, s: set<EventId>)
    requires least in s && forall i :: i in s ==> least <= i
    requires forall i :: i in rest <==> i in s - {least}
    requires Increasing(rest)
    ensures var all := [least] + rest; Increasing(all) && forall i :: i in all <==> i in s
  {
    forall k | 0 <= k < |rest|
      ensures least < rest[k]
    {
      assert rest[k] in rest;
    }
  }

  lemma {:induction false} WordMembers(b: bv64, visited: seq<EventId>)
    requires visited == Ascending(Members(b))
    ensures Increasing(visited) && forall i: EventId :: i in visited <==> Test(b, Place(i))
  {
    hide Place, Test, Ascending, Increasing;
    AscendingVisits(Members(b));
  }

  /** One turn of such a loop: the slot that countr_zero names, and the word without it. */
  method TakeLowest(bits: bv64) returns (i: EventId, rest: bv64)
    requires bits != 0
    ensures Members(bits) != {} && i == Least(Members(bits))
    ensures Members(rest) == Members(bits) - {i}
  {
    hide Place, Test, NoneBelow, Dropped, Members, SlotAt, Least;
    var p := CountrZero(bits);
    LowestIsLeast(bits, p);
    i, rest := SlotAt(p), Dropped(bits);
  }

  lemma {:induction false} OneMore(visited: seq<EventId>, s: set<EventId>, i: EventId, all: seq<EventId>)
    requires s != {} && i == Least(s) && visited + Ascending(s) == all
    ensures visited + [i] + Ascending(s - {i}) == all
  {
    hide Ascending, Least;
    AscendingNext(s, i);
  }

  lemma {:induction false} NoMore(visited: seq<EventId>, all: seq<EventId>)
    requires visited + Ascending(Members(0)) == all
    ensures visited == all
  {
    NoMembers();
    assert visited + [] == visited;
  }

  /** The loops of EventScheduler::pause and EventScheduler::complete over the bits of a word: they end, and
      visit every member exactly once, in ascending order. */
  method Visit(word: bv64) returns (visited: seq<EventId>)
    ensures Increasing(visited)
    ensures forall i: EventId :: i in visited <==> Test(word, Place(i))
    ensures visited == Ascending(Members(word))
  {
    hide Place, Test, NoneBelow, Dropped, Members, Ascending, Increasing, Least;
    visited := [];
    var bits := word;
    while bits != 0
      invariant visited + Ascending(Members(bits)) == Ascending(Members(word))
      decreases |Members(bits)|
    {
      var i, rest := TakeLowest(bits);
      OneMore(visited, Members(bits), i, Ascending(Members(word)));
      visited, bits := visited + [i], rest;
    }
    NoMore(visited, Ascending(Members(word)));
    WordMembers(word, visited);
  }
}
