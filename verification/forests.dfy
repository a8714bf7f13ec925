/** The inheritance forest of a theme (lib/settings/paletteitem.cpp), as the parent of every item. */
module Forests {
  import opened Options

  /** The parent of each item; roots have none. */
  type Links = seq<Option<nat>>

  ghost predicate Ranked(p: Links, rank: seq<nat>) {
    && |rank| == |p|
    && forall i :: 0 <= i < |p| && p[i].Some? ==> p[i].value < |p| && rank[p[i].value] < rank[i]
  }

  /** Following parents always ends. */
  ghost predicate Acyclic(p: Links) {
    exists rank :: Ranked(p, rank)
  }

  ghost function Rank(p: Links): (rank: seq<nat>)
    requires Acyclic(p)
    ensures Ranked(p, rank)
  {
    var rank :| Ranked(p, rank);
    rank
  }

  /** `i` is a proper ancestor of `j`. */
  predicate Descends(p: Links, j: nat, i: nat)
    requires Acyclic(p) && j < |p|
    decreases Rank(p)[j]
  {
    p[j].Some? && (p[j].value == i || Descends(p, p[j].value, i))
  }

  predicate Under(p: Links, j: nat, i: nat)
    requires Acyclic(p) && j < |p|
  {
    j == i || Descends(p, j, i)
  }

  lemma {:induction false} DescendsRank(p: Links, j: nat, i: nat)
    requires Acyclic(p) && j < |p| && Descends(p, j, i)
    ensures i < |p| && Rank(p)[i] < Rank(p)[j]
    decreases Rank(p)[j]
  {
    if p[j].value == i {
    } else {
      DescendsRank(p, p[j].value, i);
    }
  }

  lemma {:induction false} DescendsTransitive(p: Links, k: nat, j: nat, i: nat)
    requires Acyclic(p) && k < |p| && j < |p| && Descends(p, k, j) && Under(p, j, i)
    ensures Descends(p, k, i)
    decreases Rank(p)[k]
  {
    if p[k].value == j {
    } else {
      DescendsTransitive(p, p[k].value, j, i);
    }
  }

  /** The subtrees of two children of the same item are disjoint. */
  lemma {:induction false} ChildrenApart(p: Links, i: nat, b: nat, c: nat, k: nat)
    requires Acyclic(p) && b < |p| && c < |p| && k < |p|
    requires p[b] == Some(i) && p[c] == Some(i) && b != c && Under(p, k, b)
    ensures !Under(p, k, c)
    decreases Rank(p)[k]
  {
    if Under(p, k, c) {
      if k == b {
        ChildIsNotAbove(p, i, b, c);
      } else if k == c {
        ChildIsNotAbove(p, i, c, b);
      } else {
        ChildrenApart(p, i, b, c, p[k].value);
      }
    }
  }

  lemma {:induction false} ChildIsNotAbove(p: Links, i: nat, b: nat, c: nat)
    requires Acyclic(p) && b < |p| && c < |p| && p[b] == Some(i) && p[c] == Some(i) && b != c
    ensures !Descends(p, b, c)
  {
    if Descends(p, b, c) {
      if i != c {
        DescendsRank(p, i, c);
      }
    }
  }

  /** An item is not under its own child. */
  lemma {:induction false} ParentIsNotUnder(p: Links, i: nat, c: nat)
    requires Acyclic(p) && c < |p| && p[c] == Some(i)
    ensures i < |p| && !Under(p, i, c)
  {
    if Descends(p, i, c) {
      DescendsRank(p, i, c);
    }
  }

  /** Every item is under some root. */
  lemma {:induction false} RootOf(p: Links, j: nat) returns (r: nat)
    requires Acyclic(p) && j < |p|
    ensures r < |p| && p[r].None? && Under(p, j, r)
    decreases Rank(p)[j]
  {
    if p[j].None? {
      r := j;
    } else {
      r := RootOf(p, p[j].value);
    }
  }

  /* Adopting a new parent. */

  /** The test of setParent: is item `i` the new parent or one of its ancestors? */
  predicate WouldCycle(p: Links, i: nat, parent: Option<nat>)
    requires Acyclic(p) && (parent.Some? ==> parent.value < |p|)
  {
    parent.Some? && Under(p, parent.value, i)
  }

  lemma {:induction false} AdoptionIsAcyclic(p: Links, i: nat, parent: Option<nat>)
    requires Acyclic(p) && i < |p| && (parent.Some? ==> parent.value < |p|)
    requires !WouldCycle(p, i, parent)
    ensures Acyclic(p[i := parent])
  {
    var rank := Rank(p);
    var lift := if parent.Some? then rank[parent.value] + 1 else 0;
    var rank' := seq(|p|, j requires 0 <= j < |p| => rank[j] + if Under(p, j, i) then lift else 0);
    assert Ranked(p[i := parent], rank');
  }

  lemma {:induction false} CycleHasNoRank(p: Links, i: nat, q: nat, k: nat, rank: seq<nat>)
    requires Acyclic(p) && i < |p| && q < |p| && k < |p| && Under(p, k, i)
    requires Ranked(p[i := Some(q)], rank)
    ensures rank[i] <= rank[k]
    decreases Rank(p)[k]
  {
    if k == i {
    } else {
      CycleHasNoRank(p, i, q, p[k].value, rank);
      assert p[i := Some(q)][k] == p[k];
    }
  }

  /** The test of setParent is exact: it refuses a parent if and only if adopting it would make a cycle. */
  lemma {:induction false} AdoptionTestIsExact(p: Links, i: nat, parent: Option<nat>)
    requires Acyclic(p) && i < |p| && (parent.Some? ==> parent.value < |p|)
    ensures Acyclic(p[i := parent]) <==> !WouldCycle(p, i, parent)
  {
    if !WouldCycle(p, i, parent) {
      AdoptionIsAcyclic(p, i, parent);
    } else if Acyclic(p[i := parent]) {
      var rank := Rank(p[i := parent]);
      assert rank[parent.value] < rank[i] by {
        assert p[i := parent][i] == parent;
      }
      CycleHasNoRank(p, i, parent.value, parent.value, rank);
    }
  }

  /** Every proper descendant of an item is under one of its children. */
  lemma {:induction false} ChildAbove(p: Links, j: nat, i: nat) returns (c: nat)
    requires Acyclic(p) && j < |p| && Descends(p, j, i)
    ensures c < |p| && p[c] == Some(i) && Under(p, j, c)
    decreases Rank(p)[j]
  {
    if p[j].value == i {
      c := j;
    } else {
      c := ChildAbove(p, p[j].value, i);
    }
  }

  ghost function Deepest(rank: seq<nat>): (top: nat)
    ensures forall i :: 0 <= i < |rank| ==> rank[i] <= top
  {
    if rank == [] then 0
    else
      var top, last := Deepest(rank[..|rank| - 1]), rank[|rank| - 1];
      if last <= top then top else last
  }

  /** How many generations can still be below an item. */
  ghost function Below(p: Links, i: nat): nat
    requires Acyclic(p) && i < |p|
  {
    Deepest(Rank(p)) - Rank(p)[i]
  }

  lemma {:induction false} FewerBelowChild(p: Links, i: nat, c: nat)
    requires Acyclic(p) && i < |p| && c < |p| && p[c] == Some(i)
    ensures Below(p, c) < Below(p, i)
  {
  }
}
