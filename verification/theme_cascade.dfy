/** The cascade of change signals (PaletteItem::onParentChanged): what it leaves behind does not depend on
    the order in which the children of an item are told. */
module ThemeCascades {
  import opened Options
  import opened Forests
  import opened Themes

  /** After telling the children of `i`, and theirs in turn, that `i` has changed: all descendants obey the
      font rule, and only those that had to were given a font. */
  ghost predicate Cascaded(items: seq<Item>, d: Defaults, i: nat, later: seq<Item>) {
    && Filled(items, d, later)
    && (forall j :: 0 <= j < |items| && !Descends(LinksOf(items), j, i) ==> later[j] == items[j])
    && (forall j :: 0 <= j < |items| && Descends(LinksOf(items), j, i) ==> Obeys(later, d, j))
  }

  ghost predicate Child(items: seq<Item>, i: nat, c: nat) {
    c < |items| && items[c].parent == Some(i)
  }

  /** The same when only the children of `done` have been told. */
  ghost predicate Told(items: seq<Item>, d: Defaults, i: nat, done: set<nat>, later: seq<Item>) {
    && Filled(items, d, later)
    && (forall c :: c in done ==> Child(items, i, c))
    && (forall j :: 0 <= j < |items| && (forall c :: c in done ==> !Under(LinksOf(items), j, c)) ==>
          later[j] == items[j])
    && (forall j, c :: 0 <= j < |items| && c in done && Under(LinksOf(items), j, c) ==> Obeys(later, d, j))
  }

  lemma {:induction false} FilledKeepsOwnFonts(items: seq<Item>, d: Defaults, later: seq<Item>)
    requires Filled(items, d, later) && OwnFontsFixed(items)
    ensures OwnFontsFixed(later)
  {
  }

  /** One child is told: it is given a font if it needs one, and then tells its own children. */
  ghost predicate Tell(items: seq<Item>, d: Defaults, c: nat, later: seq<Item>)
    requires Forest(items) && c < |items|
  {
    Cascaded(Guard(items, d, c), d, c, later)
  }

  lemma {:induction false} TellChangesSubtree(items: seq<Item>, d: Defaults, c: nat, later: seq<Item>)
    requires Forest(items) && c < |items| && Tell(items, d, c, later)
    ensures Forest(later) && LinksOf(later) == LinksOf(items)
    ensures forall j :: 0 <= j < |items| && !Under(LinksOf(items), j, c) ==> later[j] == items[j]
  {
  }

  /** What telling a child does to that child. */
  lemma {:induction false} TellFillsChild(items: seq<Item>, d: Defaults, i: nat, c: nat, later: seq<Item>)
    requires Forest(items) && OwnFontsFixed(items) && Child(items, i, c) && Tell(items, d, c, later)
    ensures later[c] == items[c] || (Given(items, d, later, c) && !ShowsFixed(later, d, i))
    ensures Forest(later) && Obeys(later, d, c)
  {
    var p := LinksOf(items);
    TellChangesSubtree(items, d, c, later);
    ParentIsNotUnder(p, i, c);
    ShownOutside(items, d, later, c, i);
    if Descends(p, c, c) {
      DescendsRank(p, c, c);
    }
  }

  lemma {:induction false} TellFills(items: seq<Item>, d: Defaults, i: nat, c: nat, later: seq<Item>)
    requires Forest(items) && OwnFontsFixed(items) && Child(items, i, c) && Tell(items, d, c, later)
    ensures Filled(items, d, later)
    ensures forall j :: 0 <= j < |items| && Under(LinksOf(items), j, c) ==> Obeys(later, d, j)
  {
    TellFillsChild(items, d, i, c, later);
    TellChangesSubtree(items, d, c, later);
  }

  /** Telling one more child leaves what the others were told as it is. */
  lemma {:induction false} ToldApart(items: seq<Item>, d: Defaults, i: nat, done: set<nat>, now: seq<Item>, c: nat,
        later: seq<Item>, j: nat)
    requires Told(items, d, i, done, now) && Child(items, i, c) && c !in done && OwnFontsFixed(items)
    requires Tell(now, d, c, later) && j < |items| && !Under(LinksOf(items), j, c)
    ensures Forest(later) && LinksOf(later) == LinksOf(items)
    ensures later[j] == now[j] && ShownFont(later, d, j) == ShownFont(now, d, j)
  {
    TellChangesSubtree(now, d, c, later);
    ShownOutside(now, d, later, c, j);
  }

  lemma {:induction false} ToldMoreFilled(items: seq<Item>, d: Defaults, i: nat, done: set<nat>, now: seq<Item>, c: nat,
                       later: seq<Item>, j: nat)
    requires Told(items, d, i, done, now) && Child(items, i, c) && c !in done && OwnFontsFixed(items)
    requires Tell(now, d, c, later) && j < |items|
    ensures Forest(later) && LinksOf(later) == LinksOf(items)
    ensures later[j] == items[j] || (Given(items, d, later, j) && !ShowsFixed(later, d, items[j].parent.value))
  {
    var p := LinksOf(items);
    FilledKeepsOwnFonts(items, d, now);
    TellChangesSubtree(now, d, c, later);
    if Under(p, j, c) {
      forall b | b in done
        ensures !Under(p, j, b)
      {
        ChildrenApart(p, i, c, b, j);
      }
      TellFills(now, d, i, c, later);
    } else {
      ToldApart(items, d, i, done, now, c, later, j);
      if now[j] != items[j] {
        var b :| b in done && Under(p, j, b);
        var q := items[j].parent.value;
        if j == b {
          ParentIsNotUnder(p, i, c);
        } else {
          ChildrenApart(p, i, b, c, q);
        }
        ToldApart(items, d, i, done, now, c, later, q);
      }
    }
  }

  lemma {:induction false} ToldMore(items: seq<Item>, d: Defaults, i: nat, done: set<nat>, now: seq<Item>, c: nat,
        later: seq<Item>)
    requires Told(items, d, i, done, now) && Child(items, i, c) && c !in done && OwnFontsFixed(items)
    requires Tell(now, d, c, later)
    ensures Told(items, d, i, done + {c}, later)
  {
    var p := LinksOf(items);
    FilledKeepsOwnFonts(items, d, now);
    TellChangesSubtree(now, d, c, later);
    TellFills(now, d, i, c, later);
    forall j | 0 <= j < |items|
      ensures later[j] == items[j] || (Given(items, d, later, j) && !ShowsFixed(later, d, items[j].parent.value))
    {
      ToldMoreFilled(items, d, i, done, now, c, later, j);
    }
    forall j, b | 0 <= j < |items| && b in done && Under(p, j, b)
      ensures Obeys(later, d, j)
    {
      ChildrenApart(p, i, b, c, j);
      ToldApart(items, d, i, done, now, c, later, j);
    }
  }

  /** When every child has been told, the cascade is complete. */
  lemma {:induction false} ToldAll(items: seq<Item>, d: Defaults, i: nat, done: set<nat>, later: seq<Item>)
    requires Told(items, d, i, done, later)
    requires forall c :: Child(items, i, c) ==> c in done
    ensures Cascaded(items, d, i, later)
  {
    var p := LinksOf(items);
    forall j | 0 <= j < |items| && Descends(p, j, i)
      ensures Obeys(later, d, j)
    {
      var c := ChildAbove(p, j, i);
      assert Child(items, i, c);
    }
    forall j | 0 <= j < |items| && !Descends(p, j, i)
      ensures later[j] == items[j]
    {
      forall c | c in done
        ensures !Under(p, j, c)
      {
        if Descends(p, j, c) {
          DescendsTransitive(p, j, c, i);
        }
      }
    }
  }

  /** The outcome of a cascade is determined: no order of telling children leads to another one. */
  lemma {:induction false} CascadeAt(items: seq<Item>, d: Defaults, i: nat, g: seq<Item>, h: seq<Item>, j: nat)
    requires Cascaded(items, d, i, g) && Cascaded(items, d, i, h) && j < |items|
    ensures g[j] == h[j] && ShownFont(g, d, j) == ShownFont(h, d, j)
    decreases Rank(LinksOf(items))[j]
  {
    if items[j].parent.None? {
    } else {
      var q := items[j].parent.value;
      CascadeAt(items, d, i, g, h, q);
      if Descends(LinksOf(items), j, i) {
        assert Obeys(g, d, j) && Obeys(h, d, j);
      }
    }
  }

  lemma {:induction false} CascadeIsDetermined(items: seq<Item>, d: Defaults, i: nat, g: seq<Item>, h: seq<Item>)
    requires Cascaded(items, d, i, g) && Cascaded(items, d, i, h)
    ensures g == h
  {
    forall j | 0 <= j < |items|
      ensures g[j] == h[j]
    {
      CascadeAt(items, d, i, g, h, j);
    }
  }
}
