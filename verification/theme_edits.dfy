/** The public edits of a theme, and what every one of them keeps. */
module ThemeEdits {
  import opened Options
  import opened Forests
  import opened Themes
  import opened ThemeCascades

  datatype Style = Bold | Italic | Underline | Strikeout

  datatype Edit =
    | SetParent(i: nat, parent: Option<nat>)
    | ClearParent(i: nat)
    | SetForeground(i: nat, color: Color)
    | ClearForeground(i: nat)
    | SetBackground(i: nat, color: Color)
    | ClearBackground(i: nat)
    | SetFont(i: nat, font: Font)
    | ClearFont(i: nat)
    | Override(i: nat, style: Style, on: bool)

  /** The items that an edit names exist. */
  predicate Names(e: Edit, n: nat) {
    e.i < n && (e.SetParent? && e.parent.Some? ==> e.parent.value < n)
  }

  function Overridden(o: Overrides, style: Style, on: bool): Overrides {
    match style
    case Bold => o.(bold := Some(on))
    case Italic => o.(italic := Some(on))
    case Underline => o.(underline := Some(on))
    case Strikeout => o.(strikeout := Some(on))
  }

  /** The item after clearParent, which makes what its parent shows the item's own. */
  function Orphaned(items: seq<Item>, d: Defaults, i: nat): Item
    requires Forest(items) && i < |items|
  {
    if items[i].parent.None? then items[i]
    else
      var q := items[i].parent.value;
      Item(None, Some(Foreground(items, q)), Some(Background(items, q)),
           Some(UpdatedFont(d, i, ShownFont(items, d, q))), NO_OVERRIDES)
  }

  lemma {:induction false} SetParentForest(items: seq<Item>, i: nat, parent: Option<nat>)
    requires Forest(items) && i < |items| && (parent.Some? ==> parent.value < |items|)
    requires !WouldCycle(LinksOf(items), i, parent)
    ensures Forest(items[i := items[i].(parent := parent)])
  {
    AdoptionIsAcyclic(LinksOf(items), i, parent);
    assert LinksOf(items[i := items[i].(parent := parent)]) == LinksOf(items)[i := parent];
  }

  lemma {:induction false} SameForest(items: seq<Item>, i: nat, item: Item)
    requires Forest(items) && i < |items| && item.parent == items[i].parent
    ensures Forest(items[i := item])
  {
    assert LinksOf(items[i := item]) == LinksOf(items);
  }

  /** The items when the edit signals that item `e.i` has changed, or None if it returns before that. */
  function Signalled(items: seq<Item>, d: Defaults, e: Edit): Option<seq<Item>>
    requires Forest(items) && Names(e, |items|)
  {
    var i, item := e.i, items[e.i];
    match e
    case SetParent(_, parent) =>
      if parent == item.parent || WouldCycle(LinksOf(items), i, parent) then None
      else
        SetParentForest(items, i, parent);
        Some(Guard(items[i := item.(parent := parent)], d, i))
    case ClearParent(_) => Some(items[i := Orphaned(items, d, i)])
    case SetForeground(_, c) => if item.fg == Some(c) then None else Some(items[i := item.(fg := Some(c))])
    case ClearForeground(_) => if item.fg.None? then None else Some(items[i := item.(fg := None)])
    case SetBackground(_, c) => if item.bg == Some(c) then None else Some(items[i := item.(bg := Some(c))])
    case ClearBackground(_) => if item.bg.None? then None else Some(items[i := item.(bg := None)])
    case SetFont(_, font) =>
      if item.font == Some(font) then None else Some(items[i := item.(font := Some(UpdatedFont(d, i, font)))])
    case ClearFont(_) =>
      SameForest(items, i, item.(font := None));
      var g := Guard(items[i := item.(font := None)], d, i);
      Some(g[i := g[i].(overrides := NO_OVERRIDES)])
    case Override(_, style, on) => Some(items[i := item.(overrides := Overridden(item.overrides, style, on))])
  }

  ghost predicate Edited(items: seq<Item>, d: Defaults, e: Edit, later: seq<Item>)
    requires Forest(items) && Names(e, |items|)
  {
    match Signalled(items, d, e)
    case None => later == items
    case Some(g) => Cascaded(g, d, e.i, later)
  }

  /* One item changed. */

  /** `g` is `items` with another item `i`. */
  ghost predicate Changed(items: seq<Item>, i: nat, g: seq<Item>) {
    && |g| == |items| && i < |items| && Forest(items) && Forest(g)
    && forall j :: 0 <= j < |items| && j != i ==> g[j] == items[j]
  }

  /** Items that are not under the changed one show what they showed. */
  lemma {:induction false} ShownElsewhere(items: seq<Item>, d: Defaults, g: seq<Item>, i: nat, k: nat)
    requires Changed(items, i, g) && k < |items| && !Under(LinksOf(items), k, i)
    ensures !Under(LinksOf(g), k, i)
    ensures ShownFont(g, d, k) == ShownFont(items, d, k)
    ensures Foreground(g, k) == Foreground(items, k) && Background(g, k) == Background(items, k)
    decreases Rank(LinksOf(items))[k]
  {
    if items[k].parent.None? {
    } else {
      ShownElsewhere(items, d, g, i, items[k].parent.value);
    }
  }

  /** What the signal finds: the changed item obeys the rule, and everything not under it does as before. */
  ghost predicate Sound(items: seq<Item>, d: Defaults, i: nat, g: seq<Item>) {
    Changed(items, i, g) && OwnFontsFixed(g) && Obeys(g, d, i)
  }

  lemma {:induction false} SoundCascade(items: seq<Item>, d: Defaults, i: nat, g: seq<Item>, later: seq<Item>)
    requires Proper(items, d) && Sound(items, d, i, g) && Cascaded(g, d, i, later)
    ensures Proper(later, d)
  {
    FilledKeepsOwnFonts(g, d, later);
    forall j | 0 <= j < |items|
      ensures Obeys(later, d, j)
    {
      if !Descends(LinksOf(g), j, i) {
        if j != i {
          ShownElsewhere(g, d, items, i, j);
          assert Obeys(items, d, j);
        }
        if Ruled(g, j) {
          FilledKeepsFixed(g, d, later, j);
        }
      }
    }
  }

  lemma {:induction false} OwnParent(items: seq<Item>, i: nat)
    requires Forest(items) && i < |items| && items[i].parent.Some?
    ensures !Under(LinksOf(items), items[i].parent.value, i)
  {
    ParentIsNotUnder(LinksOf(items), items[i].parent.value, i);
  }

  /** Guarding the changed item makes it obey the rule. */
  lemma {:induction false} GuardIsSound(items: seq<Item>, d: Defaults, i: nat, item: Item)
    requires Proper(items, d) && i < |items| && Forest(items[i := item])
    requires item.font == items[i].font || item.font.None?
    ensures Sound(items, d, i, Guard(items[i := item], d, i))
  {
    var h := items[i := item];
    var g := Guard(h, d, i);
    if item.parent.Some? {
      OwnParent(h, i);
      ShownElsewhere(h, d, g, i, item.parent.value);
    }
  }

  /** Changing the item without touching its links or its font leaves its font rule as it was. */
  lemma {:induction false} RestyleIsSound(items: seq<Item>, d: Defaults, i: nat, item: Item)
    requires Proper(items, d) && i < |items|
    requires item.parent == items[i].parent && item.font == items[i].font
    ensures Sound(items, d, i, items[i := item])
  {
    SameForest(items, i, item);
    assert Obeys(items, d, i);
    if item.parent.Some? {
      OwnParent(items, i);
      ShownElsewhere(items, d, items[i := item], i, item.parent.value);
    }
  }

  lemma {:induction false} ClearFontIsSound(items: seq<Item>, d: Defaults, i: nat)
    requires Proper(items, d) && i < |items|
    ensures Signalled(items, d, ClearFont(i)).Some?
    ensures Sound(items, d, i, Signalled(items, d, ClearFont(i)).value)
  {
    var item := items[i].(font := None);
    SameForest(items, i, item);
    GuardIsSound(items, d, i, item);
    var g := Guard(items[i := item], d, i);
    var h := g[i := g[i].(overrides := NO_OVERRIDES)];
    SameForest(g, i, g[i].(overrides := NO_OVERRIDES));
    if item.parent.Some? {
      OwnParent(g, i);
      ShownElsewhere(g, d, h, i, item.parent.value);
    }
  }

  lemma {:induction false} OrphanIsSound(items: seq<Item>, d: Defaults, i: nat)
    requires Proper(items, d) && i < |items|
    ensures Sound(items, d, i, items[i := Orphaned(items, d, i)])
  {
    if items[i].parent.None? {
      assert items[i := items[i]] == items;
    } else {
      SetParentForest(items, i, None);
      var h := items[i := items[i].(parent := None)];
      SameForest(h, i, Orphaned(items, d, i));
      assert h[i := Orphaned(items, d, i)] == items[i := Orphaned(items, d, i)];
    }
  }

  lemma {:induction false} SignalledIsSound(items: seq<Item>, d: Defaults, e: Edit)
    requires Proper(items, d) && Names(e, |items|) && Signalled(items, d, e).Some?
    ensures Sound(items, d, e.i, Signalled(items, d, e).value)
  {
    var i, item := e.i, items[e.i];
    match e
    case SetParent(_, parent) =>
      SetParentForest(items, i, parent);
      GuardIsSound(items, d, i, item.(parent := parent));
    case ClearParent(_) => OrphanIsSound(items, d, i);
    case SetForeground(_, c) => RestyleIsSound(items, d, i, item.(fg := Some(c)));
    case ClearForeground(_) => RestyleIsSound(items, d, i, item.(fg := None));
    case SetBackground(_, c) => RestyleIsSound(items, d, i, item.(bg := Some(c)));
    case ClearBackground(_) => RestyleIsSound(items, d, i, item.(bg := None));
    case SetFont(_, font) => SameForest(items, i, item.(font := Some(UpdatedFont(d, i, font))));
    case ClearFont(_) => ClearFontIsSound(items, d, i);
    case Override(_, style, on) =>
      RestyleIsSound(items, d, i, item.(overrides := Overridden(item.overrides, style, on)));
  }

  /** Every public edit keeps the forest a forest and the font rule: every mono item that has a parent
      shows a fixed-pitch font. */
  lemma {:induction false} EditKeepsProper(items: seq<Item>, d: Defaults, e: Edit, later: seq<Item>)
    requires Proper(items, d) && Names(e, |items|) && Edited(items, d, e, later)
    ensures Proper(later, d) && |later| == |items|
  {
    if Signalled(items, d, e).Some? {
      SignalledIsSound(items, d, e);
      SoundCascade(items, d, e.i, Signalled(items, d, e).value, later);
    }
  }

  /** So does any sequence of edits. */
  lemma {:induction false} EditsKeepProper(d: Defaults, es: seq<Edit>, states: seq<seq<Item>>)
    requires |states| == |es| + 1 && Proper(states[0], d)
    requires forall k :: 0 <= k < |es| ==> Names(es[k], |states[0]|)
    requires forall k :: 0 <= k < |es| && Forest(states[k]) && |states[k]| == |states[0]| ==>
      Edited(states[k], d, es[k], states[k + 1])
    ensures forall k :: 0 <= k <= |es| ==> Proper(states[k], d) && |states[k]| == |states[0]|
  {
    if es == [] {
    } else {
      var n := |es| - 1;
      EditsKeepProper(d, es[..n], states[..n + 1]);
      assert states[..n + 1][n] == states[n];
      EditKeepsProper(states[n], d, es[n], states[n + 1]);
    }
  }

  /* What an edit shows. */

  /** Giving items fonts changes no colours. */
  lemma {:induction false} FilledKeepsColors(items: seq<Item>, d: Defaults, later: seq<Item>, k: nat)
    requires Filled(items, d, later) && k < |items|
    ensures Foreground(later, k) == Foreground(items, k) && Background(later, k) == Background(items, k)
    decreases Rank(LinksOf(items))[k]
  {
    if items[k].parent.None? {
    } else {
      FilledKeepsColors(items, d, later, items[k].parent.value);
    }
  }

  /** An edit is local: what is not under the edited item looks as before. */
  lemma {:induction false} EditIsLocal(items: seq<Item>, d: Defaults, e: Edit, later: seq<Item>, k: nat)
    requires Proper(items, d) && Names(e, |items|) && Edited(items, d, e, later)
    requires k < |items| && !Under(LinksOf(items), k, e.i)
    ensures Forest(later) && |later| == |items|
    ensures Foreground(later, k) == Foreground(items, k) && Background(later, k) == Background(items, k)
    ensures ShownFont(later, d, k) == ShownFont(items, d, k)
  {
    if Signalled(items, d, e).Some? {
      var g := Signalled(items, d, e).value;
      SignalledIsSound(items, d, e);
      ShownElsewhere(items, d, g, e.i, k);
      FilledKeepsColors(g, d, later, k);
      ShownOutside(g, d, later, e.i, k);
    }
  }

  /** clearParent leaves the item with the colours that its parent showed. */
  lemma {:induction false} OrphanShowsParent(items: seq<Item>, d: Defaults, i: nat, later: seq<Item>)
    requires Proper(items, d) && i < |items| && items[i].parent.Some?
    requires Edited(items, d, ClearParent(i), later)
    ensures Forest(later) && |later| == |items| && later[i].parent.None?
    ensures Foreground(later, i) == Foreground(items, items[i].parent.value)
    ensures Background(later, i) == Background(items, items[i].parent.value)
    ensures ShownFont(later, d, i) == UpdatedFont(d, i, ShownFont(items, d, items[i].parent.value))
  {
    SignalledIsSound(items, d, ClearParent(i));
    var g := items[i := Orphaned(items, d, i)];
    FilledKeepsColors(g, d, later, i);
  }

  /** setParent takes the new parent exactly when that makes no cycle; the item then shows the colours of
      the new parent where it has none of its own. */
  lemma {:induction false} AdoptedShowsParent(items: seq<Item>, d: Defaults, i: nat, q: nat, later: seq<Item>)
    requires Proper(items, d) && i < |items| && q < |items|
    requires Edited(items, d, SetParent(i, Some(q)), later)
    ensures Forest(later) && |later| == |items|
    ensures later[i].parent == (if Acyclic(LinksOf(items)[i := Some(q)]) then Some(q) else items[i].parent)
    ensures later[i].parent == Some(q) && items[i].fg.None? ==> Foreground(later, i) == Foreground(items, q)
    ensures later[i].parent == Some(q) && items[i].bg.None? ==> Background(later, i) == Background(items, q)
  {
    var e := SetParent(i, Some(q));
    AdoptionTestIsExact(LinksOf(items), i, Some(q));
    if items[i].parent == Some(q) {
      assert LinksOf(items)[i := Some(q)] == LinksOf(items);
    }
    if Signalled(items, d, e).Some? {
      var g := Signalled(items, d, e).value;
      SignalledIsSound(items, d, e);
      ShownElsewhere(items, d, g, i, q);
      FilledKeepsColors(g, d, later, i);
      FilledKeepsColors(g, d, later, q);
    }
  }

  /** Edits of colour and style change nothing but the item itself. */
  lemma {:induction false} StyleEditsChangeOneItem(items: seq<Item>, d: Defaults, e: Edit, later: seq<Item>)
    requires Proper(items, d) && Names(e, |items|) && Edited(items, d, e, later)
    requires !e.SetParent? && !e.ClearParent? && !e.SetFont? && !e.ClearFont?
    ensures later == if Signalled(items, d, e).Some? then Signalled(items, d, e).value else items
  {
    if Signalled(items, d, e).Some? {
      var g := Signalled(items, d, e).value;
      SignalledIsSound(items, d, e);
      forall j | 0 <= j < |items|
        ensures Obeys(g, d, j)
      {
        StyleKeepsFixed(items, d, e, j);
        assert Obeys(items, d, j);
      }
      CascadeIsDetermined(g, d, e.i, g, later);
    }
  }

  lemma {:induction false} StyleKeepsFixed(items: seq<Item>, d: Defaults, e: Edit, j: nat)
    requires Proper(items, d) && Names(e, |items|) && Signalled(items, d, e).Some? && j < |items|
    requires !e.SetParent? && !e.ClearParent? && !e.SetFont? && !e.ClearFont?
    requires Forest(Signalled(items, d, e).value)
    ensures ShowsFixed(Signalled(items, d, e).value, d, j) == ShowsFixed(items, d, j)
    decreases Rank(LinksOf(items))[j]
  {
    if items[j].parent.None? {
    } else {
      StyleKeepsFixed(items, d, e, items[j].parent.value);
    }
  }

  /** Exactly which mono items show a fixed-pitch font: all but the roots without a font of their own, and
      those too if the platform's interface font is fixed-pitch. */
  lemma {:induction false} MonoItemsShowFixed(items: seq<Item>, d: Defaults, i: nat)
    requires Proper(items, d) && i < |items| && RequiresMono(i)
    ensures ShowsFixed(items, d, i) <==> items[i].parent.Some? || items[i].font.Some? || d.ui.fixedPitch
  {
    assert Obeys(items, d, i);
  }
}
