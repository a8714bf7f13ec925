/** What the items of a theme show, in terms of the chain of parents, and what each edit of
    lib/settings/paletteitem.cpp changes, field by field. */
module ThemeShows {
  import opened Options
  import opened Forests
  import opened Themes
  import opened ThemeCascades
  import opened ThemeEdits

  /* Inheritance. */

  /** What can be seen of an item. */
  datatype Aspect = Fore | Back | Face | Pitch | Feature | Bolded | Slanted | Underlined | Struck

  datatype Value = Number(n: nat) | Flag(b: bool)

  /** What a font shows. */
  function OfFont(font: Font, aspect: Aspect): Value {
    match aspect
    case Pitch => Flag(font.fixedPitch)
    case Feature => Flag(font.cv01)
    case Bolded => Flag(font.bold)
    case Slanted => Flag(font.italic)
    case Underlined => Flag(font.underline)
    case Struck => Flag(font.strikeout)
    case _ => Number(font.face)
  }

  function Shows(items: seq<Item>, d: Defaults, i: nat, aspect: Aspect): Value
    requires Forest(items) && i < |items|
  {
    match aspect
    case Fore => Number(Foreground(items, i))
    case Back => Number(Background(items, i))
    case _ => OfFont(ShownFont(items, d, i), aspect)
  }

  function AsFlag(o: Option<bool>): Option<Value> {
    if o.Some? then Some(Flag(o.value)) else None
  }

  /** What an item decides by itself, None if it leaves the matter to its parent. An item with a font of its
      own ignores its overrides; a root falls back on white, black, and the interface font. */
  function Decides(d: Defaults, item: Item, aspect: Aspect): Option<Value> {
    var root := item.parent.None?;
    match aspect
    case Fore => if item.fg.Some? then Some(Number(item.fg.value)) else if root then Some(Number(0xffff_ffff)) else None
    case Back => if item.bg.Some? then Some(Number(item.bg.value)) else if root then Some(Number(0xff00_0000)) else None
    case _ =>
      if item.font.Some? then Some(OfFont(item.font.value, aspect))
      else if root then Some(OfFont(d.ui, aspect))
      else
        match aspect
        case Bolded => AsFlag(item.overrides.bold)
        case Slanted => AsFlag(item.overrides.italic)
        case Underlined => AsFlag(item.overrides.underline)
        case Struck => AsFlag(item.overrides.strikeout)
        case _ => None
  }

  /** `a` is the nearest of `i` and its ancestors that decides. */
  ghost predicate Nearest(items: seq<Item>, d: Defaults, i: nat, a: nat, aspect: Aspect)
    requires Forest(items) && i < |items|
  {
    var p := LinksOf(items);
    && a < |items| && Under(p, i, a) && Decides(d, items[a], aspect).Some?
    && forall b :: 0 <= b < |items| && Under(p, i, b) && Descends(p, b, a) ==> Decides(d, items[b], aspect).None?
  }

  /** Only one is. */
  lemma {:induction false} NearestIsUnique(items: seq<Item>, d: Defaults, i: nat, a: nat, b: nat, aspect: Aspect)
    requires Forest(items) && i < |items| && Nearest(items, d, i, a, aspect) && Nearest(items, d, i, b, aspect)
    ensures a == b
    decreases Rank(LinksOf(items))[i]
  {
    hide Decides;
    if Decides(d, items[i], aspect).Some? {
    } else {
      var q := items[i].parent.value;
      assert LinksOf(items)[i] == Some(q);
      NearestIsUnique(items, d, q, a, b, aspect);
    }
  }

  /** An item shows, in every respect, what the nearest of itself and its ancestors decides that decides
      anything. */
  lemma {:induction false} ShowsNearest(items: seq<Item>, d: Defaults, i: nat, aspect: Aspect) returns (a: nat)
    requires Forest(items) && i < |items|
    ensures Nearest(items, d, i, a, aspect) && Decides(d, items[a], aspect) == Some(Shows(items, d, i, aspect))
    decreases Rank(LinksOf(items))[i]
  {
    var p := LinksOf(items);
    if Decides(d, items[i], aspect).Some? {
      a := i;
      forall b | 0 <= b < |items|
        ensures !(Under(p, i, b) && Descends(p, b, i))
      {
        NoneBetween(p, i, b);
      }
    } else {
      var q := items[i].parent.value;
      assert p[i] == Some(q);
      a := ShowsNearest(items, d, q, aspect);
      SameAsParent(items, d, i, aspect);
      FurtherUp(items, d, i, a, aspect);
    }
  }

  lemma {:induction false} NoneBetween(p: Links, i: nat, b: nat)
    requires Acyclic(p) && i < |p| && b < |p|
    ensures !(Under(p, i, b) && Descends(p, b, i))
  {
    if Descends(p, b, i) {
      DescendsRank(p, b, i);
      if Descends(p, i, b) {
        DescendsRank(p, i, b);
      }
    }
  }

  lemma {:induction false} SameAsParent(items: seq<Item>, d: Defaults, i: nat, aspect: Aspect)
    requires Forest(items) && i < |items| && Decides(d, items[i], aspect).None?
    ensures items[i].parent.Some? && items[i].parent.value < |items|
    ensures Shows(items, d, i, aspect) == Shows(items, d, items[i].parent.value, aspect)
  {
    assert LinksOf(items)[i] == items[i].parent;
  }

  lemma {:induction false} FurtherUp(items: seq<Item>, d: Defaults, i: nat, a: nat, aspect: Aspect)
    requires Forest(items) && i < |items| && items[i].parent.Some? && items[i].parent.value < |items|
    requires Decides(d, items[i], aspect).None? && Nearest(items, d, items[i].parent.value, a, aspect)
    ensures Nearest(items, d, i, a, aspect)
  {
    hide Decides;
    assert LinksOf(items)[i] == items[i].parent;
  }

  /** The roles that need fixed-pitch fonts: the base one, and those for editors and circuits but for row
      numbers and breakpoints. */
  lemma {:induction false} MonoRoles(role: nat)
    requires role < 34
    ensures RequiresMono(role) <==> role == 1 || (role >= 17 && role != 24 && role != 25)
  {
  }

  /* Edits. */

  /** Whatever is edited, another item can only be given the default fixed-pitch font, and only a mono item with
      a parent and without a font of its own is. */
  lemma {:induction false} OthersOnlyGetFonts(items: seq<Item>, d: Defaults, e: Edit, later: seq<Item>, j: nat)
    requires Proper(items, d) && Names(e, |items|) && Edited(items, d, e, later) && j < |items| && j != e.i
    ensures |later| == |items|
    ensures later[j] == items[j]
      || (RequiresMono(j) && items[j].parent.Some? && items[j].font.None?
          && later[j] == items[j].(font := Some(d.mono)))
  {
    if Signalled(items, d, e).Some? {
      SignalledIsSound(items, d, e);
    }
  }

  /** setForeground: the item shows the colour. */
  lemma {:induction false} ForegroundSet(items: seq<Item>, d: Defaults, i: nat, c: Color, later: seq<Item>)
    requires Proper(items, d) && i < |items| && Edited(items, d, SetForeground(i, c), later)
    ensures later == items[i := items[i].(fg := Some(c))]
    ensures Forest(later) && Foreground(later, i) == c
  {
    StyleEditsChangeOneItem(items, d, SetForeground(i, c), later);
    EditKeepsProper(items, d, SetForeground(i, c), later);
  }

  lemma {:induction false} BackgroundSet(items: seq<Item>, d: Defaults, i: nat, c: Color, later: seq<Item>)
    requires Proper(items, d) && i < |items| && Edited(items, d, SetBackground(i, c), later)
    ensures later == items[i := items[i].(bg := Some(c))]
    ensures Forest(later) && Background(later, i) == c
  {
    StyleEditsChangeOneItem(items, d, SetBackground(i, c), later);
    EditKeepsProper(items, d, SetBackground(i, c), later);
  }

  /** What an item shows that leaves its parent. */
  lemma {:induction false} ParentShowsAsBefore(items: seq<Item>, d: Defaults, e: Edit, later: seq<Item>)
    requires Proper(items, d) && Names(e, |items|) && Edited(items, d, e, later) && items[e.i].parent.Some?
    ensures var q := items[e.i].parent.value;
      && Forest(later) && |later| == |items| && q < |items|
      && Foreground(later, q) == Foreground(items, q) && Background(later, q) == Background(items, q)
      && ShownFont(later, d, q) == ShownFont(items, d, q)
  {
    assert LinksOf(items)[e.i] == items[e.i].parent;
    OwnParent(items, e.i);
    EditIsLocal(items, d, e, later, items[e.i].parent.value);
  }

  /** clearForeground: the item shows its parent's colour again, or white. */
  lemma {:induction false} ForegroundCleared(items: seq<Item>, d: Defaults, i: nat, later: seq<Item>)
    requires Proper(items, d) && i < |items| && Edited(items, d, ClearForeground(i), later)
    ensures later == items[i := items[i].(fg := None)] && Forest(later)
    ensures Foreground(later, i)
      == if items[i].parent.None? then 0xffff_ffff else Foreground(items, items[i].parent.value)
  {
    StyleEditsChangeOneItem(items, d, ClearForeground(i), later);
    EditKeepsProper(items, d, ClearForeground(i), later);
    if items[i].parent.Some? {
      ParentShowsAsBefore(items, d, ClearForeground(i), later);
    }
  }

  lemma {:induction false} BackgroundCleared(items: seq<Item>, d: Defaults, i: nat, later: seq<Item>)
    requires Proper(items, d) && i < |items| && Edited(items, d, ClearBackground(i), later)
    ensures later == items[i := items[i].(bg := None)] && Forest(later)
    ensures Background(later, i)
      == if items[i].parent.None? then 0xff00_0000 else Background(items, items[i].parent.value)
  {
    StyleEditsChangeOneItem(items, d, ClearBackground(i), later);
    EditKeepsProper(items, d, ClearBackground(i), later);
    if items[i].parent.Some? {
      ParentShowsAsBefore(items, d, ClearBackground(i), later);
    }
  }

  /** The item shows its parent's font, restyled. */
  predicate Inherits(item: Item) {
    item.parent.Some? && item.font.None?
  }

  /** overrideBold and its siblings: an item that inherits its font shows it as before, but for the style
      named; another shows no difference. */
  lemma {:induction false} StyleOverridden(items: seq<Item>, d: Defaults, i: nat, style: Style, on: bool,
        later: seq<Item>)
    requires Proper(items, d) && i < |items| && Edited(items, d, Override(i, style, on), later)
    ensures Forest(later) && |later| == |items| && forall j :: 0 <= j < |items| && j != i ==> later[j] == items[j]
    ensures later[i] == items[i].(overrides := later[i].overrides)
    ensures style == Bold ==> later[i].overrides == items[i].overrides.(bold := Some(on))
    ensures style == Italic ==> later[i].overrides == items[i].overrides.(italic := Some(on))
    ensures style == Underline ==> later[i].overrides == items[i].overrides.(underline := Some(on))
    ensures style == Strikeout ==> later[i].overrides == items[i].overrides.(strikeout := Some(on))
    ensures var f, g := ShownFont(items, d, i), ShownFont(later, d, i);
      if !Inherits(items[i]) then g == f
      else
        match style
        case Bold => g == f.(bold := on)
        case Italic => g == f.(italic := on)
        case Underline => g == f.(underline := on)
        case Strikeout => g == f.(strikeout := on)
  {
    var e := Override(i, style, on);
    StyleEditsChangeOneItem(items, d, e, later);
    EditKeepsProper(items, d, e, later);
    if items[i].parent.Some? {
      ParentShowsAsBefore(items, d, e, later);
    }
  }

  /** The item's colours, overrides and parent are kept. */
  predicate OnlyFontChanges(item: Item, later: Item) {
    later == item.(font := later.font)
  }

  /** setFont: the item shows the font, with its feature on, unless it is a mono item and the font is not
      fixed-pitch. */
  lemma {:induction false} FontSet(items: seq<Item>, d: Defaults, i: nat, font: Font, later: seq<Item>)
    requires Proper(items, d) && i < |items| && Edited(items, d, SetFont(i, font), later)
    ensures Forest(later) && |later| == |items| && OnlyFontChanges(items[i], later[i])
    ensures later[i].font == Some(ShownFont(later, d, i))
    ensures ShownFont(later, d, i)
      == if items[i].font == Some(font) then font
         else if RequiresMono(i) && !font.fixedPitch then d.mono
         else font.(cv01 := true)
  {
    EditKeepsProper(items, d, SetFont(i, font), later);
    if Signalled(items, d, SetFont(i, font)).Some? {
      SignalledIsSound(items, d, SetFont(i, font));
    }
  }

  /** clearFont: the item drops its font and its overrides, and shows its parent's font as it is, or the
      interface font; a mono item whose parent does not show a fixed-pitch font is given the default one. */
  lemma {:induction false} FontCleared(items: seq<Item>, d: Defaults, i: nat, later: seq<Item>)
    requires Proper(items, d) && i < |items| && Edited(items, d, ClearFont(i), later)
    ensures Forest(later) && |later| == |items|
    ensures later[i].overrides == Overrides(None, None, None, None)
    ensures later[i].parent == items[i].parent && later[i].fg == items[i].fg && later[i].bg == items[i].bg
    ensures ShownFont(later, d, i)
      == if items[i].parent.None? then d.ui
         else if RequiresMono(i) && !ShownFont(items, d, items[i].parent.value).fixedPitch then d.mono
         else ShownFont(items, d, items[i].parent.value)
  {
    hide Signalled, Cascaded, ShownFont, Proper;
    EditKeepsProper(items, d, ClearFont(i), later);
    ClearFontSignals(items, d, i);
    EditedItem(items, d, ClearFont(i), later);
    if items[i].parent.Some? {
      ParentShowsAsBefore(items, d, ClearFont(i), later);
    }
    if Inherits(later[i]) {
      UnstyledShows(later, d, i);
    } else {
      OwnFontShows(later, d, i);
    }
  }

  /** The cascade leaves the edited item as the edit made it. */
  lemma {:induction false} EditedItem(items: seq<Item>, d: Defaults, e: Edit, later: seq<Item>)
    requires Proper(items, d) && Names(e, |items|) && Edited(items, d, e, later) && Signalled(items, d, e).Some?
    ensures |later| == |items| == |Signalled(items, d, e).value| && Forest(later)
    ensures later[e.i] == Signalled(items, d, e).value[e.i]
  {
    hide Signalled;
    SignalledIsSound(items, d, e);
    var p := LinksOf(Signalled(items, d, e).value);
    if Descends(p, e.i, e.i) {
      DescendsRank(p, e.i, e.i);
    }
  }

  lemma {:induction false} UnstyledShows(items: seq<Item>, d: Defaults, i: nat)
    requires Forest(items) && i < |items| && Inherits(items[i])
    requires items[i].overrides == Overrides(None, None, None, None)
    ensures items[i].parent.value < |items|
    ensures ShownFont(items, d, i) == ShownFont(items, d, items[i].parent.value)
  {
    assert LinksOf(items)[i] == items[i].parent;
  }

  lemma {:induction false} OwnFontShows(items: seq<Item>, d: Defaults, i: nat)
    requires Forest(items) && i < |items| && !Inherits(items[i])
    ensures ShownFont(items, d, i) == if items[i].font.Some? then items[i].font.value else d.ui
  {
  }

  lemma {:induction false} ClearFontSignals(items: seq<Item>, d: Defaults, i: nat)
    requires Proper(items, d) && i < |items|
    ensures Signalled(items, d, ClearFont(i)).Some?
    ensures var g := Signalled(items, d, ClearFont(i)).value;
      && |g| == |items| && g[i].overrides == Overrides(None, None, None, None)
      && g[i].parent == items[i].parent && g[i].fg == items[i].fg && g[i].bg == items[i].bg
      && g[i].font
        == if RequiresMono(i) && items[i].parent.Some?
              && !ShownFont(items, d, items[i].parent.value).fixedPitch then Some(d.mono) else None
  {
    var item := items[i].(font := None);
    SameForest(items, i, item);
    if item.parent.Some? {
      assert LinksOf(items)[i] == items[i].parent;
      OwnParent(items, i);
      ShownElsewhere(items, d, items[i := item], i, item.parent.value);
    }
  }

  /** setParent and clearParent change nothing else of what the item itself holds: adopting leaves its colours
      and overrides alone, and gives it at most the default fixed-pitch font. */
  lemma {:induction false} ParentSet(items: seq<Item>, d: Defaults, i: nat, parent: Option<nat>, later: seq<Item>)
    requires Proper(items, d) && Names(SetParent(i, parent), |items|)
    requires Edited(items, d, SetParent(i, parent), later)
    ensures |later| == |items|
    ensures later[i].fg == items[i].fg && later[i].bg == items[i].bg && later[i].overrides == items[i].overrides
    ensures later[i].font == items[i].font || (RequiresMono(i) && items[i].font.None? && later[i].font == Some(d.mono))
    ensures later[i].parent == items[i].parent || later[i].parent == parent
  {
    if Signalled(items, d, SetParent(i, parent)).Some? {
      SignalledIsSound(items, d, SetParent(i, parent));
    }
  }
}
