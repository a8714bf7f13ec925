/** The palette in place: its items are edited field by field, and change signals run through the items
    that are connected to the changed one, which are its children. */
module Palettes {
  import opened Options
  import opened Forests
  import opened Themes
  import opened ThemeCascades
  import opened ThemeEdits
  import opened ThemeShows
  import opened ThemeFiles
  import opened DefaultPalettes

  /** How loading a theme file ends; OutsideRead: an item outside the palette was read. */
  datatype Outcome = Refused | Applied | OutsideRead

  /** The items are those of loading up to the first item that would read outside the palette. */
  ghost predicate StoppedAtOutside(items: seq<Item>, d: Defaults, file: ThemeFile, later: seq<Item>)
    requires Forest(items)
  {
    exists k :: 0 <= k < |file.items| && OutOfRange(|items|, file.items[k])
      && LoadFirst(items, d, file.items, k) == Some(later)
  }

  /** Setting the parent that a root has already. */
  lemma {:induction false} NoParentGiven(items: seq<Item>, d: Defaults, i: nat)
    requires Forest(items) && i < |items| && items[i].parent.None?
    ensures Relinked(items, d, i, None) == items
  {
  }

  class Palette {
    const defaults: Defaults
    var items: seq<Item>

    /** A palette has the default items until a theme is loaded or it is edited. */
    constructor (defaults: Defaults)
      ensures this.defaults == defaults && fresh(this)
      ensures items == DefaultPalette(defaults) && Proper(items, defaults)
    {
      this.defaults, this.items := defaults, [];
      new;
      LoadLightDefaults();
      DefaultsAreProper(defaults, TOTAL);
    }

    method LoadLightDefaults()
      requires items == []
      modifies this`items
      ensures items == DefaultPalette(defaults)
    {
      hide Constructed, DefaultFor;
      for it := 0 to TOTAL
        invariant items == DefaultFirst(defaults, it)
      {
        Construct(DefaultFor(defaults, it));
      }
    }

    /** PaletteItem's constructor for the next role. Nothing is connected to the new item yet. */
    method Construct(o: NewItem)
      requires Forest(items) && (o.parent.Some? ==> o.parent.value < |items|)
      modifies this`items
      ensures items == Constructed(old(items), defaults, o)
    {
      hide Relinked;
      var i := |items|;
      BlankAdded(items);
      items := items + [BLANK];
      if o.parent.Some? {
        Relink(i, o.parent);
      } else {
        assert Relinked(items, defaults, i, None) == items by {
          NoParentGiven(items, defaults, i);
        }
      }
      items := items[i := items[i].(fg := o.fg, bg := o.bg)];
      if o.font.Some? {
        UpdateFont(i, o.font.value);
      }
      items := items[i := items[i].(overrides := o.overrides)];
    }

    /** isAncestorOf, which counts an item as its own ancestor. */
    method IsAncestorOf(maybeAncestor: nat, maybeDescendant: Option<nat>) returns (r: bool)
      requires Forest(items) && (maybeDescendant.Some? ==> maybeDescendant.value < |items|)
      ensures r <==> WouldCycle(LinksOf(items), maybeAncestor, maybeDescendant)
    {
      var ancestors: set<nat> := {};
      var ptr: Option<nat> := maybeDescendant;
      while ptr.Some?
        invariant ptr.Some? ==> ptr.value < |items|
        invariant WouldCycle(LinksOf(items), maybeAncestor, maybeDescendant)
          <==> maybeAncestor in ancestors || WouldCycle(LinksOf(items), maybeAncestor, ptr)
        decreases if ptr.None? then 0 else Rank(LinksOf(items))[ptr.value] + 1
      {
        ancestors := ancestors + {ptr.value};
        ptr := items[ptr.value].parent;
      }
      r := maybeAncestor in ancestors;
    }

    method PreventNonMonoParent(i: nat)
      requires Forest(items) && i < |items|
      modifies this`items
      ensures items == Guard(old(items), defaults, i)
    {
      if !RequiresMono(i) || items[i].parent.None? || items[i].font.Some? {
        return;
      }
      var font := ShownFont(items, defaults, items[i].parent.value);
      if !font.fixedPitch {
        items := items[i := items[i].(font := Some(defaults.mono))];
      }
    }

    method UpdateFont(i: nat, font: Font)
      requires i < |items|
      modifies this`items
      ensures items == old(items)[i := old(items)[i].(font := Some(UpdatedFont(defaults, i, font)))]
    {
      if !font.fixedPitch && RequiresMono(i) {
        items := items[i := items[i].(font := Some(defaults.mono))];
      } else {
        items := items[i := items[i].(font := Some(font.(cv01 := true)))];
      }
    }

    /** preferenceChanged: tell the children, in whatever order they are connected. */
    method EmitChanged(i: nat)
      requires Forest(items) && OwnFontsFixed(items) && i < |items|
      modifies this`items
      ensures Cascaded(old(items), defaults, i, items)
      decreases Below(LinksOf(items), i), 0
    {
      hide Below;
      ghost var before := items;
      ghost var done: set<nat> := {};
      var todo: set<nat> := set c: nat | 0 <= c < |items| && items[c].parent == Some(i);
      while todo != {}
        invariant Told(before, defaults, i, done, items)
        invariant forall c :: c in todo + done <==> Child(before, i, c)
        invariant todo !! done
        decreases |todo|
      {
        var c :| c in todo;
        todo := todo - {c};
        ghost var now := items;
        FilledKeepsOwnFonts(before, defaults, now);
        FewerBelowChild(LinksOf(before), i, c);
        assert LinksOf(now) == LinksOf(before);
        OnParentChanged(c);
        ToldMore(before, defaults, i, done, now, c, items);
        done := done + {c};
      }
      ToldAll(before, defaults, i, done, items);
    }

    method OnParentChanged(c: nat)
      requires Forest(items) && OwnFontsFixed(items) && c < |items|
      modifies this`items
      ensures Tell(old(items), defaults, c, items)
      decreases Below(LinksOf(items), c), 1
    {
      PreventNonMonoParent(c);
      EmitChanged(c);
    }

    /* Public edits. */

    method SetParent(i: nat, parent: Option<nat>)
      requires Proper(items, defaults) && Names(ThemeEdits.SetParent(i, parent), |items|)
      modifies this`items
      ensures Edited(old(items), defaults, ThemeEdits.SetParent(i, parent), items) && Proper(items, defaults)
    {
      EditIsSound(ThemeEdits.SetParent(i, parent));
      if parent == items[i].parent {
        return;
      }
      var cycle := IsAncestorOf(i, parent);
      if cycle {
        return;
      }
      SetParentForest(items, i, parent);
      items := items[i := items[i].(parent := parent)];
      if RequiresMono(i) {
        PreventNonMonoParent(i);
      }
      EmitChanged(i);
      EditKeepsProper(old(items), defaults, ThemeEdits.SetParent(i, parent), items);
    }

    /** What the edits below rely on when they signal. */
    lemma {:induction false} EditIsSound(e: Edit)
      requires Proper(items, defaults) && Names(e, |items|)
      ensures Signalled(items, defaults, e).Some? ==>
        var g := Signalled(items, defaults, e).value; Forest(g) && OwnFontsFixed(g) && |g| == |items|
    {
      if Signalled(items, defaults, e).Some? {
        SignalledIsSound(items, defaults, e);
      }
    }

    method ClearParent(i: nat)
      requires Proper(items, defaults) && i < |items|
      modifies this`items
      ensures Edited(old(items), defaults, ThemeEdits.ClearParent(i), items) && Proper(items, defaults)
    {
      EditIsSound(ThemeEdits.ClearParent(i));
      if items[i].parent.Some? {
        var q := items[i].parent.value;
        var fg, bg := Foreground(items, q), Background(items, q);
        var font := ShownFont(items, defaults, q);
        items := items[i := items[i].(fg := Some(fg), bg := Some(bg))];
        UpdateFont(i, font);
        items := items[i := items[i].(overrides := NO_OVERRIDES)];
      }
      items := items[i := items[i].(parent := None)];
      assert items == old(items)[i := Orphaned(old(items), defaults, i)];
      EmitChanged(i);
      EditKeepsProper(old(items), defaults, ThemeEdits.ClearParent(i), items);
    }

    method SetForeground(i: nat, color: Color)
      requires Proper(items, defaults) && i < |items|
      modifies this`items
      ensures Edited(old(items), defaults, ThemeEdits.SetForeground(i, color), items) && Proper(items, defaults)
      ensures items == old(items)[i := old(items)[i].(fg := Some(color))] && Foreground(items, i) == color
    {
      EditIsSound(ThemeEdits.SetForeground(i, color));
      if items[i].fg == Some(color) {
        ForegroundSet(old(items), defaults, i, color, items);
        return;
      }
      items := items[i := items[i].(fg := Some(color))];
      EmitChanged(i);
      EditKeepsProper(old(items), defaults, ThemeEdits.SetForeground(i, color), items);
      ForegroundSet(old(items), defaults, i, color, items);
    }

    method ClearForeground(i: nat)
      requires Proper(items, defaults) && i < |items|
      modifies this`items
      ensures Edited(old(items), defaults, ThemeEdits.ClearForeground(i), items) && Proper(items, defaults)
      ensures items == old(items)[i := old(items)[i].(fg := None)]
    {
      EditIsSound(ThemeEdits.ClearForeground(i));
      if items[i].fg.None? {
        ForegroundCleared(old(items), defaults, i, items);
        return;
      }
      items := items[i := items[i].(fg := None)];
      EmitChanged(i);
      EditKeepsProper(old(items), defaults, ThemeEdits.ClearForeground(i), items);
      ForegroundCleared(old(items), defaults, i, items);
    }

    method SetBackground(i: nat, color: Color)
      requires Proper(items, defaults) && i < |items|
      modifies this`items
      ensures Edited(old(items), defaults, ThemeEdits.SetBackground(i, color), items) && Proper(items, defaults)
      ensures items == old(items)[i := old(items)[i].(bg := Some(color))] && Background(items, i) == color
    {
      EditIsSound(ThemeEdits.SetBackground(i, color));
      if items[i].bg == Some(color) {
        BackgroundSet(old(items), defaults, i, color, items);
        return;
      }
      items := items[i := items[i].(bg := Some(color))];
      EmitChanged(i);
      EditKeepsProper(old(items), defaults, ThemeEdits.SetBackground(i, color), items);
      BackgroundSet(old(items), defaults, i, color, items);
    }

    method ClearBackground(i: nat)
      requires Proper(items, defaults) && i < |items|
      modifies this`items
      ensures Edited(old(items), defaults, ThemeEdits.ClearBackground(i), items) && Proper(items, defaults)
      ensures items == old(items)[i := old(items)[i].(bg := None)]
    {
      EditIsSound(ThemeEdits.ClearBackground(i));
      if items[i].bg.None? {
        BackgroundCleared(old(items), defaults, i, items);
        return;
      }
      items := items[i := items[i].(bg := None)];
      EmitChanged(i);
      EditKeepsProper(old(items), defaults, ThemeEdits.ClearBackground(i), items);
      BackgroundCleared(old(items), defaults, i, items);
    }

    method SetFont(i: nat, font: Font)
      requires Proper(items, defaults) && i < |items|
      modifies this`items
      ensures Edited(old(items), defaults, ThemeEdits.SetFont(i, font), items) && Proper(items, defaults)
      ensures ShownFont(items, defaults, i)
        == if old(items)[i].font == Some(font) then font
           else if RequiresMono(i) && !font.fixedPitch then defaults.mono
           else font.(cv01 := true)
    {
      EditIsSound(ThemeEdits.SetFont(i, font));
      if items[i].font == Some(font) {
        FontSet(old(items), defaults, i, font, items);
        return;
      }
      UpdateFont(i, font);
      EmitChanged(i);
      EditKeepsProper(old(items), defaults, ThemeEdits.SetFont(i, font), items);
      FontSet(old(items), defaults, i, font, items);
    }

    method ClearFont(i: nat)
      requires Proper(items, defaults) && i < |items|
      modifies this`items
      ensures Edited(old(items), defaults, ThemeEdits.ClearFont(i), items) && Proper(items, defaults)
      ensures |items| == |old(items)| && items[i].overrides == Overrides(None, None, None, None)
    {
      EditIsSound(ThemeEdits.ClearFont(i));
      SameForest(items, i, items[i].(font := None));
      items := items[i := items[i].(font := None)];
      if RequiresMono(i) {
        PreventNonMonoParent(i);
      }
      items := items[i := items[i].(overrides := NO_OVERRIDES)];
      EmitChanged(i);
      EditKeepsProper(old(items), defaults, ThemeEdits.ClearFont(i), items);
      FontCleared(old(items), defaults, i, items);
    }

    method OverrideStyle(i: nat, style: Style, on: bool)
      requires Proper(items, defaults) && i < |items|
      modifies this`items
      ensures Edited(old(items), defaults, Override(i, style, on), items) && Proper(items, defaults)
      ensures style == Bold && Inherits(old(items)[i]) ==>
        ShownFont(items, defaults, i) == old(ShownFont(items, defaults, i)).(bold := on)
      ensures style == Italic && Inherits(old(items)[i]) ==>
        ShownFont(items, defaults, i) == old(ShownFont(items, defaults, i)).(italic := on)
      ensures style == Underline && Inherits(old(items)[i]) ==>
        ShownFont(items, defaults, i) == old(ShownFont(items, defaults, i)).(underline := on)
      ensures style == Strikeout && Inherits(old(items)[i]) ==>
        ShownFont(items, defaults, i) == old(ShownFont(items, defaults, i)).(strikeout := on)
    {
      EditIsSound(Override(i, style, on));
      items := items[i := items[i].(overrides := Overridden(items[i].overrides, style, on))];
      EmitChanged(i);
      EditKeepsProper(old(items), defaults, Override(i, style, on), items);
      StyleOverridden(old(items), defaults, i, style, on, items);
    }

    /* Saving and loading. */

    method ToJson() returns (file: ThemeFile)
      requires Forest(items)
      ensures file == Save(items, defaults)
    {
      var saved := [];
      for it := 0 to |items|
        invariant |saved| == it
        invariant forall j :: 0 <= j < it ==> saved[j] == SaveItem(items, defaults, j)
      {
        saved := saved + [SaveItem(items, defaults, it)];
      }
      file := ThemeFile(VERSION, saved);
    }

    /** setParent, while signals are blocked. */
    method Relink(i: nat, parent: Option<nat>)
      requires Forest(items) && i < |items| && (parent.Some? ==> parent.value < |items|)
      modifies this`items
      ensures items == Relinked(old(items), defaults, i, parent)
    {
      if parent == items[i].parent {
        return;
      }
      var cycle := IsAncestorOf(i, parent);
      if cycle {
        return;
      }
      SetParentForest(items, i, parent);
      items := items[i := items[i].(parent := parent)];
      if RequiresMono(i) {
        PreventNonMonoParent(i);
      }
    }

    /** updateFromJson of one item, while signals are blocked. */
    method UpdateItem(i: nat, parent: Option<nat>, s: SavedItem)
      requires Forest(items) && i < |items| && (parent.Some? ==> parent.value < |items|)
      modifies this`items
      ensures items == LoadItem(old(items), defaults, i, parent, s)
    {
      hide Relinked;
      Relink(i, parent);
      ghost var g := items;
      items := items[i := items[i].(fg := ThemeFiles.Color(s.fg), bg := ThemeFiles.Color(s.bg))];
      if s.font.Some? {
        UpdateFont(i, s.font.value);
        items := items[i := items[i].(overrides := NO_OVERRIDES)];
      } else {
        items := items[i := items[i].(font := None, overrides := NO_OVERRIDES)];
        SameForest(g, i, items[i]);
        assert items == g[i := items[i]];
        if RequiresMono(i) {
          PreventNonMonoParent(i);
        }
        items := items[i := items[i].(overrides := s.overrides)];
      }
    }

    lemma {:induction false} OpeningLoad()
      requires Proper(items, defaults)
      ensures Forest(items) && OwnFontsFixed(items)
    {
    }

    /** Load a theme file; then every root signals that it has changed. */
    method UpdateFromJson(file: ThemeFile) returns (outcome: Outcome)
      requires Proper(items, defaults)
      modifies this`items
      ensures outcome == Refused <==> file.version != VERSION
      ensures outcome == Applied
        <==> file.version == VERSION && Loadable(|old(items)|, file.items, |file.items|)
      ensures outcome != OutsideRead ==> Loaded(old(items), defaults, file, items) && Proper(items, defaults)
      ensures outcome == OutsideRead ==> StoppedAtOutside(old(items), defaults, file, items)
    {
      hide LoadItem, Proper, RootsTold, OwnFontsFixed;
      OpeningLoad();
      if file.version != VERSION {
        return Refused;
      }
      for k := 0 to |file.items|
        invariant Forest(items) && |items| == |old(items)|
        invariant LoadFirst(old(items), defaults, file.items, k) == Some(items)
      {
        var s := file.items[k];
        if OutOfRange(|items|, s) {
          return OutsideRead;
        }
        if !Skipped(|items|, s) {
          UpdateItem(s.name.value, SavedParent(s), s);
        }
      }
      LoadIsDefinedExactly(old(items), defaults, file.items, |file.items|);
      LoadFirstKeepsOwnFonts(old(items), defaults, file.items, |file.items|);
      EmitFromRoots();
      LoadKeepsProper(old(items), defaults, file, items);
      outcome := Applied;
    }

    method EmitFromRoots()
      requires Forest(items) && OwnFontsFixed(items)
      modifies this`items
      ensures RootsTold(old(items), defaults, Roots(old(items)), items)
    {
      ghost var before := items;
      ghost var done: set<nat> := {};
      var n := |items|;
      for i := 0 to n
        invariant RootsTold(before, defaults, done, items)
        invariant forall r: nat :: r in done <==> r < i && Root(before, r)
      {
        FilledKeepsOwnFonts(before, defaults, items);
        ghost var now := items;
        assert items[i].parent == LinksOf(before)[i];
        if items[i].parent.None? {
          EmitChanged(i);
          OneMoreRoot(before, defaults, done, now, i, items);
          done := done + {i};
        }
      }
      assert done == Roots(before);
    }
  }
}
