/** The palette that loadLightDefaults builds (lib/settings/palette.cpp): one item for every role, in order,
    each constructed with a parent that exists already. */
module DefaultPalettes {
  import opened Options
  import opened Forests
  import opened Themes
  import opened ThemeEdits
  import opened ThemeFiles

  /** PaletteItem::Options, and the overrides that are set on the new item at once. */
  datatype NewItem = NewItem(parent: Option<nat> := None, fg: Option<Color> := None, bg: Option<Color> := None,
                             font: Option<Font> := None, overrides: Overrides := NO_OVERRIDES)

  const BLANK := Item(None, None, None, None, NO_OVERRIDES)

  const BOLD := NO_OVERRIDES.(bold := Some(true))
  const PLAIN := NO_OVERRIDES.(bold := Some(false))
  const SLANTED := NO_OVERRIDES.(bold := Some(false), italic := Some(true))

  /** PaletteRole::Total */
  const TOTAL: nat := 34

  /** loadDefaultForRole */
  function DefaultFor(d: Defaults, role: nat): (o: NewItem)
    requires role < TOTAL
    ensures if role == 0 then o.parent.None? && o.fg.Some? && o.bg.Some? else o.parent.Some? && o.parent.value < role
  {
    match role
    case 0 => NewItem(fg := Some(0xff00_0000), bg := Some(0xffff_ffff), font := Some(d.ui))
    case 1 => NewItem(Some(0), font := Some(d.mono))
    case 2 => NewItem(Some(0), fg := Some(0xff0f_0f0f), bg := Some(0xffee_eeee))
    case 3 => NewItem(Some(0), bg := Some(0xfff0_f0f0))
    case 4 => NewItem(Some(0), fg := Some(0xffff_ffff), bg := Some(0xff00_78d7))
    case 5 => NewItem(Some(0), bg := Some(0xffff_ffdc))
    case 6 => NewItem(Some(0), fg := Some(0xff7f_7f7f), bg := Some(0xff0a_0a0a))
    case 7 => NewItem(Some(4))
    case 8 => NewItem(Some(0), fg := Some(0xff00_00ff))
    case 9 => NewItem(Some(0), bg := Some(0xffe3_e3e3))
    case 10 => NewItem(Some(6), fg := Some(0xfff0_f0f0))
    case 11 => NewItem(Some(6), fg := Some(0xfff0_f0f0))
    case 12 => NewItem(Some(4), bg := Some(0xff69_6969))
    case 13 => NewItem(Some(0), fg := Some(0xff00_78d7))
    case 14 => NewItem(Some(13), fg := Some(0xff78_40a0))
    case 15 => NewItem(Some(4), bg := Some(0xffa0_a0a0))
    case 16 => NewItem(Some(4), fg := Some(0xff7f_7f7f))
    case 17 => NewItem(Some(1), fg := Some(0xff25_40bd), bg := Some(0xffff_ffff))
    case 18 => NewItem(Some(17), fg := Some(0xffb6_7bbc), bg := Some(0xffff_ffff), overrides := BOLD)
    case 19 => NewItem(Some(17))
    case 20 => NewItem(Some(17), overrides := SLANTED)
    case 21 => NewItem(Some(17), fg := Some(0xffff_4500), bg := Some(0xffff_ffff), overrides := PLAIN)
    case 22 => NewItem(Some(21))
    case 23 => NewItem(Some(17), fg := Some(0xff66_a333), bg := Some(0xffff_ffff), overrides := PLAIN)
    case 24 => NewItem(Some(0), fg := Some(0xff66_6666))
    case 25 => NewItem(Some(0), bg := Some(0xffff_aa00))
    case 26 => NewItem(Some(23), fg := Some(0xff00_0000), bg := Some(0xffff_0000))
    case 27 => NewItem(Some(23))
    case 28 => NewItem(Some(1))
    case 29 => NewItem(Some(28), bg := Some(0xffe7_eaff))
    case 30 => NewItem(Some(28), bg := Some(0xffff_5537))
    case 31 => NewItem(Some(28), bg := Some(0xffff_d841))
    case 32 => NewItem(Some(28), bg := Some(0xffcb_ff28))
    case 33 => NewItem(Some(28), bg := Some(0xff55_80ff))
  }

  lemma {:induction false} BlankAdded(items: seq<Item>)
    requires Forest(items)
    ensures Forest(items + [BLANK])
  {
    var rank :| Ranked(LinksOf(items), rank);
    assert Ranked(LinksOf(items + [BLANK]), rank + [0]);
  }

  /** PaletteItem::PaletteItem for the next role, and the overrides. */
  function Constructed(items: seq<Item>, d: Defaults, o: NewItem): (r: seq<Item>)
    requires Forest(items) && (o.parent.Some? ==> o.parent.value < |items|)
    ensures Forest(r) && |r| == |items| + 1
  {
    var i := |items|;
    BlankAdded(items);
    var g := Relinked(items + [BLANK], d, i, o.parent);
    var font := if o.font.Some? then Some(UpdatedFont(d, i, o.font.value)) else g[i].font;
    var item := g[i].(fg := o.fg, bg := o.bg, font := font, overrides := o.overrides);
    SameForest(g, i, item);
    g[i := item]
  }

  lemma {:induction false} BlankIsNoAncestor(items: seq<Item>, j: nat)
    requires Forest(items) && Forest(items + [BLANK]) && j < |items|
    ensures !Under(LinksOf(items + [BLANK]), j, |items|)
    decreases Rank(LinksOf(items))[j]
  {
    if items[j].parent.None? {
    } else {
      BlankIsNoAncestor(items, items[j].parent.value);
    }
  }

  /** What an item shows does not depend on items added after it. */
  lemma {:induction false} ShownBefore(items: seq<Item>, longer: seq<Item>, d: Defaults, j: nat)
    requires Forest(items) && Forest(longer) && items <= longer && j < |items|
    ensures ShownFont(longer, d, j) == ShownFont(items, d, j)
    decreases Rank(LinksOf(items))[j]
  {
    if items[j].parent.None? {
    } else {
      assert LinksOf(items)[j] == items[j].parent;
      ShownBefore(items, longer, d, items[j].parent.value);
    }
  }

  lemma {:induction false} ConstructedItem(items: seq<Item>, d: Defaults, o: NewItem)
    requires Forest(items) && (o.parent.Some? ==> o.parent.value < |items|)
    ensures var r, i := Constructed(items, d, o), |items|;
      && items <= r && r[i].parent == o.parent
      && r[i].fg == o.fg && r[i].bg == o.bg && r[i].overrides == o.overrides
      && r[i].font
        == if o.font.Some? then Some(UpdatedFont(d, i, o.font.value))
           else if RequiresMono(i) && o.parent.Some? && !ShowsFixed(items, d, o.parent.value) then Some(d.mono)
           else None
  {
    BlankAdded(items);
    if o.parent.Some? {
      var q, base := o.parent.value, items + [BLANK];
      BlankIsNoAncestor(items, q);
      SetParentForest(base, |items|, o.parent);
      ShownBefore(items, base[|items| := BLANK.(parent := o.parent)], d, q);
    }
  }

  /** Constructing an item under an earlier one keeps the rules. */
  lemma {:induction false} ConstructKeepsProper(items: seq<Item>, d: Defaults, o: NewItem)
    requires Proper(items, d) && (o.parent.Some? ==> o.parent.value < |items|)
    ensures Proper(Constructed(items, d, o), d)
  {
    hide Constructed;
    var r := Constructed(items, d, o);
    ConstructedItem(items, d, o);
    forall j | 0 <= j < |r|
      ensures Obeys(r, d, j)
    {
      if j < |items| {
        assert Obeys(items, d, j);
        ShownBefore(items, r, d, j);
      } else if o.parent.Some? {
        ShownBefore(items, r, d, o.parent.value);
      }
    }
  }

  /** The items of the first `k` roles. */
  function DefaultFirst(d: Defaults, k: nat): (r: seq<Item>)
    requires k <= TOTAL
    ensures Forest(r) && |r| == k
  {
    if k == 0 then
      assert Ranked(LinksOf([]), []);
      []
    else Constructed(DefaultFirst(d, k - 1), d, DefaultFor(d, k - 1))
  }

  lemma {:induction false} DefaultsAreProper(d: Defaults, k: nat)
    requires k <= TOTAL
    ensures Proper(DefaultFirst(d, k), d)
    ensures forall i :: 0 <= i < k ==>
      var item, o := DefaultFirst(d, k)[i], DefaultFor(d, i);
      item.parent == o.parent && item.fg == o.fg && item.bg == o.bg && item.overrides == o.overrides
  {
    hide Constructed, DefaultFor, Proper;
    if k == 0 {
      NoItemsAreProper(d);
    } else {
      DefaultsAreProper(d, k - 1);
      ConstructKeepsProper(DefaultFirst(d, k - 1), d, DefaultFor(d, k - 1));
      ConstructedItem(DefaultFirst(d, k - 1), d, DefaultFor(d, k - 1));
    }
  }

  lemma {:induction false} NoItemsAreProper(d: Defaults)
    ensures Proper(DefaultFirst(d, 0), d)
  {
  }

  function DefaultPalette(d: Defaults): seq<Item> {
    DefaultFirst(d, TOTAL)
  }

  /** The default palette keeps the rules, its mono items show fixed-pitch fonts, and what saving it writes
      restores its parents, its colours and, up to features, its fonts in any palette. */
  lemma {:induction false} DefaultsSurviveSaving(d: Defaults, b: seq<Item>, later: seq<Item>)
    requires Forest(b) && |b| == TOTAL && Loaded(b, d, Save(DefaultPalette(d), d), later)
    ensures var a := DefaultPalette(d);
      && Proper(a, d) && |later| == TOTAL && Forest(later)
      && FontsRestored(a, later, d, TOTAL)
      && forall i :: 0 <= i < TOTAL ==>
        && later[i].parent == a[i].parent
        && Foreground(later, i) == Foreground(a, i) && Background(later, i) == Background(a, i)
  {
    var a := DefaultPalette(d);
    hide DefaultFirst, DefaultFor, ShownFont, Loaded, Foreground, Background, FontsRestored;
    DefaultsAreProper(d, TOTAL);
    assert forall i :: 0 <= i < TOTAL && a[i].parent.Some? ==> a[i].parent.value < i;
    LoadRestores(a, b, d, later);
    forall i | 0 <= i < TOTAL && RequiresMono(i)
      ensures ShowsFixed(a, d, i)
    {
      assert Obeys(a, d, i);
    }
    LoadRestoresFontsExactly(a, b, d, later);
  }

  /* What the default palette shows. */

  /** The text colours of the roles, inherited ones included. */
  function DefaultText(): (colors: seq<Color>)
    ensures |colors| == TOTAL
  {
    [0xff00_0000, 0xff00_0000, 0xff0f_0f0f, 0xff00_0000, 0xffff_ffff, 0xff00_0000, 0xff7f_7f7f, 0xffff_ffff,
     0xff00_00ff, 0xff00_0000, 0xfff0_f0f0, 0xfff0_f0f0, 0xffff_ffff, 0xff00_78d7, 0xff78_40a0, 0xffff_ffff,
     0xff7f_7f7f, 0xff25_40bd, 0xffb6_7bbc, 0xff25_40bd, 0xff25_40bd, 0xffff_4500, 0xffff_4500, 0xff66_a333,
     0xff66_6666, 0xff00_0000, 0xff00_0000, 0xff66_a333, 0xff00_0000, 0xff00_0000, 0xff00_0000, 0xff00_0000,
     0xff00_0000, 0xff00_0000]
  }

  /** The fills of the roles, inherited ones included. */
  function DefaultFill(): (colors: seq<Color>)
    ensures |colors| == TOTAL
  {
    [0xffff_ffff, 0xffff_ffff, 0xffee_eeee, 0xfff0_f0f0, 0xff00_78d7, 0xffff_ffdc, 0xff0a_0a0a, 0xff00_78d7,
     0xffff_ffff, 0xffe3_e3e3, 0xff0a_0a0a, 0xff0a_0a0a, 0xff69_6969, 0xffff_ffff, 0xffff_ffff, 0xffa0_a0a0,
     0xff00_78d7, 0xffff_ffff, 0xffff_ffff, 0xffff_ffff, 0xffff_ffff, 0xffff_ffff, 0xffff_ffff, 0xffff_ffff,
     0xffff_ffff, 0xffff_aa00, 0xffff_0000, 0xffff_ffff, 0xffff_ffff, 0xffe7_eaff, 0xffff_5537, 0xffff_d841,
     0xffcb_ff28, 0xff55_80ff]
  }

  /** A role's text is its own or that of its parent. */
  lemma {:induction false} GeneralText(d: Defaults, role: nat)
    requires role < 17
    ensures var o := DefaultFor(d, role);
      DefaultText()[role] == if o.fg.Some? then o.fg.value else DefaultText()[o.parent.value]
  {
    if role < 6 {
    } else if role < 12 {
    } else {
    }
  }

  lemma {:induction false} SpecialText(d: Defaults, role: nat)
    requires 17 <= role < TOTAL
    ensures var o := DefaultFor(d, role);
      DefaultText()[role] == if o.fg.Some? then o.fg.value else DefaultText()[o.parent.value]
  {
    if role < 23 {
    } else if role < 29 {
    } else {
    }
  }

  /** So is its fill. */
  lemma {:induction false} GeneralFill(d: Defaults, role: nat)
    requires role < 17
    ensures var o := DefaultFor(d, role);
      DefaultFill()[role] == if o.bg.Some? then o.bg.value else DefaultFill()[o.parent.value]
  {
    if role < 6 {
    } else if role < 12 {
    } else {
    }
  }

  lemma {:induction false} SpecialFill(d: Defaults, role: nat)
    requires 17 <= role < TOTAL
    ensures var o := DefaultFor(d, role);
      DefaultFill()[role] == if o.bg.Some? then o.bg.value else DefaultFill()[o.parent.value]
  {
    if role < 23 {
    } else if role < 29 {
    } else {
    }
  }

  /** The text and the fill that each role shows before anything is edited. */
  lemma {:induction false} DefaultItemShows(d: Defaults, role: nat)
    requires role < TOTAL
    ensures Foreground(DefaultPalette(d), role) == DefaultText()[role]
    ensures Background(DefaultPalette(d), role) == DefaultFill()[role]
    decreases role
  {
    hide DefaultFor, DefaultFirst, DefaultText, DefaultFill;
    DefaultsAreProper(d, TOTAL);
    if role < 17 {
      GeneralText(d, role);
      GeneralFill(d, role);
    } else {
      SpecialText(d, role);
      SpecialFill(d, role);
    }
    if role == 0 {
    } else {
      DefaultItemShows(d, DefaultFor(d, role).parent.value);
    }
  }
}
