/** The items of a theme (lib/settings/paletteitem.hpp and paletteitem.cpp): inherited colours and fonts,
    and the rule that some roles show fixed-pitch fonts. */
module Themes {
  import opened Options
  import opened Forests

  /** A 32-bit RGBA value. */
  type Color = c: nat | c < 0x1_0000_0000

  const WHITE: Color := 0xffff_ffff
  const BLACK: Color := 0xff00_0000

  /** Whether a font is fixed-pitch depends on its face only. */
  datatype Font = Font(face: nat, fixedPitch: bool, bold: bool, italic: bool, underline: bool, strikeout: bool,
                       cv01: bool)

  type MonoFont = f: Font | f.fixedPitch witness Font(0, true, false, false, false, false, true)

  /** default_ui_font, which depends on the platform, and default_mono_font. */
  datatype Defaults = Defaults(ui: Font, mono: MonoFont)

  datatype Overrides = Overrides(bold: Option<bool>, italic: Option<bool>, underline: Option<bool>,
                                 strikeout: Option<bool>)

  const NO_OVERRIDES := Overrides(None, None, None, None)

  /** An item; its role is its position in the palette. */
  datatype Item = Item(parent: Option<nat>, fg: Option<Color>, bg: Option<Color>, font: Option<Font>,
                       overrides: Overrides)

  /** PaletteRoleHelper::requiresMonoFont */
  predicate RequiresMono(role: nat) {
    role == 1 || 17 <= role <= 23 || 26 <= role <= 33
  }

  function LinksOf(items: seq<Item>): (p: Links)
    ensures |p| == |items|
    ensures forall i :: 0 <= i < |items| ==> p[i] == items[i].parent
  {
    seq(|items|, i requires 0 <= i < |items| => items[i].parent)
  }

  ghost predicate Forest(items: seq<Item>) {
    Acyclic(LinksOf(items))
  }

  /* What an item shows. */

  function Foreground(items: seq<Item>, i: nat): Color
    requires Forest(items) && i < |items|
    decreases Rank(LinksOf(items))[i]
  {
    if items[i].parent.Some? && items[i].fg.None? then Foreground(items, items[i].parent.value)
    else if items[i].fg.Some? then items[i].fg.value
    else WHITE
  }

  function Background(items: seq<Item>, i: nat): Color
    requires Forest(items) && i < |items|
    decreases Rank(LinksOf(items))[i]
  {
    if items[i].parent.Some? && items[i].bg.None? then Background(items, items[i].parent.value)
    else if items[i].bg.Some? then items[i].bg.value
    else BLACK
  }

  function Or<T>(o: Option<T>, x: T): T {
    if o.Some? then o.value else x
  }

  function Restyle(base: Font, o: Overrides): Font {
    base.(bold := Or(o.bold, base.bold), italic := Or(o.italic, base.italic),
          underline := Or(o.underline, base.underline), strikeout := Or(o.strikeout, base.strikeout))
  }

  function ShownFont(items: seq<Item>, d: Defaults, i: nat): Font
    requires Forest(items) && i < |items|
    decreases Rank(LinksOf(items))[i]
  {
    if items[i].parent.Some? && items[i].font.None?
    then Restyle(ShownFont(items, d, items[i].parent.value), items[i].overrides)
    else Or(items[i].font, d.ui)
  }

  predicate ShowsFixed(items: seq<Item>, d: Defaults, i: nat)
    requires Forest(items) && i < |items|
  {
    ShownFont(items, d, i).fixedPitch
  }

  /* The font rule. */

  /** The item needs a fixed-pitch font and has a parent to inherit one from. */
  predicate Ruled(items: seq<Item>, i: nat)
    requires i < |items|
  {
    RequiresMono(i) && items[i].parent.Some?
  }

  /** Fonts that mono items have of their own are fixed-pitch: updateFont sees to that. */
  ghost predicate OwnFontsFixed(items: seq<Item>) {
    forall i :: 0 <= i < |items| && RequiresMono(i) && items[i].font.Some? ==> items[i].font.value.fixedPitch
  }

  ghost predicate Obeys(items: seq<Item>, d: Defaults, i: nat)
    requires Forest(items) && i < |items|
  {
    Ruled(items, i) ==> ShowsFixed(items, d, i)
  }

  /** What holds after every public edit. */
  ghost predicate Proper(items: seq<Item>, d: Defaults) {
    && Forest(items)
    && OwnFontsFixed(items)
    && forall i :: 0 <= i < |items| ==> Obeys(items, d, i)
  }

  /** updateFont */
  function UpdatedFont(d: Defaults, i: nat, font: Font): Font {
    if !font.fixedPitch && RequiresMono(i) then d.mono else font.(cv01 := true)
  }

  /** preventNonMonoParent gives the item a font of its own. */
  predicate NeedsFont(items: seq<Item>, d: Defaults, i: nat)
    requires Forest(items) && i < |items|
  {
    Ruled(items, i) && items[i].font.None? && !ShowsFixed(items, d, items[i].parent.value)
  }

  function Guard(items: seq<Item>, d: Defaults, i: nat): (r: seq<Item>)
    requires Forest(items) && i < |items|
    ensures LinksOf(r) == LinksOf(items)
  {
    if NeedsFont(items, d, i) then items[i := items[i].(font := Some(d.mono))] else items
  }

  /* Giving items the default fixed-pitch font. */

  /** Item `i` was given the default fixed-pitch font. */
  predicate Given(items: seq<Item>, d: Defaults, later: seq<Item>, i: nat)
    requires i < |items| == |later|
  {
    Ruled(items, i) && items[i].font.None? && later[i] == items[i].(font := Some(d.mono))
  }

  /** `later` differs from `items` only in items that were given the default fixed-pitch font, because
      their parents do not show one. */
  ghost predicate Filled(items: seq<Item>, d: Defaults, later: seq<Item>) {
    && Forest(items)
    && LinksOf(later) == LinksOf(items)
    && forall i :: 0 <= i < |items| ==>
         later[i] == items[i] || (Given(items, d, later, i) && !ShowsFixed(later, d, items[i].parent.value))
  }

  /** Filling makes no item lose a fixed-pitch font. */
  lemma {:induction false} FilledKeepsFixed(items: seq<Item>, d: Defaults, later: seq<Item>, i: nat)
    requires Filled(items, d, later) && i < |items| && ShowsFixed(items, d, i)
    ensures ShowsFixed(later, d, i)
    decreases Rank(LinksOf(items))[i]
  {
    if items[i].parent.None? || items[i].font.Some? || later[i] != items[i] {
    } else {
      FilledKeepsFixed(items, d, later, items[i].parent.value);
    }
  }

  /** What an item shows depends on itself and its ancestors only. */
  lemma {:induction false} ShownOutside(items: seq<Item>, d: Defaults, later: seq<Item>, c: nat, k: nat)
    requires Forest(items) && LinksOf(later) == LinksOf(items) && k < |items|
    requires forall j :: 0 <= j < |items| && !Under(LinksOf(items), j, c) ==> later[j] == items[j]
    requires !Under(LinksOf(items), k, c)
    ensures ShownFont(later, d, k) == ShownFont(items, d, k)
    decreases Rank(LinksOf(items))[k]
  {
    if items[k].parent.None? {
    } else {
      ShownOutside(items, d, later, c, items[k].parent.value);
    }
  }
}
