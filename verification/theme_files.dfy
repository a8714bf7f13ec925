/** Saving and loading themes (lib/settings/palette.cpp and paletteitem.cpp). A theme file is the list of
    its items; a role's name stands for what keyToValue makes of it, and a font's text for the font. */
module ThemeFiles {
  import opened Options
  import opened Forests
  import opened Themes
  import opened ThemeCascades
  import opened ThemeEdits
  import opened HexColors

  const VERSION := 10

  /** QMetaEnum::keyToValue of a role name. Every enumerator is known: Total, the number of roles, and
      Invalid, which is -1 as an int, too. */
  datatype RoleKey = Unknown | Known(value: int)

  const INVALID := Known(-1)

  datatype SavedItem = SavedItem(name: RoleKey, parent: Option<RoleKey>, fg: Option<string>, bg: Option<string>,
                                 font: Option<Font>, overrides: Overrides)

  datatype ThemeFile = ThemeFile(version: int, items: seq<SavedItem>)

  /** QFont::toString, which does not mention font features. */
  function FontText(font: Font): Font {
    font.(cv01 := false)
  }

  /** toJson of one item; what a root shows is always written. */
  function SaveItem(items: seq<Item>, d: Defaults, i: nat): SavedItem
    requires Forest(items) && i < |items|
  {
    var item := items[i];
    var ownFont := item.parent.None? || item.font.Some?;
    SavedItem(Known(i), if item.parent.Some? then Some(Known(item.parent.value)) else None,
              if item.parent.None? || item.fg.Some? then Some(ToHex(Foreground(items, i))) else None,
              if item.parent.None? || item.bg.Some? then Some(ToHex(Background(items, i))) else None,
              if ownFont then Some(FontText(ShownFont(items, d, i))) else None,
              if ownFont then NO_OVERRIDES else item.overrides)
  }

  function Save(items: seq<Item>, d: Defaults): (file: ThemeFile)
    requires Forest(items)
    ensures |file.items| == |items|
  {
    ThemeFile(VERSION, seq(|items|, i requires 0 <= i < |items| => SaveItem(items, d, i)))
  }

  /** setParent while signals are blocked. */
  function Relinked(items: seq<Item>, d: Defaults, i: nat, parent: Option<nat>): (r: seq<Item>)
    requires Forest(items) && i < |items| && (parent.Some? ==> parent.value < |items|)
    ensures Forest(r) && |r| == |items|
  {
    if parent == items[i].parent || WouldCycle(LinksOf(items), i, parent) then items
    else
      SetParentForest(items, i, parent);
      Guard(items[i := items[i].(parent := parent)], d, i)
  }

  function Color(text: Option<string>): Option<Themes.Color> {
    if text.Some? then Some(FromHex(text.value)) else None
  }

  /** PaletteItem::updateFromJson */
  function LoadItem(items: seq<Item>, d: Defaults, i: nat, parent: Option<nat>, s: SavedItem): (r: seq<Item>)
    requires Forest(items) && i < |items| && (parent.Some? ==> parent.value < |items|)
    ensures Forest(r) && |r| == |items|
  {
    var g := Relinked(items, d, i, parent);
    var item := g[i].(fg := Color(s.fg), bg := Color(s.bg), overrides := NO_OVERRIDES);
    SameForest(g, i, item);
    if s.font.Some? then
      SameForest(g, i, item.(font := Some(UpdatedFont(d, i, s.font.value))));
      g[i := item.(font := Some(UpdatedFont(d, i, s.font.value)))]
    else
      SameForest(g, i, item.(font := None));
      var h := Guard(g[i := item.(font := None)], d, i);
      SameForest(h, i, h[i].(overrides := s.overrides));
      h[i := h[i].(overrides := s.overrides)]
  }

  /** The index of the parent that Palette::updateFromJson looks up: a known role number below the item's
      own. Nothing keeps it from being negative. */
  function ParentIndex(s: SavedItem): Option<int> {
    if s.parent.Some? && s.parent.value.Known? && s.name.Known? && s.parent.value.value < s.name.value
    then Some(s.parent.value.value)
    else None
  }

  /** The parent found, when it is an item. */
  function SavedParent(s: SavedItem): Option<nat> {
    if ParentIndex(s).Some? && ParentIndex(s).value >= 0 then Some(ParentIndex(s).value) else None
  }

  /** Items whose name is unknown, or whose number is too large, are skipped. */
  predicate Skipped(n: nat, s: SavedItem) {
    s.name.Unknown? || s.name.value >= n
  }

  /** Loading the item reads outside the palette: it names a negative role as itself or as its parent. */
  predicate OutOfRange(n: nat, s: SavedItem) {
    !Skipped(n, s) && (s.name.value < 0 || (ParentIndex(s).Some? && ParentIndex(s).value < 0))
  }

  /** The loop of Palette::updateFromJson over the first `k` saved items. None: an item outside the
      palette was read. */
  function LoadFirst(items: seq<Item>, d: Defaults, saved: seq<SavedItem>, k: nat): (r: Option<seq<Item>>)
    requires Forest(items) && k <= |saved|
    ensures r.Some? ==> Forest(r.value) && |r.value| == |items|
  {
    if k == 0 then Some(items)
    else
      match LoadFirst(items, d, saved, k - 1)
      case None => None
      case Some(g) =>
        var s := saved[k - 1];
        if OutOfRange(|items|, s) then None
        else if Skipped(|items|, s) then Some(g)
        else Some(LoadItem(g, d, s.name.value, SavedParent(s), s))
  }

  ghost predicate Loadable(n: nat, saved: seq<SavedItem>, k: nat)
    requires k <= |saved|
  {
    forall j :: 0 <= j < k ==> !OutOfRange(n, saved[j])
  }

  /** Loading is defined exactly when no item that gets as far as the lookup names a negative role. */
  lemma {:induction false} LoadIsDefinedExactly(items: seq<Item>, d: Defaults, saved: seq<SavedItem>, k: nat)
    requires Forest(items) && k <= |saved|
    ensures LoadFirst(items, d, saved, k).Some? <==> Loadable(|items|, saved, k)
  {
    hide LoadItem;
    if k == 0 {
    } else {
      LoadIsDefinedExactly(items, d, saved, k - 1);
    }
  }

  /** A file that names Invalid as a role, or as the parent of one, is not defined in any palette. */
  lemma {:induction false} InvalidIsOutOfRange(items: seq<Item>, d: Defaults)
    requires Forest(items) && items != []
    ensures LoadFirst(items, d, [SavedItem(INVALID, None, None, None, None, NO_OVERRIDES)], 1) == None
    ensures LoadFirst(items, d, [SavedItem(Known(0), Some(INVALID), None, None, None, NO_OVERRIDES)], 1) == None
  {
    var asItself := [SavedItem(INVALID, None, None, None, None, NO_OVERRIDES)];
    var asParent := [SavedItem(Known(0), Some(INVALID), None, None, None, NO_OVERRIDES)];
    LoadIsDefinedExactly(items, d, asItself, 1);
    LoadIsDefinedExactly(items, d, asParent, 1);
    assert OutOfRange(|items|, asItself[0]) && OutOfRange(|items|, asParent[0]);
  }

  /* The last step of loading: every root signals that it has changed. */

  ghost predicate Root(items: seq<Item>, r: nat) {
    r < |items| && items[r].parent.None?
  }

  function Roots(items: seq<Item>): (rs: set<nat>)
    ensures forall r :: r in rs <==> Root(items, r)
  {
    set r | 0 <= r < |items| && items[r].parent.None?
  }

  /** The roots of `done` have signalled. */
  ghost predicate RootsTold(items: seq<Item>, d: Defaults, done: set<nat>, later: seq<Item>) {
    && Filled(items, d, later)
    && (forall r :: r in done ==> Root(items, r))
    && (forall j :: 0 <= j < |items| && (forall r :: r in done ==> !Descends(LinksOf(items), j, r)) ==>
          later[j] == items[j])
    && (forall j, r :: 0 <= j < |items| && r in done && Descends(LinksOf(items), j, r) ==> Obeys(later, d, j))
  }

  lemma {:induction false} RootsApart(p: Links, k: nat, r: nat, s: nat)
    requires Acyclic(p) && k < |p| && r < |p| && s < |p| && p[r].None? && p[s].None?
    requires Under(p, k, r) && Under(p, k, s)
    ensures r == s
    decreases Rank(p)[k]
  {
    if k == r || k == s {
    } else {
      RootsApart(p, p[k].value, r, s);
    }
  }

  lemma {:induction false} RootTellApart(items: seq<Item>, d: Defaults, done: set<nat>, now: seq<Item>, r: nat,
        later: seq<Item>, j: nat)
    requires RootsTold(items, d, done, now) && Root(items, r)
    requires Cascaded(now, d, r, later) && j < |items| && !Under(LinksOf(items), j, r)
    ensures later[j] == now[j] && ShownFont(later, d, j) == ShownFont(now, d, j)
  {
    ShownOutside(now, d, later, r, j);
  }

  lemma {:induction false} RootFilled(items: seq<Item>, d: Defaults, done: set<nat>, now: seq<Item>, r: nat,
        later: seq<Item>, j: nat)
    requires RootsTold(items, d, done, now) && Root(items, r) && r !in done
    requires Cascaded(now, d, r, later) && j < |items|
    ensures later[j] == items[j] || (Given(items, d, later, j) && !ShowsFixed(later, d, items[j].parent.value))
  {
    var p := LinksOf(items);
    if Under(p, j, r) {
      forall s | s in done
        ensures !Descends(p, j, s)
      {
        if Descends(p, j, s) {
          RootsApart(p, j, r, s);
        }
      }
    } else {
      RootTellApart(items, d, done, now, r, later, j);
      if now[j] != items[j] {
        RootTellApart(items, d, done, now, r, later, items[j].parent.value);
      }
    }
  }

  lemma {:induction false} OneMoreRoot(items: seq<Item>, d: Defaults, done: set<nat>, now: seq<Item>, r: nat,
        later: seq<Item>)
    requires RootsTold(items, d, done, now) && Root(items, r) && r !in done && Cascaded(now, d, r, later)
    ensures RootsTold(items, d, done + {r}, later)
  {
    var p := LinksOf(items);
    forall j | 0 <= j < |items|
      ensures later[j] == items[j] || (Given(items, d, later, j) && !ShowsFixed(later, d, items[j].parent.value))
    {
      RootFilled(items, d, done, now, r, later, j);
    }
    forall j, s | 0 <= j < |items| && s in done && Descends(p, j, s)
      ensures Obeys(later, d, j)
    {
      if Under(p, j, r) {
        RootsApart(p, j, r, s);
      }
      RootTellApart(items, d, done, now, r, later, j);
    }
  }

  /** Once every root has signalled, every item obeys the font rule. */
  lemma {:induction false} RootsReachAll(items: seq<Item>, d: Defaults, done: set<nat>, later: seq<Item>)
    requires RootsTold(items, d, done, later) && OwnFontsFixed(items)
    requires forall r :: Root(items, r) ==> r in done
    ensures Proper(later, d)
  {
    FilledKeepsOwnFonts(items, d, later);
    forall j | 0 <= j < |items|
      ensures Obeys(later, d, j)
    {
      var r := RootOf(LinksOf(items), j);
      assert Root(items, r);
    }
  }

  /** What Palette::updateFromJson leaves behind; it refuses files of another version. */
  ghost predicate Loaded(items: seq<Item>, d: Defaults, file: ThemeFile, later: seq<Item>)
    requires Forest(items)
  {
    if file.version != VERSION then later == items
    else
      var g := LoadFirst(items, d, file.items, |file.items|);
      g.Some? && RootsTold(g.value, d, Roots(g.value), later)
  }

  /* Loading any file keeps the rules. */

  lemma {:induction false} RelinkedKeepsOwnFonts(items: seq<Item>, d: Defaults, i: nat, parent: Option<nat>)
    requires Forest(items) && i < |items| && (parent.Some? ==> parent.value < |items|) && OwnFontsFixed(items)
    ensures OwnFontsFixed(Relinked(items, d, i, parent))
  {
    hide NeedsFont, WouldCycle;
  }

  lemma {:induction false} LoadItemKeepsOwnFonts(items: seq<Item>, d: Defaults, i: nat, parent: Option<nat>,
        s: SavedItem)
    requires Forest(items) && i < |items| && (parent.Some? ==> parent.value < |items|) && OwnFontsFixed(items)
    ensures OwnFontsFixed(LoadItem(items, d, i, parent, s))
  {
    hide Relinked, NeedsFont, FromHex;
    RelinkedKeepsOwnFonts(items, d, i, parent);
  }

  lemma {:induction false} LoadFirstKeepsOwnFonts(items: seq<Item>, d: Defaults, saved: seq<SavedItem>, k: nat)
    requires Forest(items) && k <= |saved| && OwnFontsFixed(items)
    ensures var g := LoadFirst(items, d, saved, k); g.Some? ==> OwnFontsFixed(g.value)
  {
    hide LoadItem, OwnFontsFixed;
    if k == 0 {
    } else {
      LoadFirstKeepsOwnFonts(items, d, saved, k - 1);
      var g, s := LoadFirst(items, d, saved, k - 1), saved[k - 1];
      if g.Some? && !OutOfRange(|items|, s) && !Skipped(|items|, s) {
        LoadItemKeepsOwnFonts(g.value, d, s.name.value, SavedParent(s), s);
      }
    }
  }

  /** Whatever the file says, if loading it is defined, then the items are a forest that obeys the font
      rule afterwards. */
  lemma {:induction false} LoadKeepsProper(items: seq<Item>, d: Defaults, file: ThemeFile, later: seq<Item>)
    requires Proper(items, d) && Loaded(items, d, file, later)
    ensures Proper(later, d) && |later| == |items|
  {
    if file.version == VERSION {
      var g := LoadFirst(items, d, file.items, |file.items|).value;
      LoadFirstKeepsOwnFonts(items, d, file.items, |file.items|);
      RootsReachAll(g, d, Roots(g), later);
    }
  }

  /* Loading a saved theme restores it. */

  /** The parents of the first `k` items have smaller role numbers than they have. */
  predicate EarlierBefore(items: seq<Item>, k: nat)
    requires k <= |items|
  {
    forall i :: 0 <= i < k && items[i].parent.Some? ==> items[i].parent.value < i
  }

  predicate ParentsBefore(items: seq<Item>) {
    EarlierBefore(items, |items|)
  }

  lemma {:induction false} EarlierIsNotUnder(items: seq<Item>, k: nat, j: nat, i: nat)
    requires k <= |items| && EarlierBefore(items, k) && Forest(items) && j < k && j < i
    ensures !Under(LinksOf(items), j, i)
  {
    if items[j].parent.None? {
    } else {
      EarlierIsNotUnder(items, k, items[j].parent.value, i);
    }
  }

  /** The first `k` items of `g` have the parents and show the colours of those of `a`. */
  ghost predicate Restored(a: seq<Item>, g: seq<Item>, k: nat)
    requires k <= |a| == |g| && Forest(a) && Forest(g)
  {
    forall j :: 0 <= j < k ==>
      && g[j].parent == a[j].parent
      && Foreground(g, j) == Foreground(a, j) && Background(g, j) == Background(a, j)
  }

  /** Loading item `k` changes no other item, and links it to its saved parent. */
  lemma {:induction false} LoadItemEffect(a: seq<Item>, g: seq<Item>, d: Defaults, k: nat)
    requires k < |a| == |g| && ParentsBefore(a) && EarlierBefore(g, k) && Forest(a) && Forest(g)
    ensures var s := SaveItem(a, d, k);
      var h := LoadItem(g, d, k, SavedParent(s), s);
      && SavedParent(s) == a[k].parent
      && Changed(g, k, h) && EarlierBefore(h, k + 1)
      && h[k].parent == a[k].parent && h[k].fg == Color(s.fg) && h[k].bg == Color(s.bg)
  {
    if a[k].parent.Some? {
      EarlierIsNotUnder(g, k, a[k].parent.value, k);
    }
  }

  lemma {:induction false} LoadItemRestores(a: seq<Item>, g: seq<Item>, d: Defaults, k: nat)
    requires k < |a| == |g| && ParentsBefore(a) && EarlierBefore(g, k) && Forest(a) && Forest(g) && Restored(a, g, k)
    ensures var s := SaveItem(a, d, k);
      var h := LoadItem(g, d, k, SavedParent(s), s);
      EarlierBefore(h, k + 1) && Restored(a, h, k + 1)
  {
    var s := SaveItem(a, d, k);
    var h := LoadItem(g, d, k, SavedParent(s), s);
    LoadItemEffect(a, g, d, k);
    HexRoundTrip(Foreground(a, k));
    HexRoundTrip(Background(a, k));
    forall j | 0 <= j < k
      ensures h[j].parent == a[j].parent
      ensures Foreground(h, j) == Foreground(a, j) && Background(h, j) == Background(a, j)
    {
      EarlierIsNotUnder(g, k, j, k);
      ShownElsewhere(g, d, h, k, j);
    }
  }

  /** What saving writes can always be loaded. */
  lemma {:induction false} SavedLoads(a: seq<Item>, b: seq<Item>, d: Defaults, k: nat)
    requires Forest(a) && Forest(b) && k <= |a| == |b|
    ensures LoadFirst(b, d, Save(a, d).items, k).Some?
  {
    LoadIsDefinedExactly(b, d, Save(a, d).items, k);
  }

  function LoadSaved(a: seq<Item>, b: seq<Item>, d: Defaults, k: nat): (r: seq<Item>)
    requires Forest(a) && Forest(b) && k <= |a| == |b|
    ensures Forest(r) && |r| == |b|
  {
    SavedLoads(a, b, d, k);
    LoadFirst(b, d, Save(a, d).items, k).value
  }

  lemma {:induction false} LoadedFromSaved(a: seq<Item>, b: seq<Item>, d: Defaults, later: seq<Item>)
    requires Forest(a) && Forest(b) && |a| == |b| && Loaded(b, d, Save(a, d), later)
    ensures var g := LoadSaved(a, b, d, |a|); RootsTold(g, d, Roots(g), later)
  {
  }

  lemma {:induction false} NoneLoaded(a: seq<Item>, b: seq<Item>, d: Defaults)
    requires Forest(a) && Forest(b) && |a| == |b|
    ensures LoadSaved(a, b, d, 0) == b
  {
  }

  lemma {:induction false} LoadStep(items: seq<Item>, d: Defaults, saved: seq<SavedItem>, k: nat)
    requires Forest(items) && 0 < k <= |saved| && LoadFirst(items, d, saved, k).Some?
    ensures var g, s := LoadFirst(items, d, saved, k - 1), saved[k - 1];
      && g.Some? && !OutOfRange(|items|, s)
      && (!Skipped(|items|, s) ==>
        LoadFirst(items, d, saved, k) == Some(LoadItem(g.value, d, s.name.value, SavedParent(s), s)))
  {
    hide LoadItem;
  }

  lemma {:induction false} SavedInOrder(a: seq<Item>, d: Defaults, i: nat)
    requires Forest(a) && i < |a|
    ensures var s := SaveItem(a, d, i);
      && Save(a, d).items[i] == s && s.name == Known(i) && !Skipped(|a|, s)
      && (SavedParent(s).Some? ==> SavedParent(s).value < |a|)
  {
  }

  /** One turn of the loading loop, on a saved palette. */
  lemma {:induction false} LoadNext(a: seq<Item>, b: seq<Item>, d: Defaults, k: nat)
    requires Forest(a) && Forest(b) && 0 < k <= |a| == |b|
    ensures var s := SaveItem(a, d, k - 1);
      var g := LoadSaved(a, b, d, k - 1);
      && (SavedParent(s).Some? ==> SavedParent(s).value < |a|)
      && LoadSaved(a, b, d, k) == LoadItem(g, d, k - 1, SavedParent(s), s)
  {
    hide LoadItem, SaveItem, Save, LoadFirst, SavedParent, Skipped, OutOfRange;
    SavedLoads(a, b, d, k);
    SavedInOrder(a, d, k - 1);
    LoadStep(b, d, Save(a, d).items, k);
  }

  lemma {:induction false} NothingRestored(a: seq<Item>, g: seq<Item>)
    requires |a| == |g| && Forest(a) && Forest(g)
    ensures Restored(a, g, 0) && EarlierBefore(g, 0)
  {
  }

  lemma {:induction false} LoadFirstRestores(a: seq<Item>, b: seq<Item>, d: Defaults, k: nat)
    requires ParentsBefore(a) && Forest(a) && Forest(b) && k <= |a| == |b|
    ensures var g := LoadSaved(a, b, d, k);
      EarlierBefore(g, k) && Restored(a, g, k)
  {
    hide LoadItem, SaveItem, LoadSaved, Restored, EarlierBefore;
    if k == 0 {
      NoneLoaded(a, b, d);
      NothingRestored(a, b);
    } else {
      LoadNext(a, b, d, k);
      LoadFirstRestores(a, b, d, k - 1);
      LoadItemRestores(a, LoadSaved(a, b, d, k - 1), d, k - 1);
    }
  }

  /** If every parent in the saved palette has a smaller role number, then loading it into any palette
      restores the parents and the colours that every item shows. */
  lemma {:induction false} LoadRestores(a: seq<Item>, b: seq<Item>, d: Defaults, later: seq<Item>)
    requires ParentsBefore(a) && Forest(a) && Forest(b) && |a| == |b|
    requires Loaded(b, d, Save(a, d), later)
    ensures |later| == |a| && Forest(later)
    ensures forall i :: 0 <= i < |a| ==>
      && later[i].parent == a[i].parent
      && Foreground(later, i) == Foreground(a, i) && Background(later, i) == Background(a, i)
  {
    var g := LoadSaved(a, b, d, |a|);
    LoadedFromSaved(a, b, d, later);
    LoadFirstRestores(a, b, d, |a|);
    forall i | 0 <= i < |a|
      ensures later[i].parent == a[i].parent
      ensures Foreground(later, i) == Foreground(a, i) && Background(later, i) == Background(a, i)
    {
      FilledKeepsColors(g, d, later, i);
    }
  }

  /** A parent with a larger role number is dropped. */
  lemma {:induction false} LaterParentIsDropped(a: seq<Item>, b: seq<Item>, d: Defaults, k: nat, i: nat)
    requires Forest(a) && Forest(b) && i < k <= |a| == |b|
    requires a[i].parent.Some? && a[i].parent.value >= i
    ensures LoadSaved(a, b, d, k)[i].parent.None?
  {
    hide LoadItem, LoadSaved, Save, SaveItem;
    LoadNext(a, b, d, k);
    SavedLink(a, d, k - 1);
    var g := LoadSaved(a, b, d, k - 1);
    var s := SaveItem(a, d, k - 1);
    LoadItemParent(g, d, k - 1, SavedParent(s), s);
    if i == k - 1 {
    } else {
      LaterParentIsDropped(a, b, d, k - 1, i);
    }
  }

  lemma {:induction false} SavedLink(a: seq<Item>, d: Defaults, i: nat)
    requires Forest(a) && i < |a|
    ensures var s := SaveItem(a, d, i);
      && s.name == Known(i)
      && s.parent == if a[i].parent.Some? then Some(Known(a[i].parent.value)) else None
  {
  }

  lemma {:induction false} LoadItemParent(g: seq<Item>, d: Defaults, i: nat, parent: Option<nat>, s: SavedItem)
    requires Forest(g) && i < |g| && (parent.Some? ==> parent.value < |g|)
    ensures var h := LoadItem(g, d, i, parent, s);
      Changed(g, i, h) && (parent.None? ==> h[i].parent.None?)
  {
  }

  /** Whatever palette it is loaded into, an item whose parent is missing, unknown, itself, or a later role ends
      up as a root. */
  lemma {:induction false} BadParentMeansRoot(items: seq<Item>, d: Defaults, saved: seq<SavedItem>, k: nat)
    requires Forest(items) && k < |saved| && LoadFirst(items, d, saved, k + 1).Some?
    requires saved[k].name.Known? && 0 <= saved[k].name.value < |items|
    requires saved[k].parent.None? || saved[k].parent.value.Unknown?
      || saved[k].parent.value.value >= saved[k].name.value
    ensures LoadFirst(items, d, saved, k + 1).value[saved[k].name.value].parent.None?
  {
    hide LoadItem;
    LoadStep(items, d, saved, k + 1);
    var g, s := LoadFirst(items, d, saved, k).value, saved[k];
    LoadItemParent(g, d, s.name.value, SavedParent(s), s);
  }

  /** Loading a saved palette restores the parents exactly when all of them have smaller role numbers. */
  lemma {:induction false} LoadRestoresParentsExactly(a: seq<Item>, b: seq<Item>, d: Defaults, later: seq<Item>)
    requires Forest(a) && Forest(b) && |a| == |b| && Loaded(b, d, Save(a, d), later)
    ensures |later| == |a|
    ensures (forall i :: 0 <= i < |a| ==> later[i].parent == a[i].parent) <==> ParentsBefore(a)
  {
    var g := LoadSaved(a, b, d, |a|);
    LoadedFromSaved(a, b, d, later);
    if ParentsBefore(a) {
      LoadRestores(a, b, d, later);
    } else {
      var i :| 0 <= i < |a| && a[i].parent.Some? && a[i].parent.value >= i;
      LaterParentIsDropped(a, b, d, |a|, i);
      assert later[i].parent == LinksOf(later)[i] == LinksOf(g)[i];
    }
  }

  /* Fonts are restored too, but for mono roots that show a font that is not fixed-pitch. */

  predicate HasOwnFont(item: Item) {
    item.parent.None? || item.font.Some?
  }

  /** The same font, but for its features, which a theme file does not mention. */
  predicate SameText(f: Font, g: Font) {
    FontText(f) == FontText(g)
  }

  ghost predicate FontsRestored(a: seq<Item>, g: seq<Item>, d: Defaults, k: nat)
    requires k <= |a| == |g| && Forest(a) && Forest(g)
  {
    forall j :: 0 <= j < k ==> SameText(ShownFont(g, d, j), ShownFont(a, d, j))
  }

  /** What loading an item with a font of its own gives it. */
  lemma {:induction false} LoadOwnFont(a: seq<Item>, g: seq<Item>, d: Defaults, k: nat)
    requires Forest(a) && Forest(g) && k < |a| == |g| && ParentsBefore(a) && HasOwnFont(a[k])
    ensures var s := SaveItem(a, d, k);
      var h := LoadItem(g, d, k, SavedParent(s), s);
      && h[k].font == Some(UpdatedFont(d, k, FontText(ShownFont(a, d, k))))
      && ShownFont(h, d, k) == h[k].font.value
  {
  }

  /** An item that inherits its font inherits it again, if its parent obeys the rule. */
  lemma {:induction false} LoadInherits(a: seq<Item>, g: seq<Item>, d: Defaults, k: nat)
    requires k < |a| == |g| && ParentsBefore(a) && EarlierBefore(g, k) && Forest(a) && Forest(g)
    requires !HasOwnFont(a[k]) && (RequiresMono(k) ==> ShowsFixed(g, d, a[k].parent.value))
    ensures var s := SaveItem(a, d, k);
      var h := LoadItem(g, d, k, SavedParent(s), s);
      h[k].font.None? && h[k].overrides == a[k].overrides
  {
    hide ToHex, FromHex, Foreground, Background;
    var q := a[k].parent.value;
    var s := SaveItem(a, d, k);
    EarlierIsNotUnder(g, k, q, k);
    var u := Relinked(g, d, k, a[k].parent);
    assert Changed(g, k, u) && u[k].parent == a[k].parent;
    var item := u[k].(fg := Color(s.fg), bg := Color(s.bg), overrides := NO_OVERRIDES, font := None);
    SameForest(u, k, item);
    ShownElsewhere(g, d, u[k := item], k, q);
    assert !NeedsFont(u[k := item], d, k);
  }

  lemma {:induction false} LoadInheritedFont(a: seq<Item>, g: seq<Item>, d: Defaults, k: nat)
    requires k < |a| == |g| && ParentsBefore(a) && EarlierBefore(g, k) && Forest(a) && Forest(g)
    requires !HasOwnFont(a[k]) && (RequiresMono(k) ==> ShowsFixed(a, d, k))
    requires SameText(ShownFont(g, d, a[k].parent.value), ShownFont(a, d, a[k].parent.value))
    ensures var s := SaveItem(a, d, k);
      var h := LoadItem(g, d, k, SavedParent(s), s);
      SameText(ShownFont(h, d, k), ShownFont(a, d, k))
  {
    hide LoadItem, SaveItem, ShownFont, SameText;
    var q := a[k].parent.value;
    var s := SaveItem(a, d, k);
    LoadItemEffect(a, g, d, k);
    InheritedFixed(a, d, k);
    SameTextSamePitch(ShownFont(g, d, q), ShownFont(a, d, q));
    LoadInherits(a, g, d, k);
    var h := LoadItem(g, d, k, SavedParent(s), s);
    EarlierIsNotUnder(g, k, q, k);
    ShownElsewhere(g, d, h, k, q);
    InheritsSameText(a, h, d, k);
  }

  lemma {:induction false} SameTextSamePitch(f: Font, g: Font)
    requires SameText(f, g)
    ensures f.fixedPitch == g.fixedPitch
  {
  }

  lemma {:induction false} InheritedFixed(a: seq<Item>, d: Defaults, k: nat)
    requires Forest(a) && k < |a| && !HasOwnFont(a[k])
    ensures ShowsFixed(a, d, k) == ShowsFixed(a, d, a[k].parent.value)
  {
  }

  lemma {:induction false} InheritsSameText(a: seq<Item>, h: seq<Item>, d: Defaults, k: nat)
    requires Forest(a) && Forest(h) && k < |a| == |h| && !HasOwnFont(a[k])
    requires h[k].parent == a[k].parent && h[k].font.None? && h[k].overrides == a[k].overrides
    requires SameText(ShownFont(h, d, a[k].parent.value), ShownFont(a, d, a[k].parent.value))
    ensures SameText(ShownFont(h, d, k), ShownFont(a, d, k))
  {
  }

  lemma {:induction false} LoadItemRestoresFont(a: seq<Item>, g: seq<Item>, d: Defaults, k: nat)
    requires k < |a| == |g| && ParentsBefore(a) && EarlierBefore(g, k) && Forest(a) && Forest(g)
    requires FontsRestored(a, g, d, k) && (RequiresMono(k) ==> ShowsFixed(a, d, k))
    ensures var s := SaveItem(a, d, k);
      var h := LoadItem(g, d, k, SavedParent(s), s);
      FontsRestored(a, h, d, k + 1)
  {
    hide LoadItem, SameText;
    var s := SaveItem(a, d, k);
    var h := LoadItem(g, d, k, SavedParent(s), s);
    LoadItemEffect(a, g, d, k);
    forall j | 0 <= j < k
      ensures SameText(ShownFont(h, d, j), ShownFont(a, d, j))
    {
      EarlierIsNotUnder(g, k, j, k);
      ShownElsewhere(g, d, h, k, j);
    }
    if HasOwnFont(a[k]) {
      LoadOwnFont(a, g, d, k);
      UpdatedHasSameText(d, k, ShownFont(a, d, k));
    } else {
      LoadInheritedFont(a, g, d, k);
    }
  }

  lemma {:induction false} UpdatedHasSameText(d: Defaults, i: nat, font: Font)
    requires RequiresMono(i) ==> font.fixedPitch
    ensures SameText(UpdatedFont(d, i, FontText(font)), font)
  {
  }

  lemma {:induction false} LoadFirstRestoresFonts(a: seq<Item>, b: seq<Item>, d: Defaults, k: nat)
    requires ParentsBefore(a) && Forest(a) && Forest(b) && k <= |a| == |b|
    requires forall i :: 0 <= i < |a| && RequiresMono(i) ==> ShowsFixed(a, d, i)
    ensures FontsRestored(a, LoadSaved(a, b, d, k), d, k)
  {
    hide LoadItem, SaveItem, LoadSaved, FontsRestored, EarlierBefore;
    if k == 0 {
      NoneLoaded(a, b, d);
      NoFontsRestored(a, b, d);
    } else {
      LoadNext(a, b, d, k);
      LoadFirstRestores(a, b, d, k - 1);
      LoadFirstRestoresFonts(a, b, d, k - 1);
      LoadItemRestoresFont(a, LoadSaved(a, b, d, k - 1), d, k - 1);
    }
  }

  lemma {:induction false} NoFontsRestored(a: seq<Item>, g: seq<Item>, d: Defaults)
    requires |a| == |g| && Forest(a) && Forest(g)
    ensures FontsRestored(a, g, d, 0)
  {
  }

  /** A mono root whose font is not fixed-pitch is loaded with the default fixed-pitch font. */
  lemma {:induction false} MonoRootIsReplaced(a: seq<Item>, b: seq<Item>, d: Defaults, k: nat, i: nat)
    requires ParentsBefore(a) && Forest(a) && Forest(b) && i < k <= |a| == |b|
    requires RequiresMono(i) && a[i].parent.None? && !ShowsFixed(a, d, i)
    ensures var g := LoadSaved(a, b, d, k); g[i].parent.None? && g[i].font == Some(d.mono)
  {
    hide LoadItem, SaveItem, LoadSaved;
    LoadNext(a, b, d, k);
    LoadFirstRestores(a, b, d, k - 1);
    var g := LoadSaved(a, b, d, k - 1);
    LoadItemEffect(a, g, d, k - 1);
    if i == k - 1 {
      LoadOwnFont(a, g, d, i);
    } else {
      MonoRootIsReplaced(a, b, d, k - 1, i);
    }
  }

  /** Where the rule is obeyed already, the signals of the roots change nothing. */
  lemma {:induction false} RootsChangeNothing(g: seq<Item>, d: Defaults, later: seq<Item>)
    requires Forest(g) && RootsTold(g, d, Roots(g), later)
    requires forall j :: 0 <= j < |g| ==> Obeys(g, d, j)
    ensures later == g
  {
    forall j | 0 <= j < |g|
      ensures later[j] == g[j]
    {
      assert Obeys(g, d, j);
      if later[j] != g[j] {
        FilledKeepsFixed(g, d, later, g[j].parent.value);
      }
    }
  }

  /** The fonts that a theme shows survive being saved and loaded, up to font features, exactly when every
      mono item shows a fixed-pitch font (which only mono roots can fail to do). */
  lemma {:induction false} LoadRestoresFontsExactly(a: seq<Item>, b: seq<Item>, d: Defaults, later: seq<Item>)
    requires ParentsBefore(a) && Forest(b) && |a| == |b| && Proper(a, d)
    requires Loaded(b, d, Save(a, d), later)
    ensures |later| == |a| && Forest(later)
    ensures FontsRestored(a, later, d, |a|)
      <==> forall i :: 0 <= i < |a| && RequiresMono(i) ==> ShowsFixed(a, d, i)
  {
    var g := LoadSaved(a, b, d, |a|);
    LoadedFromSaved(a, b, d, later);
    LoadRestores(a, b, d, later);
    if i :| 0 <= i < |a| && RequiresMono(i) && !ShowsFixed(a, d, i) {
      assert Obeys(a, d, i);
      MonoRootIsReplaced(a, b, d, |a|, i);
      assert ShowsFixed(later, d, i);
    } else {
      LoadFirstRestoresFonts(a, b, d, |a|);
      forall j | 0 <= j < |g|
        ensures Obeys(g, d, j)
      {
        assert SameText(ShownFont(g, d, j), ShownFont(a, d, j));
      }
      RootsChangeNothing(g, d, later);
    }
  }
}
