/** The list of recently used files (lib/settings/settings.cpp): a cache that is edited in place and written
    to the settings after every push. */
module RecentFiles {
  import opened Options

  /** What is remembered of a file: its architecture, its level of abstraction and its features. */
  datatype Info = Info(arch: nat, level: nat, features: nat)

  datatype RecentFile = RecentFile(path: string, info: Info)

  /** The settings hold a list of variants; those that are not recent files are None. */
  type Stored = seq<Option<RecentFile>>

  datatype State = State(cache: seq<RecentFile>, stored: Stored)

  /* Specification. */

  function Valid(stored: Stored): seq<RecentFile> {
    if stored == [] then []
    else
      var last := stored[|stored| - 1];
      Valid(stored[..|stored| - 1]) + if last.Some? then [last.value] else []
  }

  function Wrapped(files: seq<RecentFile>): (s: Stored)
    ensures |s| == |files| && forall i :: 0 <= i < |s| ==> s[i] == Some(files[i])
  {
    seq(|files|, i requires 0 <= i < |files| => Some(files[i]))
  }

  function Without(files: seq<RecentFile>, path: string): (r: seq<RecentFile>)
    ensures |r| <= |files|
  {
    if files == [] then []
    else
      var last := files[|files| - 1];
      Without(files[..|files| - 1], path) + if last.path == path then [] else [last]
  }

  function Cut(files: seq<RecentFile>, max: nat): seq<RecentFile> {
    if |files| <= max then files else files[..max]
  }

  /** The files that the user sees: the cache, read from the settings if it is empty. */
  function Shown(s: State, max: nat): seq<RecentFile> {
    if s.cache == [] then Cut(Valid(s.stored), max) else s.cache
  }

  function Pushed(files: seq<RecentFile>, f: RecentFile, max: nat): seq<RecentFile> {
    Cut([f] + Without(files, f.path), max)
  }

  /** Making room before a file is put in front does not change what is left in the end. */
  lemma {:induction false} RoomForOne(f: RecentFile, files: seq<RecentFile>, max: nat)
    requires max >= 1
    ensures |files| >= max ==> Cut([f] + files[..|files| - 1], max) == Cut([f] + files, max)
  {
    if |files| >= max {
      assert ([f] + files[..|files| - 1])[..max] == ([f] + files)[..max];
    }
  }

  class RecentFileList {
    var cache: seq<RecentFile>
    var stored: Stored
    var maxRecentFiles: int

    constructor (stored: Stored, max: int)
      ensures cache == [] && this.stored == stored && maxRecentFiles == max
    {
      cache, this.stored, maxRecentFiles := [], stored, max;
    }

    function View(): State
      reads this
    {
      State(cache, stored)
    }

    /** setMaxRecentFiles refuses values outside 1 to 10. */
    method SetMaxRecentFiles(max: int)
      modifies this`maxRecentFiles
      ensures maxRecentFiles == if 1 <= max <= 10 then max else old(maxRecentFiles)
    {
      if max <= 0 || max > 10 {
        return;
      }
      maxRecentFiles := max;
    }

    /** Drop the least recent files over the maximum. */
    method Trim()
      requires maxRecentFiles >= 0
      modifies this`cache
      ensures cache == Cut(old(cache), maxRecentFiles)
    {
      while |cache| > maxRecentFiles && cache != []
        invariant |cache| <= |old(cache)| && cache == old(cache)[..|cache|]
        invariant |old(cache)| <= maxRecentFiles ==> cache == old(cache)
        invariant |old(cache)| > maxRecentFiles ==> |cache| >= maxRecentFiles
        decreases |cache|
      {
        cache := cache[..|cache| - 1];
      }
    }

    method Refresh()
      requires maxRecentFiles >= 0
      modifies this`cache
      ensures cache == Cut(old(cache) + Valid(stored), maxRecentFiles)
    {
      for i := 0 to |stored|
        invariant cache == old(cache) + Valid(stored[..i])
      {
        assert stored[..i + 1][..i] == stored[..i];
        if stored[i].Some? {
          cache := cache + [stored[i].value];
        }
      }
      assert stored[..|stored|] == stored;
      Trim();
    }

    /** remove_if and erase */
    method Remove(path: string)
      modifies this`cache
      ensures cache == Without(old(cache), path)
    {
      var kept: seq<RecentFile> := [];
      for i := 0 to |cache|
        invariant kept == Without(cache[..i], path)
      {
        assert cache[..i + 1][..i] == cache[..i];
        if cache[i].path != path {
          kept := kept + [cache[i]];
        }
      }
      assert cache[..|cache|] == cache;
      cache := kept;
    }

    /** Write the cache to the settings. */
    method Save()
      modifies this`stored
      ensures stored == Wrapped(cache)
    {
      var out: Stored := [];
      for i := 0 to |cache|
        invariant |out| == i && forall j :: 0 <= j < i ==> out[j] == Some(cache[j])
      {
        out := out + [Some(cache[i])];
      }
      stored := out;
    }

    method PushRecentFile(f: RecentFile)
      requires maxRecentFiles >= 1
      modifies this`cache, this`stored
      ensures cache == Pushed(Shown(old(View()), maxRecentFiles), f, maxRecentFiles)
      ensures stored == Wrapped(cache)
    {
      if cache == [] {
        Refresh();
      }
      assert cache == Shown(old(View()), maxRecentFiles);
      Remove(f.path);
      RoomForOne(f, cache, maxRecentFiles);
      if |cache| >= maxRecentFiles {
        cache := cache[..|cache| - 1];
      }
      cache := [f] + cache;
      Trim();
      Save();
    }

    method ClearRecentFiles()
      modifies this`cache, this`stored
      ensures cache == [] && stored == []
    {
      cache := [];
      stored := [];
    }

    method RecentFiles() returns (files: seq<RecentFile>)
      requires maxRecentFiles >= 0
      modifies this`cache
      ensures files == cache == Shown(old(View()), maxRecentFiles)
    {
      if cache == [] {
        Refresh();
      }
      files := cache;
    }
  }

  /* Histories. */

  /** What happens to the list; a restart of the program loses the cache and keeps the settings. */
  datatype Op = Push(f: RecentFile) | Clear | Query | Restart

  function Step(s: State, op: Op, max: nat): State {
    match op
    case Push(f) => var c := Pushed(Shown(s, max), f, max); State(c, Wrapped(c))
    case Clear => State([], [])
    case Query => s.(cache := Shown(s, max))
    case Restart => s.(cache := [])
  }

  function Run(ops: seq<Op>, max: nat): State {
    if ops == [] then State([], []) else Step(Run(ops[..|ops| - 1], max), ops[|ops| - 1], max)
  }

  /** A query reads the settings into an empty cache; clearing empties both; a restart leaves only what was
      stored to be shown. */
  lemma {:induction false} OpEffects(s: State, max: nat)
    ensures Step(s, Query, max).cache == Shown(s, max) && Shown(Step(s, Query, max), max) == Shown(s, max)
    ensures Shown(Step(s, Clear, max), max) == []
    ensures Shown(Step(s, Restart, max), max) == Cut(Valid(s.stored), max)
    ensures Step(s, Query, max).stored == Step(s, Restart, max).stored == s.stored
  {
  }

  /** The pushes since the list was last cleared, in order. */
  function History(ops: seq<Op>): seq<RecentFile> {
    if ops == [] then []
    else
      var before := History(ops[..|ops| - 1]);
      match ops[|ops| - 1]
      case Push(f) => before + [f]
      case Clear => []
      case Query => before
      case Restart => before
  }

  /** When a path was last pushed; -1 if it was not. */
  function LastPush(h: seq<RecentFile>, path: string): (k: int)
    ensures -1 <= k < |h|
    ensures k >= 0 ==> h[k].path == path
    ensures forall j :: k < j < |h| ==> h[j].path != path
  {
    if h == [] then -1
    else if h[|h| - 1].path == path then |h| - 1
    else LastPush(h[..|h| - 1], path)
  }

  predicate Lists(files: seq<RecentFile>, path: string) {
    exists i :: 0 <= i < |files| && files[i].path == path
  }

  /** `files` are the most recently pushed distinct paths, most recent first, each with the information of
      its latest push; a pushed path is missing only if there is no room for it. */
  ghost predicate MostRecent(h: seq<RecentFile>, max: nat, files: seq<RecentFile>) {
    && |files| <= max
    && (forall i :: 0 <= i < |files| ==>
          LastPush(h, files[i].path) >= 0 && h[LastPush(h, files[i].path)] == files[i])
    && (forall i, j :: 0 <= i < j < |files| ==> LastPush(h, files[i].path) > LastPush(h, files[j].path))
    && (forall k :: 0 <= k < |h| && !Lists(files, h[k].path) ==>
          && |files| == max
          && forall i :: 0 <= i < |files| ==> LastPush(h, h[k].path) < LastPush(h, files[i].path))
  }

  /** Two most recent lists agree as far as they go. */
  lemma {:induction false} MostRecentAgree(h: seq<RecentFile>, max: nat, a: seq<RecentFile>, b: seq<RecentFile>, n: nat)
    requires MostRecent(h, max, a) && MostRecent(h, max, b) && n <= |a| && n <= |b|
    ensures forall j :: 0 <= j < n ==> a[j] == b[j]
  {
    hide LastPush, MostRecent;
    if n == 0 {
    } else {
      MostRecentAgree(h, max, a, b, n - 1);
      NotBehind(h, max, a, b, n - 1);
      NotBehind(h, max, b, a, n - 1);
      LatestIsThere(h, max, a, n - 1);
      LatestIsThere(h, max, b, n - 1);
    }
  }

  lemma {:induction false} NotBehind(h: seq<RecentFile>, max: nat, a: seq<RecentFile>, b: seq<RecentFile>, i: nat)
    requires MostRecent(h, max, a) && MostRecent(h, max, b) && i < |a| && i < |b|
    requires forall j :: 0 <= j < i ==> a[j] == b[j]
    ensures LastPush(h, a[i].path) <= LastPush(h, b[i].path)
  {
    hide LastPush;
    var k := LastPush(h, a[i].path);
    LatestIsThere(h, max, a, i);
    assert forall j :: 0 <= j < i ==> b[j].path != a[i].path;
    if Lists(b, a[i].path) {
      var j :| 0 <= j < |b| && b[j].path == a[i].path;
    } else {
      assert h[k].path == a[i].path;
    }
  }

  /** Only one list is the most recent one. */
  lemma {:induction false} MostRecentIsDetermined(h: seq<RecentFile>, max: nat, a: seq<RecentFile>, b: seq<RecentFile>)
    requires MostRecent(h, max, a) && MostRecent(h, max, b)
    ensures a == b
  {
    MostRecentNotShorter(h, max, a, b);
    MostRecentNotShorter(h, max, b, a);
    MostRecentAgree(h, max, a, b, |a|);
  }

  lemma {:induction false} MostRecentNotShorter(h: seq<RecentFile>, max: nat, a: seq<RecentFile>, b: seq<RecentFile>)
    requires MostRecent(h, max, a) && MostRecent(h, max, b)
    ensures |b| <= |a|
  {
    hide LastPush;
    if |a| < |b| {
      MostRecentAgree(h, max, a, b, |a|);
      LatestIsThere(h, max, b, |a|);
    }
  }

  lemma {:induction false} LatestIsThere(h: seq<RecentFile>, max: nat, b: seq<RecentFile>, i: nat)
    requires MostRecent(h, max, b) && i < |b|
    ensures var k := LastPush(h, b[i].path); 0 <= k < |h| && h[k] == b[i]
  {
  }

  /* One push. */

  /** Removing a path keeps exactly the other files. */
  lemma {:induction false} WithoutMembers(files: seq<RecentFile>, path: string, x: RecentFile)
    ensures x in Without(files, path) <==> x in files && x.path != path
  {
    if files == [] {
    } else {
      var front, last := files[..|files| - 1], files[|files| - 1];
      WithoutMembers(front, path, x);
      assert files == front + [last];
    }
  }

  ghost predicate Descending(h: seq<RecentFile>, files: seq<RecentFile>) {
    forall i, j :: 0 <= i < j < |files| ==> LastPush(h, files[i].path) > LastPush(h, files[j].path)
  }

  lemma {:induction false} WithoutDescends(h: seq<RecentFile>, files: seq<RecentFile>, path: string)
    requires Descending(h, files)
    ensures Descending(h, Without(files, path)) && |Without(files, path)| >= |files| - 1
  {
    hide LastPush, Descending;
    if files == [] {
      assert Without(files, path) == files;
    } else {
      var front, last := files[..|files| - 1], files[|files| - 1];
      assert files == front + [last];
      FrontDescends(h, front, last);
      WithoutDescends(h, front, path);
      if last.path == path {
        WithoutOther(front, path);
        assert Without(files, path) == front;
      } else {
        WithoutAppends(h, front, last, path);
      }
    }
  }

  lemma {:induction false} FrontDescends(h: seq<RecentFile>, front: seq<RecentFile>, last: RecentFile)
    requires Descending(h, front + [last])
    ensures Descending(h, front) && forall i :: 0 <= i < |front| ==> front[i].path != last.path
  {
    hide LastPush;
    var files := front + [last];
    assert forall i :: 0 <= i < |front| ==> files[i] == front[i];
    assert files[|front|] == last;
  }

  lemma {:induction false} WithoutAppends(h: seq<RecentFile>, front: seq<RecentFile>, last: RecentFile, path: string)
    requires Descending(h, front + [last]) && Descending(h, Without(front, path))
    ensures Descending(h, Without(front, path) + [last])
  {
    hide LastPush;
    var r := Without(front, path);
    forall i | 0 <= i < |r|
      ensures LastPush(h, r[i].path) > LastPush(h, last.path)
    {
      WithoutMembers(front, path, r[i]);
      var j :| 0 <= j < |front| && front[j] == r[i];
      assert (front + [last])[j] == r[i] && (front + [last])[|front|] == last;
    }
  }

  lemma {:induction false} WithoutOther(files: seq<RecentFile>, path: string)
    requires forall i :: 0 <= i < |files| ==> files[i].path != path
    ensures Without(files, path) == files
  {
    if files == [] {
    } else {
      WithoutOther(files[..|files| - 1], path);
    }
  }

  lemma {:induction false} PushedLater(h: seq<RecentFile>, f: RecentFile, path: string)
    ensures LastPush(h + [f], path) == if path == f.path then |h| else LastPush(h, path)
  {
    assert (h + [f])[..|h|] == h;
  }

  /** The pushed file and the others, before they are cut to the maximum. */
  ghost predicate Ranked(h: seq<RecentFile>, f: RecentFile, all: seq<RecentFile>) {
    && |all| >= 1 && all[0] == f
    && (forall i :: 1 <= i < |all| ==>
          all[i].path != f.path && LastPush(h, all[i].path) >= 0 && h[LastPush(h, all[i].path)] == all[i])
    && Descending(h, all[1..])
  }

  lemma {:induction false} RankedAfter(h: seq<RecentFile>, f: RecentFile, all: seq<RecentFile>)
    requires Ranked(h, f, all)
    ensures Descending(h + [f], all)
    ensures forall i :: 0 <= i < |all| ==>
      LastPush(h + [f], all[i].path) >= 0 && (h + [f])[LastPush(h + [f], all[i].path)] == all[i]
  {
    hide LastPush;
    forall i | 0 <= i < |all|
      ensures LastPush(h + [f], all[i].path) == if i == 0 then |h| else LastPush(h, all[i].path)
    {
      PushedLater(h, f, all[i].path);
    }
    forall i, j | 0 <= i < j < |all|
      ensures LastPush(h + [f], all[i].path) > LastPush(h + [f], all[j].path)
    {
      if i > 0 {
        assert all[1..][i - 1] == all[i] && all[1..][j - 1] == all[j];
      } else {
        LastPushBelow(h, all[j].path);
      }
    }
  }

  lemma {:induction false} LastPushBelow(h: seq<RecentFile>, path: string)
    ensures LastPush(h, path) < |h|
  {
  }

  lemma {:induction false} PushedRanked(h: seq<RecentFile>, max: nat, files: seq<RecentFile>, f: RecentFile)
    requires MostRecent(h, max, files)
    ensures Ranked(h, f, [f] + Without(files, f.path))
  {
    hide LastPush;
    var all := [f] + Without(files, f.path);
    WithoutDescends(h, files, f.path);
    assert all[1..] == Without(files, f.path);
    forall i | 1 <= i < |all|
      ensures all[i].path != f.path && LastPush(h, all[i].path) >= 0 && h[LastPush(h, all[i].path)] == all[i]
    {
      assert all[i] in Without(files, f.path);
      WithoutMembers(files, f.path, all[i]);
      var j :| 0 <= j < |files| && files[j] == all[i];
    }
  }

  /** A path that is missing after a push was pushed before everything that is listed. */
  lemma {:induction false} MissingIsOlder(h: seq<RecentFile>, max: nat, files: seq<RecentFile>, f: RecentFile,
        path: string)
    requires MostRecent(h, max, files) && max >= 1 && LastPush(h, path) >= 0
    requires !Lists(Pushed(files, f, max), path)
    ensures var l := Pushed(files, f, max);
      && |l| == max && path != f.path
      && forall i :: 0 <= i < |l| ==> LastPush(h + [f], path) < LastPush(h + [f], l[i].path)
  {
    hide LastPush;
    var all, l := [f] + Without(files, f.path), Pushed(files, f, max);
    assert l[0].path == f.path;
    if Lists(files, path) {
      var j :| 0 <= j < |files| && files[j].path == path;
      WithoutMembers(files, f.path, files[j]);
      assert files[j] in all;
      var m :| 0 <= m < |all| && all[m] == files[j];
      PushedRanked(h, max, files, f);
      RankedAfter(h, f, all);
      CutIsOlder(h + [f], all, max, m);
    } else {
      OlderThanListed(h, max, files, f, path);
    }
  }

  lemma {:induction false} CutLists(all: seq<RecentFile>, max: nat)
    ensures forall i :: 0 <= i < |all| && i < |Cut(all, max)| ==> Lists(Cut(all, max), all[i].path)
  {
    forall i | 0 <= i < |all| && i < |Cut(all, max)|
      ensures Lists(Cut(all, max), all[i].path)
    {
      assert Cut(all, max)[i].path == all[i].path;
    }
  }

  /** What is cut off is older than what is left. */
  lemma {:induction false} CutIsOlder(h: seq<RecentFile>, all: seq<RecentFile>, max: nat, m: nat)
    requires Descending(h, all) && m < |all| && !Lists(Cut(all, max), all[m].path)
    ensures var l := Cut(all, max);
      |l| == max && forall i :: 0 <= i < |l| ==> LastPush(h, all[m].path) < LastPush(h, l[i].path)
  {
    hide LastPush;
    var l := Cut(all, max);
    CutLists(all, max);
  }

  lemma {:induction false} OlderThanListed(h: seq<RecentFile>, max: nat, files: seq<RecentFile>, f: RecentFile,
        path: string)
    requires MostRecent(h, max, files) && max >= 1 && LastPush(h, path) >= 0 && path != f.path
    requires !Lists(files, path)
    ensures var l := Pushed(files, f, max);
      && |l| == max
      && forall i :: 0 <= i < |l| ==> LastPush(h + [f], path) < LastPush(h + [f], l[i].path)
  {
    hide LastPush;
    var k := LastPush(h, path);
    AtLastPush(h, path);
    WithoutDescends(h, files, f.path);
    var l := Pushed(files, f, max);
    PushedLater(h, f, path);
    forall i | 0 <= i < |l|
      ensures LastPush(h + [f], path) < LastPush(h + [f], l[i].path)
    {
      PushedLater(h, f, l[i].path);
      if i > 0 {
        assert l[i] in Without(files, f.path);
        WithoutMembers(files, f.path, l[i]);
        var j :| 0 <= j < |files| && files[j] == l[i];
      }
    }
  }

  lemma {:induction false} AtLastPush(h: seq<RecentFile>, path: string)
    ensures LastPush(h, path) < |h| && (LastPush(h, path) >= 0 ==> h[LastPush(h, path)].path == path)
  {
  }

  /** A push leads from the most recent list to the most recent list. */
  lemma {:induction false} PushKeepsMostRecent(h: seq<RecentFile>, max: nat, files: seq<RecentFile>, f: RecentFile)
    requires MostRecent(h, max, files) && max >= 1
    ensures MostRecent(h + [f], max, Pushed(files, f, max))
  {
    hide LastPush, Lists, Without;
    var l := Pushed(files, f, max);
    PushedDescends(h, max, files, f);
    forall k | 0 <= k < |h + [f]| && !Lists(l, (h + [f])[k].path)
      ensures |l| == max
      ensures forall i :: 0 <= i < |l| ==> LastPush(h + [f], (h + [f])[k].path) < LastPush(h + [f], l[i].path)
    {
      MissingAfterPush(h, max, files, f, k);
    }
  }

  /** What a push lists is in order, each with its latest push. */
  lemma {:induction false} PushedDescends(h: seq<RecentFile>, max: nat, files: seq<RecentFile>, f: RecentFile)
    requires MostRecent(h, max, files) && max >= 1
    ensures var l := Pushed(files, f, max);
      && |l| <= max
      && (forall i :: 0 <= i < |l| ==>
            LastPush(h + [f], l[i].path) >= 0 && (h + [f])[LastPush(h + [f], l[i].path)] == l[i])
      && (forall i, j :: 0 <= i < j < |l| ==> LastPush(h + [f], l[i].path) > LastPush(h + [f], l[j].path))
  {
    hide LastPush, MostRecent, Ranked;
    var all, l := [f] + Without(files, f.path), Pushed(files, f, max);
    PushedRanked(h, max, files, f);
    RankedAfter(h, f, all);
    assert forall i :: 0 <= i < |l| ==> l[i] == all[i];
  }

  lemma {:induction false} MissingAfterPush(h: seq<RecentFile>, max: nat, files: seq<RecentFile>, f: RecentFile, k: nat)
    requires MostRecent(h, max, files) && max >= 1 && k < |h + [f]|
    requires !Lists(Pushed(files, f, max), (h + [f])[k].path)
    ensures var l := Pushed(files, f, max);
      && |l| == max
      && forall i :: 0 <= i < |l| ==> LastPush(h + [f], (h + [f])[k].path) < LastPush(h + [f], l[i].path)
  {
    hide LastPush, MostRecent;
    assert Pushed(files, f, max)[0].path == f.path;
    PushedBefore(h, k);
    MissingIsOlder(h, max, files, f, h[k].path);
  }

  lemma {:induction false} PushedBefore(h: seq<RecentFile>, k: nat)
    requires k < |h|
    ensures LastPush(h, h[k].path) >= 0
  {
  }

  /* Whole histories. */

  lemma {:induction false} ValidOfWrapped(files: seq<RecentFile>)
    ensures Valid(Wrapped(files)) == files
  {
    if files == [] {
    } else {
      var front := files[..|files| - 1];
      ValidOfWrapped(front);
      assert Wrapped(files)[..|files| - 1] == Wrapped(front);
      assert files == front + [files[|files| - 1]];
    }
  }

  /** The settings always hold what is in the cache, unless the cache is empty. */
  ghost predicate Coherent(s: State, max: nat) {
    s.stored == Wrapped(Shown(s, max))
  }

  /** From an empty store, with a fixed maximum of at least 1, after any pushes, queries, clearings and
      restarts, the list shown is the distinct paths pushed since the last clearing, most recent first and
      cut to the maximum, each with the information of its latest push. */
  lemma {:induction false} ShownIsMostRecent(ops: seq<Op>, max: nat)
    requires max >= 1
    ensures Coherent(Run(ops, max), max)
    ensures MostRecent(History(ops), max, Shown(Run(ops, max), max))
  {
    if ops == [] {
    } else {
      var front, op := ops[..|ops| - 1], ops[|ops| - 1];
      ShownIsMostRecent(front, max);
      var s := Run(front, max);
      ValidOfWrapped(Shown(s, max));
      match op
      case Push(f) =>
        PushKeepsMostRecent(History(front), max, Shown(s, max), f);
        ValidOfWrapped(Pushed(Shown(s, max), f, max));
      case Clear =>
      case Query =>
      case Restart =>
    }
  }
}
