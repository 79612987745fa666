/** The list tool: which paths it skips, how it draws the directory tree it
    collected, and the result it reports. Walking the directory is a
    parameter (the files found and the tree built from them); `fnmatch` is a
    parameter. A path is the normalised text `str(Path(p))`. */
module List {
  import opened Wrappers
  import opened Values
  import opened Text
  import opened Paths
  import opened ToolBase

  /** The patterns always ignored, in order. */
  const IgnorePatterns: seq<string> := [
    "node_modules/", "__pycache__/", ".git/", "dist/", "build/", "target/", "vendor/", "bin/", "obj/",
    ".idea/", ".vscode/", ".zig-cache/", "zig-out/", ".coverage", "coverage/", "tmp/", "temp/", ".cache/",
    "cache/", "logs/", ".venv/", "venv/", "env/", ".pytest_cache/", ".mypy_cache/", ".tox/", "*.pyc",
    "*.pyo", "*.egg-info/", ".DS_Store", "Thumbs.db"
  ]

  /** The number of files after which listing stops. */
  const Limit: nat := 100

  const TruncatedNote := "(Results are truncated. Consider using a more specific path or ignore patterns.)"

  /** A pattern ending in '/' names a directory: it hits when the name
      without the '/' occurs anywhere in the path or is the path's name. */
  predicate DirPatternHits(path: string, pattern: string) {
    EndsWith(pattern, "/") &&
      (Contains(path, pattern[..|pattern| - 1]) || Name(path) == pattern[..|pattern| - 1])
  }

  /** Any other pattern is a glob tried on the name and on the whole path. */
  predicate GlobHits(path: string, pattern: string, fnmatch: (string, string) -> bool) {
    fnmatch(Name(path), pattern) || fnmatch(path, pattern)
  }

  predicate DefaultPatternHits(path: string, pattern: string, fnmatch: (string, string) -> bool) {
    if EndsWith(pattern, "/") then DirPatternHits(path, pattern) else GlobHits(path, pattern, fnmatch)
  }

  /** The loops over a pattern list: some pattern hits. */
  predicate AnyHit(patterns: seq<string>, hit: string -> bool) {
    patterns != [] && (hit(patterns[0]) || AnyHit(patterns[1..], hit))
  }

  lemma {:induction false} AnyHitSpec(patterns: seq<string>, hit: string -> bool)
    ensures AnyHit(patterns, hit) <==> exists k :: 0 <= k < |patterns| && hit(patterns[k])
  {
    if patterns != [] {
      AnyHitSpec(patterns[1..], hit);
      assert forall k :: 0 < k < |patterns| ==> patterns[k] == patterns[1..][k - 1];
    }
  }

  /** `_should_ignore`. */
  function ShouldIgnore(path: string, ignore: seq<string>, showHidden: bool, fnmatch: (string, string) -> bool): bool {
    (!showHidden && StartsWith(Name(path), ".")) ||
    AnyHit(IgnorePatterns, p => DefaultPatternHits(path, p, fnmatch)) ||
    AnyHit(ignore, p => GlobHits(path, p, fnmatch))
  }

  /** A path is skipped exactly when it is hidden and hidden names are not
      shown, when a default pattern hits it, or when one of the caller's
      patterns matches its name or the whole path. */
  lemma ShouldIgnoreSpec(path: string, ignore: seq<string>, showHidden: bool, fnmatch: (string, string) -> bool)
    ensures ShouldIgnore(path, ignore, showHidden, fnmatch) <==>
      (!showHidden && StartsWith(Name(path), ".")) ||
      (exists k :: 0 <= k < |IgnorePatterns| && DefaultPatternHits(path, IgnorePatterns[k], fnmatch)) ||
      (exists k :: 0 <= k < |ignore| && GlobHits(path, ignore[k], fnmatch))
  {
    AnyHitSpec(IgnorePatterns, p => DefaultPatternHits(path, p, fnmatch));
    AnyHitSpec(ignore, p => GlobHits(path, p, fnmatch));
  }

  /** A path's name is a piece of the path. */
  lemma NameInPath(path: string)
    ensures Contains(path, Name(path))
  {
    var t := TrimSlashes(path);
    var n := Name(path);
    assert n == t[|t| - |n|..];
    assert OccursAt(path, n, |t| - |n|) by {
      assert path[..|t|] == t;
      assert path[|t| - |n|..|t|] == t[|t| - |n|..];
    }
    ContainsIff(path, n);
  }

  /** The name test of a directory pattern adds nothing: a directory pattern
      hits exactly the paths holding its name as a substring. */
  lemma DirPatternSubstring(path: string, pattern: string)
    requires EndsWith(pattern, "/")
    ensures DirPatternHits(path, pattern) <==> Contains(path, pattern[..|pattern| - 1])
  {
    NameInPath(path);
  }

  /** So any path holding "obj" is skipped whatever the caller asks, a file
      "/src/object.py" among them, as is every path under "/tmp". */
  lemma SubstringSkipped(path: string, ignore: seq<string>, showHidden: bool, fnmatch: (string, string) -> bool)
    requires Contains(path, "obj") || Contains(path, "tmp")
    ensures ShouldIgnore(path, ignore, showHidden, fnmatch)
  {
    if Contains(path, "obj") {
      assert IgnorePatterns[8] == "obj/";
      assert IgnorePatterns[8][..3] == "obj";
      assert DefaultPatternHits(path, IgnorePatterns[8], fnmatch);
      AnyHitSpec(IgnorePatterns, p => DefaultPatternHits(path, p, fnmatch));
    } else {
      assert IgnorePatterns[15] == "tmp/";
      assert IgnorePatterns[15][..3] == "tmp";
      assert DefaultPatternHits(path, IgnorePatterns[15], fnmatch);
      AnyHitSpec(IgnorePatterns, p => DefaultPatternHits(path, p, fnmatch));
    }
  }

  /** Hidden names are skipped unless asked for. */
  lemma HiddenSkipped(path: string, ignore: seq<string>, fnmatch: (string, string) -> bool)
    requires StartsWith(Name(path), ".")
    ensures ShouldIgnore(path, ignore, false, fnmatch)
  {
  }

  /** The tree built from the files: each entry a name and, for a
      directory, its own tree (`None` marks a file), in insertion order. */
  datatype Tree = Tree(items: seq<Item>)
  datatype Item = Item(name: string, sub: Option<Tree>)

  /** The sort key `(subtree is None, name)`: directories first, then by
      name. */
  predicate KeyBelow(a: Item, b: Item) {
    (a.sub.Some? && b.sub.None?) || (a.sub.Some? == b.sub.Some? && Below(a.name, b.name))
  }

  predicate AdjacentSorted(s: seq<Item>) {
    forall i :: 0 <= i < |s| - 1 ==> !KeyBelow(s[i + 1], s[i])
  }

  /** Insertion after every item whose key is not above `x`'s, so equal keys
      keep their order. */
  function Insert(x: Item, s: seq<Item>): (r: seq<Item>)
    ensures multiset(r) == multiset(s) + multiset{x}
    ensures forall y :: y in r ==> y == x || y in s
    ensures |r| == |s| + 1 && (r[0] == x || (s != [] && r[0] == s[0]))
  {
    if s == [] || KeyBelow(x, s[0]) then [x] + s
    else
      assert s == [s[0]] + s[1..];
      [s[0]] + Insert(x, s[1..])
  }

  lemma KeyBelowAsymmetric(a: Item, b: Item)
    requires KeyBelow(a, b)
    ensures !KeyBelow(b, a)
  {
    if a.sub.Some? == b.sub.Some? && Below(b.name, a.name) {
      BelowTransitive(a.name, b.name, a.name);
      BelowIrreflexive(a.name);
    }
  }

  lemma {:induction false} InsertSorted(x: Item, s: seq<Item>)
    requires AdjacentSorted(s)
    ensures AdjacentSorted(Insert(x, s))
  {
    if s != [] && KeyBelow(x, s[0]) {
      KeyBelowAsymmetric(x, s[0]);
      var whole := [x] + s;
      forall i | 0 <= i < |whole| - 1
        ensures !KeyBelow(whole[i + 1], whole[i])
      {
        if i > 0 {
          assert whole[i] == s[i - 1] && whole[i + 1] == s[i];
        }
      }
    }
    if s != [] && !KeyBelow(x, s[0]) {
      var tail := s[1..];
      assert AdjacentSorted(tail) by {
        forall i | 0 <= i < |tail| - 1
          ensures !KeyBelow(tail[i + 1], tail[i])
        {
          assert tail[i] == s[i + 1] && tail[i + 1] == s[i + 2];
        }
      }
      InsertSorted(x, tail);
      var r := Insert(x, tail);
      assert !KeyBelow(r[0], s[0]) by {
        if r[0] != x {
          assert r[0] == s[1];
        }
      }
      var whole := [s[0]] + r;
      assert Insert(x, s) == whole;
      forall i | 0 <= i < |whole| - 1
        ensures !KeyBelow(whole[i + 1], whole[i])
      {
        if i > 0 {
          assert whole[i] == r[i - 1] && whole[i + 1] == r[i];
        }
      }
    }
  }

  /** `sorted(tree.items(), key=...)` (Python's sort is stable). */
  function SortItems(s: seq<Item>): (r: seq<Item>)
    ensures multiset(r) == multiset(s)
    ensures forall y :: y in r ==> y in s
  {
    if s == [] then []
    else
      assert s == s[..|s| - 1] + [s[|s| - 1]];
      Insert(s[|s| - 1], SortItems(s[..|s| - 1]))
  }

  /** The sorted items are a permutation in key order: ... */
  lemma {:induction false} SortItemsSorted(s: seq<Item>)
    ensures AdjacentSorted(SortItems(s))
  {
    if s != [] {
      SortItemsSorted(s[..|s| - 1]);
      InsertSorted(s[|s| - 1], SortItems(s[..|s| - 1]));
    }
  }

  /** ... so every directory comes before every file. */
  lemma {:induction false} DirectoriesFirst(s: seq<Item>, i: nat, j: nat)
    requires AdjacentSorted(s)
    requires i < j < |s| && s[i].sub.None?
    ensures s[j].sub.None?
    decreases j - i
  {
    if j > i + 1 {
      DirectoriesFirst(s, i, j - 1);
    }
  }

  /** The line's name: directories get a trailing '/'. */
  function DisplayName(it: Item): (r: string)
    ensures it.sub.Some? <==> r == it.name + "/"
  {
    if it.sub.Some? then it.name + "/" else it.name
  }

  /** `_render_tree(tree, prefix)`. */
  function RenderTree(t: Tree, prefix: string): seq<string>
    decreases t, 1
  {
    RenderItems(t, SortItems(t.items), prefix)
  }

  /** The loop of `_render_tree` over the sorted items of `parent`. */
  function RenderItems(ghost parent: Tree, items: seq<Item>, prefix: string): seq<string>
    requires forall x :: x in items ==> x in parent.items
    decreases parent, 0, |items|
  {
    if items == [] then []
    else
      var it := items[0];
      assert it in parent.items;
      var last := |items| == 1;
      var connector := if prefix == "" then "" else if last then "└── " else "├── ";
      var childPrefix := if prefix == "" then "" else prefix + (if last then "    " else "│   ");
      var below := if it.sub.Some? && it.sub.value.items != [] then RenderTree(it.sub.value, childPrefix) else [];
      [prefix + connector + DisplayName(it)] + below + RenderItems(parent, items[1..], prefix)
  }

  /** The number of nodes in the tree. */
  function NodeCount(t: Tree): nat
    decreases t, 1
  {
    ItemsCount(t, t.items)
  }

  function ItemsCount(ghost parent: Tree, items: seq<Item>): nat
    requires forall x :: x in items ==> x in parent.items
    decreases parent, 0, |items|
  {
    if items == [] then 0
    else
      var it := items[0];
      assert it in parent.items;
      1 + (if it.sub.Some? then NodeCount(it.sub.value) else 0) + ItemsCount(parent, items[1..])
  }

  function ItemCount(it: Item): nat {
    1 + (if it.sub.Some? then NodeCount(it.sub.value) else 0)
  }

  lemma {:induction false} ItemsCountSplit(parent: Tree, items: seq<Item>)
    requires forall x :: x in items ==> x in parent.items
    ensures items != [] ==> ItemsCount(parent, items) == ItemCount(items[0]) + ItemsCount(parent, items[1..])
  {
  }

  /** Counting does not depend on the order. */
  lemma {:induction false} InsertCount(parent: Tree, x: Item, s: seq<Item>)
    requires x in parent.items && forall y :: y in s ==> y in parent.items
    ensures forall y :: y in Insert(x, s) ==> y in parent.items
    ensures ItemsCount(parent, Insert(x, s)) == ItemsCount(parent, s) + ItemCount(x)
  {
    var r := Insert(x, s);
    assert forall y :: y in r ==> y in multiset(r);
    if s != [] && !KeyBelow(x, s[0]) {
      InsertCount(parent, x, s[1..]);
    }
  }

  lemma {:induction false} SnocCount(parent: Tree, s: seq<Item>)
    requires s != [] && forall y :: y in s ==> y in parent.items
    ensures ItemsCount(parent, s) == ItemsCount(parent, s[..|s| - 1]) + ItemCount(s[|s| - 1])
  {
    if |s| > 1 {
      SnocCount(parent, s[1..]);
      assert s[1..][..|s[1..]| - 1] == s[..|s| - 1][1..];
    }
  }

  lemma {:induction false} SortCount(parent: Tree, s: seq<Item>)
    requires forall y :: y in s ==> y in parent.items
    ensures forall y :: y in SortItems(s) ==> y in parent.items
    ensures ItemsCount(parent, SortItems(s)) == ItemsCount(parent, s)
  {
    var r := SortItems(s);
    assert forall y :: y in r ==> y in multiset(r);
    if s != [] {
      var init := s[..|s| - 1];
      assert forall y :: y in init ==> y in s;
      SortCount(parent, init);
      InsertCount(parent, s[|s| - 1], SortItems(init));
      SnocCount(parent, s);
    }
  }

  /** One line per node: the rendering has exactly as many lines as the tree
      has entries, at every depth. */
  lemma {:induction false} RenderLineCount(t: Tree, prefix: string)
    ensures |RenderTree(t, prefix)| == NodeCount(t)
    decreases t, 1
  {
    var s := SortItems(t.items);
    assert forall y :: y in s ==> y in multiset(s);
    RenderItemsCount(t, s, prefix);
    SortCount(t, t.items);
  }

  lemma {:induction false} RenderItemsCount(parent: Tree, items: seq<Item>, prefix: string)
    requires forall x :: x in items ==> x in parent.items
    ensures |RenderItems(parent, items, prefix)| == ItemsCount(parent, items)
    decreases parent, 0, |items|
  {
    if items != [] {
      var it := items[0];
      var last := |items| == 1;
      var childPrefix := if prefix == "" then "" else prefix + (if last then "    " else "│   ");
      if it.sub.Some? {
        assert it in parent.items;
        RenderLineCount(it.sub.value, childPrefix);
        if it.sub.value.items == [] {
          assert NodeCount(it.sub.value) == 0;
        }
      }
      RenderItemsCount(parent, items[1..], prefix);
    }
  }

  /** Every line starts with `prefix`. */
  predicate AllPrefixed(lines: seq<string>, prefix: string) {
    forall k :: 0 <= k < |lines| ==> StartsWith(lines[k], prefix)
  }

  /** Every line drawn under a prefix starts with it. */
  lemma {:induction false} RenderPrefixed(t: Tree, prefix: string)
    ensures AllPrefixed(RenderTree(t, prefix), prefix)
    decreases t, 1
  {
    var s := SortItems(t.items);
    assert forall y :: y in s ==> y in multiset(s);
    RenderItemsPrefixed(t, s, prefix);
  }

  lemma {:induction false} RenderItemsPrefixed(parent: Tree, items: seq<Item>, prefix: string)
    requires forall x :: x in items ==> x in parent.items
    ensures AllPrefixed(RenderItems(parent, items, prefix), prefix)
    decreases parent, 0, |items|
  {
    if items != [] {
      var it := items[0];
      var last := |items| == 1;
      var connector := if prefix == "" then "" else if last then "└── " else "├── ";
      var childPrefix := if prefix == "" then "" else prefix + (if last then "    " else "│   ");
      var line := prefix + connector + DisplayName(it);
      assert line[..|prefix|] == prefix;
      var below := if it.sub.Some? && it.sub.value.items != [] then RenderTree(it.sub.value, childPrefix) else [];
      if it.sub.Some? && it.sub.value.items != [] {
        assert it in parent.items;
        RenderPrefixed(it.sub.value, childPrefix);
        assert childPrefix[..|prefix|] == prefix;
        PrefixedUnderLonger(below, childPrefix, prefix);
      }
      RenderItemsPrefixed(parent, items[1..], prefix);
      var rest := RenderItems(parent, items[1..], prefix);
      PrefixedConcat([line], below, prefix);
      PrefixedConcat([line] + below, rest, prefix);
      assert RenderItems(parent, items, prefix) == [line] + below + rest;
    }
  }

  lemma PrefixedUnderLonger(lines: seq<string>, longer: string, prefix: string)
    requires AllPrefixed(lines, longer) && StartsWith(longer, prefix)
    ensures AllPrefixed(lines, prefix)
  {
    forall k | 0 <= k < |lines|
      ensures StartsWith(lines[k], prefix)
    {
      assert lines[k][..|prefix|] == lines[k][..|longer|][..|prefix|];
    }
  }

  lemma PrefixedConcat(a: seq<string>, b: seq<string>, prefix: string)
    requires AllPrefixed(a, prefix) && AllPrefixed(b, prefix)
    ensures AllPrefixed(a + b, prefix)
  {
    forall k | 0 <= k < |a + b|
      ensures StartsWith((a + b)[k], prefix)
    {
      if k >= |a| {
        assert (a + b)[k] == b[k - |a|];
      }
    }
  }

  /** The pre-order listing of display names, directories before files and
      each group by name. */
  function Preorder(t: Tree): seq<string>
    decreases t, 1
  {
    PreorderItems(t, SortItems(t.items))
  }

  function PreorderItems(ghost parent: Tree, items: seq<Item>): seq<string>
    requires forall x :: x in items ==> x in parent.items
    decreases parent, 0, |items|
  {
    if items == [] then []
    else
      var it := items[0];
      assert it in parent.items;
      [DisplayName(it)] + (if it.sub.Some? then Preorder(it.sub.value) else []) + PreorderItems(parent, items[1..])
  }

  /** At the top the prefix is empty and stays empty: the whole tree is drawn
      as its bare pre-order listing, with no connectors or indentation. */
  lemma {:induction false} TopLevelFlat(t: Tree)
    ensures RenderTree(t, "") == Preorder(t)
    decreases t, 1
  {
    var s := SortItems(t.items);
    assert forall y :: y in s ==> y in multiset(s);
    TopLevelFlatItems(t, s);
  }

  lemma {:induction false} TopLevelFlatItems(parent: Tree, items: seq<Item>)
    requires forall x :: x in items ==> x in parent.items
    ensures RenderItems(parent, items, "") == PreorderItems(parent, items)
    decreases parent, 0, |items|
  {
    if items != [] {
      var it := items[0];
      if it.sub.Some? {
        assert it in parent.items;
        TopLevelFlat(it.sub.value);
        if it.sub.value.items == [] {
          assert Preorder(it.sub.value) == [];
        }
      }
      TopLevelFlatItems(parent, items[1..]);
      var below := if it.sub.Some? && it.sub.value.items != [] then RenderTree(it.sub.value, "") else [];
      assert "" + "" + DisplayName(it) == DisplayName(it);
      assert RenderItems(parent, items, "") == [DisplayName(it)] + below + RenderItems(parent, items[1..], "");
    }
  }

  /** Below a non-empty prefix the last entry takes "└── " and the others
      "├── ", and each line ends with the entry's display name. */
  lemma ConnectorLine(parent: Tree, items: seq<Item>, prefix: string)
    requires forall x :: x in items ==> x in parent.items
    requires items != [] && prefix != ""
    ensures var line := RenderItems(parent, items, prefix)[0];
      line == prefix + (if |items| == 1 then "└── " else "├── ") + DisplayName(items[0])
  {
  }

  /** The output lines: the directory, its tree, and a note when the walk
      stopped at the limit. */
  function ListingLines(path: string, tree: Tree, truncated: bool): (r: seq<string>)
    ensures r != [] && r[0] == path + "/"
    ensures |r| == 1 + NodeCount(tree) + (if truncated then 2 else 0)
  {
    RenderLineCount(tree, "");
    [path + "/"] + RenderTree(tree, "") +
      (if truncated then ["", TruncatedNote] else [])
  }

  /** The walk's answer: the files found and the tree built from them, or
      the message of the exception raised. */
  datatype Listing = Listing(files: seq<string>, tree: Tree)

  /** `ListTool.execute` for the absolute `path`; `exists` and `isDir` are
      what the file system says about it. */
  function Execute(path: string, exists_: bool, isDir: bool, walk: Result<Listing>): ToolResult {
    var title := if BaseName(path) != "" then BaseName(path) else path;
    var failed := map["count" := Int(0), "truncated" := Bool(false), "error" := Bool(true)];
    if !exists_ then
      ToolResult("Directory: " + path, "Error: Directory '" + path + "' does not exist", Some(failed))
    else if !isDir then
      ToolResult("Path: " + path, "Error: '" + path + "' is not a directory", Some(failed))
    else match walk
      case Err(message) => ToolResult("Directory: " + path, "Error listing directory: " + message, Some(failed))
      case Ok(listing) =>
        if listing.files == [] then
          ToolResult(title, path + "/\n  (empty directory)", Some(map["count" := Int(0), "truncated" := Bool(false)]))
        else
          var truncated := |listing.files| >= Limit;
          ToolResult(title, Join(ListingLines(path, listing.tree, truncated), "\n"),
            Some(map["count" := Int(|listing.files|), "truncated" := Bool(truncated), "path" := Str(path)]))
  }

  /** Only a failure carries an error flag. */
  lemma ExecuteFailure(path: string, exists_: bool, isDir: bool, walk: Result<Listing>)
    ensures MetaIs(Execute(path, exists_, isDir, walk), "error", Bool(true)) <==> !exists_ || !isDir || walk.Err?
  {
  }

  /** The count is the number of files found, the result is marked truncated
      exactly when that reached the limit, and the output starts with the
      directory. */
  lemma ExecuteListing(path: string, walk: Listing)
    ensures var r := Execute(path, true, true, Ok(walk));
      MetaIs(r, "count", Int(|walk.files|)) &&
      MetaIs(r, "truncated", Bool(|walk.files| >= Limit)) &&
      StartsWith(r.output, path + "/")
  {
    var r := Execute(path, true, true, Ok(walk));
    if walk.files != [] {
      JoinStartsWith(ListingLines(path, walk.tree, |walk.files| >= Limit), "\n");
    } else {
      assert r.output == (path + "/") + "\n  (empty directory)";
    }
  }
}
