/** The edit tool: an exact-string replacement that falls back on a cascade
    of looser matchers, each proposing text of the file to replace. */
module Edit {
  import opened Wrappers
  import opened Values
  import opened Text
  import opened ToolBase

  // ---------------------------------------------------------------------
  // Edit distance

  function Min3(x: int, y: int, z: int): (m: int)
    ensures m == x || m == y || m == z
    ensures m <= x && m <= y && m <= z
  {
    if x <= y && x <= z then x else if y <= z then y else z
  }

  /** The insert/delete/substitute distance between `a[..i]` and `b[..j]`. */
  function Lev(a: string, b: string, i: nat, j: nat): nat
    requires i <= |a| && j <= |b|
  {
    if i == 0 then j
    else if j == 0 then i
    else Min3(Lev(a, b, i - 1, j) + 1, Lev(a, b, i, j - 1) + 1,
              Lev(a, b, i - 1, j - 1) + (if a[i - 1] == b[j - 1] then 0 else 1))
  }

  function EditDistance(a: string, b: string): nat {
    Lev(a, b, |a|, |b|)
  }

  /** A string is at distance 0 from itself. */
  lemma {:induction false} LevSelf(a: string, i: nat)
    requires i <= |a|
    ensures Lev(a, a, i, i) == 0
  {
    if i > 0 {
      LevSelf(a, i - 1);
    }
  }

  /** Substituting position by position never costs more than the longer
      string's length. */
  lemma {:induction false} LevBound(a: string, b: string, i: nat, j: nat)
    requires i <= |a| && j <= |b|
    ensures Lev(a, b, i, j) <= if i < j then j else i
  {
    if i > 0 && j > 0 {
      LevBound(a, b, i - 1, j - 1);
    }
  }

  /** The distance properties `_block_anchor_replacer` relies on. */
  lemma EditDistanceSpec(a: string, b: string)
    ensures a == [] ==> EditDistance(a, b) == |b|
    ensures b == [] ==> EditDistance(a, b) == |a|
    ensures EditDistance(a, a) == 0
    ensures EditDistance(a, b) <= if |a| < |b| then |b| else |a|
  {
    LevSelf(a, |a|);
    LevBound(a, b, |a|, |b|);
  }

  /** The table's first column and first row hold the distances to the empty
      string. */
  method InitBorders(matrix: array2<int>, a: string, b: string)
    requires matrix.Length0 == |a| + 1 && matrix.Length1 == |b| + 1
    modifies matrix
    ensures forall r :: 0 <= r <= |a| ==> matrix[r, 0] == Lev(a, b, r, 0)
    ensures forall c :: 0 <= c <= |b| ==> matrix[0, c] == Lev(a, b, 0, c)
  {
    for i := 0 to |a| + 1
      invariant forall r :: 0 <= r < i ==> matrix[r, 0] == r
    {
      matrix[i, 0] := i;
    }
    for j := 0 to |b| + 1
      invariant forall r :: 0 <= r <= |a| ==> matrix[r, 0] == r
      invariant forall c :: 0 <= c < j ==> matrix[0, c] == c
    {
      matrix[0, j] := j;
    }
  }

  /** One cell of the table from its three neighbours. */
  lemma LevCell(a: string, b: string, i: nat, j: nat, up: int, left: int, diag: int)
    requires 1 <= i <= |a| && 1 <= j <= |b|
    requires up == Lev(a, b, i - 1, j) && left == Lev(a, b, i, j - 1) && diag == Lev(a, b, i - 1, j - 1)
    ensures Lev(a, b, i, j) == Min3(up + 1, left + 1, diag + if a[i - 1] == b[j - 1] then 0 else 1)
  {
  }

  /** Fills row `i` from the row above it. */
  method FillRow(matrix: array2<int>, a: string, b: string, i: nat)
    requires matrix.Length0 == |a| + 1 && matrix.Length1 == |b| + 1 && 1 <= i <= |a|
    requires forall r, c {:trigger matrix[r, c]} :: 0 <= r < i && 0 <= c <= |b| ==> matrix[r, c] == Lev(a, b, r, c)
    requires forall r {:trigger matrix[r, 0]} :: i <= r <= |a| ==> matrix[r, 0] == Lev(a, b, r, 0)
    modifies matrix
    ensures forall r, c {:trigger matrix[r, c]} :: 0 <= r <= i && 0 <= c <= |b| ==> matrix[r, c] == Lev(a, b, r, c)
    ensures forall r {:trigger matrix[r, 0]} :: i < r <= |a| ==> matrix[r, 0] == Lev(a, b, r, 0)
  {
    for j := 1 to |b| + 1
      invariant forall r, c {:trigger matrix[r, c]} :: 0 <= r < i && 0 <= c <= |b| ==> matrix[r, c] == Lev(a, b, r, c)
      invariant forall c {:trigger matrix[i, c]} :: 0 <= c < j ==> matrix[i, c] == Lev(a, b, i, c)
      invariant forall r {:trigger matrix[r, 0]} :: i <= r <= |a| ==> matrix[r, 0] == Lev(a, b, r, 0)
    {
      var cost := if a[i - 1] == b[j - 1] then 0 else 1;
      LevCell(a, b, i, j, matrix[i - 1, j], matrix[i, j - 1], matrix[i - 1, j - 1]);
      var cell := Min3(matrix[i - 1, j] + 1, matrix[i, j - 1] + 1, matrix[i - 1, j - 1] + cost);
      assert cell == Lev(a, b, i, j);
      matrix[i, j] := cell;
    }
  }

  /** `_levenshtein_distance`: the lengths' maximum when either string is
      empty, otherwise the bottom-right cell of the filled table. */
  method LevenshteinDistance(a: string, b: string) returns (d: nat)
    ensures d == EditDistance(a, b)
  {
    if |a| == 0 || |b| == 0 {
      return if |a| < |b| then |b| else |a|;
    }
    var matrix := new int[|a| + 1, |b| + 1];
    InitBorders(matrix, a, b);
    for i := 1 to |a| + 1
      invariant forall r, c {:trigger matrix[r, c]} :: 0 <= r < i && 0 <= c <= |b| ==> matrix[r, c] == Lev(a, b, r, c)
      invariant forall r {:trigger matrix[r, 0]} :: i <= r <= |a| ==> matrix[r, 0] == Lev(a, b, r, 0)
    {
      FillRow(matrix, a, b, i);
    }
    return matrix[|a|, |b|];
  }

  // ---------------------------------------------------------------------
  // Lines of the content

  /** `sum(len(lines[k]) + 1 for k in range(i))`: where line `i` starts in
      the joined text. */
  function LineOffset(lines: seq<string>, i: nat): nat
    requires i <= |lines|
  {
    if i == 0 then 0 else LineOffset(lines, i - 1) + |lines[i - 1]| + 1
  }

  /** How long lines `i .. i+m-1` are with the newlines between them. */
  function SpanLen(lines: seq<string>, i: nat, m: nat): nat
    requires i + m <= |lines|
  {
    if m == 0 then 0 else if m == 1 then |lines[i]| else SpanLen(lines, i, m - 1) + 1 + |lines[i + m - 1]|
  }

  /** `content[start:end]` for the window of `m` lines from line `i`. */
  function Window(content: string, lines: seq<string>, i: nat, m: nat): string
    requires i + m <= |lines|
  {
    Slice(content, LineOffset(lines, i), LineOffset(lines, i) + SpanLen(lines, i, m))
  }

  lemma {:induction false} JoinLength(xs: seq<string>)
    requires xs != []
    ensures |Join(xs, "\n")| == SpanLen(xs, 0, |xs|)
  {
    var n := |xs|;
    if n > 1 {
      JoinLength(xs[..n - 1]);
      JoinAppend(xs[..n - 1], [xs[n - 1]], "\n");
      assert xs[..n - 1] + [xs[n - 1]] == xs;
      SpanPrefix(xs, n - 1);
    }
  }

  lemma {:induction false} SpanPrefix(xs: seq<string>, m: nat)
    requires m <= |xs|
    ensures SpanLen(xs[..m], 0, m) == SpanLen(xs, 0, m)
  {
    if m > 1 {
      SpanPrefix(xs, m - 1);
      assert xs[..m][..m - 1] == xs[..m - 1];
      SpanLenPrefix(xs[..m], xs[..m - 1], m - 1);
    }
  }

  /** `SpanLen` only reads the lines it spans. */
  lemma {:induction false} SpanLenPrefix(xs: seq<string>, ys: seq<string>, m: nat)
    requires m <= |xs| && m <= |ys| && xs[..m] == ys[..m]
    ensures SpanLen(xs, 0, m) == SpanLen(ys, 0, m)
  {
    if m > 0 {
      assert xs[m - 1] == xs[..m][m - 1] && ys[m - 1] == ys[..m][m - 1];
      if m > 1 {
        assert xs[..m - 1] == xs[..m][..m - 1] && ys[..m - 1] == ys[..m][..m - 1];
        SpanLenPrefix(xs, ys, m - 1);
      }
    }
  }

  lemma {:induction false} SpanShift(lines: seq<string>, i: nat, m: nat)
    requires i + m <= |lines|
    ensures SpanLen(lines, i, m) == SpanLen(lines[i..i + m], 0, m)
  {
    if m > 1 {
      SpanShift(lines, i, m - 1);
      assert lines[i..i + m][..m - 1] == lines[i..i + m - 1];
      SpanLenPrefix(lines[i..i + m], lines[i..i + m - 1], m - 1);
    }
  }

  lemma {:induction false} OffsetIsPrefixLength(lines: seq<string>, i: nat)
    requires 0 < i <= |lines|
    ensures LineOffset(lines, i) == SpanLen(lines, 0, i) + 1
  {
    if i > 1 {
      OffsetIsPrefixLength(lines, i - 1);
    }
  }

  lemma SliceMiddle(p: string, x: string, q: string)
    ensures Slice(p + x + q, |p|, |p| + |x|) == x
  {
    assert (p + x + q)[|p|..|p| + |x|] == x;
  }

  /** The joined text after the window's first line: the window, then the rest. */
  lemma JoinAfter(lines: seq<string>, i: nat, m: nat) returns (post: string)
    requires 1 <= m && i + m <= |lines|
    ensures Join(lines[i..], "\n") == Join(lines[i..i + m], "\n") + post
  {
    var b, c := lines[i..i + m], lines[i + m..];
    if c == [] {
      post := "";
      assert lines[i..] == b;
    } else {
      post := "\n" + Join(c, "\n");
      assert b + c == lines[i..];
      JoinAppend(b, c, "\n");
    }
  }

  /** The joined text before line `i` is `LineOffset(lines, i)` long. */
  lemma JoinBefore(lines: seq<string>, i: nat) returns (pre: string)
    requires i < |lines|
    ensures Join(lines, "\n") == pre + Join(lines[i..], "\n")
    ensures |pre| == LineOffset(lines, i)
  {
    var a := lines[..i];
    if a == [] {
      pre := "";
      assert lines[i..] == lines;
    } else {
      pre := Join(a, "\n") + "\n";
      JoinAppend(a, lines[i..], "\n");
      assert a + lines[i..] == lines;
      OffsetIsPrefixLength(lines, i);
      JoinLength(a);
      SpanPrefix(lines, i);
    }
  }

  /** The joined text around the window: what precedes it and what follows. */
  lemma JoinAround(lines: seq<string>, i: nat, m: nat) returns (pre: string, post: string)
    requires 1 <= m && i + m <= |lines|
    ensures Join(lines, "\n") == pre + Join(lines[i..i + m], "\n") + post
    ensures |pre| == LineOffset(lines, i)
  {
    post := JoinAfter(lines, i, m);
    pre := JoinBefore(lines, i);
  }

  /** The window of lines `i .. i+m-1` cut from the joined text is exactly
      those lines joined. */
  lemma WindowIsJoin(content: string, lines: seq<string>, i: nat, m: nat)
    requires content == Join(lines, "\n") && 1 <= m && i + m <= |lines|
    ensures Window(content, lines, i, m) == Join(lines[i..i + m], "\n")
  {
    var pre, post := JoinAround(lines, i, m);
    JoinLength(lines[i..i + m]);
    SpanShift(lines, i, m);
    SliceMiddle(pre, Join(lines[i..i + m], "\n"), post);
  }

  // ---------------------------------------------------------------------
  // `_simple_replacer`

  /** The find string itself, when it occurs in the content. */
  function SimpleCandidates(content: string, find: string): (r: seq<string>)
    ensures r == [find] <==> Contains(content, find)
    ensures r == [] <==> !Contains(content, find)
  {
    if Contains(content, find) then [find] else []
  }

  // ---------------------------------------------------------------------
  // `_line_trimmed_replacer`

  /** `find.split('\n')` without a trailing empty line. */
  function SearchLines(find: string): seq<string> {
    var lines := Split(find, "\n");
    if lines[|lines| - 1] == "" then lines[..|lines| - 1] else lines
  }

  /** `a.strip() == b.strip()`. */
  predicate SameStripped(a: string, b: string) {
    Strip(a) == Strip(b)
  }

  /** Content lines from `i + j` on equal search lines from `j` on once both
      are stripped. */
  predicate TrimmedFrom(lines: seq<string>, search: seq<string>, i: nat, j: nat)
    requires i + |search| <= |lines| && j <= |search|
    decreases |search| - j
  {
    j == |search| || (SameStripped(lines[i + j], search[j]) && TrimmedFrom(lines, search, i, j + 1))
  }

  /** The content lines from `i` on equal the search lines once both are
      stripped. */
  predicate TrimmedAt(lines: seq<string>, search: seq<string>, i: nat)
    requires i + |search| <= |lines|
  {
    TrimmedFrom(lines, search, i, 0)
  }

  lemma {:induction false} TrimmedFromMeans(lines: seq<string>, search: seq<string>, i: nat, j: nat)
    requires i + |search| <= |lines| && j <= |search|
    ensures TrimmedFrom(lines, search, i, j)
        <==> forall t :: j <= t < |search| ==> SameStripped(lines[i + t], search[t])
    decreases |search| - j
  {
    if j < |search| {
      TrimmedFromMeans(lines, search, i, j + 1);
      assert TrimmedFrom(lines, search, i, j)
          == (SameStripped(lines[i + j], search[j]) && TrimmedFrom(lines, search, i, j + 1));
    }
  }

  /** A window matches exactly when every line matches its search line once
      both are stripped. */
  lemma TrimmedAtMeans(lines: seq<string>, search: seq<string>, i: nat)
    requires i + |search| <= |lines|
    ensures TrimmedAt(lines, search, i)
        <==> forall t :: 0 <= t < |search| ==> SameStripped(lines[i + t], search[t])
  {
    TrimmedFromMeans(lines, search, i, 0);
  }

  /** What the replacer yields for start line `i`. */
  function TrimmedYield(content: string, lines: seq<string>, search: seq<string>, i: nat): seq<string>
    requires i + |search| <= |lines|
  {
    if TrimmedAt(lines, search, i) then [Window(content, lines, i, |search|)] else []
  }

  /** What the replacer yields for the start lines below `n`, in order. */
  function TrimmedUpTo(content: string, lines: seq<string>, search: seq<string>, n: nat): seq<string>
    requires n + |search| <= |lines| + 1
  {
    if n == 0 then [] else TrimmedUpTo(content, lines, search, n - 1) + TrimmedYield(content, lines, search, n - 1)
  }

  function LineTrimmedCandidates(content: string, find: string): seq<string> {
    var lines := Split(content, "\n");
    var search := SearchLines(find);
    if |lines| < |search| then [] else TrimmedUpTo(content, lines, search, |lines| - |search| + 1)
  }

  /** The inner comparison loop of `_line_trimmed_replacer`: stops at the
      first pair of lines that differ once stripped. */
  method LinesMatchTrimmed(lines: seq<string>, search: seq<string>, i: nat) returns (matches: bool)
    requires i + |search| <= |lines|
    ensures matches == TrimmedAt(lines, search, i)
  {
    matches := true;
    var j := 0;
    while j < |search|
      invariant 0 <= j <= |search|
      invariant TrimmedAt(lines, search, i) == TrimmedFrom(lines, search, i, j)
    {
      if !SameStripped(lines[i + j], search[j]) {
        matches := false;
        break;
      }
      j := j + 1;
    }
  }

  /** The loop both anchored replacers use to find where a match of `count`
      lines from line `first` ends: each line's length, plus one newline
      after every line but the last. */
  method MatchEnd(lines: seq<string>, first: nat, count: nat, matchStart: nat) returns (matchEnd: nat)
    requires first + count <= |lines|
    ensures matchEnd == matchStart + SpanLen(lines, first, count)
  {
    matchEnd := matchStart;
    for k := 0 to count
      invariant matchEnd == matchStart + if k == 0 then 0 else SpanLen(lines, first, k) + (if k < count then 1 else 0)
    {
      matchEnd := matchEnd + |lines[first + k]|;
      if k < count - 1 {
        matchEnd := matchEnd + 1;
      }
    }
  }

  /** One iteration of the scan: the window from line `i` when it matches. */
  method TrimmedWindowAt(content: string, lines: seq<string>, search: seq<string>, i: nat) returns (yielded: seq<string>)
    requires i + |search| <= |lines|
    ensures yielded == TrimmedYield(content, lines, search, i)
  {
    var matches := LinesMatchTrimmed(lines, search, i);
    yielded := [];
    if matches {
      var matchStart := LineOffset(lines, i);
      var matchEnd := MatchEnd(lines, i, |search|, matchStart);
      yielded := [Slice(content, matchStart, matchEnd)];
    }
  }

  /** The scan over start lines of `_line_trimmed_replacer`. */
  method ScanTrimmed(content: string, lines: seq<string>, search: seq<string>) returns (found: seq<string>)
    requires |search| <= |lines|
    ensures found == TrimmedUpTo(content, lines, search, |lines| - |search| + 1)
  {
    var starts := |lines| - |search| + 1;
    found := [];
    for i := 0 to starts
      invariant found == TrimmedUpTo(content, lines, search, i)
    {
      var yielded := TrimmedWindowAt(content, lines, search, i);
      found := found + yielded;
    }
  }

  /** The search lines without the empty line a trailing newline leaves. */
  method DropTrailingEmpty(ghost find: string, split: seq<string>) returns (searchLines: seq<string>)
    requires split == Split(find, "\n")
    ensures searchLines == SearchLines(find)
  {
    searchLines := split;
    if searchLines[|searchLines| - 1] == "" {
      searchLines := searchLines[..|searchLines| - 1];
    }
  }

  /** `_line_trimmed_replacer`: every window of content lines that matches
      the search lines up to surrounding whitespace, cut out of the content
      by offsets. */
  method LineTrimmedReplacer(content: string, find: string) returns (found: seq<string>)
    ensures found == LineTrimmedCandidates(content, find)
  {
    var originalLines := Split(content, "\n");
    var searchLines := DropTrailingEmpty(find, Split(find, "\n"));
    if |originalLines| < |searchLines| {
      return [];  // the range of start lines is empty
    }
    found := ScanTrimmed(content, originalLines, searchLines);
  }

  /** A candidate `_line_trimmed_replacer` found below start line `n` is
      the window of some start line `i < n` whose stripped lines are the
      search lines. */
  lemma {:induction false} TrimmedSource(content: string, lines: seq<string>, search: seq<string>, n: nat, c: string)
      returns (i: nat)
    requires n + |search| <= |lines| + 1
    requires c in TrimmedUpTo(content, lines, search, n)
    ensures i < n && TrimmedAt(lines, search, i)
    ensures c == Window(content, lines, i, |search|)
  {
    assert n > 0;
    if c in TrimmedUpTo(content, lines, search, n - 1) {
      i := TrimmedSource(content, lines, search, n - 1, c);
    } else {
      i := TrimmedLast(content, lines, search, n, c);
    }
  }

  /** A candidate that the start lines below `n - 1` did not yield comes
      from start line `n - 1`. */
  lemma TrimmedLast(content: string, lines: seq<string>, search: seq<string>, n: nat, c: string) returns (i: nat)
    requires 0 < n && n + |search| <= |lines| + 1
    requires c in TrimmedUpTo(content, lines, search, n) && c !in TrimmedUpTo(content, lines, search, n - 1)
    ensures i == n - 1 && TrimmedAt(lines, search, i) && c == Window(content, lines, i, |search|)
  {
    i := n - 1;
    assert c in TrimmedYield(content, lines, search, i);
  }

  // ---------------------------------------------------------------------
  // `_whitespace_normalized_replacer`

  /** `re.sub(r'\s+', ' ', s)`: every maximal run of whitespace becomes one
      space. */
  function CollapseSpaces(s: string): string
    decreases |s|
  {
    if s == [] then []
    else if IsSpace(s[0]) then " " + CollapseSpaces(s[LeadingSpaces(s)..])
    else [s[0]] + CollapseSpaces(s[1..])
  }

  /** `normalize_whitespace`: runs of whitespace collapsed, ends stripped. */
  function NormalizeWhitespace(text: string): string {
    Strip(CollapseSpaces(text))
  }

  /** Every whitespace character is a space with no whitespace after it. */
  predicate Collapsed(s: string) {
    forall k :: 0 <= k < |s| && IsSpace(s[k]) ==> s[k] == ' ' && (k + 1 == |s| || !IsSpace(s[k + 1]))
  }

  /** Whitespace only as single spaces between two other characters. */
  predicate SingleSpaced(s: string) {
    forall k :: 0 <= k < |s| && IsSpace(s[k]) ==> s[k] == ' ' && 0 < k < |s| - 1 && !IsSpace(s[k + 1])
  }

  lemma {:induction false} CollapseShape(s: string)
    ensures Collapsed(CollapseSpaces(s))
    ensures s != [] && !IsSpace(s[0]) ==> CollapseSpaces(s) != [] && CollapseSpaces(s)[0] == s[0]
    decreases |s|
  {
    if s != [] {
      if IsSpace(s[0]) {
        var n := LeadingSpaces(s);
        LeadingSpacesSpec(s);
        CollapseShape(s[n..]);
      } else {
        CollapseShape(s[1..]);
      }
    }
  }

  /** Stripping a collapsed text leaves whitespace only between words. */
  lemma StripCollapsed(s: string)
    requires Collapsed(s)
    ensures SingleSpaced(Strip(s))
  {
    var a := LeadingSpaces(s);
    var l := s[a..];
    var b := TrailingSpaces(l);
    LeadingSpacesSpec(s);
    TrailingSpacesSpec(l);
    var r := l[..|l| - b];
    assert Strip(s) == r;
    forall k | 0 <= k < |r| && IsSpace(r[k])
      ensures r[k] == ' ' && 0 < k < |r| - 1 && !IsSpace(r[k + 1])
    {
      assert r[k] == s[a + k];
      if k + 1 < |r| {
        assert r[k + 1] == s[a + k + 1];
      }
    }
  }

  /** Collapsing an already collapsed text changes nothing. */
  lemma {:induction false} CollapseFixed(s: string)
    requires Collapsed(s)
    ensures CollapseSpaces(s) == s
    decreases |s|
  {
    if s != [] {
      assert Collapsed(s[1..]) by {
        forall k | 0 <= k < |s[1..]| && IsSpace(s[1..][k])
          ensures s[1..][k] == ' ' && (k + 1 == |s[1..]| || !IsSpace(s[1..][k + 1]))
        {
          assert s[1..][k] == s[k + 1];
        }
      }
      CollapseFixed(s[1..]);
      if IsSpace(s[0]) {
        assert LeadingSpaces(s) == 1 + LeadingSpaces(s[1..]);
        assert LeadingSpaces(s[1..]) == 0;
      }
    }
  }

  /** Normalising twice is normalising once. */
  lemma NormalizeIdempotent(text: string)
    ensures NormalizeWhitespace(NormalizeWhitespace(text)) == NormalizeWhitespace(text)
  {
    var r := NormalizeWhitespace(text);
    CollapseShape(text);
    StripCollapsed(CollapseSpaces(text));
    assert Collapsed(r);
    CollapseFixed(r);
    if r != [] {
      StripNoSpace(r);
    }
  }

  /** No whitespace in a word of `find.split()`. */
  predicate PlainWord(w: string) {
    w != [] && forall k :: 0 <= k < |w| ==> !IsSpace(w[k])
  }

  /** Every word is plain. */
  predicate AllPlain(words: seq<string>) {
    words == [] || (PlainWord(words[0]) && AllPlain(words[1..]))
  }

  /** After position `q`: a non-empty greedy run of whitespace, then the
      next word, for each remaining word; where the match ends. */
  function MatchRest(line: string, q: nat, words: seq<string>): (r: Option<nat>)
    requires q <= |line|
    ensures r.Some? ==> q <= r.value <= |line|
    decreases |words|
  {
    if words == [] then Some(q)
    else
      var w := q + LeadingSpaces(line[q..]);
      if w == q || !StartsWith(line[w..], words[0]) then None
      else MatchRest(line, w + |words[0]|, words[1..])
  }

  /** `re.search(r'\s+'.join(re.escape(w) for w in words), line)` from
      position `p` on: the leftmost match. The first word is matched
      literally; `\s+` is greedy and the next word starts with a
      non-whitespace character, so each start position has at most one
      match. */
  function SearchFrom(line: string, p: nat, words: seq<string>): Option<string>
    requires p <= |line| && words != []
    decreases |line| - p
  {
    var first := p + |words[0]|;
    if StartsWith(line[p..], words[0]) && MatchRest(line, first, words[1..]).Some? then
      Some(line[p..MatchRest(line, first, words[1..]).value])
    else if p == |line| then None
    else SearchFrom(line, p + 1, words)
  }

  /** `" " + w` for each word in order. */
  function SpacePrefixed(words: seq<string>): string {
    if words == [] then "" else " " + words[0] + SpacePrefixed(words[1..])
  }

  lemma {:induction false} CollapseWord(w: string, x: string)
    requires forall k :: 0 <= k < |w| ==> !IsSpace(w[k])
    ensures CollapseSpaces(w + x) == w + CollapseSpaces(x)
    decreases |w|
  {
    if w != [] {
      assert (w + x)[0] == w[0] && (w + x)[1..] == w[1..] + x;
      assert forall k :: 0 <= k < |w[1..]| ==> !IsSpace(w[1..][k]) by {
        forall k | 0 <= k < |w[1..]| ensures !IsSpace(w[1..][k]) {
          assert w[1..][k] == w[k + 1];
        }
      }
      CollapseWord(w[1..], x);
      assert !IsSpace(w[0]);
      assert CollapseSpaces(w + x) == [w[0]] + CollapseSpaces(w[1..] + x);
      assert [w[0]] + w[1..] == w;
    } else {
      assert w + x == x;
    }
  }

  /** A gap of whitespace, a word, and the rest collapse to one space, the
      word, and the collapsed rest. */
  lemma CollapseGapWord(g: string, word: string, rest: string)
    requires g != [] && forall k :: 0 <= k < |g| ==> IsSpace(g[k])
    requires PlainWord(word)
    ensures CollapseSpaces(g + word + rest) == " " + word + CollapseSpaces(rest)
  {
    assert g + word + rest == g + (word + rest);
    assert (word + rest)[0] == word[0];
    CollapseGap(g, word + rest);
    CollapseWord(word, rest);
  }

  lemma CollapseGap(g: string, x: string)
    requires g != [] && forall k :: 0 <= k < |g| ==> IsSpace(g[k])
    requires x == [] || !IsSpace(x[0])
    ensures CollapseSpaces(g + x) == " " + CollapseSpaces(x)
  {
    var s := g + x;
    var n := LeadingSpaces(s);
    LeadingSpacesSpec(s);
    assert forall k :: 0 <= k < |g| ==> s[k] == g[k];
    if x != [] {
      assert s[|g|] == x[0];
    }
    assert n == |g|;
    assert s[n..] == x;
  }

  lemma SliceTwo(s: string, a: nat, b: nat, c: nat)
    requires a <= b <= c <= |s|
    ensures s[a..c] == s[a..b] + s[b..c]
  {
  }

  lemma StartsWithAt(s: string, p: nat, w: string)
    requires p <= |s| && StartsWith(s[p..], w)
    ensures p + |w| <= |s| && s[p..p + |w|] == w
  {
    assert s[p..][..|w|] == s[p..p + |w|];
  }

  lemma SliceThree(s: string, a: nat, b: nat, c: nat, d: nat)
    requires a <= b <= c <= d <= |s|
    ensures s[a..d] == s[a..b] + s[b..c] + s[c..d]
  {
  }

  /** The text a `MatchRest` covers collapses to each word with one space
      before it. */
  lemma {:induction false} MatchRestCollapses(line: string, q: nat, words: seq<string>, e: nat)
    requires q <= |line| && MatchRest(line, q, words) == Some(e)
    requires AllPlain(words)
    ensures CollapseSpaces(line[q..e]) == SpacePrefixed(words)
    decreases |words|
  {
    if words == [] {
      assert line[q..e] == [];
    } else {
      var next := MatchRestFirst(line, q, words, e);
      MatchRestCollapses(line, next, words[1..], e);
    }
  }

  /** The first word of a successful `MatchRest` and the gap before it
      collapse to one space and the word, ahead of whatever the rest
      collapses to. */
  lemma MatchRestFirst(line: string, q: nat, words: seq<string>, e: nat) returns (next: nat)
    requires q <= |line| && words != [] && MatchRest(line, q, words) == Some(e)
    requires AllPlain(words)
    ensures next <= |line| && MatchRest(line, next, words[1..]) == Some(e) && AllPlain(words[1..])
    ensures CollapseSpaces(line[next..e]) == SpacePrefixed(words[1..]) ==>
      CollapseSpaces(line[q..e]) == SpacePrefixed(words)
  {
    var w := MatchRestGap(line, q, words, e);
    next := w + |words[0]|;
    var tail := words[1..];
    var word, cr := words[0], SpacePrefixed(tail);
    assert PlainWord(word) && AllPlain(tail);
    StartsWithAt(line, w, word);
    assert next <= MatchRest(line, next, tail).value == e;
    if CollapseSpaces(line[next..e]) == cr {
      MatchRestStep(line, q, w, word, next, e, cr);
      assert SpacePrefixed(words) == " " + word + cr;
    }
  }

  /** Where the first word of a successful `MatchRest` starts. */
  lemma MatchRestGap(line: string, q: nat, words: seq<string>, e: nat) returns (w: nat)
    requires q <= |line| && words != [] && MatchRest(line, q, words) == Some(e)
    ensures q < w <= |line| && forall k :: 0 <= k < w - q ==> IsSpace(line[q..][k])
    ensures StartsWith(line[w..], words[0])
    ensures MatchRest(line, w + |words[0]|, words[1..]) == Some(e)
  {
    w := q + LeadingSpaces(line[q..]);
    LeadingSpacesSpec(line[q..]);
  }

  /** One step of `MatchRestCollapses`: the gap from `q` to `w` and the
      word from `w` to `next`. */
  lemma MatchRestStep(line: string, q: nat, w: nat, word: string, next: nat, e: nat, cr: string)
    requires q < w <= next <= e <= |line|
    requires forall k :: 0 <= k < w - q ==> IsSpace(line[q..][k])
    requires line[w..next] == word && PlainWord(word)
    requires CollapseSpaces(line[next..e]) == cr
    ensures CollapseSpaces(line[q..e]) == " " + word + cr
  {
    var g, rest := line[q..w], line[next..e];
    SliceThree(line, q, w, next, e);
    assert forall k :: 0 <= k < |g| ==> IsSpace(g[k]) by {
      forall k | 0 <= k < |g| ensures IsSpace(g[k]) {
        assert g[k] == line[q..][k];
      }
    }
    CollapseGapWord(g, word, rest);
  }

  lemma {:induction false} SpacePrefixedEnd(words: seq<string>)
    requires words != [] && AllPlain(words)
    ensures var t := SpacePrefixed(words); t != [] && !IsSpace(t[|t| - 1])
    decreases |words|
  {
    if |words| > 1 {
      SpacePrefixedEnd(words[1..]);
    }
  }


  /** A match found at `p` collapses to the words joined by single spaces. */
  lemma MatchHereCollapses(line: string, p: nat, words: seq<string>, e: nat)
    requires p <= |line| && words != [] && StartsWith(line[p..], words[0])
    requires MatchRest(line, p + |words[0]|, words[1..]) == Some(e)
    requires AllPlain(words)
    ensures CollapseSpaces(line[p..e]) == words[0] + SpacePrefixed(words[1..])
  {
    var first := p + |words[0]|;
    var tail := words[1..];
    var m := MatchRest(line, first, tail);
    assert m == Some(e) && first <= m.value <= |line|;
    MatchRestCollapses(line, first, tail, e);
    var w0, c := words[0], CollapseSpaces(line[first..e]);
    assert PlainWord(w0);
    CollapseWordAt(line, p, w0, first, e);
  }

  /** A word found at `p` stays as it is when the text from `p` collapses. */
  lemma CollapseWordAt(line: string, p: nat, w: string, first: nat, e: nat)
    requires p <= |line| && StartsWith(line[p..], w) && PlainWord(w)
    requires first == p + |w| && first <= e <= |line|
    ensures CollapseSpaces(line[p..e]) == w + CollapseSpaces(line[first..e])
  {
    SliceTwo(line, p, first, e);
    StartsWithAt(line, p, w);
    CollapseWord(w, line[first..e]);
  }

  /** The words joined by single spaces have nothing to strip. */
  lemma SpacedWordsStripped(words: seq<string>)
    requires words != [] && AllPlain(words)
    ensures Strip(words[0] + SpacePrefixed(words[1..])) == words[0] + SpacePrefixed(words[1..])
  {
    var tail := words[1..];
    var t := words[0] + SpacePrefixed(tail);
    assert PlainWord(words[0]);
    assert t[0] == words[0][0];
    if |words| > 1 {
      SpacePrefixedEnd(tail);
      assert t[|t| - 1] == SpacePrefixed(tail)[|SpacePrefixed(tail)| - 1];
    } else {
      assert t == words[0];
    }
    StripNoSpace(t);
  }

  /** A match found at `p` normalises to the words joined by single
      spaces. */
  lemma MatchHereNormal(line: string, p: nat, words: seq<string>, e: nat)
    requires p <= |line| && words != [] && StartsWith(line[p..], words[0])
    requires MatchRest(line, p + |words[0]|, words[1..]) == Some(e)
    requires AllPlain(words)
    ensures NormalizeWhitespace(line[p..e]) == words[0] + SpacePrefixed(words[1..])
  {
    MatchHereCollapses(line, p, words, e);
    SpacedWordsStripped(words);
  }

  /** What `SearchFrom` finds occurs in the line at or after `p`, and
      normalises to the words joined by single spaces. */
  lemma {:induction false} SearchFound(line: string, p: nat, words: seq<string>) returns (q: nat)
    requires p <= |line| && words != [] && SearchFrom(line, p, words).Some?
    requires AllPlain(words)
    ensures p <= q && OccursAt(line, SearchFrom(line, p, words).value, q)
    ensures NormalizeWhitespace(SearchFrom(line, p, words).value) == words[0] + SpacePrefixed(words[1..])
    decreases |line| - p
  {
    var first := p + |words[0]|;
    if StartsWith(line[p..], words[0]) && MatchRest(line, first, words[1..]).Some? {
      q := p;
      var e := MatchRest(line, first, words[1..]).value;
      assert SearchFrom(line, p, words) == Some(line[p..e]);
      MatchHereNormal(line, p, words, e);
    } else {
      q := SearchFound(line, p + 1, words);
    }
  }

  /** The words joined by single spaces. */
  function Spaced(words: seq<string>): string {
    if words == [] then "" else words[0] + SpacePrefixed(words[1..])
  }

  /** Trailing whitespace of `z` is all that is stripped from `a + z` when
      `a` ends in a non-space character. */
  lemma {:induction false} TrailingAfter(a: string, z: string)
    requires a != [] && !IsSpace(a[|a| - 1])
    ensures TrailingSpaces(a + z) == TrailingSpaces(z)
    decreases |z|
  {
    if z == [] {
      assert a + z == a;
    } else {
      var az := a + z;
      assert az[|az| - 1] == z[|z| - 1];
      if IsSpace(z[|z| - 1]) {
        assert az[..|az| - 1] == a + z[..|z| - 1];
        TrailingAfter(a, z[..|z| - 1]);
      }
    }
  }

  lemma RStripAfter(a: string, z: string)
    requires a != [] && !IsSpace(a[|a| - 1])
    ensures RStrip(a + z) == a + RStrip(z)
  {
    TrailingAfter(a, z);
    var n := TrailingSpaces(z);
    assert (a + z)[..|a| + |z| - n] == a + z[..|z| - n];
  }

  lemma LStripNone(s: string)
    requires s == [] || !IsSpace(s[0])
    ensures LStrip(s) == s
  {
  }

  /** The first word of `s` and what follows it: `s` is a run of `a`
      whitespace characters, the word `w`, and `rest`, which is empty or
      starts with whitespace; `w` is empty only when `s` is all
      whitespace. */
  lemma FirstWord(s: string) returns (a: nat, w: string, rest: string)
    ensures a == LeadingSpaces(s) && s[a..] == w + rest
    ensures forall k :: 0 <= k < a ==> IsSpace(s[k])
    ensures w == [] ==> rest == [] && Words(s) == []
    ensures w != [] ==> PlainWord(w) && Words(s) == [w] + Words(rest)
    ensures rest == [] || IsSpace(rest[0])
  {
    a := LeadingSpaces(s);
    LeadingSpacesSpec(s);
    var t := s[a..];
    assert LStrip(s) == t;
    if t == [] {
      w, rest := [], [];
    } else {
      var n := WordLength(t);
      WordLengthSpec(t);
      w, rest := t[..n], t[n..];
      assert t == w + rest;
    }
  }

  /** Leading whitespace collapses to one space. */
  lemma CollapseLeading(s: string)
    ensures var a := LeadingSpaces(s);
      CollapseSpaces(s) == (if a > 0 then " " else "") + CollapseSpaces(s[a..])
  {
    var a := LeadingSpaces(s);
    if a == 0 {
      assert s[a..] == s;
    }
  }

  /** `Words` yields plain words only. */
  lemma {:induction false} WordsPlain(s: string)
    ensures AllPlain(Words(s))
    decreases |s|
  {
    var a, w, rest := FirstWord(s);
    if w != [] {
      assert |rest| < |s|;
      WordsPlain(rest);
      assert Words(s)[1..] == Words(rest);
    }
  }

  /** A text of whitespace only has no words. */
  lemma AllSpaceWords(y: string)
    requires forall k :: 0 <= k < |y| ==> IsSpace(y[k])
    ensures Words(y) == []
  {
    LeadingSpacesExact(y, |y|);
  }

  /** Whitespace appended to a text adds no words. */
  lemma {:induction false} WordsAppendSpaces(x: string, z: string)
    requires forall k :: 0 <= k < |z| ==> IsSpace(z[k])
    ensures Words(x + z) == Words(x)
    decreases |x|
  {
    var a, w, rest := FirstWord(x);
    var xz := x + z;
    if w == [] {
      assert forall k :: 0 <= k < |xz| ==> IsSpace(xz[k]) by {
        forall k | 0 <= k < |xz| ensures IsSpace(xz[k]) {
          if k < |x| {
            assert xz[k] == x[k];
          } else {
            assert xz[k] == z[k - |x|];
          }
        }
      }
      AllSpaceWords(xz);
    } else {
      WordsAppendStep(x, z, a, w, rest);
      WordsAppendSpaces(rest, z);
    }
  }

  /** The first word of `x + z` is the first word of `x` when `z` is
      whitespace. */
  lemma WordsAppendStep(x: string, z: string, a: nat, w: string, rest: string)
    requires forall k :: 0 <= k < |z| ==> IsSpace(z[k])
    requires a <= |x| && x[a..] == w + rest && PlainWord(w)
    requires forall k :: 0 <= k < a ==> IsSpace(x[k])
    requires rest == [] || IsSpace(rest[0])
    ensures Words(x + z) == [w] + Words(rest + z)
  {
    var t, tail := SplitAppend(x, z, a, w, rest);
    assert LStrip(x + z) == t;
  }

  /** How `x + z` splits into leading whitespace, the first word and the
      rest when `x` does and `z` is whitespace. */
  lemma SplitAppend(x: string, z: string, a: nat, w: string, rest: string) returns (t: string, tail: string)
    requires forall k :: 0 <= k < |z| ==> IsSpace(z[k])
    requires a <= |x| && x[a..] == w + rest && PlainWord(w)
    requires forall k :: 0 <= k < a ==> IsSpace(x[k])
    requires rest == [] || IsSpace(rest[0])
    ensures LeadingSpaces(x + z) == a && t == (x + z)[a..] && tail == rest + z
    ensures t != [] && WordLength(t) == |w| && t[..|w|] == w && t[|w|..] == tail
  {
    var xz := x + z;
    assert xz[a] == w[0];
    LeadingSpacesExact(xz, a);
    t, tail := xz[a..], rest + z;
    assert t == x[a..] + z;
    assert (w + rest) + z == w + tail;
    assert forall i :: 0 <= i < |w| ==> !IsSpace(t[i]);
    assert tail == [] || IsSpace(tail[0]);
    WordLengthExact(t, |w|);
  }

  /** `s.strip().split()` is `s.split()`. */
  lemma WordsStrip(s: string)
    ensures Words(Strip(s)) == Words(s)
  {
    WordsLStrip(s);
    WordsRStrip(LStrip(s));
  }

  lemma WordsLStrip(s: string)
    ensures Words(LStrip(s)) == Words(s)
  {
    var t := LStrip(s);
    LeadingSpacesSpec(s);
    LeadingSpacesExact(t, 0);
    assert LStrip(t) == t;
  }

  lemma WordsRStrip(t: string)
    ensures Words(RStrip(t)) == Words(t)
  {
    var n := TrailingSpaces(t);
    TrailingSpacesSpec(t);
    var r, z := RStrip(t), t[|t| - n..];
    assert t == r + z;
    WordsAppendSpaces(r, z);
  }

  /** A text that is empty or starts with whitespace loses its trailing
      whitespace on collapse and keeps each word with one space before it. */
  lemma {:induction false} CollapseRStrip(r: string)
    requires r == [] || IsSpace(r[0])
    ensures RStrip(CollapseSpaces(r)) == SpacePrefixed(Words(r))
    decreases |r|
  {
    if r != [] {
      var a, w, rest := FirstWord(r);
      assert a > 0 by {
        assert LeadingSpaces(r) == 1 + LeadingSpaces(r[1..]);
      }
      CollapseLeading(r);
      if w == [] {
        assert CollapseSpaces(r) == " ";
        assert TrailingSpaces(" ") == 1 + TrailingSpaces("");
      } else {
        CollapseRStrip(rest);
        CollapseRStripStep(r, w, rest);
      }
    }
  }

  /** The step of `CollapseRStrip` past one word. */
  lemma CollapseRStripStep(r: string, w: string, rest: string)
    requires PlainWord(w) && CollapseSpaces(r) == " " + CollapseSpaces(w + rest)
    requires Words(r) == [w] + Words(rest)
    requires RStrip(CollapseSpaces(rest)) == SpacePrefixed(Words(rest))
    ensures RStrip(CollapseSpaces(r)) == SpacePrefixed(Words(r))
  {
    var cr := CollapseSpaces(rest);
    CollapseWord(w, rest);
    assert CollapseSpaces(r) == (" " + w) + cr;
    RStripAfter(" " + w, cr);
    var ws := [w] + Words(rest);
    assert ws[1..] == Words(rest);
    assert SpacePrefixed(ws) == " " + w + SpacePrefixed(Words(rest));
  }

  /** Collapsing and left-stripping `s` leaves the collapsed text from its
      first word on. */
  lemma CollapsedFirstWord(s: string) returns (w: string, rest: string)
    ensures w == [] ==> rest == [] && Words(s) == []
    ensures w != [] ==> PlainWord(w) && Words(s) == [w] + Words(rest)
    ensures rest == [] || IsSpace(rest[0])
    ensures LStrip(CollapseSpaces(s)) == CollapseSpaces(w + rest)
  {
    var a;
    a, w, rest := FirstWord(s);
    CollapseLeading(s);
    var ct := CollapseSpaces(w + rest);
    assert LeadingSpaces(ct) == 0 by {
      CollapseShape(w + rest);
    }
    if a > 0 {
      var spaced := " " + ct;
      assert CollapseSpaces(s) == spaced;
      assert spaced[1..] == ct;
      assert LeadingSpaces(spaced) == 1;
    } else {
      assert CollapseSpaces(s) == ct;
    }
  }

  /** `normalize_whitespace(s)` is the words of `s.split()` joined by single
      spaces. */
  lemma NormalizeIsWords(s: string)
    ensures NormalizeWhitespace(s) == Spaced(Words(s))
  {
    var w, rest := CollapsedFirstWord(s);
    if w != [] {
      CollapseWord(w, rest);
      CollapseRStrip(rest);
      RStripAfter(w, CollapseSpaces(rest));
    }
  }

  // ---------------------------------------------------------------------
  // `_whitespace_normalized_replacer`: the scans

  /** What the single-line pass yields for one content line: the line when
      it normalises to the search text, else the leftmost `\s+`-separated
      occurrence of the search words when the normalised search text occurs
      in the normalised line. */
  function WsLineYield(line: string, find: string, nf: string): seq<string> {
    var nl := NormalizeWhitespace(line);
    if nl == nf then [line]
    else if !Contains(nl, nf) then []
    else WordsSearch(line, find)
  }

  /** `re.search(r'\s+'.join(map(re.escape, find.strip().split())), line)`
      as the list of what it matches: nothing when there are no words or no
      match. */
  function WordsSearch(line: string, find: string): seq<string> {
    var words := Words(Strip(find));
    if words == [] then []
    else match SearchFrom(line, 0, words)
      case Some(m) => [m]
      case None => []
  }

  /** What the single-line pass yields for the lines below `n`, in order. */
  function WsLinesUpTo(lines: seq<string>, find: string, nf: string, n: nat): seq<string>
    requires n <= |lines|
  {
    Gather(lines, line => WsLineYield(line, find, nf), n)
  }

  /** What `part` gives for each of the lines below `n`, concatenated in
      order. */
  function Gather(lines: seq<string>, part: string -> seq<string>, n: nat): seq<string>
    requires n <= |lines|
  {
    if n == 0 then [] else Gather(lines, part, n - 1) + part(lines[n - 1])
  }

  /** Whatever the lines gather, one of them yielded. */
  lemma {:induction false} InGathered(lines: seq<string>, part: string -> seq<string>, n: nat, c: string)
      returns (k: nat)
    requires n <= |lines| && c in Gather(lines, part, n)
    ensures k < n && c in part(lines[k])
  {
    assert n > 0;
    if c in Gather(lines, part, n - 1) {
      k := InGathered(lines, part, n - 1, c);
    } else {
      k := n - 1;
    }
  }

  /** `'\n'.join(lines[i:i + m])`. */
  function Block(lines: seq<string>, i: nat, m: nat): string
    requires i + m <= |lines|
  {
    Join(lines[i..i + m], "\n")
  }

  /** The block of `m` lines from line `i`, when it normalises to the search
      text. */
  function WsBlockYield(lines: seq<string>, m: nat, nf: string, i: nat): seq<string>
    requires i + m <= |lines|
  {
    if NormalizeWhitespace(Block(lines, i, m)) == nf then [Block(lines, i, m)] else []
  }

  /** What the multi-line pass yields for the start lines below `n`. */
  function WsBlocksUpTo(lines: seq<string>, m: nat, nf: string, n: nat): seq<string>
    requires n + m <= |lines| + 1
  {
    if n == 0 then [] else WsBlocksUpTo(lines, m, nf, n - 1) + WsBlockYield(lines, m, nf, n - 1)
  }

  /** Everything `_whitespace_normalized_replacer` yields, in order: the
      single-line pass, then the multi-line pass when the search text has
      more than one line. */
  function WhitespaceCandidates(content: string, find: string): seq<string> {
    WsFor(Split(content, "\n"), find, NormalizeWhitespace(find), |Split(find, "\n")|)
  }

  /** Both passes over the content lines for a search text of `m` lines
      normalising to `nf`. */
  function WsFor(lines: seq<string>, find: string, nf: string, m: nat): seq<string> {
    WsLinesUpTo(lines, find, nf, |lines|) + WsBlocks(lines, m, nf)
  }

  /** What the multi-line pass yields for a search text of `m` lines. */
  function WsBlocks(lines: seq<string>, m: nat, nf: string): seq<string> {
    if 1 < m <= |lines| then WsBlocksUpTo(lines, m, nf, |lines| - m + 1) else []
  }

  /** The single-line pass of `_whitespace_normalized_replacer`. */
  method WsLinesPass(lines: seq<string>, find: string, nf: string) returns (found: seq<string>)
    ensures found == WsLinesUpTo(lines, find, nf, |lines|)
  {
    found := [];
    for k := 0 to |lines|
      invariant found == WsLinesUpTo(lines, find, nf, k)
    {
      found := found + WsLineYield(lines[k], find, nf);
    }
  }

  /** The multi-line pass of `_whitespace_normalized_replacer`. */
  method WsBlocksPass(lines: seq<string>, m: nat, nf: string) returns (found: seq<string>)
    requires m <= |lines|
    ensures found == WsBlocksUpTo(lines, m, nf, |lines| - m + 1)
  {
    found := [];
    for i := 0 to |lines| - m + 1
      invariant found == WsBlocksUpTo(lines, m, nf, i)
    {
      found := found + WsBlockYield(lines, m, nf, i);
    }
  }

  /** The two passes of `_whitespace_normalized_replacer`, one after the
      other. */
  method WsPasses(lines: seq<string>, find: string, nf: string, m: nat) returns (found: seq<string>)
    ensures found == WsFor(lines, find, nf, m)
  {
    found := WsLinesPass(lines, find, nf);
    var blocks := [];
    if 1 < m <= |lines| {  // otherwise the range of start lines is empty
      blocks := WsBlocksPass(lines, m, nf);
    }
    found := found + blocks;
  }

  /** `_whitespace_normalized_replacer`. */
  method WhitespaceNormalizedReplacer(content: string, find: string) returns (found: seq<string>)
    ensures found == WhitespaceCandidates(content, find)
  {
    var normalizedFind := NormalizeWhitespace(find);
    var lines := Split(content, "\n");
    var findLines := Split(find, "\n");
    found := WsPasses(lines, find, normalizedFind, |findLines|);
  }

  /** The text the single-line pass finds inside a line normalises to the
      normalised search text. */
  lemma SearchMatchNormal(line: string, find: string, m: string) returns (q: nat)
    requires m in WordsSearch(line, find)
    ensures NormalizeWhitespace(m) == NormalizeWhitespace(find)
    ensures OccursAt(line, m, q)
  {
    var words := Words(Strip(find));
    WordsPlain(Strip(find));
    q := SearchFound(line, 0, words);
    assert words[0] + SpacePrefixed(words[1..]) == Spaced(words);
    WordsStrip(find);
    NormalizeIsWords(find);
  }

  /** A candidate of the single-line pass is a line of the content, or a
      piece of one, that normalises to the normalised search text. */
  lemma WsLineSource(lines: seq<string>, find: string, nf: string, n: nat, c: string)
      returns (k: nat, q: nat)
    requires nf == NormalizeWhitespace(find)
    requires n <= |lines| && c in WsLinesUpTo(lines, find, nf, n)
    ensures k < n && OccursAt(lines[k], c, q) && NormalizeWhitespace(c) == nf
  {
    k := InGathered(lines, line => WsLineYield(line, find, nf), n, c);
    q := WsLineYieldSource(lines[k], find, c);
  }

  /** What the single-line pass yields for one line is the line itself or a
      piece of it, normalising to the normalised search text. */
  lemma WsLineYieldSource(line: string, find: string, c: string) returns (q: nat)
    requires c in WsLineYield(line, find, NormalizeWhitespace(find))
    ensures OccursAt(line, c, q)
    ensures NormalizeWhitespace(c) == NormalizeWhitespace(find)
  {
    if NormalizeWhitespace(line) != NormalizeWhitespace(find) {
      q := SearchMatchNormal(line, find, c);
    } else {
      q := 0;
      assert line[0..|line|] == line;
    }
  }

  /** A candidate of the multi-line pass is a block of `m` consecutive lines,
      joined, that normalises to the normalised search text. */
  lemma {:induction false} WsBlockSource(lines: seq<string>, m: nat, nf: string, n: nat, c: string)
      returns (i: nat)
    requires n + m <= |lines| + 1 && c in WsBlocksUpTo(lines, m, nf, n)
    ensures i < n && c == Block(lines, i, m) && NormalizeWhitespace(c) == nf
  {
    if c in WsBlocksUpTo(lines, m, nf, n - 1) {
      i := WsBlockSource(lines, m, nf, n - 1, c);
    } else {
      i := n - 1;
      assert c in WsBlockYield(lines, m, nf, i);
    }
  }

  /** Every candidate of `_whitespace_normalized_replacer` normalises to what
      the search text normalises to. */
  lemma WhitespaceCandidateNormal(content: string, find: string, c: string)
    requires c in WhitespaceCandidates(content, find)
    ensures NormalizeWhitespace(c) == NormalizeWhitespace(find)
  {
    var nf := NormalizeWhitespace(find);
    var lines := Split(content, "\n");
    var m := |Split(find, "\n")|;
    assert c in WsLinesUpTo(lines, find, nf, |lines|) + WsBlocks(lines, m, nf);
    if c in WsLinesUpTo(lines, find, nf, |lines|) {
      var k, q := WsLineSource(lines, find, nf, |lines|, c);
    } else {
      assert 1 < m <= |lines|;
      var i := WsBlockSource(lines, m, nf, |lines| - m + 1, c);
    }
  }

  // ---------------------------------------------------------------------
  // `_indentation_flexible_replacer`

  /** `not line.strip()`. */
  predicate Blank(line: string) {
    Strip(line) == []
  }

  /** `line[k:]`, which is empty when `k` is past the end. */
  function DropPrefix(line: string, k: nat): string {
    if k <= |line| then line[k..] else []
  }

  /** The least indentation of a non-blank line; `None` when every line is
      blank. */
  function MinIndent(lines: seq<string>): Option<nat> {
    if lines == [] then None
    else
      var rest := MinIndent(lines[1..]);
      var here := LeadingSpaces(lines[0]);
      if Blank(lines[0]) then rest
      else if rest.None? || here <= rest.value then Some(here)
      else rest
  }

  /** Every non-blank line with `k` characters of indentation cut off; blank
      lines as they are. */
  function Dedent(lines: seq<string>, k: nat): (r: seq<string>)
    ensures |r| == |lines|
  {
    if lines == [] then []
    else [if Blank(lines[0]) then lines[0] else DropPrefix(lines[0], k)] + Dedent(lines[1..], k)
  }

  /** `remove_indentation`: the text unchanged when every line is blank,
      else every non-blank line shifted left by the least indentation. */
  function RemoveIndentation(text: string): string {
    var lines := Split(text, "\n");
    match MinIndent(lines)
    case None => text
    case Some(k) => Join(Dedent(lines, k), "\n")
  }

  /** `MinIndent` is the least indentation over the non-blank lines, and is
      absent exactly when every line is blank. */
  lemma {:induction false} MinIndentSpec(lines: seq<string>) returns (w: nat)
    ensures MinIndent(lines).None? <==> forall j :: 0 <= j < |lines| ==> Blank(lines[j])
    ensures MinIndent(lines).Some? ==>
      w < |lines| && !Blank(lines[w]) && LeadingSpaces(lines[w]) == MinIndent(lines).value
      && forall j :: 0 <= j < |lines| && !Blank(lines[j]) ==> MinIndent(lines).value <= LeadingSpaces(lines[j])
  {
    w := 0;
    if lines != [] {
      var tail := lines[1..];
      var v := MinIndentSpec(tail);
      assert forall j :: 1 <= j < |lines| ==> lines[j] == tail[j - 1];
      if MinIndent(lines).Some? {
        w := if MinIndent(lines) == MinIndent(tail) && MinIndent(tail).Some? then v + 1 else 0;
      }
    }
  }

  /** Cutting at most the indentation off a line keeps what is left once it
      is stripped, and cutting exactly the indentation leaves it flush. */
  lemma DedentLine(line: string, k: nat)
    requires k <= LeadingSpaces(line)
    ensures Strip(DropPrefix(line, k)) == Strip(line)
    ensures k == LeadingSpaces(line) ==> LeadingSpaces(DropPrefix(line, k)) == 0
  {
    var out := line[k..];
    LeadingSpacesSpec(line);
    var a := LeadingSpaces(line);
    assert forall i :: 0 <= i < a - k ==> IsSpace(out[i]) by {
      forall i | 0 <= i < a - k ensures IsSpace(out[i]) {
        assert out[i] == line[i + k];
      }
    }
    if a < |line| {
      assert out[a - k] == line[a];
    }
    LeadingSpacesExact(out, a - k);
    assert out[a - k..] == line[a..];
  }

  /** `Dedent` by at most the least indentation keeps every line's stripped
      text. */
  lemma {:induction false} DedentKeepsText(lines: seq<string>, k: nat, j: nat)
    requires j < |lines| && (Blank(lines[j]) || k <= LeadingSpaces(lines[j]))
    ensures Strip(Dedent(lines, k)[j]) == Strip(lines[j])
    ensures !Blank(lines[j]) ==> Dedent(lines, k)[j] == DropPrefix(lines[j], k)
    decreases j
  {
    if j > 0 {
      assert lines[1..][j - 1] == lines[j];
      DedentKeepsText(lines[1..], k, j - 1);
    } else if !Blank(lines[0]) {
      DedentLine(lines[0], k);
    }
  }

  /** `remove_indentation` only removes leading whitespace: every line keeps
      its stripped text, and when some line is not blank, one non-blank line
      ends up with no indentation. */
  lemma RemoveIndentationSpec(text: string) returns (w: nat)
    ensures var lines := Split(text, "\n");
      MinIndent(lines).Some? ==>
        var out := Dedent(lines, MinIndent(lines).value);
        RemoveIndentation(text) == Join(out, "\n")
        && (forall j :: 0 <= j < |lines| ==> Strip(out[j]) == Strip(lines[j]))
        && w < |out| && !Blank(out[w]) && LeadingSpaces(out[w]) == 0
    ensures MinIndent(Split(text, "\n")).None? ==> RemoveIndentation(text) == text
  {
    var lines := Split(text, "\n");
    w := MinIndentSpec(lines);
    if MinIndent(lines).Some? {
      var k := MinIndent(lines).value;
      var out := Dedent(lines, k);
      forall j | 0 <= j < |lines| ensures Strip(out[j]) == Strip(lines[j]) {
        DedentKeepsText(lines, k, j);
      }
      DedentKeepsText(lines, k, w);
      DedentLine(lines[w], k);
    }
  }

  /** The block from line `i` when it has the search text's indentation-free
      form. */
  function IndentYield(lines: seq<string>, m: nat, nf: string, i: nat): seq<string>
    requires i + m <= |lines|
  {
    if RemoveIndentation(Block(lines, i, m)) == nf then [Block(lines, i, m)] else []
  }

  /** What the indentation scan yields for the start lines below `n`. */
  function IndentUpTo(lines: seq<string>, m: nat, nf: string, n: nat): seq<string>
    requires n + m <= |lines| + 1
  {
    if n == 0 then [] else IndentUpTo(lines, m, nf, n - 1) + IndentYield(lines, m, nf, n - 1)
  }

  /** Everything `_indentation_flexible_replacer` yields, in order. */
  function IndentCandidates(content: string, find: string): seq<string> {
    var lines := Split(content, "\n");
    var m := |Split(find, "\n")|;
    if m <= |lines| then IndentUpTo(lines, m, RemoveIndentation(find), |lines| - m + 1) else []
  }

  /** `_indentation_flexible_replacer`. */
  method IndentationFlexibleReplacer(content: string, find: string) returns (found: seq<string>)
    ensures found == IndentCandidates(content, find)
  {
    var normalizedFind := RemoveIndentation(find);
    var contentLines := Split(content, "\n");
    var findLines := Split(find, "\n");
    found := [];
    if |findLines| <= |contentLines| {  // otherwise the range of start lines is empty
      var m := |findLines|;
      for i := 0 to |contentLines| - m + 1
        invariant found == IndentUpTo(contentLines, m, normalizedFind, i)
      {
        var block := Block(contentLines, i, m);
        if RemoveIndentation(block) == normalizedFind {
          found := found + [block];
        }
      }
    }
  }

  /** A block yielded at start line `i` stays among the candidates of every
      later bound. */
  lemma {:induction false} IndentUpToKeeps(lines: seq<string>, m: nat, nf: string, i: nat, n: nat)
    requires i < n && n + m <= |lines| + 1
    requires RemoveIndentation(Block(lines, i, m)) == nf
    ensures Block(lines, i, m) in IndentUpTo(lines, m, nf, n)
    decreases n
  {
    if i < n - 1 {
      IndentUpToKeeps(lines, m, nf, i, n - 1);
    } else {
      assert IndentYield(lines, m, nf, i) == [Block(lines, i, m)];
    }
  }

  /** When the search text's lines occur verbatim as whole lines of the
      content, the search text itself is one of the candidates. */
  lemma IndentExactFound(content: string, find: string, i: nat)
    requires i + |Split(find, "\n")| <= |Split(content, "\n")|
    requires Split(content, "\n")[i..i + |Split(find, "\n")|] == Split(find, "\n")
    ensures find in IndentCandidates(content, find)
  {
    var lines, m := Split(content, "\n"), |Split(find, "\n")|;
    SplitJoin(find, "\n");
    assert Block(lines, i, m) == find;
    IndentUpToKeeps(lines, m, RemoveIndentation(find), i, |lines| - m + 1);
  }

  // ---------------------------------------------------------------------
  // `_block_anchor_replacer`

  /** A candidate block: its first and its last content line. */
  datatype Anchor = Anchor(first: nat, last: nat)

  /** The first content line at or after `j` whose stripped form is `last`. */
  function AnchorEnd(lines: seq<string>, last: string, j: nat): Option<nat>
    decreases |lines| - j
  {
    if j >= |lines| then None
    else if Strip(lines[j]) == last then Some(j)
    else AnchorEnd(lines, last, j + 1)
  }

  /** The candidate opened at content line `i`, if any. */
  function AnchorAt(lines: seq<string>, first: string, last: string, i: nat): seq<Anchor>
    requires i < |lines|
  {
    if Strip(lines[i]) != first then []
    else match AnchorEnd(lines, last, i + 2)
      case Some(j) => [Anchor(i, j)]
      case None => []
  }

  /** The candidates opened below content line `n`, in order. */
  function AnchorsUpTo(lines: seq<string>, first: string, last: string, n: nat): seq<Anchor>
    requires n <= |lines|
  {
    if n == 0 then [] else AnchorsUpTo(lines, first, last, n - 1) + AnchorAt(lines, first, last, n - 1)
  }

  /** The block between the anchors of the only candidate, if there is
      exactly one. */
  function SingleAnchorBlock(content: string, lines: seq<string>, anchors: seq<Anchor>): seq<string> {
    if |anchors| == 1 && anchors[0].first + 2 <= anchors[0].last < |lines| then
      [Window(content, lines, anchors[0].first, anchors[0].last - anchors[0].first + 1)]
    else []
  }

  /** The candidates for the first and last search lines `search`. */
  function SearchAnchors(lines: seq<string>, search: seq<string>): seq<Anchor>
    requires search != []
  {
    AnchorsUpTo(lines, Strip(search[0]), Strip(search[|search| - 1]), |lines|)
  }

  /** What `_block_anchor_replacer` yields: the block between the anchors
      when there is exactly one candidate. */
  function BlockAnchorCandidates(content: string, find: string): seq<string> {
    var lines := Split(content, "\n");
    if |Split(find, "\n")| < 3 then []
    else SingleAnchorBlock(content, lines, SearchAnchors(lines, SearchLines(find)))
  }

  /** The inner loop of the candidate search. */
  method FindAnchorEnd(lines: seq<string>, last: string, from: nat) returns (end: Option<nat>)
    ensures end == AnchorEnd(lines, last, from)
  {
    var j := from;
    while j < |lines|
      invariant from <= j
      invariant AnchorEnd(lines, last, from) == AnchorEnd(lines, last, j)
      decreases |lines| - j
    {
      if Strip(lines[j]) == last {
        return Some(j);
      }
      j := j + 1;
    }
    return None;
  }

  /** The candidate search of `_block_anchor_replacer`. */
  method FindAnchors(lines: seq<string>, first: string, last: string) returns (anchors: seq<Anchor>)
    ensures anchors == AnchorsUpTo(lines, first, last, |lines|)
  {
    anchors := [];
    for i := 0 to |lines|
      invariant anchors == AnchorsUpTo(lines, first, last, i)
    {
      if Strip(lines[i]) == first {
        var end := FindAnchorEnd(lines, last, i + 2);
        if end.Some? {
          anchors := anchors + [Anchor(i, end.value)];
        }
      }
    }
  }

  /** One inner line pair's share of the similarity score. */
  function Share(distance: nat, maxLen: nat, linesToCheck: nat): real
    requires 0 < maxLen && 0 < linesToCheck
  {
    (1.0 - distance as real / maxLen as real) / linesToCheck as real
  }

  /** A share lies between 0 and 1 whenever the distance is at most the
      longer line's length. */
  lemma ShareBounds(distance: nat, maxLen: nat, linesToCheck: nat)
    requires 0 < maxLen && 0 < linesToCheck && distance <= maxLen
    ensures 0.0 <= Share(distance, maxLen, linesToCheck) <= 1.0
  {
    var d, m, l := distance as real, maxLen as real, linesToCheck as real;
    var x := 1.0 - d / m;
    assert d / m * m == d;
    assert 0.0 <= x <= 1.0;
    assert x / l * l == x;
  }

  /** The similarity score of a single candidate: the first inner line pair
      that is not blank on both sides contributes its share, and the loop
      stops there; a block or search text without inner lines scores 1. */
  method AnchorSimilarity(lines: seq<string>, search: seq<string>, start: nat, end: nat) returns (similarity: real)
    requires start + 2 <= end < |lines| && 2 <= |search|
    ensures 0.0 <= similarity <= 1.0
  {
    similarity := 0.0;
    var blockSize := end - start + 1;
    var linesToCheck := if |search| - 2 < blockSize - 2 then |search| - 2 else blockSize - 2;
    if linesToCheck > 0 {
      var upper := if |search| - 1 < blockSize - 1 then |search| - 1 else blockSize - 1;
      for j := 1 to upper + 1
        invariant similarity == 0.0
      {
        var originalLine := Strip(lines[start + j]);
        var searchLine := Strip(search[j]);
        var maxLen := if |originalLine| < |searchLine| then |searchLine| else |originalLine|;
        if maxLen == 0 {
          continue;
        }
        var distance := LevenshteinDistance(originalLine, searchLine);
        EditDistanceSpec(originalLine, searchLine);
        ShareBounds(distance, maxLen, linesToCheck);
        similarity := similarity + Share(distance, maxLen, linesToCheck);
        if similarity >= 0.0 {
          break;
        }
      }
    } else {
      similarity := 1.0;
    }
  }

  /** The tail of `_block_anchor_replacer` once the search lines are
      known: find the candidates, score a single one and cut it out of the
      content. */
  method YieldSingleAnchor(content: string, lines: seq<string>, search: seq<string>) returns (found: seq<string>)
    requires 2 <= |search|
    ensures found == SingleAnchorBlock(content, lines, SearchAnchors(lines, search))
  {
    var candidates := FindAnchors(lines, Strip(search[0]), Strip(search[|search| - 1]));
    if |candidates| != 1 {
      return [];
    }
    var startLine, endLine := candidates[0].first, candidates[0].last;
    AnchorBounds(lines, Strip(search[0]), Strip(search[|search| - 1]), candidates[0]);
    var similarity := AnchorSimilarity(lines, search, startLine, endLine);
    found := [];
    if similarity >= 0.0 {
      var block := CutLines(content, lines, startLine, endLine - startLine + 1);
      found := [block];
    }
  }

  /** `content[match_start:match_end]` for `count` lines from line `first`,
      with the offsets computed as both anchored replacers do. */
  method CutLines(content: string, lines: seq<string>, first: nat, count: nat) returns (block: string)
    requires first + count <= |lines|
    ensures block == Window(content, lines, first, count)
  {
    var matchStart := LineOffset(lines, first);
    var matchEnd := MatchEnd(lines, first, count, matchStart);
    block := Slice(content, matchStart, matchEnd);
  }

  /** `_block_anchor_replacer`. The similarity threshold is 0, which no
      score falls below, so a single candidate is always yielded. */
  method BlockAnchorReplacer(content: string, find: string) returns (found: seq<string>)
    ensures found == BlockAnchorCandidates(content, find)
  {
    var originalLines := Split(content, "\n");
    var searchLines := Split(find, "\n");
    if |searchLines| < 3 {
      return [];
    }
    searchLines := DropTrailingEmpty(find, searchLines);
    found := YieldSingleAnchor(content, originalLines, searchLines);
  }

  /** `AnchorEnd` finds the first line at or after `j` whose stripped form
      is `last`, and finds none exactly when there is no such line. */
  lemma {:induction false} AnchorEndSpec(lines: seq<string>, last: string, j: nat)
    ensures AnchorEnd(lines, last, j).Some? ==>
      var e := AnchorEnd(lines, last, j).value;
      j <= e < |lines| && Strip(lines[e]) == last &&
      forall k :: j <= k < e ==> Strip(lines[k]) != last
    ensures AnchorEnd(lines, last, j).None? ==>
      forall k :: j <= k < |lines| ==> Strip(lines[k]) != last
    decreases |lines| - j
  {
    if j < |lines| && Strip(lines[j]) != last {
      AnchorEndSpec(lines, last, j + 1);
    }
  }

  /** Candidate `a` opens on a line whose stripped form is `first`,
      closes on the first line at least two further down whose stripped
      form is `last`, and so spans at least three lines. */
  predicate AnchorShaped(lines: seq<string>, first: string, last: string, a: Anchor) {
    a.first + 2 <= a.last < |lines| &&
    Strip(lines[a.first]) == first && Strip(lines[a.last]) == last &&
    forall k :: a.first + 2 <= k < a.last ==> Strip(lines[k]) != last
  }

  lemma AnchorAtShape(lines: seq<string>, first: string, last: string, i: nat, a: Anchor)
    requires i < |lines| && a in AnchorAt(lines, first, last, i)
    ensures a.first == i && AnchorShaped(lines, first, last, a)
  {
    AnchorEndSpec(lines, last, i + 2);
  }

  /** Every candidate opens below `n` and is the candidate of the line it
      opens on. */
  lemma {:induction false} AnchorsSource(lines: seq<string>, first: string, last: string, n: nat, a: Anchor)
    requires n <= |lines| && a in AnchorsUpTo(lines, first, last, n)
    ensures a.first < n && a in AnchorAt(lines, first, last, a.first)
  {
    if a in AnchorsUpTo(lines, first, last, n - 1) {
      AnchorsSource(lines, first, last, n - 1, a);
    } else {
      AnchorAtShape(lines, first, last, n - 1, a);
    }
  }

  /** Every candidate is shaped as `AnchorShaped` says. */
  lemma AnchorsShape(lines: seq<string>, first: string, last: string, a: Anchor)
    requires a in AnchorsUpTo(lines, first, last, |lines|)
    ensures AnchorShaped(lines, first, last, a)
  {
    AnchorsSource(lines, first, last, |lines|, a);
    AnchorAtShape(lines, first, last, a.first, a);
  }

  /** Every candidate spans at least three lines of the content. */
  lemma AnchorBounds(lines: seq<string>, first: string, last: string, a: Anchor)
    requires a in AnchorsUpTo(lines, first, last, |lines|)
    ensures a.first + 2 <= a.last < |lines|
  {
    AnchorsShape(lines, first, last, a);
  }

  /** A candidate opened at line `i` stays among the candidates of every
      later bound. */
  lemma {:induction false} AnchorsKeep(lines: seq<string>, first: string, last: string, i: nat, n: nat, a: Anchor)
    requires i < n <= |lines| && a in AnchorAt(lines, first, last, i)
    ensures a in AnchorsUpTo(lines, first, last, n)
    decreases n
  {
    if i < n - 1 {
      AnchorsKeep(lines, first, last, i, n - 1, a);
    }
  }

  /** Every line that opens a block, i.e. strips to the first search line
      and has a line at least two further down stripping to the last one,
      contributes a candidate. */
  lemma AnchorsComplete(lines: seq<string>, first: string, last: string, i: nat, e: nat) returns (a: Anchor)
    requires i + 2 <= e < |lines|
    requires Strip(lines[i]) == first && Strip(lines[e]) == last
    ensures a in AnchorsUpTo(lines, first, last, |lines|) && a.first == i
  {
    AnchorEndSpec(lines, last, i + 2);
    a := Anchor(i, AnchorEnd(lines, last, i + 2).value);
    assert a in AnchorAt(lines, first, last, i);
    AnchorsKeep(lines, first, last, i, |lines|, a);
  }

  /** On the lines of the content itself, a window is the block of those
      lines joined back together. */
  lemma WindowIsBlock(content: string, i: nat, m: nat)
    requires 1 <= m && i + m <= |Split(content, "\n")|
    ensures Window(content, Split(content, "\n"), i, m) == Block(Split(content, "\n"), i, m)
  {
    SplitJoin(content, "\n");
    WindowIsJoin(content, Split(content, "\n"), i, m);
  }

  /** The block yielded for a single candidate is its run of whole lines. */
  lemma SingleAnchorIsBlock(content: string, anchors: seq<Anchor>, c: string)
    requires c in SingleAnchorBlock(content, Split(content, "\n"), anchors)
    ensures |anchors| == 1 && anchors[0].first + 2 <= anchors[0].last < |Split(content, "\n")|
    ensures c == Block(Split(content, "\n"), anchors[0].first, anchors[0].last - anchors[0].first + 1)
  {
    WindowIsBlock(content, anchors[0].first, anchors[0].last - anchors[0].first + 1);
  }

  /** A block-anchor candidate is the run of whole content lines of the
      only candidate pair of anchor lines. */
  lemma BlockAnchorSource(content: string, find: string, c: string) returns (a: Anchor)
    requires c in BlockAnchorCandidates(content, find)
    ensures var lines := Split(content, "\n");
      |Split(find, "\n")| >= 3 && SearchAnchors(lines, SearchLines(find)) == [a] &&
      a.first + 2 <= a.last < |lines| && c == Block(lines, a.first, a.last - a.first + 1)
  {
    var lines, search := Split(content, "\n"), SearchLines(find);
    assert |Split(find, "\n")| >= 3;
    var anchors := SearchAnchors(lines, search);
    assert c in SingleAnchorBlock(content, lines, anchors);
    SingleAnchorIsBlock(content, anchors, c);
    a := anchors[0];
  }

  /** That block opens on a line matching the first search line and closes
      on the first line, at least two further down, matching the last one. */
  lemma BlockAnchorLines(content: string, find: string, c: string) returns (a: Anchor)
    requires c in BlockAnchorCandidates(content, find)
    ensures var lines, search := Split(content, "\n"), SearchLines(find);
      |search| >= 2 && AnchorShaped(lines, Strip(search[0]), Strip(search[|search| - 1]), a) &&
      c == Block(lines, a.first, a.last - a.first + 1)
  {
    a := BlockAnchorSource(content, find, c);
    var lines, search := Split(content, "\n"), SearchLines(find);
    assert |search| >= 2;
    var first, last := Strip(search[0]), Strip(search[|search| - 1]);
    assert a in SearchAnchors(lines, search);
    AnchorsShape(lines, first, last, a);
    assert AnchorShaped(lines, first, last, a);
    assert c == Block(lines, a.first, a.last - a.first + 1);
  }

  // ---------------------------------------------------------------------
  // `_replace_content`

  const IdenticalStrings: string := "oldString 和 newString 必须不同"
  const NoUniqueMatch: string := "在内容中未找到 oldString 或找到多个匹配项"

  /** What one candidate does: `None` when it does not occur, or occurs more
      than once without `replace_all`; otherwise the new content. */
  function UseCandidate(content: string, c: string, repl: string, replaceAll: bool): Option<string> {
    var index := Find(content, c);
    if index == -1 then None
    else if replaceAll then Some(ReplaceAll(content, c, repl))
    else if RFind(content, c) != index then None
    else Some(content[..index] + repl + content[index + |c|..])
  }

  /** The outcome of the first usable candidate from position `k` on. */
  function UsableFrom(content: string, cs: seq<string>, k: nat, repl: string, replaceAll: bool): Option<string>
    decreases |cs| - k
  {
    if k >= |cs| then None
    else if UseCandidate(content, cs[k], repl, replaceAll).Some? then UseCandidate(content, cs[k], repl, replaceAll)
    else UsableFrom(content, cs, k + 1, repl, replaceAll)
  }

  function FirstUsable(content: string, cs: seq<string>, repl: string, replaceAll: bool): Option<string> {
    UsableFrom(content, cs, 0, repl, replaceAll)
  }

  /** `x or y` on outcomes. */
  function OrElse(x: Option<string>, y: Option<string>): Option<string> {
    if x.Some? then x else y
  }

  /** Every candidate of the five replacers, in the order they are tried. */
  function Cascade(content: string, find: string): seq<string> {
    SimpleCandidates(content, find) + LineTrimmedCandidates(content, find) + WhitespaceCandidates(content, find)
      + IndentCandidates(content, find) + BlockAnchorCandidates(content, find)
  }

  /** What `_replace_content` returns, an `Err` standing for the
      `ValueError` it raises. */
  function Replaced(content: string, oldString: string, newString: string, replaceAll: bool): Result<string> {
    if oldString == newString then Err(IdenticalStrings)
    else match FirstUsable(content, Cascade(content, oldString), newString, replaceAll)
      case Some(r) => Ok(r)
      case None => Err(NoUniqueMatch)
  }

  /** The candidate loop of `_replace_content` for one replacer. */
  method TryCandidates(content: string, candidates: seq<string>, newString: string, replaceAll: bool)
      returns (r: Option<string>)
    ensures r == FirstUsable(content, candidates, newString, replaceAll)
  {
    for k := 0 to |candidates|
      invariant FirstUsable(content, candidates, newString, replaceAll)
             == UsableFrom(content, candidates, k, newString, replaceAll)
    {
      var searchText := candidates[k];
      var index := Find(content, searchText);
      if index == -1 {
        continue;
      }
      if replaceAll {
        return Some(ReplaceAll(content, searchText, newString));
      }
      var lastIndex := RFind(content, searchText);
      if index != lastIndex {
        continue;  // not unique: try the next candidate
      }
      return Some(content[..index] + newString + content[index + |searchText|..]);
    }
    return None;
  }

  /** `_replace_content`: the replacers run one after another, a later one
      only when no candidate of the earlier ones was usable. */
  method ReplaceContent(content: string, oldString: string, newString: string, replaceAll: bool)
      returns (r: Result<string>)
    ensures r == Replaced(content, oldString, newString, replaceAll)
  {
    if oldString == newString {
      return Err(IdenticalStrings);
    }
    var simple := SimpleCandidates(content, oldString);
    var used := TryCandidates(content, simple, newString, replaceAll);
    var trimmed: seq<string> := [];
    if used.None? {
      trimmed := LineTrimmedReplacer(content, oldString);
      used := TryCandidates(content, trimmed, newString, replaceAll);
    }
    var spaced: seq<string> := [];
    if used.None? {
      spaced := WhitespaceNormalizedReplacer(content, oldString);
      used := TryCandidates(content, spaced, newString, replaceAll);
    }
    var indented: seq<string> := [];
    if used.None? {
      indented := IndentationFlexibleReplacer(content, oldString);
      used := TryCandidates(content, indented, newString, replaceAll);
    }
    var anchored: seq<string> := [];
    if used.None? {
      anchored := BlockAnchorReplacer(content, oldString);
      used := TryCandidates(content, anchored, newString, replaceAll);
    }
    CascadeOrder(content, oldString, newString, replaceAll);
    r := if used.Some? then Ok(used.value) else Err(NoUniqueMatch);
  }

  /** Trying two lists one after the other is trying their concatenation. */
  lemma {:induction false} UsableFromConcat(content: string, a: seq<string>, b: seq<string>, k: nat, repl: string, replaceAll: bool)
    requires k <= |a|
    ensures UsableFrom(content, a + b, k, repl, replaceAll)
         == OrElse(UsableFrom(content, a, k, repl, replaceAll), FirstUsable(content, b, repl, replaceAll))
    decreases |a| - k
  {
    if k < |a| {
      UsableFromConcat(content, a, b, k + 1, repl, replaceAll);
      assert (a + b)[k] == a[k];
    } else {
      UsableFromShift(content, a, b, 0, repl, replaceAll);
    }
  }

  lemma {:induction false} UsableFromShift(content: string, a: seq<string>, b: seq<string>, j: nat, repl: string, replaceAll: bool)
    requires j <= |b|
    ensures UsableFrom(content, a + b, |a| + j, repl, replaceAll) == UsableFrom(content, b, j, repl, replaceAll)
    decreases |b| - j
  {
    if j < |b| {
      UsableFromShift(content, a, b, j + 1, repl, replaceAll);
      assert (a + b)[|a| + j] == b[j];
    }
  }

  lemma FirstUsableConcat(content: string, a: seq<string>, b: seq<string>, repl: string, replaceAll: bool)
    ensures FirstUsable(content, a + b, repl, replaceAll)
         == OrElse(FirstUsable(content, a, repl, replaceAll), FirstUsable(content, b, repl, replaceAll))
  {
    UsableFromConcat(content, a, b, 0, repl, replaceAll);
  }

  /** Running the replacers one after another, a later one only when the
      earlier ones gave nothing usable, is trying the whole cascade. */
  lemma CascadeOrder(content: string, find: string, repl: string, replaceAll: bool)
    ensures FirstUsable(content, Cascade(content, find), repl, replaceAll)
         == OrElse(OrElse(OrElse(OrElse(
              FirstUsable(content, SimpleCandidates(content, find), repl, replaceAll),
              FirstUsable(content, LineTrimmedCandidates(content, find), repl, replaceAll)),
              FirstUsable(content, WhitespaceCandidates(content, find), repl, replaceAll)),
              FirstUsable(content, IndentCandidates(content, find), repl, replaceAll)),
              FirstUsable(content, BlockAnchorCandidates(content, find), repl, replaceAll))
  {
    var s1, s2, s3 := SimpleCandidates(content, find), LineTrimmedCandidates(content, find), WhitespaceCandidates(content, find);
    var s4, s5 := IndentCandidates(content, find), BlockAnchorCandidates(content, find);
    FirstUsableConcat(content, s1, s2, repl, replaceAll);
    FirstUsableConcat(content, s1 + s2, s3, repl, replaceAll);
    FirstUsableConcat(content, s1 + s2 + s3, s4, repl, replaceAll);
    FirstUsableConcat(content, s1 + s2 + s3 + s4, s5, repl, replaceAll);
  }

  /** The outcome from position `k` on is that of the first usable
      candidate there, and is `None` exactly when none is usable. */
  lemma {:induction false} UsableFromSpec(content: string, cs: seq<string>, k: nat, repl: string, replaceAll: bool)
      returns (u: nat)
    requires k <= |cs|
    ensures UsableFrom(content, cs, k, repl, replaceAll).None? <==>
      forall j :: k <= j < |cs| ==> UseCandidate(content, cs[j], repl, replaceAll).None?
    ensures UsableFrom(content, cs, k, repl, replaceAll).Some? ==>
      k <= u < |cs| && UsableFrom(content, cs, k, repl, replaceAll) == UseCandidate(content, cs[u], repl, replaceAll) &&
      forall j :: k <= j < u ==> UseCandidate(content, cs[j], repl, replaceAll).None?
    decreases |cs| - k
  {
    u := k;
    if k < |cs| && UseCandidate(content, cs[k], repl, replaceAll).None? {
      u := UsableFromSpec(content, cs, k + 1, repl, replaceAll);
    }
  }

  /** A candidate used without `replace_all` occurs exactly once, and only
      that occurrence is replaced. */
  lemma UseCandidateOnce(content: string, c: string, repl: string) returns (i: nat)
    requires UseCandidate(content, c, repl, false).Some?
    ensures OccursAt(content, c, i) && forall j :: OccursAt(content, c, j) ==> j == i
    ensures UseCandidate(content, c, repl, false).value == content[..i] + repl + content[i + |c|..]
  {
    FindSpec(content, c);
    RFindSpec(content, c);
    i := Find(content, c);
  }

  /** A candidate that occurs exactly once is used, without `replace_all`. */
  lemma UniqueIsUsed(content: string, c: string, repl: string, i: nat)
    requires OccursAt(content, c, i) && forall j :: OccursAt(content, c, j) ==> j == i
    ensures UseCandidate(content, c, repl, false) == Some(content[..i] + repl + content[i + |c|..])
  {
    FindSpec(content, c);
    RFindSpec(content, c);
  }

  /** A candidate that occurs at two places is skipped, without
      `replace_all`. */
  lemma TwiceIsSkipped(content: string, c: string, repl: string, i: nat, j: nat)
    requires OccursAt(content, c, i) && OccursAt(content, c, j) && i != j
    ensures UseCandidate(content, c, repl, false).None?
  {
    FindSpec(content, c);
    RFindSpec(content, c);
  }

  /** With `replace_all` a candidate is used exactly when it occurs, and
      every occurrence is replaced; for a candidate occurring once both
      modes give the same content. */
  lemma UseCandidateAll(content: string, c: string, repl: string)
    ensures UseCandidate(content, c, repl, true).Some? <==> exists j :: OccursAt(content, c, j)
    ensures UseCandidate(content, c, repl, true).Some? ==>
      UseCandidate(content, c, repl, true).value == ReplaceAll(content, c, repl)
    ensures |c| > 0 && UseCandidate(content, c, repl, false).Some? ==>
      UseCandidate(content, c, repl, true) == UseCandidate(content, c, repl, false)
  {
    ContainsIff(content, c);
    if |c| > 0 && UseCandidate(content, c, repl, false).Some? {
      var i := UseCandidateOnce(content, c, repl);
      ReplaceAllOnce(content, c, repl, i);
    }
  }

  /** `_replace_content` fails on identical strings, and otherwise takes the
      outcome of the first usable candidate of the cascade, failing exactly
      when none is usable. */
  lemma ReplacedSpec(content: string, oldString: string, newString: string, replaceAll: bool) returns (k: nat)
    ensures oldString == newString ==> Replaced(content, oldString, newString, replaceAll) == Err(IdenticalStrings)
    ensures oldString != newString ==>
      (Replaced(content, oldString, newString, replaceAll).Err? <==>
       forall j :: 0 <= j < |Cascade(content, oldString)| ==>
         UseCandidate(content, Cascade(content, oldString)[j], newString, replaceAll).None?)
    ensures Replaced(content, oldString, newString, replaceAll).Ok? ==>
      var cs := Cascade(content, oldString);
      k < |cs| && Some(Replaced(content, oldString, newString, replaceAll).value) == UseCandidate(content, cs[k], newString, replaceAll) &&
      forall j :: 0 <= j < k ==> UseCandidate(content, cs[j], newString, replaceAll).None?
  {
    k := UsableFromSpec(content, Cascade(content, oldString), 0, newString, replaceAll);
  }

  /** When the search text itself occurs exactly once, that occurrence is
      what gets replaced (the plain replacer proposes it first). */
  lemma ExactUniqueReplaced(content: string, oldString: string, newString: string, i: nat)
    requires oldString != newString
    requires OccursAt(content, oldString, i) && forall j :: OccursAt(content, oldString, j) ==> j == i
    ensures Replaced(content, oldString, newString, false) == Ok(content[..i] + newString + content[i + |oldString|..])
  {
    ContainsIff(content, oldString);
    UniqueIsUsed(content, oldString, newString, i);
    assert Cascade(content, oldString)[0] == oldString;
  }

  /** With `replace_all`, a search text that occurs anywhere has every
      occurrence replaced. */
  lemma ExactReplacedAll(content: string, oldString: string, newString: string, i: nat)
    requires oldString != newString && OccursAt(content, oldString, i)
    ensures Replaced(content, oldString, newString, true) == Ok(ReplaceAll(content, oldString, newString))
  {
    ContainsIff(content, oldString);
    UseCandidateAll(content, oldString, newString);
    assert Cascade(content, oldString)[0] == oldString;
  }

  // ---------------------------------------------------------------------
  // `execute`

  /** What is found at the (absolute) path: nothing, a directory, a file
      whose text decodes, or does not (`Err`), as UTF-8, or a file whose
      opening or reading raises an `OSError` with the given message. */
  datatype FileState = Absent | Directory | Regular(text: Result<string>) | Unreadable(message: string)

  /** What a text-mode read gives back of a text written in text mode on
      POSIX: the write keeps every character, and the read's universal
      newlines turn "\r\n" and a lone "\r" into "\n". */
  function Newlines(s: string): string {
    if s == [] then []
    else if s[0] == '\r' then "\n" + Newlines(if 1 < |s| && s[1] == '\n' then s[2..] else s[1..])
    else [s[0]] + Newlines(s[1..])
  }

  /** A text read back holds no carriage return. */
  lemma {:induction false} NewlinesNoReturn(s: string)
    ensures '\r' !in Newlines(s)
    ensures |Newlines(s)| <= |s|
  {
    if s != [] {
      if s[0] == '\r' {
        NewlinesNoReturn(if 1 < |s| && s[1] == '\n' then s[2..] else s[1..]);
      } else {
        NewlinesNoReturn(s[1..]);
      }
    }
  }

  /** A text without carriage returns reads back as itself. */
  lemma {:induction false} NewlinesKeepsPlain(s: string)
    requires '\r' !in s
    ensures Newlines(s) == s
  {
    if s != [] {
      assert s[0] != '\r';
      NewlinesKeepsPlain(s[1..]);
      assert s == [s[0]] + s[1..];
    }
  }

  /** Writing back what was read and reading it again changes nothing. */
  lemma {:induction false} NewlinesIdempotent(s: string)
    ensures Newlines(Newlines(s)) == Newlines(s)
  {
    NewlinesNoReturn(s);
    NewlinesKeepsPlain(Newlines(s));
  }

  /** The arguments of one call. */
  datatype EditParams = EditParams(filePath: string, oldString: string, newString: string, replaceAll: bool)

  /** What the file system and `difflib` tell `execute`: the absolute path,
      the path relative to the working directory, the base name, the
      message of an `OSError` raised by a write, and the diff report. */
  datatype EditEnv = EditEnv(absPath: string, relPath: string, baseName: string, file: FileState,
                             writeError: Option<string>, diff: (string, string) -> string)

  /** The result handed back and the text written to the file, if any. */
  datatype EditOutcome = EditOutcome(result: ToolResult, written: Option<string>)

  function ErrorResult(title: string, output: string, code: string): ToolResult {
    ToolResult(title, output, Some(map["error" := Str(code)]))
  }

  function PathErrorResult(title: string, output: string, code: string, path: string): ToolResult {
    ToolResult(title, output, Some(map["error" := Str(code), "file_path" := Str(path)]))
  }

  /** The search text as the failure report shows it: cut to 100 characters
      and marked when longer. */
  function Abbreviated(s: string): (r: string)
    ensures |s| <= 100 ==> r == s
    ensures |s| > 100 ==> |r| == 103 && r[..100] == s[..100]
  {
    if |s| > 100 then s[..100] + "..." else s
  }

  function IoErrorResult(env: EditEnv, message: string): ToolResult {
    ToolResult("IO错误: " + env.baseName, "文件操作失败: " + message,
      Some(map["error" := Str("io_error"), "file_path" := Str(env.absPath), "error_message" := Str(message)]))
  }

  /** A result without an error code. */
  predicate Succeeded(t: ToolResult) {
    t.metadata.Some? && "error" !in t.metadata.value
  }

  /** `execute`, after the arguments have been read. The file is written
      only by a call that succeeds: the creation branch writes `newString`,
      the edit branch what `_replace_content` made of the file's text. */
  function Execute(p: EditParams, env: EditEnv): (r: EditOutcome)
    ensures r.written.Some? <==> Succeeded(r.result)
    ensures r.written.Some? ==> p.filePath != "" && p.oldString != p.newString && env.writeError.None?
    ensures r.written.Some? && p.oldString == "" ==> r.written.value == p.newString
    ensures r.written.Some? && p.oldString != "" ==>
      env.file.Regular? && env.file.text.Ok? &&
      Replaced(env.file.text.value, p.oldString, p.newString, p.replaceAll) == Ok(r.written.value)
  {
    if p.filePath == "" then
      EditOutcome(ErrorResult("错误: 缺少文件路径", "filePath 参数是必需的", "missing_file_path"), None)
    else if p.oldString == p.newString then
      EditOutcome(ErrorResult("错误: 字符串相同", "oldString 和 newString 必须不同", "identical_strings"), None)
    else if p.oldString == "" then
      CreateFile(p, env)
    else
      EditFile(p, env)
  }

  /** The text of the `IsADirectoryError` that opening a directory for
      writing raises: `[Errno 21] Is a directory: '<path>'`. */
  function DirectoryWriteError(path: string): string {
    "[Errno 21] Is a directory: '" + path + "'"
  }

  /** The branch that creates (or overwrites) the file with `newString`. */
  function CreateFile(p: EditParams, env: EditEnv): (r: EditOutcome)
    ensures r.written.Some? <==> Succeeded(r.result)
    ensures r.written.Some? ==> env.writeError.None? && !env.file.Directory? && r.written.value == p.newString
    ensures env.writeError.Some? ==> r.result == IoErrorResult(env, env.writeError.value)
    ensures env.writeError.None? && env.file.Directory? ==> r.result == IoErrorResult(env, DirectoryWriteError(env.absPath))
  {
    if env.file.Directory? || env.writeError.Some? then
      var message := if env.writeError.Some? then env.writeError.value else DirectoryWriteError(env.absPath);
      EditOutcome(IoErrorResult(env, message), None)
    else
      EditOutcome(ToolResult(env.relPath, "文件创建成功",
        Some(map["file_path" := Str(env.absPath), "diff" := Str(env.diff("", p.newString)),
                 "action" := Str("create")])), Some(p.newString))
  }

  /** The branch that edits an existing file. */
  function EditFile(p: EditParams, env: EditEnv): (r: EditOutcome)
    ensures r.written.Some? <==> Succeeded(r.result)
    ensures r.written.Some? ==>
      env.writeError.None? && env.file.Regular? && env.file.text.Ok? &&
      Replaced(env.file.text.value, p.oldString, p.newString, p.replaceAll) == Ok(r.written.value)
  {
    match env.file
    case Absent =>
      EditOutcome(PathErrorResult("错误: 文件未找到", "文件不存在: " + env.absPath, "file_not_found", env.absPath), None)
    case Directory =>
      EditOutcome(PathErrorResult("错误: 路径是目录", "路径是目录，不是文件: " + env.absPath, "path_is_directory", env.absPath), None)
    case Unreadable(message) =>
      EditOutcome(IoErrorResult(env, message), None)
    case Regular(Err(_)) =>
      EditOutcome(PathErrorResult("编码错误: " + env.baseName,
        "无法解码文件: " + env.absPath + "\n文件可能使用了不支持的编码格式", "encoding_error", env.absPath), None)
    case Regular(Ok(oldContent)) =>
      match Replaced(oldContent, p.oldString, p.newString, p.replaceAll)
      case Err(message) =>
        EditOutcome(ToolResult("编辑失败: " + env.baseName, message,
          Some(map["error" := Str("replacement_failed"), "file_path" := Str(env.absPath),
                   "old_string" := Str(Abbreviated(p.oldString))])), None)
      case Ok(newContent) =>
        if env.writeError.Some? then EditOutcome(IoErrorResult(env, env.writeError.value), None)
        else
          EditOutcome(ToolResult(env.relPath, "文件编辑成功",
            Some(map["file_path" := Str(env.absPath), "diff" := Str(env.diff(oldContent, newContent)),
                     "action" := Str("edit"), "replace_all" := Bool(p.replaceAll)])), Some(newContent))
  }

  /** The error code a failed call reports. */
  function ErrorCode(r: EditOutcome): Option<Value> {
    if r.result.metadata.Some? && "error" in r.result.metadata.value then Some(r.result.metadata.value["error"]) else None
  }

  /** The validation branches come first: a missing path, then identical
      strings; otherwise a non-empty search text edits the file. */
  lemma ExecuteValidation(p: EditParams, env: EditEnv)
    ensures p.filePath == "" ==> ErrorCode(Execute(p, env)) == Some(Str("missing_file_path"))
    ensures p.filePath != "" && p.oldString == p.newString ==>
      ErrorCode(Execute(p, env)) == Some(Str("identical_strings"))
    ensures p.filePath != "" && p.oldString != p.newString && p.oldString != "" ==>
      Execute(p, env) == EditFile(p, env)
  {
  }

  /** Editing fails, in this order, on a missing file, a directory, a file
      that cannot be read or does not decode, and a replacement that fails. */
  lemma EditFileErrors(p: EditParams, env: EditEnv)
    ensures env.file.Absent? ==> ErrorCode(EditFile(p, env)) == Some(Str("file_not_found"))
    ensures env.file.Directory? ==> ErrorCode(EditFile(p, env)) == Some(Str("path_is_directory"))
    ensures env.file.Unreadable? ==>
      ErrorCode(EditFile(p, env)) == Some(Str("io_error")) &&
      EditFile(p, env).result.output == "文件操作失败: " + env.file.message
    ensures env.file.Regular? && env.file.text.Err? ==> ErrorCode(EditFile(p, env)) == Some(Str("encoding_error"))
    ensures (env.file.Regular? && env.file.text.Ok? &&
             Replaced(env.file.text.value, p.oldString, p.newString, p.replaceAll).Err?) ==>
        ErrorCode(EditFile(p, env)) == Some(Str("replacement_failed")) &&
        EditFile(p, env).result.output == Replaced(env.file.text.value, p.oldString, p.newString, p.replaceAll).error
  {
  }
}
