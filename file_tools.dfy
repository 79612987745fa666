/** The read and write tools: which files a read refuses as images or as
    binary, the window of lines it returns with over-long lines cut, the
    suggestions offered for a missing file, and the report of a write. */
module FileTools {
  import opened Wrappers
  import opened Values
  import opened Text
  import opened Paths
  import opened ToolBase

  const DefaultReadLimit: int := 2000
  const MaxLineLength: nat := 2000

  type Byte = b: int | 0 <= b < 256

  // ---------------------------------------------------------------------
  // `_is_image_file`

  /** The lower-cased suffixes taken for images, with their kind. */
  const ImageTable: seq<(string, string)> :=
    [(".jpg", "JPEG"), (".jpeg", "JPEG"), (".png", "PNG"), (".gif", "GIF"),
     (".bmp", "BMP"), (".webp", "WebP"), (".svg", "SVG"), (".ico", "ICO")]

  /** `dict.get` on a table of pairs with distinct keys. */
  function Lookup(table: seq<(string, string)>, key: string): Option<string> {
    if table == [] then None
    else if table[0].0 == key then Some(table[0].1)
    else Lookup(table[1..], key)
  }

  function ImageType(path: string): Option<string> {
    Lookup(ImageTable, Lower(Suffix(path)))
  }

  /** A file `stem + ext` is an image exactly when its extension, lower-cased,
      is in the table, and then of the kind the table gives. */
  lemma ImageOfFile(dir: string, stem: string, ext: string)
    requires dir == [] || dir[|dir| - 1] == '/'
    requires stem != [] && forall j :: 0 <= j < |stem| ==> stem[j] != '/'
    requires |ext| >= 2 && ext[0] == '.' && forall j :: 1 <= j < |ext| ==> ext[j] != '.' && ext[j] != '/'
    ensures ImageType(dir + stem + ext) == Lookup(ImageTable, Lower(ext))
  {
    SuffixOf(dir, stem, ext);
  }

  /** Only a path with a suffix can be an image. */
  lemma ImageNeedsSuffix(path: string)
    ensures ImageType(path).Some? ==> Suffix(path) != [] && EndsWith(Name(path), Suffix(path))
  {
    SuffixShape(path);
    if Suffix(path) == [] {
      assert Lower(Suffix(path)) == [];
      NoEmptyImageKey();
    }
  }

  lemma NoEmptyImageKey()
    ensures Lookup(ImageTable, []) == None
  {
  }

  /** A name that is all suffix, such as `.png`, has none, so it is not
      taken for an image. */
  lemma HiddenImageName(path: string)
    requires path == "/img/.png"
    ensures ImageType(path).None?
  {
    var dir, name := path[..5], path[5..];
    assert path == dir + name;
    NameOf(dir, name);
    assert LastIndex(name, '.') == 0 by {
      LastDot([], name);
      assert [] + name == name;
    }
    assert Suffix(path) == [];
    assert Lower(Suffix(path)) == [];
    NoEmptyImageKey();
  }

  /** The suffix is lower-cased before the lookup. */
  lemma UpperCaseImage(path: string)
    requires path == "/img/photo.JPG"
    ensures ImageType(path) == Some("JPEG")
  {
    var dir, stem, ext := path[..5], path[5..10], path[10..];
    assert path == dir + stem + ext;
    ImageOfFile(dir, stem, ext);
    assert Lower(ext) == ".jpg";
  }

  // ---------------------------------------------------------------------
  // `_is_binary_file`

  const BinaryExtensions: seq<string> :=
    [".zip", ".tar", ".gz", ".exe", ".dll", ".so", ".class", ".jar",
     ".war", ".7z", ".doc", ".docx", ".xls", ".xlsx", ".ppt", ".pptx",
     ".odt", ".ods", ".odp", ".bin", ".dat", ".obj", ".o", ".a",
     ".lib", ".wasm", ".pyc", ".pyo", ".pdf"]

  /** Membership in a list of names. */
  predicate Listed(x: string, xs: seq<string>) {
    xs != [] && (xs[0] == x || Listed(x, xs[1..]))
  }

  /** A control byte other than tab, line feed, vertical tab, form feed and
      carriage return. */
  predicate NonPrintable(b: Byte) {
    b < 9 || (13 < b < 32)
  }

  function CountNonPrintable(chunk: seq<Byte>): (n: nat)
    ensures n <= |chunk|
  {
    if chunk == [] then 0
    else CountNonPrintable(chunk[..|chunk| - 1]) + (if NonPrintable(chunk[|chunk| - 1]) then 1 else 0)
  }

  /** The decision of `_is_binary_file`. `chunk` is what the first read of at
      most 4096 bytes returned, or None when opening or reading raised an
      error. More than 30% non-printable bytes is compared exactly:
      `10 * n > 3 * len`. */
  predicate BinaryVerdict(path: string, chunk: Option<seq<Byte>>) {
    BinaryExtension(path) || (chunk.Some? && BinaryChunk(chunk.value))
  }

  /** The lower-cased suffix is one of the listed binary extensions. */
  predicate BinaryExtension(path: string) {
    Listed(Lower(Suffix(path)), BinaryExtensions)
  }

  /** A non-empty chunk holding a zero byte or more than 30% non-printable
      bytes. */
  predicate BinaryChunk(chunk: seq<Byte>) {
    chunk != [] && (0 in chunk || 10 * CountNonPrintable(chunk) > 3 * |chunk|)
  }

  /** `_is_binary_file`, counting the non-printable bytes in a loop. */
  method IsBinaryFile(path: string, chunk: Option<seq<Byte>>) returns (binary: bool)
    ensures binary == BinaryVerdict(path, chunk)
  {
    if BinaryExtension(path) {
      return true;
    }
    if chunk.None? || chunk.value == [] {
      return false;
    }
    var bytes := chunk.value;
    if 0 in bytes {
      return true;
    }
    var nonPrintable := CountControl(bytes);
    binary := 10 * nonPrintable > 3 * |bytes|;
  }

  /** The counting loop of `_is_binary_file`. */
  method CountControl(bytes: seq<Byte>) returns (n: nat)
    ensures n == CountNonPrintable(bytes)
  {
    n := 0;
    for i := 0 to |bytes|
      invariant n == CountNonPrintable(bytes[..i])
    {
      assert bytes[..i + 1][..i] == bytes[..i];
      if NonPrintable(bytes[i]) {
        n := n + 1;
      }
    }
    assert bytes[..|bytes|] == bytes;
  }

  /** Text made only of printable bytes is never taken for binary unless its
      extension is listed. */
  lemma {:induction false} PrintableIsText(path: string, chunk: seq<Byte>)
    requires !BinaryExtension(path)
    requires forall i :: 0 <= i < |chunk| ==> !NonPrintable(chunk[i])
    ensures !BinaryVerdict(path, Some(chunk))
  {
    NoneNonPrintable(chunk);
    forall i | 0 <= i < |chunk|
      ensures chunk[i] != 0
    {
      assert !NonPrintable(chunk[i]);
    }
  }

  lemma {:induction false} NoneNonPrintable(chunk: seq<Byte>)
    requires forall i :: 0 <= i < |chunk| ==> !NonPrintable(chunk[i])
    ensures CountNonPrintable(chunk) == 0
    decreases |chunk|
  {
    if chunk != [] {
      NoneNonPrintable(chunk[..|chunk| - 1]);
    }
  }

  lemma {:induction false} CountNonPrintableConcat(a: seq<Byte>, b: seq<Byte>)
    ensures CountNonPrintable(a + b) == CountNonPrintable(a) + CountNonPrintable(b)
    decreases |b|
  {
    if b == [] {
      assert a + b == a;
    } else {
      var front := b[..|b| - 1];
      assert (a + b)[..|a + b| - 1] == a + front;
      CountNonPrintableConcat(a, front);
    }
  }

  /** `n` copies of the byte `b`. */
  function Fill(b: Byte, n: nat): (r: seq<Byte>)
    ensures |r| == n && forall i :: 0 <= i < n ==> r[i] == b
  {
    if n == 0 then [] else Fill(b, n - 1) + [b]
  }

  lemma {:induction false} CountFill(b: Byte, n: nat)
    ensures CountNonPrintable(Fill(b, n)) == if NonPrintable(b) then n else 0
    decreases n
  {
    if n > 0 {
      assert Fill(b, n)[..n - 1] == Fill(b, n - 1);
      CountFill(b, n - 1);
    }
  }

  /** The 30% threshold is exact: `k` control bytes followed by `m` letters
      make a binary chunk exactly when `k` is more than 30% of `k + m`. A
      file that cannot be read is text. */
  lemma BinaryThreshold(path: string, k: nat, m: nat)
    requires !BinaryExtension(path)
    requires k + m > 0
    ensures BinaryVerdict(path, Some(Fill(1, k) + Fill(65, m))) <==> 10 * k > 3 * (k + m)
    ensures !BinaryVerdict(path, None)
  {
    var chunk := Fill(1, k) + Fill(65, m);
    CountFill(1, k);
    CountFill(65, m);
    CountNonPrintableConcat(Fill(1, k), Fill(65, m));
    assert CountNonPrintable(chunk) == k;
    FillNoZero(k, m);
    assert 0 !in chunk;
  }

  lemma FillNoZero(k: nat, m: nat)
    ensures forall i :: 0 <= i < k + m ==> (Fill(1, k) + Fill(65, m))[i] != 0
  {
    var chunk := Fill(1, k) + Fill(65, m);
    forall i | 0 <= i < k + m
      ensures chunk[i] != 0
    {
      if i < k {
        assert chunk[i] == Fill(1, k)[i];
      } else {
        assert chunk[i] == Fill(65, m)[i - k];
      }
    }
  }

  // ---------------------------------------------------------------------
  // Reading lines

  function CountChar(s: string, c: char): (n: nat)
    ensures n <= |s|
  {
    if s == [] then 0 else (if s[0] == c then 1 else 0) + CountChar(s[1..], c)
  }

  lemma {:induction false} CountCharConcat(a: string, b: string, c: char)
    ensures CountChar(a + b, c) == CountChar(a, c) + CountChar(b, c)
    decreases |a|
  {
    if a == [] {
      assert a + b == b;
    } else {
      assert (a + b)[1..] == a[1..] + b;
      CountCharConcat(a[1..], b, c);
    }
  }

  lemma {:induction false} CountCharAbsent(s: string, c: char)
    requires forall j :: 0 <= j < |s| ==> s[j] != c
    ensures CountChar(s, c) == 0
    decreases |s|
  {
    if s != [] {
      CountCharAbsent(s[1..], c);
    }
  }

  /** Splitting at '\n' gives one piece more than there are line feeds. */
  lemma {:induction false} SplitCount(s: string)
    ensures |Split(s, "\n")| == CountChar(s, '\n') + 1
    decreases |s|
  {
    var i := Find(s, "\n");
    FindSpec(s, "\n");
    if i == -1 {
      forall j | 0 <= j < |s|
        ensures s[j] != '\n'
      {
        assert !OccursAt(s, "\n", j);
        assert s[j..j + 1] == [s[j]];
      }
      CountCharAbsent(s, '\n');
    } else {
      var rest := s[i + 1..];
      assert s[i..i + 1] == "\n";
      forall j | 0 <= j < i
        ensures s[..i][j] != '\n'
      {
        assert !OccursAt(s, "\n", j);
        assert s[j..j + 1] == [s[j]];
      }
      CountCharAbsent(s[..i], '\n');
      assert s == s[..i] + ("\n" + rest);
      CountCharConcat(s[..i], "\n" + rest, '\n');
      CountCharConcat("\n", rest, '\n');
      SplitCount(rest);
    }
  }

  /** `f.readlines()`, each line stripped of its line feed, on text whose line
      ends have already been translated to '\n': the pieces between line
      feeds, without the empty piece after a final line feed. */
  function FileLines(text: string): seq<string> {
    var parts := Split(text, "\n");
    if parts[|parts| - 1] == "" then parts[..|parts| - 1] else parts
  }

  /** There is one line per line feed, and one more for a last line without
      one. */
  lemma FileLinesCount(text: string)
    ensures |FileLines(text)| == CountChar(text, '\n') + (if text == "" || text[|text| - 1] == '\n' then 0 else 1)
  {
    SplitCount(text);
    LastPieceIff(text);
  }

  /** The lines joined back, with the final line feed, are the text. */
  lemma FileLinesJoin(text: string)
    ensures Join(FileLines(text), "\n") + (if text != "" && text[|text| - 1] == '\n' then "\n" else "") == text
  {
    SplitJoin(text, "\n");
    LastPieceIff(text);
    var parts := Split(text, "\n");
    if parts[|parts| - 1] == "" && |parts| > 1 {
      JoinAppend(parts[..|parts| - 1], [""], "\n");
      assert parts == parts[..|parts| - 1] + [""];
    }
  }

  lemma LastPieceIff(text: string)
    ensures var parts := Split(text, "\n");
      parts[|parts| - 1] == "" <==> text == "" || text[|text| - 1] == '\n'
  {
    if Split(text, "\n")[|Split(text, "\n")| - 1] == "" {
      LastPieceEmpty(text);
    } else {
      LastPieceKept(text);
    }
  }

  /** The last piece of a split is empty exactly when the text is empty or
      ends with a line feed. */
  lemma {:induction false} LastPieceEmpty(text: string)
    requires Split(text, "\n")[|Split(text, "\n")| - 1] == ""
    ensures text == "" || text[|text| - 1] == '\n'
    decreases |text|
  {
    var i := Find(text, "\n");
    if i != -1 {
      var rest := text[i + 1..];
      assert Split(text, "\n") == [text[..i]] + Split(rest, "\n");
      LastPieceEmpty(rest);
      if rest == "" {
        assert text[i..i + 1] == "\n";
      } else {
        assert text[|text| - 1] == rest[|rest| - 1];
      }
    }
  }

  lemma {:induction false} LastPieceKept(text: string)
    requires Split(text, "\n")[|Split(text, "\n")| - 1] != ""
    ensures text != "" && text[|text| - 1] != '\n'
    decreases |text|
  {
    var i := Find(text, "\n");
    if i != -1 {
      var rest := text[i + 1..];
      assert Split(text, "\n") == [text[..i]] + Split(rest, "\n");
      LastPieceKept(rest);
      assert text[|text| - 1] == rest[|rest| - 1];
    } else {
      FindSpec(text, "\n");
      assert text != "";
      assert !OccursAt(text, "\n", |text| - 1);
      assert text[|text| - 1..|text|] == [text[|text| - 1]];
    }
  }

  // ---------------------------------------------------------------------
  // The window of a read

  /** A line over 2000 characters keeps its first 2000 and gains "...". */
  function CapLine(line: string): string {
    if |line| > MaxLineLength then line[..MaxLineLength] + "..." else line
  }

  /** A short enough line is kept; a longer one becomes 2003 characters:
      its first 2000 and "...". */
  lemma CapLineSpec(line: string)
    ensures |line| <= MaxLineLength ==> CapLine(line) == line
    ensures |line| > MaxLineLength ==>
      |CapLine(line)| == MaxLineLength + 3 && CapLine(line)[..MaxLineLength] == line[..MaxLineLength] &&
      EndsWith(CapLine(line), "...")
  {
  }

  function CappedLines(ls: seq<string>): (r: seq<string>)
    ensures |r| == |ls|
    ensures forall i :: 0 <= i < |ls| ==> r[i] == CapLine(ls[i])
  {
    if ls == [] then [] else CappedLines(ls[..|ls| - 1]) + [CapLine(ls[|ls| - 1])]
  }

  /** The loop that builds `truncated_lines`. */
  method TruncateLines(selected: seq<string>) returns (out: seq<string>)
    ensures out == CappedLines(selected)
  {
    out := [];
    for i := 0 to |selected|
      invariant out == CappedLines(selected[..i])
    {
      assert selected[..i + 1][..i] == selected[..i];
      var line := selected[i];
      if |line| > MaxLineLength {
        out := out + [line[..MaxLineLength] + "..."];
      } else {
        out := out + [line];
      }
    }
    assert selected[..|selected|] == selected;
  }

  /** `lines[offset:offset + limit]`. */
  function Window(lines: seq<string>, offset: int, limit: int): seq<string> {
    PySlice(lines, offset, offset + limit)
  }

  /** For a non-negative offset and limit the window is the lines from
      `offset` on, at most `limit` of them. */
  lemma WindowSpec(lines: seq<string>, offset: nat, limit: nat)
    ensures var w := Window(lines, offset, limit);
      |w| == (if offset >= |lines| then 0 else if offset + limit <= |lines| then limit else |lines| - offset) &&
      forall k :: 0 <= k < |w| ==> w[k] == lines[offset + k]
  {
  }

  function MoreLinesHint(next: int): string {
    "\n\n(文件还有更多行。使用 'offset' 参数读取第 " + IntToString(next) + " 行之后的内容)"
  }

  const EmptyFileOutput: string := "<file>\n(文件为空)\n</file>"

  /** The output of a read of `lines`. */
  function ReadOutput(lines: seq<string>, offset: int, limit: int): string {
    var selected := Window(lines, offset, limit);
    if |lines| == 0 then EmptyFileOutput
    else
      "<file>\n" + Join(CappedLines(selected), "\n") +
      (if |lines| > offset + |selected| then MoreLinesHint(offset + |selected|) else "") + "\n</file>"
  }

  /** The hint about further lines appears exactly when lines remain after
      the window; either way the output is wrapped in `<file>` tags. */
  lemma ReadOutputShape(lines: seq<string>, offset: int, limit: int)
    requires lines != []
    ensures var selected := Window(lines, offset, limit);
      var out := ReadOutput(lines, offset, limit);
      var body := "<file>\n" + Join(CappedLines(selected), "\n");
      StartsWith(out, "<file>\n") && EndsWith(out, "\n</file>") &&
      (|lines| > offset + |selected| ==> out == body + MoreLinesHint(offset + |selected|) + "\n</file>") &&
      (|lines| <= offset + |selected| ==> out == body + "\n</file>")
  {
    var selected := Window(lines, offset, limit);
    var joined := Join(CappedLines(selected), "\n");
    var hint := if |lines| > offset + |selected| then MoreLinesHint(offset + |selected|) else "";
    assert ReadOutput(lines, offset, limit) == "<file>\n" + joined + hint + "\n</file>";
    Framed("<file>\n", joined, hint, "\n</file>");
  }

  lemma Framed(head: string, body: string, hint: string, tail: string)
    ensures StartsWith(head + body + hint + tail, head) && EndsWith(head + body + hint + tail, tail)
  {
    assert (head + body + hint + tail)[..|head|] == head;
    assert (head + body + hint + tail)[|head + body + hint|..] == tail;
  }

  // ---------------------------------------------------------------------
  // Suggestions for a missing file

  /** `filename in entry_lower or entry_lower in filename`. */
  predicate Resembles(filename: string, entry: string) {
    Contains(Lower(entry), filename) || Contains(filename, Lower(entry))
  }

  /** The test of `_get_file_suggestions` for one file name. */
  function Hit(filename: string): string -> bool {
    entry => Resembles(filename, entry)
  }

  /** Every entry that `keep` accepts, joined to the directory, in listing
      order. */
  function Kept(dir: string, entries: seq<string>, keep: string -> bool): (r: seq<string>)
    ensures |r| <= |entries|
  {
    if entries == [] then []
    else
      var last := entries[|entries| - 1];
      Kept(dir, entries[..|entries| - 1], keep) + (if keep(last) then [PathJoin(dir, last)] else [])
  }

  function FirstThree(xs: seq<string>): (r: seq<string>)
    ensures |r| <= 3 && |r| <= |xs| && r == xs[..|r|]
    ensures |xs| >= 3 ==> |r| == 3
    ensures |xs| < 3 ==> r == xs
  {
    if |xs| <= 3 then xs else xs[..3]
  }

  /** The first three entries that resemble the file name. */
  function Suggestions(dir: string, filename: string, entries: seq<string>): (r: seq<string>)
    ensures |r| <= 3
  {
    FirstThree(Kept(dir, entries, Hit(filename)))
  }

  lemma {:induction false} KeptPrefix(dir: string, entries: seq<string>, keep: string -> bool, n: nat)
    requires n <= |entries|
    ensures var pre := Kept(dir, entries[..n], keep);
      var all := Kept(dir, entries, keep);
      |pre| <= |all| && all[..|pre|] == pre
    decreases |entries| - n
  {
    if n < |entries| {
      var e := entries[..n + 1];
      assert e[..n] == entries[..n];
      KeptPrefix(dir, entries, keep, n + 1);
    } else {
      assert entries[..n] == entries;
    }
  }

  lemma KeptSnoc(dir: string, entries: seq<string>, keep: string -> bool, i: nat)
    requires i < |entries|
    ensures Kept(dir, entries[..i + 1], keep) ==
      Kept(dir, entries[..i], keep) + (if keep(entries[i]) then [PathJoin(dir, entries[i])] else [])
  {
    assert entries[..i + 1][..i] == entries[..i];
  }

  /** Once three entries are kept, the rest are not looked at. */
  lemma KeptFull(dir: string, entries: seq<string>, keep: string -> bool, n: nat)
    requires n <= |entries| && |Kept(dir, entries[..n], keep)| == 3
    ensures FirstThree(Kept(dir, entries, keep)) == Kept(dir, entries[..n], keep)
  {
    KeptPrefix(dir, entries, keep, n);
  }

  /** The loop of `_get_file_suggestions`, which stops once three entries are
      kept. */
  method CollectKept(dir: string, entries: seq<string>, keep: string -> bool) returns (r: seq<string>)
    ensures r == FirstThree(Kept(dir, entries, keep))
  {
    r := [];
    var i := 0;
    while i < |entries|
      invariant i <= |entries|
      invariant r == Kept(dir, entries[..i], keep)
      invariant |r| < 3
    {
      KeptSnoc(dir, entries, keep, i);
      var entry := entries[i];
      if keep(entry) {
        r := r + [PathJoin(dir, entry)];
        if |r| >= 3 {
          KeptFull(dir, entries, keep, i + 1);
          return;
        }
      }
      i := i + 1;
    }
    assert entries[..i] == entries;
  }

  /** `_get_file_suggestions` once the directory listing is known. */
  method CollectSuggestions(dir: string, filename: string, entries: seq<string>) returns (r: seq<string>)
    ensures r == Suggestions(dir, filename, entries)
  {
    r := CollectKept(dir, entries, Hit(filename));
  }

  /** At most three suggestions, each an entry of the listing that resembles
      the name, joined to the directory; fewer than three only when there are
      no more. */
  lemma {:induction false} SuggestionsSpec(dir: string, filename: string, entries: seq<string>)
    ensures forall s :: s in Suggestions(dir, filename, entries) ==>
      exists e :: e in entries && Resembles(filename, e) && s == PathJoin(dir, e)
    ensures |Suggestions(dir, filename, entries)| < 3 ==>
      forall e :: e in entries && Resembles(filename, e) ==> PathJoin(dir, e) in Suggestions(dir, filename, entries)
  {
    var keep := Hit(filename);
    KeptMembers(dir, entries, keep);
    var all := Kept(dir, entries, keep);
    forall s | s in Suggestions(dir, filename, entries)
      ensures exists e :: e in entries && Resembles(filename, e) && s == PathJoin(dir, e)
    {
      var k :| 0 <= k < |FirstThree(all)| && FirstThree(all)[k] == s;
      assert all[k] == s;
      assert s in all;
      var e :| e in entries && keep(e) && s == PathJoin(dir, e);
      assert Resembles(filename, e);
    }
    forall e | e in entries && Resembles(filename, e)
      ensures keep(e)
    {
    }
  }

  lemma {:induction false} KeptMembers(dir: string, entries: seq<string>, keep: string -> bool)
    ensures forall s :: s in Kept(dir, entries, keep) ==>
      exists e :: e in entries && keep(e) && s == PathJoin(dir, e)
    ensures forall e :: e in entries && keep(e) ==> PathJoin(dir, e) in Kept(dir, entries, keep)
    decreases |entries|
  {
    if entries != [] {
      var front := entries[..|entries| - 1];
      KeptMembers(dir, front, keep);
      forall e | e in entries
        ensures e in front || e == entries[|entries| - 1]
      {
        var k :| 0 <= k < |entries| && entries[k] == e;
        if k < |entries| - 1 {
          assert front[k] == e;
        }
      }
    }
  }

  // ---------------------------------------------------------------------
  // `ReadTool.execute`

  datatype ReadParams = ReadParams(filePath: string, offset: int, limit: int)

  /** What the file system tells a read: the absolute path, the path relative
      to the working directory, whether the path exists, the listing of its
      directory (None when that directory is missing or cannot be listed),
      the first bytes for the binary check (None when reading raised), and
      the decoded text with its line ends translated to '\n' (decoding
      replaces what is not UTF-8, so only an `OSError` message is left as an
      error). */
  datatype ReadEnv = ReadEnv(absPath: string, relPath: string, found: bool, listing: Option<seq<string>>,
                             chunk: Option<seq<Byte>>, text: Result<string>)

  function StrList(xs: seq<string>): (r: seq<Value>)
    ensures |r| == |xs| && forall i :: 0 <= i < |xs| ==> r[i] == Str(xs[i])
  {
    if xs == [] then [] else [Str(xs[0])] + StrList(xs[1..])
  }

  function NotFoundResult(path: string, suggestions: seq<string>): ToolResult {
    var message := "文件未找到: " + path +
      (if suggestions != [] then "\n\n您是否指的是以下文件之一？\n" + Join(suggestions, "\n") else "");
    ToolResult("文件未找到: " + BaseName(path), message,
      Some(map["error" := Str("file_not_found"), "file_path" := Str(path), "suggestions" := List(StrList(suggestions))]))
  }

  function ReadLinesResult(p: ReadParams, env: ReadEnv, lines: seq<string>): ToolResult {
    var selected := Window(lines, p.offset, p.limit);
    var shown := CappedLines(selected);
    var preview := if |lines| == 0 then "(文件为空)" else Join(PySlice(shown, 0, 20), "\n");
    ToolResult(env.relPath, ReadOutput(lines, p.offset, p.limit),
      Some(map["file_path" := Str(env.absPath), "total_lines" := Int(|lines|), "lines_read" := Int(|selected|),
               "offset" := Int(p.offset), "limit" := Int(p.limit), "preview" := Str(preview)]))
  }

  function ImageResult(path: string, kind: string): ToolResult {
    ToolResult("无法读取图像文件: " + BaseName(path),
      "这是一个 " + kind + " 类型的图像文件\n请使用不同的工具来处理图像",
      Some(map["error" := Str("image_file"), "file_path" := Str(path), "image_type" := Str(kind)]))
  }

  function BinaryResult(path: string): ToolResult {
    ToolResult("无法读取二进制文件: " + BaseName(path), "无法读取二进制文件: " + path,
      Some(map["error" := Str("binary_file"), "file_path" := Str(path)]))
  }

  function ReadErrorResult(path: string, message: string): ToolResult {
    ToolResult("读取错误: " + BaseName(path), "读取文件时发生错误: " + message,
      Some(map["error" := Str("io_error"), "file_path" := Str(path), "error_message" := Str(message)]))
  }

  function SuggestionsFor(env: ReadEnv): (r: seq<string>)
    ensures |r| <= 3
  {
    if env.listing.Some? then Suggestions(DirName(env.absPath), Lower(BaseName(env.absPath)), env.listing.value) else []
  }

  /** How a read ends, decided before anything is rendered. */
  datatype ReadStage = Missing | Image(kind: string) | Binary | Unreadable(message: string) | Lines(lines: seq<string>)

  /** The checks of `ReadTool.execute` in their order: a missing path, an
      image, a binary file, then the text. */
  function Stage(env: ReadEnv): (r: ReadStage)
    ensures r.Missing? <==> !env.found
    ensures r.Image? <==> env.found && ImageType(env.absPath).Some?
    ensures r.Image? ==> ImageType(env.absPath) == Some(r.kind)
    ensures r.Binary? <==> env.found && ImageType(env.absPath).None? && BinaryVerdict(env.absPath, env.chunk)
    ensures r.Unreadable? ==> env.text == Err(r.message)
    ensures r.Lines? ==> env.text.Ok? && r.lines == FileLines(env.text.value)
  {
    var path := env.absPath;
    if !env.found then Missing
    else if ImageType(path).Some? then Image(ImageType(path).value)
    else if BinaryVerdict(path, env.chunk) then Binary
    else
      match env.text
      case Err(message) => Unreadable(message)
      case Ok(text) => Lines(FileLines(text))
  }

  function Render(p: ReadParams, env: ReadEnv, stage: ReadStage): ToolResult {
    match stage
    case Missing => NotFoundResult(env.absPath, SuggestionsFor(env))
    case Image(kind) => ImageResult(env.absPath, kind)
    case Binary => BinaryResult(env.absPath)
    case Unreadable(message) => ReadErrorResult(env.absPath, message)
    case Lines(lines) => ReadLinesResult(p, env, lines)
  }

  /** `ReadTool.execute` after the path has been made absolute. */
  function Read(p: ReadParams, env: ReadEnv): ToolResult {
    Render(p, env, Stage(env))
  }

  /** The error tag each refusal reports, and none on a successful read. */
  lemma RenderTags(p: ReadParams, env: ReadEnv, stage: ReadStage)
    ensures stage.Missing? ==> MetaIs(Render(p, env, stage), "error", Str("file_not_found"))
    ensures stage.Image? ==> MetaIs(Render(p, env, stage), "error", Str("image_file")) &&
                             MetaIs(Render(p, env, stage), "image_type", Str(stage.kind))
    ensures stage.Binary? ==> MetaIs(Render(p, env, stage), "error", Str("binary_file"))
    ensures stage.Unreadable? ==> MetaIs(Render(p, env, stage), "error", Str("io_error"))
    ensures stage.Lines? ==> Render(p, env, stage).metadata.Some? && "error" !in Render(p, env, stage).metadata.value
  {
  }

  /** The checks come in order: a missing path, an image, a binary file. */
  lemma ReadRefusals(p: ReadParams, env: ReadEnv)
    ensures !env.found ==> MetaIs(Read(p, env), "error", Str("file_not_found"))
    ensures env.found && ImageType(env.absPath).Some? ==>
      MetaIs(Read(p, env), "error", Str("image_file")) &&
      MetaIs(Read(p, env), "image_type", Str(ImageType(env.absPath).value))
    ensures env.found && ImageType(env.absPath).None? && BinaryVerdict(env.absPath, env.chunk) ==>
      MetaIs(Read(p, env), "error", Str("binary_file"))
  {
    RenderTags(p, env, Stage(env));
  }

  /** Past those checks, a read fails only when reading the text raises. */
  lemma ReadTextOutcome(p: ReadParams, env: ReadEnv)
    requires env.found && ImageType(env.absPath).None? && !BinaryVerdict(env.absPath, env.chunk)
    ensures env.text.Err? ==> MetaIs(Read(p, env), "error", Str("io_error"))
    ensures env.text.Ok? ==> Read(p, env).metadata.Some? && "error" !in Read(p, env).metadata.value
  {
    RenderTags(p, env, Stage(env));
  }

  /** A successful read reports the file's line count and the size of the
      window, and its output is the window with long lines cut. */
  lemma ReadWindowReported(p: ReadParams, env: ReadEnv)
    requires env.found && ImageType(env.absPath).None? && !BinaryVerdict(env.absPath, env.chunk)
    requires env.text.Ok?
    ensures var lines := FileLines(env.text.value);
      MetaIs(Read(p, env), "total_lines", Int(|lines|)) &&
      MetaIs(Read(p, env), "lines_read", Int(|Window(lines, p.offset, p.limit)|)) &&
      Read(p, env).output == ReadOutput(lines, p.offset, p.limit)
  {
    var lines := FileLines(env.text.value);
    assert Stage(env) == Lines(lines);
    LinesReported(p, env, lines);
  }

  lemma LinesReported(p: ReadParams, env: ReadEnv, lines: seq<string>)
    ensures var r := ReadLinesResult(p, env, lines);
      MetaIs(r, "total_lines", Int(|lines|)) &&
      MetaIs(r, "lines_read", Int(|Window(lines, p.offset, p.limit)|)) &&
      r.output == ReadOutput(lines, p.offset, p.limit)
  {
  }

  /** A missing file lists at most three suggestions. */
  lemma NotFoundSuggestions(p: ReadParams, env: ReadEnv)
    requires !env.found
    ensures MetaIs(Read(p, env), "suggestions", List(StrList(SuggestionsFor(env))))
    ensures |SuggestionsFor(env)| <= 3
  {
  }

  // ---------------------------------------------------------------------
  // `WriteTool.execute`

  /** `content.count('\n') + 1 if content else 0`. */
  function LineCount(content: string): nat {
    if content == "" then 0 else CountChar(content, '\n') + 1
  }

  /** The count written is the number of pieces between line feeds, so a
      final line feed counts one line more than a read of the file returns. */
  lemma LineCountSpec(content: string)
    ensures content != "" ==> LineCount(content) == |Split(content, "\n")|
    ensures LineCount(content) ==
      |FileLines(content)| + (if content != "" && content[|content| - 1] == '\n' then 1 else 0)
  {
    SplitCount(content);
    FileLinesCount(content);
    LastPieceIff(content);
  }

  /** What the file system tells a write: the absolute and relative paths,
      whether the file and its directory exist, the message of an `OSError`
      raised while creating the directory or writing, and the size of the
      written file. */
  datatype WriteEnv = WriteEnv(absPath: string, relPath: string, fileExists: bool, dirExists: bool,
                               mkdirError: Option<string>, writeError: Option<string>, size: nat)

  datatype WriteOutcome = WriteOutcome(result: ToolResult, written: Option<string>)

  /** `WriteTool.execute` after the path has been made absolute. */
  function Write(content: string, env: WriteEnv): WriteOutcome {
    var path := env.absPath;
    var directory := DirName(path);
    if directory != "" && !env.dirExists && env.mkdirError.Some? then
      WriteOutcome(ToolResult("创建目录失败: " + BaseName(directory),
        "无法创建目录: " + directory + "\n错误: " + env.mkdirError.value,
        Some(map["error" := Str("directory_creation_failed"), "directory" := Str(directory),
                 "error_message" := Str(env.mkdirError.value)])), None)
    else if env.writeError.Some? then
      WriteOutcome(ToolResult("写入失败: " + BaseName(path), "写入文件时发生错误: " + env.writeError.value,
        Some(map["error" := Str("io_error"), "file_path" := Str(path), "error_message" := Str(env.writeError.value)])), None)
    else
      var action := if env.fileExists then "覆盖" else "创建";
      WriteOutcome(ToolResult(env.relPath,
        "成功" + action + "文件: " + path + "\n" + "文件大小: " + NatToString(env.size) + " 字节\n" +
        "行数: " + NatToString(LineCount(content)),
        Some(map["file_path" := Str(path), "file_exists" := Bool(env.fileExists), "file_size" := Int(env.size),
                 "line_count" := Int(LineCount(content)), "action" := Str(action)])), Some(content))
  }

  /** The content is written exactly when neither creating the directory nor
      writing fails, and then the report counts its lines. */
  lemma WriteSpec(content: string, env: WriteEnv)
    ensures var out := Write(content, env);
      (out.written.Some? <==>
        env.writeError.None? && (DirName(env.absPath) == "" || env.dirExists || env.mkdirError.None?)) &&
      (out.written.Some? ==>
        out.written.value == content &&
        MetaIs(out.result, "line_count", Int(LineCount(content))) &&
        MetaIs(out.result, "action", Str(if env.fileExists then "覆盖" else "创建"))) &&
      (out.written.None? <==> "error" in out.result.metadata.value)
  {
  }
}
