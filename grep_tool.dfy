/** The grep tool around ripgrep: the argument list, the cut to `head_limit`
    lines, and the formatting of ripgrep's content and count output. Running
    ripgrep is a parameter, as are `os.path.relpath` against the search path
    and the files-with-matches listing (which orders files by their
    modification times). */
module Grep {
  import opened Wrappers
  import opened Values
  import opened Text
  import opened ToolBase

  datatype GrepParams = GrepParams(
    pattern: string,
    path: string,
    includeGlob: Option<string>,
    outputMode: string,
    contextBefore: Option<int>,
    contextAfter: Option<int>,
    caseInsensitive: bool,
    multiline: bool,
    headLimit: Option<int>)

  /** The ripgrep command line, `rg` being the executable found on PATH. */
  function Arguments(p: GrepParams, rg: string): (r: seq<string>)
    ensures |r| >= 4 && r[..3] == [rg, "-n", p.pattern] && r[|r| - 1] == p.path
  {
    var r := [rg, "-n", p.pattern] + Options(p) + [p.path];
    assert r[..3] == [rg, "-n", p.pattern];
    r
  }

  /** The options between the pattern and the path. */
  function Options(p: GrepParams): seq<string> {
    (if p.includeGlob.Some? then ["--glob", p.includeGlob.value] else []) +
    (if p.outputMode == "files_with_matches" then ["-l"] else if p.outputMode == "count" then ["-c"] else []) +
    (if p.contextBefore.Some? then ["-B", IntToString(p.contextBefore.value)] else []) +
    (if p.contextAfter.Some? then ["-A", IntToString(p.contextAfter.value)] else []) +
    (if p.caseInsensitive then ["-i"] else []) +
    (if p.multiline then ["-U", "--multiline-dotall"] else [])
  }

  /** `if head_limit and len(lines) > head_limit: lines = lines[:head_limit]`:
      the lines kept, and whether any were dropped. */
  function HeadLimit(lines: seq<string>, limit: Option<int>): (seq<string>, bool) {
    if limit.Some? && limit.value != 0 && |lines| > limit.value then (PySlice(lines, 0, limit.value), true)
    else (lines, false)
  }

  /** No limit, or a limit of 0, keeps everything; a positive limit keeps the
      first lines up to it and marks the result truncated exactly when there
      were more; a negative limit `-k` always truncates and drops the last
      `k` lines. */
  lemma HeadLimitSpec(lines: seq<string>, limit: Option<int>)
    ensures limit.None? || limit == Some(0) ==> HeadLimit(lines, limit) == (lines, false)
    ensures limit.Some? && limit.value > 0 ==>
      var n := if limit.value < |lines| then limit.value else |lines|;
      HeadLimit(lines, limit) == (lines[..n], |lines| > limit.value)
    ensures limit.Some? && limit.value < 0 ==>
      var n := if |lines| + limit.value < 0 then 0 else |lines| + limit.value;
      HeadLimit(lines, limit) == (lines[..n], true)
  {
    assert lines[..|lines|] == lines;
    if limit.Some? && limit.value < 0 {
      var b := ClampIndex(limit.value, |lines|);
      assert PySlice(lines, 0, limit.value) == if 0 < b then lines[0..b] else [];
    }
  }

  /** A match line `file:line:content` split at its first two ':'. */
  function MatchParts(line: string): seq<string> {
    SplitN(line, ":", 2)
  }

  predicate WellFormed(line: string) {
    line != "" && |MatchParts(line)| == 3
  }

  function MatchEntry(line: string): string
    requires WellFormed(line)
  {
    "  Line " + MatchParts(line)[1] + ": " + MatchParts(line)[2]
  }

  /** The lines `_format_content_output` emits after its first, `current`
      being the file of the last match shown: a header for each change of
      file (with a blank line first unless it is the first header) and one
      entry per match; malformed lines are skipped. */
  function ContentBody(lines: seq<string>, rel: string -> string, current: string): seq<string>
    decreases |lines|
  {
    if lines == [] then []
    else
      var (emitted, next) := Emit(lines[0], rel, current);
      emitted + ContentBody(lines[1..], rel, next)
  }

  /** What one line adds, and the file shown after it. */
  function Emit(line: string, rel: string -> string, current: string): (seq<string>, string) {
    if !WellFormed(line) then ([], current)
    else
      var file := MatchParts(line)[0];
      var header := if current != file then (if current != "" then [""] else []) + [rel(file) + ":"] else [];
      (header + [MatchEntry(line)], file)
  }

  function ContentHeader(lines: seq<string>): string {
    "Found " + NatToString(|lines|) + " matches"
  }

  function FormatContent(lines: seq<string>, rel: string -> string): string {
    if lines == [] then "No matches found" else Join([ContentHeader(lines)] + ContentBody(lines, rel, ""), "\n")
  }

  /** `_format_content_output`. */
  method FormatContentOutput(lines: seq<string>, rel: string -> string) returns (out: string)
    ensures out == FormatContent(lines, rel)
  {
    if lines == [] {
      return "No matches found";
    }
    var outputLines := [ContentHeader(lines)];
    var current := "";
    var i := 0;
    while i < |lines|
      invariant 0 <= i <= |lines|
      invariant outputLines + ContentBody(lines[i..], rel, current) == [ContentHeader(lines)] + ContentBody(lines, rel, "")
    {
      ghost var before, was := outputLines, current;
      outputLines, current := AppendMatchLine(outputLines, current, lines[i], rel);
      ContentStep(lines, i, rel, before, was);
      i := i + 1;
    }
    assert lines[i..] == [];
    assert ContentBody([], rel, current) == [];
    assert outputLines == [ContentHeader(lines)] + ContentBody(lines, rel, "");
    out := Join(outputLines, "\n");
  }

  /** One turn of the loop: a header when the file changes, then the
      match. */
  method AppendMatchLine(outputLines: seq<string>, current: string, line: string, rel: string -> string)
    returns (extended: seq<string>, next: string)
    ensures extended == outputLines + Emit(line, rel, current).0 && next == Emit(line, rel, current).1
  {
    extended, next := outputLines, current;
    if line != "" {
      var parts := SplitN(line, ":", 2);
      if |parts| >= 3 {
        var file := parts[0];
        if next != file {
          if next != "" {
            extended := extended + [""];
          }
          next := file;
          extended := extended + [rel(file) + ":"];
        }
        extended := extended + ["  Line " + parts[1] + ": " + parts[2]];
      }
    }
    EmitCases(line, rel, current);
  }

  /** The three cases of one line, as the loop takes them. */
  lemma EmitCases(line: string, rel: string -> string, current: string)
    ensures var parts := SplitN(line, ":", 2);
      var (emitted, next) := Emit(line, rel, current);
      (line == "" || |parts| < 3 ==> emitted == [] && next == current) &&
      (line != "" && |parts| >= 3 && parts[0] == current ==>
        emitted == ["  Line " + parts[1] + ": " + parts[2]] && next == current) &&
      (line != "" && |parts| >= 3 && parts[0] != current ==>
        emitted == (if current != "" then [""] else []) + [rel(parts[0]) + ":"] + ["  Line " + parts[1] + ": " + parts[2]] &&
        next == parts[0])
  {
  }

  lemma ContentStep(lines: seq<string>, i: nat, rel: string -> string, before: seq<string>, was: string)
    requires i < |lines|
    ensures before + ContentBody(lines[i..], rel, was) ==
      (before + Emit(lines[i], rel, was).0) + ContentBody(lines[i + 1..], rel, Emit(lines[i], rel, was).1)
  {
    ContentBodyCons(lines[i..], rel, was);
    assert lines[i..][1..] == lines[i + 1..];
  }

  lemma ContentBodyCons(lines: seq<string>, rel: string -> string, current: string)
    requires lines != []
    ensures ContentBody(lines, rel, current) ==
      Emit(lines[0], rel, current).0 + ContentBody(lines[1..], rel, Emit(lines[0], rel, current).1)
  {
  }

  /** The header counts every line given, well-formed or not. */
  lemma ContentHeaderCounts(lines: seq<string>, rel: string -> string)
    requires lines != []
    ensures StartsWith(FormatContent(lines, rel), "Found " + NatToString(|lines|) + " matches")
  {
    JoinStartsWith([ContentHeader(lines)] + ContentBody(lines, rel, ""), "\n");
  }

  /** The first line after the count is never blank: the blank line goes
      only between one file's matches and the next file's header. */
  lemma {:induction false} NoLeadingBlank(lines: seq<string>, rel: string -> string)
    ensures ContentBody(lines, rel, "") == [] || ContentBody(lines, rel, "")[0] != ""
    decreases |lines|
  {
    if lines != [] && !WellFormed(lines[0]) {
      NoLeadingBlank(lines[1..], rel);
    }
  }

  /** Consecutive matches in the file already shown get no header: one entry
      each, in order. */
  lemma {:induction false} SameFileNoHeader(lines: seq<string>, rel: string -> string, file: string)
    requires forall k :: 0 <= k < |lines| ==> WellFormed(lines[k]) && MatchParts(lines[k])[0] == file
    ensures |ContentBody(lines, rel, file)| == |lines|
    ensures forall k :: 0 <= k < |lines| ==> ContentBody(lines, rel, file)[k] == MatchEntry(lines[k])
    decreases |lines|
  {
    if lines != [] {
      var tail := lines[1..];
      assert forall k :: 0 <= k < |tail| ==> tail[k] == lines[k + 1];
      SameFileNoHeader(tail, rel, file);
      var rest := ContentBody(tail, rel, file);
      assert ContentBody(lines, rel, file) == [MatchEntry(lines[0])] + rest by {
        ContentBodyCons(lines, rel, file);
        EmitSame(lines[0], rel, file);
      }
    }
  }

  lemma EmitSame(line: string, rel: string -> string, file: string)
    requires WellFormed(line) && MatchParts(line)[0] == file
    ensures Emit(line, rel, file) == ([MatchEntry(line)], file)
  {
    var header: seq<string> := [];
    assert Emit(line, rel, file) == (header + [MatchEntry(line)], file);
    assert header + [MatchEntry(line)] == [MatchEntry(line)];
  }

  /** A match in a new file, after another file's matches, opens with a
      blank line and the new file's header. */
  lemma NewFileHeader(lines: seq<string>, rel: string -> string, current: string)
    requires lines != [] && WellFormed(lines[0])
    requires current != "" && MatchParts(lines[0])[0] != current
    ensures ContentBody(lines, rel, current)[..3] ==
      ["", rel(MatchParts(lines[0])[0]) + ":", MatchEntry(lines[0])]
  {
  }

  /** One line of ripgrep's count output: a file and its count after the
      last ':', the count parsed when it is an integer. Lines without ':'
      give nothing. */
  function CountFields(line: string): Option<(string, Option<int>)> {
    if Contains(line, ":") then
      var parts := RSplitOnce(line, ":");
      if |parts| == 2 then Some((parts[0], ParseInt(parts[1]))) else None
    else None
  }

  function CountEntry(line: string): seq<string> {
    var fields := CountFields(line);
    if fields.None? then []
    else if fields.value.1.Some? then ["  " + fields.value.0 + ": " + IntToString(fields.value.1.value)]
    else ["  " + line]
  }

  function CountEntries(lines: seq<string>): seq<string> {
    if lines == [] then [] else CountEntry(lines[0]) + CountEntries(lines[1..])
  }

  function LineCount(line: string): int {
    var fields := CountFields(line);
    if fields.Some? && fields.value.1.Some? then fields.value.1.value else 0
  }

  /** The sum of the integer counts. */
  function CountTotal(lines: seq<string>): int {
    if lines == [] then 0 else LineCount(lines[0]) + CountTotal(lines[1..])
  }

  function FormatCount(lines: seq<string>): string {
    if lines == [] then "No matches found"
    else Join(["Match counts by file:", "Total matches: " + IntToString(CountTotal(lines)), ""] + CountEntries(lines), "\n")
  }

  lemma {:induction false} CountSnoc(lines: seq<string>, line: string)
    ensures CountEntries(lines + [line]) == CountEntries(lines) + CountEntry(line)
  {
    var all := lines + [line];
    if lines != [] {
      assert all[0] == lines[0] && all[1..] == lines[1..] + [line];
      CountSnoc(lines[1..], line);
    } else {
      assert all[0] == line && all[1..] == [];
    }
  }

  lemma {:induction false} TotalSnoc(lines: seq<string>, line: string)
    ensures CountTotal(lines + [line]) == CountTotal(lines) + LineCount(line)
  {
    var all := lines + [line];
    if lines != [] {
      assert all[0] == lines[0] && all[1..] == lines[1..] + [line];
      TotalSnoc(lines[1..], line);
    } else {
      assert all[0] == line && all[1..] == [];
    }
  }

  /** `_format_count_output`. */
  method FormatCountOutput(lines: seq<string>) returns (out: string)
    ensures out == FormatCount(lines)
  {
    if lines == [] {
      return "No matches found";
    }
    var outputLines, total := CountLoop(lines);
    ghost var counted := outputLines;
    var totalLine := "Total matches: " + IntToString(total);
    outputLines := outputLines[..1] + [totalLine] + outputLines[1..];
    outputLines := outputLines[..2] + [""] + outputLines[2..];
    TwoInserts(counted, totalLine);
    out := Join(outputLines, "\n");
  }

  /** `insert(1, t)` then `insert(2, "")`. */
  lemma TwoInserts(xs: seq<string>, t: string)
    requires xs != []
    ensures var ys := xs[..1] + [t] + xs[1..];
      ys[..2] + [""] + ys[2..] == [xs[0], t, ""] + xs[1..]
  {
    var ys := xs[..1] + [t] + xs[1..];
    assert ys[..2] == [xs[0], t] && ys[2..] == xs[1..];
  }

  /** The loop of `_format_count_output`, before the total is inserted. */
  method CountLoop(lines: seq<string>) returns (outputLines: seq<string>, total: int)
    ensures outputLines == ["Match counts by file:"] + CountEntries(lines)
    ensures total == CountTotal(lines)
  {
    outputLines := ["Match counts by file:"];
    total := 0;
    var i := 0;
    while i < |lines|
      invariant 0 <= i <= |lines|
      invariant total == CountTotal(lines[..i])
      invariant outputLines == ["Match counts by file:"] + CountEntries(lines[..i])
    {
      CountPrefixStep(lines, i);
      outputLines, total := AppendCount(outputLines, total, lines[i]);
      i := i + 1;
    }
    assert lines[..i] == lines;
  }

  lemma CountPrefixStep(lines: seq<string>, i: nat)
    requires i < |lines|
    ensures CountEntries(lines[..i + 1]) == CountEntries(lines[..i]) + CountEntry(lines[i])
    ensures CountTotal(lines[..i + 1]) == CountTotal(lines[..i]) + LineCount(lines[i])
  {
    var prev, x := lines[..i], lines[i];
    assert lines[..i + 1] == prev + [x];
    CountSnoc(prev, x);
    TotalSnoc(prev, x);
  }

  /** One turn of the loop: a parsed count is added to the total and shown
      normalised, an unparsed one is echoed. */
  method AppendCount(outputLines: seq<string>, total: int, line: string) returns (extended: seq<string>, sum: int)
    ensures extended == outputLines + CountEntry(line) && sum == total + LineCount(line)
  {
    extended, sum := outputLines, total;
    if Contains(line, ":") {
      var parts := RSplitOnce(line, ":");
      if |parts| == 2 {
        var count := ParseInt(parts[1]);
        if count.Some? {
          sum := sum + count.value;
          extended := extended + ["  " + parts[0] + ": " + IntToString(count.value)];
        } else {
          extended := extended + ["  " + line];
        }
      }
    }
  }

  /** The total over a concatenation is the sum of the totals. */
  lemma {:induction false} CountTotalAppend(a: seq<string>, b: seq<string>)
    ensures CountTotal(a + b) == CountTotal(a) + CountTotal(b)
  {
    if a != [] {
      assert (a + b)[0] == a[0] && (a + b)[1..] == a[1..] + b;
      CountTotalAppend(a[1..], b);
    } else {
      assert a + b == b;
    }
  }

  /** A line whose count is not an integer is echoed as it is and adds
      nothing to the total; a line with an integer count adds that count. */
  lemma CountLine(line: string)
    requires Contains(line, ":")
    ensures var tail := RSplitOnce(line, ":")[|RSplitOnce(line, ":")| - 1];
      (ParseInt(tail).None? ==> CountEntries([line]) == ["  " + line] && CountTotal([line]) == 0) &&
      (ParseInt(tail).Some? ==> CountTotal([line]) == ParseInt(tail).value)
  {
    var parts := RSplitOnce(line, ":");
    assert |parts| == 2 by {
      RFindSpec(line, ":");
      assert OccursAt(line, ":", Find(line, ":"));
    }
    assert CountEntries([line]) == CountEntry(line) + CountEntries([]);
  }

  /** How ripgrep ended. */
  datatype RgReply = Completed(returnCode: int, stdout: string, stderr: string) | TimedOut | Raised(message: string)

  const GrepTruncatedNote := "\n\n(Results are truncated. Consider using a more specific path or pattern.)"

  function Failure(pattern: string, output: string): ToolResult {
    ToolResult(pattern, output, Some(map["matches" := Int(0), "truncated" := Bool(false), "error" := Bool(true)]))
  }

  function NoFiles(pattern: string): ToolResult {
    ToolResult(pattern, "No files found", Some(map["matches" := Int(0), "truncated" := Bool(false)]))
  }

  /** The output of a run that found matches, formatted for the mode. */
  function Formatted(mode: string, lines: seq<string>, rel: string -> string, filesOutput: seq<string> -> string): string {
    if mode == "content" then FormatContent(lines, rel)
    else if mode == "files_with_matches" then filesOutput(lines)
    else if mode == "count" then FormatCount(lines)
    else Join(lines, "\n")
  }

  /** `GrepTool.execute`; `rg` is the executable found on PATH, if any, and
      `run` what ripgrep does with an argument list. */
  function Execute(p: GrepParams, rg: Option<string>, run: seq<string> -> RgReply, rel: string -> string,
                   filesOutput: seq<string> -> string): Result<ToolResult>
  {
    if p.pattern == "" then Err("pattern is required")
    else if rg.None? then Ok(Failure(p.pattern, "ripgrep (rg) not found in PATH. Please install ripgrep."))
    else match run(Arguments(p, rg.value))
      case TimedOut => Ok(Failure(p.pattern, "Search timed out. Consider using a more specific pattern or path."))
      case Raised(message) => Ok(Failure(p.pattern, "Error executing search: " + message))
      case Completed(code, stdout, stderr) =>
        if code == 1 then Ok(NoFiles(p.pattern))
        else if code != 0 then Ok(Failure(p.pattern, "Error: " + (if stderr != "" then Strip(stderr) else "ripgrep failed")))
        else if Strip(stdout) == "" then Ok(NoFiles(p.pattern))
        else
          var (lines, truncated) := HeadLimit(Split(Strip(stdout), "\n"), p.headLimit);
          var formatted := Formatted(p.outputMode, lines, rel, filesOutput);
          Ok(ToolResult(p.pattern, formatted + (if truncated then GrepTruncatedNote else ""),
            Some(map["matches" := Int(|lines|), "truncated" := Bool(truncated), "output_mode" := Str(p.outputMode)])))
  }

  /** An empty pattern is refused before anything runs. */
  lemma EmptyPatternRefused(p: GrepParams, rg: Option<string>, run: seq<string> -> RgReply, rel: string -> string,
                            filesOutput: seq<string> -> string)
    ensures Execute(p, rg, run, rel, filesOutput).Err? <==> p.pattern == ""
  {
  }

  /** A run with output reports as matches the number of lines kept, never
      more than a positive head limit, and the truncation note appears
      exactly when lines were dropped. */
  lemma MatchesReported(p: GrepParams, rg: string, run: seq<string> -> RgReply, rel: string -> string,
                        filesOutput: seq<string> -> string)
    requires p.pattern != ""
    requires run(Arguments(p, rg)).Completed? && run(Arguments(p, rg)).returnCode == 0
    requires Strip(run(Arguments(p, rg)).stdout) != ""
    ensures var all := Split(Strip(run(Arguments(p, rg)).stdout), "\n");
      var r := Execute(p, Some(rg), run, rel, filesOutput).value;
      var (lines, truncated) := HeadLimit(all, p.headLimit);
      MetaIs(r, "matches", Int(|lines|)) && MetaIs(r, "truncated", Bool(truncated)) &&
      (p.headLimit.Some? && p.headLimit.value > 0 ==> |lines| <= p.headLimit.value) &&
      (truncated ==> r.output == Formatted(p.outputMode, lines, rel, filesOutput) + GrepTruncatedNote) &&
      (!truncated ==> r.output == Formatted(p.outputMode, lines, rel, filesOutput))
  {
    HeadLimitSpec(Split(Strip(run(Arguments(p, rg)).stdout), "\n"), p.headLimit);
  }
}
