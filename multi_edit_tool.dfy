/** The multi-edit tool: a list of edits validated up front, then applied one
    after another through the edit tool, each to the file the previous one
    left, stopping at the first that fails. */
module MultiEdit {
  import opened Wrappers
  import opened Values
  import opened Text
  import opened ToolBase
  import opened Edit

  /** One element of `edits`: something that is not a dictionary, or a
      dictionary with (or without) the two string fields and the optional
      `replaceAll` flag. */
  datatype EditEntry = NotObject | Entry(oldString: Option<string>, newString: Option<string>, replaceAll: bool)

  /** An entry that passes validation. */
  predicate ValidEntry(e: EditEntry) {
    e.Entry? && e.oldString.Some? && e.newString.Some? && e.oldString.value != e.newString.value
  }

  predicate AllValid(edits: seq<EditEntry>) {
    forall i :: 0 <= i < |edits| ==> ValidEntry(edits[i])
  }

  function IndexedError(title: string, output: string, code: string, i: nat): ToolResult {
    ToolResult(title, output, Some(map["error" := Str(code), "edit_index" := Int(i)]))
  }

  /** The report for entry `i` when it fails validation. */
  function EntryError(e: EditEntry, i: nat): Option<ToolResult> {
    var n := NatToString(i + 1);
    if e.NotObject? then
      Some(IndexedError("错误: 编辑操作 " + n + " 格式无效", "编辑操作 " + n + " 必须是一个对象", "invalid_edit_format", i))
    else if e.oldString.None? || e.newString.None? then
      Some(IndexedError("错误: 编辑操作 " + n + " 缺少必需字段", "编辑操作 " + n + " 必须包含 oldString 和 newString",
                        "missing_edit_fields", i))
    else if e.oldString.value == e.newString.value then
      Some(IndexedError("错误: 编辑操作 " + n + " 字符串相同", "编辑操作 " + n + " 的 oldString 和 newString 必须不同",
                        "identical_strings", i))
    else None
  }

  /** The report of the first entry from `i` on that fails validation. */
  function FirstInvalid(edits: seq<EditEntry>, i: nat): (r: Option<ToolResult>)
    decreases |edits| - i
  {
    if i >= |edits| then None
    else if EntryError(edits[i], i).Some? then EntryError(edits[i], i)
    else FirstInvalid(edits, i + 1)
  }

  /** The edit tool's arguments for a valid entry. */
  function ParamsOf(path: string, e: EditEntry): EditParams
    requires ValidEntry(e)
  {
    EditParams(path, e.oldString.value, e.newString.value, e.replaceAll)
  }

  /** `result.metadata and result.metadata.get("error")`. */
  predicate Failed(t: ToolResult) {
    t.metadata.Some? && "error" in t.metadata.value && Truthy(t.metadata.value["error"])
  }

  /** One call of the edit tool on the file as it stands: its result and the
      text it wrote, if any. */
  type Runner = (EditParams, FileState) -> EditOutcome

  /** The edit tool with the environment `env`, run against a given file. */
  function EditRunner(env: EditEnv): Runner {
    (p: EditParams, f: FileState) => Execute(p, env.(file := f))
  }

  /** One edit turns the file `file` into the text `next`. */
  predicate ChainStep(file: FileState, p: EditParams, next: string) {
    if p.oldString == "" then next == p.newString
    else file.Regular? && file.text.Ok? && Replaced(file.text.value, p.oldString, p.newString, p.replaceAll) == Ok(next)
  }

  /** What the loop relies on from the edit tool: a call writes exactly when
      its result carries no error, and what it writes is the edit applied to
      the file it was given. */
  ghost predicate WritesOnSuccess(run: Runner) {
    forall p, f :: run(p, f).written.Some? <==> !Failed(run(p, f).result)
  }

  ghost predicate WritesEdit(run: Runner) {
    forall p, f :: run(p, f).written.Some? ==> ChainStep(f, p, run(p, f).written.value)
  }

  /** The state the application loop threads: the results so far, the file
      as the last edit left it, and the index of the edit that failed. */
  datatype Progress = Progress(results: seq<ToolResult>, file: FileState, failed: Option<nat>)

  /** The file as the next call of the edit tool reads it: a written text
      comes back through a text-mode read, with its newlines translated. */
  function FileAfter(file: FileState, out: EditOutcome): FileState {
    if out.written.Some? then Regular(Ok(Newlines(out.written.value))) else file
  }

  /** One pass of the loop: edit `i` runs against the current file. */
  function Step(pr: Progress, p: EditParams, run: Runner, i: nat): Progress {
    var out := run(p, pr.file);
    Progress(pr.results + [out.result], FileAfter(pr.file, out), if Failed(out.result) then Some(i) else None)
  }

  /** The loop over the first `n` edits, starting from `file`, which stops
      at the first failure. */
  function ApplyUpTo(path: string, edits: seq<EditEntry>, run: Runner, file: FileState, n: nat): Progress
    requires n <= |edits| && AllValid(edits)
  {
    if n == 0 then Progress([], file, None)
    else
      var pr := ApplyUpTo(path, edits, run, file, n - 1);
      if pr.failed.Some? then pr else Step(pr, ParamsOf(path, edits[n - 1]), run, n - 1)
  }

  /** The validation loop of `execute`. */
  method Validate(edits: seq<EditEntry>) returns (err: Option<ToolResult>)
    ensures err == FirstInvalid(edits, 0)
  {
    for i := 0 to |edits|
      invariant FirstInvalid(edits, 0) == FirstInvalid(edits, i)
    {
      err := EntryError(edits[i], i);
      if err.Some? {
        return;
      }
    }
    err := None;
  }

  /** The application loop of `execute`. */
  method ApplyEdits(path: string, edits: seq<EditEntry>, run: Runner, file: FileState) returns (pr: Progress)
    requires AllValid(edits)
    ensures pr == ApplyUpTo(path, edits, run, file, |edits|)
  {
    pr := Progress([], file, None);
    var i := 0;
    while i < |edits|
      invariant i <= |edits|
      invariant pr == ApplyUpTo(path, edits, run, file, i) && pr.failed.None?
    {
      var out := run(ParamsOf(path, edits[i]), pr.file);
      var next := if out.written.Some? then Regular(Ok(Newlines(out.written.value))) else pr.file;
      if Failed(out.result) {
        pr := Progress(pr.results + [out.result], next, Some(i));
        FailedStays(path, edits, run, file, i + 1, |edits|);
        return;
      }
      pr := Progress(pr.results + [out.result], next, None);
      i := i + 1;
    }
  }

  /** Once the loop has stopped, later edits change nothing. */
  lemma {:induction false} FailedStays(path: string, edits: seq<EditEntry>, run: Runner, file: FileState, k: nat, n: nat)
    requires k <= n <= |edits| && AllValid(edits) && ApplyUpTo(path, edits, run, file, k).failed.Some?
    ensures ApplyUpTo(path, edits, run, file, n) == ApplyUpTo(path, edits, run, file, k)
    decreases n - k
  {
    if k < n {
      FailedStays(path, edits, run, file, k, n - 1);
    }
  }

  /** The result metadata list of the report. */
  function MetadataList(results: seq<ToolResult>): (r: seq<Value>)
    ensures |r| == |results|
  {
    if results == [] then []
    else MetadataList(results[..|results| - 1]) + [MetadataValue(results[|results| - 1].metadata)]
  }

  function MetadataValue(m: Option<map<string, Value>>): Value {
    if m.Some? then Dict(m.value) else Null
  }

  /** What `execute` returns, and the file it leaves. */
  datatype MultiOutcome = MultiOutcome(result: ToolResult, file: FileState)

  /** `MultiEditTool.execute`, with the file system supplied by `env` (the
      path is absolute already) and the edit tool it owns as `run`. */
  function MultiEditExecute(path: string, edits: seq<EditEntry>, env: EditEnv, run: Runner): MultiOutcome {
    if path == "" then
      MultiOutcome(ErrorResult("错误: 缺少文件路径", "filePath 参数是必需的", "missing_file_path"), env.file)
    else if edits == [] then
      MultiOutcome(ErrorResult("错误: 缺少编辑操作", "edits 参数是必需的且不能为空", "missing_edits"), env.file)
    else if FirstInvalid(edits, 0).Some? then
      MultiOutcome(FirstInvalid(edits, 0).value, env.file)
    else
      FirstInvalidNone(edits);
      var pr := ApplyUpTo(path, edits, run, env.file, |edits|);
      ApplyShape(path, edits, run, env.file, |edits|);
      Report(path, |edits|, env, pr)
  }

  /** The top-level `execute`: validate, then run the loop. */
  method Run(path: string, edits: seq<EditEntry>, env: EditEnv, run: Runner) returns (out: MultiOutcome)
    ensures out == MultiEditExecute(path, edits, env, run)
  {
    if path == "" {
      return MultiOutcome(ErrorResult("错误: 缺少文件路径", "filePath 参数是必需的", "missing_file_path"), env.file);
    }
    if edits == [] {
      return MultiOutcome(ErrorResult("错误: 缺少编辑操作", "edits 参数是必需的且不能为空", "missing_edits"), env.file);
    }
    var err := Validate(edits);
    if err.Some? {
      return MultiOutcome(err.value, env.file);
    }
    FirstInvalidNone(edits);
    var pr := ApplyEdits(path, edits, run, env.file);
    ApplyShape(path, edits, run, env.file, |edits|);
    out := Report(path, |edits|, env, pr);
  }

  /** The report built from the loop's final state. */
  function Report(path: string, total: nat, env: EditEnv, pr: Progress): MultiOutcome
    requires pr.failed.Some? ==> pr.failed.value < |pr.results|
  {
    if pr.failed.Some? then
      var k := pr.failed.value;
      MultiOutcome(ToolResult("多重编辑失败: " + env.baseName,
        "编辑操作 " + NatToString(k + 1) + " 失败: " + pr.results[k].output,
        Some(map["error" := Str("multiedit_failed"), "file_path" := Str(path), "failed_edit_index" := Int(k),
                 "total_edits" := Int(total), "completed_edits" := Int(k),
                 "results" := List(MetadataList(pr.results))])), pr.file)
    else
      var last := if pr.results == [] then None else Some(pr.results[|pr.results| - 1]);
      var finalDiff := if last.Some? && last.value.metadata.Some? && "diff" in last.value.metadata.value
                       then last.value.metadata.value["diff"] else Null;
      MultiOutcome(ToolResult(env.relPath, "多重编辑成功完成 - " + NatToString(|pr.results|) + " 个编辑操作已应用",
        Some(map["file_path" := Str(path), "total_edits" := Int(total), "successful_edits" := Int(|pr.results|),
                 "action" := Str("multiedit"), "results" := List(MetadataList(pr.results)),
                 "final_diff" := finalDiff])), pr.file)
  }

  /** `FirstInvalid` reports the lowest invalid entry, and none exactly when
      every entry from `i` on is valid. */
  lemma {:induction false} FirstInvalidSpec(edits: seq<EditEntry>, i: nat) returns (k: nat)
    ensures FirstInvalid(edits, i).None? <==> forall j :: i <= j < |edits| ==> ValidEntry(edits[j])
    ensures FirstInvalid(edits, i).Some? ==>
      i <= k < |edits| && !ValidEntry(edits[k]) && FirstInvalid(edits, i) == EntryError(edits[k], k) &&
      FirstInvalid(edits, i).value.metadata.value["edit_index"] == Int(k) &&
      forall j :: i <= j < k ==> ValidEntry(edits[j])
    decreases |edits| - i
  {
    k := i;
    if i < |edits| && EntryError(edits[i], i).None? {
      k := FirstInvalidSpec(edits, i + 1);
    }
  }

  lemma FirstInvalidNone(edits: seq<EditEntry>)
    ensures FirstInvalid(edits, 0).None? <==> AllValid(edits)
  {
    var _ := FirstInvalidSpec(edits, 0);
  }

  /** The loop runs one edit per step until one fails: the results line up
      with the edits, and the failed index, if any, is that of the last
      result, which is the only failed one. */
  lemma {:induction false} ApplyShape(path: string, edits: seq<EditEntry>, run: Runner, file: FileState, n: nat)
    requires n <= |edits| && AllValid(edits)
    ensures var pr := ApplyUpTo(path, edits, run, file, n);
      (pr.failed.None? ==> |pr.results| == n) &&
      (pr.failed.Some? ==> pr.failed.value < n && |pr.results| == pr.failed.value + 1 && Failed(pr.results[pr.failed.value])) &&
      forall j :: 0 <= j < |pr.results| && (pr.failed.None? || j < pr.failed.value) ==> !Failed(pr.results[j])
  {
    if n > 0 {
      ApplyShape(path, edits, run, file, n - 1);
    }
  }

  /** Edits are applied in order, each to the text the previous one wrote
      as a text-mode read gives it back: after `n` edits without failure,
      the file reads as the last of the texts the edits wrote, each edit
      having run on the read-back of the text before it, and so what it
      holds has no carriage return. */
  lemma {:induction false} AppliedInOrder(path: string, edits: seq<EditEntry>, run: Runner, file: FileState, n: nat)
      returns (texts: seq<string>)
    requires 0 < n <= |edits| && AllValid(edits) && WritesOnSuccess(run)
    requires ApplyUpTo(path, edits, run, file, n).failed.None?
    ensures |texts| == n && ApplyUpTo(path, edits, run, file, n).file == Regular(Ok(Newlines(texts[n - 1])))
    ensures '\r' !in ApplyUpTo(path, edits, run, file, n).file.text.value
    ensures run(ParamsOf(path, edits[0]), file).written == Some(texts[0])
    ensures forall j :: 0 < j < n ==>
      run(ParamsOf(path, edits[j]), Regular(Ok(Newlines(texts[j - 1])))).written == Some(texts[j])
  {
    var pr := ApplyUpTo(path, edits, run, file, n - 1);
    var out := run(ParamsOf(path, edits[n - 1]), pr.file);
    assert pr.failed.None?;
    assert out.written.Some?;
    NewlinesNoReturn(out.written.value);
    if n == 1 {
      texts := [out.written.value];
    } else {
      var prev := AppliedInOrder(path, edits, run, file, n - 1);
      texts := prev + [out.written.value];
      assert forall j :: 0 <= j < n - 1 ==> texts[j] == prev[j];
    }
  }

  /** With the edit tool as the runner, each text of the chain is the edit
      applied to the read-back of the text before it. */
  lemma ChainOfEdits(path: string, edits: seq<EditEntry>, run: Runner, file: FileState, texts: seq<string>)
    requires 0 < |texts| <= |edits| && AllValid(edits) && WritesEdit(run)
    requires run(ParamsOf(path, edits[0]), file).written == Some(texts[0])
    requires forall j :: 0 < j < |texts| ==>
      run(ParamsOf(path, edits[j]), Regular(Ok(Newlines(texts[j - 1])))).written == Some(texts[j])
    ensures ChainStep(file, ParamsOf(path, edits[0]), texts[0])
    ensures forall j :: 0 < j < |texts| ==> ChainStep(Regular(Ok(Newlines(texts[j - 1]))), ParamsOf(path, edits[j]), texts[j])
  {
  }

  /** The loop is not atomic: when edit `k` fails, the file keeps what the
      first `k` edits wrote. */
  lemma {:induction false} FailureKeepsEarlier(path: string, edits: seq<EditEntry>, run: Runner, file: FileState, n: nat)
    requires n <= |edits| && AllValid(edits) && WritesOnSuccess(run)
    ensures var pr := ApplyUpTo(path, edits, run, file, n);
      pr.failed.Some? ==> pr.failed.value <= n && pr.file == ApplyUpTo(path, edits, run, file, pr.failed.value).file
  {
    if n > 0 && ApplyUpTo(path, edits, run, file, n - 1).failed.None? {
      var pr := ApplyUpTo(path, edits, run, file, n - 1);
      var out := run(ParamsOf(path, edits[n - 1]), pr.file);
      assert Failed(out.result) ==> out.written.None?;
    } else if n > 0 {
      FailureKeepsEarlier(path, edits, run, file, n - 1);
    }
  }

  /** Every failed call of the edit tool reports a non-empty error code. */
  lemma ExecuteFails(p: EditParams, env: EditEnv)
    ensures Execute(p, env).written.None? ==> Failed(Execute(p, env).result)
  {
    if p.filePath != "" && p.oldString != p.newString && p.oldString != "" {
      EditFileFails(p, env);
    }
  }

  lemma EditFileFails(p: EditParams, env: EditEnv)
    ensures EditFile(p, env).written.None? ==> Failed(EditFile(p, env).result)
  {
    if env.file.Regular? && env.file.text.Ok? {
      if Replaced(env.file.text.value, p.oldString, p.newString, p.replaceAll).Err? {
        ReplacementFails(p, env);
      } else {
        WriteFails(p, env);
      }
    }
  }

  lemma ReplacementFails(p: EditParams, env: EditEnv)
    requires env.file.Regular? && env.file.text.Ok?
    requires Replaced(env.file.text.value, p.oldString, p.newString, p.replaceAll).Err?
    ensures MetaIs(EditFile(p, env).result, "error", Str("replacement_failed"))
  {
    EditFileErrors(p, env);
  }

  lemma TaggedMeta(r: ToolResult, meta: map<string, Value>, tag: string)
    requires r.metadata == Some(meta) && "error" in meta && meta["error"] == Str(tag)
    ensures MetaIs(r, "error", Str(tag))
  {
  }

  lemma WriteFails(p: EditParams, env: EditEnv)
    requires env.file.Regular? && env.file.text.Ok?
    requires Replaced(env.file.text.value, p.oldString, p.newString, p.replaceAll).Ok?
    ensures EditFile(p, env).written.None? ==> MetaIs(EditFile(p, env).result, "error", Str("io_error"))
  {
    if env.writeError.Some? {
      var message := env.writeError.value;
      var meta := map["error" := Str("io_error"), "file_path" := Str(env.absPath), "error_message" := Str(message)];
      assert EditFile(p, env).result == IoErrorResult(env, message);
      TaggedMeta(IoErrorResult(env, message), meta, "io_error");
    }
  }

  /** The edit tool, run against any file, is what the loop relies on. */
  lemma RunnerHonest(env: EditEnv)
    ensures WritesOnSuccess(EditRunner(env)) && WritesEdit(EditRunner(env))
  {
    forall p, f
      ensures (EditRunner(env)(p, f).written.Some? <==> !Failed(EditRunner(env)(p, f).result)) &&
              (EditRunner(env)(p, f).written.Some? ==> ChainStep(f, p, EditRunner(env)(p, f).written.value))
    {
      ExecuteFails(p, env.(file := f));
    }
  }

  /** Validation comes before any edit: a missing path, an empty list or an
      invalid entry is reported, with the index of the first invalid entry,
      and the file is left as it was. */
  lemma ValidationFirst(path: string, edits: seq<EditEntry>, env: EditEnv, run: Runner) returns (k: nat)
    ensures path == "" ==> MultiEditExecute(path, edits, env, run).result.metadata == Some(map["error" := Str("missing_file_path")])
    ensures path != "" && edits == [] ==> MultiEditExecute(path, edits, env, run).result.metadata == Some(map["error" := Str("missing_edits")])
    ensures path != "" && !AllValid(edits) ==>
      MultiEditExecute(path, edits, env, run).file == env.file &&
      k < |edits| && !ValidEntry(edits[k]) && (forall j :: 0 <= j < k ==> ValidEntry(edits[j])) &&
      MultiEditExecute(path, edits, env, run).result.metadata == Some(map["error" := EntryCode(edits[k]), "edit_index" := Int(k)])
  {
    k := FirstInvalidSpec(edits, 0);
  }

  /** The error code of an entry that fails validation. */
  function EntryCode(e: EditEntry): Value {
    if e.NotObject? then Str("invalid_edit_format")
    else if e.oldString.None? || e.newString.None? then Str("missing_edit_fields")
    else Str("identical_strings")
  }

  /** After validation, when every edit succeeds, the file reads as the
      text the chained edits produce, each edit having been applied to the
      text the one before it wrote, as a text-mode read gives it back. */
  lemma ChainOnSuccess(path: string, edits: seq<EditEntry>, run: Runner, file: FileState) returns (texts: seq<string>)
    requires edits != [] && AllValid(edits) && WritesOnSuccess(run) && WritesEdit(run)
    requires ApplyUpTo(path, edits, run, file, |edits|).failed.None?
    ensures |texts| == |edits| && ApplyUpTo(path, edits, run, file, |edits|).file == Regular(Ok(Newlines(texts[|edits| - 1])))
    ensures ChainStep(file, ParamsOf(path, edits[0]), texts[0])
    ensures forall j :: 0 < j < |edits| ==>
      ChainStep(Regular(Ok(Newlines(texts[j - 1]))), ParamsOf(path, edits[j]), texts[j])
  {
    texts := AppliedInOrder(path, edits, run, file, |edits|);
    ChainOfEdits(path, edits, run, file, texts);
  }

  /** After validation, when every edit succeeds, the report counts them
      all and the file is the one the loop left. */
  lemma MultiEditSuccess(path: string, edits: seq<EditEntry>, env: EditEnv, run: Runner)
    requires path != "" && edits != [] && AllValid(edits)
    requires ApplyUpTo(path, edits, run, env.file, |edits|).failed.None?
    ensures var out := MultiEditExecute(path, edits, env, run);
      MetaIs(out.result, "successful_edits", Int(|edits|)) &&
      MetaIs(out.result, "total_edits", Int(|edits|)) &&
      MetaIs(out.result, "action", Str("multiedit")) &&
      out.file == ApplyUpTo(path, edits, run, env.file, |edits|).file
  {
    ApplyShape(path, edits, run, env.file, |edits|);
    FirstInvalidNone(edits);
  }

  /** After validation, when edit `k` fails: the report names it and counts
      `k` completed edits, and the file holds what those `k` edits wrote. */
  lemma MultiEditFailure(path: string, edits: seq<EditEntry>, env: EditEnv, run: Runner) returns (k: nat)
    requires path != "" && edits != [] && AllValid(edits) && WritesOnSuccess(run)
    requires ApplyUpTo(path, edits, run, env.file, |edits|).failed.Some?
    ensures var out := MultiEditExecute(path, edits, env, run);
      k < |edits| &&
      MetaIs(out.result, "error", Str("multiedit_failed")) &&
      MetaIs(out.result, "failed_edit_index", Int(k)) &&
      MetaIs(out.result, "completed_edits", Int(k)) &&
      out.file == ApplyUpTo(path, edits, run, env.file, k).file
  {
    ApplyShape(path, edits, run, env.file, |edits|);
    FirstInvalidNone(edits);
    FailureKeepsEarlier(path, edits, run, env.file, |edits|);
    k := ApplyUpTo(path, edits, run, env.file, |edits|).failed.value;
  }
}
