/** The bash tool around its process: the check for dangerous commands, the
    timeout clamp, the cut of long output and the title. The process itself
    is a parameter: what it printed and how it ended. */
module Bash {
  import opened Wrappers
  import opened Values
  import opened Text
  import opened ToolBase

  const MaxOutputLength: nat := 30000
  const DefaultTimeout: int := 60
  const MaxTimeout: int := 600

  /** The substrings refused in a lower-cased command, in the order they are
      tried. */
  const DangerousPatterns: seq<string> :=
    ["rm -rf /", "rm -rf /*", "format", "fdisk", "mkfs", ":(){ :|:& };:", "chmod 777 /", "chown root /"]

  /** The first of `patterns` that occurs in `s`. */
  function FirstContained(s: string, patterns: seq<string>): (r: Option<string>)
    ensures r.Some? ==> r.value in patterns && Contains(s, r.value)
    ensures r.None? ==> forall k :: 0 <= k < |patterns| ==> !Contains(s, patterns[k])
  {
    if patterns == [] then None
    else if Contains(s, patterns[0]) then Some(patterns[0])
    else FirstContained(s, patterns[1..])
  }

  /** The pattern reported is the first one that occurs: every pattern before
      it is absent. */
  lemma {:induction false} FirstContainedFirst(s: string, patterns: seq<string>)
    ensures var r := FirstContained(s, patterns);
      r.Some? ==> exists k :: 0 <= k < |patterns| && patterns[k] == r.value &&
                    forall j :: 0 <= j < k ==> !Contains(s, patterns[j])
  {
    if patterns != [] && !Contains(s, patterns[0]) {
      FirstContainedFirst(s, patterns[1..]);
      var r := FirstContained(s, patterns);
      if r.Some? {
        var k :| 0 <= k < |patterns[1..]| && patterns[1..][k] == r.value &&
                 forall j :: 0 <= j < k ==> !Contains(s, patterns[1..][j]);
        assert patterns[k + 1] == r.value;
        forall j | 0 <= j < k + 1
          ensures !Contains(s, patterns[j])
        {
          if j > 0 {
            assert patterns[j] == patterns[1..][j - 1];
          }
        }
      }
    }
  }

  /** `_validate_command`: the dangerous pattern found in the lower-cased
      command, None when it is safe. */
  method ValidateCommand(command: string) returns (found: Option<string>)
    ensures found == FirstContained(Lower(command), DangerousPatterns)
  {
    var lowered := Lower(command);
    var i := 0;
    while i < |DangerousPatterns|
      invariant i <= |DangerousPatterns|
      invariant FirstContained(lowered, DangerousPatterns) == FirstContained(lowered, DangerousPatterns[i..])
    {
      var pattern := DangerousPatterns[i];
      assert DangerousPatterns[i..][1..] == DangerousPatterns[i + 1..];
      if Contains(lowered, pattern) {
        return Some(pattern);
      }
      i := i + 1;
    }
    return None;
  }

  /** The second pattern is never the one reported: any command holding it
      holds the first, which is its prefix and is tried first. */
  lemma ShadowedPattern(command: string)
    ensures FirstContained(Lower(command), DangerousPatterns) != Some("rm -rf /*")
  {
    var s := Lower(command);
    if Contains(s, "rm -rf /*") {
      ContainsIff(s, "rm -rf /*");
      var j :| OccursAt(s, "rm -rf /*", j);
      assert s[j..j + 8] == s[j..j + 9][..8];
      assert OccursAt(s, "rm -rf /", j);
      ContainsIff(s, "rm -rf /");
    }
  }

  /** A command is refused exactly when its lower-cased text holds one of the
      patterns. */
  lemma RefusedIff(command: string)
    ensures FirstContained(Lower(command), DangerousPatterns).Some? <==>
      exists k :: 0 <= k < |DangerousPatterns| && Contains(Lower(command), DangerousPatterns[k])
  {
    var r := FirstContained(Lower(command), DangerousPatterns);
    if r.Some? {
      var k :| 0 <= k < |DangerousPatterns| && DangerousPatterns[k] == r.value;
    }
  }

  /** `min(params.get("timeout", 60), 600)`. */
  function BashTimeout(requested: Option<int>): int {
    var t := requested.GetOr(DefaultTimeout);
    if t < MaxTimeout then t else MaxTimeout
  }

  lemma BashTimeoutSpec(requested: Option<int>)
    ensures BashTimeout(requested) <= MaxTimeout
    ensures requested.None? ==> BashTimeout(requested) == DefaultTimeout
    ensures requested.Some? && requested.value <= MaxTimeout ==> BashTimeout(requested) == requested.value
  {
  }

  function TruncationNote(length: nat): string {
    "\n\n(输出因长度限制被截断，原始长度: " + NatToString(length) + " 字符)"
  }

  /** Output over 30000 characters keeps its first 30000 and gains a note of
      its original length. */
  function CapOutput(output: string): string {
    if |output| > MaxOutputLength then output[..MaxOutputLength] + TruncationNote(|output|) else output
  }

  lemma CapOutputSpec(output: string)
    ensures |output| <= MaxOutputLength ==> CapOutput(output) == output
    ensures |output| > MaxOutputLength ==>
      StartsWith(CapOutput(output), output[..MaxOutputLength]) &&
      EndsWith(CapOutput(output), TruncationNote(|output|)) &&
      |CapOutput(output)| == MaxOutputLength + |TruncationNote(|output|)|
  {
    if |output| > MaxOutputLength {
      var kept := output[..MaxOutputLength];
      var note := TruncationNote(|output|);
      assert (kept + note)[..|kept|] == kept;
      assert (kept + note)[|kept + note| - |note|..] == note;
    }
  }

  /** The title: the command, with the exit code appended when it is not 0. */
  function Title(command: string, exitCode: int): string {
    if exitCode != 0 then command + " (退出码: " + IntToString(exitCode) + ")" else command
  }

  /** The title is the bare command exactly when the command succeeded, and
      always starts with it. */
  lemma TitleSpec(command: string, exitCode: int)
    ensures Title(command, exitCode) == command <==> exitCode == 0
    ensures StartsWith(Title(command, exitCode), command)
  {
    var t := Title(command, exitCode);
    assert t[..|command|] == command;
    if exitCode != 0 {
      assert |t| > |command|;
    }
  }

  /** How the process ended: it finished with its output and return code, it
      ran past the timeout and was killed, waiting for it raised, or it could
      not be started. */
  datatype ProcessReply = Finished(stdout: string, returnCode: int) | Killed | WaitFailed(message: string)
                        | SpawnFailed(message: string)

  /** `_execute_command`: the output and exit code, for a process that got
      started. */
  function CommandOutput(reply: ProcessReply, timeout: int): (string, int)
    requires !reply.SpawnFailed?
  {
    match reply
    case Finished(stdout, code) => (stdout, code)
    case Killed => ("\n\n[命令执行超时 (" + IntToString(timeout) + "秒) 并被终止]", 124)
    case WaitFailed(message) => ("\n\n[执行错误: " + message + "]", 1)
  }

  datatype BashParams = BashParams(command: string, timeout: Option<int>, description: string)

  /** The result, and the command and timeout given to the shell if it was
      started. */
  datatype BashOutcome = BashOutcome(result: ToolResult, ran: Option<(string, int)>)

  /** `BashTool.execute`; `reply` is how the process would end. */
  function Execute(p: BashParams, reply: ProcessReply): BashOutcome {
    var timeout := BashTimeout(p.timeout);
    var danger := FirstContained(Lower(p.command), DangerousPatterns);
    if danger.Some? then
      var message := "命令包含危险模式: " + danger.value;
      BashOutcome(ToolResult("命令被拒绝: " + p.command, "安全检查失败: " + message,
        Some(map["command" := Str(p.command), "exit_code" := Int(1), "error" := Str(message),
                 "description" := Str(p.description)])), None)
    else if reply.SpawnFailed? then
      BashOutcome(ToolResult("执行失败: " + p.command, "执行错误: " + reply.message,
        Some(map["command" := Str(p.command), "exit_code" := Int(1), "error" := Str(reply.message),
                 "description" := Str(p.description)])), Some((p.command, timeout)))
    else
      var (output, code) := CommandOutput(reply, timeout);
      BashOutcome(ToolResult(Title(p.command, code), CapOutput(output),
        Some(map["command" := Str(p.command), "exit_code" := Int(code), "description" := Str(p.description),
                 "timeout" := Int(timeout)])), Some((p.command, timeout)))
  }

  /** A refused command never reaches the shell and reports exit code 1; any
      other command is run with the clamped timeout. */
  lemma RefusedNotRun(p: BashParams, reply: ProcessReply)
    ensures var out := Execute(p, reply);
      (out.ran.None? <==> FirstContained(Lower(p.command), DangerousPatterns).Some?) &&
      (out.ran.None? ==> MetaIs(out.result, "exit_code", Int(1))) &&
      (out.ran.Some? ==> out.ran.value == (p.command, BashTimeout(p.timeout)))
  {
  }

  /** A killed process reports exit code 124 and a title naming it. */
  lemma KilledReported(p: BashParams)
    requires FirstContained(Lower(p.command), DangerousPatterns).None?
    ensures MetaIs(Execute(p, Killed).result, "exit_code", Int(124))
    ensures Execute(p, Killed).result.title == p.command + " (退出码: 124)"
  {
    KilledCode();
    assert Execute(p, Killed).result.title == Title(p.command, 124);
  }

  lemma KilledCode()
    ensures IntToString(124) == "124"
  {
  }

  /** A process that finished reports its own return code, and its output
      cut to the limit. */
  lemma FinishedReported(p: BashParams, stdout: string, code: int)
    requires FirstContained(Lower(p.command), DangerousPatterns).None?
    ensures var r := Execute(p, Finished(stdout, code)).result;
      MetaIs(r, "exit_code", Int(code)) && r.output == CapOutput(stdout) && r.title == Title(p.command, code)
  {
  }
}
