/** The sandbox policy checks: which commands may run and which paths may be
    written. A resolved path is the sequence of its component names below
    the root (the root itself is []); resolving a path against the file
    system is a parameter. */
module Sandbox {
  import opened Wrappers
  import opened Text
  import opened Protocol

  /** The executor's settings: its policy, working directory and private
      temporary directory. */
  datatype Executor = Executor(policy: SandboxPolicy, cwd: string, tempDir: string)

  /** What `platform` and the environment report: whether the host is
      Windows, and the `TEMP` and `TMPDIR` variables. */
  datatype Host = Host(windows: bool, temp: Option<string>, tmpdir: Option<string>)

  /** `SandboxExecutor(config)`: an unknown policy name is a ValueError. */
  function NewExecutor(policyName: string, cwd: string, tempDir: string): (r: Result<Executor>)
    ensures r.Ok? <==> policyName in ["danger_full_access", "read_only", "workspace_write"]
    ensures r.Ok? ==> SandboxValue(r.value.policy) == policyName && r.value.cwd == cwd
  {
    match ParseSandbox(policyName)
    case Ok(policy) => Ok(Executor(policy, cwd, tempDir))
    case Err(e) => Err(e)
  }

  /** The blacklist: a substring and the reason given when a command holds
      it, in the order they are tried. */
  const Blacklist: seq<(string, string)> := [
    ("rm -rf /", "禁止删除根目录"),
    ("format", "禁止格式化磁盘"),
    ("fdisk", "禁止磁盘分区操作"),
    ("mkfs", "禁止创建文件系统"),
    ("dd if=/dev/zero", "禁止清零磁盘"),
    (":(){ :|:& };:", "禁止fork炸弹"),
    ("chmod 777", "禁止设置777权限"),
    ("chown root", "禁止更改为root所有者")
  ]

  /** Substrings refused only under the read-only policy. */
  const NetworkCommands: seq<string> := ["curl", "wget", "ssh", "scp", "rsync", "git push"]

  /** The reason of the first entry whose substring occurs in `s`. */
  function FirstReason(s: string, table: seq<(string, string)>): (r: Option<string>)
    ensures r.Some? ==> exists k :: 0 <= k < |table| && Contains(s, table[k].0) && table[k].1 == r.value &&
                          forall j :: 0 <= j < k ==> !Contains(s, table[j].0)
    ensures r.None? ==> forall k :: 0 <= k < |table| ==> !Contains(s, table[k].0)
  {
    if table == [] then None
    else if Contains(s, table[0].0) then Some(table[0].1)
    else
      var r := FirstReason(s, table[1..]);
      assert forall j :: 0 < j < |table| ==> table[j] == table[1..][j - 1];
      r
  }

  /** The first network command that occurs in `s`. */
  function FirstNetwork(s: string, cmds: seq<string>): (r: Option<string>)
    ensures r.Some? ==> r.value in cmds && Contains(s, r.value)
    ensures r.None? ==> forall k :: 0 <= k < |cmds| ==> !Contains(s, cmds[k])
  {
    if cmds == [] then None
    else if Contains(s, cmds[0]) then Some(cmds[0])
    else FirstNetwork(s, cmds[1..])
  }

  /** `is_command_allowed`: whether the command may run and, if not, why. */
  function IsCommandAllowed(e: Executor, command: string): (bool, Option<string>) {
    if e.policy == DangerFullAccess then (true, None)
    else
      var lowered := Lower(command);
      match FirstReason(lowered, Blacklist)
      case Some(reason) => (false, Some(reason))
      case None =>
        if e.policy == ReadOnly then
          match FirstNetwork(lowered, NetworkCommands)
          case Some(cmd) => (false, Some("只读模式下禁止网络操作: " + cmd))
          case None => (true, None)
        else (true, None)
  }

  predicate Blacklisted(command: string) {
    exists k :: 0 <= k < |Blacklist| && Contains(Lower(command), Blacklist[k].0)
  }

  predicate NetworkUse(command: string) {
    exists k :: 0 <= k < |NetworkCommands| && Contains(Lower(command), NetworkCommands[k])
  }

  /** Full access allows everything; otherwise a command is refused exactly
      when it holds a blacklisted substring or, under the read-only policy, a
      network command. A refusal always carries a reason and an allowed
      command never does. */
  lemma CommandAllowedSpec(e: Executor, command: string)
    ensures var (ok, reason) := IsCommandAllowed(e, command);
      (ok <==> reason.None?) &&
      (e.policy == DangerFullAccess ==> ok) &&
      (e.policy == WorkspaceWrite ==> (ok <==> !Blacklisted(command))) &&
      (e.policy == ReadOnly ==> (ok <==> !Blacklisted(command) && !NetworkUse(command)))
  {
    var lowered := Lower(command);
    var first := FirstReason(lowered, Blacklist);
    if first.Some? {
      var k :| 0 <= k < |Blacklist| && Contains(lowered, Blacklist[k].0) && Blacklist[k].1 == first.value;
      assert Blacklisted(command);
    }
    var net := FirstNetwork(lowered, NetworkCommands);
    if net.Some? {
      var k :| 0 <= k < |NetworkCommands| && NetworkCommands[k] == net.value;
      assert NetworkUse(command);
    }
  }

  /** A blacklisted command is refused with the reason of the first entry it
      holds. */
  lemma BlacklistReason(e: Executor, command: string, k: nat)
    requires e.policy != DangerFullAccess
    requires k < |Blacklist| && Contains(Lower(command), Blacklist[k].0)
    requires forall j :: 0 <= j < k ==> !Contains(Lower(command), Blacklist[j].0)
    ensures IsCommandAllowed(e, command) == (false, Some(Blacklist[k].1))
  {
    var lowered := Lower(command);
    var r := FirstReason(lowered, Blacklist);
    var i :| 0 <= i < |Blacklist| && Contains(lowered, Blacklist[i].0) && Blacklist[i].1 == r.value &&
             forall j :: 0 <= j < i ==> !Contains(lowered, Blacklist[j].0);
    assert i == k;
  }

  /** `get_writable_paths`. */
  function WritablePaths(e: Executor, host: Host): (r: seq<string>)
    ensures e.policy == DangerFullAccess ==> r == ["/"]
    ensures e.policy == ReadOnly ==> r == []
    ensures e.policy == WorkspaceWrite ==> |r| >= 3 && r[0] == e.cwd && r[1] == e.tempDir
  {
    match e.policy
    case DangerFullAccess => ["/"]
    case ReadOnly => []
    case WorkspaceWrite =>
      if host.windows then [e.cwd, e.tempDir, host.temp.GetOr("C:\\Temp")]
      else [e.cwd, e.tempDir, "/tmp"] + (if host.tmpdir.Some? then [host.tmpdir.value] else [])
  }

  /** `path == root or path.is_relative_to(root)`: `root`'s components start
      `path`'s. */
  predicate Within(path: seq<string>, root: seq<string>) {
    |root| <= |path| && path[..|root|] == root
  }

  /** Some component starts with ".git". */
  predicate GitPart(path: seq<string>) {
    exists k :: 0 <= k < |path| && StartsWith(path[k], ".git")
  }

  /** The loop of `is_path_writable`: the first root holding the path
      decides, refusing anything under a ".git" component. */
  function UnderRoots(path: seq<string>, roots: seq<string>, resolve: string -> seq<string>): (r: bool)
    ensures r <==> (exists k :: 0 <= k < |roots| && Within(path, resolve(roots[k]))) && !GitPart(path)
  {
    if roots == [] then false
    else if Within(path, resolve(roots[0])) then !GitPart(path)
    else
      var r := UnderRoots(path, roots[1..], resolve);
      assert forall k :: 0 < k < |roots| ==> roots[k] == roots[1..][k - 1];
      r
  }

  /** `is_path_writable`; `resolve` gives a path's resolved components. */
  function IsPathWritable(e: Executor, host: Host, resolve: string -> seq<string>, path: string): bool {
    match e.policy
    case ReadOnly => false
    case DangerFullAccess => true
    case WorkspaceWrite => UnderRoots(resolve(path), WritablePaths(e, host), resolve)
  }

  /** Nothing is writable read-only and everything is under full access;
      under workspace write a path is writable exactly when it lies within a
      writable root and no component of it starts with ".git". */
  lemma PathWritableSpec(e: Executor, host: Host, resolve: string -> seq<string>, path: string)
    ensures e.policy == ReadOnly ==> !IsPathWritable(e, host, resolve, path)
    ensures e.policy == DangerFullAccess ==> IsPathWritable(e, host, resolve, path)
    ensures e.policy == WorkspaceWrite ==>
      (IsPathWritable(e, host, resolve, path) <==>
        (exists k :: 0 <= k < |WritablePaths(e, host)| && Within(resolve(path), resolve(WritablePaths(e, host)[k]))) &&
        !GitPart(resolve(path)))
  {
  }

  /** Under workspace write, the working directory and everything below it
      is writable unless it is inside a ".git"-prefixed directory. */
  lemma WorkspaceWritable(e: Executor, host: Host, resolve: string -> seq<string>, path: string)
    requires e.policy == WorkspaceWrite
    requires Within(resolve(path), resolve(e.cwd))
    ensures IsPathWritable(e, host, resolve, path) <==> !GitPart(resolve(path))
  {
    assert Within(resolve(path), resolve(WritablePaths(e, host)[0]));
  }

  /** The ".git" test is on prefixes: a ".github" directory is protected as
      well. */
  lemma GithubProtected(e: Executor, host: Host, resolve: string -> seq<string>, path: string)
    requires e.policy == WorkspaceWrite
    requires |resolve(path)| > 0 && resolve(path)[|resolve(path)| - 1] == ".github"
    ensures !IsPathWritable(e, host, resolve, path)
  {
    var p := resolve(path);
    assert StartsWith(p[|p| - 1], ".git") by {
      assert p[|p| - 1][..4] == ".git";
    }
  }
}
