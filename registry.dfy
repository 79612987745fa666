/** The tool registry: tool descriptions kept in registration order under
    their ids, and a cache of tool instances. */
module Registry {
  import opened Wrappers
  import opened Values
  import opened Text
  import opened ToolBase

  /** What constructing a tool reports: `name`, `description` and
      `get_parameters_schema()`. */
  datatype ToolSpec = ToolSpec(name: string, description: string, parameters: map<string, Value>)

  /** A tool class: whether it derives from `BaseTool`, and what calling it
      with no arguments gives (`Err` when the constructor or the schema
      raises). */
  datatype ToolClass = ToolClass(className: string, derivesBaseTool: bool, construct: Result<ToolSpec>)

  /** `ToolInfo`. */
  datatype ToolInfo = ToolInfo(id: string, name: string, description: string, toolClass: ToolClass,
                               parameters: map<string, Value>, enabled: bool)

  /** An object a tool class built. */
  class ToolInstance {
    const toolClass: ToolClass
    const spec: ToolSpec

    constructor (toolClass: ToolClass, spec: ToolSpec)
      ensures this.toolClass == toolClass && this.spec == spec
    {
      this.toolClass, this.spec := toolClass, spec;
    }
  }

  /** The registered tools as the dict holds them: ids are keys. */
  ghost predicate UniqueIds(ts: seq<ToolInfo>) {
    forall i, j :: 0 <= i < j < |ts| ==> ts[i].id != ts[j].id
  }

  /** The position of `id`, or -1. */
  function IndexOf(ts: seq<ToolInfo>, id: string): (r: int)
    ensures -1 <= r < |ts|
    ensures r >= 0 ==> ts[r].id == id
  {
    if ts == [] then -1
    else if ts[0].id == id then 0
    else
      var k := IndexOf(ts[1..], id);
      if k == -1 then -1 else k + 1
  }

  /** `IndexOf` finds the first entry with the id, and -1 only when there
      is none. */
  lemma {:induction false} IndexOfSpec(ts: seq<ToolInfo>, id: string)
    ensures IndexOf(ts, id) == -1 <==> forall i :: 0 <= i < |ts| ==> ts[i].id != id
    ensures IndexOf(ts, id) >= 0 ==> forall i :: 0 <= i < IndexOf(ts, id) ==> ts[i].id != id
  {
    if ts != [] && ts[0].id != id {
      IndexOfSpec(ts[1..], id);
      assert forall i :: 1 <= i < |ts| ==> ts[i] == ts[1..][i - 1];
    }
  }

  /** `self._tools.get(tool_id)`. */
  function Lookup(ts: seq<ToolInfo>, id: string): Option<ToolInfo> {
    var i := IndexOf(ts, id);
    if i == -1 then None else Some(ts[i])
  }

  /** `self._tools[info.id] = info`: an existing key keeps its place, a new
      one goes last. */
  function Put(ts: seq<ToolInfo>, info: ToolInfo): seq<ToolInfo> {
    var i := IndexOf(ts, info.id);
    if i == -1 then ts + [info] else ts[i := info]
  }

  /** `del self._tools[id]`. */
  function Remove(ts: seq<ToolInfo>, id: string): seq<ToolInfo> {
    var i := IndexOf(ts, id);
    if i == -1 then ts else ts[..i] + ts[i + 1..]
  }

  function Ids(ts: seq<ToolInfo>): (r: seq<string>)
    ensures |r| == |ts| && forall i :: 0 <= i < |ts| ==> r[i] == ts[i].id
  {
    seq(|ts|, i requires 0 <= i < |ts| => ts[i].id)
  }

  /** In a dict, a key found at one place is found nowhere else. */
  lemma LookupUnique(ts: seq<ToolInfo>, k: nat)
    requires UniqueIds(ts) && k < |ts|
    ensures Lookup(ts, ts[k].id) == Some(ts[k])
  {
    IndexOfSpec(ts, ts[k].id);
  }

  /** After a put, the new info is found under its id, every other id
      finds what it found before, and the size grows only for a new id. */
  lemma PutLookup(ts: seq<ToolInfo>, info: ToolInfo, k: string)
    requires UniqueIds(ts)
    ensures UniqueIds(Put(ts, info))
    ensures Lookup(Put(ts, info), k) == if k == info.id then Some(info) else Lookup(ts, k)
    ensures |Put(ts, info)| == |ts| + (if Lookup(ts, info.id).None? then 1 else 0)
  {
    var r := Put(ts, info);
    var i := IndexOf(ts, info.id);
    IndexOfSpec(ts, info.id);
    IndexOfSpec(ts, k);
    var p := if i == -1 then |ts| else i;
    assert r[p] == info;
    assert forall j :: 0 <= j < |r| && j != p ==> r[j] == ts[j];
    assert UniqueIds(r);
    if k == info.id {
      LookupUnique(r, p);
    } else {
      var j := IndexOf(ts, k);
      if j != -1 {
        LookupUnique(r, j);
      } else {
        assert forall m :: 0 <= m < |r| ==> r[m].id != k;
      }
    }
  }

  /** Removing position `i` shifts the later entries down by one. */
  lemma RemoveAt(ts: seq<ToolInfo>, i: nat)
    requires UniqueIds(ts) && i < |ts|
    ensures var r := ts[..i] + ts[i + 1..];
      |r| == |ts| - 1 && UniqueIds(r)
      && forall j :: 0 <= j < |r| ==> r[j] == ts[if j < i then j else j + 1]
  {
    var r := ts[..i] + ts[i + 1..];
    assert forall j :: 0 <= j < |r| ==> r[j] == ts[if j < i then j else j + 1];
    forall a, b | 0 <= a < b < |r|
      ensures r[a].id != r[b].id
    {
      assert r[a] == ts[if a < i then a else a + 1];
      assert r[b] == ts[if b < i then b else b + 1];
    }
  }

  /** After a removal, the id is gone and every other id finds what it
      found before. */
  lemma RemoveLookup(ts: seq<ToolInfo>, id: string, k: string)
    requires UniqueIds(ts)
    ensures UniqueIds(Remove(ts, id))
    ensures Lookup(Remove(ts, id), k) == if k == id then None else Lookup(ts, k)
    ensures |Remove(ts, id)| == |ts| - (if Lookup(ts, id).Some? then 1 else 0)
  {
    var i := IndexOf(ts, id);
    if i != -1 {
      RemoveAt(ts, i);
      if k == id {
        RemovedGone(ts, i);
      } else {
        RemovedOthers(ts, i, k);
      }
    }
  }

  lemma RemovedGone(ts: seq<ToolInfo>, i: nat)
    requires UniqueIds(ts) && i < |ts|
    ensures Lookup(ts[..i] + ts[i + 1..], ts[i].id) == None
  {
    RemoveAt(ts, i);
  }

  lemma RemovedOthers(ts: seq<ToolInfo>, i: nat, k: string)
    requires UniqueIds(ts) && i < |ts| && k != ts[i].id
    ensures Lookup(ts[..i] + ts[i + 1..], k) == Lookup(ts, k)
  {
    var r := ts[..i] + ts[i + 1..];
    RemoveAt(ts, i);
    var j := IndexOf(ts, k);
    IndexOfSpec(ts, k);
    if j != -1 {
      var m := if j < i then j else j - 1;
      LookupUnique(r, m);
    }
  }

  /** A class `register_tool` accepts. */
  predicate Builds(cls: ToolClass) {
    cls.derivesBaseTool && cls.construct.Ok?
  }

  /** A class `register_tool` accepts under the id `k`. */
  predicate Provides(cls: ToolClass, k: string) {
    Builds(cls) && cls.construct.value.name == k
  }

  /** `register_tool`'s effect on the dict of infos, or None when it
      returns False: the class must derive from `BaseTool` and build. */
  function Registered(ts: seq<ToolInfo>, cls: ToolClass, enabled: bool): Option<seq<ToolInfo>> {
    if !Builds(cls) then None
    else
      var spec := cls.construct.value;
      Some(Put(ts, ToolInfo(spec.name, spec.name, spec.description, cls, spec.parameters, enabled)))
  }

  /** Registering a class that does not derive from `BaseTool`, or whose
      construction raises, fails; otherwise the tool is found under the name
      its instance reports, with the given flag, and a re-registered id keeps
      the tool count. */
  lemma RegisteredEffect(ts: seq<ToolInfo>, cls: ToolClass, enabled: bool, k: string)
    requires UniqueIds(ts)
    ensures Registered(ts, cls, enabled).None? <==> !Builds(cls)
    ensures Registered(ts, cls, enabled).Some? ==>
      var r := Registered(ts, cls, enabled).value;
      var spec := cls.construct.value;
      UniqueIds(r)
      && Lookup(r, k) == (if k == spec.name then Some(ToolInfo(k, k, spec.description, cls, spec.parameters, enabled))
                          else Lookup(ts, k))
      && (Lookup(ts, spec.name).Some? ==> |r| == |ts|)
  {
    if Builds(cls) {
      var spec := cls.construct.value;
      PutLookup(ts, ToolInfo(spec.name, spec.name, spec.description, cls, spec.parameters, enabled), k);
    }
  }

  /** One step of `_load_default_tools`: a class that fails is skipped. */
  function LoadStep(ts: seq<ToolInfo>, cls: ToolClass): seq<ToolInfo> {
    match Registered(ts, cls, true)
    case None => ts
    case Some(r) => r
  }

  lemma LoadStepEffect(ts: seq<ToolInfo>, cls: ToolClass, k: string)
    requires UniqueIds(ts)
    ensures UniqueIds(LoadStep(ts, cls))
    ensures Lookup(LoadStep(ts, cls), k)
      == if Provides(cls, k) then Some(ToolInfo(k, k, cls.construct.value.description, cls, cls.construct.value.parameters, true))
         else Lookup(ts, k)
  {
    RegisteredEffect(ts, cls, true, k);
  }

  /** The dict of infos after `_load_default_tools` has tried the first
      `n` classes. */
  function LoadedUpTo(classes: seq<ToolClass>, n: nat): seq<ToolInfo>
    requires n <= |classes|
  {
    if n == 0 then [] else LoadStep(LoadedUpTo(classes, n - 1), classes[n - 1])
  }

  lemma {:induction false} LoadedUnique(classes: seq<ToolClass>, n: nat)
    requires n <= |classes|
    ensures UniqueIds(LoadedUpTo(classes, n))
  {
    if n > 0 {
      LoadedUnique(classes, n - 1);
      LoadStepEffect(LoadedUpTo(classes, n - 1), classes[n - 1], "");
    }
  }

  /** Some of the first `n` classes registers under `k`. */
  predicate ProvidedBy(classes: seq<ToolClass>, n: nat, k: string)
    requires n <= |classes|
  {
    n > 0 && (Provides(classes[n - 1], k) || ProvidedBy(classes, n - 1, k))
  }

  lemma {:induction false} ProvidedByExists(classes: seq<ToolClass>, n: nat, k: string)
    requires n <= |classes|
    ensures ProvidedBy(classes, n, k) <==> exists i :: 0 <= i < n && Provides(classes[i], k)
  {
    if n > 0 {
      ProvidedByExists(classes, n - 1, k);
    }
  }

  lemma {:induction false} LoadedLookup(classes: seq<ToolClass>, n: nat, k: string)
    requires n <= |classes|
    ensures Lookup(LoadedUpTo(classes, n), k).Some? <==> ProvidedBy(classes, n, k)
    ensures Lookup(LoadedUpTo(classes, n), k).Some? ==> Lookup(LoadedUpTo(classes, n), k).value.enabled
  {
    if n > 0 {
      LoadedLookup(classes, n - 1, k);
      LoadedUnique(classes, n - 1);
      LoadStepEffect(LoadedUpTo(classes, n - 1), classes[n - 1], k);
    }
  }

  /** The default tools registered are exactly the classes that derive from
      `BaseTool` and build, all enabled, each under its instance's name. */
  lemma LoadedTools(classes: seq<ToolClass>, k: string)
    ensures UniqueIds(LoadedUpTo(classes, |classes|))
    ensures Lookup(LoadedUpTo(classes, |classes|), k).Some? <==> exists i :: 0 <= i < |classes| && Provides(classes[i], k)
    ensures Lookup(LoadedUpTo(classes, |classes|), k).Some? ==> Lookup(LoadedUpTo(classes, |classes|), k).value.enabled
  {
    LoadedUnique(classes, |classes|);
    LoadedLookup(classes, |classes|, k);
    ProvidedByExists(classes, |classes|, k);
  }

  /** `v < w` on the info ids, the order `sorted(key=lambda x: x.id)` uses. */
  predicate IdBelow(v: ToolInfo, w: ToolInfo) {
    Below(v.id, w.id)
  }

  ghost predicate Ascending(ts: seq<ToolInfo>) {
    forall i, j :: 0 <= i < j < |ts| ==> IdBelow(ts[i], ts[j])
  }

  ghost predicate AllAbove(lo: ToolInfo, ts: seq<ToolInfo>) {
    forall i :: 0 <= i < |ts| ==> IdBelow(lo, ts[i])
  }

  /** `t` placed after every info with a smaller id. */
  function InsertById(t: ToolInfo, ts: seq<ToolInfo>): seq<ToolInfo> {
    if ts == [] then [t]
    else if IdBelow(ts[0], t) then [ts[0]] + InsertById(t, ts[1..])
    else [t] + ts
  }

  lemma {:induction false} InsertByIdMultiset(t: ToolInfo, ts: seq<ToolInfo>)
    ensures multiset(InsertById(t, ts)) == multiset(ts) + multiset{t}
  {
    if ts != [] && IdBelow(ts[0], t) {
      InsertByIdMultiset(t, ts[1..]);
      assert ts == [ts[0]] + ts[1..];
    }
  }

  lemma {:induction false} InsertByIdAbove(lo: ToolInfo, t: ToolInfo, ts: seq<ToolInfo>)
    requires IdBelow(lo, t) && AllAbove(lo, ts)
    ensures AllAbove(lo, InsertById(t, ts))
  {
    if ts != [] && IdBelow(ts[0], t) {
      InsertByIdAbove(lo, t, ts[1..]);
    }
  }

  lemma AscendingCons(h: ToolInfo, ts: seq<ToolInfo>)
    requires Ascending(ts) && AllAbove(h, ts)
    ensures Ascending([h] + ts)
  {
    var r := [h] + ts;
    forall i, j | 0 <= i < j < |r|
      ensures IdBelow(r[i], r[j])
    {
      assert r[j] == ts[j - 1];
      if i > 0 {
        assert r[i] == ts[i - 1];
      }
    }
  }

  /** Inserting an info whose id is new keeps the ids ascending. */
  lemma {:induction false} InsertByIdAscending(t: ToolInfo, ts: seq<ToolInfo>)
    requires Ascending(ts) && forall i :: 0 <= i < |ts| ==> ts[i].id != t.id
    ensures Ascending(InsertById(t, ts))
  {
    if ts == [] {
      assert InsertById(t, ts) == [t];
    } else if IdBelow(ts[0], t) {
      InsertByIdAscending(t, ts[1..]);
      InsertByIdAbove(ts[0], t, ts[1..]);
      AscendingCons(ts[0], InsertById(t, ts[1..]));
    } else {
      BelowTotal(t.id, ts[0].id);
      forall i | 0 <= i < |ts|
        ensures IdBelow(t, ts[i])
      {
        if i > 0 {
          BelowTransitive(t.id, ts[0].id, ts[i].id);
        }
      }
      AscendingCons(t, ts);
    }
  }

  /** `sorted(ts, key=lambda x: x.id)` on distinct ids. */
  function SortById(ts: seq<ToolInfo>): seq<ToolInfo> {
    if ts == [] then [] else InsertById(ts[|ts| - 1], SortById(ts[..|ts| - 1]))
  }

  /** Sorting a list with distinct ids gives the same infos with strictly
      ascending ids. */
  lemma {:induction false} SortByIdSpec(ts: seq<ToolInfo>)
    requires UniqueIds(ts)
    ensures multiset(SortById(ts)) == multiset(ts)
    ensures Ascending(SortById(ts))
  {
    if ts != [] {
      var n := |ts|;
      var prev, last := ts[..n - 1], ts[n - 1];
      var init := SortById(prev);
      SortByIdSpec(prev);
      assert forall j :: 0 <= j < |prev| ==> prev[j].id != last.id;
      FreshIdKept(last, prev, init);
      InsertByIdMultiset(last, init);
      InsertByIdAscending(last, init);
      assert ts == prev + [last];
    }
  }

  /** A rearrangement of infos whose ids all differ from `t`'s has no info
      with `t`'s id either. */
  lemma FreshIdKept(t: ToolInfo, xs: seq<ToolInfo>, ys: seq<ToolInfo>)
    requires multiset(ys) == multiset(xs) && forall j :: 0 <= j < |xs| ==> xs[j].id != t.id
    ensures forall i :: 0 <= i < |ys| ==> ys[i].id != t.id
  {
    forall i | 0 <= i < |ys|
      ensures ys[i].id != t.id
    {
      assert ys[i] in multiset(xs);
      var j :| 0 <= j < |xs| && xs[j] == ys[i];
    }
  }

  /** The enabled infos, in dict order. */
  function EnabledOnly(ts: seq<ToolInfo>): (r: seq<ToolInfo>)
    ensures multiset(r) <= multiset(ts)
    ensures forall t :: t in r <==> t in ts && t.enabled
  {
    if ts == [] then []
    else
      var n := |ts|;
      assert ts == ts[..n - 1] + [ts[n - 1]];
      EnabledOnly(ts[..n - 1]) + (if ts[n - 1].enabled then [ts[n - 1]] else [])
  }

  /** Filtering keeps ids distinct. */
  lemma {:induction false} EnabledOnlyUnique(ts: seq<ToolInfo>)
    requires UniqueIds(ts)
    ensures UniqueIds(EnabledOnly(ts))
  {
    if ts != [] {
      var n := |ts|;
      var init := EnabledOnly(ts[..n - 1]);
      EnabledOnlyUnique(ts[..n - 1]);
      forall m | 0 <= m < |init|
        ensures init[m].id != ts[n - 1].id
      {
        assert init[m] in ts[..n - 1];
      }
    }
  }

  /** `list_tools`. */
  function ListTools(ts: seq<ToolInfo>, enabledOnly: bool): seq<ToolInfo> {
    SortById(if enabledOnly then EnabledOnly(ts) else ts)
  }

  /** `list_tools` returns each registered tool (each enabled one, with
      `enabled_only`) exactly once, in ascending id order. */
  lemma ListToolsSpec(ts: seq<ToolInfo>, enabledOnly: bool)
    requires UniqueIds(ts)
    ensures Ascending(ListTools(ts, enabledOnly))
    ensures forall t :: t in ListTools(ts, enabledOnly) <==> t in ts && (enabledOnly ==> t.enabled)
    ensures !enabledOnly ==> |ListTools(ts, enabledOnly)| == |ts|
  {
    var src := if enabledOnly then EnabledOnly(ts) else ts;
    if enabledOnly {
      EnabledOnlyUnique(ts);
    }
    SortByIdSpec(src);
    forall t
      ensures t in ListTools(ts, enabledOnly) <==> t in src
    {
      assert t in ListTools(ts, enabledOnly) <==> t in multiset(ListTools(ts, enabledOnly));
    }
    assert |multiset(ListTools(ts, enabledOnly))| == |multiset(src)|;
  }

  /** The tools that are enabled. */
  function EnabledCount(ts: seq<ToolInfo>): (n: nat)
    ensures n <= |ts|
  {
    if ts == [] then 0 else EnabledCount(ts[..|ts| - 1]) + (if ts[|ts| - 1].enabled then 1 else 0)
  }

  lemma {:induction false} EnabledCountIsListed(ts: seq<ToolInfo>)
    ensures EnabledCount(ts) == |EnabledOnly(ts)|
  {
    if ts != [] {
      EnabledCountIsListed(ts[..|ts| - 1]);
    }
  }

  /** `get_statistics`. */
  datatype RegistryStats = RegistryStats(totalTools: nat, enabledTools: nat, disabledTools: int,
                                         cachedInstances: nat, toolIds: seq<string>)

  /** The flag `enable_tool` / `disable_tool` writes into the info. */
  function WithFlag(ts: seq<ToolInfo>, id: string, enabled: bool): seq<ToolInfo>
    requires Lookup(ts, id).Some?
  {
    ts[IndexOf(ts, id) := ts[IndexOf(ts, id)].(enabled := enabled)]
  }

  /** Setting the flag changes only that tool's flag and keeps the order. */
  lemma WithFlagEffect(ts: seq<ToolInfo>, id: string, enabled: bool, k: string)
    requires UniqueIds(ts) && Lookup(ts, id).Some?
    ensures UniqueIds(WithFlag(ts, id, enabled)) && Ids(WithFlag(ts, id, enabled)) == Ids(ts)
    ensures Lookup(WithFlag(ts, id, enabled), k)
      == if k == id then Some(Lookup(ts, id).value.(enabled := enabled)) else Lookup(ts, k)
  {
    var r := WithFlag(ts, id, enabled);
    var j := IndexOf(ts, k);
    IndexOfSpec(ts, k);
    if j != -1 {
      LookupUnique(r, j);
    }
  }

  /** The result a tool run gives back: `Err` when `execute` raises. */
  type Runner = (ToolClass, map<string, Value>, ToolContext) -> Result<ToolResult>

  class ToolRegistry {
    /** `_tools`, in insertion order. */
    var tools: seq<ToolInfo>
    /** `_instances`. */
    var instances: map<string, ToolInstance>

    /** Ids are keys, and a cached instance belongs to its id's current
        class and was built by it. */
    ghost predicate Valid()
      reads this
    {
      UniqueIds(tools)
      && forall k :: k in instances ==>
        Lookup(tools, k).Some? && instances[k].toolClass == Lookup(tools, k).value.toolClass
        && instances[k].toolClass.construct == Ok(instances[k].spec)
    }

    /** `__init__` with `_load_default_tools`: every default class is
        registered enabled; a failing one is skipped. */
    constructor (defaults: seq<ToolClass>)
      ensures Valid() && tools == LoadedUpTo(defaults, |defaults|) && instances == map[]
    {
      tools, instances := [], map[];
      new;
      for i := 0 to |defaults|
        invariant Valid() && tools == LoadedUpTo(defaults, i) && instances == map[]
      {
        var _ := RegisterTool(defaults[i], true);
      }
    }

    /** `register_tool`: True and the info stored under the instance's name,
        with that id's cached instance evicted; False and nothing changed
        when the class is rejected or fails to build. */
    method RegisterTool(cls: ToolClass, enabled: bool) returns (ok: bool)
      requires Valid()
      modifies this
      ensures Valid()
      ensures ok == Registered(old(tools), cls, enabled).Some?
      ensures ok ==> tools == Registered(old(tools), cls, enabled).value
                     && instances == old(instances) - {cls.construct.value.name}
      ensures !ok ==> tools == old(tools) && instances == old(instances)
    {
      if !Builds(cls) {
        return false;
      }
      var spec := cls.construct.value;
      forall k
        ensures Lookup(Registered(tools, cls, enabled).value, k)
          == if k == spec.name then Some(ToolInfo(k, k, spec.description, cls, spec.parameters, enabled)) else Lookup(tools, k)
      {
        RegisteredEffect(tools, cls, enabled, k);
      }
      RegisteredEffect(tools, cls, enabled, spec.name);
      tools := Put(tools, ToolInfo(spec.name, spec.name, spec.description, cls, spec.parameters, enabled));
      instances := instances - {spec.name};
      return true;
    }

    /** `unregister_tool`: False for an unknown id; otherwise the info and any
        cached instance are gone. */
    method UnregisterTool(id: string) returns (ok: bool)
      requires Valid()
      modifies this
      ensures Valid()
      ensures ok == old(Lookup(tools, id)).Some?
      ensures tools == Remove(old(tools), id) && instances == old(instances) - {id}
    {
      if Lookup(tools, id).None? {
        assert Remove(tools, id) == tools;
        return false;
      }
      forall k
        ensures Lookup(Remove(tools, id), k) == if k == id then None else Lookup(tools, k)
      {
        RemoveLookup(tools, id, k);
      }
      tools := Remove(tools, id);
      instances := instances - {id};
      return true;
    }

    /** `get_tool_info`. */
    function GetToolInfo(id: string): Option<ToolInfo>
      reads this
    {
      Lookup(tools, id)
    }

    /** `get_tool_instance`: the cached instance when there is one, else a
        new one, cached, when the class builds; None for an unknown id. */
    method GetToolInstance(id: string) returns (r: Option<ToolInstance>)
      requires Valid()
      modifies this
      ensures Valid() && tools == old(tools)
      ensures old(Lookup(tools, id)).None? ==> r.None? && instances == old(instances)
      ensures id in old(instances) ==> r == Some(old(instances)[id]) && instances == old(instances)
      ensures old(Lookup(tools, id)).Some? && id !in old(instances) ==>
        var cls := old(Lookup(tools, id)).value.toolClass;
        if cls.construct.Err? then r.None? && instances == old(instances)
        else r.Some? && fresh(r.value) && r.value.toolClass == cls && r.value.spec == cls.construct.value
             && instances == old(instances)[id := r.value]
    {
      var info := Lookup(tools, id);
      if info.None? {
        return None;
      }
      if id in instances {
        return Some(instances[id]);
      }
      var cls := info.value.toolClass;
      if cls.construct.Err? {
        return None;
      }
      var instance := new ToolInstance(cls, cls.construct.value);
      instances := instances[id := instance];
      return Some(instance);
    }

    /** `create_tool_instance`: a new, uncached instance every time. */
    method CreateToolInstance(id: string) returns (r: Option<ToolInstance>)
      ensures r.Some? <==> Lookup(tools, id).Some? && Lookup(tools, id).value.toolClass.construct.Ok?
      ensures r.Some? ==> fresh(r.value) && r.value.toolClass == Lookup(tools, id).value.toolClass
                          && r.value.spec == Lookup(tools, id).value.toolClass.construct.value
    {
      var info := Lookup(tools, id);
      if info.None? || info.value.toolClass.construct.Err? {
        return None;
      }
      var instance := new ToolInstance(info.value.toolClass, info.value.toolClass.construct.value);
      return Some(instance);
    }

    /** `get_tool_ids`. */
    function GetToolIds(enabledOnly: bool): seq<string>
      reads this
    {
      Ids(ListTools(tools, enabledOnly))
    }

    /** `get_tools_dict`: one dict per listed tool, in list order. */
    function GetToolsDict(enabledOnly: bool): (r: seq<map<string, Value>>)
      reads this
      ensures |r| == |ListTools(tools, enabledOnly)|
      ensures forall i :: 0 <= i < |r| ==>
        var t := ListTools(tools, enabledOnly)[i];
        r[i] == map["id" := Str(t.id), "name" := Str(t.name), "description" := Str(t.description),
                    "parameters" := Dict(t.parameters), "enabled" := Bool(t.enabled)]
    {
      var ts := ListTools(tools, enabledOnly);
      seq(|ts|, i requires 0 <= i < |ts| =>
        map["id" := Str(ts[i].id), "name" := Str(ts[i].name), "description" := Str(ts[i].description),
            "parameters" := Dict(ts[i].parameters), "enabled" := Bool(ts[i].enabled)])
    }

    /** `enable_tool` / `disable_tool`: False for an unknown id, otherwise the
        flag is set. */
    method SetEnabled(id: string, enabled: bool) returns (ok: bool)
      requires Valid()
      modifies this
      ensures Valid() && instances == old(instances)
      ensures ok == old(Lookup(tools, id)).Some?
      ensures tools == if ok then WithFlag(old(tools), id, enabled) else old(tools)
    {
      if Lookup(tools, id).None? {
        return false;
      }
      forall k
        ensures Lookup(WithFlag(tools, id, enabled), k)
          == if k == id then Some(Lookup(tools, id).value.(enabled := enabled)) else Lookup(tools, k)
      {
        WithFlagEffect(tools, id, enabled, k);
      }
      tools := WithFlag(tools, id, enabled);
      return true;
    }

    method EnableTool(id: string) returns (ok: bool)
      requires Valid()
      modifies this
      ensures Valid() && instances == old(instances)
      ensures ok == old(Lookup(tools, id)).Some?
      ensures tools == if ok then WithFlag(old(tools), id, true) else old(tools)
    {
      ok := SetEnabled(id, true);
    }

    method DisableTool(id: string) returns (ok: bool)
      requires Valid()
      modifies this
      ensures Valid() && instances == old(instances)
      ensures ok == old(Lookup(tools, id)).Some?
      ensures tools == if ok then WithFlag(old(tools), id, false) else old(tools)
    {
      ok := SetEnabled(id, false);
    }

    /** `is_tool_enabled`: false for an unknown id. */
    function IsToolEnabled(id: string): bool
      reads this
    {
      Lookup(tools, id).Some? && Lookup(tools, id).value.enabled
    }

    /** `execute_tool`: None without running anything for an unknown or
        disabled tool, when the tool cannot be built, or when it raises. */
    method ExecuteTool(id: string, params: map<string, Value>, context: ToolContext, run: Runner)
      returns (r: Option<ToolResult>)
      requires Valid()
      modifies this
      ensures Valid() && tools == old(tools)
      ensures !old(IsToolEnabled(id)) ==> r.None? && instances == old(instances)
      ensures old(IsToolEnabled(id)) ==>
        var cls := old(Lookup(tools, id)).value.toolClass;
        (r.Some? <==> cls.construct.Ok? && run(cls, params, context).Ok?)
        && (r.Some? ==> r.value == run(cls, params, context).value)
      ensures old(IsToolEnabled(id)) && (id in old(instances) || old(Lookup(tools, id)).value.toolClass.construct.Err?) ==>
        instances == old(instances)
      ensures old(IsToolEnabled(id)) && id !in old(instances) && old(Lookup(tools, id)).value.toolClass.construct.Ok? ==>
        id in instances && fresh(instances[id]) && instances == old(instances)[id := instances[id]]
    {
      if !IsToolEnabled(id) {
        return None;
      }
      var tool := GetToolInstance(id);
      if tool.None? {
        return None;
      }
      var outcome := run(tool.value.toolClass, params, context);
      if outcome.Err? {
        return None;
      }
      return Some(outcome.value);
    }

    /** `clear_cache`. */
    method ClearCache()
      requires Valid()
      modifies this
      ensures Valid() && tools == old(tools) && instances == map[]
    {
      instances := map[];
    }

    /** `get_statistics`: the disabled tools are the rest of the total, and
        the enabled ones are those `list_tools(enabled_only=True)` lists. */
    function GetStatistics(): (r: RegistryStats)
      reads this
      requires Valid()
      ensures r.totalTools == |tools| && r.cachedInstances == |instances| && r.toolIds == Ids(tools)
      ensures r.enabledTools == |ListTools(tools, true)| && r.disabledTools == r.totalTools - r.enabledTools
      ensures 0 <= r.disabledTools
    {
      var enabled := EnabledCount(tools);
      EnabledCountIsListed(tools);
      EnabledOnlyUnique(tools);
      SortByIdSpec(EnabledOnly(tools));
      assert |multiset(ListTools(tools, true))| == |multiset(EnabledOnly(tools))|;
      RegistryStats(|tools|, enabled, |tools| - enabled, |instances|, Ids(tools))
    }

    /** `validate_tool_params`: False when no instance can be had or the
        check raises. */
    method ValidateToolParams(id: string, params: map<string, Value>,
                              validate: (ToolClass, map<string, Value>) -> Result<bool>)
      returns (ok: bool)
      requires Valid()
      modifies this
      ensures Valid() && tools == old(tools)
      ensures ok <==> old(Lookup(tools, id)).Some? && old(Lookup(tools, id)).value.toolClass.construct.Ok?
                      && validate(old(Lookup(tools, id)).value.toolClass, params) == Ok(true)
      ensures old(Lookup(tools, id)).None? || id in old(instances)
              || old(Lookup(tools, id)).value.toolClass.construct.Err? ==>
        instances == old(instances)
      ensures old(Lookup(tools, id)).Some? && id !in old(instances)
              && old(Lookup(tools, id)).value.toolClass.construct.Ok? ==>
        id in instances && fresh(instances[id]) && instances == old(instances)[id := instances[id]]
    {
      var tool := GetToolInstance(id);
      if tool.None? {
        return false;
      }
      var outcome := validate(tool.value.toolClass, params);
      ok := outcome == Ok(true);
    }
  }
}
