/** The OpenCode compaction strategy: a prune pass that clears old tool output
    in place, then a rebuild that replaces the summarised history by a summary
    message and a resume prompt. */
module OpenCode {
  import opened Wrappers
  import opened Text
  import opened CompactionUtils
  import opened CompactionBase

  const PRUNE_MINIMUM: int := 20000
  const PRUNE_PROTECT: int := 40000
  const PROTECT_TURNS: int := 2
  const AUTO_COMPACT_THRESHOLD: real := 0.75

  const CLEARED_CONTENT: string := "[Old tool result content cleared]"
  const RESUME_PROMPT: string := "Use the above summary" + " to continue our conversation from where we left off."
  const STRATEGY_NAME: string := "opencode"

  /** The strategy's settings. */
  datatype OpenCodeStrategy = OpenCodeStrategy(
    pruneMinimum: int,
    pruneProtect: int,
    protectTurns: int,
    autoThreshold: real)

  /** The keys the constructor's config dict may override. */
  datatype ConfigOverrides = ConfigOverrides(
    pruneMinimum: Option<int>,
    pruneProtect: Option<int>,
    protectTurns: Option<int>,
    autoThreshold: Option<real>)

  /** `OpenCodeStrategy.__init__`: each setting is the override when the
      config has that key, else the class constant. */
  function NewStrategy(o: ConfigOverrides): (s: OpenCodeStrategy)
    ensures o == ConfigOverrides(None, None, None, None) ==>
      s == OpenCodeStrategy(PRUNE_MINIMUM, PRUNE_PROTECT, PROTECT_TURNS, AUTO_COMPACT_THRESHOLD)
    ensures s.pruneMinimum == if o.pruneMinimum.Some? then o.pruneMinimum.value else PRUNE_MINIMUM
    ensures o.pruneProtect.Some? ==> s.pruneProtect == o.pruneProtect.value
    ensures o.pruneProtect.None? ==> s.pruneProtect == PRUNE_PROTECT
    ensures o.protectTurns.Some? ==> s.protectTurns == o.protectTurns.value
    ensures o.protectTurns.None? ==> s.protectTurns == PROTECT_TURNS
    ensures s.autoThreshold == if o.autoThreshold.Some? then o.autoThreshold.value else AUTO_COMPACT_THRESHOLD
  {
    OpenCodeStrategy(
      o.pruneMinimum.GetOr(PRUNE_MINIMUM),
      o.pruneProtect.GetOr(PRUNE_PROTECT),
      o.protectTurns.GetOr(PROTECT_TURNS),
      o.autoThreshold.GetOr(AUTO_COMPACT_THRESHOLD))
  }

  /** `should_compact`: the usage ratio against the threshold, never for a
      zero budget. */
  function ShouldCompact(s: OpenCodeStrategy, currentTokens: int, maxTokens: int): bool {
    maxTokens != 0 && (currentTokens as real) / (maxTokens as real) >= s.autoThreshold
  }

  /** With a positive budget the ratio test is a comparison of token counts. */
  lemma ShouldCompactIff(s: OpenCodeStrategy, currentTokens: int, maxTokens: int)
    requires maxTokens > 0
    ensures ShouldCompact(s, currentTokens, maxTokens) <==>
      currentTokens as real >= s.autoThreshold * (maxTokens as real)
  {
    var q := (currentTokens as real) / (maxTokens as real);
    assert q * (maxTokens as real) == currentTokens as real;
    if q >= s.autoThreshold {
      assert q * (maxTokens as real) >= s.autoThreshold * (maxTokens as real);
    } else {
      assert q * (maxTokens as real) < s.autoThreshold * (maxTokens as real);
    }
  }

  /** With the default threshold, 100000 of 128000 tokens triggers a
      compaction and 50000 of 128000 does not. */
  lemma ShouldCompactDefaults()
    ensures ShouldCompact(NewStrategy(ConfigOverrides(None, None, None, None)), 100000, 128000)
    ensures !ShouldCompact(NewStrategy(ConfigOverrides(None, None, None, None)), 50000, 128000)
    ensures !ShouldCompact(NewStrategy(ConfigOverrides(None, None, None, None)), 100000, 0)
  {
    var s := NewStrategy(ConfigOverrides(None, None, None, None));
    ShouldCompactIff(s, 100000, 128000);
    ShouldCompactIff(s, 50000, 128000);
  }

  // ---------------------------------------------------------------------
  // The prune pass
  // ---------------------------------------------------------------------

  predicate IsSummaryMessage(m: Msg) { m.role == "assistant" && m.summary }

  /** A truthy `compacted_at`. */
  predicate IsCompacted(m: Msg) { m.compactedAt.Some? && m.compactedAt.value != "" }

  /** A message at which the prune scan stops. */
  predicate IsStopMessage(m: Msg) {
    IsSummaryMessage(m) || (m.role == "tool" && IsCompacted(m))
  }

  /** The dict after its tool output is cleared at time `now`. */
  function Cleared(m: Msg, now: string): Msg {
    m.(content := Str(CLEARED_CONTENT), compactedAt := Some(now))
  }

  datatype PruneState = PruneState(turnCount: int, totalTokens: int, prunedTokens: int, prunedCount: int)

  /** `PruneResult`. */
  datatype PruneResult = PruneResult(prunedCount: int, prunedTokens: int, totalTokens: int)

  /** What one iteration of the `_prune` loop does with the message at index
      `i - 1`: go on with new values and counters, or end the loop. */
  datatype ScanOutcome =
    | Next(vs: seq<Msg>, st: PruneState)
    | Done(r: Result<PruneState>)

  /** One iteration of the `_prune` loop at index `i - 1`. */
  function ScanStep(vs: seq<Msg>, i: nat, st: PruneState, s: OpenCodeStrategy, now: string): (o: ScanOutcome)
    requires 0 < i <= |vs|
    ensures o.Next? ==>
      (|o.vs| == |vs| && o.st.turnCount == st.turnCount + (if IsUserTurn(vs[i - 1]) then 1 else 0))
    ensures o.Next? ==>
      (o.vs == vs && o.st.prunedCount == st.prunedCount && o.st.prunedTokens == st.prunedTokens
       && o.st.totalTokens >= st.totalTokens)
      || (o.vs == vs[i - 1 := Cleared(vs[i - 1], now)] && vs[i - 1].role == "tool" && !IsCompacted(vs[i - 1])
          && o.st.turnCount >= s.protectTurns && o.st.prunedCount == st.prunedCount + 1
          && o.st.prunedTokens - st.prunedTokens == o.st.totalTokens - st.totalTokens >= 0)
    ensures o.Done? && o.r.Ok? ==>
      o.r.value == st.(turnCount := st.turnCount + if IsUserTurn(vs[i - 1]) then 1 else 0)
  {
    var m := vs[i - 1];
    var st1 := st.(turnCount := if IsUserTurn(m) then st.turnCount + 1 else st.turnCount);
    if st1.turnCount < s.protectTurns then Next(vs, st1)
    else if IsSummaryMessage(m) then Done(Ok(st1))
    else if m.role == "tool" then
      if IsCompacted(m) then Done(Ok(st1))
      else
        match EstimateContent(m.content)
        case Err(e) => Done(Err(e))
        case Ok(tokens) =>
          var total := st1.totalTokens + tokens;
          if total > s.pruneProtect then
            Next(vs[i - 1 := Cleared(m, now)],
                 PruneState(st1.turnCount, total, st1.prunedTokens + tokens, st1.prunedCount + 1))
          else Next(vs, st1.(totalTokens := total))
    else Next(vs, st1)
  }

  /** The loop of `_prune` from index `i - 1` down to 0, with counters `st`:
      the message values after the pass and either the final counters or the
      TypeError raised by the token estimate. */
  function PruneScan(vs: seq<Msg>, i: nat, st: PruneState, s: OpenCodeStrategy, now: string)
    : (r: (seq<Msg>, Result<PruneState>))
    requires i <= |vs|
    ensures |r.0| == |vs|
    decreases i
  {
    if i == 0 then (vs, Ok(st))
    else
      match ScanStep(vs, i, st, s, now)
      case Next(vs', st') => PruneScan(vs', i - 1, st', s, now)
      case Done(r) => (vs, r)
  }

  /** `_prune` on message values: the messages after the pass and the
      counters, or the error it raises. */
  function PruneSpec(vs: seq<Msg>, s: OpenCodeStrategy, now: string): (seq<Msg>, Result<PruneResult>) {
    var (out, r) := PruneScan(vs, |vs|, PruneState(0, 0, 0, 0), s, now);
    (out, match r
          case Ok(st) => Ok(PruneResult(st.prunedCount, st.prunedTokens, st.totalTokens))
          case Err(e) => Err(e))
  }

  /** How many of the first `n` positions differ between `a` and `b`. */
  function ChangedCount(a: seq<Msg>, b: seq<Msg>, n: nat): (c: nat)
    requires n <= |a| && n <= |b|
    ensures c <= n
  {
    if n == 0 then 0 else ChangedCount(a, b, n - 1) + (if a[n - 1] != b[n - 1] then 1 else 0)
  }

  lemma {:induction false} ChangedCountAgree(a: seq<Msg>, a': seq<Msg>, b: seq<Msg>, n: nat)
    requires n <= |a| && n <= |a'| && n <= |b|
    requires forall j :: 0 <= j < n ==> a[j] == a'[j]
    ensures ChangedCount(a, b, n) == ChangedCount(a', b, n)
  {
    if n > 0 {
      ChangedCountAgree(a, a', b, n - 1);
    }
  }

  /** The user turns seen by the scan when it reaches index `j`, counted from
      index `j` up to `i`. */
  lemma {:induction false} TurnsStep(vs: seq<Msg>, j: nat, i: nat)
    requires j < i <= |vs|
    ensures CountUserTurns(vs[j..i]) == CountUserTurns(vs[j..i - 1]) + (if IsUserTurn(vs[i - 1]) then 1 else 0)
  {
    assert vs[j..i] == vs[j..i - 1] + [vs[i - 1]];
    CountUserTurnsAppend(vs[j..i - 1], [vs[i - 1]]);
    assert [vs[i - 1]][1..] == [];
  }

  /** What the scan may do to a message: positions it has not reached keep
      their values, and a position it changes held an uncompacted tool
      message outside the protected window, which it cleared. */
  lemma {:induction false} ScanShape(vs: seq<Msg>, i: nat, st: PruneState, s: OpenCodeStrategy, now: string)
    requires i <= |vs|
    ensures var out := PruneScan(vs, i, st, s, now).0;
      |out| == |vs|
      && (forall j :: i <= j < |vs| ==> out[j] == vs[j])
      && (forall j :: 0 <= j < i && out[j] != vs[j] ==>
            vs[j].role == "tool" && !IsCompacted(vs[j]) && out[j] == Cleared(vs[j], now)
            && st.turnCount + CountUserTurns(vs[j..i]) >= s.protectTurns)
    decreases i
  {
    if i > 0 {
      match ScanStep(vs, i, st, s, now)
      case Done(_) =>
      case Next(vs', st') =>
        ScanShape(vs', i - 1, st', s, now);
        var out := PruneScan(vs, i, st, s, now).0;
        forall j | 0 <= j < i && out[j] != vs[j]
          ensures vs[j].role == "tool" && !IsCompacted(vs[j]) && out[j] == Cleared(vs[j], now)
                  && st.turnCount + CountUserTurns(vs[j..i]) >= s.protectTurns
        {
          TurnsStep(vs, j, i);
          if j < i - 1 {
            assert vs'[j..i - 1] == vs[j..i - 1];
          } else {
            assert vs[j..i - 1] == [];
          }
        }
    }
  }

  /** Once the scan is past the protected window, a summary message or an
      already compacted tool message ends it: nothing at or before that
      message changes. */
  lemma {:induction false} ScanStop(vs: seq<Msg>, i: nat, st: PruneState, s: OpenCodeStrategy, now: string, k: nat)
    requires k < i <= |vs|
    requires IsStopMessage(vs[k])
    requires st.turnCount + CountUserTurns(vs[k..i]) >= s.protectTurns
    ensures var out := PruneScan(vs, i, st, s, now).0;
      forall j :: 0 <= j <= k ==> out[j] == vs[j]
    decreases i
  {
    TurnsStep(vs, k, i);
    match ScanStep(vs, i, st, s, now)
    case Done(_) =>
    case Next(vs', st') =>
      if k == i - 1 {
        assert false;
      }
      assert vs'[k..i - 1] == vs[k..i - 1];
      ScanStop(vs', i - 1, st', s, now, k);
  }

  /** The counters the scan returns: the pruned tokens never exceed the
      tokens it summed, and the pruned count is the number of messages it
      changed. */
  lemma {:induction false} ScanCounts(vs: seq<Msg>, i: nat, st: PruneState, s: OpenCodeStrategy, now: string)
    requires i <= |vs| && now != ""
    requires st.prunedTokens <= st.totalTokens
    ensures var res := PruneScan(vs, i, st, s, now);
      res.1.Ok? ==> res.1.value.prunedTokens <= res.1.value.totalTokens
                    && res.1.value.prunedCount == st.prunedCount + ChangedCount(vs, res.0, i)
    decreases i
  {
    var out := PruneScan(vs, i, st, s, now).0;
    if i > 0 {
      match ScanStep(vs, i, st, s, now)
      case Done(_) =>
        assert out == vs;
        ChangedCountZero(vs, i);
      case Next(vs', st') =>
        assert PruneScan(vs, i, st, s, now) == PruneScan(vs', i - 1, st', s, now);
        ScanCounts(vs', i - 1, st', s, now);
        ScanShape(vs', i - 1, st', s, now);
        ChangedCountLast(vs, vs', out, i);
        assert vs'[i - 1] != vs[i - 1] <==> st'.prunedCount == st.prunedCount + 1;
    } else {
      ChangedCountZero(out, 0);
    }
  }


  /** Counting the changes up to `i` after a step that touched at most
      position `i - 1`. */
  lemma {:induction false} ChangedCountLast(a: seq<Msg>, a': seq<Msg>, b: seq<Msg>, i: nat)
    requires 0 < i <= |a| && i <= |a'| && i <= |b|
    requires forall j :: 0 <= j < i - 1 ==> a[j] == a'[j]
    requires b[i - 1] == a'[i - 1]
    ensures ChangedCount(a, b, i) == ChangedCount(a', b, i - 1) + (if a[i - 1] != a'[i - 1] then 1 else 0)
  {
    ChangedCountAgree(a, a', b, i - 1);
  }

  lemma {:induction false} ChangedCountZero(a: seq<Msg>, n: nat)
    requires n <= |a|
    ensures ChangedCount(a, a, n) == 0
  {
    if n > 0 {
      ChangedCountZero(a, n - 1);
    }
  }

  /** A list in which no tool dict occurs twice (other dicts may be shared,
      as a rebuilt list shares system messages with its tail). */
  predicate ToolDictsDistinct(ms: seq<MessageDict>)
    reads ms
  {
    forall i, j :: 0 <= i < j < |ms| && ms[i] == ms[j] ==> ms[i].role != "tool"
  }

  /** Writes the cleared tool output into the dict at index `k`; the other
      entries keep their values since no other entry is that tool dict. */
  method ClearToolOutput(msgs: seq<MessageDict>, k: nat, now: string)
    requires k < |msgs| && ToolDictsDistinct(msgs) && msgs[k].role == "tool"
    modifies msgs[k]
    ensures Views(msgs) == old(Views(msgs))[k := Cleared(old(msgs[k].View()), now)]
    ensures ToolDictsDistinct(msgs)
  {
    ghost var before := Views(msgs);
    var m := msgs[k];
    m.content := Str(CLEARED_CONTENT);
    m.compactedAt := Some(now);
    assert forall j :: 0 <= j < |msgs| && j != k ==> msgs[j] != m;
    assert Views(msgs) == before[k := m.View()];
  }

  /** The body of the `_prune` loop for the dict at index `i - 1`: updates
      the counters, clears the dict's tool output when the scan says so, and
      reports whether the loop ends here and with what. */
  method PruneVisit(msgs: seq<MessageDict>, i: nat, st: PruneState, s: OpenCodeStrategy, now: string)
    returns (st': PruneState, done: Option<Result<PruneState>>)
    requires 0 < i <= |msgs| && ToolDictsDistinct(msgs)
    modifies msgs[i - 1]
    ensures ToolDictsDistinct(msgs)
    ensures match ScanStep(old(Views(msgs)), i, st, s, now)
            case Next(vs', st2) => done == None && st' == st2 && Views(msgs) == vs'
            case Done(r) => done == Some(r) && Views(msgs) == old(Views(msgs))
  {
    ghost var vs := Views(msgs);
    ghost var step := ScanStep(vs, i, st, s, now);
    var m := msgs[i - 1];
    var v := m.View();
    assert v == vs[i - 1];
    st' := st;
    done := None;
    if IsUserTurn(v) {
      st' := st'.(turnCount := st'.turnCount + 1);
    }
    if st'.turnCount < s.protectTurns {
      assert step == Next(vs, st');
    } else if IsSummaryMessage(v) {
      done := Some(Ok(st'));
    } else if v.role == "tool" {
      if IsCompacted(v) {
        done := Some(Ok(st'));
      } else {
        var estimate := EstimateContent(v.content);
        if estimate.Err? {
          done := Some(Err(estimate.error));
        } else {
          var tokens := estimate.value;
          st' := st'.(totalTokens := st'.totalTokens + tokens);
          if st'.totalTokens > s.pruneProtect {
            st' := st'.(prunedTokens := st'.prunedTokens + tokens, prunedCount := st'.prunedCount + 1);
            assert step == Next(vs[i - 1 := Cleared(v, now)], st');
            ClearToolOutput(msgs, i - 1, now);
          } else {
            assert step == Next(vs, st');
          }
        }
      }
    } else {
      assert step == Next(vs, st');
    }
  }

  /** `_prune`: scans the list newest to oldest and clears old tool output in
      the dicts themselves. */
  method Prune(msgs: seq<MessageDict>, s: OpenCodeStrategy, now: string) returns (r: Result<PruneResult>)
    requires ToolDictsDistinct(msgs)
    modifies msgs
    ensures (Views(msgs), r) == PruneSpec(old(Views(msgs)), s, now)
  {
    ghost var goal := PruneScan(Views(msgs), |msgs|, PruneState(0, 0, 0, 0), s, now);
    var st := PruneState(0, 0, 0, 0);
    var i := |msgs|;
    while i > 0
      invariant 0 <= i <= |msgs|
      invariant ToolDictsDistinct(msgs)
      invariant PruneScan(Views(msgs), i, st, s, now) == goal
      decreases i
    {
      var done;
      st, done := PruneVisit(msgs, i, st, s, now);
      if done.Some? {
        match done.value
        case Ok(last) => return Ok(PruneResult(last.prunedCount, last.prunedTokens, last.totalTokens));
        case Err(e) => return Err(e);
      }
      i := i - 1;
    }
    return Ok(PruneResult(st.prunedCount, st.prunedTokens, st.totalTokens));
  }

  /** What `_prune` can do to a conversation: the list keeps its length, and
      a message it changes was an uncompacted tool message with at least
      `protect_turns` user turns at or after it, now cleared; so every
      message inside the protected window keeps its value. */
  lemma PruneOnlyClearsOldToolOutput(vs: seq<Msg>, s: OpenCodeStrategy, now: string)
    ensures var out := PruneSpec(vs, s, now).0;
      |out| == |vs|
      && (forall j :: 0 <= j < |vs| && out[j] != vs[j] ==>
            vs[j].role == "tool" && !IsCompacted(vs[j]) && out[j] == Cleared(vs[j], now)
            && CountUserTurns(vs[j..]) >= s.protectTurns)
      && (forall j :: 0 <= j < |vs| && CountUserTurns(vs[j..]) < s.protectTurns ==> out[j] == vs[j])
  {
    ScanShape(vs, |vs|, PruneState(0, 0, 0, 0), s, now);
    assert forall j :: 0 <= j < |vs| ==> vs[j..|vs|] == vs[j..];
  }

  /** A position the scan reaches with at least `protect_turns` user turns
      at or after it: outside the protected window. */
  predicate PastWindow(vs: seq<Msg>, k: nat, s: OpenCodeStrategy)
    requires k <= |vs|
  {
    CountUserTurns(vs[k..]) >= s.protectTurns
  }

  /** The estimated tokens of the tool messages outside the protected window
      at positions `j` to `i - 1`, or the error a content's estimate raises. */
  function WindowToolTokens(vs: seq<Msg>, j: nat, i: nat, s: OpenCodeStrategy): Result<nat>
    requires j <= i <= |vs|
    decreases i
  {
    if i == j then Ok(0)
    else
      var rest := WindowToolTokens(vs, j, i - 1, s);
      if vs[i - 1].role == "tool" && PastWindow(vs, i - 1, s) then
        var here := EstimateContent(vs[i - 1].content);
        if here.Err? then here
        else if rest.Err? then rest
        else Ok(rest.value + here.value)
      else rest
  }

  /** The user turns at or after `i - 1` are those at or after `i`, plus one
      when message `i - 1` is a user turn. */
  lemma TurnsFrom(vs: seq<Msg>, i: nat)
    requires 0 < i <= |vs|
    ensures CountUserTurns(vs[i - 1..]) == CountUserTurns(vs[i..]) + (if IsUserTurn(vs[i - 1]) then 1 else 0)
  {
    assert vs[i - 1..][0] == vs[i - 1] && vs[i - 1..][1..] == vs[i..];
  }

  /** `cur` still holds the values of `vs` below `i`. */
  predicate AgreesBelow(vs: seq<Msg>, cur: seq<Msg>, i: nat) {
    |cur| == |vs| && i <= |vs| && forall k :: 0 <= k < i ==> cur[k] == vs[k]
  }

  /** No summary or compacted tool message outside the protected window
      lies strictly between `j` and `i`. */
  predicate NoStopBetween(vs: seq<Msg>, j: nat, i: nat, s: OpenCodeStrategy)
    requires i <= |vs|
  {
    forall k :: j < k < i && PastWindow(vs, k, s) ==> !IsStopMessage(vs[k])
  }

  /** What the scan from index `i - 1` down may rely on: `cur` still agrees
      with `vs` below `i`, the user turns after `i` are counted, the message
      at `j` is an uncompacted tool message outside the protected window, no
      stop message lies between `j` and `i`, and `t` is what remains to be
      summed down to `j`. */
  predicate ClearContext(vs: seq<Msg>, cur: seq<Msg>, i: nat, st: PruneState, s: OpenCodeStrategy, j: nat, t: nat)
  {
    j < i <= |vs| && AgreesBelow(vs, cur, i)
    && st.turnCount == CountUserTurns(vs[i..])
    && vs[j].role == "tool" && !IsCompacted(vs[j]) && PastWindow(vs, j, s)
    && NoStopBetween(vs, j, i, s)
    && WindowToolTokens(vs, j, i, s) == Ok(t)
  }

  /** The scan from index `i - 1` down clears the message `m` at `j` exactly
      when the running sum reaches past `prune_protect` at `j`. */
  predicate ClearsAt(cur: seq<Msg>, i: nat, st: PruneState, s: OpenCodeStrategy, now: string, j: nat, t: nat, m: Msg)
    requires j < i <= |cur|
  {
    PruneScan(cur, i, st, s, now).0[j] == if st.totalTokens + t > s.pruneProtect then Cleared(m, now) else m
  }

  /** One iteration above `j`: with no stop message between `j` and `i`,
      the scan goes on, agreeing with `vs` below `i - 1`, and what it has
      summed plus what remains down to `j` does not change. */
  lemma ClearStepPast(vs: seq<Msg>, cur: seq<Msg>, i: nat, st: PruneState, s: OpenCodeStrategy,
                      now: string, j: nat, t: nat)
      returns (cur': seq<Msg>, st': PruneState, t': nat)
    requires ClearContext(vs, cur, i, st, s, j, t) && j < i - 1
    ensures ClearContext(vs, cur', i - 1, st', s, j, t')
    ensures ClearsAt(cur', i - 1, st', s, now, j, t', vs[j]) ==> ClearsAt(cur, i, st, s, now, j, t, vs[j])
  {
    TurnsFrom(vs, i);
    assert cur[i - 1] == vs[i - 1];
    t' := WindowToolTokens(vs, j, i - 1, s).value;
    match ScanStep(cur, i, st, s, now)
    case Done(_) =>
      assert false;
    case Next(c, n) =>
      cur', st' := c, n;
  }

  /** The iteration at `j` itself clears the message exactly when the sum
      passes `prune_protect`, and the rest of the scan leaves it alone. */
  lemma ClearStepAt(vs: seq<Msg>, cur: seq<Msg>, st: PruneState, s: OpenCodeStrategy, now: string, j: nat, t: nat)
    requires ClearContext(vs, cur, j + 1, st, s, j, t)
    ensures ClearsAt(cur, j + 1, st, s, now, j, t, vs[j])
  {
    TurnsFrom(vs, j + 1);
    assert cur[j] == vs[j];
    assert EstimateContent(vs[j].content) == Ok(t) by {
      assert WindowToolTokens(vs, j, j, s) == Ok(0);
    }
    match ScanStep(cur, j + 1, st, s, now)
    case Done(_) =>
      assert false;
    case Next(c, n) =>
      ScanShape(c, j, n, s, now);
  }

  /** By induction on the scan: under `ClearContext`, the scan clears the
      message at `j` exactly when the running sum reaches past
      `prune_protect` there. */
  lemma {:induction false} ScanClears(vs: seq<Msg>, cur: seq<Msg>, i: nat, st: PruneState, s: OpenCodeStrategy,
                                      now: string, j: nat, t: nat)
    requires ClearContext(vs, cur, i, st, s, j, t)
    ensures ClearsAt(cur, i, st, s, now, j, t, vs[j])
    decreases i
  {
    if i - 1 == j {
      ClearStepAt(vs, cur, st, s, now, j, t);
    } else {
      var cur', st', t' := ClearStepPast(vs, cur, i, st, s, now, j, t);
      ScanClears(vs, cur', i - 1, st', s, now, j, t');
    }
  }

  /** The other direction of `PruneOnlyClearsOldToolOutput`: going from the
      newest message back, an uncompacted tool message outside the protected
      window, with no summary or compacted tool message between it and the
      window's edge, is cleared exactly when the tool tokens summed from it
      to the end exceed `prune_protect`. */
  lemma PruneClearsOldToolOutput(vs: seq<Msg>, s: OpenCodeStrategy, now: string, j: nat)
    requires j < |vs| && vs[j].role == "tool" && !IsCompacted(vs[j]) && PastWindow(vs, j, s)
    requires forall k :: j < k < |vs| && PastWindow(vs, k, s) ==> !IsStopMessage(vs[k])
    requires WindowToolTokens(vs, j, |vs|, s).Ok?
    ensures PruneSpec(vs, s, now).0[j] ==
      if WindowToolTokens(vs, j, |vs|, s).value > s.pruneProtect then Cleared(vs[j], now) else vs[j]
  {
    assert vs[|vs|..] == [];
    ScanClears(vs, vs, |vs|, PruneState(0, 0, 0, 0), s, now, j, WindowToolTokens(vs, j, |vs|, s).value);
  }

  /** Past the protected window, the newest summary message or compacted
      tool message bounds `_prune`: nothing at or before it changes. */
  lemma PruneStopsAtBoundary(vs: seq<Msg>, s: OpenCodeStrategy, now: string, k: nat)
    requires k < |vs| && IsStopMessage(vs[k])
    requires CountUserTurns(vs[k..]) >= s.protectTurns
    ensures var out := PruneSpec(vs, s, now).0;
      forall j :: 0 <= j <= k ==> out[j] == vs[j]
  {
    assert vs[k..|vs|] == vs[k..];
    ScanStop(vs, |vs|, PruneState(0, 0, 0, 0), s, now, k);
  }

  /** The counters `_prune` reports: `pruned_tokens <= total_tokens`, and
      `pruned_count` is the number of messages whose value changed. */
  lemma PruneCounts(vs: seq<Msg>, s: OpenCodeStrategy, now: string)
    requires now != ""
    ensures var (out, r) := PruneSpec(vs, s, now);
      r.Ok? ==> r.value.prunedTokens <= r.value.totalTokens
                && r.value.prunedCount == ChangedCount(vs, out, |vs|)
  {
    ScanCounts(vs, |vs|, PruneState(0, 0, 0, 0), s, now);
  }

  /** `_prune` keeps every message's role, summary flag and system-likeness:
      it only rewrites tool messages. */
  lemma PruneKeepsKinds(vs: seq<Msg>, s: OpenCodeStrategy, now: string)
    ensures var out := PruneSpec(vs, s, now).0;
      |out| == |vs|
      && forall j :: 0 <= j < |vs| ==>
           out[j].role == vs[j].role && out[j].summary == vs[j].summary
           && (IsSystemMessage(out[j]) <==> IsSystemMessage(vs[j]))
           && (IsUserTurn(out[j]) <==> IsUserTurn(vs[j]))
  {
    PruneOnlyClearsOldToolOutput(vs, s, now);
  }

  // ---------------------------------------------------------------------
  // The summary rebuild
  // ---------------------------------------------------------------------

  /** `_find_last_summary_index`: the index of the newest summary message,
      or -1 when there is none. */
  function FindLastSummaryIndex(vs: seq<Msg>): (r: int)
    ensures -1 <= r < |vs|
    ensures r >= 0 ==> IsSummaryMessage(vs[r])
    ensures forall j :: r < j < |vs| ==> !IsSummaryMessage(vs[j])
  {
    if vs == [] then -1
    else if IsSummaryMessage(vs[|vs| - 1]) then |vs| - 1
    else FindLastSummaryIndex(vs[..|vs| - 1])
  }

  /** The system-like messages of a list, in order. */
  function SystemMessages(vs: seq<Msg>): (r: seq<Msg>)
    ensures |r| <= |vs|
  {
    if vs == [] then []
    else SystemMessages(vs[..|vs| - 1]) + (if IsSystemMessage(vs[|vs| - 1]) then [vs[|vs| - 1]] else [])
  }

  /** The other messages of a list, in order. */
  function NonSystemMessages(vs: seq<Msg>): (r: seq<Msg>)
    ensures |r| <= |vs|
  {
    if vs == [] then []
    else NonSystemMessages(vs[..|vs| - 1]) + (if IsSystemMessage(vs[|vs| - 1]) then [] else [vs[|vs| - 1]])
  }

  /** Every message goes to exactly one of the two filters, and the
      system-like filter distributes over concatenation. */
  lemma {:induction false} SystemSplit(a: seq<Msg>, b: seq<Msg>)
    ensures |SystemMessages(a)| + |NonSystemMessages(a)| == |a|
    ensures SystemMessages(a + b) == SystemMessages(a) + SystemMessages(b)
    decreases |a|, |b|
  {
    if a != [] {
      SystemSplit(a[..|a| - 1], []);
    }
    if b == [] {
      assert a + b == a;
    } else {
      var b' := b[..|b| - 1];
      assert (a + b)[..|a + b| - 1] == a + b';
      SystemSplit(a, b');
    }
  }

  /** `_filter_summarized`: everything from the newest summary on, or, with
      no summary, every message that is not system-like. */
  function FilterSummarized(vs: seq<Msg>): (r: seq<Msg>)
    ensures FindLastSummaryIndex(vs) == -1 ==> r == NonSystemMessages(vs)
    ensures FindLastSummaryIndex(vs) != -1 ==> r == vs[FindLastSummaryIndex(vs)..]
  {
    var idx := FindLastSummaryIndex(vs);
    if idx == -1 then NonSystemMessages(vs) else vs[idx..]
  }

  /** Nothing is left to summarise exactly when there is no summary message
      and every message is system-like. */
  lemma {:induction false} FilterSummarizedEmpty(vs: seq<Msg>)
    ensures FilterSummarized(vs) == [] <==>
      (forall j :: 0 <= j < |vs| ==> !IsSummaryMessage(vs[j]) && IsSystemMessage(vs[j]))
  {
    if |vs| > 0 {
      var init := vs[..|vs| - 1];
      FilterSummarizedEmpty(init);
      assert forall j :: 0 <= j < |init| ==> init[j] == vs[j];
      if FindLastSummaryIndex(vs) == -1 {
        assert FindLastSummaryIndex(init) == -1;
      }
    }
  }

  const SUMMARY_HEADER: string := "# Previous Conversation Summary"
  const SUMMARY_COUNTS: string := "\n\nThis conversation had "
  const SUMMARY_MIDDLE: string := " user interactions with "
  const SUMMARY_CLOSING: string := "any new messages that follow."
  const SUMMARY_BODY: string :=
    " total messages.\n\n## Key Points:\n"
    + "- The conversation covered multiple topics\n- Various tools were used to assist with tasks\n"
    + "- Progress was made on the discussed objectives\n\n## Context:\n"
    + "Please continue based on the above summary and " + SUMMARY_CLOSING

  /** The summary template of `_generate_summary` for the given counts. */
  function SummaryTemplate(userTurns: nat, total: nat): string {
    SUMMARY_HEADER + SUMMARY_COUNTS + NatToString(userTurns) + SUMMARY_MIDDLE + NatToString(total) + SUMMARY_BODY
  }

  /** `_generate_summary`: the template filled with the number of user turns
      and of messages being summarised (its strip is a no-op, as
      `SummaryIsStripped` shows). */
  function GenerateSummary(ts: seq<Msg>): string {
    SummaryTemplate(CountUserTurns(ts), |ts|)
  }

  /** The template has no surrounding whitespace, so the strip in
      `_generate_summary` removes nothing; it opens with its header and
      closes with the request to continue. */
  lemma SummaryIsStripped(userTurns: nat, total: nat)
    ensures var t := SummaryTemplate(userTurns, total);
      Strip(t) == t && StartsWith(t, SUMMARY_HEADER) && EndsWith(t, SUMMARY_CLOSING)
  {
    var u, n := NatToString(userTurns), NatToString(total);
    var t := SummaryTemplate(userTurns, total);
    assert StartsWith(SUMMARY_HEADER, SUMMARY_HEADER);
    StartsWithAppend(SUMMARY_HEADER, SUMMARY_COUNTS, SUMMARY_HEADER);
    StartsWithAppend(SUMMARY_HEADER + SUMMARY_COUNTS, u, SUMMARY_HEADER);
    StartsWithAppend(SUMMARY_HEADER + SUMMARY_COUNTS + u, SUMMARY_MIDDLE, SUMMARY_HEADER);
    StartsWithAppend(SUMMARY_HEADER + SUMMARY_COUNTS + u + SUMMARY_MIDDLE, n, SUMMARY_HEADER);
    StartsWithAppend(SUMMARY_HEADER + SUMMARY_COUNTS + u + SUMMARY_MIDDLE + n, SUMMARY_BODY, SUMMARY_HEADER);
    var front := " total messages.\n\n## Key Points:\n"
      + "- The conversation covered multiple topics\n- Various tools were used to assist with tasks\n"
      + "- Progress was made on the discussed objectives\n\n## Context:\n"
      + "Please continue based on the above summary and ";
    assert EndsWith(SUMMARY_CLOSING, SUMMARY_CLOSING);
    EndsWithPrepend(front, SUMMARY_CLOSING, SUMMARY_CLOSING);
    EndsWithPrepend(SUMMARY_HEADER + SUMMARY_COUNTS + u + SUMMARY_MIDDLE + n, SUMMARY_BODY, SUMMARY_CLOSING);
    assert t[0] == SUMMARY_HEADER[0] == '#';
    assert t[|t| - 1] == SUMMARY_CLOSING[|SUMMARY_CLOSING| - 1] == '.';
    StripNoSpace(t);
  }

  /** The summary message `_compact` appends. */
  function SummaryMsg(text: string, now: string): Msg {
    Msg("assistant", Str(text), true, None, None, Some(now))
  }

  /** The resume prompt `_compact` appends after the summary. */
  function ResumeMsg(now: string): Msg {
    Msg("user", Str(RESUME_PROMPT), false, None, None, Some(now))
  }

  /** The summary message is a summary; the resume prompt is an ordinary user
      turn (it is not system-like). */
  lemma AppendedMessageKinds(text: string, now: string)
    ensures IsSummaryMessage(SummaryMsg(text, now)) && !IsSystemMessage(SummaryMsg(text, now))
    ensures IsUserTurn(ResumeMsg(now)) && !IsSummaryMessage(ResumeMsg(now))
  {
    assert RESUME_PROMPT[0] == 'U';
    UntaggedUserTurn(ResumeMsg(now));
  }

  /** The list `_compact` builds around a summary text: the system-like
      messages, then the summary and the resume prompt, then whatever
      followed the newest previous summary. */
  function Rebuilt(vs: seq<Msg>, text: string, now: string): (r: seq<Msg>)
  {
    var idx := FindLastSummaryIndex(vs);
    SystemMessages(vs) + [SummaryMsg(text, now), ResumeMsg(now)] + (if idx == -1 then [] else vs[idx + 1..])
  }

  /** `_compact` on message values: the rebuilt list around the generated
      summary when something is left to summarise, otherwise the list itself. */
  function CompactViews(vs: seq<Msg>, now: string): seq<Msg> {
    var ts := FilterSummarized(vs);
    if |ts| == 0 then vs else Rebuilt(vs, GenerateSummary(ts), now)
  }

  /** With no summary message, everything that is not system-like is
      summarised. */
  lemma {:induction false} FilterFirstTime(vs: seq<Msg>)
    requires forall j :: 0 <= j < |vs| ==> !IsSummaryMessage(vs[j])
    ensures FindLastSummaryIndex(vs) == -1
    ensures FilterSummarized(vs) == NonSystemMessages(vs)
  {
  }

  /** With no earlier summary, compaction keeps the system-like messages and
      replaces all others by the summary and the resume prompt; the summary
      counts the messages it replaced. */
  lemma {:induction false} CompactFirstTime(vs: seq<Msg>, now: string)
    requires forall j :: 0 <= j < |vs| ==> !IsSummaryMessage(vs[j])
    requires exists j :: 0 <= j < |vs| && !IsSystemMessage(vs[j])
    ensures CompactViews(vs, now)
      == SystemMessages(vs) + [SummaryMsg(GenerateSummary(NonSystemMessages(vs)), now), ResumeMsg(now)]
    ensures |CompactViews(vs, now)| == |vs| - |NonSystemMessages(vs)| + 2
  {
    FilterFirstTime(vs);
    FilterSummarizedEmpty(vs);
    SystemSplit(vs, []);
    var text := GenerateSummary(NonSystemMessages(vs));
    assert CompactViews(vs, now) == Rebuilt(vs, text, now);
  }

  /** With an earlier summary, compaction drops it and everything before it
      except the system-like messages, keeps what followed it, and
      summarises the dropped summary together with what followed. */
  lemma {:induction false} CompactAfterSummary(vs: seq<Msg>, now: string, k: nat)
    requires k < |vs| && FindLastSummaryIndex(vs) == k
    ensures CompactViews(vs, now)
      == SystemMessages(vs) + [SummaryMsg(GenerateSummary(vs[k..]), now), ResumeMsg(now)] + vs[k + 1..]
  {
    assert FilterSummarized(vs) == vs[k..];
    var text := GenerateSummary(vs[k..]);
    assert CompactViews(vs, now) == Rebuilt(vs, text, now);
  }

  /** In a rebuilt list the newest summary is the one just added, right
      after the system-like messages. */
  lemma {:induction false} RebuiltNewestSummary(vs: seq<Msg>, text: string, now: string)
    ensures FindLastSummaryIndex(Rebuilt(vs, text, now)) == |SystemMessages(vs)|
  {
    var idx := FindLastSummaryIndex(vs);
    var sm, rm := SummaryMsg(text, now), ResumeMsg(now);
    AppendedMessageKinds(text, now);
    if idx == -1 {
      assert Rebuilt(vs, text, now) == SystemMessages(vs) + [sm, rm] + [];
      NewestSummaryAt(SystemMessages(vs), sm, rm, []);
    } else {
      assert Rebuilt(vs, text, now) == SystemMessages(vs) + [sm, rm] + vs[idx + 1..];
      TailAfterNewestSummary(vs);
      NewestSummaryAt(SystemMessages(vs), sm, rm, vs[idx + 1..]);
    }
  }

  /** After a compaction that did something, the newest summary is the one
      just added, right after the system-like messages. */
  lemma {:induction false} CompactNewestSummary(vs: seq<Msg>, now: string)
    requires |FilterSummarized(vs)| > 0
    ensures FindLastSummaryIndex(CompactViews(vs, now)) == |SystemMessages(vs)|
  {
    var text := GenerateSummary(FilterSummarized(vs));
    RebuiltNewestSummary(vs, text, now);
  }

  /** What follows the newest summary holds no summary. */
  lemma {:induction false} TailAfterNewestSummary(vs: seq<Msg>)
    ensures var idx := FindLastSummaryIndex(vs);
      var tail := if idx == -1 then [] else vs[idx + 1..];
      forall j :: 0 <= j < |tail| ==> !IsSummaryMessage(tail[j])
  {
    var idx := FindLastSummaryIndex(vs);
    if idx != -1 {
      var tail := vs[idx + 1..];
      assert forall j :: 0 <= j < |tail| ==> tail[j] == vs[idx + 1 + j];
    }
  }

  /** A summary followed by a non-summary and a summary-free tail is the
      newest summary. */
  lemma {:induction false} NewestSummaryAt(sys: seq<Msg>, sm: Msg, rm: Msg, tail: seq<Msg>)
    requires IsSummaryMessage(sm) && !IsSummaryMessage(rm)
    requires forall j :: 0 <= j < |tail| ==> !IsSummaryMessage(tail[j])
    ensures FindLastSummaryIndex(sys + [sm, rm] + tail) == |sys|
  {
    var out := sys + [sm, rm] + tail;
    assert forall j :: |sys| + 2 <= j < |out| ==> out[j] == tail[j - |sys| - 2];
    LastSummaryUnique(out, |sys|);
  }

  /** The newest summary index is determined by the summary flags. */
  lemma {:induction false} LastSummaryUnique(vs: seq<Msg>, k: nat)
    requires k < |vs| && IsSummaryMessage(vs[k])
    requires forall j :: k < j < |vs| ==> !IsSummaryMessage(vs[j])
    ensures FindLastSummaryIndex(vs) == k
  {
  }

  /** Compacting a freshly compacted list again keeps the previous resume
      prompt and repeats the system-like messages that followed the older
      summary: the list grows by at least one message. */
  lemma {:induction false} CompactTwiceGrows(vs: seq<Msg>, now: string, later: string)
    requires |FilterSummarized(vs)| > 0
    ensures var once := CompactViews(vs, now);
      |CompactViews(once, later)| >= |once| + 1
  {
    var text := GenerateSummary(FilterSummarized(vs));
    var once := Rebuilt(vs, text, now);
    var sys := SystemMessages(vs);
    RebuiltLength(vs, text, now);
    RebuiltNewestSummary(vs, text, now);
    assert |FilterSummarized(once)| == |once| - |sys|;
    var text' := GenerateSummary(FilterSummarized(once));
    RebuiltLength(once, text', later);
    RebuiltKeepsSystems(vs, text, now);
  }

  /** A rebuilt list still holds every system-like message of the list it
      was built from. */
  lemma {:induction false} RebuiltKeepsSystems(vs: seq<Msg>, text: string, now: string)
    ensures |SystemMessages(Rebuilt(vs, text, now))| >= |SystemMessages(vs)|
  {
    var sys := SystemMessages(vs);
    var idx := FindLastSummaryIndex(vs);
    var rest := [SummaryMsg(text, now), ResumeMsg(now)] + (if idx == -1 then [] else vs[idx + 1..]);
    assert Rebuilt(vs, text, now) == sys + rest;
    SystemSplit(sys, rest);
    SystemIdempotent(vs);
  }

  /** The length of a rebuilt list. */
  lemma {:induction false} RebuiltLength(vs: seq<Msg>, text: string, now: string)
    ensures var idx := FindLastSummaryIndex(vs);
      |Rebuilt(vs, text, now)| == |SystemMessages(vs)| + 2 + (if idx == -1 then 0 else |vs| - idx - 1)
  {
    var idx := FindLastSummaryIndex(vs);
    if idx == -1 {
      assert Rebuilt(vs, text, now) == SystemMessages(vs) + [SummaryMsg(text, now), ResumeMsg(now)] + [];
    } else {
      assert Rebuilt(vs, text, now) == SystemMessages(vs) + [SummaryMsg(text, now), ResumeMsg(now)] + vs[idx + 1..];
    }
  }

  /** Filtering the system-like messages twice is filtering once. */
  lemma {:induction false} SystemIdempotent(vs: seq<Msg>)
    ensures SystemMessages(SystemMessages(vs)) == SystemMessages(vs)
  {
    if vs != [] {
      var init := vs[..|vs| - 1];
      var last := vs[|vs| - 1];
      SystemIdempotent(init);
      assert vs[..|vs| - 1] == init;
      if IsSystemMessage(last) {
        assert SystemMessages(vs) == SystemMessages(init) + [last];
        SystemSplit(SystemMessages(init), [last]);
        assert [last][..0] == [];
        assert SystemMessages([last]) == [last];
      } else {
        assert SystemMessages(vs) == SystemMessages(init);
      }
    }
  }

  /** Filtering a list of system-like messages keeps it whole. */
  lemma {:induction false} SystemsOnly(vs: seq<Msg>)
    requires forall j :: 0 <= j < |vs| ==> IsSystemMessage(vs[j])
    ensures SystemMessages(vs) == vs
  {
    if vs != [] {
      SystemsOnly(vs[..|vs| - 1]);
    }
  }

  /** The token total `compact` computes over the rebuilt list. */
  function TotalTokens(vs: seq<Msg>): (r: nat)
    ensures vs == [] ==> r == 0
  {
    if vs == [] then 0 else TotalTokens(vs[..|vs| - 1]) + EstimateTokens(ExtractText(vs[|vs| - 1]))
  }

  /** `1 - final / initial`, or 0 for no initial tokens. */
  function CompressionRatio(initial: int, final: int): (r: real)
    ensures initial > 0 && 0 <= final <= initial ==> 0.0 <= r <= 1.0
    ensures initial > 0 ==> (r == 0.0 <==> final == initial)
  {
    if initial > 0 then
      var q := (final as real) / (initial as real);
      assert q * (initial as real) == final as real;
      assert final == initial ==> q == 1.0;
      1.0 - q
    else 0.0
  }

  /** The system-like dicts of a list, in order. */
  function SystemDicts(ms: seq<MessageDict>): (r: seq<MessageDict>)
    reads ms
    ensures forall j :: 0 <= j < |r| ==> r[j] in ms
  {
    if ms == [] then []
    else SystemDicts(ms[..|ms| - 1]) + (if IsSystemMessage(ms[|ms| - 1].View()) then [ms[|ms| - 1]] else [])
  }

  /** The system-like dicts hold exactly the system-like values. */
  lemma {:induction false} SystemDictsViews(ms: seq<MessageDict>)
    ensures Views(SystemDicts(ms)) == SystemMessages(Views(ms))
  {
    if ms != [] {
      var n := |ms| - 1;
      var init, last := ms[..n], ms[n];
      var vs := Views(ms);
      var extra := if IsSystemMessage(last.View()) then [last] else [];
      var extraViews := if IsSystemMessage(vs[n]) then [vs[n]] else [];
      assert SystemDicts(ms) == SystemDicts(init) + extra;
      assert SystemMessages(vs) == SystemMessages(vs[..n]) + extraViews;
      SystemDictsViews(init);
      ViewsAppend(SystemDicts(init), extra);
      ViewsPrefix(ms, n);
      assert Views(extra) == extraViews;
    }
  }

  /** The list `_compact` builds around freshly made summary and resume
      dicts: the system-like dicts and those after the newest summary are the
      caller's own objects. */
  function Rebuild(ms: seq<MessageDict>, summary: MessageDict, resume: MessageDict): (r: seq<MessageDict>)
    reads ms, summary, resume
  {
    var idx := FindLastSummaryIndex(Views(ms));
    SystemDicts(ms) + [summary, resume] + (if idx == -1 then [] else ms[idx + 1..])
  }

  /** The dicts `_compact` returns hold exactly the values `Rebuilt`
      describes. */
  lemma {:induction false} RebuildViews(ms: seq<MessageDict>, summary: MessageDict, resume: MessageDict,
                                        text: string, now: string)
    requires summary.View() == SummaryMsg(text, now)
    requires resume.View() == ResumeMsg(now)
    ensures Views(Rebuild(ms, summary, resume)) == Rebuilt(Views(ms), text, now)
  {
    var vs := Views(ms);
    var idx := FindLastSummaryIndex(vs);
    var tail := if idx == -1 then [] else vs[idx + 1..];
    RebuildPieces(ms, summary, resume);
    assert Rebuilt(vs, text, now) == SystemMessages(vs) + [SummaryMsg(text, now), ResumeMsg(now)] + tail;
  }

  /** The values of the rebuilt dicts, piece by piece. */
  lemma {:induction false} RebuildPieces(ms: seq<MessageDict>, summary: MessageDict, resume: MessageDict)
    ensures var vs := Views(ms);
      var idx := FindLastSummaryIndex(vs);
      Views(Rebuild(ms, summary, resume))
      == SystemMessages(vs) + [summary.View(), resume.View()] + (if idx == -1 then [] else vs[idx + 1..])
  {
    var vs := Views(ms);
    var idx := FindLastSummaryIndex(vs);
    var sys, mid := SystemDicts(ms), [summary, resume];
    SystemDictsViews(ms);
    ViewsPair(summary, resume);
    if idx == -1 {
      assert Rebuild(ms, summary, resume) == sys + mid + [];
      ViewsOfThree(sys, mid, [], SystemMessages(vs), [summary.View(), resume.View()], []);
    } else {
      assert Rebuild(ms, summary, resume) == sys + mid + ms[idx + 1..];
      ViewsSuffix(ms, idx + 1);
      ViewsOfThree(sys, mid, ms[idx + 1..], SystemMessages(vs), [summary.View(), resume.View()], vs[idx + 1..]);
    }
  }

  /** `_compact`: the rebuilt list of dicts, sharing the caller's system-like
      dicts and those after the newest summary, with freshly made summary and
      resume dicts; the input list itself when nothing is left to summarise. */
  method CompactMessages(messages: seq<MessageDict>, now: string) returns (compacted: seq<MessageDict>)
    ensures Views(compacted) == CompactViews(Views(messages), now)
  {
    var vs := Views(messages);
    var toSummarize := FilterSummarized(vs);
    if |toSummarize| == 0 {
      compacted := messages;
    } else {
      var text := GenerateSummary(toSummarize);
      assert CompactViews(vs, now) == Rebuilt(vs, text, now);
      var summary := new MessageDict(SummaryMsg(text, now));
      var resume := new MessageDict(ResumeMsg(now));
      assert Views(messages) == vs;
      compacted := Rebuild(messages, summary, resume);
      RebuildViews(messages, summary, resume, text, now);
    }
  }

  /** `compact`: prunes the caller's dicts in place, then rebuilds the list
      and reports counts and ratios; an exception from the prune pass becomes
      a failed result over the caller's (already partly pruned) list. */
  method Compact(s: OpenCodeStrategy, ctx: CompactionContext, now: string) returns (res: CompactResult)
    requires ToolDictsDistinct(ctx.messages)
    modifies ctx.messages
    ensures Views(ctx.messages) == PruneSpec(old(Views(ctx.messages)), s, now).0
    ensures var pr := PruneSpec(old(Views(ctx.messages)), s, now).1;
      pr.Err? ==> res == CompactResult(false, ctx.messages, 0, 0, STRATEGY_NAME, None, None, Some(pr.error))
    ensures var pr := PruneSpec(old(Views(ctx.messages)), s, now).1;
      pr.Ok? ==>
        var out := CompactViews(Views(ctx.messages), now);
        res.success && Views(res.newMessages) == out
        && res.removedCount == |ctx.messages| - |out|
        && res.tokensSaved == ctx.currentTokens - TotalTokens(out)
        && res.strategyName == STRATEGY_NAME
        && res.pruneCount == Some(pr.value.prunedCount)
        && res.compressionRatio == Some(CompressionRatio(ctx.currentTokens, TotalTokens(out)))
        && res.error == None
  {
    var messages := ctx.messages;
    var pruned := Prune(messages, s, now);
    if pruned.Err? {
      return CompactResult(false, ctx.messages, 0, 0, STRATEGY_NAME, None, None, Some(pruned.error));
    }
    var compacted := CompactMessages(messages, now);
    var finalTokens := TotalTokens(Views(compacted));
    res := CompactResult(true, compacted, |ctx.messages| - |compacted|, ctx.currentTokens - finalTokens,
                         STRATEGY_NAME, Some(pruned.value.prunedCount),
                         Some(CompressionRatio(ctx.currentTokens, finalTokens)), None);
  }

  /** `get_metadata`. */
  function GetMetadata(): (m: StrategyMetadata)
    ensures m.name == STRATEGY_NAME && m.author == "Creative Agent Team"
  {
    StrategyMetadata(STRATEGY_NAME, "1.0.0", "OpenCode双层压缩策略：Prune清理工具输出 + Compact生成摘要", "Creative Agent Team")
  }
}
