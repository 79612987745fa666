/** `MemoryManager`: the session's message history in memory, mirrored line
    by line into its rollout file. File contents, the clock and the prompt
    sources are parameters. */
module Memory {
  import opened Wrappers
  import opened Values
  import opened CompactionUtils
  import opened MemoryModels
  import opened Rollout

  /** `_build_system_prompt`: the base prompt, then the user instructions,
      the project documents and the environment section, each when present
      and non-empty, every addition after a blank line. */
  function BuildSystemPrompt(base: string, userInstructions: Option<string>, projectDocs: Option<string>,
                             envInfo: Option<string>): (p: string)
  {
    var withUser := if userInstructions.Some? && userInstructions.value != "" then
                      base + "\n\n用户指令:\n" + userInstructions.value else base;
    var withDocs := if projectDocs.Some? && projectDocs.value != "" then withUser + "\n\n" + projectDocs.value
                    else withUser;
    if envInfo.Some? then withDocs + "\n\n" + envInfo.value else withDocs
  }

  /** The prompt starts with the base prompt, and it is empty (so no system
      message is added) exactly when the base prompt is empty and nothing is
      added to it. */
  lemma BuildSystemPromptEmpty(base: string, userInstructions: Option<string>, projectDocs: Option<string>,
                               envInfo: Option<string>)
    ensures var p := BuildSystemPrompt(base, userInstructions, projectDocs, envInfo);
      |base| <= |p| && p[..|base|] == base
    ensures BuildSystemPrompt(base, userInstructions, projectDocs, envInfo) == "" <==>
      base == "" && (userInstructions.None? || userInstructions.value == "")
      && (projectDocs.None? || projectDocs.value == "") && envInfo.None?
  {
    var p := BuildSystemPrompt(base, userInstructions, projectDocs, envInfo);
    var withUser := if userInstructions.Some? && userInstructions.value != "" then
                      base + "\n\n用户指令:\n" + userInstructions.value else base;
    var withDocs := if projectDocs.Some? && projectDocs.value != "" then withUser + "\n\n" + projectDocs.value
                    else withUser;
    assert withUser[..|base|] == base;
    assert withDocs[..|withUser|] == withUser;
    assert p[..|withDocs|] == withDocs;
  }

  /** A message as the `add_*` methods build it: stamped `now`, with empty
      metadata. */
  function NewMessage(role: string, content: string, now: string, toolCalls: Value, toolCallId: Option<string>)
    : MemoryMessage
  {
    MemoryMessage(role, content, now, toolCalls, toolCallId, map[])
  }

  /** `get_messages`' filter: system messages dropped when asked, and
      compressed summaries (a truthy "compressed" metadata entry) dropped
      when asked. */
  predicate Kept(m: MemoryMessage, filterSystem: bool, filterCompressed: bool) {
    !(filterSystem && m.role == "system")
    && !(filterCompressed && "compressed" in m.metadata && Truthy(m.metadata["compressed"]))
  }

  function Filtered(ms: seq<MemoryMessage>, filterSystem: bool, filterCompressed: bool): seq<MemoryMessage> {
    if ms == [] then []
    else Filtered(ms[..|ms| - 1], filterSystem, filterCompressed)
         + (if Kept(ms[|ms| - 1], filterSystem, filterCompressed) then [ms[|ms| - 1]] else [])
  }

  /** The filter keeps exactly the wanted messages: every element of the
      result is kept, and every kept message is in it. */
  lemma {:induction false} FilteredKeeps(ms: seq<MemoryMessage>, filterSystem: bool, filterCompressed: bool)
    ensures var r := Filtered(ms, filterSystem, filterCompressed);
      forall m :: m in r <==> m in ms && Kept(m, filterSystem, filterCompressed)
    ensures |Filtered(ms, filterSystem, filterCompressed)| <= |ms|
    ensures (!filterSystem && !filterCompressed) ==> Filtered(ms, filterSystem, filterCompressed) == ms
  {
    if ms != [] {
      FilteredKeeps(ms[..|ms| - 1], filterSystem, filterCompressed);
      assert ms == ms[..|ms| - 1] + [ms[|ms| - 1]];
    }
  }

  /** The filter keeps the messages in their order: filtering a
      concatenation filters each part and concatenates the results. */
  lemma {:induction false} FilteredInOrder(a: seq<MemoryMessage>, b: seq<MemoryMessage>,
                                           filterSystem: bool, filterCompressed: bool)
    ensures Filtered(a + b, filterSystem, filterCompressed)
            == Filtered(a, filterSystem, filterCompressed) + Filtered(b, filterSystem, filterCompressed)
  {
    if b != [] {
      var b' := b[..|b| - 1];
      FilteredInOrder(a, b', filterSystem, filterCompressed);
      assert (a + b)[..|a + b| - 1] == a + b';
      assert (a + b)[|a + b| - 1] == b[|b| - 1];
    } else {
      assert a + b == a;
    }
  }

  /** How many messages have the role. */
  function CountRole(ms: seq<MemoryMessage>, role: string): (n: nat)
    ensures n <= |ms|
  {
    if ms == [] then 0 else CountRole(ms[..|ms| - 1], role) + (if ms[|ms| - 1].role == role then 1 else 0)
  }

  /** Σ `estimate_tokens(content)`. */
  function TokensOf(ms: seq<MemoryMessage>): nat {
    if ms == [] then 0 else TokensOf(ms[..|ms| - 1]) + EstimateTokens(ms[|ms| - 1].content)
  }

  /** The four roles `get_stats` counts. */
  predicate KnownRole(role: string) {
    role == "user" || role == "assistant" || role == "system" || role == "tool"
  }

  /** When every role is one of the four, the per-role counts add up to the
      message count. */
  lemma {:induction false} RoleCountsSum(ms: seq<MemoryMessage>)
    requires forall i :: 0 <= i < |ms| ==> KnownRole(ms[i].role)
    ensures CountRole(ms, "user") + CountRole(ms, "assistant") + CountRole(ms, "system") + CountRole(ms, "tool") == |ms|
  {
    if ms != [] {
      RoleCountsSum(ms[..|ms| - 1]);
    }
  }

  /** `get_stats`. */
  datatype Stats = Stats(
    sessionId: string,
    totalMessages: nat,
    userMessages: nat,
    assistantMessages: nat,
    systemMessages: nat,
    toolMessages: nat,
    estimatedTokens: nat,
    rolloutPath: string,
    cwd: string,
    model: string)

  /** One more message adds one to the total and to its role's count and
      its estimate to the tokens. */
  lemma StatsOfAppend(ms: seq<MemoryMessage>, m: MemoryMessage, role: string)
    ensures CountRole(ms + [m], role) == CountRole(ms, role) + (if m.role == role then 1 else 0)
    ensures TokensOf(ms + [m]) == TokensOf(ms) + EstimateTokens(m.content)
  {
    assert (ms + [m])[..|ms|] == ms;
  }

  /** The lines `replace_messages(persist=True)` writes, one per message. */
  function MessageLines(ms: seq<MemoryMessage>, now: string): (ls: seq<RolloutLine>)
    ensures |ls| == |ms| && forall i :: 0 <= i < |ms| ==> ls[i] == RolloutLine(now, MessageRecord(ms[i]))
  {
    seq(|ms|, i requires 0 <= i < |ms| => RolloutLine(now, MessageRecord(ms[i])))
  }

  lemma MessageLinesStep(ms: seq<MemoryMessage>, i: nat, now: string)
    requires i < |ms|
    ensures MessageLines(ms[..i + 1], now) == MessageLines(ms[..i], now) + [RolloutLine(now, MessageRecord(ms[i]))]
  {
    assert MessageLines(ms[..i + 1], now) == MessageLines(ms[..i], now) + [RolloutLine(now, MessageRecord(ms[i]))];
  }

  lemma {:induction false} ApplyAllAppend(st: Replay, a: seq<RolloutLine>, b: seq<RolloutLine>)
    ensures ApplyAll(st, a + b) == ApplyAll(ApplyAll(st, a), b)
  {
    if b == [] {
      assert a + b == a;
    } else {
      ApplyAllAppend(st, a, b[..|b| - 1]);
      assert (a + b)[..|a + b| - 1] == a + b[..|b| - 1];
      assert (a + b)[|a + b| - 1] == b[|b| - 1];
    }
  }

  /** Replaying message lines appends their messages. */
  lemma {:induction false} ApplyAllMessages(st: Replay, ms: seq<MemoryMessage>, now: string)
    ensures ApplyAll(st, MessageLines(ms, now)) == st.(messages := st.messages + ms)
  {
    if ms != [] {
      var n := |ms|;
      ApplyAllMessages(st, ms[..n - 1], now);
      assert MessageLines(ms, now)[..n - 1] == MessageLines(ms[..n - 1], now);
      assert ms[..n - 1] + [ms[n - 1]] == ms;
    }
  }

  /** The text of the lines, one per record. */
  lemma EncodeAllAppend(a: seq<RolloutLine>, b: seq<RolloutLine>, codec: Codec)
    ensures EncodeAll(a + b, codec) == EncodeAll(a, codec) + EncodeAll(b, codec)
  {
  }

  /** Writing one more record extends the file by its line. */
  lemma JournalStep(preamble: seq<string>, journal: seq<RolloutLine>, line: RolloutLine, codec: Codec)
    ensures preamble + EncodeAll(journal + [line], codec) == preamble + EncodeAll(journal, codec) + [Encode(line, codec)]
  {
    EncodeAllAppend(journal, [line], codec);
    AppendAssoc(preamble, EncodeAll(journal, codec), [Encode(line, codec)]);
  }

  /** A journal holding only the header line replays to the header and no
      messages. */
  lemma StartMirrors(meta: SessionMeta, now: string)
    ensures ApplyAll(Replay(None, []), [RolloutLine(now, MetaRecord(meta))]) == Replay(Some(meta), [])
  {
    assert [RolloutLine(now, MetaRecord(meta))][..0] == [];
  }

  class MemoryManager {
    const sessionId: string
    const cwd: string
    const model: string
    const rolloutPath: string
    const recorder: RolloutRecorder
    var messages: seq<MemoryMessage>

    /** The lines the file held before this instance wrote to it, the
        records it wrote since, and the session header. */
    ghost var preamble: seq<string>
    ghost var journal: seq<RolloutLine>
    ghost var header: SessionMeta

    /** The rollout file holds the earlier lines, then the journal's. */
    ghost predicate Valid()
      reads this, recorder
    {
      recorder.lines == preamble + EncodeAll(journal, recorder.codec)
    }

    /** Replaying the journal gives the header and the messages held. */
    ghost predicate Mirrors()
      reads this
    {
      ApplyAll(Replay(None, []), journal) == Replay(Some(header), messages)
    }

    /** `__init__` with `_initialize_session`: a new rollout file named
        after `stamp` (the clock as `%Y%m%d-%H%M%S`) and the session id, a
        session_meta line, then the system prompt as the first message when
        it is non-empty. */
    constructor (sessionDir: string, sessionId: string, cwd: string, model: string, codec: Codec, stamp: string,
                 now: string, basePrompt: string, userInstructions: Option<string>, autoLoadProjectDocs: bool,
                 projectDocs: Option<string>, envInfo: Option<string>)
      ensures Valid() && Mirrors() && preamble == []
      ensures this.sessionId == sessionId && this.cwd == cwd && this.model == model
      ensures rolloutPath == sessionDir + "/rollout-" + stamp + "-" + sessionId + ".jsonl"
      ensures var docs := if autoLoadProjectDocs then projectDocs else None;
        var prompt := BuildSystemPrompt(basePrompt, userInstructions, docs, envInfo);
        header == SessionMeta(sessionId, now, cwd, model, userInstructions, docs)
        && messages == (if prompt != "" then [NewMessage("system", prompt, now, Null, None)] else [])
      ensures fresh(recorder) && recorder.codec == codec
    {
      this.sessionId, this.cwd, this.model := sessionId, cwd, model;
      var path := sessionDir + "/rollout-" + stamp + "-" + sessionId + ".jsonl";
      rolloutPath := path;
      recorder := new RolloutRecorder(path, sessionId, codec, []);
      messages := [];
      var docs := if autoLoadProjectDocs then projectDocs else None;
      var prompt := BuildSystemPrompt(basePrompt, userInstructions, docs, envInfo);
      var meta := SessionMeta(sessionId, now, cwd, model, userInstructions, docs);
      header := meta;
      preamble, journal := [], [];
      new;
      recorder.WriteSessionMeta(meta, now);
      JournalStep([], [], RolloutLine(now, MetaRecord(meta)), codec);
      journal := [RolloutLine(now, MetaRecord(meta))];
      StartMirrors(meta, now);
      if prompt != "" {
        var _ := AddSystemMessage(prompt, now);
      }
    }

    /** `resume_session`: the history `load_history` reads from the file,
        the header's id, cwd and model, and a recorder appending to the same
        file. */
    static method ResumeSession(rolloutPath: string, file: Option<seq<string>>, codec: Codec, clock: Clock)
      returns (r: Result<MemoryManager>)
      ensures var loaded := Loaded(rolloutPath, file, codec, clock);
        (r.Ok? <==> loaded.Ok?)
        && (r.Ok? ==> r.value.messages == loaded.value.1 && r.value.sessionId == loaded.value.0.sessionId
                      && r.value.cwd == loaded.value.0.cwd && r.value.model == loaded.value.0.model
                      && r.value.rolloutPath == rolloutPath && r.value.recorder.lines == file.value
                      && r.value.Valid() && fresh(r.value) && fresh(r.value.recorder))
    {
      var loaded := LoadHistory(rolloutPath, file, codec, clock);
      if loaded.Err? {
        return Err(loaded.error);
      }
      var m := new MemoryManager.Restore(rolloutPath, loaded.value.0, loaded.value.1, codec, file.value);
      return Ok(m);
    }

    /** The instance `resume_session` builds without `__init__`. */
    constructor Restore(rolloutPath: string, meta: SessionMeta, messages: seq<MemoryMessage>, codec: Codec,
                        lines: seq<string>)
      ensures Valid() && this.rolloutPath == rolloutPath && this.messages == messages && header == meta
      ensures sessionId == meta.sessionId && cwd == meta.cwd && model == meta.model
      ensures fresh(recorder) && recorder.lines == lines && recorder.codec == codec
    {
      this.rolloutPath, sessionId, cwd, model := rolloutPath, meta.sessionId, meta.cwd, meta.model;
      this.messages := messages;
      header := meta;
      preamble, journal := lines, [];
      recorder := new RolloutRecorder(rolloutPath, meta.sessionId, codec, lines);
    }

    /** `add_message`: appends the message and writes it to the file. */
    method AddMessage(message: MemoryMessage, now: string)
      requires Valid()
      modifies this, recorder
      ensures Valid()
      ensures messages == old(messages) + [message]
      ensures journal == old(journal) + [RolloutLine(now, MessageRecord(message))]
      ensures recorder.lines == old(recorder.lines) + [Encode(RolloutLine(now, MessageRecord(message)), recorder.codec)]
      ensures header == old(header) && preamble == old(preamble)
      ensures old(Mirrors()) ==> Mirrors()
    {
      messages := messages + [message];
      recorder.WriteMessage(message, now);
      JournalStep(preamble, journal, RolloutLine(now, MessageRecord(message)), recorder.codec);
      journal := journal + [RolloutLine(now, MessageRecord(message))];
    }

    /** `add_system_message`. */
    method AddSystemMessage(content: string, now: string) returns (m: MemoryMessage)
      requires Valid()
      modifies this, recorder
      ensures Valid() && m == NewMessage("system", content, now, Null, None)
      ensures messages == old(messages) + [m] && journal == old(journal) + [RolloutLine(now, MessageRecord(m))]
      ensures header == old(header) && preamble == old(preamble)
      ensures old(Mirrors()) ==> Mirrors()
    {
      m := NewMessage("system", content, now, Null, None);
      AddMessage(m, now);
    }

    /** `add_user_message`. */
    method AddUserMessage(content: string, now: string) returns (m: MemoryMessage)
      requires Valid()
      modifies this, recorder
      ensures Valid() && m == NewMessage("user", content, now, Null, None)
      ensures messages == old(messages) + [m] && journal == old(journal) + [RolloutLine(now, MessageRecord(m))]
      ensures header == old(header) && preamble == old(preamble)
      ensures old(Mirrors()) ==> Mirrors()
    {
      m := NewMessage("user", content, now, Null, None);
      AddMessage(m, now);
    }

    /** `add_assistant_message`: `toolCalls` is `Null` when none are
        given. */
    method AddAssistantMessage(content: string, toolCalls: Value, now: string) returns (m: MemoryMessage)
      requires Valid()
      modifies this, recorder
      ensures Valid() && m == NewMessage("assistant", content, now, toolCalls, None)
      ensures messages == old(messages) + [m] && journal == old(journal) + [RolloutLine(now, MessageRecord(m))]
      ensures header == old(header) && preamble == old(preamble)
      ensures old(Mirrors()) ==> Mirrors()
    {
      m := NewMessage("assistant", content, now, toolCalls, None);
      AddMessage(m, now);
    }

    /** `add_tool_message`. */
    method AddToolMessage(content: string, toolCallId: string, now: string) returns (m: MemoryMessage)
      requires Valid()
      modifies this, recorder
      ensures Valid() && m == NewMessage("tool", content, now, Null, Some(toolCallId))
      ensures messages == old(messages) + [m] && journal == old(journal) + [RolloutLine(now, MessageRecord(m))]
      ensures header == old(header) && preamble == old(preamble)
      ensures old(Mirrors()) ==> Mirrors()
    {
      m := NewMessage("tool", content, now, Null, Some(toolCallId));
      AddMessage(m, now);
    }

    /** `get_messages`. */
    function GetMessages(filterSystem: bool, filterCompressed: bool): seq<MemoryMessage>
      reads this
    {
      Filtered(messages, filterSystem, filterCompressed)
    }

    /** `replace_messages`: the held history becomes `ms`; with `persist`
        every message is written again, after what the file already
        holds. */
    method ReplaceMessages(ms: seq<MemoryMessage>, persist: bool, now: string)
      requires Valid()
      modifies this, recorder
      ensures Valid() && messages == ms && header == old(header) && preamble == old(preamble)
      ensures journal == old(journal) + (if persist then MessageLines(ms, now) else [])
    {
      messages := ms;
      if persist {
        ghost var start := journal;
        for i := 0 to |ms|
          invariant Valid() && messages == ms && header == old(header) && preamble == old(preamble)
          invariant journal == start + MessageLines(ms[..i], now)
        {
          var line := RolloutLine(now, MessageRecord(ms[i]));
          recorder.WriteMessage(ms[i], now);
          JournalStep(preamble, journal, line, recorder.codec);
          MessageLinesStep(ms, i, now);
          AppendAssoc(start, MessageLines(ms[..i], now), [line]);
          journal := journal + [line];
        }
        assert ms[..|ms|] == ms;
      }
    }

    /** `record_compaction`: one marker line; the held messages do not
        change. */
    method RecordCompaction(summary: string, originalCount: int, tokensSaved: int, strategy: string, now: string)
      requires Valid()
      modifies this, recorder
      ensures Valid() && messages == old(messages) && header == old(header) && preamble == old(preamble)
      ensures journal == old(journal) + [RolloutLine(now, MarkerRecord(CompactedMarker(summary, originalCount, tokensSaved, strategy)))]
    {
      var line := RolloutLine(now, MarkerRecord(CompactedMarker(summary, originalCount, tokensSaved, strategy)));
      recorder.WriteCompactedMarker(line.data.marker, now);
      JournalStep(preamble, journal, line, recorder.codec);
      journal := journal + [line];
    }

    /** `get_context_for_llm`: one dict per held message, in order. */
    function GetContextForLlm(): (r: seq<map<string, Value>>)
      reads this
      ensures |r| == |messages| && forall i :: 0 <= i < |messages| ==> r[i] == MessageToDict(messages[i])
    {
      seq(|messages|, i reads this requires 0 <= i < |messages| => MessageToDict(messages[i]))
    }

    /** `get_stats`. */
    function GetStats(): Stats
      reads this
    {
      Stats(sessionId, |messages|, CountRole(messages, "user"), CountRole(messages, "assistant"),
            CountRole(messages, "system"), CountRole(messages, "tool"), TokensOf(messages), rolloutPath, cwd, model)
    }
  }

  /** Resuming a session whose file was written only by the constructor and
      the `add_*` methods gives back the header and exactly the messages
      held, provided every written line reads back as itself. */
  lemma ResumeRestoresMessages(m: MemoryManager, clock: Clock)
    requires m.Valid() && m.Mirrors() && m.preamble == []
    requires forall i :: 0 <= i < |m.journal| ==> Recoverable(m.journal[i], m.recorder.codec, clock)
    ensures Loaded(m.rolloutPath, Some(m.recorder.lines), m.recorder.codec, clock) == Ok((m.header, m.messages))
  {
    assert m.recorder.lines == EncodeAll(m.journal, m.recorder.codec);
    WrittenLinesReplay(m.journal, m.recorder.codec, clock);
  }

  /** `replace_messages(persist=True)` writes the new list after the old
      one, so resuming yields the old messages followed by the new ones,
      not the replacement alone. */
  lemma ReplacePersistReplays(st: Replay, journal: seq<RolloutLine>, ms: seq<MemoryMessage>, now: string)
    requires ApplyAll(Replay(None, []), journal) == st
    ensures ApplyAll(Replay(None, []), journal + MessageLines(ms, now)).messages == st.messages + ms
  {
    ApplyAllAppend(Replay(None, []), journal, MessageLines(ms, now));
    ApplyAllMessages(st, ms, now);
  }
}
