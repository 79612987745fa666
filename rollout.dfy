/** The rollout file: one JSON line per session header, message or
    compaction marker, appended as the session goes; replayed to resume a
    session; its first lines list the stored sessions. A file is the list of
    its lines; a missing file is None. */
module Rollout {
  import opened Wrappers
  import opened Values
  import opened Text
  import opened MemoryModels

  /** The text `_append_line` writes for a line (before its newline). */
  function Encode(l: RolloutLine, codec: Codec): string {
    codec.dumps(Dict(LineToDict(l)))
  }

  /** `RolloutRecorder`. The file at `rolloutPath` holds `lines`; writing
      appends to it. */
  class RolloutRecorder {
    const rolloutPath: string
    const sessionId: string
    const codec: Codec
    var lines: seq<string>

    /** Opening a recorder on a path keeps what the file already holds. */
    constructor (rolloutPath: string, sessionId: string, codec: Codec, existing: seq<string>)
      ensures this.rolloutPath == rolloutPath && this.sessionId == sessionId && this.codec == codec
      ensures lines == existing
    {
      this.rolloutPath, this.sessionId, this.codec := rolloutPath, sessionId, codec;
      lines := existing;
    }

    /** `_append_line`. */
    method AppendLine(l: RolloutLine)
      modifies this
      ensures lines == old(lines) + [Encode(l, codec)]
    {
      lines := lines + [Encode(l, codec)];
    }

    /** `write_session_meta`: one session_meta line stamped `now`. */
    method WriteSessionMeta(meta: SessionMeta, now: string)
      modifies this
      ensures lines == old(lines) + [Encode(RolloutLine(now, MetaRecord(meta)), codec)]
    {
      AppendLine(RolloutLine(now, MetaRecord(meta)));
    }

    /** `write_message`: one message line stamped `now`. */
    method WriteMessage(message: MemoryMessage, now: string)
      modifies this
      ensures lines == old(lines) + [Encode(RolloutLine(now, MessageRecord(message)), codec)]
    {
      AppendLine(RolloutLine(now, MessageRecord(message)));
    }

    /** `write_compacted_marker`: one compacted line stamped `now`. */
    method WriteCompactedMarker(marker: CompactedMarker, now: string)
      modifies this
      ensures lines == old(lines) + [Encode(RolloutLine(now, MarkerRecord(marker)), codec)]
    {
      AppendLine(RolloutLine(now, MarkerRecord(marker)));
    }
  }

  /** What `load_history` has gathered so far. */
  datatype Replay = Replay(meta: Option<SessionMeta>, messages: seq<MemoryMessage>)

  /** The messages of role "system", in order. */
  function SystemOnly(ms: seq<MemoryMessage>): (r: seq<MemoryMessage>)
    ensures |r| <= |ms|
  {
    if ms == [] then []
    else (if ms[0].role == "system" then [ms[0]] else []) + SystemOnly(ms[1..])
  }

  /** Exactly the system messages are kept. */
  lemma {:induction false} SystemOnlyKeeps(ms: seq<MemoryMessage>)
    ensures forall m :: m in SystemOnly(ms) <==> m in ms && m.role == "system"
  {
    if ms != [] {
      SystemOnlyKeeps(ms[1..]);
      assert ms == [ms[0]] + ms[1..];
    }
  }

  /** The system message standing for the compacted history. */
  function SummaryMessage(c: CompactedMarker, timestamp: string): (m: MemoryMessage)
    ensures m.metadata.Keys == {"compressed", "original_count", "tokens_saved", "strategy"}
    ensures m.role == "system" && m.metadata["compressed"] == Bool(true)
    ensures m.metadata["original_count"] == Int(c.originalCount)
    ensures m.metadata["tokens_saved"] == Int(c.tokensSaved) && m.metadata["strategy"] == Str(c.strategy)
    ensures EndsWith(m.content, c.summary)
  {
    var content := "[压缩摘要 - 原 " + IntToString(c.originalCount) + " 条消息]\n" + c.summary;
    assert content[|content| - |c.summary|..] == c.summary;
    MemoryMessage("system", content, timestamp, Null, None,
                  map["compressed" := Bool(true), "original_count" := Int(c.originalCount),
                      "tokens_saved" := Int(c.tokensSaved), "strategy" := Str(c.strategy)])
  }

  /** One parsed line's effect: a header replaces the header, a message is
      appended, a marker keeps only the system messages and adds the
      summary. */
  function Apply(st: Replay, l: RolloutLine): Replay {
    match l.data
    case MetaRecord(s) => st.(meta := Some(s))
    case MessageRecord(m) => st.(messages := st.messages + [m])
    case MarkerRecord(c) => st.(messages := SystemOnly(st.messages) + [SummaryMessage(c, l.timestamp)])
  }

  /** A line of the file as `load_history` reads it: blank, undecodable and
      malformed lines are None. */
  function ParseLine(text: string, codec: Codec, clock: Clock): Option<RolloutLine> {
    var t := Strip(text);
    if t == "" then None
    else match codec.loads(t)
      case Ok(Dict(d)) =>
        (match LineFromDict(d, clock)
         case Ok(l) => Some(l)
         case Err(_) => None)
      case _ => None
  }

  /** Every line of the file, parsed. */
  function ParseAll(lines: seq<string>, codec: Codec, clock: Clock): (ps: seq<Option<RolloutLine>>)
    ensures |ps| == |lines| && forall i :: 0 <= i < |lines| ==> ps[i] == ParseLine(lines[i], codec, clock)
  {
    seq(|lines|, i requires 0 <= i < |lines| => ParseLine(lines[i], codec, clock))
  }

  /** The state after the first `n` parsed lines. */
  function ReplayUpTo(ps: seq<Option<RolloutLine>>, n: nat): Replay
    requires n <= |ps|
  {
    if n == 0 then Replay(None, [])
    else
      var st := ReplayUpTo(ps, n - 1);
      if ps[n - 1].Some? then Apply(st, ps[n - 1].value) else st
  }

  /** `load_history`'s answer for the file at `path`. */
  function Loaded(path: string, file: Option<seq<string>>, codec: Codec, clock: Clock)
    : (r: Result<(SessionMeta, seq<MemoryMessage>)>)
    ensures file.None? ==> r.Err?
    ensures file.Some? ==> var st := ReplayUpTo(ParseAll(file.value, codec, clock), |file.value|);
      (r.Ok? <==> st.meta.Some?) && (r.Ok? ==> r.value == (st.meta.value, st.messages))
  {
    match file
    case None => Err("Rollout 文件不存在: " + path)
    case Some(lines) =>
      var st := ReplayUpTo(ParseAll(lines, codec, clock), |lines|);
      if st.meta.None? then Err("未找到会话元数据: " + path) else Ok((st.meta.value, st.messages))
  }

  /** `load_history`: replays the file line by line. */
  method LoadHistory(path: string, file: Option<seq<string>>, codec: Codec, clock: Clock)
    returns (r: Result<(SessionMeta, seq<MemoryMessage>)>)
    ensures r == Loaded(path, file, codec, clock)
  {
    if file.None? {
      return Err("Rollout 文件不存在: " + path);
    }
    var meta, messages := ReplayLines(ParseAll(file.value, codec, clock));
    if meta.None? {
      return Err("未找到会话元数据: " + path);
    }
    return Ok((meta.value, messages));
  }

  /** The loop of `load_history` over the lines, each already parsed. */
  method ReplayLines(ps: seq<Option<RolloutLine>>) returns (meta: Option<SessionMeta>, messages: seq<MemoryMessage>)
    ensures Replay(meta, messages) == ReplayUpTo(ps, |ps|)
  {
    meta, messages := None, [];
    for i := 0 to |ps|
      invariant ReplayUpTo(ps, i) == Replay(meta, messages)
    {
      if ps[i].Some? {
        var l := ps[i].value;
        match l.data
        case MetaRecord(s) =>
          meta := Some(s);
        case MessageRecord(m) =>
          messages := messages + [m];
        case MarkerRecord(c) =>
          messages := SystemOnly(messages) + [SummaryMessage(c, l.timestamp)];
      }
    }
  }

  predicate IsMarker(p: Option<RolloutLine>) {
    p.Some? && p.value.data.MarkerRecord?
  }

  predicate IsMeta(p: Option<RolloutLine>) {
    p.Some? && p.value.data.MetaRecord?
  }

  /** The message records among the parsed lines, in file order. */
  function MessagesOf(ps: seq<Option<RolloutLine>>): seq<MemoryMessage> {
    if ps == [] then [] else MessagesOf(ps[..|ps| - 1]) + MessageIn(ps[|ps| - 1])
  }


  /** The message a parsed line contributes, if it is a message line. */
  function MessageIn(p: Option<RolloutLine>): seq<MemoryMessage> {
    if p.Some? && p.value.data.MessageRecord? then [p.value.data.message] else []
  }

  /** A line other than a marker only ever appends its message. */
  lemma ReplayStep(ps: seq<Option<RolloutLine>>, n: nat)
    requires 0 < n <= |ps| && !IsMarker(ps[n - 1])
    ensures ReplayUpTo(ps, n).messages == ReplayUpTo(ps, n - 1).messages + MessageIn(ps[n - 1])
  {
  }

  lemma MessagesOfStep(ps: seq<Option<RolloutLine>>, i: nat, n: nat)
    requires i < n <= |ps|
    ensures MessagesOf(ps[i..n]) == MessagesOf(ps[i..n - 1]) + MessageIn(ps[n - 1])
  {
    assert ps[i..n][..n - 1 - i] == ps[i..n - 1];
  }

  /** Without markers, the replayed messages are the file's message lines
      in order. */
  lemma {:induction false} ReplayWithoutMarkers(ps: seq<Option<RolloutLine>>, n: nat)
    requires n <= |ps|
    requires forall i :: 0 <= i < n ==> !IsMarker(ps[i])
    ensures ReplayUpTo(ps, n).messages == MessagesOf(ps[..n])
  {
    if n > 0 {
      ReplayWithoutMarkers(ps, n - 1);
      ReplayStep(ps, n);
      MessagesOfStep(ps, 0, n);
      assert ps[0..n] == ps[..n] && ps[0..n - 1] == ps[..n - 1];
    }
  }

  /** The marker line itself: the system messages so far, then its
      summary. */
  lemma ReplayAtMarker(ps: seq<Option<RolloutLine>>, k: nat)
    requires k < |ps| && IsMarker(ps[k])
    ensures ReplayUpTo(ps, k + 1).messages
      == SystemOnly(ReplayUpTo(ps, k).messages) + [SummaryMessage(ps[k].value.data.marker, ps[k].value.timestamp)]
  {
  }

  /** One more line that is not a marker extends both sides alike. */
  lemma ReplayAfterStep(ps: seq<Option<RolloutLine>>, k: nat, n: nat)
    requires k + 1 < n <= |ps| && !IsMarker(ps[n - 1])
    requires ReplayUpTo(ps, n - 1).messages == ReplayUpTo(ps, k + 1).messages + MessagesOf(ps[k + 1..n - 1])
    ensures ReplayUpTo(ps, n).messages == ReplayUpTo(ps, k + 1).messages + MessagesOf(ps[k + 1..n])
  {
    ReplayStep(ps, n);
    MessagesOfStep(ps, k + 1, n);
    AppendAssoc(ReplayUpTo(ps, k + 1).messages, MessagesOf(ps[k + 1..n - 1]), MessageIn(ps[n - 1]));
  }

  lemma AppendAssoc<T>(a: seq<T>, b: seq<T>, c: seq<T>)
    ensures a + b + c == a + (b + c)
  {
  }

  /** Past any point, lines other than markers only append their messages
      in order; with the point just after the last marker, the history is
      that marker's result (`ReplayAtMarker`) followed by the later message
      lines. */
  lemma {:induction false} ReplayAfterLastMarker(ps: seq<Option<RolloutLine>>, k: nat, n: nat)
    requires k < n <= |ps|
    requires forall i :: k < i < n ==> !IsMarker(ps[i])
    ensures ReplayUpTo(ps, n).messages == ReplayUpTo(ps, k + 1).messages + MessagesOf(ps[k + 1..n])
  {
    if n > k + 1 {
      ReplayAfterLastMarker(ps, k, n - 1);
      ReplayAfterStep(ps, k, n);
    } else {
      assert MessagesOf(ps[k + 1..n]) == [] by {
        assert ps[k + 1..n] == [];
      }
    }
  }

  /** The header is the record of the last session_meta line, and there is
      none without such a line. */
  lemma {:induction false} ReplayMetaIsLast(ps: seq<Option<RolloutLine>>, n: nat)
    requires n <= |ps|
    ensures ReplayUpTo(ps, n).meta.None? <==> forall i :: 0 <= i < n ==> !IsMeta(ps[i])
    ensures ReplayUpTo(ps, n).meta.Some? ==>
      exists i :: 0 <= i < n && IsMeta(ps[i]) && ps[i].value.data.meta == ReplayUpTo(ps, n).meta.value
                  && forall j :: i < j < n ==> !IsMeta(ps[j])
  {
    if n > 0 {
      ReplayMetaIsLast(ps, n - 1);
      if IsMeta(ps[n - 1]) {
        assert ps[n - 1].value.data.meta == ReplayUpTo(ps, n).meta.value;
      }
    }
  }

  /** A line that reads back as the line it encodes. */
  predicate Recoverable(l: RolloutLine, codec: Codec, clock: Clock) {
    var text := Encode(l, codec);
    Strip(text) == text && text != "" && codec.loads(text) == Ok(Dict(LineToDict(l)))
    && LineRoundTrips(l, clock)
  }

  /** Replaying parsed lines directly. */
  function ApplyAll(st: Replay, ls: seq<RolloutLine>): Replay {
    if ls == [] then st else Apply(ApplyAll(st, ls[..|ls| - 1]), ls[|ls| - 1])
  }

  function EncodeAll(ls: seq<RolloutLine>, codec: Codec): (r: seq<string>)
    ensures |r| == |ls| && forall i :: 0 <= i < |ls| ==> r[i] == Encode(ls[i], codec)
  {
    seq(|ls|, i requires 0 <= i < |ls| => Encode(ls[i], codec))
  }

  /** A recoverable line is parsed back as itself. */
  lemma ParseEncoded(l: RolloutLine, codec: Codec, clock: Clock)
    requires Recoverable(l, codec, clock)
    ensures ParseLine(Encode(l, codec), codec, clock) == Some(l)
  {
    LineRoundTrip(l, clock);
  }

  /** Replaying the records wrapped as parsed lines is replaying them. */
  lemma {:induction false} ReplaySome(ls: seq<RolloutLine>, ps: seq<Option<RolloutLine>>, n: nat)
    requires n <= |ls| == |ps| && forall i :: 0 <= i < |ls| ==> ps[i] == Some(ls[i])
    ensures ReplayUpTo(ps, n) == ApplyAll(Replay(None, []), ls[..n])
  {
    if n > 0 {
      ReplaySome(ls, ps, n - 1);
      assert ls[..n][..n - 1] == ls[..n - 1];
    }
  }

  /** What the recorder writes, `load_history` reads back: replaying the
      written lines is replaying the records themselves. */
  lemma WrittenLinesReplay(ls: seq<RolloutLine>, codec: Codec, clock: Clock)
    requires forall i :: 0 <= i < |ls| ==> Recoverable(ls[i], codec, clock)
    ensures ReplayUpTo(ParseAll(EncodeAll(ls, codec), codec, clock), |ls|) == ApplyAll(Replay(None, []), ls)
  {
    var ps := ParseAll(EncodeAll(ls, codec), codec, clock);
    forall i | 0 <= i < |ls|
      ensures ps[i] == Some(ls[i])
    {
      ParseEncoded(ls[i], codec, clock);
    }
    ReplaySome(ls, ps, |ls|);
    assert ls[..|ls|] == ls;
  }

  /** `list_sessions` over the directory's entries (file name and lines, in
      the order the directory yields them): the files named
      `rollout-*.jsonl` whose first line is a session header, newest first
      by the instant `instant` gives a timestamp. */
  function IsRolloutName(name: string): bool {
    StartsWith(name, "rollout-") && EndsWith(name, ".jsonl") && |name| >= 14
  }

  /** The session header a file's first line holds, if any. */
  function FirstMeta(lines: seq<string>, codec: Codec, clock: Clock): Option<SessionMeta> {
    var first := if lines == [] then "" else Strip(lines[0]);
    var p := ParseLine(first, codec, clock);
    if p.Some? && p.value.data.MetaRecord? then Some(p.value.data.meta) else None
  }

  /** The sessions found among the first `n` entries, in directory order;
      `metas[i]` is the header of entry `i`'s first line. */
  function FoundUpTo(names: seq<string>, metas: seq<Option<SessionMeta>>, n: nat): (r: seq<(string, SessionMeta)>)
    requires n <= |names| == |metas|
    ensures |r| <= n
  {
    if n == 0 then []
    else
      FoundUpTo(names, metas, n - 1)
      + (if IsRolloutName(names[n - 1]) && metas[n - 1].Some? then [(names[n - 1], metas[n - 1].value)] else [])
  }

  /** Exactly the rollout files with a header are found. */
  lemma {:induction false} FoundAreSessions(names: seq<string>, metas: seq<Option<SessionMeta>>, n: nat)
    requires n <= |names| == |metas|
    ensures forall s :: s in FoundUpTo(names, metas, n) ==>
      exists i :: 0 <= i < n && names[i] == s.0 && IsRolloutName(s.0) && metas[i] == Some(s.1)
    ensures forall i :: 0 <= i < n && IsRolloutName(names[i]) && metas[i].Some? ==>
      (names[i], metas[i].value) in FoundUpTo(names, metas, n)
  {
    if n > 0 {
      FoundAreSessions(names, metas, n - 1);
    }
  }

  /** Ordered by `key`, largest first. */
  predicate Descending<T>(ss: seq<T>, key: T -> int) {
    forall i, j :: 0 <= i < j < |ss| ==> key(ss[i]) >= key(ss[j])
  }

  /** `x` placed after every element with a key at least as large, ahead of
      the smaller ones. */
  function Insert<T>(x: T, ss: seq<T>, key: T -> int): seq<T> {
    if ss == [] then [x]
    else if key(ss[0]) >= key(x) then [ss[0]] + Insert(x, ss[1..], key)
    else [x] + ss
  }

  /** Inserting adds exactly `x`. */
  lemma {:induction false} InsertMultiset<T>(x: T, ss: seq<T>, key: T -> int)
    ensures multiset(Insert(x, ss, key)) == multiset(ss) + multiset{x}
  {
    if ss != [] && key(ss[0]) >= key(x) {
      InsertMultiset(x, ss[1..], key);
      assert ss == [ss[0]] + ss[1..];
    }
  }

  /** A bound on every key survives insertion of a key within it. */
  lemma {:induction false} InsertBounded<T>(x: T, ss: seq<T>, key: T -> int, bound: int)
    requires key(x) <= bound && forall i :: 0 <= i < |ss| ==> key(ss[i]) <= bound
    ensures forall i :: 0 <= i < |Insert(x, ss, key)| ==> key(Insert(x, ss, key)[i]) <= bound
  {
    if ss != [] && key(ss[0]) >= key(x) {
      InsertBounded(x, ss[1..], key, bound);
    }
  }

  lemma DescendingCons<T>(h: T, rest: seq<T>, key: T -> int)
    requires Descending(rest, key) && forall i :: 0 <= i < |rest| ==> key(rest[i]) <= key(h)
    ensures Descending([h] + rest, key)
  {
    var r := [h] + rest;
    forall i, j | 0 <= i < j < |r|
      ensures key(r[i]) >= key(r[j])
    {
      assert r[j] == rest[j - 1];
      if i > 0 {
        assert r[i] == rest[i - 1];
      }
    }
  }

  /** Inserting into a descending list keeps it descending. */
  lemma {:induction false} InsertSorted<T>(x: T, ss: seq<T>, key: T -> int)
    requires Descending(ss, key)
    ensures Descending(Insert(x, ss, key), key)
  {
    if ss == [] {
      assert Insert(x, ss, key) == [x];
    } else if key(ss[0]) >= key(x) {
      InsertSorted(x, ss[1..], key);
      InsertBounded(x, ss[1..], key, key(ss[0]));
      DescendingCons(ss[0], Insert(x, ss[1..], key), key);
    } else {
      DescendingCons(x, ss, key);
    }
  }

  /** A stable sort, largest key first: `sort(key=..., reverse=True)`. */
  function SortDescending<T>(ss: seq<T>, key: T -> int): (r: seq<T>)
    ensures Descending(r, key)
    ensures multiset(r) == multiset(ss)
  {
    if ss == [] then []
    else
      var init := SortDescending(ss[..|ss| - 1], key);
      InsertSorted(ss[|ss| - 1], init, key);
      InsertMultiset(ss[|ss| - 1], init, key);
      assert ss == ss[..|ss| - 1] + [ss[|ss| - 1]];
      Insert(ss[|ss| - 1], init, key)
  }

  /** A found session's creation instant. */
  function CreatedKey(instant: string -> int): ((string, SessionMeta)) -> int {
    (s: (string, SessionMeta)) => instant(s.1.createdAt)
  }

  function Names(entries: seq<(string, seq<string>)>): (r: seq<string>)
    ensures |r| == |entries| && forall i :: 0 <= i < |entries| ==> r[i] == entries[i].0
  {
    seq(|entries|, i requires 0 <= i < |entries| => entries[i].0)
  }

  function FirstMetas(entries: seq<(string, seq<string>)>, codec: Codec, clock: Clock): (r: seq<Option<SessionMeta>>)
    ensures |r| == |entries| && forall i :: 0 <= i < |entries| ==> r[i] == FirstMeta(entries[i].1, codec, clock)
  {
    seq(|entries|, i requires 0 <= i < |entries| => FirstMeta(entries[i].1, codec, clock))
  }

  /** `list_sessions`: nothing for a missing directory. */
  method ListSessions(dir: Option<seq<(string, seq<string>)>>, codec: Codec, clock: Clock, instant: string -> int)
    returns (r: seq<(string, SessionMeta)>)
    ensures dir.None? ==> r == []
    ensures dir.Some? ==>
      r == SortDescending(FoundUpTo(Names(dir.value), FirstMetas(dir.value, codec, clock), |dir.value|), CreatedKey(instant))
  {
    if dir.None? {
      return [];
    }
    var sessions := CollectSessions(Names(dir.value), FirstMetas(dir.value, codec, clock));
    return SortDescending(sessions, CreatedKey(instant));
  }

  /** The loop of `list_sessions` over the entries' names and first-line
      headers. */
  method CollectSessions(names: seq<string>, metas: seq<Option<SessionMeta>>) returns (sessions: seq<(string, SessionMeta)>)
    requires |names| == |metas|
    ensures sessions == FoundUpTo(names, metas, |names|)
  {
    sessions := [];
    for i := 0 to |names|
      invariant sessions == FoundUpTo(names, metas, i)
    {
      if IsRolloutName(names[i]) && metas[i].Some? {
        sessions := sessions + [(names[i], metas[i].value)];
      }
    }
  }
}
