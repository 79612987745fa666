/** The records of the conversation memory and their dictionary forms: the
    stored message, the session metadata, the compaction marker and one line
    of a rollout file. A `datetime` is held as its ISO text; `Clock` supplies
    the clock reading and `datetime.fromisoformat`. */
module MemoryModels {
  import opened Wrappers
  import opened Values

  /** `datetime.now()` as ISO text, and `datetime.fromisoformat` followed by
      `isoformat`: None where Python raises, otherwise the canonical text of
      the instant read. */
  datatype Clock = Clock(now: string, fromIso: string -> Option<string>)

  /** `MemoryMessage`. `toolCalls` is any value, `Null` standing for None. */
  datatype MemoryMessage = MemoryMessage(
    role: string,
    content: string,
    timestamp: string,
    toolCalls: Value,
    toolCallId: Option<string>,
    metadata: map<string, Value>)

  /** The five keys `from_dict` does not copy into the metadata. */
  const CoreKeys: set<string> := {"role", "content", "timestamp", "tool_calls", "tool_call_id"}

  /** `MemoryMessage.to_dict`: the three fixed fields, the tool fields when
      truthy, then the metadata laid over them. */
  function MessageToDict(m: MemoryMessage): (d: map<string, Value>)
    ensures {"role", "content", "timestamp"} <= d.Keys
    ensures "tool_calls" in d <==> Truthy(m.toolCalls) || "tool_calls" in m.metadata
    ensures "tool_call_id" in d <==>
      (m.toolCallId.Some? && m.toolCallId.value != "") || "tool_call_id" in m.metadata
    ensures d.Keys == {"role", "content", "timestamp"} + m.metadata.Keys
                      + (if Truthy(m.toolCalls) then {"tool_calls"} else {})
                      + (if m.toolCallId.Some? && m.toolCallId.value != "" then {"tool_call_id"} else {})
    ensures forall k :: k in m.metadata ==> d[k] == m.metadata[k]
    ensures "role" !in m.metadata ==> d["role"] == Str(m.role)
    ensures "content" !in m.metadata ==> d["content"] == Str(m.content)
    ensures "timestamp" !in m.metadata ==> d["timestamp"] == Str(m.timestamp)
  {
    var base := map["role" := Str(m.role), "content" := Str(m.content), "timestamp" := Str(m.timestamp)];
    var withCalls := if Truthy(m.toolCalls) then base["tool_calls" := m.toolCalls] else base;
    var withId := if m.toolCallId.Some? && m.toolCallId.value != "" then withCalls["tool_call_id" := Str(m.toolCallId.value)]
                  else withCalls;
    withId + m.metadata
  }

  /** A timestamp read with `.get`: a falsy or missing value means now,
      text is parsed, anything else is a TypeError. */
  function TimeOrNow(v: Option<Value>, clock: Clock): (r: Result<string>)
    ensures (v.None? || !Truthy(v.value)) ==> r == Ok(clock.now)
    ensures v.Some? && v.value.Str? && v.value.s != "" ==>
      (r.Ok? <==> clock.fromIso(v.value.s).Some?) && (r.Ok? ==> r.value == clock.fromIso(v.value.s).value)
  {
    if v.None? || !Truthy(v.value) then Ok(clock.now)
    else if v.value.Str? then
      match clock.fromIso(v.value.s)
      case Some(t) => Ok(t)
      case None => Err("Invalid isoformat string: '" + v.value.s + "'")
    else Err("fromisoformat: argument must be str")
  }

  /** `d.get(key, default)` where the field is text. */
  function TextOr(d: map<string, Value>, key: string, default: string): (r: Result<string>)
    ensures key !in d ==> r == Ok(default)
    ensures key in d ==> (r.Ok? <==> d[key].Str?) && (r.Ok? ==> r.value == d[key].s)
  {
    if key !in d then Ok(default)
    else if d[key].Str? then Ok(d[key].s)
    else Err(key + " is not a str")
  }

  /** `d.get(key)` where the field is optional text. */
  function OptText(d: map<string, Value>, key: string): (r: Result<Option<string>>)
    ensures key !in d || d[key] == Null ==> r == Ok(None)
    ensures key in d && d[key].Str? ==> r == Ok(Some(d[key].s))
    ensures r.Err? <==> key in d && !d[key].Null? && !d[key].Str?
  {
    if key !in d || d[key] == Null then Ok(None)
    else if d[key].Str? then Ok(Some(d[key].s))
    else Err(key + " is not a str")
  }

  /** `d[key]` where the field is text: a KeyError when it is missing. */
  function TextAt(d: map<string, Value>, key: string): (r: Result<string>)
    ensures r.Ok? <==> key in d && d[key].Str?
    ensures r.Ok? ==> r.value == d[key].s
  {
    if key !in d then Err("'" + key + "'")
    else if d[key].Str? then Ok(d[key].s)
    else Err(key + " is not a str")
  }

  /** `d.get(key, default)` where the field is an integer. */
  function IntOr(d: map<string, Value>, key: string, default: int): (r: Result<int>)
    ensures key !in d ==> r == Ok(default)
    ensures key in d ==> (r.Ok? <==> d[key].Int?) && (r.Ok? ==> r.value == d[key].i)
  {
    if key !in d then Ok(default)
    else if d[key].Int? then Ok(d[key].i)
    else Err(key + " is not an int")
  }

  /** `MemoryMessage.from_dict`: every key but the five core keys goes to
      the metadata; role defaults to "user" and content to "". */
  function MessageFromDict(data: map<string, Value>, clock: Clock): (r: Result<MemoryMessage>)
  {
    match TimeOrNow(Get(data, "timestamp"), clock)
    case Err(e) => Err(e)
    case Ok(timestamp) =>
      var metadata := map k | k in data && k !in CoreKeys :: data[k];
      match (TextOr(data, "role", "user"), TextOr(data, "content", ""), OptText(data, "tool_call_id"))
      case (Ok(role), Ok(content), Ok(id)) =>
        Ok(MemoryMessage(role, content, timestamp, if "tool_calls" in data then data["tool_calls"] else Null, id, metadata))
      case (Err(e), _, _) => Err(e)
      case (_, Err(e), _) => Err(e)
      case (_, _, Err(e)) => Err(e)
  }

  /** What `from_dict` reads: the metadata is every non-core key; role and
      content default to "user" and "". */
  lemma MessageFromDictFields(data: map<string, Value>, clock: Clock)
    ensures MessageFromDict(data, clock).Ok? ==> MessageFromDict(data, clock).value.metadata == (map k | k in data && k !in CoreKeys :: data[k])
    ensures MessageFromDict(data, clock).Ok? ==> (if "role" in data then data["role"] == Str(MessageFromDict(data, clock).value.role) else MessageFromDict(data, clock).value.role == "user")
    ensures MessageFromDict(data, clock).Ok? ==> (if "content" in data then data["content"] == Str(MessageFromDict(data, clock).value.content) else MessageFromDict(data, clock).value.content == "")
    ensures MessageFromDict(data, clock).Ok? ==> MessageFromDict(data, clock).value.toolCalls == (if "tool_calls" in data then data["tool_calls"] else Null)
  {
  }

  /** The messages whose dictionary form reads back as themselves: metadata
      keys clear of the core keys, no falsy tool fields other than None, and
      a non-empty canonical timestamp. */
  predicate MessageRoundTrips(m: MemoryMessage, clock: Clock) {
    m.metadata.Keys !! CoreKeys
    && (m.toolCalls == Null || Truthy(m.toolCalls))
    && m.toolCallId != Some("")
    && m.timestamp != "" && clock.fromIso(m.timestamp) == Some(m.timestamp)
  }

  lemma MessageRoundTrip(m: MemoryMessage, clock: Clock)
    requires MessageRoundTrips(m, clock)
    ensures MessageFromDict(MessageToDict(m), clock) == Ok(m)
  {
    var d := MessageToDict(m);
    assert (map k | k in d && k !in CoreKeys :: d[k]) == m.metadata;
  }

  /** A metadata key named like a core field overrides that field in the
      dictionary form, so the field does not survive the round trip. */
  lemma MetadataShadowsRole(m: MemoryMessage, clock: Clock, role: string)
    requires m.metadata == map["role" := Str(role)] && role != m.role
    ensures MessageFromDict(MessageToDict(m), clock).Ok? ==>
      MessageFromDict(MessageToDict(m), clock).value.role != m.role
  {
    assert MessageToDict(m)["role"] == Str(role);
  }

  /** `SessionMeta`. */
  datatype SessionMeta = SessionMeta(
    sessionId: string,
    createdAt: string,
    cwd: string,
    model: string,
    userInstructions: Option<string>,
    projectDocs: Option<string>)

  function OptStr(o: Option<string>): Value {
    if o.Some? then Str(o.value) else Null
  }

  /** `SessionMeta.to_dict`: all six fields, None written as null. */
  function MetaToDict(s: SessionMeta): (d: map<string, Value>)
    ensures d.Keys == {"session_id", "created_at", "cwd", "model", "user_instructions", "project_docs"}
    ensures d["session_id"] == Str(s.sessionId) && d["cwd"] == Str(s.cwd) && d["model"] == Str(s.model)
  {
    map["session_id" := Str(s.sessionId), "created_at" := Str(s.createdAt), "cwd" := Str(s.cwd),
        "model" := Str(s.model), "user_instructions" := OptStr(s.userInstructions),
        "project_docs" := OptStr(s.projectDocs)]
  }

  /** `SessionMeta.from_dict`: session id and cwd are required (KeyError),
      the model defaults to "unknown". */
  function MetaFromDict(data: map<string, Value>, clock: Clock): (r: Result<SessionMeta>)
  {
    match TimeOrNow(Get(data, "created_at"), clock)
    case Err(e) => Err(e)
    case Ok(createdAt) =>
      match (TextAt(data, "session_id"), TextAt(data, "cwd"), TextOr(data, "model", "unknown"),
             OptText(data, "user_instructions"), OptText(data, "project_docs"))
      case (Ok(id), Ok(cwd), Ok(model), Ok(ui), Ok(docs)) => Ok(SessionMeta(id, createdAt, cwd, model, ui, docs))
      case (Err(e), _, _, _, _) => Err(e)
      case (_, Err(e), _, _, _) => Err(e)
      case (_, _, Err(e), _, _) => Err(e)
      case (_, _, _, Err(e), _) => Err(e)
      case (_, _, _, _, Err(e)) => Err(e)
  }

  /** Session id and cwd are required; the model defaults to "unknown". */
  lemma MetaFromDictFields(data: map<string, Value>, clock: Clock)
    ensures "session_id" !in data || "cwd" !in data ==> MetaFromDict(data, clock).Err?
    ensures MetaFromDict(data, clock).Ok? ==> (if "model" in data then data["model"] == Str(MetaFromDict(data, clock).value.model) else MetaFromDict(data, clock).value.model == "unknown")
    ensures MetaFromDict(data, clock).Ok? ==> "session_id" in data && data["session_id"] == Str(MetaFromDict(data, clock).value.sessionId)
    ensures MetaFromDict(data, clock).Ok? ==> "cwd" in data && data["cwd"] == Str(MetaFromDict(data, clock).value.cwd)
  {
  }

  predicate MetaRoundTrips(s: SessionMeta, clock: Clock) {
    s.createdAt != "" && clock.fromIso(s.createdAt) == Some(s.createdAt)
  }

  lemma MetaRoundTrip(s: SessionMeta, clock: Clock)
    requires MetaRoundTrips(s, clock)
    ensures MetaFromDict(MetaToDict(s), clock) == Ok(s)
  {
  }

  /** `CompactedMarker`. */
  datatype CompactedMarker = CompactedMarker(summary: string, originalCount: int, tokensSaved: int, strategy: string)

  function MarkerToDict(c: CompactedMarker): (d: map<string, Value>)
    ensures d.Keys == {"summary", "original_count", "tokens_saved", "strategy"}
    ensures d["summary"] == Str(c.summary) && d["original_count"] == Int(c.originalCount)
  {
    map["summary" := Str(c.summary), "original_count" := Int(c.originalCount),
        "tokens_saved" := Int(c.tokensSaved), "strategy" := Str(c.strategy)]
  }

  /** `CompactedMarker.from_dict`: the summary is required; the counts
      default to 0 and the strategy to "unknown". */
  function MarkerFromDict(data: map<string, Value>): (r: Result<CompactedMarker>)
  {
    match (TextAt(data, "summary"), IntOr(data, "original_count", 0), IntOr(data, "tokens_saved", 0),
           TextOr(data, "strategy", "unknown"))
    case (Ok(summary), Ok(count), Ok(saved), Ok(strategy)) => Ok(CompactedMarker(summary, count, saved, strategy))
    case (Err(e), _, _, _) => Err(e)
    case (_, Err(e), _, _) => Err(e)
    case (_, _, Err(e), _) => Err(e)
    case (_, _, _, Err(e)) => Err(e)
  }

  /** The summary is required; a marker with only a summary gets zero
      counts and the "unknown" strategy. */
  lemma MarkerFromDictDefaults(data: map<string, Value>)
    ensures "summary" !in data ==> MarkerFromDict(data).Err?
    ensures forall text :: data == map["summary" := Str(text)] ==> MarkerFromDict(data) == Ok(CompactedMarker(text, 0, 0, "unknown"))
    ensures MarkerFromDict(data).Ok? ==> "summary" in data && data["summary"] == Str(MarkerFromDict(data).value.summary)
  {
  }

  lemma MarkerRoundTrip(c: CompactedMarker)
    ensures MarkerFromDict(MarkerToDict(c)) == Ok(c)
  {
  }

  /** `RolloutType` and the record a line carries; the line's type is the
      kind of its record. */
  datatype RolloutData =
    | MetaRecord(meta: SessionMeta)
    | MessageRecord(message: MemoryMessage)
    | MarkerRecord(marker: CompactedMarker)

  function TypeValue(d: RolloutData): string {
    match d
    case MetaRecord(_) => "session_meta"
    case MessageRecord(_) => "message"
    case MarkerRecord(_) => "compacted"
  }

  /** `RolloutLine`. */
  datatype RolloutLine = RolloutLine(timestamp: string, data: RolloutData)

  function DataToDict(d: RolloutData): map<string, Value> {
    match d
    case MetaRecord(s) => MetaToDict(s)
    case MessageRecord(m) => MessageToDict(m)
    case MarkerRecord(c) => MarkerToDict(c)
  }

  /** `RolloutLine.to_dict`. */
  function LineToDict(l: RolloutLine): (d: map<string, Value>)
    ensures d.Keys == {"timestamp", "type", "data"}
    ensures d["type"] == Str(TypeValue(l.data)) && d["data"] == Dict(DataToDict(l.data))
  {
    map["timestamp" := Str(l.timestamp), "type" := Str(TypeValue(l.data)), "data" := Dict(DataToDict(l.data))]
  }

  /** `RolloutLine.from_dict`: the timestamp is required and parsed, the
      type must be one of the three (a ValueError otherwise) and the record
      is read by its type's `from_dict`. */
  function LineFromDict(d: map<string, Value>, clock: Clock): (r: Result<RolloutLine>)
  {
    if "timestamp" !in d then Err("'timestamp'")
    else if !d["timestamp"].Str? then Err("fromisoformat: argument must be str")
    else if clock.fromIso(d["timestamp"].s).None? then Err("Invalid isoformat string: '" + d["timestamp"].s + "'")
    else
      var timestamp := clock.fromIso(d["timestamp"].s).value;
      if "type" !in d then Err("'type'")
      else if d["type"] !in {Str("session_meta"), Str("message"), Str("compacted")} then Err("not a valid RolloutType")
      else if "data" !in d then Err("'data'")
      else if !d["data"].Dict? then Err("data is not a dict")
      else
        var data := d["data"].entries;
        if d["type"] == Str("session_meta") then
          match MetaFromDict(data, clock)
          case Ok(s) => Ok(RolloutLine(timestamp, MetaRecord(s)))
          case Err(e) => Err(e)
        else if d["type"] == Str("message") then
          match MessageFromDict(data, clock)
          case Ok(m) => Ok(RolloutLine(timestamp, MessageRecord(m)))
          case Err(e) => Err(e)
        else
          match MarkerFromDict(data)
          case Ok(c) => Ok(RolloutLine(timestamp, MarkerRecord(c)))
          case Err(e) => Err(e)
  }

  /** A line needs a timestamp, one of the three types and a data dict;
      the type names the record read. */
  lemma LineFromDictChecks(d: map<string, Value>, clock: Clock)
    ensures "timestamp" !in d || "type" !in d || "data" !in d ==> LineFromDict(d, clock).Err?
    ensures "type" in d && d["type"] !in {Str("session_meta"), Str("message"), Str("compacted")} ==> LineFromDict(d, clock).Err?
    ensures LineFromDict(d, clock).Ok? ==> "type" in d && d["type"] == Str(TypeValue(LineFromDict(d, clock).value.data))
    ensures LineFromDict(d, clock).Ok? ==> "data" in d && d["data"].Dict?
    ensures LineFromDict(d, clock).Ok? ==> "timestamp" in d && d["timestamp"].Str? && Some(LineFromDict(d, clock).value.timestamp) == clock.fromIso(d["timestamp"].s)
  {
  }

  predicate LineRoundTrips(l: RolloutLine, clock: Clock) {
    clock.fromIso(l.timestamp) == Some(l.timestamp)
    && match l.data
       case MetaRecord(s) => MetaRoundTrips(s, clock)
       case MessageRecord(m) => MessageRoundTrips(m, clock)
       case MarkerRecord(_) => true
  }

  lemma LineRoundTrip(l: RolloutLine, clock: Clock)
    requires LineRoundTrips(l, clock)
    ensures LineFromDict(LineToDict(l), clock) == Ok(l)
  {
    match l.data
    case MetaRecord(s) => MetaRoundTrip(s, clock);
    case MessageRecord(m) => MessageRoundTrip(m, clock);
    case MarkerRecord(c) => MarkerRoundTrip(c);
  }
}
