/** Message helpers of the compaction package: the token estimate, text
    extraction from a message dict, the "system-like" test and the count of
    user turns. A message dict is modelled by the value `Msg`. */
module CompactionUtils {
  import opened Wrappers
  import opened Text

  /** One element of a list-valued `content`. */
  datatype ContentItem =
    | DictItem(itemType: Option<string>, text: Option<string>)  // a dict with optional "type" and "text" keys
    | StrItem(s: string)                                         // a bare string
    | OtherItem                                                  // anything else

  /** The value stored under a message's "content" key (a missing key reads as ""). */
  datatype Content =
    | Str(s: string)
    | Items(items: seq<ContentItem>)
    | NoneContent        // an explicit None
    | IntContent(n: int) // a number, the one other shape that reaches the estimate

  /** A message dict of the conversation: role, content, the `summary` flag,
      `compacted_at`, `tool_call_id` and `timestamp` (absent keys are None,
      a missing role reads as ""). */
  datatype Msg = Msg(
    role: string,
    content: Content,
    summary: bool,
    compactedAt: Option<string>,
    toolCallId: Option<string>,
    timestamp: Option<string>)

  /** `estimate_tokens`: four characters per token, rounded down. */
  function EstimateTokens(text: string): (r: nat)
    ensures 4 * r <= |text| < 4 * r + 4
  {
    |text| / 4
  }

  /** A longer text never has a smaller estimate, and the estimate of a
      concatenation is at least the sum of the parts' estimates. */
  lemma EstimateTokensMonotone(a: string, b: string)
    ensures |a| <= |b| ==> EstimateTokens(a) <= EstimateTokens(b)
    ensures EstimateTokens(a) + EstimateTokens(b) <= EstimateTokens(a + b)
  {
  }

  /** `estimate_tokens(content)` applied to a raw content value, as the prune
      pass does: a list is unhashable for the memoising cache and a non-zero
      number has no length, so both raise TypeError; None and 0 read as "". */
  function EstimateContent(c: Content): (r: Result<nat>)
    ensures c.Str? ==> r == Ok(EstimateTokens(c.s))
    ensures (c.NoneContent? || c == IntContent(0)) ==> r == Ok(0)
    ensures r.Err? <==> (c.Items? || (c.IntContent? && c.n != 0))
  {
    match c
    case Str(s) => Ok(EstimateTokens(s))
    case NoneContent => Ok(0)
    case IntContent(n) => if n == 0 then Ok(0) else Err("object of type 'int' has no len()")
    case Items(_) => Err("unhashable type: 'list'")
  }

  /** The text an item contributes to `extract_message_text`, if any. */
  function ItemText(item: ContentItem): Option<string> {
    match item
    case DictItem(t, text) => if t == Some("text") then Some(text.GetOr("")) else None
    case StrItem(s) => Some(s)
    case OtherItem => None
  }

  /** The texts of the text-carrying items, in input order. */
  function ItemTexts(items: seq<ContentItem>): (r: seq<string>)
    ensures |r| <= |items|
  {
    if items == [] then []
    else
      var rest := ItemTexts(items[1..]);
      match ItemText(items[0])
      case Some(t) => [t] + rest
      case None => rest
  }

  /** Collecting texts distributes over concatenation: order is kept and
      every item is looked at on its own. */
  lemma {:induction false} ItemTextsAppend(a: seq<ContentItem>, b: seq<ContentItem>)
    ensures ItemTexts(a + b) == ItemTexts(a) + ItemTexts(b)
  {
    if a == [] {
      assert a + b == b;
    } else {
      assert (a + b)[0] == a[0] && (a + b)[1..] == a[1..] + b;
      ItemTextsAppend(a[1..], b);
    }
  }

  /** An item is kept exactly when it is a dict of type "text" or a string. */
  lemma ItemTextsSingle(item: ContentItem)
    ensures ItemTexts([item]) == (if item.StrItem? || (item.DictItem? && item.itemType == Some("text"))
                                  then [ItemText(item).value] else [])
  {
    assert [item][1..] == [];
  }

  /** `extract_message_text`. */
  function ExtractText(m: Msg): (r: string)
    ensures m.content.Str? ==> r == m.content.s
    ensures m.content.Items? ==> r == Join(ItemTexts(m.content.items), "\n")
    ensures !m.content.Str? && !m.content.Items? ==> r == ""
  {
    match m.content
    case Str(s) => s
    case Items(items) => Join(ItemTexts(items), "\n")
    case _ => ""
  }

  const SystemPrefixes: seq<string> := ["<user_instructions>", "<ENVIRONMENT_CONTEXT>", "<project_context>"]

  /** `any(text.startswith(p) for p in prefixes)`. */
  predicate AnyPrefix(text: string, prefixes: seq<string>)
    decreases |prefixes|
  {
    |prefixes| > 0 && (StartsWith(text, prefixes[0]) || AnyPrefix(text, prefixes[1..]))
  }

  /** `is_system_message`. */
  predicate IsSystemMessage(m: Msg) {
    m.role == "system" || (m.role == "user" && AnyPrefix(ExtractText(m), SystemPrefixes))
  }

  /** Only system and user messages can be system-like; a user message is
      system-like exactly when its text starts with one of the three tags. */
  lemma {:induction false} AnyPrefixIff(text: string, prefixes: seq<string>)
    ensures AnyPrefix(text, prefixes) <==> exists i :: 0 <= i < |prefixes| && StartsWith(text, prefixes[i])
    decreases |prefixes|
  {
    if |prefixes| > 0 {
      AnyPrefixIff(text, prefixes[1..]);
      if AnyPrefix(text, prefixes[1..]) {
        var i :| 0 <= i < |prefixes| - 1 && StartsWith(text, prefixes[1..][i]);
        assert StartsWith(text, prefixes[i + 1]);
      }
      if !StartsWith(text, prefixes[0]) && exists i :: 0 <= i < |prefixes| && StartsWith(text, prefixes[i]) {
        var i :| 0 <= i < |prefixes| && StartsWith(text, prefixes[i]);
        assert StartsWith(text, prefixes[1..][i - 1]);
      }
    }
  }

  lemma SystemMessageRoles(m: Msg)
    ensures IsSystemMessage(m) ==> m.role == "system" || m.role == "user"
    ensures m.role == "user" ==>
      (IsSystemMessage(m) <==>
        StartsWith(ExtractText(m), "<user_instructions>")
        || StartsWith(ExtractText(m), "<ENVIRONMENT_CONTEXT>")
        || StartsWith(ExtractText(m), "<project_context>"))
  {
  }

  /** A message that counts as one user turn. */
  predicate IsUserTurn(m: Msg) {
    m.role == "user" && !IsSystemMessage(m)
  }

  /** A user message whose text does not open with a tag is a user turn. */
  lemma UntaggedUserTurn(m: Msg)
    requires m.role == "user" && (ExtractText(m) == [] || ExtractText(m)[0] != '<')
    ensures IsUserTurn(m)
  {
    var t := ExtractText(m);
    assert forall i :: 0 <= i < |SystemPrefixes| ==> |SystemPrefixes[i]| > 0 && SystemPrefixes[i][0] == '<';
    forall i | 0 <= i < |SystemPrefixes|
      ensures !StartsWith(t, SystemPrefixes[i])
    {
      if |SystemPrefixes[i]| <= |t| {
        assert t[..|SystemPrefixes[i]|][0] == t[0];
      }
    }
    AnyPrefixIff(t, SystemPrefixes);
  }

  /** `count_user_turns`. */
  function CountUserTurns(ms: seq<Msg>): (r: nat)
    ensures r <= |ms|
  {
    if ms == [] then 0 else (if IsUserTurn(ms[0]) then 1 else 0) + CountUserTurns(ms[1..])
  }

  /** Counting user turns distributes over concatenation. */
  lemma {:induction false} CountUserTurnsAppend(a: seq<Msg>, b: seq<Msg>)
    ensures CountUserTurns(a + b) == CountUserTurns(a) + CountUserTurns(b)
  {
    if a == [] {
      assert a + b == b;
    } else {
      assert (a + b)[0] == a[0] && (a + b)[1..] == a[1..] + b;
      CountUserTurnsAppend(a[1..], b);
    }
  }

  /** No user turn at all exactly when no message is a non-system user
      message. */
  lemma {:induction false} CountUserTurnsZero(ms: seq<Msg>)
    ensures CountUserTurns(ms) == 0 <==> forall i :: 0 <= i < |ms| ==> !IsUserTurn(ms[i])
  {
    if ms != [] {
      CountUserTurnsZero(ms[1..]);
      assert forall i :: 1 <= i < |ms| ==> ms[i] == ms[1..][i - 1];
    }
  }
}
