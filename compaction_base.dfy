/** The data the compaction strategies exchange: the mutable message dicts of a
    conversation, the compaction context and the compaction result. */
module CompactionBase {
  import opened Wrappers
  import opened CompactionUtils

  /** A message dict as an object: the prune pass writes `content` and
      `compacted_at` into it in place, so every list holding it sees the
      change. */
  class MessageDict {
    var role: string
    var content: Content
    var summary: bool
    var compactedAt: Option<string>
    var toolCallId: Option<string>
    var timestamp: Option<string>

    function View(): Msg
      reads this
    {
      Msg(role, content, summary, compactedAt, toolCallId, timestamp)
    }

    constructor (m: Msg)
      ensures View() == m
    {
      role, content, summary := m.role, m.content, m.summary;
      compactedAt, toolCallId, timestamp := m.compactedAt, m.toolCallId, m.timestamp;
    }
  }

  /** The values currently held by a list of message dicts. */
  function Views(ms: seq<MessageDict>): (r: seq<Msg>)
    reads ms
    ensures |r| == |ms|
    ensures forall i {:trigger r[i]} :: 0 <= i < |ms| ==> r[i] == ms[i].View()
  {
    if ms == [] then [] else [ms[0].View()] + Views(ms[1..])
  }

  /** Reading the values of a concatenation reads each part in turn. */
  lemma {:induction false} ViewsAppend(a: seq<MessageDict>, b: seq<MessageDict>)
    ensures Views(a + b) == Views(a) + Views(b)
  {
    assert forall i :: 0 <= i < |a + b| ==> Views(a + b)[i] == (Views(a) + Views(b))[i];
  }

  /** Reading the values of three concatenated lists reads each in turn. */
  lemma ViewsOfThree(a: seq<MessageDict>, b: seq<MessageDict>, c: seq<MessageDict>,
                     va: seq<Msg>, vb: seq<Msg>, vc: seq<Msg>)
    requires Views(a) == va && Views(b) == vb && Views(c) == vc
    ensures Views(a + b + c) == va + vb + vc
  {
    ViewsAppend(a, b);
    ViewsAppend(a + b, c);
  }

  /** The values of a two-element list. */
  lemma ViewsPair(x: MessageDict, y: MessageDict)
    ensures Views([x, y]) == [x.View(), y.View()]
  {
    assert [x, y][1..] == [y];
  }

  /** Reading the values of a suffix reads the suffix of the values. */
  lemma {:induction false} ViewsSuffix(ms: seq<MessageDict>, i: nat)
    requires i <= |ms|
    ensures Views(ms[i..]) == Views(ms)[i..]
  {
    var a, b := Views(ms[i..]), Views(ms)[i..];
    forall j | 0 <= j < |a|
      ensures a[j] == b[j]
    {
      assert ms[i..][j] == ms[i + j];
    }
  }

  /** Reading the values of a prefix reads the prefix of the values. */
  lemma {:induction false} ViewsPrefix(ms: seq<MessageDict>, i: nat)
    requires i <= |ms|
    ensures Views(ms[..i]) == Views(ms)[..i]
  {
    var a, b := Views(ms[..i]), Views(ms)[..i];
    forall j | 0 <= j < |a|
      ensures a[j] == b[j]
    {
      assert ms[..i][j] == ms[j];
    }
  }

  /** `CompactionContext`; `metadata` and `model_client` are not read by the
      modelled strategy. */
  datatype CompactionContext = CompactionContext(
    messages: seq<MessageDict>,
    currentTokens: int,
    maxTokens: int,
    modelName: string,
    sessionId: string)

  /** `CompactResult`; the metadata dict is split into its two keys, which are
      present only on success. */
  datatype CompactResult = CompactResult(
    success: bool,
    newMessages: seq<MessageDict>,
    removedCount: int,
    tokensSaved: int,
    strategyName: string,
    pruneCount: Option<int>,
    compressionRatio: Option<real>,
    error: Option<string>)

  /** `StrategyMetadata`. */
  datatype StrategyMetadata = StrategyMetadata(name: string, version: string, description: string, author: string)
}
