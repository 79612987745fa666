/** The web fetch and web search tools: the URL check, the fifteen-minute
    cache of fetched pages, the outcome of a fetch, and the text of a search.
    The network, the HTML converters and the clock are parameters. */
module Web {
  import opened Wrappers
  import opened Values
  import opened Text
  import opened ToolBase

  const DefaultTimeout: int := 30
  const MaxTimeout: int := 120
  /** Fifteen minutes, in seconds. */
  const CacheDuration: int := 15 * 60

  // ---------------------------------------------------------------------
  // `_validate_url`

  const UrlError: string := "URL 必须以 http:// 或 https:// 开头"

  /** Only http and https URLs are accepted, and http is upgraded to https by
      replacing its first "http://". */
  function ValidateUrl(url: string): Result<string> {
    if !StartsWith(url, "http://") && !StartsWith(url, "https://") then Err(UrlError)
    else if StartsWith(url, "http://") then Ok(ReplaceFirst(url, "http://", "https://"))
    else Ok(url)
  }

  /** A URL is accepted exactly when it starts with http:// or https://; an
      https URL is kept, an http one gains the "s" and nothing else changes. */
  lemma ValidateUrlSpec(url: string)
    ensures ValidateUrl(url).Ok? <==> StartsWith(url, "http://") || StartsWith(url, "https://")
    ensures StartsWith(url, "https://") ==> ValidateUrl(url) == Ok(url)
    ensures StartsWith(url, "http://") ==> ValidateUrl(url) == Ok("https://" + url[7..])
    ensures ValidateUrl(url).Ok? ==> StartsWith(ValidateUrl(url).value, "https://")
  {
    if StartsWith(url, "http://") {
      ReplaceFirstPrefix(url, "http://", "https://");
      assert url[4] == ':';
      assert !StartsWith(url, "https://") by {
        assert "https://"[4] == 's';
      }
      Upgraded(url[7..]);
    }
  }

  lemma Upgraded(rest: string)
    ensures StartsWith("https://" + rest, "https://")
  {
    assert ("https://" + rest)[..8] == "https://";
  }

  /** Validating twice changes nothing more. */
  lemma ValidateUrlIdempotent(url: string)
    requires ValidateUrl(url).Ok?
    ensures ValidateUrl(ValidateUrl(url).value) == ValidateUrl(url)
  {
    ValidateUrlSpec(url);
    ValidateUrlSpec(ValidateUrl(url).value);
  }

  // ---------------------------------------------------------------------
  // The cache

  /** A cached page and the time, in seconds, it was stored. */
  datatype CacheEntry = CacheEntry(content: string, timestamp: int)

  predicate Expired(e: CacheEntry, now: int) {
    now - e.timestamp > CacheDuration
  }

  /** The cache once `_clean_cache` has run at `now`. */
  function Cleaned(cache: map<string, CacheEntry>, now: int): map<string, CacheEntry> {
    map u | u in cache && !Expired(cache[u], now) :: cache[u]
  }

  /** Cleaning removes exactly the expired entries and keeps the others as
      they were. */
  lemma CleanedSpec(cache: map<string, CacheEntry>, now: int)
    ensures forall u :: u in Cleaned(cache, now) <==> u in cache && !Expired(cache[u], now)
    ensures forall u :: u in Cleaned(cache, now) ==> Cleaned(cache, now)[u] == cache[u]
    ensures |Cleaned(cache, now)| <= |cache|
  {
    assert Cleaned(cache, now).Keys <= cache.Keys;
    SubsetSize(Cleaned(cache, now).Keys, cache.Keys);
  }

  lemma {:induction false} SubsetSize<T>(a: set<T>, b: set<T>)
    requires a <= b
    ensures |a| <= |b|
    decreases |b|
  {
    if b != {} {
      var x :| x in b;
      SubsetSize(a - {x}, b - {x});
    }
  }

  /** Cleaning at a time and again later is cleaning at the later time. */
  lemma CleanedLater(cache: map<string, CacheEntry>, t1: int, t2: int)
    requires t1 <= t2
    ensures Cleaned(Cleaned(cache, t1), t2) == Cleaned(cache, t2)
  {
  }

  /** What `_get_from_cache` returns: the clock is read once for the
      cleaning and once more for its own check. */
  function CachedValue(cache: map<string, CacheEntry>, url: string, cleanAt: int, checkAt: int): Option<string> {
    var kept := Cleaned(cache, cleanAt);
    if url in kept && !Expired(kept[url], checkAt) then Some(kept[url].content) else None
  }

  /** The cache after `_get_from_cache`. */
  function CacheAfterGet(cache: map<string, CacheEntry>, url: string, cleanAt: int, checkAt: int): map<string, CacheEntry> {
    var kept := Cleaned(cache, cleanAt);
    if url in kept && Expired(kept[url], checkAt) then kept - {url} else kept
  }

  /** A hit is the stored content, fresh at both readings of the clock; a
      miss leaves no entry for the URL behind; no entry is ever added. */
  lemma CachedValueSpec(cache: map<string, CacheEntry>, url: string, cleanAt: int, checkAt: int)
    ensures var v := CachedValue(cache, url, cleanAt, checkAt);
      v.Some? ==> url in cache && cache[url].content == v.value &&
                  !Expired(cache[url], cleanAt) && !Expired(cache[url], checkAt)
    ensures CachedValue(cache, url, cleanAt, checkAt).None? ==> url !in CacheAfterGet(cache, url, cleanAt, checkAt)
    ensures CacheAfterGet(cache, url, cleanAt, checkAt).Keys <= cache.Keys
  {
  }

  /** Stored content is returned while it is no older than fifteen minutes
      at both readings of the clock. */
  lemma GetAfterSet(cache: map<string, CacheEntry>, url: string, content: string, t: int, cleanAt: int, checkAt: int)
    requires cleanAt - t <= CacheDuration && checkAt - t <= CacheDuration
    ensures CachedValue(cache[url := CacheEntry(content, t)], url, cleanAt, checkAt) == Some(content)
  {
    var c := cache[url := CacheEntry(content, t)];
    assert url in Cleaned(c, cleanAt);
  }

  /** `WebFetchTool` with its cache of URL to page and time. */
  class WebFetchTool {
    var cache: map<string, CacheEntry>

    constructor()
      ensures cache == map[]
    {
      cache := map[];
    }

    /** `_clean_cache`: collect the expired URLs, then delete them. */
    method CleanCache(now: int)
      modifies this
      ensures cache == Cleaned(old(cache), now)
    {
      var expired := set u | u in cache && Expired(cache[u], now);
      ghost var all := expired;
      while expired != {}
        invariant expired <= all
        invariant all == set u | u in old(cache) && Expired(old(cache)[u], now)
        invariant cache.Keys == old(cache).Keys - (all - expired)
        invariant forall u :: u in cache ==> cache[u] == old(cache)[u]
        decreases |expired|
      {
        var key :| key in expired;
        cache := cache - {key};
        expired := expired - {key};
      }
      assert cache.Keys == Cleaned(old(cache), now).Keys;
    }

    /** `_get_from_cache`. */
    method GetFromCache(url: string, cleanAt: int, checkAt: int) returns (r: Option<string>)
      modifies this
      ensures r == CachedValue(old(cache), url, cleanAt, checkAt)
      ensures cache == CacheAfterGet(old(cache), url, cleanAt, checkAt)
    {
      CleanCache(cleanAt);
      if url in cache {
        var entry := cache[url];
        if checkAt - entry.timestamp <= CacheDuration {
          return Some(entry.content);
        }
        cache := cache - {url};
      }
      return None;
    }

    /** `_set_cache`. */
    method SetCache(url: string, content: string, now: int)
      modifies this
      ensures cache == old(cache)[url := CacheEntry(content, now)]
    {
      cache := cache[url := CacheEntry(content, now)];
    }

    /** `WebFetchTool.execute` after the parameters have been read. */
    method Execute(p: FetchParams, clock: Clock, reply: FetchReply, conv: Converters) returns (r: ToolResult)
      modifies this
      ensures r == Fetch(p, old(cache), clock, reply, conv).result
      ensures cache == Fetch(p, old(cache), clock, reply, conv).cache
    {
      var timeout := FetchTimeout(p.timeout);
      var checked := ValidateUrl(p.url);
      if checked.Err? {
        return ErrorResult("参数错误: ", p.url, checked.error, "validation_error");
      }
      var url := checked.value;
      var cached := GetFromCache(url, clock.cleanAt, clock.checkAt);
      if cached.Some? && cached.value != "" {
        return Fetched(url, p.format, cached.value, CachedType, conv);
      }
      match reply
      case Page(content, contentType) =>
        SetCache(url, content, clock.storeAt);
        r := Fetched(url, p.format, content, contentType, conv);
      case TooLarge =>
        r := ErrorResult("参数错误: ", url, TooLargeMessage, "validation_error");
      case NetworkError(message) =>
        r := ErrorResult("网络错误: ", url, "无法获取网页内容: " + message, "network_error");
      case TimedOut =>
        r := TimeoutResult(url, timeout);
      case Failed(message) =>
        r := UnknownErrorResult(url, message);
    }
  }

  // ---------------------------------------------------------------------
  // `WebFetchTool.execute`

  /** The parameters: the URL, the format (`params.get("format",
      "markdown")`) and the timeout if one was given. */
  datatype FetchParams = FetchParams(url: string, format: string, timeout: Option<int>)

  /** The three readings of the clock: when the cache is cleaned, when the
      entry found is checked, and when a fetched page is stored. */
  datatype Clock = Clock(cleanAt: int, checkAt: int, storeAt: int)

  /** What fetching the page would give: its text and content type, or the
      error raised (an over-size body raises `ValueError`). */
  datatype FetchReply = Page(content: string, contentType: string) | TooLarge | NetworkError(message: string)
                      | TimedOut | Failed(message: string)

  /** The HTML-to-text and HTML-to-Markdown converters. */
  datatype Converters = Converters(toText: string -> string, toMarkdown: string -> string)

  datatype FetchOutcome = FetchOutcome(result: ToolResult, cache: map<string, CacheEntry>)

  const CachedType: string := "text/html (cached)"
  const TooLargeMessage: string := "响应过大（超过 5MB 限制）"

  /** `min(params.get("timeout", 30), 120)`. */
  function FetchTimeout(requested: Option<int>): int {
    var t := requested.GetOr(DefaultTimeout);
    if t < MaxTimeout then t else MaxTimeout
  }

  /** The timeout never exceeds two minutes, is thirty seconds by default and
      is the requested one when that is within the limit. */
  lemma FetchTimeoutSpec(requested: Option<int>)
    ensures FetchTimeout(requested) <= MaxTimeout
    ensures requested.None? ==> FetchTimeout(requested) == DefaultTimeout
    ensures requested.Some? && requested.value <= MaxTimeout ==> FetchTimeout(requested) == requested.value
    ensures requested.Some? && requested.value > MaxTimeout ==> FetchTimeout(requested) == MaxTimeout
  {
  }

  /** The output for the requested format: HTML is converted for "text" and
      "markdown", other content is fenced for "markdown", and "html" or any
      other format gives the content as it is. */
  function Rendered(format: string, content: string, contentType: string, conv: Converters): string {
    var html := Contains(contentType, "text/html");
    if format == "text" then (if html then conv.toText(content) else content)
    else if format == "markdown" then (if html then conv.toMarkdown(content) else "```\n" + content + "\n```")
    else content
  }

  function Fetched(url: string, format: string, content: string, contentType: string, conv: Converters): ToolResult {
    ToolResult(url + " (" + contentType + ")", Rendered(format, content, contentType, conv),
      Some(map["url" := Str(url), "content_type" := Str(contentType), "format" := Str(format),
               "content_length" := Int(|content|), "cached" := Bool(Contains(contentType, "cached"))]))
  }

  function ErrorResult(prefix: string, url: string, output: string, tag: string): ToolResult {
    ToolResult(prefix + url, output, Some(map["error" := Str(tag), "url" := Str(url)]))
  }

  function TimeoutResult(url: string, timeout: int): ToolResult {
    ToolResult("超时错误: " + url, "请求超时（" + IntToString(timeout) + "秒）",
      Some(map["error" := Str("timeout_error"), "url" := Str(url), "timeout" := Int(timeout)]))
  }

  function UnknownErrorResult(url: string, message: string): ToolResult {
    ToolResult("未知错误: " + url, "获取网页时发生错误: " + message,
      Some(map["error" := Str("unknown_error"), "url" := Str(url), "error_message" := Str(message)]))
  }

  /** The whole fetch: validation, the cache, and the page or error. An
      empty cached page counts as a miss, since the source tests the
      content's truth. */
  function Fetch(p: FetchParams, cache: map<string, CacheEntry>, clock: Clock, reply: FetchReply, conv: Converters): FetchOutcome {
    var checked := ValidateUrl(p.url);
    if checked.Err? then FetchOutcome(ErrorResult("参数错误: ", p.url, checked.error, "validation_error"), cache)
    else
      var url := checked.value;
      var hit := CachedValue(cache, url, clock.cleanAt, clock.checkAt);
      var kept := CacheAfterGet(cache, url, clock.cleanAt, clock.checkAt);
      if hit.Some? && hit.value != "" then FetchOutcome(Fetched(url, p.format, hit.value, CachedType, conv), kept)
      else
        match reply
        case Page(content, contentType) =>
          FetchOutcome(Fetched(url, p.format, content, contentType, conv), kept[url := CacheEntry(content, clock.storeAt)])
        case TooLarge => FetchOutcome(ErrorResult("参数错误: ", url, TooLargeMessage, "validation_error"), kept)
        case NetworkError(message) =>
          FetchOutcome(ErrorResult("网络错误: ", url, "无法获取网页内容: " + message, "network_error"), kept)
        case TimedOut => FetchOutcome(TimeoutResult(url, FetchTimeout(p.timeout)), kept)
        case Failed(message) => FetchOutcome(UnknownErrorResult(url, message), kept)
  }

  /** A URL that is not http or https is refused before the cache is
      touched, whatever the network would have answered. */
  lemma FetchRejectsUrl(p: FetchParams, cache: map<string, CacheEntry>, clock: Clock, reply: FetchReply, conv: Converters)
    requires !StartsWith(p.url, "http://") && !StartsWith(p.url, "https://")
    ensures var out := Fetch(p, cache, clock, reply, conv);
      out.cache == cache && MetaIs(out.result, "error", Str("validation_error")) &&
      MetaIs(out.result, "url", Str(p.url)) && out.result.output == UrlError
  {
  }

  /** A non-empty fresh cached page is served without fetching: the reply
      does not matter and the content type says it was cached. */
  lemma FetchServesCache(p: FetchParams, cache: map<string, CacheEntry>, clock: Clock, r1: FetchReply, r2: FetchReply, conv: Converters)
    requires ValidateUrl(p.url).Ok?
    requires var hit := CachedValue(cache, ValidateUrl(p.url).value, clock.cleanAt, clock.checkAt);
      hit.Some? && hit.value != ""
    ensures Fetch(p, cache, clock, r1, conv) == Fetch(p, cache, clock, r2, conv)
    ensures MetaIs(Fetch(p, cache, clock, r1, conv).result, "cached", Bool(true))
  {
    assert Contains(CachedType, "cached") by {
      assert CachedType[11..17] == "cached";
      assert OccursAt(CachedType, "cached", 11);
      ContainsIff(CachedType, "cached");
    }
  }

  /** A fetched page is stored under the upgraded URL at the time of the
      store; a failed fetch stores nothing. */
  lemma FetchStoresPage(p: FetchParams, cache: map<string, CacheEntry>, clock: Clock, reply: FetchReply, conv: Converters)
    requires ValidateUrl(p.url).Ok?
    requires CachedValue(cache, ValidateUrl(p.url).value, clock.cleanAt, clock.checkAt).None?
    ensures var url := ValidateUrl(p.url).value;
      var out := Fetch(p, cache, clock, reply, conv);
      (reply.Page? ==> out.cache == CacheAfterGet(cache, url, clock.cleanAt, clock.checkAt)[url := CacheEntry(reply.content, clock.storeAt)] &&
                       MetaIs(out.result, "content_length", Int(|reply.content|))) &&
      (!reply.Page? ==> out.cache == CacheAfterGet(cache, url, clock.cleanAt, clock.checkAt) && out.result.metadata.Some? &&
                        "error" in out.result.metadata.value)
  {
  }

  /** A timed-out fetch reports the timeout it used, at most two minutes. */
  lemma FetchTimeoutReported(p: FetchParams, cache: map<string, CacheEntry>, clock: Clock, conv: Converters)
    requires ValidateUrl(p.url).Ok?
    requires CachedValue(cache, ValidateUrl(p.url).value, clock.cleanAt, clock.checkAt).None?
    ensures MetaIs(Fetch(p, cache, clock, TimedOut, conv).result, "timeout", Int(FetchTimeout(p.timeout)))
    ensures FetchTimeout(p.timeout) <= MaxTimeout
  {
  }

  /** Fetching a URL and then fetching it again within fifteen minutes
      serves the stored page without asking the network. */
  lemma FetchTwice(p: FetchParams, cache: map<string, CacheEntry>, c1: Clock, c2: Clock, content: string, contentType: string,
                   r2: FetchReply, conv: Converters)
    requires ValidateUrl(p.url).Ok? && content != ""
    requires CachedValue(cache, ValidateUrl(p.url).value, c1.cleanAt, c1.checkAt).None?
    requires c2.cleanAt - c1.storeAt <= CacheDuration && c2.checkAt - c1.storeAt <= CacheDuration
    ensures var first := Fetch(p, cache, c1, Page(content, contentType), conv);
      Fetch(p, first.cache, c2, r2, conv).result == Fetched(ValidateUrl(p.url).value, p.format, content, CachedType, conv)
  {
    var url := ValidateUrl(p.url).value;
    var first := Fetch(p, cache, c1, Page(content, contentType), conv);
    var kept := CacheAfterGet(cache, url, c1.cleanAt, c1.checkAt);
    assert first.cache == kept[url := CacheEntry(content, c1.storeAt)];
    GetAfterSet(kept, url, content, c1.storeAt, c2.cleanAt, c2.checkAt);
  }

  // ---------------------------------------------------------------------
  // `WebSearchTool`

  /** One search hit as the search library returns it; a missing key is
      None. */
  datatype SearchHit = SearchHit(title: Option<string>, href: Option<string>, body: Option<string>)

  const NoResultsText: string := "未找到相关搜索结果。"

  /** One formatted hit, numbered `n`, with the defaults for missing keys. */
  function Entry(n: nat, hit: SearchHit): string {
    "**" + NatToString(n) + ". " + hit.title.GetOr("无标题") + "**\n" +
    "URL: " + hit.href.GetOr("") + "\n" +
    "摘要: " + hit.body.GetOr("无描述") + "\n"
  }

  /** The formatted hits, numbered from 1 in the order given. */
  function Entries(hits: seq<SearchHit>): (r: seq<string>)
    ensures |r| == |hits|
    ensures forall k :: 0 <= k < |hits| ==> r[k] == Entry(k + 1, hits[k])
  {
    if hits == [] then [] else Entries(hits[..|hits| - 1]) + [Entry(|hits|, hits[|hits| - 1])]
  }

  function SearchText(hits: seq<SearchHit>): string {
    if hits == [] then NoResultsText else Join(Entries(hits), "\n")
  }

  /** `_format_search_results`, appending one entry per hit. */
  method FormatSearchResults(hits: seq<SearchHit>) returns (out: string)
    ensures out == SearchText(hits)
  {
    if hits == [] {
      return NoResultsText;
    }
    var formatted: seq<string> := [];
    for i := 0 to |hits|
      invariant formatted == Entries(hits[..i])
    {
      assert hits[..i + 1][..i] == hits[..i];
      formatted := formatted + [Entry(i + 1, hits[i])];
    }
    assert hits[..|hits|] == hits;
    out := Join(formatted, "\n");
  }

  /** The text starts with the first hit, numbered 1. */
  lemma SearchTextFirst(hits: seq<SearchHit>)
    requires hits != []
    ensures StartsWith(SearchText(hits), Entry(1, hits[0]))
  {
    var es := Entries(hits);
    var first := es[0];
    if |es| > 1 {
      var rest := "\n" + Join(es[1..], "\n");
      assert SearchText(hits) == first + rest;
      Prefix(first, rest);
    } else {
      assert SearchText(hits) == first + "";
      Prefix(first, "");
    }
  }

  /** A hit with no title, link or description shows the defaults. */
  lemma EntryDefaults(hit: SearchHit, n: nat)
    requires hit == SearchHit(None, None, None)
    ensures Entry(n, hit) == "**" + NatToString(n) + ". 无标题**\nURL: \n摘要: 无描述\n"
  {
  }

  lemma Prefix(a: string, b: string)
    ensures StartsWith(a + b, a)
  {
    assert (a + b)[..|a|] == a;
  }

  /** The search parameters with their defaults applied. */
  datatype SearchParams = SearchParams(query: string, region: string, safesearch: string, timelimit: Option<string>)

  function HitValue(hit: SearchHit): Value {
    Dict((if hit.title.Some? then map["title" := Str(hit.title.value)] else map[]) +
         (if hit.href.Some? then map["href" := Str(hit.href.value)] else map[]) +
         (if hit.body.Some? then map["body" := Str(hit.body.value)] else map[]))
  }

  function HitValues(hits: seq<SearchHit>): (r: seq<Value>)
    ensures |r| == |hits| && forall k :: 0 <= k < |hits| ==> r[k] == HitValue(hits[k])
  {
    if hits == [] then [] else [HitValue(hits[0])] + HitValues(hits[1..])
  }

  /** `WebSearchTool.execute`; `reply` is what the search library returned,
      or the message of the error it raised. */
  function Search(p: SearchParams, reply: Result<seq<SearchHit>>): ToolResult {
    if Strip(p.query) == "" then
      ToolResult("搜索错误", "搜索查询不能为空", Some(map["error" := Str("empty_query")]))
    else
      match reply
      case Err(message) =>
        ToolResult("搜索错误: " + p.query, "搜索过程中发生错误: " + message,
          Some(map["error" := Str("search_error"), "query" := Str(p.query), "error_message" := Str(message)]))
      case Ok(hits) =>
        if hits == [] then
          ToolResult("搜索结果: " + p.query, "未找到相关搜索结果。请尝试使用不同的关键词。",
            Some(map["query" := Str(p.query), "results_count" := Int(0), "region" := Str(p.region)]))
        else
          ToolResult("搜索结果: " + p.query, SearchText(hits),
            Some(map["query" := Str(p.query), "results_count" := Int(|hits|), "region" := Str(p.region),
                     "safesearch" := Str(p.safesearch),
                     "timelimit" := (if p.timelimit.Some? then Str(p.timelimit.value) else Null),
                     "raw_results" := List(HitValues(PySlice(hits, 0, 5)))]))
  }

  /** A blank query is refused before searching, whatever the search would
      have returned. */
  lemma SearchBlankQuery(p: SearchParams, r1: Result<seq<SearchHit>>, r2: Result<seq<SearchHit>>)
    requires Strip(p.query) == ""
    ensures Search(p, r1) == Search(p, r2)
    ensures MetaIs(Search(p, r1), "error", Str("empty_query"))
  {
  }

  /** The count is of all hits while the raw hits kept are the first five. */
  lemma SearchCounts(p: SearchParams, hits: seq<SearchHit>)
    requires Strip(p.query) != "" && hits != []
    ensures MetaIs(Search(p, Ok(hits)), "results_count", Int(|hits|))
    ensures var raw := HitValues(PySlice(hits, 0, 5));
      MetaIs(Search(p, Ok(hits)), "raw_results", List(raw)) &&
      |raw| == (if |hits| < 5 then |hits| else 5) &&
      forall k :: 0 <= k < |raw| ==> raw[k] == HitValue(hits[k])
    ensures Search(p, Ok(hits)).output == SearchText(hits)
  {
  }
}
