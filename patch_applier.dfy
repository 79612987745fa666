/** The patch applier: a reader for unified-diff hunks (the `-u` output
    format of the POSIX `diff` utility) and the code that checks each hunk
    against the original lines and splices it in, last hunk first. */
module Patch {
  import opened Wrappers
  import opened Text

  datatype LineKind = Context | Remove | Add

  /** One body line of a hunk, its one-character prefix dropped. */
  datatype PatchLine = PatchLine(kind: LineKind, content: string)

  /** The four numbers of a hunk header. */
  datatype Header = Header(oldStart: nat, oldCount: nat, newStart: nat, newCount: nat)

  datatype Hunk = Hunk(header: Header, lines: seq<PatchLine>)

  // ---------------------------------------------------------------------
  // The hunk header `@@ -a[,b] +c[,d] @@`

  /** The length of the run of ASCII digits at the front of `s`. */
  function DigitRun(s: string): (n: nat)
    ensures n <= |s|
    ensures forall k :: 0 <= k < n ==> IsDigit(s[k])
    ensures n == |s| || !IsDigit(s[n])
  {
    if |s| > 0 && IsDigit(s[0]) then 1 + DigitRun(s[1..]) else 0
  }

  /** `(\d+)` at the front of `s`: the number read and the rest. */
  function Number(s: string): Option<(nat, string)> {
    var n := DigitRun(s);
    if n == 0 then None
    else
      assert AllDigits(s[..n]);
      Some((DigitsValue(s[..n]), s[n..]))
  }

  /** `(?:,(\d+))?` at the front of `s`, the count defaulting to 1. A comma
      not followed by a digit makes the whole header fail, since the text
      after the group must then start with a space. */
  function OptCount(s: string): Option<(nat, string)> {
    if |s| > 0 && s[0] == ',' then Number(s[1..]) else Some((1, s))
  }

  /** One range of the header: `(\d+)(?:,(\d+))?`, its start, its count and
      the rest of the line. */
  function Range(s: string): Option<(nat, nat, string)> {
    match Number(s)
    case None => None
    case Some((start, r)) =>
      match OptCount(r)
      case None => None
      case Some((count, rest)) => Some((start, count, rest))
  }

  /** `re.match(r'@@ -(\d+)(?:,(\d+))? \+(\d+)(?:,(\d+))? @@', line)`: the
      header must be a prefix of the line; what follows it is ignored. */
  function ParseHeader(line: string): Option<Header> {
    if StartsWith(line, "@@ -") then Ranges(line[4..]) else None
  }

  function Ranges(s: string): Option<Header> {
    match Range(s)
    case None => None
    case Some((a, b, r)) =>
      if !StartsWith(r, " +") then None
      else match Range(r[2..])
        case None => None
        case Some((c, d, rest)) => if StartsWith(rest, " @@") then Some(Header(a, b, c, d)) else None
  }

  /** A count as `diff` writes it: omitted, or after a comma. */
  function CountText(n: Option<nat>): string {
    if n.Some? then "," + NatToString(n.value) else ""
  }

  /** A header line, each count written or omitted, followed by `rest`. */
  function HeaderLine(a: nat, b: Option<nat>, c: nat, d: Option<nat>, rest: string): string {
    "@@ -" + (NatToString(a) + CountText(b) + (" +" + (NatToString(c) + CountText(d) + (" @@" + rest))))
  }

  function CountOr1(n: Option<nat>): nat {
    if n.Some? then n.value else 1
  }

  lemma {:induction false} DigitRunExact(s: string, n: nat)
    requires n <= |s| && forall k :: 0 <= k < n ==> IsDigit(s[k])
    requires n == |s| || !IsDigit(s[n])
    ensures DigitRun(s) == n
    decreases n
  {
    if n > 0 {
      DigitRunExact(s[1..], n - 1);
    }
  }

  /** The digits of `str(n)`, followed by anything but a digit, read back as
      `n`. */
  lemma NumberOfText(n: nat, rest: string)
    requires rest == [] || !IsDigit(rest[0])
    ensures Number(NatToString(n) + rest) == Some((n, rest))
  {
    var t := NatToString(n);
    var s := t + rest;
    DigitRunExact(s, |t|);
    NatToStringRoundTrip(n);
    assert s[..|t|] == t && s[|t|..] == rest;
  }

  /** An optional count, as written, is read back; when omitted it is 1. */
  lemma CountOfText(n: Option<nat>, rest: string)
    requires rest != [] && rest[0] == ' '
    ensures OptCount(CountText(n) + rest) == Some((CountOr1(n), rest))
  {
    if n.Some? {
      var t := NatToString(n.value);
      assert (CountText(n) + rest)[1..] == t + rest;
      NumberOfText(n.value, rest);
    } else {
      assert CountText(n) + rest == rest;
    }
  }

  /** A range written as `diff` writes it reads back. */
  lemma RangeOfText(n: nat, count: Option<nat>, rest: string)
    requires rest != [] && rest[0] == ' '
    ensures Range(NatToString(n) + CountText(count) + rest) == Some((n, CountOr1(count), rest))
  {
    var r := CountText(count) + rest;
    assert NatToString(n) + CountText(count) + rest == NatToString(n) + r;
    assert r[0] == ',' || r[0] == ' ' by {
      if count.None? { assert r == rest; }
    }
    NumberOfText(n, r);
    CountOfText(count, rest);
    RangeParts(NatToString(n) + r, n, r, CountOr1(count), rest);
  }

  lemma RangeParts(s: string, n: nat, r: string, count: nat, rest: string)
    requires Number(s) == Some((n, r)) && OptCount(r) == Some((count, rest))
    ensures Range(s) == Some((n, count, rest))
  {
  }

  /** A header written as `diff` writes it reads back with the same numbers,
      an omitted count being 1, whatever follows it on the line. */
  lemma HeaderRoundTrip(a: nat, b: Option<nat>, c: nat, d: Option<nat>, rest: string)
    ensures ParseHeader(HeaderLine(a, b, c, d, rest)) == Some(Header(a, CountOr1(b), c, CountOr1(d)))
  {
    var second := " +" + (NatToString(c) + CountText(d) + (" @@" + rest));
    var line := HeaderLine(a, b, c, d, rest);
    assert line[..4] == "@@ -";
    assert line[4..] == NatToString(a) + CountText(b) + second;
    RangesOfText(a, b, c, d, rest, second);
  }

  lemma RangesOfText(a: nat, b: Option<nat>, c: nat, d: Option<nat>, rest: string, second: string)
    requires second == " +" + (NatToString(c) + CountText(d) + (" @@" + rest))
    ensures Ranges(NatToString(a) + CountText(b) + second) == Some(Header(a, CountOr1(b), c, CountOr1(d)))
  {
    var tail := " @@" + rest;
    RangeOfText(a, b, second);
    assert second[2..] == NatToString(c) + CountText(d) + tail;
    RangeOfText(c, d, tail);
    assert StartsWith(tail, " @@");
  }

  /** A header line starts with `@@` and so is not a file header. */
  lemma HeaderLineShape(a: nat, b: Option<nat>, c: nat, d: Option<nat>, rest: string)
    ensures StartsWith(HeaderLine(a, b, c, d, rest), "@@") && !IsFileHeader(HeaderLine(a, b, c, d, rest))
  {
    var line := HeaderLine(a, b, c, d, rest);
    assert line[0] == '@' && line[1] == '@';
    assert line[..2] == "@@";
  }

  // ---------------------------------------------------------------------
  // Reading the lines of a patch

  /** The reader's state: broken by a malformed header, or the finished
      hunks and the one being read. */
  datatype Reader = Broken | Reading(chunks: seq<Hunk>, current: Option<Hunk>)

  /** Where file header lines (`---` and `+++`) are skipped: everywhere, as
      the parser does, or only before the first hunk. */
  datatype HeaderRule = SkipEverywhere | SkipBeforeHunks

  predicate IsFileHeader(l: string) {
    StartsWith(l, "---") || StartsWith(l, "+++")
  }

  /** A hunk body line: ' ', '-' or '+' and the rest of the line. */
  function BodyLine(l: string): Option<PatchLine> {
    if |l| > 0 && l[0] == ' ' then Some(PatchLine(Context, l[1..]))
    else if |l| > 0 && l[0] == '-' then Some(PatchLine(Remove, l[1..]))
    else if |l| > 0 && l[0] == '+' then Some(PatchLine(Add, l[1..]))
    else None
  }

  function Skips(rule: HeaderRule, st: Reader, l: string): bool {
    IsFileHeader(l) && (rule.SkipEverywhere? || st.Broken? || st.current.None?)
  }

  /** One line of the reading loop. A line starting with `@@` closes the
      current hunk and opens a new one (or breaks the reader); inside a hunk
      body lines are appended; anything else is ignored. */
  function Feed(rule: HeaderRule, st: Reader, l: string): Reader {
    if st.Broken? || Skips(rule, st, l) then st
    else if StartsWith(l, "@@") then
      var closed := if st.current.Some? then st.chunks + [st.current.value] else st.chunks;
      match ParseHeader(l)
      case None => Broken
      case Some(h) => Reading(closed, Some(Hunk(h, [])))
    else if st.current.Some? && BodyLine(l).Some? then
      Reading(st.chunks, Some(st.current.value.(lines := st.current.value.lines + [BodyLine(l).value])))
    else st
  }

  function FeedAll(rule: HeaderRule, st: Reader, ls: seq<string>): Reader
    decreases |ls|
  {
    if ls == [] then st else FeedAll(rule, Feed(rule, st, ls[0]), ls[1..])
  }

  const Start: Reader := Reading([], None)

  /** The hunks read, or None when a header was malformed or none was found. */
  function Finish(st: Reader): Option<seq<Hunk>> {
    match st
    case Broken => None
    case Reading(chunks, current) =>
      var all := if current.Some? then chunks + [current.value] else chunks;
      if all == [] then None else Some(all)
  }

  function ParseLines(rule: HeaderRule, ls: seq<string>): Option<seq<Hunk>> {
    Finish(FeedAll(rule, Start, ls))
  }

  /** `_parse_unified_diff`: the stripped patch split into lines. */
  function ParseUnifiedDiff(patch: string): Option<seq<Hunk>> {
    ParseLines(SkipEverywhere, Split(Strip(patch), "\n"))
  }

  lemma {:induction false} FeedAllConcat(rule: HeaderRule, st: Reader, a: seq<string>, b: seq<string>)
    ensures FeedAll(rule, st, a + b) == FeedAll(rule, FeedAll(rule, st, a), b)
    decreases |a|
  {
    if a != [] {
      assert (a + b)[0] == a[0] && (a + b)[1..] == a[1..] + b;
      FeedAllConcat(rule, Feed(rule, st, a[0]), a[1..], b);
    } else {
      assert a + b == b;
    }
  }

  lemma FeedAllSnoc(rule: HeaderRule, st: Reader, a: seq<string>, l: string)
    ensures FeedAll(rule, st, a + [l]) == Feed(rule, FeedAll(rule, st, a), l)
  {
    FeedAllConcat(rule, st, a, [l]);
  }

  /** The reading loop of `_parse_unified_diff`. */
  method ReadPatch(patch: string) returns (r: Option<seq<Hunk>>)
    ensures r == ParseUnifiedDiff(patch)
  {
    var lines := Split(Strip(patch), "\n");
    var chunks: seq<Hunk> := [];
    var current: Option<Hunk> := None;
    for i := 0 to |lines|
      invariant FeedAll(SkipEverywhere, Start, lines[..i]) == Reading(chunks, current)
    {
      var line := lines[i];
      FeedAllSnoc(SkipEverywhere, Start, lines[..i], line);
      assert lines[..i + 1] == lines[..i] + [line];
      if StartsWith(line, "---") || StartsWith(line, "+++") {
        continue;
      }
      if StartsWith(line, "@@") {
        if current.Some? {
          chunks := chunks + [current.value];
        }
        var header := ParseHeader(line);
        if header.None? {
          BrokenPrefix(SkipEverywhere, lines, i + 1);
          return None;
        }
        current := Some(Hunk(header.value, []));
      } else if current.Some? {
        var body := BodyLine(line);
        if body.Some? {
          current := Some(current.value.(lines := current.value.lines + [body.value]));
        }
      }
    }
    assert lines[..|lines|] == lines;
    r := Finish(Reading(chunks, current));
  }

  /** Once a prefix of the lines leaves the reader broken, so do all of them. */
  lemma BrokenPrefix(rule: HeaderRule, ls: seq<string>, n: nat)
    requires n <= |ls| && FeedAll(rule, Start, ls[..n]) == Broken
    ensures FeedAll(rule, Start, ls) == Broken
  {
    BrokenStays(rule, ls[n..]);
    FeedAllConcat(rule, Start, ls[..n], ls[n..]);
    assert ls == ls[..n] + ls[n..];
  }

  /** A malformed header ends the reading for good. */
  lemma {:induction false} BrokenStays(rule: HeaderRule, ls: seq<string>)
    ensures FeedAll(rule, Broken, ls) == Broken
    decreases |ls|
  {
    if ls != [] {
      BrokenStays(rule, ls[1..]);
    }
  }

  /** A line starting with `@@` that is not a well-formed header (and not a
      file header) makes the whole parse fail, wherever it appears. */
  lemma MalformedHeaderFails(rule: HeaderRule, ls: seq<string>, k: nat)
    requires k < |ls| && StartsWith(ls[k], "@@") && !IsFileHeader(ls[k]) && ParseHeader(ls[k]).None?
    ensures ParseLines(rule, ls) == None
  {
    assert ls == ls[..k] + [ls[k]] + ls[k + 1..];
    FeedAllConcat(rule, Start, ls[..k] + [ls[k]], ls[k + 1..]);
    FeedAllSnoc(rule, Start, ls[..k], ls[k]);
    BrokenStays(rule, ls[k + 1..]);
  }

  /** As written, a file header line is skipped wherever it appears, even
      inside a hunk: removing it changes nothing. */
  lemma FileHeaderSkipped(pre: seq<string>, l: string, post: seq<string>)
    requires IsFileHeader(l)
    ensures ParseLines(SkipEverywhere, pre + [l] + post) == ParseLines(SkipEverywhere, pre + post)
  {
    FeedAllConcat(SkipEverywhere, Start, pre + [l], post);
    FeedAllSnoc(SkipEverywhere, Start, pre, l);
    FeedAllConcat(SkipEverywhere, Start, pre, post);
  }

  /** Lines before the first hunk header are ignored. */
  lemma {:induction false} PreambleIgnored(rule: HeaderRule, pre: seq<string>)
    requires forall i :: 0 <= i < |pre| ==> !StartsWith(pre[i], "@@") || IsFileHeader(pre[i])
    ensures FeedAll(rule, Start, pre) == Start
    decreases |pre|
  {
    if pre != [] {
      PreambleIgnored(rule, pre[1..]);
    }
  }

  lemma PreambleDropped(rule: HeaderRule, pre: seq<string>, post: seq<string>)
    requires forall i :: 0 <= i < |pre| ==> !StartsWith(pre[i], "@@") || IsFileHeader(pre[i])
    ensures ParseLines(rule, pre + post) == ParseLines(rule, post)
  {
    PreambleIgnored(rule, pre);
    FeedAllConcat(rule, Start, pre, post);
  }

  /** A patch without any hunk header reads as None. */
  lemma NoHunkNone(rule: HeaderRule, ls: seq<string>)
    requires forall i :: 0 <= i < |ls| ==> !StartsWith(ls[i], "@@") || IsFileHeader(ls[i])
    ensures ParseLines(rule, ls) == None
  {
    PreambleIgnored(rule, ls);
  }

  // ---------------------------------------------------------------------
  // Writing hunks back as text

  function Prefix(k: LineKind): char {
    match k
    case Context => ' '
    case Remove => '-'
    case Add => '+'
  }

  function BodyText(ls: seq<PatchLine>): (r: seq<string>)
    ensures |r| == |ls|
    ensures forall i :: 0 <= i < |ls| ==> r[i] == [Prefix(ls[i].kind)] + ls[i].content
  {
    if ls == [] then [] else [[Prefix(ls[0].kind)] + ls[0].content] + BodyText(ls[1..])
  }

  /** Hunks as the lines of a patch, every count written out. */
  function HunksText(hs: seq<Hunk>): seq<string> {
    if hs == [] then []
    else
      var h := hs[0].header;
      [HunkHeaderText(h)] + BodyText(hs[0].lines) + HunksText(hs[1..])
  }

  /** A body line the reader, as written, takes for a file header: a removed
      line starting with `--` or an added line starting with `++`. */
  predicate LooksLikeFileHeader(p: PatchLine) {
    IsFileHeader([Prefix(p.kind)] + p.content)
  }

  predicate ReadableUnder(rule: HeaderRule, hs: seq<Hunk>) {
    rule.SkipEverywhere? ==>
      forall i, j :: 0 <= i < |hs| && 0 <= j < |hs[i].lines| ==> !LooksLikeFileHeader(hs[i].lines[j])
  }

  /** Inside a hunk, a written body line is appended to the hunk. */
  lemma FeedBodyLine(rule: HeaderRule, cs: seq<Hunk>, h: Hunk, p: PatchLine)
    requires rule.SkipEverywhere? ==> !LooksLikeFileHeader(p)
    ensures Feed(rule, Reading(cs, Some(h)), [Prefix(p.kind)] + p.content) == Reading(cs, Some(h.(lines := h.lines + [p])))
  {
    var l := [Prefix(p.kind)] + p.content;
    assert l[1..] == p.content;
    assert BodyLine(l) == Some(p);
    assert !StartsWith(l, "@@") by {
      assert l[0] != '@';
    }
  }

  lemma {:induction false} BodyRoundTrip(rule: HeaderRule, cs: seq<Hunk>, h: Hunk, ls: seq<PatchLine>)
    requires rule.SkipEverywhere? ==> forall j :: 0 <= j < |ls| ==> !LooksLikeFileHeader(ls[j])
    ensures FeedAll(rule, Reading(cs, Some(h)), BodyText(ls)) == Reading(cs, Some(h.(lines := h.lines + ls)))
    decreases |ls|
  {
    if ls == [] {
      assert h.lines + ls == h.lines;
    } else {
      var l := [Prefix(ls[0].kind)] + ls[0].content;
      assert BodyText(ls) == [l] + BodyText(ls[1..]);
      FeedAllCons(rule, Reading(cs, Some(h)), l, BodyText(ls[1..]));
      FeedBodyLine(rule, cs, h, ls[0]);
      var h' := h.(lines := h.lines + [ls[0]]);
      BodyRoundTrip(rule, cs, h', ls[1..]);
      ConsAppend(h.lines, ls);
    }
  }

  lemma ConsAppend<T>(a: seq<T>, ls: seq<T>)
    requires ls != []
    ensures a + [ls[0]] + ls[1..] == a + ls
  {
    assert [ls[0]] + ls[1..] == ls;
  }

  /** A well-formed header line opens a new hunk, closing the current one. */
  lemma FeedHeader(rule: HeaderRule, cs: seq<Hunk>, cur: Option<Hunk>, l: string, h: Header)
    requires StartsWith(l, "@@") && !IsFileHeader(l) && ParseHeader(l) == Some(h)
    ensures Feed(rule, Reading(cs, cur), l) == Reading(if cur.Some? then cs + [cur.value] else cs, Some(Hunk(h, [])))
  {
  }

  function HunkHeaderText(h: Header): string {
    HeaderLine(h.oldStart, Some(h.oldCount), h.newStart, Some(h.newCount), "")
  }

  lemma HeaderLineRead(rule: HeaderRule, cs: seq<Hunk>, cur: Option<Hunk>, h: Header)
    ensures Feed(rule, Reading(cs, cur), HunkHeaderText(h)) ==
      Reading(if cur.Some? then cs + [cur.value] else cs, Some(Hunk(h, [])))
  {
    HeaderRoundTrip(h.oldStart, Some(h.oldCount), h.newStart, Some(h.newCount), "");
    HeaderLineShape(h.oldStart, Some(h.oldCount), h.newStart, Some(h.newCount), "");
    FeedHeader(rule, cs, cur, HunkHeaderText(h), h);
  }

  lemma FeedAllCons(rule: HeaderRule, st: Reader, l: string, rest: seq<string>)
    ensures FeedAll(rule, st, [l] + rest) == FeedAll(rule, Feed(rule, st, l), rest)
  {
    assert ([l] + rest)[0] == l && ([l] + rest)[1..] == rest;
  }

  /** The text of the first hunk, read from any state, leaves that hunk
      open with its body read. */
  lemma FirstHunkRead(rule: HeaderRule, cs: seq<Hunk>, cur: Option<Hunk>, hs: seq<Hunk>)
    requires hs != [] && ReadableUnder(rule, hs)
    ensures FeedAll(rule, Reading(cs, cur), HunksText(hs)) ==
      FeedAll(rule, Reading(if cur.Some? then cs + [cur.value] else cs, Some(hs[0])), HunksText(hs[1..]))
  {
    var h := hs[0];
    var l := HunkHeaderText(h.header);
    var closed := if cur.Some? then cs + [cur.value] else cs;
    var body := BodyText(h.lines);
    HunksTextCons(hs);
    HeaderLineRead(rule, cs, cur, h.header);
    BodyRoundTrip(rule, closed, Hunk(h.header, []), h.lines);
    assert Hunk(h.header, []).(lines := [] + h.lines) == h;
    HunkParts(rule, Reading(cs, cur), l, body, HunksText(hs[1..]), Reading(closed, Some(Hunk(h.header, []))), Reading(closed, Some(h)));
  }

  lemma HunksTextCons(hs: seq<Hunk>)
    requires hs != []
    ensures HunksText(hs) == [HunkHeaderText(hs[0].header)] + (BodyText(hs[0].lines) + HunksText(hs[1..]))
  {
    ConsAssoc(HunkHeaderText(hs[0].header), BodyText(hs[0].lines), HunksText(hs[1..]));
  }

  lemma ConsAssoc<T>(x: T, a: seq<T>, b: seq<T>)
    ensures [x] + a + b == [x] + (a + b)
  {
  }

  /** Reading a header line and then a body from a state, in two steps. */
  lemma HunkParts(rule: HeaderRule, st: Reader, l: string, body: seq<string>, rest: seq<string>, begun: Reader, filled: Reader)
    requires Feed(rule, st, l) == begun && FeedAll(rule, begun, body) == filled
    ensures FeedAll(rule, st, [l] + (body + rest)) == FeedAll(rule, filled, rest)
  {
    FeedAllCons(rule, st, l, body + rest);
    FeedAllConcat(rule, begun, body, rest);
  }

  lemma {:induction false} HunksRead(rule: HeaderRule, cs: seq<Hunk>, cur: Option<Hunk>, hs: seq<Hunk>)
    requires hs != [] && ReadableUnder(rule, hs)
    ensures FeedAll(rule, Reading(cs, cur), HunksText(hs)) ==
      Reading((if cur.Some? then cs + [cur.value] else cs) + hs[..|hs| - 1], Some(hs[|hs| - 1]))
    decreases |hs|
  {
    var closed := if cur.Some? then cs + [cur.value] else cs;
    FirstHunkRead(rule, cs, cur, hs);
    if |hs| > 1 {
      ReadableTail(rule, hs);
      HunksRead(rule, closed, Some(hs[0]), hs[1..]);
      ShiftFront(closed, hs);
    } else {
      assert HunksText(hs[1..]) == [];
      assert closed + hs[..0] == closed;
    }
  }

  lemma ReadableTail(rule: HeaderRule, hs: seq<Hunk>)
    requires hs != [] && ReadableUnder(rule, hs)
    ensures ReadableUnder(rule, hs[1..])
  {
    if rule.SkipEverywhere? {
      forall i, j | 0 <= i < |hs| - 1 && 0 <= j < |hs[1..][i].lines|
        ensures !LooksLikeFileHeader(hs[1..][i].lines[j])
      {
        assert hs[1..][i] == hs[i + 1];
      }
    }
  }

  lemma ShiftFront(closed: seq<Hunk>, hs: seq<Hunk>)
    requires |hs| > 1
    ensures closed + [hs[0]] + hs[1..][..|hs| - 2] == closed + hs[..|hs| - 1]
  {
    assert [hs[0]] + hs[1..][..|hs| - 2] == hs[..|hs| - 1];
  }

  /** Hunks written as text read back as the same hunks, provided, as
      written, that no body line looks like a file header. */
  lemma HunksRoundTrip(rule: HeaderRule, hs: seq<Hunk>)
    requires hs != [] && ReadableUnder(rule, hs)
    ensures ParseLines(rule, HunksText(hs)) == Some(hs)
  {
    HunksRead(rule, [], None, hs);
    var front := hs[..|hs| - 1];
    var last := hs[|hs| - 1];
    assert [] + front == front;
    assert FeedAll(rule, Start, HunksText(hs)) == Reading(front, Some(last));
    LastSplit(hs);
  }

  lemma LastSplit<T>(s: seq<T>)
    requires s != []
    ensures s[..|s| - 1] + [s[|s| - 1]] == s
  {
  }

  /** With file headers skipped only before the first hunk, every list of
      hunks survives being written and read back. */
  lemma HunksRoundTripIntended(hs: seq<Hunk>)
    requires hs != []
    ensures ParseLines(SkipBeforeHunks, HunksText(hs)) == Some(hs)
  {
    HunksRoundTrip(SkipBeforeHunks, hs);
  }

  // ---------------------------------------------------------------------
  // Checking and applying hunks

  /** The lines a hunk expects in the original: context and removed lines. */
  function OldSide(ls: seq<PatchLine>): (r: seq<string>)
    ensures |r| <= |ls|
  {
    if ls == [] then []
    else (if ls[0].kind != Add then [ls[0].content] else []) + OldSide(ls[1..])
  }

  /** The lines a hunk leaves: context and added lines. */
  function NewSide(ls: seq<PatchLine>): (r: seq<string>)
    ensures |r| <= |ls|
  {
    if ls == [] then []
    else (if ls[0].kind != Remove then [ls[0].content] else []) + NewSide(ls[1..])
  }

  function CountKind(ls: seq<PatchLine>, k: LineKind): nat {
    if ls == [] then 0 else (if ls[0].kind == k then 1 else 0) + CountKind(ls[1..], k)
  }

  /** A hunk changes the line count by its added lines minus its removed
      lines. */
  lemma {:induction false} SidesDiffer(ls: seq<PatchLine>)
    ensures |NewSide(ls)| - |OldSide(ls)| == CountKind(ls, Add) - CountKind(ls, Remove)
    decreases |ls|
  {
    if ls != [] {
      SidesDiffer(ls[1..]);
    }
  }

  /** `lines[i]` for `-len(lines) <= i < len(lines)`. */
  function PyAt(xs: seq<string>, i: int): string
    requires -|xs| <= i < |xs|
  {
    if i < 0 then xs[|xs| + i] else xs[i]
  }

  /** `_validate_context`: each expected line must exist at the index the
      check has reached and equal the original line there, indices running
      on from `start`. The caller's `start` is at least -1 and the original
      has at least one line, so index -1 is the last line. */
  predicate ContextMatches(orig: seq<string>, h: Hunk, start: int)
    requires |orig| >= 1 && start >= -1
  {
    forall k :: 0 <= k < |OldSide(h.lines)| ==> start + k < |orig| && PyAt(orig, start + k) == OldSide(h.lines)[k]
  }

  /** For a start inside the original, the check holds exactly when the
      expected lines are the consecutive original lines from `start`. */
  lemma ContextMatchesSlice(orig: seq<string>, h: Hunk, start: nat)
    requires 1 <= |orig| && start <= |orig|
    ensures var expected := OldSide(h.lines);
      ContextMatches(orig, h, start) <==> start + |expected| <= |orig| && orig[start..start + |expected|] == expected
  {
    var expected := OldSide(h.lines);
    if ContextMatches(orig, h, start) {
      if |expected| > 0 {
        var k := |expected| - 1;
        assert OldSide(h.lines)[k] == expected[k];
      }
      forall k | 0 <= k < |expected|
        ensures orig[start..start + |expected|][k] == expected[k]
      {
        assert start + k < |orig| && PyAt(orig, start + k) == expected[k];
      }
    }
    if start + |expected| <= |orig| && orig[start..start + |expected|] == expected {
      forall k | 0 <= k < |expected|
        ensures start + k < |orig| && PyAt(orig, start + k) == expected[k]
      {
        assert orig[start..start + |expected|][k] == orig[start + k];
      }
    }
  }

  lemma {:induction false} OldSideSnoc(ls: seq<PatchLine>, p: PatchLine)
    ensures OldSide(ls + [p]) == OldSide(ls) + (if p.kind != Add then [p.content] else [])
    decreases |ls|
  {
    var tl := if p.kind != Add then [p.content] else [];
    if ls == [] {
      assert [] + [p] == [p];
      assert OldSide([p]) == tl + [];
    } else {
      var q := ls + [p];
      assert q[0] == ls[0] && q[1..] == ls[1..] + [p];
      OldSideSnoc(ls[1..], p);
      var hd := if ls[0].kind != Add then [ls[0].content] else [];
      assert OldSide(q) == hd + (OldSide(ls[1..]) + tl);
      assert hd + (OldSide(ls[1..]) + tl) == (hd + OldSide(ls[1..])) + tl;
    }
  }

  lemma {:induction false} NewSideSnoc(ls: seq<PatchLine>, p: PatchLine)
    ensures NewSide(ls + [p]) == NewSide(ls) + (if p.kind != Remove then [p.content] else [])
    decreases |ls|
  {
    var tl := if p.kind != Remove then [p.content] else [];
    if ls == [] {
      assert [] + [p] == [p];
      assert NewSide([p]) == tl + [];
    } else {
      var q := ls + [p];
      assert q[0] == ls[0] && q[1..] == ls[1..] + [p];
      NewSideSnoc(ls[1..], p);
      var hd := if ls[0].kind != Remove then [ls[0].content] else [];
      assert NewSide(q) == hd + (NewSide(ls[1..]) + tl);
      assert hd + (NewSide(ls[1..]) + tl) == (hd + NewSide(ls[1..])) + tl;
    }
  }


  /** The validation loop of `_validate_context`. */
  method ValidateContext(orig: seq<string>, h: Hunk, start: int) returns (ok: bool)
    requires |orig| >= 1 && start >= -1
    ensures ok == ContextMatches(orig, h, start)
  {
    var idx := start;
    for j := 0 to |h.lines|
      invariant idx == start + |OldSide(h.lines[..j])|
      invariant LinesAt(orig, OldSide(h.lines[..j]), start)
    {
      var p := h.lines[j];
      assert h.lines[..j + 1] == h.lines[..j] + [p];
      OldSideSnoc(h.lines[..j], p);
      if p.kind == Context || p.kind == Remove {
        if idx >= |orig| || PyAt(orig, idx) != p.content {
          assert !ContextMatches(orig, h, start) by {
            OldSplit(h.lines, j + 1);
            assert OldSide(h.lines)[idx - start] == p.content;
          }
          return false;
        }
        LinesAtSnoc(orig, OldSide(h.lines[..j]), start, p.content);
        idx := idx + 1;
      } else {
        assert OldSide(h.lines[..j + 1]) == OldSide(h.lines[..j]);
      }
    }
    assert h.lines[..|h.lines|] == h.lines;
    ok := true;
  }

  /** The lines `side` sit in the original from `start` on, read with
      Python's indexing. */
  predicate LinesAt(orig: seq<string>, side: seq<string>, start: int)
    requires |orig| >= 1 && start >= -1
  {
    forall k :: 0 <= k < |side| ==> start + k < |orig| && PyAt(orig, start + k) == side[k]
  }

  lemma LinesAtSnoc(orig: seq<string>, side: seq<string>, start: int, x: string)
    requires |orig| >= 1 && start >= -1
    requires LinesAt(orig, side, start)
    requires start + |side| < |orig| && PyAt(orig, start + |side|) == x
    ensures LinesAt(orig, side + [x], start)
  {
  }


  lemma {:induction false} OldSplit(ls: seq<PatchLine>, j: nat)
    requires j <= |ls|
    ensures OldSide(ls) == OldSide(ls[..j]) + OldSide(ls[j..])
    decreases |ls|
  {
    if j > 0 {
      assert ls[1..][..j - 1] == ls[1..j];
      assert ls[1..][j - 1..] == ls[j..];
      OldSplit(ls[1..], j - 1);
      assert ls[..j][1..] == ls[1..j];
    } else {
      assert ls[j..] == ls;
    }
  }

  // Python slice assignment `xs[lo:hi] = ys`.

  /** A slice bound as Python normalises it: negative counts from the end,
      then clamped into `0..len`. */
  function SliceBound(i: int, len: nat): (r: nat)
    ensures r <= len
    ensures 0 <= i <= len ==> r == i
  {
    if i < 0 then (if i + len < 0 then 0 else i + len) else if i > len then len else i
  }

  /** `xs[lo:hi] = ys`: the normalised slice, which is empty when its end
      comes before its start, is replaced by `ys`. */
  function SliceAssign(xs: seq<string>, lo: int, hi: int, ys: seq<string>): (r: seq<string>)
    ensures 0 <= lo <= hi <= |xs| ==> r == xs[..lo] + ys + xs[hi..]
  {
    var a := SliceBound(lo, |xs|);
    var b := SliceBound(hi, |xs|);
    var b' := if b < a then a else b;
    xs[..a] + ys + xs[b'..]
  }

  /** Where a hunk starts: its old start as a 0-based index. */
  function StartOf(h: Hunk): int {
    h.header.oldStart - 1
  }

  /** The hunks from `k` on, applied last to first: every one is checked
      against the original lines, then its expected lines in the current
      result are replaced with its new lines. */
  function ApplyFrom(orig: seq<string>, chunks: seq<Hunk>, k: nat): Option<seq<string>>
    requires |orig| >= 1 && k <= |chunks|
    decreases |chunks| - k
  {
    if k == |chunks| then Some(orig)
    else match ApplyFrom(orig, chunks, k + 1)
      case None => None
      case Some(res) =>
        var h := chunks[k];
        if !ContextMatches(orig, h, StartOf(h)) then None
        else Some(SliceAssign(res, StartOf(h), StartOf(h) + |OldSide(h.lines)|, NewSide(h.lines)))
  }

  /** `_apply_parsed_patch`. */
  function ApplyParsedPatch(content: string, chunks: seq<Hunk>): Option<string> {
    var orig := Split(content, "\n");
    match ApplyFrom(orig, chunks, 0)
    case None => None
    case Some(res) => Some(Join(res, "\n"))
  }

  /** The loop that builds `new_chunk_lines`. */
  method CollectNewLines(ls: seq<PatchLine>) returns (out: seq<string>)
    ensures out == NewSide(ls)
  {
    out := [];
    for j := 0 to |ls|
      invariant out == NewSide(ls[..j])
    {
      assert ls[..j + 1] == ls[..j] + [ls[j]];
      NewSideSnoc(ls[..j], ls[j]);
      if ls[j].kind == Context || ls[j].kind == Add {
        out := out + [ls[j].content];
      }
    }
    assert ls[..|ls|] == ls;
  }

  /** The applying loop of `_apply_parsed_patch`, over the hunks in reverse. */
  method ApplyHunks(content: string, chunks: seq<Hunk>) returns (r: Option<string>)
    ensures r == ApplyParsedPatch(content, chunks)
  {
    var orig := Split(content, "\n");
    var result := orig;
    var k: nat := |chunks|;
    while k > 0
      invariant k <= |chunks|
      invariant ApplyFrom(orig, chunks, k) == Some(result)
    {
      k := k - 1;
      var h := chunks[k];
      var start := h.header.oldStart - 1;
      var ok := ValidateContext(orig, h, start);
      ApplyStep(orig, chunks, k, result);
      if !ok {
        FailureStays(orig, chunks, k, 0);
        return None;
      }
      var newLines := CollectNewLines(h.lines);
      var removeCount := |OldSide(h.lines)|;
      result := SliceAssign(result, start, start + removeCount, newLines);
    }
    r := Some(Join(result, "\n"));
  }

  /** One hunk applied on top of the hunks after it. */
  lemma ApplyStep(orig: seq<string>, chunks: seq<Hunk>, k: nat, res: seq<string>)
    requires |orig| >= 1 && k < |chunks| && ApplyFrom(orig, chunks, k + 1) == Some(res)
    ensures var h := chunks[k];
      ApplyFrom(orig, chunks, k) ==
        if ContextMatches(orig, h, StartOf(h)) then Some(SliceAssign(res, StartOf(h), StartOf(h) + |OldSide(h.lines)|, NewSide(h.lines)))
        else None
  {
  }

  /** Once a hunk has failed, the hunks before it leave the failure. */
  lemma {:induction false} FailureStays(orig: seq<string>, chunks: seq<Hunk>, k: nat, j: nat)
    requires |orig| >= 1 && j <= k <= |chunks| && ApplyFrom(orig, chunks, k).None?
    ensures ApplyFrom(orig, chunks, j).None?
    decreases k - j
  {
    if j < k {
      FailureStays(orig, chunks, k, j + 1);
    }
  }

  /** Every hunk from `k` on matches the original at its start. */
  predicate AllMatch(orig: seq<string>, chunks: seq<Hunk>, k: nat)
    requires |orig| >= 1
  {
    forall i :: k <= i < |chunks| ==> ContextMatches(orig, chunks[i], StartOf(chunks[i]))
  }

  /** The whole patch fails exactly when some hunk does not match the
      original lines at its start. */
  lemma {:induction false} ApplyFailsIff(orig: seq<string>, chunks: seq<Hunk>, k: nat)
    requires |orig| >= 1 && k <= |chunks|
    ensures ApplyFrom(orig, chunks, k).Some? <==> AllMatch(orig, chunks, k)
    decreases |chunks| - k
  {
    if k < |chunks| {
      ApplyFailsIff(orig, chunks, k + 1);
      if AllMatch(orig, chunks, k) {
        assert AllMatch(orig, chunks, k + 1);
        assert ContextMatches(orig, chunks[k], StartOf(chunks[k]));
      } else if AllMatch(orig, chunks, k + 1) {
        assert !ContextMatches(orig, chunks[k], StartOf(chunks[k]));
      }
    }
  }

  /** Hunks as `diff` writes them for a file of `len` lines: every start
      names a line of the file, and each hunk's expected lines end before
      the next hunk starts. */
  predicate Ordered(chunks: seq<Hunk>, len: nat) {
    (forall i :: 0 <= i < |chunks| ==> 1 <= chunks[i].header.oldStart <= len + 1) &&
    forall i :: 0 <= i < |chunks| - 1 ==> StartOf(chunks[i]) + |OldSide(chunks[i].lines)| <= StartOf(chunks[i + 1])
  }

  /** The expected lines of every hunk from `k` on lie inside the file. */
  predicate Fits(chunks: seq<Hunk>, len: nat, k: nat) {
    forall i :: k <= i < |chunks| ==> StartOf(chunks[i]) + |OldSide(chunks[i].lines)| <= len
  }

  /** The reference reading of a patch: walk the original front to back,
      copying lines up to each hunk, writing its new lines and skipping its
      expected lines. */
  function Merged(orig: seq<string>, chunks: seq<Hunk>, k: nat, pos: nat): seq<string>
    requires k <= |chunks| && Ordered(chunks, |orig|) && Fits(chunks, |orig|, k)
    requires pos <= |orig| && (k < |chunks| ==> pos <= StartOf(chunks[k]))
    decreases |chunks| - k
  {
    if k == |chunks| then orig[pos..]
    else
      var s := StartOf(chunks[k]);
      var e := s + |OldSide(chunks[k].lines)|;
      orig[pos..s] + NewSide(chunks[k].lines) + Merged(orig, chunks, k + 1, e)
  }

  /** Hunks that match the original and start inside it fit inside it. */
  lemma MatchFits(orig: seq<string>, chunks: seq<Hunk>)
    requires |orig| >= 1 && Ordered(chunks, |orig|) && AllMatch(orig, chunks, 0)
    ensures Fits(chunks, |orig|, 0)
  {
    forall i | 0 <= i < |chunks|
      ensures StartOf(chunks[i]) + |OldSide(chunks[i].lines)| <= |orig|
    {
      assert ContextMatches(orig, chunks[i], StartOf(chunks[i]));
      ContextMatchesSlice(orig, chunks[i], StartOf(chunks[i]));
    }
  }

  /** Replacing `s..e` in a text that agrees with the original up to `e`. */
  lemma SpliceAfterPrefix(orig: seq<string>, rest: seq<string>, p: nat, s: nat, e: nat, ys: seq<string>)
    requires p <= s <= e <= |orig|
    ensures SliceAssign(orig[..e] + rest, s, e, ys) == orig[..p] + (orig[p..s] + ys + rest)
  {
    var res := orig[..e] + rest;
    assert res[..s] == orig[..s];
    assert res[e..] == rest;
    assert orig[..s] == orig[..p] + orig[p..s];
  }

  /** Applying ordered hunks last to first, each matched against the
      original, gives the front-to-back reading. */
  lemma {:induction false} ApplyIsMerged(orig: seq<string>, chunks: seq<Hunk>, k: nat, p: nat)
    requires |orig| >= 1 && k <= |chunks| && Ordered(chunks, |orig|) && Fits(chunks, |orig|, k)
    requires AllMatch(orig, chunks, k)
    requires p <= |orig| && (k < |chunks| ==> p <= StartOf(chunks[k]))
    ensures ApplyFrom(orig, chunks, k) == Some(orig[..p] + Merged(orig, chunks, k, p))
    decreases |chunks| - k
  {
    if k == |chunks| {
      assert orig[..p] + orig[p..] == orig;
    } else {
      var h := chunks[k];
      var s := StartOf(h);
      var e := s + |OldSide(h.lines)|;
      assert ContextMatches(orig, h, s);
      ApplyIsMerged(orig, chunks, k + 1, e);
      SpliceAfterPrefix(orig, Merged(orig, chunks, k + 1, e), p, s, e, NewSide(h.lines));
    }
  }

  /** Ordered hunks that all match apply as the front-to-back reading, and
      the result has as many lines as the original plus the added lines
      minus the removed lines of every hunk. */
  lemma OrderedPatchApplies(orig: seq<string>, chunks: seq<Hunk>)
    requires |orig| >= 1 && Ordered(chunks, |orig|) && AllMatch(orig, chunks, 0)
    ensures Fits(chunks, |orig|, 0)
    ensures ApplyFrom(orig, chunks, 0) == Some(Merged(orig, chunks, 0, 0))
    ensures |Merged(orig, chunks, 0, 0)| == |orig| + Delta(chunks, 0)
  {
    MatchFits(orig, chunks);
    ApplyIsMerged(orig, chunks, 0, 0);
    assert orig[..0] + Merged(orig, chunks, 0, 0) == Merged(orig, chunks, 0, 0);
    MergedLength(orig, chunks, 0, 0);
  }

  /** The added minus the removed lines of the hunks from `k` on. */
  function Delta(chunks: seq<Hunk>, k: nat): int
    requires k <= |chunks|
    decreases |chunks| - k
  {
    if k == |chunks| then 0
    else CountKind(chunks[k].lines, Add) - CountKind(chunks[k].lines, Remove) + Delta(chunks, k + 1)
  }

  lemma {:induction false} MergedLength(orig: seq<string>, chunks: seq<Hunk>, k: nat, pos: nat)
    requires k <= |chunks| && Ordered(chunks, |orig|) && Fits(chunks, |orig|, k)
    requires pos <= |orig| && (k < |chunks| ==> pos <= StartOf(chunks[k]))
    ensures |Merged(orig, chunks, k, pos)| == |orig| - pos + Delta(chunks, k)
    decreases |chunks| - k
  {
    if k < |chunks| {
      SidesDiffer(chunks[k].lines);
      MergedLength(orig, chunks, k + 1, StartOf(chunks[k]) + |OldSide(chunks[k].lines)|);
    }
  }

  // ---------------------------------------------------------------------
  // A removed line starting with `--`

  /** As written, a hunk removing the line `-- c` (written `--- c`) loses
      that line when read, and applying it to the text it was made from
      succeeds without removing anything. */
  lemma DashedRemovalLost()
    ensures ParseLines(SkipEverywhere, DashedPatch) == Some([DashedAsRead])
    ensures ApplyParsedPatch("a\n-- c", [DashedAsRead]) == Some("a\n-- c")
    ensures ParseLines(SkipBeforeHunks, DashedPatch) == Some([DashedIntended])
    ensures ApplyParsedPatch("a\n-- c", [DashedIntended]) == Some("a")
  {
    DashedTexts();
    HunksRoundTrip(SkipEverywhere, [DashedAsRead]);
    FileHeaderSkipped(HunksText([DashedAsRead]), "--- c", []);
    assert HunksText([DashedAsRead]) + ["--- c"] + [] == DashedPatch;
    assert HunksText([DashedAsRead]) + [] == HunksText([DashedAsRead]);
    HunksRoundTripIntended([DashedIntended]);
    DashedApplied();
  }

  /** The patch of the finding: one hunk whose second line removes `-- c`. */
  const DashedPatch: seq<string> := ["@@ -1,2 +1,1 @@", " a", "--- c"]
  const DashedAsRead := Hunk(Header(1, 2, 1, 1), [PatchLine(Context, "a")])
  const DashedIntended := Hunk(Header(1, 2, 1, 1), [PatchLine(Context, "a"), PatchLine(Remove, "-- c")])

  lemma DashedTexts()
    ensures HunksText([DashedAsRead]) == DashedPatch[..2]
    ensures HunksText([DashedIntended]) == DashedPatch
  {
    assert NatToString(1) == "1" && NatToString(2) == "2";
    assert HunkHeaderText(Header(1, 2, 1, 1)) == "@@ -1,2 +1,1 @@";
    assert [Prefix(Remove)] + "-- c" == "--- c";
    assert [Prefix(Context)] + "a" == " a";
    assert DashedAsRead.lines[1..] == [];
    assert [DashedAsRead][1..] == [] && [DashedIntended][1..] == [];
    assert BodyText(DashedAsRead.lines) == [" a"];
    assert BodyText(DashedIntended.lines) == [" a", "--- c"];
  }

  lemma DashedApplied()
    ensures ApplyParsedPatch("a\n-- c", [DashedAsRead]) == Some("a\n-- c")
    ensures ApplyParsedPatch("a\n-- c", [DashedIntended]) == Some("a")
  {
    SplitExample();
    AsReadApplied(["a", "-- c"]);
    IntendedApplied(["a", "-- c"]);
  }

  lemma AsReadApplied(orig: seq<string>)
    requires orig == ["a", "-- c"]
    ensures ApplyFrom(orig, [DashedAsRead], 0) == Some(orig)
  {
    assert OldSide(DashedAsRead.lines) == ["a"] && NewSide(DashedAsRead.lines) == ["a"];
    assert ContextMatches(orig, DashedAsRead, 0);
    assert SliceAssign(orig, 0, 1, ["a"]) == orig;
  }

  lemma IntendedApplied(orig: seq<string>)
    requires orig == ["a", "-- c"]
    ensures ApplyFrom(orig, [DashedIntended], 0) == Some(["a"])
  {
    assert OldSide(DashedIntended.lines) == ["a", "-- c"] && NewSide(DashedIntended.lines) == ["a"];
    assert ContextMatches(orig, DashedIntended, 0);
    assert SliceAssign(orig, 0, 2, ["a"]) == ["a"];
  }

  lemma SplitExample()
    ensures Split("a\n-- c", "\n") == ["a", "-- c"]
    ensures Join(["a", "-- c"], "\n") == "a\n-- c"
  {
    var s := "a\n-- c";
    assert s[0..1][0] == 'a' && s[1..2] == "\n";
    assert FindFrom(s, "\n", 1) == 1;
    assert Find(s, "\n") == 1;
    assert s[..1] == "a" && s[2..] == "-- c";
    var t := "-- c";
    assert t[3..4][0] == 'c' && t[2..3][0] == ' ' && t[1..2][0] == '-' && t[0..1][0] == '-';
    assert FindFrom(t, "\n", 3) == -1;
    assert FindFrom(t, "\n", 1) == -1;
    assert Find(t, "\n") == -1;
  }
}
