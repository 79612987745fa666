/** Python `str` operations the core relies on, written out with their
    exact semantics: `isspace`, `strip`, `find`/`rfind`, `split`, `join`,
    `replace`, `startswith`, ASCII `lower` and decimal rendering of ints. */
module Text {
  import opened Wrappers

  /** Python's `str.isspace` for one character. */
  predicate IsSpace(c: char) {
    c == ' ' || ('\t' <= c <= '\r') || ('\U{1c}' <= c <= '\U{1f}')
    || c == '\U{85}' || c == '\U{a0}' || c == '\U{1680}'
    || ('\U{2000}' <= c <= '\U{200a}') || c == '\U{2028}' || c == '\U{2029}'
    || c == '\U{202f}' || c == '\U{205f}' || c == '\U{3000}'
  }

  predicate IsDigit(c: char) { '0' <= c <= '9' }

  /** How many leading characters of `s` are whitespace. */
  function LeadingSpaces(s: string): (n: nat)
    ensures n <= |s|
  {
    if |s| > 0 && IsSpace(s[0]) then 1 + LeadingSpaces(s[1..]) else 0
  }

  /** The leading run is maximal: every character in it is whitespace, the
      one after it is not. */
  lemma {:induction false} LeadingSpacesSpec(s: string)
    ensures forall i :: 0 <= i < LeadingSpaces(s) ==> IsSpace(s[i])
    ensures LeadingSpaces(s) == |s| || !IsSpace(s[LeadingSpaces(s)])
  {
    if |s| > 0 && IsSpace(s[0]) {
      LeadingSpacesSpec(s[1..]);
    }
  }

  /** A whitespace run followed by a non-space character (or the end) is
      the leading run. */
  lemma {:induction false} LeadingSpacesExact(s: string, a: nat)
    requires a <= |s| && forall i :: 0 <= i < a ==> IsSpace(s[i])
    requires a == |s| || !IsSpace(s[a])
    ensures LeadingSpaces(s) == a
  {
    if a > 0 {
      LeadingSpacesExact(s[1..], a - 1);
    }
  }

  /** How many leading characters of `s` are not whitespace. */
  function WordLength(s: string): (n: nat)
    ensures n <= |s|
  {
    if |s| > 0 && !IsSpace(s[0]) then 1 + WordLength(s[1..]) else 0
  }

  lemma {:induction false} WordLengthSpec(s: string)
    ensures forall i :: 0 <= i < WordLength(s) ==> !IsSpace(s[i])
    ensures WordLength(s) == |s| || IsSpace(s[WordLength(s)])
  {
    if |s| > 0 && !IsSpace(s[0]) {
      WordLengthSpec(s[1..]);
    }
  }

  /** A non-space run followed by whitespace (or the end) is the word. */
  lemma {:induction false} WordLengthExact(s: string, n: nat)
    requires n <= |s| && forall i :: 0 <= i < n ==> !IsSpace(s[i])
    requires n == |s| || IsSpace(s[n])
    ensures WordLength(s) == n
  {
    if n > 0 {
      WordLengthExact(s[1..], n - 1);
    }
  }

  /** How many trailing characters of `s` are whitespace. */
  function TrailingSpaces(s: string): (n: nat)
    ensures n <= |s|
  {
    if |s| > 0 && IsSpace(s[|s| - 1]) then 1 + TrailingSpaces(s[..|s| - 1]) else 0
  }

  /** The trailing run is maximal. */
  lemma {:induction false} TrailingSpacesSpec(s: string)
    ensures forall i :: |s| - TrailingSpaces(s) <= i < |s| ==> IsSpace(s[i])
    ensures TrailingSpaces(s) == |s| || !IsSpace(s[|s| - 1 - TrailingSpaces(s)])
  {
    if |s| > 0 && IsSpace(s[|s| - 1]) {
      TrailingSpacesSpec(s[..|s| - 1]);
    }
  }

  /** `s.lstrip()`. */
  function LStrip(s: string): string {
    s[LeadingSpaces(s)..]
  }

  /** `s.rstrip()`. */
  function RStrip(s: string): string {
    s[..|s| - TrailingSpaces(s)]
  }

  /** `s.strip()`. */
  function Strip(s: string): string {
    RStrip(LStrip(s))
  }

  /** The stripped text is a slice of the input with no whitespace left at
      either end. */
  lemma StripIsSlice(s: string)
    ensures exists i, j :: 0 <= i <= j <= |s| && Strip(s) == s[i..j]
    ensures var r := Strip(s); r == [] || (!IsSpace(r[0]) && !IsSpace(r[|r| - 1]))
  {
    var l := LStrip(s);
    var i := LeadingSpaces(s);
    var n := TrailingSpaces(l);
    LeadingSpacesSpec(s);
    TrailingSpacesSpec(l);
    assert Strip(s) == s[i..|s| - n];
  }

  predicate StartsWith(s: string, prefix: string) {
    |prefix| <= |s| && s[..|prefix|] == prefix
  }

  predicate EndsWith(s: string, suffix: string) {
    |suffix| <= |s| && s[|s| - |suffix|..] == suffix
  }

  /** Appending keeps a prefix. */
  lemma StartsWithAppend(a: string, b: string, prefix: string)
    requires StartsWith(a, prefix)
    ensures StartsWith(a + b, prefix)
  {
    assert (a + b)[..|prefix|] == a[..|prefix|];
  }

  /** Prepending keeps a suffix. */
  lemma EndsWithPrepend(a: string, b: string, suffix: string)
    requires EndsWith(b, suffix)
    ensures EndsWith(a + b, suffix)
  {
    assert (a + b)[|a + b| - |suffix|..] == b[|b| - |suffix|..];
  }

  predicate OccursAt(s: string, sub: string, j: int) {
    0 <= j && j + |sub| <= |s| && s[j..j + |sub|] == sub
  }

  /** `s.find(sub, k)`: the lowest index at or after `k` where `sub` occurs. */
  function FindFrom(s: string, sub: string, k: nat): (r: int)
    ensures r == -1 || (k <= r && OccursAt(s, sub, r))
    decreases |s| - k
  {
    if k + |sub| > |s| then -1
    else if s[k..k + |sub|] == sub then k
    else FindFrom(s, sub, k + 1)
  }

  /** `FindFrom` misses no earlier occurrence, and says -1 only when there is
      none at or after `k`. */
  lemma {:induction false} FindFromSpec(s: string, sub: string, k: nat)
    ensures FindFrom(s, sub, k) == -1 ==> forall j :: k <= j ==> !OccursAt(s, sub, j)
    ensures FindFrom(s, sub, k) != -1 ==> forall j :: k <= j < FindFrom(s, sub, k) ==> !OccursAt(s, sub, j)
    decreases |s| - k
  {
    if k + |sub| <= |s| && s[k..k + |sub|] != sub {
      FindFromSpec(s, sub, k + 1);
    }
  }

  /** `s.find(sub)`. */
  function Find(s: string, sub: string): (r: int)
    ensures r == -1 || OccursAt(s, sub, r)
  {
    FindFrom(s, sub, 0)
  }

  /** `Find` gives the lowest occurrence, and -1 only when there is none. */
  lemma FindSpec(s: string, sub: string)
    ensures Find(s, sub) == -1 ==> forall j :: !OccursAt(s, sub, j)
    ensures Find(s, sub) != -1 ==> forall j :: 0 <= j < Find(s, sub) ==> !OccursAt(s, sub, j)
  {
    FindFromSpec(s, sub, 0);
  }

  /** `s.rfind(sub)`: the highest index where `sub` occurs. */
  function RFindBelow(s: string, sub: string, k: int): (r: int)
    requires k <= |s|
    ensures r == -1 || (r <= k && OccursAt(s, sub, r))
    decreases k + 1
  {
    if k < 0 then -1
    else if OccursAt(s, sub, k) then k
    else RFindBelow(s, sub, k - 1)
  }

  lemma {:induction false} RFindBelowSpec(s: string, sub: string, k: int)
    requires k <= |s|
    ensures RFindBelow(s, sub, k) == -1 ==> forall j :: j <= k ==> !OccursAt(s, sub, j)
    ensures RFindBelow(s, sub, k) != -1 ==> forall j :: RFindBelow(s, sub, k) < j <= k ==> !OccursAt(s, sub, j)
    decreases k + 1
  {
    if k >= 0 && !OccursAt(s, sub, k) {
      RFindBelowSpec(s, sub, k - 1);
    }
  }

  function RFind(s: string, sub: string): (r: int)
    ensures r == -1 || OccursAt(s, sub, r)
  {
    RFindBelow(s, sub, |s|)
  }

  /** `RFind` gives the highest occurrence, and -1 only when there is none. */
  lemma RFindSpec(s: string, sub: string)
    ensures RFind(s, sub) == -1 ==> forall j :: !OccursAt(s, sub, j)
    ensures RFind(s, sub) != -1 ==> forall j :: RFind(s, sub) < j ==> !OccursAt(s, sub, j)
  {
    RFindBelowSpec(s, sub, |s|);
  }

  predicate Contains(s: string, sub: string) { Find(s, sub) != -1 }

  lemma ContainsIff(s: string, sub: string)
    ensures Contains(s, sub) <==> exists j :: OccursAt(s, sub, j)
  {
    FindSpec(s, sub);
  }

  /** `sep.join(parts)`. */
  function Join(parts: seq<string>, sep: string): string {
    if |parts| == 0 then ""
    else if |parts| == 1 then parts[0]
    else parts[0] + sep + Join(parts[1..], sep)
  }

  /** `s.split(sep)` for a non-empty separator. */
  function Split(s: string, sep: string): (r: seq<string>)
    requires |sep| > 0
    ensures |r| >= 1
    decreases |s|
  {
    var i := Find(s, sep);
    if i == -1 then [s]
    else [s[..i]] + Split(s[i + |sep|..], sep)
  }

  /** Joining the pieces of a split with the same separator gives back the
      string. */
  lemma {:induction false} SplitJoin(s: string, sep: string)
    requires |sep| > 0
    ensures Join(Split(s, sep), sep) == s
    decreases |s|
  {
    var i := Find(s, sep);
    if i != -1 {
      var rest := s[i + |sep|..];
      var parts := [s[..i]] + Split(rest, sep);
      assert Split(s, sep) == parts;
      assert parts[1..] == Split(rest, sep);
      SplitJoin(rest, sep);
      assert Join(parts, sep) == s[..i] + sep + rest;
      assert s[i..i + |sep|] == sep;
      assert s == s[..i] + s[i..i + |sep|] + rest;
    }
  }

  /** No piece of a split contains the separator. */
  lemma {:induction false} SplitPiecesClean(s: string, sep: string)
    requires |sep| > 0
    ensures forall i :: 0 <= i < |Split(s, sep)| ==> !Contains(Split(s, sep)[i], sep)
    decreases |s|
  {
    var i := Find(s, sep);
    if i != -1 {
      FindSpec(s, sep);
      NoEarlierOccurrence(s, sep, i);
      SplitPiecesClean(s[i + |sep|..], sep);
    }
  }

  lemma NoEarlierOccurrence(s: string, sep: string, i: int)
    requires |sep| > 0 && 0 <= i && OccursAt(s, sep, i)
    requires forall j :: 0 <= j < i ==> !OccursAt(s, sep, j)
    ensures !Contains(s[..i], sep)
  {
    if Contains(s[..i], sep) {
      var j := Find(s[..i], sep);
      assert s[..i][j..j + |sep|] == s[j..j + |sep|];
      assert OccursAt(s, sep, j);
    }
  }

  /** `s.split(sep, n)`: at most `n` splits, the rest kept in the last part. */
  function SplitN(s: string, sep: string, n: nat): (r: seq<string>)
    requires |sep| > 0
    ensures 1 <= |r| <= n + 1
    ensures Join(r, sep) == s
    decreases n
  {
    var i := Find(s, sep);
    if n == 0 || i == -1 then [s]
    else [s[..i]] + SplitN(s[i + |sep|..], sep, n - 1)
  }

  /** `s.rsplit(sep, 1)`. */
  function RSplitOnce(s: string, sep: string): (r: seq<string>)
    requires |sep| > 0
    ensures 1 <= |r| <= 2
    ensures Join(r, sep) == s
    ensures |r| == 2 ==> !Contains(r[1], sep)
  {
    var i := RFind(s, sep);
    if i == -1 then [s]
    else
      assert !Contains(s[i + |sep|..], sep) by {
        RFindSpec(s, sep);
        if Contains(s[i + |sep|..], sep) {
          var t := s[i + |sep|..];
          var j := Find(t, sep);
          assert t[j..j + |sep|] == s[i + |sep| + j..i + |sep| + j + |sep|];
          assert OccursAt(s, sep, i + |sep| + j);
        }
      }
      [s[..i], s[i + |sep|..]]
  }

  /** ASCII lower-casing of one character. */
  function LowerChar(c: char): char {
    if 'A' <= c <= 'Z' then (c as int + 32) as char else c
  }

  /** `s.lower()` on ASCII letters. */
  function Lower(s: string): (r: string)
    ensures |r| == |s|
    ensures forall i :: 0 <= i < |s| ==> r[i] == LowerChar(s[i])
  {
    if s == [] then [] else [LowerChar(s[0])] + Lower(s[1..])
  }

  /** `s.replace(pat, repl)` with Python's rules: occurrences are replaced
      left to right without overlap; an empty `pat` inserts `repl` before every
      character and at the end. */
  function ReplaceAll(s: string, pat: string, repl: string): string {
    if |pat| == 0 then InsertAround(s, repl) else ReplaceFrom(s, pat, repl)
  }

  /** `s.replace('', repl)`. */
  function InsertAround(s: string, repl: string): string {
    if s == [] then repl else repl + [s[0]] + InsertAround(s[1..], repl)
  }

  /** `s.replace(pat, repl)` for a non-empty `pat`. */
  function ReplaceFrom(s: string, pat: string, repl: string): string
    requires |pat| > 0
    decreases |s|
  {
    var i := Find(s, pat);
    if i == -1 then s else s[..i] + repl + ReplaceFrom(s[i + |pat|..], pat, repl)
  }

  lemma ReplaceAllNone(s: string, pat: string, repl: string)
    requires |pat| > 0 && Find(s, pat) == -1
    ensures ReplaceFrom(s, pat, repl) == s
  {
  }

  lemma ReplaceAllFirst(s: string, pat: string, repl: string, i: nat, rest: string)
    requires |pat| > 0 && Find(s, pat) == i && rest == s[i + |pat|..]
    ensures ReplaceFrom(s, pat, repl) == s[..i] + repl + ReplaceFrom(rest, pat, repl)
  {
  }

  /** Replacing every occurrence of a pattern that occurs exactly once is
      replacing that one occurrence. */
  lemma ReplaceAllOnce(s: string, pat: string, repl: string, i: nat)
    requires |pat| > 0 && OccursAt(s, pat, i)
    requires forall j :: OccursAt(s, pat, j) ==> j == i
    ensures ReplaceAll(s, pat, repl) == s[..i] + repl + s[i + |pat|..]
  {
    FindSpec(s, pat);
    assert Find(s, pat) == i;
    var rest := s[i + |pat|..];
    var j := Find(rest, pat);
    if j != -1 {
      assert s[i + |pat| + j..i + |pat| + j + |pat|] == rest[j..j + |pat|];
      assert OccursAt(s, pat, i + |pat| + j);
    }
    ReplaceAllNone(rest, pat, repl);
    ReplaceAllFirst(s, pat, repl, i, rest);
  }

  function DigitChar(d: nat): char
    requires d < 10
  {
    ('0' as int + d) as char
  }

  /** `str(n)` for a natural number. */
  function NatToString(n: nat): (r: string)
    ensures |r| >= 1
    ensures forall i :: 0 <= i < |r| ==> IsDigit(r[i])
    decreases n
  {
    if n < 10 then [DigitChar(n)] else NatToString(n / 10) + [DigitChar(n % 10)]
  }

  /** `str(i)` for an integer. */
  function IntToString(i: int): string {
    if i < 0 then "-" + NatToString(-i) else NatToString(i)
  }

  function DigitValue(c: char): (d: nat)
    requires IsDigit(c)
    ensures d < 10
  {
    c as int - '0' as int
  }

  /** The value of a string of ASCII digits. */
  function DigitsValue(s: string): nat
    requires forall i :: 0 <= i < |s| ==> IsDigit(s[i])
    decreases |s|
  {
    if s == [] then 0 else DigitsValue(s[..|s| - 1]) * 10 + DigitValue(s[|s| - 1])
  }

  /** Reading the digits of `str(n)` back gives `n`. */
  lemma {:induction false} NatToStringRoundTrip(n: nat)
    ensures DigitsValue(NatToString(n)) == n
    decreases n
  {
    if n >= 10 {
      NatToStringRoundTrip(n / 10);
      var s := NatToString(n / 10) + [DigitChar(n % 10)];
      assert s[..|s| - 1] == NatToString(n / 10);
    }
  }

  /** Every character is an ASCII digit. */
  predicate AllDigits(s: string) {
    forall i :: 0 <= i < |s| ==> IsDigit(s[i])
  }

  /** `int(s)` on ASCII input: surrounding whitespace, an optional sign, then
      one or more digits. */
  function ParseInt(s: string): (r: Option<int>)
  {
    var t := Strip(s);
    if |t| > 0 && (t[0] == '-' || t[0] == '+') then
      var d := t[1..];
      if |d| > 0 && AllDigits(d) then
        Some(if t[0] == '-' then -(DigitsValue(d) as int) else DigitsValue(d))
      else None
    else if |t| > 0 && AllDigits(t) then
      Some(DigitsValue(t))
    else None
  }

  /** `int(str(i)) == i`. */
  lemma {:induction false} ParseIntToString(i: int)
    ensures ParseInt(IntToString(i)) == Some(i)
  {
    if i < 0 {
      ParseNegative(-i);
    } else {
      ParseNonNegative(i);
    }
  }

  lemma {:induction false} ParseNonNegative(n: nat)
    ensures ParseInt(IntToString(n)) == Some(n)
  {
    var d := NatToString(n);
    NatToStringRoundTrip(n);
    StripNoSpace(d);
  }

  lemma {:induction false} ParseNegative(n: nat)
    requires n > 0
    ensures ParseInt(IntToString(-(n as int))) == Some(-(n as int))
  {
    var d := NatToString(n);
    var s := "-" + d;
    assert IntToString(-(n as int)) == s;
    StripSigned(d);
    assert s[1..] == d;
    assert AllDigits(d);
    NatToStringRoundTrip(n);
  }

  /** A minus sign followed by digits has nothing to strip. */
  lemma {:induction false} StripSigned(d: string)
    requires |d| > 0 && AllDigits(d)
    ensures Strip("-" + d) == "-" + d
  {
    var s := "-" + d;
    assert s[|s| - 1] == d[|d| - 1];
    StripNoSpace(s);
  }

  lemma {:induction false} StripNoSpace(s: string)
    requires |s| > 0 && !IsSpace(s[0]) && !IsSpace(s[|s| - 1])
    ensures Strip(s) == s
  {
  }

  /** `s[:n]` with Python's clamping. */
  function Take(s: string, n: int): (r: string)
    ensures |r| == if n <= 0 then 0 else if n < |s| then n else |s|
    ensures r == s[..|r|]
  {
    if n <= 0 then "" else if n < |s| then s[..n] else s
  }

  /** Python's `a < b` on strings: code point order, a proper prefix first. */
  predicate Below(a: string, b: string)
    decreases |a|
  {
    if a == [] then b != []
    else if b == [] then false
    else if a[0] != b[0] then a[0] < b[0]
    else Below(a[1..], b[1..])
  }

  /** `Below` is a strict total order. */
  lemma {:induction false} BelowIrreflexive(a: string)
    ensures !Below(a, a)
    decreases |a|
  {
    if a != [] {
      BelowIrreflexive(a[1..]);
    }
  }

  lemma {:induction false} BelowTotal(a: string, b: string)
    ensures a == b || Below(a, b) || Below(b, a)
    decreases |a|
  {
    if a != [] && b != [] && a[0] == b[0] {
      BelowTotal(a[1..], b[1..]);
      if a[1..] == b[1..] {
        assert a == [a[0]] + a[1..] && b == [b[0]] + b[1..];
      }
    }
  }

  lemma {:induction false} BelowTransitive(a: string, b: string, c: string)
    requires Below(a, b) && Below(b, c)
    ensures Below(a, c)
    decreases |a|
  {
    if a != [] && a[0] == b[0] && b[0] == c[0] {
      BelowTransitive(a[1..], b[1..], c[1..]);
    }
  }

  /** `s[a:b]` for non-negative bounds, clamped to the string. */
  function Slice(s: string, a: nat, b: nat): (r: string)
    ensures a <= b <= |s| ==> r == s[a..b]
    ensures |r| <= |s|
  {
    var lo := if a < |s| then a else |s|;
    var hi := if b < |s| then b else |s|;
    if lo >= hi then "" else s[lo..hi]
  }

  /** `s.split()` with no separator: the maximal runs of non-whitespace. */
  function Words(s: string): seq<string>
    decreases |s|
  {
    var t := LStrip(s);
    if t == [] then []
    else
      var n := WordLength(t);
      [t[..n]] + Words(t[n..])
  }

  /** A join starts with its first part. */
  lemma JoinStartsWith(parts: seq<string>, sep: string)
    requires parts != []
    ensures StartsWith(Join(parts, sep), parts[0])
  {
    if |parts| > 1 {
      assert Join(parts, sep) == parts[0] + (sep + Join(parts[1..], sep));
    }
  }

  /** Joining two non-empty lists puts one separator between them. */
  lemma {:induction false} JoinAppend(a: seq<string>, b: seq<string>, sep: string)
    requires a != [] && b != []
    ensures Join(a + b, sep) == Join(a, sep) + sep + Join(b, sep)
  {
    if |a| == 1 {
      assert (a + b)[1..] == b;
    } else {
      JoinAppend(a[1..], b, sep);
      assert (a + b)[1..] == a[1..] + b;
    }
  }

  /** A slice bound as Python normalises it for a sequence of length `len`:
      a negative bound counts from the end, and both are clamped. */
  function ClampIndex(i: int, len: nat): (r: nat)
    ensures r <= len
    ensures 0 <= i <= len ==> r == i
  {
    if i < 0 then (if i + len < 0 then 0 else i + len) else if i > len then len else i
  }

  /** `xs[lo:hi]` with Python's rules for negative and out-of-range bounds. */
  function PySlice<T>(xs: seq<T>, lo: int, hi: int): (r: seq<T>)
    ensures |r| <= |xs|
    ensures 0 <= lo <= hi <= |xs| ==> r == xs[lo..hi]
  {
    var a := ClampIndex(lo, |xs|);
    var b := ClampIndex(hi, |xs|);
    if a < b then xs[a..b] else []
  }

  /** `s.replace(pat, repl, 1)`: only the first occurrence is replaced. */
  function ReplaceFirst(s: string, pat: string, repl: string): string {
    var i := Find(s, pat);
    if i == -1 then s else s[..i] + repl + s[i + |pat|..]
  }

  /** When `s` starts with `pat`, the first occurrence is the one at 0. */
  lemma ReplaceFirstPrefix(s: string, pat: string, repl: string)
    requires StartsWith(s, pat)
    ensures ReplaceFirst(s, pat, repl) == repl + s[|pat|..]
  {
    FindSpec(s, pat);
    assert OccursAt(s, pat, 0);
  }
}
