/**
 * Character classes, case folding, substring search, stripping, word
 * boundaries and three-digit status tokens: the pieces of Python's `str`
 * methods and `re` patterns that the log utilities use, written out over
 * ASCII characters.
 */
module Text {
  import opened Wrappers

  // ---------------------------------------------------------------- characters

  predicate IsDigit(c: char) { '0' <= c <= '9' }

  predicate IsLetter(c: char) { 'a' <= c <= 'z' || 'A' <= c <= 'Z' }

  /** The class `[a-zA-Z0-9]`. */
  predicate IsAlnum(c: char) { IsDigit(c) || IsLetter(c) }

  /** The class `\w` (ASCII part). */
  predicate IsWordChar(c: char) { IsAlnum(c) || c == '_' }

  /** The class `\s` and the characters `str.strip()` removes (ASCII part). */
  predicate IsSpace(c: char) { c == ' ' || '\t' <= c <= '\r' || '\U{1C}' <= c <= '\U{1F}' }

  predicate IsUpper(c: char) { 'A' <= c <= 'Z' }

  function LowerChar(c: char): (d: char)
    ensures !IsUpper(d)
    ensures IsWordChar(d) == IsWordChar(c) && IsDigit(d) == IsDigit(c) && IsSpace(d) == IsSpace(c)
    ensures !IsUpper(c) ==> d == c
  {
    if IsUpper(c) then (c as int + 32) as char else c
  }

  /** `str.lower()`. */
  function Lower(s: string): (r: string)
    ensures |r| == |s|
  {
    seq(|s|, i requires 0 <= i < |s| => LowerChar(s[i]))
  }

  lemma LowerIdempotent(s: string)
    ensures Lower(Lower(s)) == Lower(s)
  {
  }

  // ---------------------------------------------------------------- substrings

  /** `t` occurs in `s` starting at index `i`. */
  predicate MatchesAt(s: string, t: string, i: int) {
    0 <= i && i + |t| <= |s| && s[i..i + |t|] == t
  }

  /** Python's `t in s`. */
  predicate Contains(s: string, t: string) {
    exists i :: 0 <= i <= |s| && MatchesAt(s, t, i)
  }

  /** `any(k in s for k in keywords)`. */
  predicate ContainsAny(s: string, keywords: seq<string>) {
    exists k :: 0 <= k < |keywords| && Contains(s, keywords[k])
  }

  predicate HasUpper(t: string) {
    exists i :: 0 <= i < |t| && IsUpper(t[i])
  }

  /** A pattern with an upper-case letter never occurs in a lower-cased line. */
  lemma {:induction false} LowerHidesUpper(s: string, t: string)
    requires HasUpper(t)
    ensures !Contains(Lower(s), t)
  {
    var k :| 0 <= k < |t| && IsUpper(t[k]);
    forall i | 0 <= i <= |Lower(s)|
      ensures !MatchesAt(Lower(s), t, i)
    {
      if i + |t| <= |Lower(s)| {
        assert Lower(s)[i..i + |t|][k] != t[k];
      }
    }
  }

  /** A substring of a substring is a substring. */
  lemma ContainsTransitive(s: string, t: string, u: string)
    requires Contains(s, t) && Contains(t, u)
    ensures Contains(s, u)
  {
    var i :| 0 <= i <= |s| && MatchesAt(s, t, i);
    var j :| 0 <= j <= |t| && MatchesAt(t, u, j);
    assert t == s[i..i + |t|];
    forall k | 0 <= k < |u| ensures s[i + j..i + j + |u|][k] == u[k] {
      assert u[k] == t[j + k] == s[i + j + k];
    }
    assert MatchesAt(s, u, i + j);
  }

  /** Every slice of `s` occurs in `s`. */
  lemma SliceContained(s: string, i: nat, j: nat)
    requires i <= j <= |s|
    ensures Contains(s, s[i..j])
  {
    assert MatchesAt(s, s[i..j], i);
  }

  /** The length of the longest run of characters satisfying `p` that starts at `i`. */
  function Span(s: string, i: nat, p: char -> bool): (n: nat)
    ensures n > 0 ==> i + n <= |s|
    ensures forall k :: i <= k < i + n ==> p(s[k])
    ensures i + n < |s| ==> !p(s[i + n])
    decreases |s| - i
  {
    if i < |s| && p(s[i]) then 1 + Span(s, i + 1, p) else 0
  }

  // ---------------------------------------------------------------- stripping

  /** `s.rstrip(chars)`. */
  function RStrip(s: string, chars: set<char>): (r: string)
    ensures |r| <= |s| && r == s[..|r|]
    ensures |r| > 0 ==> r[|r| - 1] !in chars
    ensures forall k :: |r| <= k < |s| ==> s[k] in chars
    decreases |s|
  {
    if |s| > 0 && s[|s| - 1] in chars then RStrip(s[..|s| - 1], chars) else s
  }

  /** `s.lstrip(chars)`. */
  function LStrip(s: string, chars: set<char>): (r: string)
    ensures |r| <= |s| && r == s[|s| - |r|..]
    ensures |r| > 0 ==> r[0] !in chars
    ensures forall k :: 0 <= k < |s| - |r| ==> s[k] in chars
    decreases |s|
  {
    if |s| > 0 && s[0] in chars then LStrip(s[1..], chars) else s
  }

  function RStripSpace(s: string): (r: string)
    ensures |r| <= |s| && r == s[..|r|]
    ensures |r| > 0 ==> !IsSpace(r[|r| - 1])
    ensures forall k :: |r| <= k < |s| ==> IsSpace(s[k])
    decreases |s|
  {
    if |s| > 0 && IsSpace(s[|s| - 1]) then RStripSpace(s[..|s| - 1]) else s
  }

  function LStripSpace(s: string): (r: string)
    ensures |r| <= |s| && r == s[|s| - |r|..]
    ensures |r| > 0 ==> !IsSpace(r[0])
    ensures forall k :: 0 <= k < |s| - |r| ==> IsSpace(s[k])
    decreases |s|
  {
    if |s| > 0 && IsSpace(s[0]) then LStripSpace(s[1..]) else s
  }

  /** `s` is `r` with only white space before and after it, `r` starting at index `i`. */
  predicate SpaceAround(s: string, r: string, i: int) {
    && 0 <= i && i + |r| <= |s| && r == s[i..i + |r|]
    && (forall k :: 0 <= k < i ==> IsSpace(s[k]))
    && (forall k :: i + |r| <= k < |s| ==> IsSpace(s[k]))
  }

  /**
   * `s.strip()`: the slice of `s` left once the white space at both ends is
   * removed; it neither starts nor ends with white space. `StripOnlySpace`
   * states that only white space was removed.
   */
  function Strip(s: string): (r: string)
    ensures |r| <= |s| && Contains(s, r)
    ensures |r| > 0 ==> !IsSpace(r[0]) && !IsSpace(r[|r| - 1])
  {
    var t := RStripSpace(s);
    var r := LStripSpace(t);
    assert MatchesAt(s, r, |t| - |r|);
    r
  }

  /** What `Strip` removes from either end of `s` is white space and nothing else. */
  lemma StripOnlySpace(s: string)
    ensures exists i :: SpaceAround(s, Strip(s), i)
  {
    var t := RStripSpace(s);
    var r := LStripSpace(t);
    assert MatchesAt(s, r, |t| - |r|);
    assert r == Strip(s);
    assert SpaceAround(s, r, |t| - |r|);
  }

  /** `s[:n]`. */
  function Take(s: string, n: nat): (r: string)
    ensures |r| <= n && |r| <= |s| && r == s[..|r|]
    ensures |r| == if |s| < n then |s| else n
  {
    if |s| <= n then s else s[..n]
  }

  /** The characters of `url.rstrip('.,;:)\'"')`. */
  const TrailingPunct: set<char> := {'.', ',', ';', ':', ')', '\'', '"'}

  /** The characters of `url.rstrip('.,;:)\'"[]')`. */
  const TrailingPunctBrackets: set<char> := TrailingPunct + {'[', ']'}

  // ---------------------------------------------------------------- word boundaries

  predicate IsWordAt(s: string, k: int) { 0 <= k < |s| && IsWordChar(s[k]) }

  /** `\b` holds at position `p` (between `s[p-1]` and `s[p]`). */
  predicate Boundary(s: string, p: int) { IsWordAt(s, p - 1) != IsWordAt(s, p) }

  /** The pattern `\bw\b` matches at `i`. */
  predicate WordMatchAt(s: string, w: string, i: int) {
    MatchesAt(s, w, i) && Boundary(s, i) && Boundary(s, i + |w|)
  }

  /** `re.search(r'\b' + w + r'\b', s)` succeeds. */
  predicate HasWord(s: string, w: string) {
    exists i :: 0 <= i <= |s| && WordMatchAt(s, w, i)
  }

  predicate HasAnyWord(s: string, words: seq<string>) {
    exists k :: 0 <= k < |words| && HasWord(s, words[k])
  }

  // ---------------------------------------------------------------- three-digit tokens

  /** The pattern `\b\d{3}\b` matches at `i`. */
  predicate TokenAt(s: string, i: int) {
    0 <= i && i + 3 <= |s|
    && IsDigit(s[i]) && IsDigit(s[i + 1]) && IsDigit(s[i + 2])
    && Boundary(s, i) && Boundary(s, i + 3)
  }

  function DigitValue(c: char): nat requires IsDigit(c) { c as int - '0' as int }

  function TokenValue(s: string, i: int): (v: nat)
    requires TokenAt(s, i)
    ensures v < 1000
  {
    100 * DigitValue(s[i]) + 10 * DigitValue(s[i + 1]) + DigitValue(s[i + 2])
  }

  /** A token whose value lies in `lo..hi-1` occurs in `s`: `\b20[0-9]\b` is `HasTokenIn(s, 200, 210)`,
      `\b[45][0-9][0-9]\b` is `HasTokenIn(s, 400, 600)`. */
  predicate HasTokenIn(s: string, lo: int, hi: int) {
    exists i :: 0 <= i <= |s| && TokenAt(s, i) && lo <= TokenValue(s, i) < hi
  }

  /**
   * The position of the first token at or after `from` whose value lies in
   * `lo..hi-1`. Tokens never overlap (a token is preceded by a non-word
   * character), so this is also the first such item of `re.findall`.
   */
  function FirstTokenIn(s: string, lo: int, hi: int, from: nat): (r: Option<nat>)
    ensures r.Some? ==> from <= r.value && TokenAt(s, r.value) && lo <= TokenValue(s, r.value) < hi
    ensures r.Some? ==> forall j :: from <= j < r.value && TokenAt(s, j) ==> !(lo <= TokenValue(s, j) < hi)
    ensures r.None? ==> forall j :: from <= j <= |s| && TokenAt(s, j) ==> !(lo <= TokenValue(s, j) < hi)
    decreases |s| - from
  {
    if from + 3 > |s| then None
    else if TokenAt(s, from) && lo <= TokenValue(s, from) < hi then Some(from)
    else FirstTokenIn(s, lo, hi, from + 1)
  }

  /** The value of the first token in `s` (any value), as `re.search(r'\b(\d{3})\b', s)` finds it. */
  function FirstToken(s: string): (r: Option<nat>)
    ensures r.Some? ==> r.value < 1000
    ensures r.Some? <==> exists i :: 0 <= i <= |s| && TokenAt(s, i)
  {
    match FirstTokenIn(s, 0, 1000, 0)
    case Some(i) => Some(TokenValue(s, i))
    case None => None
  }

  /** The token at the leftmost token position is the one `FirstToken` reports. */
  lemma FirstTokenAt(s: string, i: nat)
    requires TokenAt(s, i)
    requires forall j :: 0 <= j < i ==> !TokenAt(s, j)
    ensures FirstToken(s) == Some(TokenValue(s, i))
  {
    match FirstTokenIn(s, 0, 1000, 0)
    case Some(k) =>
      assert !(k < i);
      assert !(i < k);
    case None =>
      assert false;
  }

  /** The token at `i` is the first one in `s` whose value lies in `lo..hi-1`. */
  predicate FirstInRangeAt(s: string, lo: int, hi: int, i: int) {
    TokenAt(s, i) && lo <= TokenValue(s, i) < hi
    && forall j :: 0 <= j < i && TokenAt(s, j) ==> !(lo <= TokenValue(s, j) < hi)
  }

  /** `re.findall(r'\b(\d{3})\b', s)`, then the first value in `lo..hi-1`. */
  function FirstCodeIn(s: string, lo: int, hi: int): (r: Option<nat>)
    ensures r.Some? ==> lo <= r.value < hi
    ensures r.Some? <==> HasTokenIn(s, lo, hi)
  {
    match FirstTokenIn(s, lo, hi, 0)
    case Some(i) => Some(TokenValue(s, i))
    case None => None
  }

  /** The first token whose value lies in `lo..hi-1` is the code `FirstCodeIn` reports. */
  lemma FirstCodeAt(s: string, lo: int, hi: int, i: nat)
    requires FirstInRangeAt(s, lo, hi, i)
    ensures FirstCodeIn(s, lo, hi) == Some(TokenValue(s, i))
  {
    match FirstTokenIn(s, lo, hi, 0)
    case Some(k) =>
      assert !(k < i);
      assert !(i < k);
    case None =>
      assert false;
  }

  // ---------------------------------------------------------------- splitting

  /** Python's `s.split(d)`: always at least one part; `""` splits to `[""]`. */
  function Split(s: string, d: char): (parts: seq<string>)
    ensures |parts| >= 1
    decreases |s|
  {
    if |s| == 0 then [""]
    else
      var rest := Split(s[1..], d);
      if s[0] == d then [""] + rest
      else [[s[0]] + rest[0]] + rest[1..]
  }

  /** `d.join(parts)`. */
  function Join(parts: seq<string>, d: char): string
  {
    if |parts| == 0 then ""
    else if |parts| == 1 then parts[0]
    else parts[0] + [d] + Join(parts[1..], d)
  }

  lemma {:induction false} SplitNoDelimiter(s: string, d: char)
    requires d !in s
    ensures Split(s, d) == [s]
    decreases |s|
  {
    if |s| > 0 {
      SplitNoDelimiter(s[1..], d);
      assert [s[0]] + s[1..] == s;
    }
  }

  /** Splitting stops at the first delimiter. */
  lemma {:induction false} SplitAtFirst(a: string, d: char, b: string)
    requires d !in a
    ensures Split(a + [d] + b, d) == [a] + Split(b, d)
    decreases |a|
  {
    if |a| == 0 {
      assert a + [d] + b == [d] + b;
      assert ([d] + b)[1..] == b;
    } else {
      SplitAtFirst(a[1..], d, b);
      assert (a + [d] + b)[1..] == a[1..] + [d] + b;
      assert [a[0]] + a[1..] == a;
    }
  }

  /** Every part of a split is free of the delimiter. */
  lemma {:induction false} SplitPartsFree(s: string, d: char)
    ensures forall k :: 0 <= k < |Split(s, d)| ==> d !in Split(s, d)[k]
    decreases |s|
  {
    if |s| > 0 {
      SplitPartsFree(s[1..], d);
    }
  }

  /** Joining the parts of a split gives back the string. */
  lemma {:induction false} JoinSplit(s: string, d: char)
    ensures Join(Split(s, d), d) == s
    decreases |s|
  {
    if |s| > 0 {
      var rest := Split(s[1..], d);
      JoinSplit(s[1..], d);
      if s[0] == d {
        assert ([""] + rest)[1..] == rest;
      } else {
        var parts := [[s[0]] + rest[0]] + rest[1..];
        assert parts[1..] == rest[1..];
        if |rest| == 1 {
          assert Join(parts, d) == [s[0]] + rest[0];
        } else {
          assert Join(rest, d) == rest[0] + [d] + Join(rest[1..], d);
          assert Join(parts, d) == ([s[0]] + rest[0]) + [d] + Join(rest[1..], d);
        }
        assert [s[0]] + s[1..] == s;
      }
    }
  }

  /** Splitting a join of delimiter-free parts gives back the parts. */
  lemma {:induction false} SplitJoin(parts: seq<string>, d: char)
    requires |parts| >= 1
    requires forall k :: 0 <= k < |parts| ==> d !in parts[k]
    ensures Split(Join(parts, d), d) == parts
    decreases |parts|
  {
    if |parts| == 1 {
      SplitNoDelimiter(parts[0], d);
    } else {
      SplitJoin(parts[1..], d);
      SplitAtFirst(parts[0], d, Join(parts[1..], d));
      assert [parts[0]] + parts[1..] == parts;
    }
  }
}
