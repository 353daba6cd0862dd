/**
 * `re.findall(r'(https?://[^\s\'"<>]+)', line)` and its variant that also
 * excludes `[` and `]`: leftmost, greedy, non-overlapping matches.
 */
module Urls {
  import opened Text
  import opened Scan

  /** A character of `[^\s'"<>]`, or of `[^\s'"<>\[\]]` when `noBrackets`. */
  predicate UrlChar(c: char, noBrackets: bool) {
    !IsSpace(c) && c != '\'' && c != '"' && c != '<' && c != '>'
    && (noBrackets ==> c != '[' && c != ']')
  }

  /** The length of `https?://` at `i`; 0 when it does not match. */
  function SchemeLen(s: string, i: nat): (n: nat)
    ensures n == 0 || n == 7 || n == 8
  {
    if MatchesAt(s, "https://", i) then 8 else if MatchesAt(s, "http://", i) then 7 else 0
  }

  /** The length of the longest run of URL characters starting at `i`. */
  function RunLen(s: string, i: nat, noBrackets: bool): (n: nat)
    ensures n > 0 ==> i + n <= |s|
    ensures forall k :: i <= k < i + n ==> UrlChar(s[k], noBrackets)
    ensures i + n < |s| ==> !UrlChar(s[i + n], noBrackets)
    decreases |s| - i
  {
    if i < |s| && UrlChar(s[i], noBrackets) then 1 + RunLen(s, i + 1, noBrackets) else 0
  }

  /** The length of the greedy match at `i`; 0 when the pattern does not match there. */
  function MatchLen(s: string, i: nat, noBrackets: bool): (n: nat)
    ensures n > 0 ==> i + n <= |s|
  {
    var k := SchemeLen(s, i);
    if k > 0 && RunLen(s, i + k, noBrackets) > 0 then k + RunLen(s, i + k, noBrackets) else 0
  }

  /** The shape of every match: a scheme, at least one more character, no excluded character. */
  predicate IsUrlText(u: string, noBrackets: bool) {
    ((|u| >= 8 && MatchesAt(u, "http://", 0)) || (|u| >= 9 && MatchesAt(u, "https://", 0)))
    && forall k :: 0 <= k < |u| ==> UrlChar(u[k], noBrackets)
  }

  lemma MatchShape(s: string, i: nat, noBrackets: bool)
    requires MatchLen(s, i, noBrackets) > 0
    ensures IsUrlText(s[i..i + MatchLen(s, i, noBrackets)], noBrackets)
  {
    var u := s[i..i + MatchLen(s, i, noBrackets)];
    var k := SchemeLen(s, i);
    var scheme := if k == 8 then "https://" else "http://";
    assert u[..k] == scheme;
    SchemeIsUrlText(scheme, noBrackets);
    forall j | 0 <= j < k ensures UrlChar(u[j], noBrackets) {
      assert u[j] == scheme[j];
    }
  }

  /** Both schemes are made of URL characters. */
  lemma SchemeIsUrlText(scheme: string, noBrackets: bool)
    requires scheme == "https://" || scheme == "http://"
    ensures forall j :: 0 <= j < |scheme| ==> UrlChar(scheme[j], noBrackets)
  {
    forall j | 0 <= j < |scheme| ensures UrlChar(scheme[j], noBrackets) {
      assert scheme[j] in "https://";
    }
  }

  /** No match starts in `lo..hi-1`. */
  predicate NoMatchIn(s: string, lo: int, hi: int, noBrackets: bool) {
    forall j :: 0 <= lo <= j < hi ==> MatchLen(s, j, noBrackets) == 0
  }

  /** The table of greedy match lengths, one per position of `s`. */
  function MatchLens(s: string, noBrackets: bool): (lens: seq<nat>)
    ensures |lens| == |s| && Fits(lens)
    ensures forall j :: 0 <= j < |s| ==> lens[j] == MatchLen(s, j, noBrackets)
  {
    seq(|s|, j requires 0 <= j < |s| => MatchLen(s, j, noBrackets))
  }

  lemma FreeNoMatch(s: string, lo: int, hi: int, noBrackets: bool)
    requires Free(MatchLens(s, noBrackets), lo, hi) && hi <= |s|
    ensures NoMatchIn(s, lo, hi, noBrackets)
  {
    var lens := MatchLens(s, noBrackets);
    forall j | 0 <= lo <= j < hi
      ensures MatchLen(s, j, noBrackets) == 0
    {
      assert lens[j] == 0;
    }
  }

  /**
   * The start positions of the matches `re.findall` reports: each is a
   * match inside `s`. `MatchStartsOrdered` shows that they increase
   * without overlapping, and `MatchStartsFirst` and `MatchStartsLeftmost`
   * that no other match is skipped.
   */
  function MatchStarts(s: string, noBrackets: bool): (ps: seq<nat>)
    ensures forall k :: 0 <= k < |ps| ==> ps[k] < |s| && MatchLen(s, ps[k], noBrackets) > 0
  {
    Starts(MatchLens(s, noBrackets), 0)
  }

  /** Each reported match ends at or before the start of every later one. */
  lemma MatchStartsOrdered(s: string, noBrackets: bool, k: nat, l: nat)
    requires k < l < |MatchStarts(s, noBrackets)|
    ensures MatchStarts(s, noBrackets)[k] + MatchLen(s, MatchStarts(s, noBrackets)[k], noBrackets)
      <= MatchStarts(s, noBrackets)[l]
  {
    var lens := MatchLens(s, noBrackets);
    StartsOrdered(lens, 0);
    assert lens[Starts(lens, 0)[k]] == MatchLen(s, Starts(lens, 0)[k], noBrackets);
  }

  /** No match starts before the first reported one, or anywhere when none is reported. */
  lemma MatchStartsFirst(s: string, noBrackets: bool)
    ensures var ps := MatchStarts(s, noBrackets);
      NoMatchIn(s, 0, if |ps| > 0 then ps[0] else |s|, noBrackets)
  {
    var ps := MatchStarts(s, noBrackets);
    StartsFirst(MatchLens(s, noBrackets), 0);
    FreeNoMatch(s, 0, if |ps| > 0 then ps[0] else |s|, noBrackets);
  }

  /**
   * The scan is leftmost: no match starts between the end of the `k`-th
   * reported match and the start of the next, or after the end of the last.
   */
  lemma MatchStartsLeftmost(s: string, noBrackets: bool, k: nat)
    requires k < |MatchStarts(s, noBrackets)|
    ensures var ps := MatchStarts(s, noBrackets);
      NoMatchIn(s, ps[k] + MatchLen(s, ps[k], noBrackets), if k + 1 < |ps| then ps[k + 1] else |s|, noBrackets)
  {
    var lens := MatchLens(s, noBrackets);
    var ps := MatchStarts(s, noBrackets);
    StartsLeftmost(lens, 0, k);
    assert lens[ps[k]] == MatchLen(s, ps[k], noBrackets);
    FreeNoMatch(s, ps[k] + lens[ps[k]], if k + 1 < |ps| then ps[k + 1] else |s|, noBrackets);
  }

  /** The greedy match at `p` is a URL inside `s`. */
  lemma UrlAt(s: string, p: nat, noBrackets: bool)
    requires MatchLen(s, p, noBrackets) > 0
    ensures IsUrlText(s[p..p + MatchLen(s, p, noBrackets)], noBrackets)
    ensures Contains(s, s[p..p + MatchLen(s, p, noBrackets)])
  {
    MatchShape(s, p, noBrackets);
    assert MatchesAt(s, s[p..p + MatchLen(s, p, noBrackets)], p);
  }

  lemma UrlAtTable(s: string, lens: seq<nat>, p: nat, noBrackets: bool)
    requires lens == MatchLens(s, noBrackets) && p < |s| && lens[p] > 0
    ensures IsUrlText(s[p..p + lens[p]], noBrackets) && Contains(s, s[p..p + lens[p]])
  {
    UrlAt(s, p, noBrackets);
  }

  /** The `k`-th text the scan over the match table reports is a URL match inside `s`. */
  lemma TextIsUrl(s: string, noBrackets: bool, k: nat)
    requires k < |Texts(s, MatchLens(s, noBrackets), 0)|
    ensures IsUrlText(Texts(s, MatchLens(s, noBrackets), 0)[k], noBrackets)
    ensures Contains(s, Texts(s, MatchLens(s, noBrackets), 0)[k])
  {
    var lens := MatchLens(s, noBrackets);
    var p := TextIsMatch(s, lens, k);
    UrlAtTable(s, lens, p, noBrackets);
  }

  /** Every text the scan over the match table reports is a URL match inside `s`. */
  lemma TextsAreUrls(s: string, noBrackets: bool)
    ensures forall k :: 0 <= k < |Texts(s, MatchLens(s, noBrackets), 0)| ==>
      IsUrlText(Texts(s, MatchLens(s, noBrackets), 0)[k], noBrackets)
      && Contains(s, Texts(s, MatchLens(s, noBrackets), 0)[k])
  {
    forall k | 0 <= k < |Texts(s, MatchLens(s, noBrackets), 0)| {
      TextIsUrl(s, noBrackets, k);
    }
  }

  /** The scan over the match table reports nothing exactly when no match starts anywhere. */
  lemma TextsNoMatch(s: string, noBrackets: bool)
    ensures Texts(s, MatchLens(s, noBrackets), 0) == [] <==> NoMatchIn(s, 0, |s|, noBrackets)
  {
    var lens := MatchLens(s, noBrackets);
    TextsEmpty(s, lens, 0);
    if Free(lens, 0, |s|) {
      FreeNoMatch(s, 0, |s|, noBrackets);
    } else {
      var j :| 0 <= j < |s| && lens[j] != 0;
      assert MatchLen(s, j, noBrackets) != 0;
    }
  }

  /**
   * `re.findall` of the URL pattern over the whole line: the text of every
   * leftmost, greedy, non-overlapping match, in order. `FindUrlsAtStarts`
   * states that the `k`-th match is the text at the `k`-th of `MatchStarts`,
   * which `MatchStartsOrdered`, `MatchStartsFirst` and `MatchStartsLeftmost`
   * show to be the leftmost scan.
   */
  function FindUrls(s: string, noBrackets: bool): (r: seq<string>)
    ensures forall k :: 0 <= k < |r| ==> IsUrlText(r[k], noBrackets) && Contains(s, r[k])
    ensures r == [] <==> forall j :: 0 <= j < |s| ==> MatchLen(s, j, noBrackets) == 0
  {
    TextsAreUrls(s, noBrackets);
    TextsNoMatch(s, noBrackets);
    Texts(s, MatchLens(s, noBrackets), 0)
  }

  /** `FindUrls` reports one match per start in `MatchStarts`. */
  lemma FindUrlsCount(s: string, noBrackets: bool)
    ensures |FindUrls(s, noBrackets)| == |MatchStarts(s, noBrackets)|
  {
    TextsLength(s, MatchLens(s, noBrackets), 0);
  }

  /** The `k`-th match `FindUrls` reports is the greedy match text at the `k`-th of `MatchStarts`. */
  lemma FindUrlsAtStarts(s: string, noBrackets: bool, k: nat)
    requires k < |MatchStarts(s, noBrackets)|
    ensures var r, ps := FindUrls(s, noBrackets), MatchStarts(s, noBrackets);
      k < |r| && r[k] == s[ps[k]..ps[k] + MatchLen(s, ps[k], noBrackets)]
  {
    var lens := MatchLens(s, noBrackets);
    TextAt(s, lens, 0, k);
    var ps := MatchStarts(s, noBrackets);
    assert lens[ps[k]] == MatchLen(s, ps[k], noBrackets);
  }

  /** When the leftmost match starts at `i`, it is the first match `FindUrls` reports. */
  lemma FindUrlsFirst(s: string, noBrackets: bool, i: nat)
    requires MatchLen(s, i, noBrackets) > 0 && NoMatchIn(s, 0, i, noBrackets)
    ensures |FindUrls(s, noBrackets)| > 0 && FindUrls(s, noBrackets)[0] == s[i..i + MatchLen(s, i, noBrackets)]
  {
    var ps := MatchStarts(s, noBrackets);
    MatchStartsFirst(s, noBrackets);
    if |ps| == 0 {
      assert false;
    }
    FindUrlsAtStarts(s, noBrackets, 0);
    assert !(ps[0] < i);
    assert !(i < ps[0]);
  }
}
