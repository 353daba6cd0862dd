/**
 * extract_urls.py (`URLExtractor`): the URL cleaner, the success and error
 * line tests, the per-line URL filter and the two per-URL request counters.
 */
module ExtractUrls {
  import opened Wrappers
  import opened Text
  import opened Tally
  import opened Urls
  import opened Rewrite

  // ---------------------------------------------------------------- clean_url

  /** `clean_url`: leading `@`, trailing punctuation, `&amp;`, then the two port and bracket rewrites. */
  function CleanUrl(url: string): string {
    var noAt := LStrip(url, {'@'});
    var stripped := RStrip(noAt, TrailingPunctBrackets);
    var decoded := Replace(stripped, "&amp;", "&");
    var portFixed := SubToEnd(decoded, ":443]", ":443");
    SubToEnd(portFixed, "[", "")
  }

  /** The cleaned URL never starts with `@`. */
  lemma CleanUrlNoLeadingAt(url: string)
    ensures var r := CleanUrl(url);
      |r| == 0 || r[0] != '@'
  {
    var noAt := LStrip(url, {'@'});
    var stripped := RStrip(noAt, TrailingPunctBrackets);
    assert |stripped| == 0 || stripped[0] == noAt[0];
    ReplaceHead(stripped, "&amp;", "&", '@');
    var decoded := Replace(stripped, "&amp;", "&");
    SubToEndHead(decoded, ":443]", ":443", '@');
    SubToEndHead(SubToEnd(decoded, ":443]", ":443"), "[", "", '@');
  }

  /** For an input without line feeds (in particular a whitespace-free one), no `[` survives. */
  lemma CleanUrlHasNoBracket(url: string)
    requires '\n' !in url
    ensures '[' !in CleanUrl(url)
  {
    var noAt := LStrip(url, {'@'});
    var stripped := RStrip(noAt, TrailingPunctBrackets);
    assert '\n' !in stripped by {
      assert forall c :: c in stripped ==> c in url;
    }
    var decoded := Replace(stripped, "&amp;", "&");
    assert '\n' !in decoded;
    SubToEndChars(decoded, ":443]", ":443", '\n');
    SubToEndRemovesBracket(SubToEnd(decoded, ":443]", ":443"));
  }

  // ---------------------------------------------------------------- line tests

  const SuccessKeywords: seq<string> := ["success", " ok ", "completed", "accepted"]

  const ErrorKeywords: seq<string> :=
    ["error", "fail", "timeout", "exception", "denied", "refused", "unreachable", "unavailable", "not found"]

  /** `is_successful`: a word-bounded `20[0-9]`, or a success keyword in the lower-cased line. */
  predicate IsSuccessful(line: string) {
    HasTokenIn(line, 200, 210) || ContainsAny(Lower(line), SuccessKeywords)
  }

  predicate TwoDigits(s: string, i: nat) { i + 2 <= |s| && IsDigit(s[i]) && IsDigit(s[i + 1]) }

  predicate CharAt(s: string, i: nat, c: char) { i < |s| && s[i] == c }

  /** The length of the run of `\s` characters at `i`. */
  function SpacesAt(s: string, i: nat): (n: nat)
    ensures n > 0 ==> i + n <= |s|
    ensures forall k :: i <= k < i + n ==> IsSpace(s[k])
    ensures i + n < |s| ==> !IsSpace(s[i + n])
    decreases |s| - i
  {
    if i < |s| && IsSpace(s[i]) then 1 + SpacesAt(s, i + 1) else 0
  }

  /** The length of the run of `\d` characters at `i`. */
  function DigitsAt(s: string, i: nat): (n: nat)
    ensures n > 0 ==> i + n <= |s|
    ensures forall k :: i <= k < i + n ==> IsDigit(s[k])
    ensures i + n < |s| ==> !IsDigit(s[i + n])
    decreases |s| - i
  {
    if i < |s| && IsDigit(s[i]) then 1 + DigitsAt(s, i + 1) else 0
  }

  /**
   * Where `re.match(r'^\d{2}-\d{2}\s+\d{2}:\d{2}:\d{2}\.\d+\s+\d+\s+\d+\s+E\s', line)`
   * ends, if it matches. Each `+` run is followed by a character its class
   * excludes, so the greedy run is the only one that can succeed.
   */
  function LogcatErrorEnd(s: string): (r: Option<nat>)
    ensures r.Some? ==> 20 <= r.value <= |s|
    ensures r.Some? ==> TwoDigits(s, 0) && s[2] == '-' && TwoDigits(s, 3) && IsSpace(s[5])
    ensures r.Some? ==> IsSpace(s[r.value - 3]) && s[r.value - 2] == 'E' && IsSpace(s[r.value - 1])
  {
    match ClockEnd(s)
    case None => None
    case Some(c) =>
      match IdsEnd(s, c)
      case None => None
      case Some(e) => LevelEEnd(s, e)
  }

  /** The end of `\d{2}-\d{2}\s+\d{2}:\d{2}:\d{2}\.` at the start of `s`, if it matches there. */
  function ClockEnd(s: string): (r: Option<nat>)
    ensures r.Some? ==> 15 <= r.value <= |s|
    ensures r.Some? ==> TwoDigits(s, 0) && s[2] == '-' && TwoDigits(s, 3) && IsSpace(s[5])
  {
    if !(TwoDigits(s, 0) && CharAt(s, 2, '-') && TwoDigits(s, 3)) then None
    else
      var w1 := SpacesAt(s, 5);
      var p := 5 + w1;
      if w1 == 0 || !(TwoDigits(s, p) && CharAt(s, p + 2, ':') && TwoDigits(s, p + 3)
                      && CharAt(s, p + 5, ':') && TwoDigits(s, p + 6) && CharAt(s, p + 8, '.')) then None
      else Some(p + 9)
  }

  /** The end of `\d+\s+\d+\s+\d+\s+` at `i`, the fraction and the two ids, if it matches there. */
  function IdsEnd(s: string, i: nat): (r: Option<nat>)
    ensures r.Some? ==> i + 6 <= r.value <= |s| && IsSpace(s[r.value - 1])
  {
    var fraction := DigitsAt(s, i);
    var w2 := SpacesAt(s, i + fraction);
    var q := i + fraction + w2;
    var pid := DigitsAt(s, q);
    var w3 := SpacesAt(s, q + pid);
    var tid := DigitsAt(s, q + pid + w3);
    var w4 := SpacesAt(s, q + pid + w3 + tid);
    if fraction == 0 || w2 == 0 || pid == 0 || w3 == 0 || tid == 0 || w4 == 0 then None
    else Some(q + pid + w3 + tid + w4)
  }

  /** The end of `E\s` at `e`, if it matches there. */
  function LevelEEnd(s: string, e: nat): (r: Option<nat>)
    requires 0 < e <= |s| && IsSpace(s[e - 1])
    ensures r.Some? ==> 2 < r.value <= |s| && r.value == e + 2
    ensures r.Some? ==> IsSpace(s[r.value - 3]) && s[r.value - 2] == 'E' && IsSpace(s[r.value - 1])
  {
    if CharAt(s, e, 'E') && e + 1 < |s| && IsSpace(s[e + 1]) then Some(e + 2) else None
  }

  lemma {:induction false} DigitsExactly(s: string, i: nat, n: nat)
    requires i + n < |s| && !IsDigit(s[i + n])
    requires forall k :: i <= k < i + n ==> IsDigit(s[k])
    ensures DigitsAt(s, i) == n
    decreases n
  {
    if n > 0 {
      DigitsExactly(s, i + 1, n - 1);
    }
  }

  lemma {:induction false} SpacesExactly(s: string, i: nat, n: nat)
    requires i + n < |s| && !IsSpace(s[i + n])
    requires forall k :: i <= k < i + n ==> IsSpace(s[k])
    ensures SpacesAt(s, i) == n
    decreases n
  {
    if n > 0 {
      SpacesExactly(s, i + 1, n - 1);
    }
  }

  /**
   * A line laid out as `MM-DD hh:mm:ss.f PP TT <level> ` with one space
   * between the fields, one digit of fraction and two-digit process and
   * thread ids, e.g. `09-22 14:45:58.0 12 34 E x`.
   */
  predicate LogcatLayout(s: string, level: char) {
    && |s| >= 25
    && IsDigit(s[0]) && IsDigit(s[1]) && s[2] == '-' && IsDigit(s[3]) && IsDigit(s[4]) && s[5] == ' '
    && IsDigit(s[6]) && IsDigit(s[7]) && s[8] == ':' && IsDigit(s[9]) && IsDigit(s[10]) && s[11] == ':'
    && IsDigit(s[12]) && IsDigit(s[13]) && s[14] == '.' && IsDigit(s[15]) && s[16] == ' '
    && IsDigit(s[17]) && IsDigit(s[18]) && s[19] == ' ' && IsDigit(s[20]) && IsDigit(s[21]) && s[22] == ' '
    && s[23] == level && s[24] == ' '
  }

  /** The date and time of such a line. */
  lemma LogcatClock(s: string, level: char)
    requires LogcatLayout(s, level)
    ensures TwoDigits(s, 0) && CharAt(s, 2, '-') && TwoDigits(s, 3)
    ensures SpacesAt(s, 5) == 1
    ensures TwoDigits(s, 6) && CharAt(s, 8, ':') && TwoDigits(s, 9) && CharAt(s, 11, ':') && TwoDigits(s, 12) && CharAt(s, 14, '.')
  {
    SpacesExactly(s, 5, 1);
  }

  /** The fraction, process and thread runs of such a line. */
  lemma LogcatIds(s: string, level: char)
    requires LogcatLayout(s, level)
    requires !IsSpace(level)
    ensures DigitsAt(s, 15) == 1 && SpacesAt(s, 16) == 1
    ensures DigitsAt(s, 17) == 2 && SpacesAt(s, 19) == 1
    ensures DigitsAt(s, 20) == 2 && SpacesAt(s, 22) == 1
  {
    DigitsExactly(s, 15, 1);
    SpacesExactly(s, 16, 1);
    DigitsExactly(s, 17, 2);
    SpacesExactly(s, 19, 1);
    DigitsExactly(s, 20, 2);
    SpacesExactly(s, 22, 1);
  }

  /** A line with that layout at level `E` is recognised, and the match ends just after `E `. */
  lemma LogcatLevelE(s: string)
    requires LogcatLayout(s, 'E')
    ensures LogcatErrorEnd(s) == Some(25)
  {
    LogcatClock(s, 'E');
    LogcatIds(s, 'E');
  }

  /** The same layout at any other level that is not a space or a digit is not. */
  lemma LogcatOtherLevel(s: string, level: char)
    requires LogcatLayout(s, level)
    requires level != 'E' && !IsSpace(level) && !IsDigit(level)
    ensures LogcatErrorEnd(s).None?
  {
    LogcatClock(s, level);
    LogcatIds(s, level);
  }

  /** `is_error`: a word-bounded 4xx or 5xx, a logcat line at level `E`, or an error keyword. */
  predicate IsError(line: string) {
    HasTokenIn(line, 400, 600) || LogcatErrorEnd(line).Some? || ContainsAny(Lower(line), ErrorKeywords)
  }

  // ---------------------------------------------------------------- extract_urls_from_line

  const Placeholders: seq<string> := ["http://unused", "http://localhost", "http://test", "https://mod3"]

  /** `re.match(r'https?://[a-zA-Z0-9]', url)`. */
  predicate StartsWithHost(url: string) {
    (MatchesAt(url, "http://", 0) && |url| > 7 && IsAlnum(url[7]))
    || (MatchesAt(url, "https://", 0) && |url| > 8 && IsAlnum(url[8]))
  }

  /** The three filters a cleaned URL must pass. */
  predicate Kept(url: string) {
    |url| >= 10 && url !in Placeholders && StartsWithHost(url)
  }

  /** `clean_url` applied to every match. */
  function CleanAll(urls: seq<string>): (r: seq<string>)
    ensures |r| == |urls| && forall k :: 0 <= k < |r| ==> r[k] == CleanUrl(urls[k])
  {
    seq(|urls|, k requires 0 <= k < |urls| => CleanUrl(urls[k]))
  }

  /** The cleaned URLs that pass the filters, in order. */
  function KeptUrls(cleaned: seq<string>): (r: seq<string>)
    ensures |r| <= |cleaned|
    ensures forall k :: 0 <= k < |r| ==> Kept(r[k])
    ensures forall x :: x in r <==> x in cleaned && Kept(x)
  {
    if |cleaned| == 0 then []
    else
      var before := KeptUrls(cleaned[..|cleaned| - 1]);
      var url := cleaned[|cleaned| - 1];
      assert cleaned == cleaned[..|cleaned| - 1] + [url];
      if Kept(url) then before + [url] else before
  }

  /** Filtering keeps order: it distributes over concatenation. */
  lemma {:induction false} KeptUrlsAppend(a: seq<string>, b: seq<string>)
    ensures KeptUrls(a + b) == KeptUrls(a) + KeptUrls(b)
    decreases |b|
  {
    if |b| > 0 {
      var b', y := b[..|b| - 1], b[|b| - 1];
      var tail := if Kept(y) then [y] else [];
      KeptUrlsAppend(a, b');
      assert (a + b)[..|a + b| - 1] == a + b' && (a + b)[|a + b| - 1] == y;
      assert KeptUrls(a + b) == KeptUrls(a + b') + tail;
      assert KeptUrls(b) == KeptUrls(b') + tail;
    } else {
      assert a + b == a;
    }
  }

  /** A single URL is kept exactly when it passes the filters. */
  lemma KeptUrlsSingle(x: string)
    ensures KeptUrls([x]) == if Kept(x) then [x] else []
  {
    assert [x][..0] == [];
  }

  /** Each URL that passes is kept as many times as it was matched, and no other URL is kept. */
  lemma {:induction false} KeptUrlsOccurrences(cleaned: seq<string>, x: string)
    ensures Occurrences(KeptUrls(cleaned), x) == if Kept(x) then Occurrences(cleaned, x) else 0
    decreases |cleaned|
  {
    if |cleaned| > 0 {
      var prefix := cleaned[..|cleaned| - 1];
      var url := cleaned[|cleaned| - 1];
      KeptUrlsOccurrences(prefix, x);
      assert cleaned == prefix + [url];
      OccurrencesAppend(prefix, x, url);
      if Kept(url) {
        OccurrencesAppend(KeptUrls(prefix), x, url);
      }
    }
  }

  /** The URLs `extract_urls_from_line` returns for a line. */
  function LineUrls(line: string): seq<string> {
    KeptUrls(CleanAll(FindUrls(line, true)))
  }

  /** The filtering loop of `extract_urls_from_line`, over the cleaned matches. */
  method FilterUrls(cleaned: seq<string>) returns (kept: seq<string>)
    ensures kept == KeptUrls(cleaned)
  {
    kept := [];
    for i := 0 to |cleaned|
      invariant kept == KeptUrls(cleaned[..i])
    {
      assert cleaned[..i + 1][..i] == cleaned[..i];
      var url := cleaned[i];
      if |url| < 10 {
        continue;
      }
      if url in Placeholders {
        continue;
      }
      if !StartsWithHost(url) {
        continue;
      }
      kept := kept + [url];
    }
    assert cleaned[..|cleaned|] == cleaned;
  }

  /**
   * `extract_urls_from_line`: clean every match and keep those that pass the
   * three filters. `clean_url` is pure, so cleaning all matches before
   * filtering does not change what the filter sees.
   */
  method ExtractUrlsFromLine(line: string) returns (kept: seq<string>)
    ensures kept == LineUrls(line)
  {
    var cleaned := CleanAll(FindUrls(line, true));
    kept := FilterUrls(cleaned);
  }

  // ---------------------------------------------------------------- the counters of analyze

  /** `successful_urls` and `error_urls`. */
  datatype State = State(successful: map<string, nat>, errors: map<string, nat>)

  /** The loop over a line's URLs: success takes precedence over error. */
  function CountUrls(st: State, urls: seq<string>, isSuccess: bool, isError: bool): State {
    if |urls| == 0 then st
    else
      var before := CountUrls(st, urls[..|urls| - 1], isSuccess, isError);
      var url := urls[|urls| - 1];
      if isSuccess then before.(successful := Inc(before.successful, url))
      else if isError then before.(errors := Inc(before.errors, url))
      else before
  }

  /** One line of `analyze`. */
  function Step(st: State, line: string): State {
    var urls := LineUrls(line);
    if |urls| == 0 then st else CountUrls(st, urls, IsSuccessful(line), IsError(line))
  }

  function Run(st: State, lines: seq<string>): State {
    if |lines| == 0 then st else Step(Run(st, lines[..|lines| - 1]), lines[|lines| - 1])
  }

  /**
   * Every occurrence of a URL adds exactly one to one counter: to the success
   * counter on a success line (even when it is also an error line), to the
   * error counter on an error line that is not a success line, and to
   * neither otherwise.
   */
  lemma {:induction false} CountPerUrl(st: State, urls: seq<string>, isSuccess: bool, isError: bool, url: string)
    ensures var r := CountUrls(st, urls, isSuccess, isError);
      && Get(r.successful, url) == Get(st.successful, url) + (if isSuccess then Occurrences(urls, url) else 0)
      && Get(r.errors, url) == Get(st.errors, url) + (if !isSuccess && isError then Occurrences(urls, url) else 0)
  {
    if |urls| > 0 {
      var prefix := urls[..|urls| - 1];
      CountPerUrl(st, prefix, isSuccess, isError, url);
      OccurrencesAppend(prefix, url, urls[|urls| - 1]);
      assert prefix + [urls[|urls| - 1]] == urls;
    }
  }

  /** Over all URLs together: the line's URLs are added to exactly one of the totals, or to none. */
  lemma {:induction false} CountTotals(st: State, urls: seq<string>, isSuccess: bool, isError: bool)
    ensures var r := CountUrls(st, urls, isSuccess, isError);
      && MapSum(r.successful, Count) == MapSum(st.successful, Count) + (if isSuccess then |urls| else 0)
      && MapSum(r.errors, Count) == MapSum(st.errors, Count) + (if !isSuccess && isError then |urls| else 0)
  {
    if |urls| > 0 {
      var prefix := urls[..|urls| - 1];
      CountTotals(st, prefix, isSuccess, isError);
      var before := CountUrls(st, prefix, isSuccess, isError);
      IncSum(before.successful, urls[|urls| - 1]);
      IncSum(before.errors, urls[|urls| - 1]);
    }
  }

  /** A line without a kept URL changes neither counter. */
  lemma LineWithoutUrlsChangesNothing(st: State, line: string)
    requires LineUrls(line) == []
    ensures Step(st, line) == st
  {
  }

  /** A line that is both a success and an error line counts only as a success. */
  lemma SuccessTakesPrecedence(st: State, line: string)
    requires IsSuccessful(line) && IsError(line)
    ensures Step(st, line).errors == st.errors
    ensures MapSum(Step(st, line).successful, Count) == MapSum(st.successful, Count) + |LineUrls(line)|
  {
    var urls := LineUrls(line);
    if |urls| > 0 {
      CountTotals(st, urls, true, true);
      forall url ensures Get(Step(st, line).errors, url) == Get(st.errors, url) {
        CountPerUrl(st, urls, true, true, url);
      }
      CountErrorsUnchanged(st, urls, true, true);
    }
  }

  /** On success lines the error map is left exactly as it was. */
  lemma {:induction false} CountErrorsUnchanged(st: State, urls: seq<string>, isSuccess: bool, isError: bool)
    requires isSuccess
    ensures CountUrls(st, urls, isSuccess, isError).errors == st.errors
  {
    if |urls| > 0 {
      CountErrorsUnchanged(st, urls[..|urls| - 1], isSuccess, isError);
    }
  }

  class URLExtractor {
    var successfulUrls: map<string, nat>
    var errorUrls: map<string, nat>

    function Snapshot(): State
      reads this
    {
      State(successfulUrls, errorUrls)
    }

    constructor ()
      ensures Snapshot() == State(map[], map[])
    {
      successfulUrls := map[];
      errorUrls := map[];
    }

    /** The categorising loop over one line's URLs. */
    method CountLineUrls(urls: seq<string>, isSuccess: bool, isError: bool)
      modifies this
      ensures Snapshot() == CountUrls(old(Snapshot()), urls, isSuccess, isError)
    {
      for i := 0 to |urls|
        invariant Snapshot() == CountUrls(old(Snapshot()), urls[..i], isSuccess, isError)
      {
        assert urls[..i + 1][..i] == urls[..i];
        if isSuccess {
          successfulUrls := Inc(successfulUrls, urls[i]);
        } else if isError {
          errorUrls := Inc(errorUrls, urls[i]);
        }
      }
      assert urls[..|urls|] == urls;
    }

    /** One iteration of the loop in `analyze`. */
    method AnalyzeLine(line: string)
      modifies this
      ensures Snapshot() == Step(old(Snapshot()), line)
    {
      var urls := ExtractUrlsFromLine(line);
      if |urls| == 0 {
        return;
      }
      var isSuccess := IsSuccessful(line);
      var isError := IsError(line);
      CountLineUrls(urls, isSuccess, isError);
    }

    /** `analyze`: every line of the log in order. */
    method Analyze(lines: seq<string>)
      modifies this
      ensures Snapshot() == Run(old(Snapshot()), lines)
    {
      for i := 0 to |lines|
        invariant Snapshot() == Run(old(Snapshot()), lines[..i])
      {
        AnalyzeLine(lines[i]);
        assert lines[..i + 1][..i] == lines[..i];
      }
      assert lines[..|lines|] == lines;
    }
  }
}
