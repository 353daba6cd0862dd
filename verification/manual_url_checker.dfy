/**
 * manual_url_checker.py (`check_url_status`): the URL filter and the two
 * sets of successful and erroneous URLs built over the lines of a log.
 */
module ManualUrlChecker {
  import opened Text
  import opened Urls

  // ---------------------------------------------------------------- the URL filter

  /** What survives the filter: more than 10 characters and `http` somewhere. */
  predicate Kept(url: string) {
    |url| > 10 && Contains(url, "http")
  }

  /** `cleaned_urls`: each match stripped of trailing punctuation, kept when it passes the filter. */
  function CleanedUrls(urls: seq<string>): (r: seq<string>)
    ensures |r| <= |urls|
    ensures forall k :: 0 <= k < |r| ==> Kept(r[k])
    ensures forall x :: x in r <==>
      exists j :: 0 <= j < |urls| && x == RStrip(urls[j], TrailingPunctBrackets) && Kept(x)
  {
    if |urls| == 0 then []
    else
      var before := CleanedUrls(urls[..|urls| - 1]);
      var url := RStrip(urls[|urls| - 1], TrailingPunctBrackets);
      assert forall j :: 0 <= j < |urls| - 1 ==> urls[..|urls| - 1][j] == urls[j];
      if Kept(url) then before + [url] else before
  }

  /**
   * Every match starts with `http`, and stripping only removes characters at
   * the end, so for a match the `http` test never rejects what the length
   * test keeps.
   */
  lemma HttpTestFollowsFromLength(line: string, j: nat)
    requires j < |FindUrls(line, true)|
    ensures var stripped := RStrip(FindUrls(line, true)[j], TrailingPunctBrackets);
      Kept(stripped) <==> |stripped| > 10
  {
    StrippedMatchKeepsScheme(FindUrls(line, true)[j]);
  }

  lemma StrippedMatchKeepsScheme(u: string)
    requires IsUrlText(u, true)
    ensures var stripped := RStrip(u, TrailingPunctBrackets);
      |stripped| >= 4 ==> Contains(stripped, "http")
  {
    var stripped := RStrip(u, TrailingPunctBrackets);
    if |stripped| >= 4 {
      SchemeStartsHttp(u);
      PrefixMatches(u, stripped, "http");
    }
  }

  lemma SchemeStartsHttp(u: string)
    requires MatchesAt(u, "http://", 0) || MatchesAt(u, "https://", 0)
    ensures forall k :: 0 <= k < 4 ==> u[k] == "http"[k]
  {
    if MatchesAt(u, "http://", 0) {
      assert u[0..7] == "http://";
    } else {
      assert u[0..8] == "https://";
    }
  }

  lemma PrefixMatches(u: string, v: string, t: string)
    requires |t| <= |v| <= |u| && v == u[..|v|]
    requires forall k :: 0 <= k < |t| ==> u[k] == t[k]
    ensures MatchesAt(v, t, 0)
  {
    assert v[0..|t|] == t;
  }

  // ---------------------------------------------------------------- the indicator patterns

  /** One entry of `success_patterns` or `error_patterns`. */
  datatype Pattern =
    | Code(lo: int, hi: int)   // a word-bounded three-digit number in lo..hi-1
    | Word(w: string)          // `\bw\b`
    | Literal(t: string)       // the text itself, no anchors

  /** `re.search(pattern, line_lower)`. */
  predicate Matches(low: string, p: Pattern) {
    match p
    case Code(lo, hi) => HasTokenIn(low, lo, hi)
    case Word(w) => HasWord(low, w)
    case Literal(t) => Contains(low, t)
  }

  predicate AnyMatch(low: string, patterns: seq<Pattern>) {
    exists k :: 0 <= k < |patterns| && Matches(low, patterns[k])
  }

  const SuccessPatterns: seq<Pattern> := [
    Code(200, 210), Word("success"), Word("completed"), Word("accepted"), Word("ok"),
    Literal("CAI registration successful")]

  const ErrorPatterns: seq<Pattern> := [
    Code(400, 600), Word("error"), Word("failed"), Word("timeout"), Word("exception"),
    Word("denied"), Word("refused"), Word("unreachable"), Word("not found")]

  /** `is_success`. */
  predicate IsSuccessLine(line: string) { AnyMatch(Lower(line), SuccessPatterns) }

  /** `is_error`. */
  predicate IsErrorLine(line: string) { AnyMatch(Lower(line), ErrorPatterns) }

  /**
   * The patterns are searched in the lower-cased line, so the mixed-case
   * `CAI registration successful` never matches and a line is a success line
   * exactly when one of the other five patterns matches.
   */
  lemma RegistrationPatternNeverMatches(line: string)
    ensures !Matches(Lower(line), SuccessPatterns[5])
    ensures IsSuccessLine(line) <==> AnyMatch(Lower(line), SuccessPatterns[..5])
  {
    var t := "CAI registration successful";
    assert IsUpper(t[0]);
    LowerHidesUpper(line, t);
    var low := Lower(line);
    if IsSuccessLine(line) {
      var k :| 0 <= k < |SuccessPatterns| && Matches(low, SuccessPatterns[k]);
      assert SuccessPatterns[..5][k] == SuccessPatterns[k];
    }
    if AnyMatch(low, SuccessPatterns[..5]) {
      var k :| 0 <= k < 5 && Matches(low, SuccessPatterns[..5][k]);
      assert SuccessPatterns[k] == SuccessPatterns[..5][k];
    }
  }

  // ---------------------------------------------------------------- the two sets

  /** `successful_urls` and `error_urls`. */
  datatype State = State(successful: set<string>, errors: set<string>)

  function Elems(s: seq<string>): set<string> {
    set x | x in s
  }

  /** One line of the loop over the log file. */
  function Step(st: State, line: string): State {
    var cleaned := CleanedUrls(FindUrls(line, true));
    if |cleaned| == 0 then st
    else if IsSuccessLine(line) then st.(successful := st.successful + Elems(cleaned))
    else if IsErrorLine(line) then st.(errors := st.errors + Elems(cleaned))
    else st
  }

  function Run(st: State, lines: seq<string>): State {
    if |lines| == 0 then st else Step(Run(st, lines[..|lines| - 1]), lines[|lines| - 1])
  }

  /** The printed `Total unique URLs`: the sizes of the two sets added. */
  function ReportedTotal(st: State): (n: nat)
    ensures n >= |st.successful + st.errors|
  {
    SetUnionSize(st.successful, st.errors);
    |st.successful| + |st.errors|
  }

  lemma SetUnionSize(a: set<string>, b: set<string>)
    ensures |a + b| <= |a| + |b|
    ensures a * b != {} ==> |a + b| < |a| + |b|
  {
    assert |a + b| + |a * b| == |a| + |b| by {
      assert a + b == a + (b - a);
      assert b == (b - a) + (a * b);
      assert (b - a) * (a * b) == {};
      assert a * (b - a) == {};
    }
  }

  // ---------------------------------------------------------------- properties

  /**
   * Each kept URL of a line goes to `successful_urls` on a success line, to
   * `error_urls` on a line that is an error line but not a success line,
   * and nowhere otherwise; nothing else enters either set.
   */
  lemma StepCategorises(st: State, line: string, url: string)
    ensures var r := Step(st, line);
      var kept := url in CleanedUrls(FindUrls(line, true));
      && (url in r.successful <==> url in st.successful || (kept && IsSuccessLine(line)))
      && (url in r.errors <==> url in st.errors || (kept && !IsSuccessLine(line) && IsErrorLine(line)))
  {
  }

  /** A line with no kept URL changes neither set. */
  lemma LineWithoutKeptUrlsChangesNothing(st: State, line: string)
    requires forall j :: 0 <= j < |FindUrls(line, true)| ==> !Kept(RStrip(FindUrls(line, true)[j], TrailingPunctBrackets))
    ensures Step(st, line) == st
  {
  }

  /** Sets store a URL once: reading the same line again changes nothing more. */
  lemma StepIdempotent(st: State, line: string)
    ensures Step(Step(st, line), line) == Step(st, line)
  {
  }

  /** Both sets only grow over the log. */
  lemma {:induction false} RunGrows(st: State, lines: seq<string>)
    ensures st.successful <= Run(st, lines).successful && st.errors <= Run(st, lines).errors
  {
    if |lines| > 0 {
      RunGrows(st, lines[..|lines| - 1]);
    }
  }

  /**
   * The same URL on a success line and later on an error-only line lands in
   * both sets, and then the reported total counts it twice.
   */
  lemma OverlapCountedTwice(st: State, first: string, second: string, url: string)
    requires url in CleanedUrls(FindUrls(first, true)) && IsSuccessLine(first)
    requires url in CleanedUrls(FindUrls(second, true)) && !IsSuccessLine(second) && IsErrorLine(second)
    ensures var r := Run(st, [first, second]);
      url in r.successful && url in r.errors
      && ReportedTotal(r) > |r.successful + r.errors|
  {
    var lines := [first, second];
    assert lines[..1] == [first] && lines[..1][..0] == [];
    var r1 := Step(st, first);
    assert Run(st, lines[..1]) == r1;
    var r := Step(r1, second);
    assert Run(st, lines) == r;
    StepCategorises(st, first, url);
    StepCategorises(r1, second, url);
    assert url in r.successful * r.errors;
    SetUnionSize(r.successful, r.errors);
  }

  // ---------------------------------------------------------------- the loop

  /** The cleaning loop of one line. */
  method CleanLineUrls(urls: seq<string>) returns (cleaned: seq<string>)
    ensures cleaned == CleanedUrls(urls)
  {
    cleaned := [];
    for i := 0 to |urls|
      invariant cleaned == CleanedUrls(urls[..i])
    {
      assert urls[..i + 1][..i] == urls[..i];
      var url := RStrip(urls[i], TrailingPunctBrackets);
      assert CleanedUrls(urls[..i + 1]) == if Kept(url) then cleaned + [url] else cleaned;
      if |url| > 10 && Contains(url, "http") {
        cleaned := cleaned + [url];
      }
    }
    assert urls[..|urls|] == urls;
  }

  /** The categorising loop of one line: each URL goes to one set, or to neither. */
  method Categorise(successful: set<string>, errors: set<string>, cleaned: seq<string>, isSuccess: bool, isError: bool)
    returns (successful': set<string>, errors': set<string>)
    ensures successful' == (if isSuccess then successful + Elems(cleaned) else successful)
    ensures errors' == (if !isSuccess && isError then errors + Elems(cleaned) else errors)
  {
    successful', errors' := successful, errors;
    for i := 0 to |cleaned|
      invariant successful' == (if isSuccess then successful + Elems(cleaned[..i]) else successful)
      invariant errors' == (if !isSuccess && isError then errors + Elems(cleaned[..i]) else errors)
    {
      assert Elems(cleaned[..i + 1]) == Elems(cleaned[..i]) + {cleaned[i]} by {
        assert cleaned[..i + 1] == cleaned[..i] + [cleaned[i]];
      }
      if isSuccess {
        successful' := successful' + {cleaned[i]};
      } else if isError {
        errors' := errors' + {cleaned[i]};
      }
    }
    assert cleaned[..|cleaned|] == cleaned;
  }

  /** `check_url_status` without its printing: both sets over the whole log. */
  method CheckUrlStatus(lines: seq<string>) returns (successfulUrls: set<string>, errorUrls: set<string>)
    ensures State(successfulUrls, errorUrls) == Run(State({}, {}), lines)
  {
    successfulUrls, errorUrls := {}, {};
    for n := 0 to |lines|
      invariant State(successfulUrls, errorUrls) == Run(State({}, {}), lines[..n])
    {
      assert lines[..n + 1][..n] == lines[..n];
      var line := lines[n];
      var urls := FindUrls(line, true);
      if |urls| == 0 {
        continue;
      }
      var cleaned := CleanLineUrls(urls);
      if |cleaned| == 0 {
        continue;
      }
      var lineLower := Lower(line);
      var isSuccess := AnyMatch(lineLower, SuccessPatterns);
      var isError := AnyMatch(lineLower, ErrorPatterns);
      successfulUrls, errorUrls := Categorise(successfulUrls, errorUrls, cleaned, isSuccess, isError);
    }
    assert lines[..|lines|] == lines;
  }
}
