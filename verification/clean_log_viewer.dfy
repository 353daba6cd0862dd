/**
 * clean_log_viewer.py (`CleanLogViewer`): the URL cleaner and the per-URL
 * success and error counters of `analyze`.
 */
module CleanLogViewer {
  import opened Wrappers
  import opened Text
  import opened Tally
  import opened Urls
  import opened Rewrite

  // ---------------------------------------------------------------- clean_url

  /** `clean_url`: trailing punctuation and brackets, then anything after `:443]`, then from the first `[`. */
  function CleanUrl(url: string): string {
    var stripped := RStrip(url, TrailingPunctBrackets);
    var portFixed := SubToEnd(stripped, ":443]", ":443");
    SubToEnd(portFixed, "[", "")
  }

  /** For an input without line feeds, every step only removes a suffix. */
  lemma CleanUrlIsPrefix(url: string)
    requires '\n' !in url
    ensures var r := CleanUrl(url);
      |r| <= |url| && r == url[..|r|]
  {
    var stripped := RStrip(url, TrailingPunctBrackets);
    assert '\n' !in stripped by {
      assert forall c :: c in stripped ==> c in url;
    }
    SubToEndPrefix(stripped, ":443]", ":443");
    var portFixed := SubToEnd(stripped, ":443]", ":443");
    assert '\n' !in portFixed by {
      assert forall c :: c in portFixed ==> c in stripped;
    }
    SubToEndPrefix(portFixed, "[", "");
  }

  /** For an input without line feeds, no `[` survives. */
  lemma CleanUrlHasNoBracket(url: string)
    requires '\n' !in url
    ensures '[' !in CleanUrl(url)
  {
    var stripped := RStrip(url, TrailingPunctBrackets);
    assert '\n' !in stripped by {
      assert forall c :: c in stripped ==> c in url;
    }
    SubToEndChars(stripped, ":443]", ":443", '\n');
    SubToEndRemovesBracket(SubToEnd(stripped, ":443]", ":443"));
  }

  /** A match of the URL pattern holds no bracket, so for it `clean_url` is the `rstrip` alone. */
  lemma FoundUrlOnlyStripped(line: string, k: nat)
    requires k < |FindUrls(line, true)|
    ensures var u := FindUrls(line, true)[k];
      CleanUrl(u) == RStrip(u, TrailingPunctBrackets)
  {
    var u := FindUrls(line, true)[k];
    assert IsUrlText(u, true);
    var stripped := RStrip(u, TrailingPunctBrackets);
    assert ']' !in stripped && '[' !in stripped by {
      assert forall c :: c in stripped ==> c in u;
    }
    SubToEndAbsent(stripped, ":443]", ":443");
    SubToEndAbsent(stripped, "[", "");
  }

  // ---------------------------------------------------------------- counters

  /** One value of `url_stats`. */
  datatype ViewStat = ViewStat(success: nat, errors: nat, total: nat, errorTypes: map<nat, nat>, errorExamples: seq<string>)

  const EmptyStat: ViewStat := ViewStat(0, 0, 0, map[], [])

  /** The alternatives of `\b(200|201|202|204|success|OK)\b`, matched ignoring case. */
  const SuccessWords: seq<string> := ["200", "201", "202", "204", "success", "ok"]
  /** The word alternatives of `\b(4\d{2}|5\d{2}|error|fail|timeout)\b`, matched ignoring case. */
  const ErrorWords: seq<string> := ["error", "fail", "timeout"]

  predicate IsSuccessLine(line: string) { HasAnyWord(Lower(line), SuccessWords) }

  predicate IsErrorLine(line: string) { HasTokenIn(line, 400, 600) || HasAnyWord(Lower(line), ErrorWords) }

  /**
   * The counters of one URL: success and errors each at most the total, the
   * error types summing to at most the errors, only 4xx and 5xx codes, at
   * most three examples of at most 150 characters.
   */
  ghost predicate StatValid(v: ViewStat) {
    && v.success <= v.total
    && v.errors <= v.total
    && MapSum(v.errorTypes, Count) <= v.errors
    && (forall c :: c in v.errorTypes ==> 400 <= c < 600)
    && |v.errorExamples| <= 3
    && (forall k :: 0 <= k < |v.errorExamples| ==> |v.errorExamples[k]| <= 150)
  }

  /** Every URL's counters are valid. */
  ghost predicate AllValid(stats: map<string, ViewStat>) {
    forall url :: url in stats ==> StatValid(stats[url])
  }

  /** What the loop body reads from the line: the two searches, the first 3-digit token, the example. */
  datatype LineFacts = LineFacts(success: bool, error: bool, code: Option<nat>, snippet: string)

  predicate FactsValid(f: LineFacts) { |f.snippet| <= 150 }

  function Assess(line: string): (f: LineFacts)
    ensures FactsValid(f)
  {
    LineFacts(IsSuccessLine(line), IsErrorLine(line), FirstToken(line), Take(Strip(line), 150))
  }

  /** The body of `for url in url_matches` for a kept URL. */
  function CountOccurrence(v: ViewStat, f: LineFacts): ViewStat {
    var counted := v.(total := v.total + 1, success := if f.success then v.success + 1 else v.success);
    if !f.error then counted
    else
      var types :=
        if f.code.Some? && 400 <= f.code.value < 600 then Inc(counted.errorTypes, f.code.value)
        else counted.errorTypes;
      var examples :=
        if |counted.errorExamples| < 3 then counted.errorExamples + [f.snippet] else counted.errorExamples;
      counted.(errors := counted.errors + 1, errorTypes := types, errorExamples := examples)
  }

  function StatOf(stats: map<string, ViewStat>, url: string): ViewStat {
    Lookup(stats, url, EmptyStat)
  }

  /** The loop over the line's cleaned URLs, first to last; URLs shorter than 10 characters are skipped. */
  function CountUrls(stats: map<string, ViewStat>, urls: seq<string>, f: LineFacts): map<string, ViewStat> {
    if |urls| == 0 then stats
    else
      var before := CountUrls(stats, urls[..|urls| - 1], f);
      var url := urls[|urls| - 1];
      if |url| < 10 then before else before[url := CountOccurrence(StatOf(before, url), f)]
  }

  function CleanAll(urls: seq<string>): (r: seq<string>)
    ensures |r| == |urls| && forall k :: 0 <= k < |r| ==> r[k] == CleanUrl(urls[k])
  {
    seq(|urls|, k requires 0 <= k < |urls| => CleanUrl(urls[k]))
  }

  /** The per-line body of `analyze`. */
  function Step(stats: map<string, ViewStat>, line: string): map<string, ViewStat> {
    CountUrls(stats, CleanAll(FindUrls(line, true)), Assess(line))
  }

  function Run(stats: map<string, ViewStat>, lines: seq<string>): map<string, ViewStat> {
    if |lines| == 0 then stats else Step(Run(stats, lines[..|lines| - 1]), lines[|lines| - 1])
  }

  // ---------------------------------------------------------------- properties

  /**
   * One kept occurrence adds 1 to `total`; `success` and `errors` each add 1
   * exactly when their own search succeeds, independently of each other;
   * `error_types` counts the first 3-digit token only on error lines and
   * only when it is a 4xx or 5xx code.
   */
  lemma OccurrenceEffects(v: ViewStat, f: LineFacts)
    ensures var r := CountOccurrence(v, f);
      && r.total == v.total + 1
      && r.success == v.success + (if f.success then 1 else 0)
      && r.errors == v.errors + (if f.error then 1 else 0)
      && (f.error && f.code.Some? && 400 <= f.code.value < 600 ==>
            Get(r.errorTypes, f.code.value) == Get(v.errorTypes, f.code.value) + 1)
      && (!(f.error && f.code.Some? && 400 <= f.code.value < 600) ==> r.errorTypes == v.errorTypes)
  {
  }

  lemma OccurrenceKeepsValid(v: ViewStat, f: LineFacts)
    requires StatValid(v) && FactsValid(f)
    ensures StatValid(CountOccurrence(v, f))
  {
    var r := CountOccurrence(v, f);
    if f.error && f.code.Some? && 400 <= f.code.value < 600 {
      IncSum(v.errorTypes, f.code.value);
    }
    assert r.errorExamples == v.errorExamples || r.errorExamples == v.errorExamples + [f.snippet];
  }

  /** The URLs of a line touch only their own entries, each keeping `StatValid`. */
  lemma {:induction false} CountUrlsKeepsValid(stats: map<string, ViewStat>, urls: seq<string>, f: LineFacts)
    requires forall url :: url in stats ==> StatValid(stats[url])
    requires FactsValid(f)
    ensures var r := CountUrls(stats, urls, f);
      && stats.Keys <= r.Keys <= stats.Keys + (set url | url in urls && |url| >= 10)
      && forall url :: url in r ==> StatValid(r[url])
  {
    if |urls| > 0 {
      var prefix := urls[..|urls| - 1];
      CountUrlsKeepsValid(stats, prefix, f);
      var before := CountUrls(stats, prefix, f);
      var url := urls[|urls| - 1];
      assert StatValid(EmptyStat) by {
        assert EmptyStat.errorTypes == map[];
      }
      OccurrenceKeepsValid(StatOf(before, url), f);
      assert urls == prefix + [url];
      assert (set x | x in prefix && |x| >= 10) <= (set x | x in urls && |x| >= 10);
    }
  }

  /** Each occurrence of a kept URL adds exactly one to its `total`; a URL shorter than 10 characters is never counted. */
  lemma {:induction false} TotalCountsOccurrences(stats: map<string, ViewStat>, urls: seq<string>, f: LineFacts, url: string)
    ensures StatOf(CountUrls(stats, urls, f), url).total
      == StatOf(stats, url).total + (if |url| >= 10 then Occurrences(urls, url) else 0)
    ensures |url| < 10 ==> StatOf(CountUrls(stats, urls, f), url) == StatOf(stats, url)
  {
    if |urls| > 0 {
      var prefix := urls[..|urls| - 1];
      TotalCountsOccurrences(stats, prefix, f, url);
      OccurrencesAppend(prefix, url, urls[|urls| - 1]);
      assert prefix + [urls[|urls| - 1]] == urls;
    }
  }

  /** One line keeps every URL's counters valid. */
  lemma StepKeepsValid(stats: map<string, ViewStat>, line: string)
    requires AllValid(stats)
    ensures AllValid(Step(stats, line))
  {
    CountUrlsKeepsValid(stats, CleanAll(FindUrls(line, true)), Assess(line));
  }

  /** Over a whole log every URL's counters stay valid. */
  lemma {:induction false} RunKeepsValid(lines: seq<string>)
    ensures AllValid(Run(map[], lines))
  {
    if |lines| > 0 {
      RunKeepsValid(lines[..|lines| - 1]);
      StepKeepsValid(Run(map[], lines[..|lines| - 1]), lines[|lines| - 1]);
    }
  }

  class CleanLogViewer {
    var urlStats: map<string, ViewStat>

    constructor ()
      ensures urlStats == map[]
    {
      urlStats := map[];
    }

    /** The loop over one line's cleaned URLs. */
    method CountLineUrls(cleaned: seq<string>, facts: LineFacts)
      modifies this
      ensures urlStats == CountUrls(old(urlStats), cleaned, facts)
    {
      for i := 0 to |cleaned|
        invariant urlStats == CountUrls(old(urlStats), cleaned[..i], facts)
      {
        assert cleaned[..i + 1][..i] == cleaned[..i];
        var url := cleaned[i];
        if |url| >= 10 {
          urlStats := urlStats[url := CountOccurrence(StatOf(urlStats, url), facts)];
        }
      }
      assert cleaned[..|cleaned|] == cleaned;
    }

    /**
     * One iteration of the loop in `analyze`. `clean_url` is pure, so
     * cleaning all matches before counting does not change what is counted.
     */
    method AnalyzeLine(line: string)
      modifies this
      ensures urlStats == Step(old(urlStats), line)
    {
      var cleaned := CleanAll(FindUrls(line, true));
      var facts := Assess(line);
      CountLineUrls(cleaned, facts);
    }

    /** `analyze`: every line of the log in order. */
    method Analyze(lines: seq<string>)
      modifies this
      ensures urlStats == Run(old(urlStats), lines)
    {
      for i := 0 to |lines|
        invariant urlStats == Run(old(urlStats), lines[..i])
      {
        AnalyzeLine(lines[i]);
        assert lines[..i + 1][..i] == lines[..i];
      }
      assert lines[..|lines|] == lines;
    }
  }
}
