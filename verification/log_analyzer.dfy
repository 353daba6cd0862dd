/**
 * The per-line and per-URL counters of log_analyzer.py (`SecureLogAnalyzer`):
 * every URL occurrence on a line is counted under its cleaned URL and
 * categorised by the line's first valid status code and its keywords.
 */
module LogAnalyzer {
  import opened Wrappers
  import opened Text
  import opened Tally
  import opened Urls

  /** One value of `url_stats`. */
  datatype UrlStat = UrlStat(
    successCount: nat,
    clientErrorCount: nat,
    serverErrorCount: nat,
    timeoutCount: nat,
    unknownCount: nat,
    totalCount: nat,
    statusCodes: map<nat, nat>,
    errorMessages: seq<string>)

  /** What the `url_stats` factory creates for a URL seen for the first time. */
  const EmptyStat: UrlStat := UrlStat(0, 0, 0, 0, 0, 0, map[], [])

  const ErrorKeywords: seq<string> := ["error", "failed", "timeout", "exception", "refused"]
  const SuccessKeywords: seq<string> := ["success", "ok", "completed", "200"]

  /**
   * What the counters of one URL always satisfy: each occurrence adds at most
   * one to the three categories together, at most one to timeouts and
   * unknowns together, and at most one status code; at most three stored
   * messages of at most 100 characters.
   */
  ghost predicate StatValid(u: UrlStat) {
    && u.successCount + u.clientErrorCount + u.serverErrorCount <= u.totalCount
    && u.timeoutCount + u.unknownCount <= u.totalCount
    && MapSum(u.statusCodes, Count) <= u.totalCount
    && (forall c :: c in u.statusCodes ==> 100 <= c < 600)
    && |u.errorMessages| <= 3
    && (forall k :: 0 <= k < |u.errorMessages| ==> |u.errorMessages[k]| <= 100)
  }

  /** The status code of a line: the first `\b\d{3}\b` token whose value lies in 100..599. */
  function StatusCode(line: string): (code: Option<nat>)
    ensures code.Some? ==> 100 <= code.value < 600
    ensures code.None? <==> !HasTokenIn(line, 100, 600)
  {
    FirstCodeIn(line, 100, 600)
  }

  /** The code of a line is the value of its first token in 100..599, whatever tokens follow. */
  lemma StatusCodeIsFirst(line: string, i: nat)
    requires FirstInRangeAt(line, 100, 600, i)
    ensures StatusCode(line) == Some(TokenValue(line, i))
  {
    FirstCodeAt(line, 100, 600, i);
  }

  /** Lines counted by the code: one more occurrence, its code tallied, 2xx/4xx/5xx categorised. */
  function CountCode(u: UrlStat, code: Option<nat>): (r: UrlStat)
    ensures r.totalCount == u.totalCount + 1
    ensures r.timeoutCount == u.timeoutCount && r.unknownCount == u.unknownCount
    ensures r.errorMessages == u.errorMessages
  {
    var u1 := u.(totalCount := u.totalCount + 1);
    var u2 := if code.Some? then u1.(statusCodes := Inc(u1.statusCodes, code.value)) else u1;
    if code.None? then u2
    else if 200 <= code.value < 300 then u2.(successCount := u2.successCount + 1)
    else if 400 <= code.value < 500 then u2.(clientErrorCount := u2.clientErrorCount + 1)
    else if 500 <= code.value < 600 then u2.(serverErrorCount := u2.serverErrorCount + 1)
    else u2
  }

  /** On an error-keyword line: a timeout, else an unknown when there is no code; a message while fewer than 3. */
  function CountErrorKeywords(u: UrlStat, isError: bool, timeout: bool, noCode: bool, snippet: string): (r: UrlStat)
    ensures r.totalCount == u.totalCount && r.statusCodes == u.statusCodes
    ensures r.successCount == u.successCount && r.clientErrorCount == u.clientErrorCount
    ensures r.serverErrorCount == u.serverErrorCount
  {
    if !isError then u
    else
      var u1 :=
        if timeout then u.(timeoutCount := u.timeoutCount + 1)
        else if noCode then u.(unknownCount := u.unknownCount + 1)
        else u;
      if |u1.errorMessages| < 3 then u1.(errorMessages := u1.errorMessages + [snippet]) else u1
  }

  /** The success keywords, consulted only when the line has no status code. */
  function CountFallback(u: UrlStat, fallback: bool): (r: UrlStat)
    ensures r.totalCount == u.totalCount && r.statusCodes == u.statusCodes
    ensures r.timeoutCount == u.timeoutCount && r.unknownCount == u.unknownCount
    ensures r.errorMessages == u.errorMessages
  {
    if fallback then u.(successCount := u.successCount + 1) else u
  }

  /**
   * What the loop body reads from the line; it is the same for every URL of
   * the line: the status code, the error keywords, `timeout`, the success
   * keywords and the stored snippet.
   */
  datatype LineFacts = LineFacts(code: Option<nat>, isError: bool, timeout: bool, successWords: bool, snippet: string)

  /** A status code is a valid HTTP code and the snippet is at most 100 characters. */
  predicate FactsValid(f: LineFacts) {
    (f.code.Some? ==> 100 <= f.code.value < 600) && |f.snippet| <= 100
  }

  function Assess(line: string): (f: LineFacts)
    ensures FactsValid(f)
  {
    var low := Lower(line);
    LineFacts(StatusCode(line), ContainsAny(low, ErrorKeywords), Contains(low, "timeout"),
              ContainsAny(low, SuccessKeywords), Take(Strip(line), 100))
  }

  /** The body of `for url in url_matches` for a URL already cleaned. */
  function CountOccurrence(u: UrlStat, f: LineFacts): (r: UrlStat)
    ensures r.totalCount == u.totalCount + 1
  {
    var counted := CountCode(u, f.code);
    var errors := CountErrorKeywords(counted, f.isError, f.timeout, f.code.None?, f.snippet);
    CountFallback(errors, f.code.None? && f.successWords)
  }

  /** The stat of a URL as the `defaultdict` hands it out. */
  function StatOf(stats: map<string, UrlStat>, url: string): UrlStat {
    Lookup(stats, url, EmptyStat)
  }

  /** `url.rstrip('.,;:)\'"')` over every match of the line. */
  function Cleaned(urls: seq<string>): (r: seq<string>)
    ensures |r| == |urls|
    ensures forall k :: 0 <= k < |r| ==> r[k] == RStrip(urls[k], TrailingPunct)
  {
    seq(|urls|, k requires 0 <= k < |urls| => RStrip(urls[k], TrailingPunct))
  }

  /** The loop over the line's cleaned URLs, first to last. */
  function CountUrls(stats: map<string, UrlStat>, urls: seq<string>, f: LineFacts): map<string, UrlStat>
  {
    if |urls| == 0 then stats
    else
      var before := CountUrls(stats, urls[..|urls| - 1], f);
      var url := urls[|urls| - 1];
      before[url := CountOccurrence(StatOf(before, url), f)]
  }

  datatype State = State(totalLines: nat, linesWithUrls: nat, urlStats: map<string, UrlStat>)

  const Init: State := State(0, 0, map[])

  ghost predicate Valid(st: State) {
    && st.linesWithUrls <= st.totalLines
    && AllValid(st.urlStats)
  }

  ghost predicate AllValid(stats: map<string, UrlStat>) {
    forall url :: url in stats ==> StatValid(stats[url])
  }

  /** The per-line body of `analyze`. */
  function Step(st: State, line: string): State {
    CountLine(st, FindUrls(line, false), Assess(line))
  }

  /** The counting a line does, given its URL matches and what the line says about them. */
  function CountLine(st: State, urls: seq<string>, f: LineFacts): State {
    if |urls| == 0 then st.(totalLines := st.totalLines + 1)
    else State(st.totalLines + 1, st.linesWithUrls + 1, CountUrls(st.urlStats, Cleaned(urls), f))
  }

  function Run(st: State, lines: seq<string>): State {
    if |lines| == 0 then st else Step(Run(st, lines[..|lines| - 1]), lines[|lines| - 1])
  }

  // ---------------------------------------------------------------- one occurrence

  /** Each occurrence adds exactly one to `total_count` and keeps every bound of `StatValid`. */
  lemma OccurrenceKeepsValid(u: UrlStat, f: LineFacts)
    requires StatValid(u) && FactsValid(f)
    ensures StatValid(CountOccurrence(u, f))
  {
    var counted := CountCode(u, f.code);
    var errors := CountErrorKeywords(counted, f.isError, f.timeout, f.code.None?, f.snippet);
    var r := CountFallback(errors, f.code.None? && f.successWords);
    if f.code.Some? {
      IncSum(u.statusCodes, f.code.value);
      assert counted.statusCodes == Inc(u.statusCodes, f.code.value);
      assert counted.successCount + counted.clientErrorCount + counted.serverErrorCount
        <= u.successCount + u.clientErrorCount + u.serverErrorCount + 1;
    } else {
      assert counted == u.(totalCount := u.totalCount + 1);
    }
    assert errors.timeoutCount + errors.unknownCount <= counted.timeoutCount + counted.unknownCount + 1;
    assert errors.errorMessages == counted.errorMessages || errors.errorMessages == counted.errorMessages + [f.snippet];
  }

  /**
   * How one occurrence is categorised: by the status code when there is one
   * (2xx success, 4xx client error, 5xx server error, 1xx and 3xx none of
   * them), otherwise by the success keywords alone.
   */
  lemma OccurrenceCategory(u: UrlStat, line: string)
    ensures var r := CountOccurrence(u, Assess(line));
      var code := StatusCode(line);
      var success := if code.Some? then 200 <= code.value < 300 else ContainsAny(Lower(line), SuccessKeywords);
      && r.successCount == u.successCount + (if success then 1 else 0)
      && r.clientErrorCount == u.clientErrorCount + (if code.Some? && 400 <= code.value < 500 then 1 else 0)
      && r.serverErrorCount == u.serverErrorCount + (if code.Some? && 500 <= code.value then 1 else 0)
      && (code.Some? ==> Get(r.statusCodes, code.value) == Get(u.statusCodes, code.value) + 1)
      && (code.None? ==> r.statusCodes == u.statusCodes)
  {
  }

  /**
   * On a line with an error keyword, `timeout` counts a timeout; otherwise a
   * line without a status code counts an unknown. Lines without an error
   * keyword count neither and store no message.
   */
  lemma OccurrenceErrors(u: UrlStat, line: string)
    ensures var r := CountOccurrence(u, Assess(line));
      var low := Lower(line);
      var isError := ContainsAny(low, ErrorKeywords);
      && r.timeoutCount == u.timeoutCount + (if isError && Contains(low, "timeout") then 1 else 0)
      && r.unknownCount == u.unknownCount
           + (if isError && !Contains(low, "timeout") && StatusCode(line).None? then 1 else 0)
      && r.errorMessages == (if isError && |u.errorMessages| < 3 then u.errorMessages + [Take(Strip(line), 100)]
                             else u.errorMessages)
  {
  }

  // ---------------------------------------------------------------- one line

  /** The URLs a line counts touch only their own entries, each keeping `StatValid`. */
  lemma {:induction false} CountUrlsKeepsValid(stats: map<string, UrlStat>, urls: seq<string>, f: LineFacts)
    requires AllValid(stats)
    requires FactsValid(f)
    ensures AllValid(CountUrls(stats, urls, f))
  {
    if |urls| > 0 {
      var prefix := urls[..|urls| - 1];
      CountUrlsKeepsValid(stats, prefix, f);
      var before := CountUrls(stats, prefix, f);
      var url := urls[|urls| - 1];
      StatOfValid(before, url);
      OccurrenceKeepsValid(StatOf(before, url), f);
      UpdateKeepsValid(before, url, CountOccurrence(StatOf(before, url), f));
    }
  }

  /** The URLs of a line gain an entry each, and no other key appears. */
  lemma {:induction false} CountUrlsKeys(stats: map<string, UrlStat>, urls: seq<string>, f: LineFacts)
    ensures CountUrls(stats, urls, f).Keys == stats.Keys + (set url | url in urls)
  {
    if |urls| > 0 {
      var prefix := urls[..|urls| - 1];
      CountUrlsKeys(stats, prefix, f);
      assert urls == prefix + [urls[|urls| - 1]];
      assert (set x | x in urls) == (set x | x in prefix) + {urls[|urls| - 1]};
    }
  }

  /** The `defaultdict` hands out valid stats: the stored ones and the empty one. */
  lemma StatOfValid(stats: map<string, UrlStat>, url: string)
    requires AllValid(stats)
    ensures StatValid(StatOf(stats, url))
  {
    assert EmptyStat.statusCodes == map[];
  }

  lemma UpdateKeepsValid(stats: map<string, UrlStat>, url: string, u: UrlStat)
    requires AllValid(stats) && StatValid(u)
    ensures AllValid(stats[url := u])
  {
  }

  /** Each occurrence of a URL in the line's list adds exactly one to that URL's `total_count`. */
  lemma {:induction false} TotalCountsOccurrences(stats: map<string, UrlStat>, urls: seq<string>, f: LineFacts, url: string)
    ensures StatOf(CountUrls(stats, urls, f), url).totalCount == StatOf(stats, url).totalCount + Occurrences(urls, url)
  {
    if |urls| > 0 {
      var prefix := urls[..|urls| - 1];
      TotalCountsOccurrences(stats, prefix, f, url);
      OccurrencesAppend(prefix, url, urls[|urls| - 1]);
      assert prefix + [urls[|urls| - 1]] == urls;
    }
  }

  /** A line keeps `Valid`: one more line, one more line with URLs exactly when it has a match. */
  lemma StepKeepsValid(st: State, line: string)
    requires Valid(st)
    ensures var r := Step(st, line);
      && Valid(r)
      && r.totalLines == st.totalLines + 1
      && r.linesWithUrls == st.linesWithUrls + (if |FindUrls(line, false)| > 0 then 1 else 0)
  {
    CountUrlsKeepsValid(st.urlStats, Cleaned(FindUrls(line, false)), Assess(line));
  }

  /** A line without a URL changes no URL's counters. */
  lemma LineWithoutUrlCountsNothing(st: State, line: string)
    requires FindUrls(line, false) == []
    ensures Step(st, line).urlStats == st.urlStats
  {
  }

  /** Over a whole log: every line counted, every stat valid. */
  lemma {:induction false} RunKeepsValid(lines: seq<string>)
    ensures var r := Run(Init, lines);
      Valid(r) && r.totalLines == |lines| && r.linesWithUrls <= |lines|
  {
    if |lines| > 0 {
      RunKeepsValid(lines[..|lines| - 1]);
      StepKeepsValid(Run(Init, lines[..|lines| - 1]), lines[|lines| - 1]);
    }
  }

  class SecureLogAnalyzer {
    var totalLines: nat
    var linesWithUrls: nat
    var urlStats: map<string, UrlStat>

    function Snapshot(): State
      reads this
    {
      State(totalLines, linesWithUrls, urlStats)
    }

    constructor ()
      ensures Snapshot() == Init
    {
      totalLines, linesWithUrls, urlStats := 0, 0, map[];
    }

    /** The loop over one line's cleaned URLs. */
    method CountLineUrls(cleaned: seq<string>, facts: LineFacts)
      modifies this
      ensures urlStats == CountUrls(old(urlStats), cleaned, facts)
      ensures totalLines == old(totalLines) && linesWithUrls == old(linesWithUrls)
    {
      for i := 0 to |cleaned|
        invariant urlStats == CountUrls(old(urlStats), cleaned[..i], facts)
        invariant totalLines == old(totalLines) && linesWithUrls == old(linesWithUrls)
      {
        assert cleaned[..i + 1][..i] == cleaned[..i];
        var url := cleaned[i];
        urlStats := urlStats[url := CountOccurrence(StatOf(urlStats, url), facts)];
      }
      assert cleaned[..|cleaned|] == cleaned;
    }

    /**
     * One iteration of the loop in `analyze`. Stripping is pure, so cleaning
     * all matches before counting does not change what is counted.
     */
    method AnalyzeLine(line: string)
      modifies this
      ensures Snapshot() == Step(old(Snapshot()), line)
    {
      var urlMatches := FindUrls(line, false);
      var facts := Assess(line);
      TallyLine(urlMatches, facts);
    }

    /** The counting in one iteration of the loop in `analyze`, given the line's matches and facts. */
    method TallyLine(urlMatches: seq<string>, facts: LineFacts)
      modifies this
      ensures Snapshot() == CountLine(old(Snapshot()), urlMatches, facts)
    {
      totalLines := totalLines + 1;
      if |urlMatches| > 0 {
        linesWithUrls := linesWithUrls + 1;
        var cleaned := Cleaned(urlMatches);
        CountLineUrls(cleaned, facts);
      }
    }

    /** `analyze`: every line of the log in order. */
    method Analyze(lines: seq<string>)
      modifies this
      ensures Snapshot() == Run(old(Snapshot()), lines)
    {
      for i := 0 to |lines|
        invariant Snapshot() == Run(old(Snapshot()), lines[..i])
      {
        AnalyzeLine(lines[i]);
        assert lines[..i + 1][..i] == lines[..i];
      }
      assert lines[..|lines|] == lines;
    }
  }
}
