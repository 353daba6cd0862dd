/**
 * The error classifier of root_cause_analyzer.py (`RootCauseAnalyzer`):
 * which lines count as errors, which root cause a line is filed under, the
 * error message extracted from it, and the per-line update of the analyzer's
 * three stores. The log file is a sequence of lines, each as the file
 * iterator yields it (with its line terminator).
 */
module RootCause {
  import opened Wrappers
  import opened Text
  import opened Tally
  import opened Urls

  // ---------------------------------------------------------------- root causes

  const Unknown: string := "unknown"

  /** The nine keyword rules of `_identify_root_cause`, in the order they are tried. */
  const Rules: seq<(string, seq<string>)> := [
    ("authentication", ["401", "unauthorized", "auth", "authentication", "token", "credentials"]),
    ("not_found", ["404", "not found", "no route", "endpoint", "path not found"]),
    ("timeout", ["timeout", "timed out", "time out", "deadline exceeded"]),
    ("server_crash", ["500", "internal server", "crash", "exception", "stack trace", "panic"]),
    ("network", ["connection", "refused", "reset", "unreachable", "dns", "resolve"]),
    ("rate_limit", ["429", "rate limit", "too many requests", "throttle"]),
    ("bad_request", ["400", "bad request", "invalid", "malformed", "parse error"]),
    ("permission", ["403", "forbidden", "permission", "denied", "access denied"]),
    ("service_unavailable", ["503", "service unavailable", "unavailable", "maintenance", "overload"])
  ]

  /** The keys of `root_causes`: the nine rule names, then `unknown`. */
  const CauseKeys: set<string> := {
    "authentication", "not_found", "timeout", "server_crash", "network",
    "rate_limit", "bad_request", "permission", "service_unavailable", Unknown }

  /** The index of the first rule at or after `from` with a keyword in `low`; `|Rules|` when none has. */
  function FirstRule(low: string, from: nat): (k: nat)
    requires from <= |Rules|
    ensures from <= k <= |Rules|
    ensures k < |Rules| ==> ContainsAny(low, Rules[k].1)
    ensures forall j :: from <= j < k ==> !ContainsAny(low, Rules[j].1)
    decreases |Rules| - from
  {
    if from == |Rules| || ContainsAny(low, Rules[from].1) then from else FirstRule(low, from + 1)
  }

  /**
   * `_identify_root_cause`: the first rule, in the fixed order, one of whose
   * keywords occurs in the lower-cased line; `unknown` when none does.
   */
  function IdentifyRootCause(line: string): (cause: string)
    ensures cause in CauseKeys
    ensures cause == Unknown <==> forall j :: 0 <= j < |Rules| ==> !ContainsAny(Lower(line), Rules[j].1)
    ensures cause != Unknown ==> exists k :: (0 <= k < |Rules| && cause == Rules[k].0
      && ContainsAny(Lower(line), Rules[k].1)
      && forall j :: 0 <= j < k ==> !ContainsAny(Lower(line), Rules[j].1))
  {
    var k := FirstRule(Lower(line), 0);
    if k == |Rules| then Unknown else Rules[k].0
  }

  /** Classification ignores case: a line and its lower-cased copy are filed alike. */
  lemma RootCauseIgnoresCase(line: string)
    ensures IdentifyRootCause(Lower(line)) == IdentifyRootCause(line)
  {
    LowerIdempotent(line);
  }

  // ---------------------------------------------------------------- error lines

  /** The plain keywords of `_is_error_line`. */
  const ErrorIndicators: seq<string> :=
    ["error", "fail", "exception", "timeout", "refused", "unable", "cannot", "denied", "unauthorized"]

  /** The regular expression `d[0-9][0-9]` finds a match in `s`. */
  predicate DigitTriple(s: string, d: char) {
    exists i :: 0 <= i && i + 3 <= |s| && s[i] == d && IsDigit(s[i + 1]) && IsDigit(s[i + 2])
  }

  /** `_is_error_line`: a keyword, or a `4` or `5` followed by two digits, in the lower-cased line. */
  predicate IsErrorLine(line: string) {
    var low := Lower(line);
    ContainsAny(low, ErrorIndicators) || DigitTriple(low, '4') || DigitTriple(low, '5')
  }

  /**
   * Every line carrying a word-bounded 4xx or 5xx status code is an error
   * line, and so is every line whose lower-cased copy is one.
   */
  lemma StatusCodeLineIsErrorLine(line: string)
    requires HasTokenIn(line, 400, 600)
    ensures IsErrorLine(line)
  {
    var i :| 0 <= i <= |line| && TokenAt(line, i) && 400 <= TokenValue(line, i) < 600;
    var low := Lower(line);
    assert low[i] == line[i] && low[i + 1] == line[i + 1] && low[i + 2] == line[i + 2];
    if line[i] == '4' {
      assert DigitTriple(low, '4');
    } else {
      assert line[i] == '5';
      assert DigitTriple(low, '5');
    }
  }

  lemma ErrorLineIgnoresCase(line: string)
    ensures IsErrorLine(Lower(line)) == IsErrorLine(line)
  {
    LowerIdempotent(line);
  }

  // ---------------------------------------------------------------- error messages

  /** `[:\s]` */
  predicate IsSep(c: char) { c == ':' || IsSpace(c) }
  /** `[^,\n]` */
  predicate InGroup(c: char) { c != ',' && c != '\n' }
  /** `["\']` */
  predicate IsQuote(c: char) { c == '"' || c == '\'' }
  /** `[^"\']` */
  predicate InQuoted(c: char) { !IsQuote(c) }

  /**
   * The patterns of `_extract_error_message`, in the order they are tried:
   * `word[:\s]+([^,\n]+)` and `word[:\s]+["\']([^"\']+)["\']`.
   */
  datatype Pattern = Unquoted(word: string) | Quoted(word: string)

  const MessagePatterns: seq<Pattern> :=
    [Unquoted("error"), Unquoted("exception"), Unquoted("failed"), Quoted("message")]

  /** `[^,\n]` matches at `b + j`. */
  predicate GroupCanStart(s: string, b: nat, j: nat) { b + j < |s| && InGroup(s[b + j]) }

  /**
   * Backtracking of `[:\s]+` over a run of `m` separators starting at `b`:
   * the largest `j` in `1..m` such that `[^,\n]` matches at `b + j`; 0 when
   * there is none.
   */
  function GroupOffset(s: string, b: nat, m: nat): (j: nat)
    ensures j <= m
    ensures j > 0 ==> GroupCanStart(s, b, j)
    ensures forall k :: j < k <= m ==> !GroupCanStart(s, b, k)
    decreases m
  {
    if m == 0 then 0
    else if GroupCanStart(s, b, m) then m
    else GroupOffset(s, b, m - 1)
  }

  /**
   * The span of group 1 when `pat` matches at position `p` of `s`, with the
   * keyword compared case-insensitively through `low`, the lower-cased `s`.
   */
  function GroupAt(s: string, low: string, pat: Pattern, p: nat): (r: Option<(nat, nat)>)
    requires |low| == |s|
    ensures r.Some? ==> p < r.value.0 < r.value.1 <= |s|
  {
    if !MatchesAt(low, pat.word, p) || |pat.word| == 0 then None
    else
      var b := p + |pat.word|;
      var m := Span(s, b, IsSep);
      match pat
      case Unquoted(_) =>
        var j := GroupOffset(s, b, m);
        if j == 0 then None
        else
          var g := Span(s, b + j, InGroup);
          assert g > 0;
          Some((b + j, b + j + g))
      case Quoted(_) =>
        var q := b + m;
        if m == 0 || q >= |s| || !IsQuote(s[q]) then None
        else
          var g := Span(s, q + 1, InQuoted);
          if g == 0 || q + 1 + g >= |s| then None else Some((q + 1, q + 1 + g))
  }

  /** `re.search`: the leftmost position at or after `from` where `pat` matches. */
  function FirstMatch(s: string, low: string, pat: Pattern, from: nat): (r: Option<nat>)
    requires |low| == |s|
    ensures r.Some? ==> from <= r.value && GroupAt(s, low, pat, r.value).Some?
    ensures r.Some? ==> forall p :: from <= p < r.value ==> GroupAt(s, low, pat, p).None?
    ensures r.None? ==> forall p :: from <= p <= |s| ==> GroupAt(s, low, pat, p).None?
    decreases |s| + 1 - from
  {
    if from > |s| then None
    else if GroupAt(s, low, pat, from).Some? then Some(from)
    else FirstMatch(s, low, pat, from + 1)
  }

  /** The text of group 1 when `pat` matches at `p`. */
  function GroupText(s: string, low: string, pat: Pattern, p: nat): string
    requires |low| == |s| && GroupAt(s, low, pat, p).Some?
  {
    var span := GroupAt(s, low, pat, p).value;
    s[span.0..span.1]
  }

  /** `match.group(1).strip()[:150]`. */
  function Message(group: string): (msg: string)
    ensures |msg| <= 150 && Contains(group, msg)
  {
    var stripped := Strip(group);
    var msg := Take(stripped, 150);
    SliceContained(stripped, 0, |msg|);
    ContainsTransitive(group, stripped, msg);
    msg
  }

  /** Patterns `k..` in order: group 1 of the first that matches, stripped and cut to 150 characters. */
  function ExtractFrom(line: string, low: string, k: nat): (r: Option<string>)
    requires |low| == |line| && k <= |MessagePatterns|
    ensures r.Some? ==> |r.value| <= 150 && Contains(line, r.value)
    ensures r.None? <==> forall j, p :: (k <= j < |MessagePatterns| && 0 <= p <= |line|
      ==> GroupAt(line, low, MessagePatterns[j], p).None?)
    decreases |MessagePatterns| - k
  {
    if k == |MessagePatterns| then None
    else
      match FirstMatch(line, low, MessagePatterns[k], 0)
      case Some(p) =>
        var span := GroupAt(line, low, MessagePatterns[k], p).value;
        var msg := Message(GroupText(line, low, MessagePatterns[k], p));
        SliceContained(line, span.0, span.1);
        ContainsTransitive(line, line[span.0..span.1], msg);
        Some(msg)
      case None => ExtractFrom(line, low, k + 1)
  }

  /**
   * When no pattern from `k` to `j - 1` matches anywhere and pattern `j`
   * matches first at `p`, the message is group 1 of that match, stripped and
   * cut to 150 characters.
   */
  lemma {:induction false} ExtractFromFirst(line: string, low: string, k: nat, j: nat, p: nat)
    requires |low| == |line| && k <= j < |MessagePatterns|
    requires forall j', q :: k <= j' < j && 0 <= q <= |line| ==> GroupAt(line, low, MessagePatterns[j'], q).None?
    requires GroupAt(line, low, MessagePatterns[j], p).Some?
    requires forall q :: 0 <= q < p ==> GroupAt(line, low, MessagePatterns[j], q).None?
    ensures ExtractFrom(line, low, k) == Some(Message(GroupText(line, low, MessagePatterns[j], p)))
    decreases j - k
  {
    var first := FirstMatch(line, low, MessagePatterns[k], 0);
    if k == j {
      assert first.Some? && !(first.value < p) && !(p < first.value);
    } else {
      if first.Some? {
        assert false;
      }
      ExtractFromFirst(line, low, k + 1, j, p);
    }
  }

  /**
   * `_extract_error_message`: a piece of the line of at most 150 characters,
   * or `None` exactly when no pattern matches anywhere in the line;
   * `ExtractErrorMessageFirst` states which piece.
   */
  function ExtractErrorMessage(line: string): (r: Option<string>)
    ensures r.Some? ==> |r.value| <= 150 && Contains(line, r.value)
    ensures r.None? <==> forall j, p :: (0 <= j < |MessagePatterns| && 0 <= p <= |line|
      ==> GroupAt(line, Lower(line), MessagePatterns[j], p).None?)
  {
    ExtractFrom(line, Lower(line), 0)
  }

  /**
   * The message is taken from the first pattern, in list order, that matches
   * anywhere in the line, at that pattern's leftmost match: its group 1,
   * stripped and cut to 150 characters.
   */
  lemma ExtractErrorMessageFirst(line: string, j: nat, p: nat)
    requires j < |MessagePatterns|
    requires forall j', q :: 0 <= j' < j && 0 <= q <= |line| ==> GroupAt(line, Lower(line), MessagePatterns[j'], q).None?
    requires GroupAt(line, Lower(line), MessagePatterns[j], p).Some?
    requires forall q :: 0 <= q < p ==> GroupAt(line, Lower(line), MessagePatterns[j], q).None?
    ensures ExtractErrorMessage(line) == Some(Message(GroupText(line, Lower(line), MessagePatterns[j], p)))
  {
    ExtractFromFirst(line, Lower(line), 0, j, p);
  }

  // ---------------------------------------------------------------- the analyzer

  /** One entry of a `root_causes` list. */
  datatype ErrorInfo = ErrorInfo(lineNum: nat, url: string, line: string, rootCause: string)

  datatype State = State(
    rootCauses: map<string, seq<ErrorInfo>>,
    errorMessages: seq<string>,
    urlErrors: map<string, map<string, nat>>)

  /** `root_causes` always has exactly the ten keys it is created with. */
  predicate Valid(st: State) { st.rootCauses.Keys == CauseKeys }

  function Init(): (st: State)
    ensures Valid(st)
  {
    State(map c | c in CauseKeys :: [], [], map[])
  }

  lemma UrlHead(u: string)
    requires IsUrlText(u, false)
    ensures |u| > 7 && u[6] == '/' && MatchesAt(u, "http", 0)
  {
    if MatchesAt(u, "http://", 0) {
      assert u[..7] == "http://";
      assert u[..7][..4] == u[..4];
    } else {
      assert u[..8] == "https://";
      assert u[..8][..4] == u[..4];
    }
  }

  /** A match with its trailing punctuation removed still starts with the scheme and lies inside the match. */
  lemma StrippedUrl(u: string)
    requires IsUrlText(u, false)
    ensures var url := RStrip(u, TrailingPunct);
      |url| >= 7 && MatchesAt(url, "http", 0) && Contains(u, url)
  {
    var url := RStrip(u, TrailingPunct);
    UrlHead(u);
    assert |url| >= 7;
    assert url[..4] == u[..4];
    SliceContained(u, 0, |url|);
  }

  lemma HttpIsNotUnknown(url: string)
    requires MatchesAt(url, "http", 0)
    ensures url != "Unknown URL"
  {
    assert url[..4][0] == 'h';
  }

  /**
   * The URL recorded for a line: the first match, trailing punctuation
   * removed, or `Unknown URL` exactly when the line has no match
   * (`UrlOfUnknown`); `UrlOfFirstMatch` pins down which match.
   */
  function UrlOf(line: string): (url: string)
    ensures url == "Unknown URL" || (|url| >= 7 && MatchesAt(url, "http", 0) && Contains(line, url))
  {
    var urls := FindUrls(line, false);
    if |urls| == 0 then "Unknown URL"
    else
      var url := RStrip(urls[0], TrailingPunct);
      StrippedUrl(urls[0]);
      ContainsTransitive(line, urls[0], url);
      url
  }

  /** `Unknown URL` is recorded exactly for the lines without a match. */
  lemma UrlOfUnknown(line: string)
    ensures UrlOf(line) == "Unknown URL" <==> forall j :: 0 <= j < |line| ==> MatchLen(line, j, false) == 0
  {
    var urls := FindUrls(line, false);
    if |urls| > 0 {
      StrippedUrl(urls[0]);
      HttpIsNotUnknown(UrlOf(line));
    }
  }

  /** When the leftmost match starts at `i`, the recorded URL is that match with trailing punctuation removed. */
  lemma UrlOfFirstMatch(line: string, i: nat)
    requires MatchLen(line, i, false) > 0 && NoMatchIn(line, 0, i, false)
    ensures UrlOf(line) == RStrip(line[i..i + MatchLen(line, i, false)], TrailingPunct)
  {
    FindUrlsFirst(line, false, i);
    UrlOfHead(line, line[i..i + MatchLen(line, i, false)]);
  }

  /** The recorded URL is the first match with trailing punctuation removed. */
  lemma UrlOfHead(line: string, u: string)
    requires |FindUrls(line, false)| > 0 && FindUrls(line, false)[0] == u
    ensures UrlOf(line) == RStrip(u, TrailingPunct)
  {
  }

  /** Filing one error line: its entry under its cause, its message when non-empty, its URL counter. */
  function File(st: State, info: ErrorInfo, msg: Option<string>): (r: State)
    requires Valid(st) && info.rootCause in CauseKeys
    ensures Valid(r)
  {
    State(
      st.rootCauses[info.rootCause := st.rootCauses[info.rootCause] + [info]],
      if msg.Some? && msg.value != "" then st.errorMessages + [msg.value] else st.errorMessages,
      st.urlErrors[info.url := Inc(Lookup(st.urlErrors, info.url, map[]), info.rootCause)])
  }

  /** The per-line body of `analyze`. */
  function Step(st: State, lineNum: nat, line: string): (r: State)
    requires Valid(st)
    ensures Valid(r)
  {
    if !IsErrorLine(line) then st
    else
      var cause := IdentifyRootCause(line);
      File(st, ErrorInfo(lineNum, UrlOf(line), Take(Strip(line), 200), cause), ExtractErrorMessage(line))
  }

  /** `analyze` over the lines read so far; the line of index `i` is numbered `i + 1`. */
  function Run(st: State, lines: seq<string>): (r: State)
    requires Valid(st)
    ensures Valid(r)
  {
    if |lines| == 0 then st
    else Step(Run(st, lines[..|lines| - 1]), |lines|, lines[|lines| - 1])
  }

  /** Lines that are not error lines change nothing. */
  lemma NonErrorLineIgnored(st: State, lineNum: nat, line: string)
    requires Valid(st) && !IsErrorLine(line)
    ensures Step(st, lineNum, line) == st
  {
  }

  /** Filing appends the entry to its own cause's list only and adds 1 to its own URL and cause counter only. */
  lemma FileOnce(st: State, info: ErrorInfo, msg: Option<string>)
    requires Valid(st) && info.rootCause in CauseKeys
    ensures var r := File(st, info, msg);
      && r.rootCauses[info.rootCause] == st.rootCauses[info.rootCause] + [info]
      && (forall c :: c in CauseKeys && c != info.rootCause ==> r.rootCauses[c] == st.rootCauses[c])
      && Get(Lookup(r.urlErrors, info.url, map[]), info.rootCause)
         == Get(Lookup(st.urlErrors, info.url, map[]), info.rootCause) + 1
      && (forall u, c :: u != info.url || c != info.rootCause ==>
            Get(Lookup(r.urlErrors, u, map[]), c) == Get(Lookup(st.urlErrors, u, map[]), c))
  {
  }

  /**
   * An error line is appended to the list of exactly one root cause, and
   * adds exactly 1 to exactly one counter of `url_errors`.
   */
  lemma ErrorLineFiledOnce(st: State, lineNum: nat, line: string)
    requires Valid(st) && IsErrorLine(line)
    ensures var r := Step(st, lineNum, line);
      var cause := IdentifyRootCause(line);
      var url := UrlOf(line);
      && r.rootCauses[cause] == st.rootCauses[cause] + [ErrorInfo(lineNum, url, Take(Strip(line), 200), cause)]
      && (forall c :: c in CauseKeys && c != cause ==> r.rootCauses[c] == st.rootCauses[c])
      && Get(Lookup(r.urlErrors, url, map[]), cause) == Get(Lookup(st.urlErrors, url, map[]), cause) + 1
      && (forall u, c :: u != url || c != cause ==>
            Get(Lookup(r.urlErrors, u, map[]), c) == Get(Lookup(st.urlErrors, u, map[]), c))
  {
    var info := ErrorInfo(lineNum, UrlOf(line), Take(Strip(line), 200), IdentifyRootCause(line));
    FileOnce(st, info, ExtractErrorMessage(line));
  }

  /** `error_messages` grows by one exactly when a non-empty message is extracted from an error line. */
  lemma MessagesOnlyWhenFound(st: State, lineNum: nat, line: string)
    requires Valid(st)
    ensures var r := Step(st, lineNum, line);
      var msg := ExtractErrorMessage(line);
      if IsErrorLine(line) && msg.Some? && msg.value != "" then
        r.errorMessages == st.errorMessages + [msg.value] && |msg.value| <= 150
      else r.errorMessages == st.errorMessages
  {
  }

  // ---------------------------------------------------------------- totals

  ghost function EntryCount(es: seq<ErrorInfo>): nat { |es| }
  ghost function CounterSum(m: map<string, nat>): nat { MapSum(m, Count) }

  /** The number of entries over all root-cause lists. */
  ghost function CauseTotal(st: State): nat { MapSum(st.rootCauses, EntryCount) }
  /** The sum of all `url_errors` counters. */
  ghost function UrlTotal(st: State): nat { MapSum(st.urlErrors, CounterSum) }

  function ErrorLineCount(lines: seq<string>): (n: nat)
    ensures n <= |lines|
  {
    if |lines| == 0 then 0
    else ErrorLineCount(lines[..|lines| - 1]) + (if IsErrorLine(lines[|lines| - 1]) then 1 else 0)
  }

  /** Filing adds one entry to the root-cause lists and one to the `url_errors` counters. */
  lemma FileTotals(st: State, info: ErrorInfo, msg: Option<string>)
    requires Valid(st) && info.rootCause in CauseKeys
    ensures var r := File(st, info, msg);
      CauseTotal(r) == CauseTotal(st) + 1 && UrlTotal(r) == UrlTotal(st) + 1
  {
    var r := File(st, info, msg);
    var counts := Lookup(st.urlErrors, info.url, map[]);
    MapSumUpdate(st.rootCauses, EntryCount, info.rootCause, r.rootCauses[info.rootCause]);
    MapSumUpdate(st.urlErrors, CounterSum, info.url, Inc(counts, info.rootCause));
    IncSum(counts, info.rootCause);
    if info.url !in st.urlErrors {
      assert st.urlErrors - {info.url} == st.urlErrors;
      assert CounterSum(counts) == 0;
    }
  }

  /** One line adds the same amount, 1 or 0, to both totals. */
  lemma StepTotals(st: State, lineNum: nat, line: string)
    requires Valid(st)
    ensures var r := Step(st, lineNum, line);
      var d := if IsErrorLine(line) then 1 else 0;
      CauseTotal(r) == CauseTotal(st) + d && UrlTotal(r) == UrlTotal(st) + d
  {
    if IsErrorLine(line) {
      var cause := IdentifyRootCause(line);
      FileTotals(st, ErrorInfo(lineNum, UrlOf(line), Take(Strip(line), 200), cause), ExtractErrorMessage(line));
    }
  }

  /**
   * Over a whole log, the root-cause lists hold one entry per error line and
   * the `url_errors` counters add up to the same number.
   */
  lemma {:induction false} RunTotals(lines: seq<string>)
    ensures CauseTotal(Run(Init(), lines)) == ErrorLineCount(lines)
    ensures UrlTotal(Run(Init(), lines)) == ErrorLineCount(lines)
  {
    if |lines| == 0 {
      MapSumZero(Init().rootCauses, EntryCount);
    } else {
      var prefix := lines[..|lines| - 1];
      RunTotals(prefix);
      StepTotals(Run(Init(), prefix), |lines|, lines[|lines| - 1]);
    }
  }

  class RootCauseAnalyzer {
    var rootCauses: map<string, seq<ErrorInfo>>
    var errorMessages: seq<string>
    var urlErrors: map<string, map<string, nat>>

    function Snapshot(): State
      reads this
    {
      State(rootCauses, errorMessages, urlErrors)
    }

    constructor ()
      ensures Snapshot() == Init()
    {
      rootCauses := map c | c in CauseKeys :: [];
      errorMessages := [];
      urlErrors := map[];
    }

    /** Filing one error line into the three fields. */
    method FileError(info: ErrorInfo, errorMsg: Option<string>)
      requires Valid(Snapshot()) && info.rootCause in CauseKeys
      modifies this
      ensures Snapshot() == File(old(Snapshot()), info, errorMsg)
    {
      rootCauses := rootCauses[info.rootCause := rootCauses[info.rootCause] + [info]];
      var counts := if info.url in urlErrors then urlErrors[info.url] else map[];
      urlErrors := urlErrors[info.url := Inc(counts, info.rootCause)];
      if errorMsg.Some? && errorMsg.value != "" {
        errorMessages := errorMessages + [errorMsg.value];
      }
    }

    /** The body of the loop in `analyze`, for line number `lineNum`. */
    method AnalyzeLine(lineNum: nat, line: string)
      requires Valid(Snapshot())
      modifies this
      ensures Snapshot() == Step(old(Snapshot()), lineNum, line)
    {
      if !IsErrorLine(line) {
        return;
      }
      var url := UrlOf(line);
      var cause := IdentifyRootCause(line);
      var info := ErrorInfo(lineNum, url, Take(Strip(line), 200), cause);
      var errorMsg := ExtractErrorMessage(line);
      FileError(info, errorMsg);
    }

    /** `analyze`: every line of the log in order, numbered from 1. */
    method Analyze(lines: seq<string>)
      requires Valid(Snapshot())
      modifies this
      ensures Snapshot() == Run(old(Snapshot()), lines)
    {
      var i := 0;
      while i < |lines|
        invariant 0 <= i <= |lines|
        invariant Valid(Snapshot()) && Valid(old(Snapshot()))
        invariant Snapshot() == Run(old(Snapshot()), lines[..i])
      {
        AnalyzeLine(i + 1, lines[i]);
        assert lines[..i + 1][..i] == lines[..i];
        i := i + 1;
      }
      assert lines[..i] == lines;
    }
  }
}
