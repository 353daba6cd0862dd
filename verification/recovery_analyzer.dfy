/**
 * recovery_analyzer.py (`RecoveryAnalyzer`): the success test of a line, the
 * timeline with its hourly and per-minute buckets, and the quarter split of
 * the report. Timestamps and their bucket keys are inputs.
 */
module RecoveryAnalyzer {
  import opened Wrappers
  import opened Text
  import opened Tally
  import opened Urls

  // ---------------------------------------------------------------- is_success

  /** The error entries; the last two are plain text, not patterns. */
  const ErrorWords: seq<string> := ["error", "fail", "timeout", "4[0-9][0-9]", "5[0-9][0-9]"]
  const SuccessWords: seq<string> := ["success", "ok", "200", "completed"]

  /** The keyword fallback of `is_success`: error words first, then success words, else undecided. */
  function KeywordVerdict(low: string): Option<bool> {
    if ContainsAny(low, ErrorWords) then Some(false)
    else if ContainsAny(low, SuccessWords) then Some(true)
    else None
  }

  /** `is_success`: the first word-bounded three-digit number decides when it lies in 100..599. */
  function IsSuccess(line: string): Option<bool> {
    var code := FirstToken(line);
    if code.Some? && 100 <= code.value < 600 then Some(200 <= code.value < 300)
    else KeywordVerdict(Lower(line))
  }

  /** The leftmost number decides when it is a status code: success exactly for 2xx. */
  lemma FirstNumberDecides(line: string, i: nat)
    requires TokenAt(line, i) && forall j :: 0 <= j < i ==> !TokenAt(line, j)
    requires 100 <= TokenValue(line, i) < 600
    ensures IsSuccess(line) == Some(200 <= TokenValue(line, i) < 300)
  {
    FirstTokenAt(line, i);
  }

  /**
   * When the leftmost number is not a status code, later numbers are never
   * consulted, even valid status codes: only the keywords decide.
   */
  lemma LaterNumbersIgnored(line: string, i: nat)
    requires TokenAt(line, i) && forall j :: 0 <= j < i ==> !TokenAt(line, j)
    requires !(100 <= TokenValue(line, i) < 600)
    ensures IsSuccess(line) == KeywordVerdict(Lower(line))
  {
    FirstTokenAt(line, i);
  }

  lemma LowerKeepsBracket(s: string)
    ensures '[' in Lower(s) <==> '[' in s
  {
    var low := Lower(s);
    if '[' in low {
      var k :| 0 <= k < |low| && low[k] == '[';
      assert low[k] == LowerChar(s[k]);
      assert s[k] == '[';
    }
    if '[' in s {
      var k :| 0 <= k < |s| && s[k] == '[';
      assert low[k] == '[';
    }
  }

  /** A line without `[` can only hit the error words through `error`, `fail` and `timeout`. */
  lemma BracketEntriesAreLiteral(line: string)
    requires '[' !in line
    ensures ContainsAny(Lower(line), ErrorWords) <==> ContainsAny(Lower(line), ErrorWords[..3])
  {
    var low := Lower(line);
    LowerKeepsBracket(line);
    forall k, i | 3 <= k < 5 && 0 <= i <= |low| ensures !MatchesAt(low, ErrorWords[k], i) {
      if i + 11 <= |low| {
        assert low[i..i + 11][1] == low[i + 1] != '[';
      }
    }
    if ContainsAny(low, ErrorWords) {
      var k :| 0 <= k < 5 && Contains(low, ErrorWords[k]);
      assert ErrorWords[..3][k] == ErrorWords[k];
    }
    if ContainsAny(low, ErrorWords[..3]) {
      var k :| 0 <= k < 3 && Contains(low, ErrorWords[..3][k]);
      assert ErrorWords[k] == ErrorWords[..3][k];
    }
  }

  // ---------------------------------------------------------------- the timeline

  /** One bucket of `hourly_stats` or `minute_stats`. */
  datatype Bucket = Bucket(success: nat, error: nat)

  /** A timestamp as `extract_timestamp` parses it, with the hour and minute keys `strftime` makes of it. */
  datatype Reading = Reading(time: int, hourKey: string, minuteKey: string)

  /** A log line together with what `extract_timestamp` returns for it. */
  datatype LogLine = LogLine(text: string, reading: Option<Reading>)

  datatype State = State(
    timeline: seq<(int, bool)>,
    hourly: map<string, Bucket>,
    minute: map<string, Bucket>,
    first: Option<int>,
    last: Option<int>)

  const Init: State := State([], map[], map[], None, None)

  /** `stats[key]['success' or 'error'] += 1` on a defaultdict of empty buckets. */
  function Bump(m: map<string, Bucket>, key: string, ok: bool): (r: map<string, Bucket>)
    ensures r.Keys == m.Keys + {key}
    ensures forall k :: k != key && k in m ==> r[k] == m[k]
  {
    var b := Lookup(m, key, Bucket(0, 0));
    m[key := if ok then b.(success := b.success + 1) else b.(error := b.error + 1)]
  }

  /** `re.search(url_pattern, line)` succeeds. */
  predicate HasUrl(line: string) {
    |FindUrls(line, false)| > 0
  }

  /** One line of `analyze`, given whether it has a URL and what `is_success` says of it. */
  function Record(st: State, reading: Option<Reading>, hasUrl: bool, verdict: Option<bool>): State {
    if !hasUrl || reading.None? then st
    else
      var t := reading.value;
      var stamped := st.(first := if st.first.None? then Some(t.time) else st.first, last := Some(t.time));
      match verdict
      case None => stamped
      case Some(ok) =>
        stamped.(timeline := stamped.timeline + [(t.time, ok)],
                 hourly := Bump(stamped.hourly, t.hourKey, ok),
                 minute := Bump(stamped.minute, t.minuteKey, ok))
  }

  /** One line of `analyze`. */
  function Step(st: State, l: LogLine): State {
    Record(st, l.reading, HasUrl(l.text), IsSuccess(l.text))
  }

  function Run(st: State, lines: seq<LogLine>): State {
    if |lines| == 0 then st else Step(Run(st, lines[..|lines| - 1]), lines[|lines| - 1])
  }

  // ---------------------------------------------------------------- bucket sums

  function Total(b: Bucket): nat { b.success + b.error }

  function Successes(b: Bucket): nat { b.success }

  /** The number of successful entries of a timeline. */
  function SuccessCount(t: seq<(int, bool)>): (n: nat)
    ensures n <= |t|
  {
    if |t| == 0 then 0 else SuccessCount(t[..|t| - 1]) + (if t[|t| - 1].1 then 1 else 0)
  }

  /** A bump adds one entry to the buckets, and one success exactly for a success. */
  lemma BumpSums(m: map<string, Bucket>, key: string, ok: bool)
    ensures MapSum(Bump(m, key, ok), Total) == MapSum(m, Total) + 1
    ensures MapSum(Bump(m, key, ok), Successes) == MapSum(m, Successes) + (if ok then 1 else 0)
  {
    var b := Lookup(m, key, Bucket(0, 0));
    var nb := if ok then b.(success := b.success + 1) else b.(error := b.error + 1);
    assert Bump(m, key, ok) == m[key := nb];
    BumpSum(m, key, nb, Total);
    BumpSum(m, key, nb, Successes);
  }

  /** Putting `nb` in place of the bucket the `defaultdict` hands out for `key`. */
  lemma BumpSum(m: map<string, Bucket>, key: string, nb: Bucket, f: Bucket -> nat)
    ensures MapSum(m[key := nb], f) == MapSum(m, f) - f(Lookup(m, key, Bucket(0, 0))) + f(nb)
      + (if key in m then 0 else f(Bucket(0, 0)))
  {
    MapSumUpdate(m, f, key, nb);
    if key !in m {
      assert m - {key} == m;
    }
  }

  /**
   * The bucket invariant: hour buckets and minute buckets each hold exactly
   * one entry per timeline entry, and the successes among them; a timeline
   * entry is only made once a first and a last timestamp are set.
   */
  ghost predicate Valid(st: State) {
    && MapSum(st.hourly, Total) == |st.timeline|
    && MapSum(st.minute, Total) == |st.timeline|
    && MapSum(st.hourly, Successes) == SuccessCount(st.timeline)
    && MapSum(st.minute, Successes) == SuccessCount(st.timeline)
    && (st.first.None? <==> st.last.None?)
    && (|st.timeline| > 0 ==> st.first.Some?)
  }

  lemma InitValid()
    ensures Valid(Init)
  {
    assert MapSum(Init.hourly, Total) == 0;
    assert MapSum(Init.hourly, Successes) == 0;
  }

  lemma RecordKeepsValid(st: State, reading: Option<Reading>, hasUrl: bool, verdict: Option<bool>)
    requires Valid(st)
    ensures Valid(Record(st, reading, hasUrl, verdict))
  {
    if hasUrl && reading.Some? && verdict.Some? {
      var t := reading.value;
      BumpSums(st.hourly, t.hourKey, verdict.value);
      BumpSums(st.minute, t.minuteKey, verdict.value);
      var timeline := st.timeline + [(t.time, verdict.value)];
      assert timeline[..|timeline| - 1] == st.timeline;
    }
  }

  lemma StepKeepsValid(st: State, l: LogLine)
    requires Valid(st)
    ensures Valid(Step(st, l))
  {
    RecordKeepsValid(st, l.reading, HasUrl(l.text), IsSuccess(l.text));
  }

  lemma {:induction false} RunKeepsValid(lines: seq<LogLine>)
    ensures Valid(Run(Init, lines))
  {
    if |lines| == 0 {
      InitValid();
    } else {
      RunKeepsValid(lines[..|lines| - 1]);
      StepKeepsValid(Run(Init, lines[..|lines| - 1]), lines[|lines| - 1]);
    }
  }

  /** A line without a URL or without a timestamp changes nothing. */
  lemma SkippedLinesChangeNothing(st: State, l: LogLine)
    requires !HasUrl(l.text) || l.reading.None?
    ensures Step(st, l) == st
  {
  }

  /**
   * On a timestamped URL line the first timestamp is set only if unset, the
   * last is always the line's, and the timeline grows by the line's verdict
   * exactly when `is_success` decides.
   */
  lemma TimestampsTracked(st: State, l: LogLine)
    requires HasUrl(l.text) && l.reading.Some?
    ensures var r := Step(st, l);
      && r.first == (if st.first.Some? then st.first else Some(l.reading.value.time))
      && r.last == Some(l.reading.value.time)
      && (IsSuccess(l.text).None? ==> r.timeline == st.timeline && r.hourly == st.hourly && r.minute == st.minute)
      && (IsSuccess(l.text).Some? ==> r.timeline == st.timeline + [(l.reading.value.time, IsSuccess(l.text).value)])
  {
  }

  /** Over a log, the first timestamp once set never changes. */
  lemma {:induction false} FirstTimestampSetOnce(st: State, lines: seq<LogLine>)
    requires st.first.Some?
    ensures Run(st, lines).first == st.first
  {
    if |lines| > 0 {
      FirstTimestampSetOnce(st, lines[..|lines| - 1]);
    }
  }

  // ---------------------------------------------------------------- quarters

  /** The four quarters of the report; none when the timeline has fewer than four entries. */
  function Quarters<T>(t: seq<T>): (r: seq<seq<T>>)
    ensures |t| / 4 == 0 <==> r == []
  {
    var q := |t| / 4;
    if q > 0 then [t[..q], t[q..q * 2], t[q * 2..q * 3], t[q * 3..]] else []
  }

  /** The quarters cover the timeline in order: three of `len // 4` entries, the rest in the last. */
  lemma QuartersCover<T>(t: seq<T>)
    requires |t| / 4 > 0
    ensures var r := Quarters(t);
      && |r| == 4
      && r[0] + r[1] + r[2] + r[3] == t
      && |r[0]| == |r[1]| == |r[2]| == |t| / 4
      && |r[3]| == |t| - 3 * (|t| / 4)
      && |t| / 4 <= |r[3]| < |t| / 4 + 4
  {
    var q := |t| / 4;
    assert t[..q] + t[q..q * 2] + t[q * 2..q * 3] + t[q * 3..] == t;
  }

  lemma {:induction false} SuccessCountAppend(a: seq<(int, bool)>, b: seq<(int, bool)>)
    ensures SuccessCount(a + b) == SuccessCount(a) + SuccessCount(b)
    decreases |b|
  {
    if |b| > 0 {
      SuccessCountAppend(a, b[..|b| - 1]);
      assert (a + b)[..|a + b| - 1] == a + b[..|b| - 1];
    } else {
      assert a + b == a;
    }
  }

  /** The quarters' successes add up to the timeline's. */
  lemma QuarterSuccesses(t: seq<(int, bool)>)
    requires |t| / 4 > 0
    ensures var r := Quarters(t);
      SuccessCount(r[0]) + SuccessCount(r[1]) + SuccessCount(r[2]) + SuccessCount(r[3]) == SuccessCount(t)
  {
    var r := Quarters(t);
    QuartersCover(t);
    SuccessCountAppend(r[0], r[1]);
    SuccessCountAppend(r[0] + r[1], r[2]);
    SuccessCountAppend(r[0] + r[1] + r[2], r[3]);
  }

  // ---------------------------------------------------------------- the analyzer

  class RecoveryAnalyzer {
    var timeline: seq<(int, bool)>
    var hourlyStats: map<string, Bucket>
    var minuteStats: map<string, Bucket>
    var firstTimestamp: Option<int>
    var lastTimestamp: Option<int>

    function Snapshot(): State
      reads this
    {
      State(timeline, hourlyStats, minuteStats, firstTimestamp, lastTimestamp)
    }

    constructor ()
      ensures Snapshot() == Init
    {
      timeline := [];
      hourlyStats := map[];
      minuteStats := map[];
      firstTimestamp := None;
      lastTimestamp := None;
    }

    /** One iteration of the loop in `analyze`; `reading` is what `extract_timestamp` returns for `line`. */
    method AnalyzeLine(line: string, reading: Option<Reading>)
      modifies this
      ensures Snapshot() == Step(old(Snapshot()), LogLine(line, reading))
    {
      if |FindUrls(line, false)| == 0 {
        return;
      }
      if reading.None? {
        return;
      }
      var timestamp := reading.value;
      if firstTimestamp.None? {
        firstTimestamp := Some(timestamp.time);
      }
      lastTimestamp := Some(timestamp.time);
      var isSuccess := IsSuccess(line);
      if isSuccess.None? {
        return;
      }
      timeline := timeline + [(timestamp.time, isSuccess.value)];
      hourlyStats := Bump(hourlyStats, timestamp.hourKey, isSuccess.value);
      minuteStats := Bump(minuteStats, timestamp.minuteKey, isSuccess.value);
    }

    /** `analyze`: every line of the log in order. */
    method Analyze(lines: seq<LogLine>)
      modifies this
      ensures Snapshot() == Run(old(Snapshot()), lines)
    {
      for i := 0 to |lines|
        invariant Snapshot() == Run(old(Snapshot()), lines[..i])
      {
        AnalyzeLine(lines[i].text, lines[i].reading);
        assert lines[..i + 1][..i] == lines[..i];
      }
      assert lines[..|lines|] == lines;
    }
  }
}
