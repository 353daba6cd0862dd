# V2X dispatch and log classifiers, modelled in Dafny

This project models two parts of a small Car2X / V2X demonstration system.

**The MQTT side.** The dashboard (`Car2XDashboard` in app.py) and the simulator (`V2XSimulator` in v2x_simulator.py) each receive MQTT messages and route them by topic:

- A topic is split on `/` and routed by its second and fourth segments.
- A topic with a missing segment, or a payload that does not decode, is absorbed by a catch-all and changes nothing.
- Vehicle and infrastructure stores are last-write-wins.
- Emergencies are an append-only list; callers see its last ten entries.
- Jobs are created `pending`. A response is appended to a job only when its id is known.
- The simulator builds CAM, DENM, V2I and acknowledgement records, and publishes them on formatted topics.

**The offline log utilities.** These read a log file line by line and classify each line:

- `RootCauseAnalyzer` files error lines under one of ten root causes.
- `SecureLogAnalyzer` keeps per-URL status counters.
- `CleanLogViewer` keeps per-URL success and error counters.
- `URLExtractor` counts successful and erroneous URLs.
- `check_url_status` builds two URL sets.
- `RecoveryAnalyzer` builds a success timeline with hourly and per-minute buckets.

**How the model is built.**

- Every class whose methods update fields in place is a Dafny `class`. It holds the fields its methods update, plus an `outbox` that stands for the MQTT client's publishes; the fields no modelled method reads or writes are listed under "Left out". Its methods are proved against a pure transition function: `Snapshot() == Step(old(Snapshot()), ...)`. The properties are lemmas about that function.
- The regular expressions are hand-written predicates over characters:
  - `\b` and `\b\d{3}\b` live in `Text`;
  - `https?://[^\s'"<>]+` lives in `Urls`;
  - the leftmost, non-overlapping scan of `re.findall` lives in `Scan`. It works over a table that gives the length of the greedy match at each position, so `Urls` only supplies that table;
  - `re.sub(t + '.*$', ...)` lives in `Rewrite`;
  - the logcat header pattern lives in `ExtractUrls`.
- A log file is a `seq<string>` of lines.
- Decoded JSON is a `Json` datatype. An undecodable payload is `None`.
- Publishing is an append to an `outbox` sequence.
- `random`, `uuid.uuid4()` and `datetime.now()` are parameters:
  - `pick` numbers stand for random draws;
  - a `uuid` string stands for the generated id;
  - `now` and `clock` stand for clock readings.

The model keeps these behaviours of the code as written:

- A job's status never leaves `pending`. No response moves it to `active`.
- The emergency list is unbounded. Only the views slice its last ten entries.
- Job ids are the first 8 characters of a uuid, with no collision check. A collision overwrites the earlier job.
- The first topic segment is never checked.
- The dashboard takes every `jobs` topic for a response, including an assignment.
- The payload is decoded before the topic is routed.

## Model

| member | source | states |
|---|---|---|
| Topics.DashboardRoute | app.py:57-90 | definition: segment 1 picks the store, segment 2 is the id, segment 3 is read only for `vehicles`, and a missing segment is `Malformed`; pinned by the `*TopicRoundTrip`, `DashboardTakesAssignForResponse`, `EmergencyTopicRoutes`, `MissingSegmentIsMalformed`, `SingleSegmentIsMalformed` and `DomainIgnored` lemmas |
| Topics.SimulatorRoute | v2x_simulator.py:40-57 | definition: `vehicles` and `jobs` topics are routed on segments 2 and 3, everything else is unrouted, and a missing segment is `Malformed`; pinned by the same lemmas |
| Topics.StatusTopicRoundTrip | v2x_simulator.py:40-45 | a status topic formatted for an id without `/` routes, in both handlers, to the status branch with the same id |
| Topics.AssignTopicRoundTrip | v2x_simulator.py:51-53 | an assignment topic routes to the simulator's assignment branch with the same job id |
| Topics.ResponseTopicRoundTrip | v2x_simulator.py:55-57 | a response topic routes to the response branch of both handlers with the same job id |
| Topics.DashboardTakesAssignForResponse | app.py:85-90 | the dashboard never reads segment 3 of a jobs topic, so an assignment topic is taken for a response |
| Topics.InfrastructureTopicRoundTrip | app.py:74-77 | an infrastructure topic formatted by the simulator routes to the dashboard's infrastructure store |
| Topics.EmergencyTopicRoutes | app.py:80-82 | the broadcast topic reaches the dashboard's emergency list, and the simulator routes it nowhere |
| Topics.MissingSegmentIsMalformed | app.py:60 | a vehicle topic without a fourth segment raises `IndexError` in both handlers |
| Topics.SingleSegmentIsMalformed | v2x_simulator.py:43 | a topic without `/` raises on `topic_parts[1]` in both handlers |
| Topics.DomainIgnored | app.py:57-85 | replacing the first segment never changes the route, in either handler |
| Messages.RandInt | v2x_simulator.py:192-193 | `random.randint(a, b)` lies in `a..b` |
| Messages.RandIntCovers | v2x_simulator.py:153 | every value of the range is drawn by some pick |
| Messages.Choice | v2x_simulator.py:191 | `random.choice` returns an element of the list |
| Messages.ShortId | v2x_simulator.py:176 | definition: `str(uuid.uuid4())[:8]`; pinned by `ShortIdShape` |
| Messages.ShortIdShape | v2x_simulator.py:176 | a short id is 8 characters long and holds no `/`, so it formats into a well-formed topic |
| Messages.CamJson | v2x_simulator.py:202-210 | definition of the CAM dict; pinned by `CamRoundTrip` and `Dashboard.CamDelivered` |
| Messages.CamRoundTrip | v2x_simulator.py:200-210 | a CAM is tagged `CAM` and carries the vehicle's id, timestamp, position, speed, heading and status unchanged |
| Messages.NewDenm | v2x_simulator.py:176-194 | a DENM has severity in {low, medium, high}, duration in 300..1800, radius in 100..1000, and the short id and given type |
| Messages.DenmJson | v2x_simulator.py:185-194 | definition of the DENM dict; pinned by `DenmDecodes`, `DenmRoundTrip` and `Dashboard.DenmDelivered` |
| Messages.DenmDecodes | v2x_simulator.py:185-194 | a DENM's JSON decodes back to the same event |
| Messages.DenmRoundTrip | v2x_simulator.py:185-197 | a broadcast DENM is tagged `DENM`, decodes back, and its severity, duration and radius are in range |
| Messages.StepLight | v2x_simulator.py:139-143 | a light keeps its id and position, and a valid state stays valid |
| Messages.LightsStayValid | v2x_simulator.py:132-143 | the three lights start in {red, yellow, green}, and every state change keeps them there |
| Messages.NewV2i | v2x_simulator.py:146-155 | a V2I message carries the light's id and state, with a remaining time in 5..30 |
| Messages.V2iJson | v2x_simulator.py:146-155 | definition of the V2I dict; pinned by `V2iRoundTrip` |
| Messages.V2iRoundTrip | v2x_simulator.py:146-157 | a V2I message for a valid light is tagged `V2I`, decodes back, and has a light state in {red, yellow, green} and a countdown in 5..30 |
| Messages.NewJob | app.py:114-121 | definition of a fresh job record; pinned by `NewJobShape` |
| Messages.JobJson | app.py:126 | definition of the published job dict; pinned by `NewJobShape` (status `pending`, no `responses` key) and `AckFollowsTargets` |
| Messages.NewJobShape | app.py:112-121 | a fresh job is `pending` with no responses, keeps its type and targets, and defaults falsy parameters to `{}` |
| Messages.RecordResponse | app.py:88-90 | definition of the guarded append shared by both handlers; pinned by `RecordKnownJob`, `RecordUnknownJob`, `RecordKeepsStatus` and `RecordAllAppends` |
| Messages.RecordKnownJob | v2x_simulator.py:261-265 | a response for a known job is appended at the end; every other field and every other job is unchanged |
| Messages.RecordUnknownJob | app.py:88 | a response for an unknown job id changes nothing |
| Messages.RecordKeepsStatus | app.py:88-90 | no response changes the set of jobs or any job's status |
| Messages.RecordAllAppends | v2x_simulator.py:261-265 | responses accumulate in arrival order with duplicates kept, and the status stays as created |
| Messages.StrList | v2x_simulator.py:222 | the target list is sent as a JSON list of the same strings, in order |
| Messages.AckTargets | v2x_simulator.py:247 | definition of `job_data.get('target_vehicles', [])` as iterated; pinned by `AckPublishes` and `AckFollowsTargets` |
| Messages.AckResponse | v2x_simulator.py:248-254 | definition of the acknowledgement dict; pinned by `AckPublishes` |
| Messages.AckPublishes | v2x_simulator.py:245-256 | there is one acknowledgement per target, in target order; each is on the job's response topic and carries the job id, that target and `acknowledged` |
| Messages.AckFollowsTargets | v2x_simulator.py:222-245 | an assignment for a job created with a list of vehicle ids is acknowledged for exactly those ids, in order |
| Dashboard.Recent | app.py:151 | definition of `emergencies[-10:]`; pinned by `RecentIsLastTen` and `RecentAfterAppend` |
| Dashboard.RecentIsLastTen | app.py:151 | the emergencies view holds the last min(10, n) entries, oldest first |
| Dashboard.RecentAfterAppend | app.py:186 | a new emergency is shown last; once ten are shown, the oldest one drops out of the view |
| Dashboard.OnMessage | app.py:55-97 | definition of the dashboard handler as a transition on its four stores; pinned by the `Dashboard` lemmas below |
| Dashboard.StatusSetsVehicle | app.py:60-63 | a status message sets that vehicle to the payload; every other vehicle and every other store is unchanged |
| Dashboard.StatusLastWriteWins | app.py:63 | of two status messages for one vehicle, the second payload stays |
| Dashboard.StatusUpdatesCommute | app.py:63 | status messages for different vehicles commute |
| Dashboard.InfrastructureLastWriteWins | app.py:74-77 | an infrastructure message sets that element (last write wins); nothing else changes |
| Dashboard.EmergencyAppends | app.py:80-82 | an `emergency` message appends exactly one entry at the end, leaves earlier entries untouched, and is shown last in the view |
| Dashboard.JobResponseRecorded | app.py:85-90 | a response for a known job is appended to its responses; for an unknown id nothing changes |
| Dashboard.DroppedMessagesChangeNothing | app.py:56-97 | undecodable payloads, malformed or unrouted topics and vehicle emergencies change no store |
| Dashboard.MissingSegmentDropped | app.py:60 | `v2x/vehicles/status` changes nothing |
| Dashboard.MessagesKeepJobStatus | app.py:55-97 | no message changes the set of jobs or moves a job out of its status |
| Dashboard.CamDelivered | v2x_simulator.py:200-212 | a CAM published by the simulator is stored by the dashboard under its vehicle id and decodes back to the vehicle |
| Dashboard.BroadcastShownLast | app.py:80-82 | a broadcast is appended and shown last in the emergency view |
| Dashboard.DenmDelivered | v2x_simulator.py:185-197 | a DENM broadcast by the simulator is last in the dashboard's emergency view and decodes back to the event |
| Dashboard.Car2XDashboard.constructor | app.py:33-38 | all four stores start empty |
| Dashboard.Car2XDashboard.OnMqttMessage | app.py:55-97 | the new stores are `OnMessage` of the old ones, and nothing is published |
| Dashboard.Car2XDashboard.CreateJob | app.py:109-128 | the short id is returned, the pending record is stored under it (overwriting on collision), and the assignment is published once |
| Dashboard.Car2XDashboard.GetEmergencies | app.py:149-151 | returns the last min(10, n) emergencies |
| Simulator.OnMessage | v2x_simulator.py:38-60 | definition of the simulator handler as a transition on vehicles, jobs and outbox; pinned by the `Simulator` lemmas below |
| Simulator.StatusSetsVehicle | v2x_simulator.py:43-45 | a status message sets that vehicle to the payload unconditionally; jobs and the outbox are unchanged |
| Simulator.ResponseRecorded | v2x_simulator.py:55-57 | a response for a known job is appended in arrival order; an unknown id changes nothing |
| Simulator.OwnAssignmentAcknowledged | v2x_simulator.py:230-256 | the simulator's own assignment for a list of targets yields one acknowledgement per target, in order, on the job's response topic |
| Simulator.DroppedMessagesChangeNothing | v2x_simulator.py:38-60 | undecodable payloads, malformed or unrouted topics and vehicle emergencies change nothing |
| Simulator.MessagesKeepJobStatus | v2x_simulator.py:38-60 | no message changes the set of jobs or any job's status |
| Simulator.V2XSimulator.constructor | v2x_simulator.py:17-24 | the vehicles, the jobs and the outbox start empty |
| Simulator.V2XSimulator.OnMqttMessage | v2x_simulator.py:38-60 | the new state is `OnMessage` of the old one |
| Simulator.V2XSimulator.HandleJobResponse | v2x_simulator.py:261-266 | appends only when the job is known; nothing else changes |
| Simulator.V2XSimulator.HandleJobAssignment | v2x_simulator.py:240-256 | publishes exactly `AckPublishes`, in order, after what was already published |
| Simulator.V2XSimulator.CreateJob | v2x_simulator.py:214-234 | stores the pending record and publishes the identical assignment once per target (none for no targets) |
| Simulator.V2XSimulator.PublishCamMessage | v2x_simulator.py:200-212 | publishes the vehicle's CAM on its status topic |
| Simulator.V2XSimulator.CreateEmergencyEvent | v2x_simulator.py:174-197 | publishes the DENM built from the draws on the broadcast topic |
| Simulator.V2XSimulator.PublishInfrastructure | v2x_simulator.py:139-157 | steps the light and publishes its V2I message on its infrastructure topic |
| Text.Lower | root_cause_analyzer.py:88 | `str.lower()` keeps the length; pinned by `LowerHidesUpper`, `RootCause.RootCauseIgnoresCase`, `RootCause.ErrorLineIgnoresCase` and `RecoveryAnalyzer.LowerKeepsBracket` |
| Text.HasTokenIn | extract_urls.py:43 | definition of a word-bounded three-digit token in a range; pinned by `FirstCodeIn` (a code in range is found exactly when such a token exists) |
| Text.Split | app.py:57 | `str.split` returns at least one part; pinned by `SplitJoin` |
| Text.FirstToken | recovery_analyzer.py:81 | the first `\b\d{3}\b` token is found exactly when one exists |
| Text.FirstTokenAt | recovery_analyzer.py:81-82 | the token at the leftmost token position is the one reported |
| Text.FirstCodeIn | log_analyzer.py:77-85 | the code found is in range, and one is found exactly when a word-bounded token in range exists |
| Text.FirstCodeAt | log_analyzer.py:80-85 | the loop stops at the first word-bounded token whose value is in range, and that token's value is the code |
| Text.RStrip | log_analyzer.py:73 | `rstrip` returns a prefix that ends outside the strip set and removes only strip-set characters |
| Text.Strip | root_cause_analyzer.py:66 | `strip` returns a piece of the line, no longer than it, that neither starts nor ends with white space |
| Text.StripOnlySpace | root_cause_analyzer.py:66 | what `strip` removes before and after the piece it keeps is white space and nothing else |
| Text.LStrip | extract_urls.py:26 | `lstrip('@')` removes a prefix made only of `@` and returns a suffix that does not start with `@` |
| Text.Take | root_cause_analyzer.py:66 | `s[:n]` is a prefix of length min(n, len(s)) |
| Text.LowerHidesUpper | manual_url_checker.py:79 | a pattern containing an upper-case letter never occurs in a lower-cased line |
| Text.SplitJoin | app.py:57 | splitting a `/`-joined list of `/`-free segments gives back the segments |
| Urls.FindUrls | log_analyzer.py:51-66 | every match has the URL shape and occurs in the line, and there is no match exactly when the pattern matches nowhere |
| Scan.Starts | log_analyzer.py:64 | the starts the leftmost scan of `re.findall` reports lie in the string and each is the start of a match |
| Scan.StartsOrdered | log_analyzer.py:64 | each reported match ends at or before the start of every later one |
| Scan.StartsFirst | log_analyzer.py:64 | no match starts before the first reported start, and none anywhere when nothing is reported |
| Scan.StartsLeftmost | log_analyzer.py:64 | no match starts between the end of a reported match and the next reported start, or after the last match |
| Scan.TextsEmpty | log_analyzer.py:64-66 | the scan reports nothing exactly when no match starts anywhere |
| Scan.TextsLength | log_analyzer.py:64 | the scan reports one text per start |
| Scan.TextAt | log_analyzer.py:64 | the `k`-th reported text is the whole match at the `k`-th reported start |
| Urls.MatchLens | log_analyzer.py:51 | the table of greedy match lengths of the URL pattern, one per position, each match ending inside the line |
| Urls.MatchStarts | log_analyzer.py:64 | the starts of the URL matches `re.findall` reports lie in the line and each is the start of a match |
| Urls.MatchStartsOrdered | log_analyzer.py:64 | each reported URL match ends at or before the start of every later one, so the starts increase |
| Urls.MatchStartsFirst | log_analyzer.py:64 | no match starts before the first reported one, and none starts anywhere when nothing is reported |
| Urls.MatchStartsLeftmost | log_analyzer.py:64 | no match starts between the end of one reported match and the start of the next, or after the last one ends |
| Urls.FindUrlsCount | log_analyzer.py:64 | `re.findall` reports one URL per reported start |
| Urls.FindUrlsAtStarts | log_analyzer.py:64 | the `k`-th reported URL is the greedy match text at the `k`-th reported start |
| Urls.UrlAt | log_analyzer.py:51 | the greedy match at a position has the URL shape and occurs in the line |
| Urls.TextsNoMatch | log_analyzer.py:64-66 | the scan over the URL match table reports nothing exactly when the pattern matches nowhere |
| Urls.FindUrlsFirst | root_cause_analyzer.py:56-57 | when the leftmost match starts at `i`, `url_matches[0]` is the greedy match text at `i` |
| Urls.MatchShape | extract_urls.py:77-78 | a greedy match starts with `http://` or `https://`, holds at least one more character and no excluded character |
| Rewrite.SubToEnd | clean_log_viewer.py:32-33 | `re.sub(t + '.*$', repl, u)`: with no occurrence of `t` the string is unchanged; pinned by `SubToEndPrefix`, `SubToEndRemovesBracket` and `SubToEndAbsent` |
| Rewrite.SubToEndPrefix | clean_log_viewer.py:32-33 | without line feeds, a `t.*$` rewrite whose replacement is a prefix of `t` only cuts off a suffix |
| Rewrite.SubToEndRemovesBracket | clean_log_viewer.py:33 | without line feeds, cutting at `[` leaves no `[` |
| Rewrite.SubToEndAbsent | extract_urls.py:35-36 | with no occurrence of the pattern's last character, the rewrite changes nothing |
| Rewrite.Replace | extract_urls.py:32 | `replace` with a shorter replacement never lengthens, and introduces only the replacement's characters |
| RootCause.FirstRule | root_cause_analyzer.py:91-140 | the index returned is the first rule, in order, with a keyword in the line |
| RootCause.IdentifyRootCause | root_cause_analyzer.py:91-140 | the cause is one of the ten keys; it is `unknown` exactly when no rule matches, and otherwise the first matching rule in the fixed order |
| RootCause.RootCauseIgnoresCase | root_cause_analyzer.py:93 | a line and its lower-cased copy get the same cause |
| RootCause.IsErrorLine | root_cause_analyzer.py:80-89 | definition of `_is_error_line`; pinned by `StatusCodeLineIsErrorLine`, `ErrorLineIgnoresCase` and `NonErrorLineIgnored` |
| RootCause.StatusCodeLineIsErrorLine | root_cause_analyzer.py:80-89 | every line with a word-bounded 4xx or 5xx code is an error line |
| RootCause.ErrorLineIgnoresCase | root_cause_analyzer.py:88 | a line and its lower-cased copy are error lines alike |
| RootCause.GroupOffset | root_cause_analyzer.py:146-148 | the backtracking of `[:\s]+` picks the largest separator run after which the group can start |
| RootCause.GroupAt | root_cause_analyzer.py:146-148 | group 1 of a match is a non-empty span after the keyword |
| RootCause.FirstMatch | root_cause_analyzer.py:153 | `re.search` finds the leftmost matching position, and none exactly when no position matches |
| RootCause.Message | root_cause_analyzer.py:155 | `group(1).strip()[:150]` is a piece of the group of at most 150 characters |
| RootCause.ExtractFrom | root_cause_analyzer.py:152-157 | the message is a piece of the line of at most 150 characters, and is `None` exactly when none of the remaining patterns matches anywhere |
| RootCause.ExtractFromFirst | root_cause_analyzer.py:152-157 | when no earlier pattern matches anywhere and pattern `j` first matches at `p`, the message is that match's group 1, stripped and cut to 150 characters |
| RootCause.ExtractErrorMessage | root_cause_analyzer.py:142-157 | the message is a piece of the line of at most 150 characters, and is `None` exactly when no pattern matches anywhere |
| RootCause.ExtractErrorMessageFirst | root_cause_analyzer.py:142-157 | the message comes from the first pattern in list order that matches, at its leftmost match, as group 1 stripped and cut to 150 characters |
| RootCause.Init | root_cause_analyzer.py:23-38 | `root_causes` starts with exactly its ten keys |
| RootCause.UrlHead | root_cause_analyzer.py:56 | a URL match starts with `http` and its scheme's `/` at index 6 |
| RootCause.StrippedUrl | root_cause_analyzer.py:57 | a match with trailing punctuation removed still starts with `http` and lies inside the match |
| RootCause.UrlOf | root_cause_analyzer.py:56-57 | the stored URL is `Unknown URL` or a piece of the line starting with `http` |
| RootCause.UrlOfUnknown | root_cause_analyzer.py:56-57 | `Unknown URL` is stored exactly when the line has no URL match |
| RootCause.UrlOfFirstMatch | root_cause_analyzer.py:56-57 | when the leftmost match starts at `i`, the stored URL is that match with `.,;:)'"` stripped from its end |
| RootCause.File | root_cause_analyzer.py:63-76 | filing keeps `root_causes` at its ten keys |
| RootCause.Step | root_cause_analyzer.py:47-76 | one line keeps `root_causes` at its ten keys, so the append never fails |
| RootCause.Run | root_cause_analyzer.py:47-76 | a whole log keeps `root_causes` at its ten keys |
| RootCause.NonErrorLineIgnored | root_cause_analyzer.py:52-53 | a line that is not an error line changes nothing |
| RootCause.FileOnce | root_cause_analyzer.py:63-71 | filing appends the entry to its own cause's list and to no other, and adds 1 to its own URL and cause counter and to no other |
| RootCause.ErrorLineFiledOnce | root_cause_analyzer.py:56-71 | an error line is appended to exactly one cause's list, and adds exactly 1 to exactly one `url_errors` counter |
| RootCause.MessagesOnlyWhenFound | root_cause_analyzer.py:74-76 | `error_messages` grows by one exactly when a non-empty message is extracted from an error line |
| RootCause.ErrorLineCount | root_cause_analyzer.py:52 | a log has at most as many error lines as lines |
| RootCause.FileTotals | root_cause_analyzer.py:70-71 | filing adds one entry to the root-cause lists and one to the `url_errors` counters |
| RootCause.StepTotals | root_cause_analyzer.py:52-71 | a line adds the same amount (1 or 0) to both totals |
| RootCause.RunTotals | root_cause_analyzer.py:47-76 | over a log, the root-cause lists hold one entry per error line, and the `url_errors` counters sum to the same number |
| RootCause.RootCauseAnalyzer.constructor | root_cause_analyzer.py:23-38 | the analyzer starts at `Init` |
| RootCause.RootCauseAnalyzer.FileError | root_cause_analyzer.py:63-76 | the fields become `File` of the old ones |
| RootCause.RootCauseAnalyzer.AnalyzeLine | root_cause_analyzer.py:50-76 | the fields become `Step` of the old ones |
| RootCause.RootCauseAnalyzer.Analyze | root_cause_analyzer.py:47-76 | the fields become `Run` of the old ones over the numbered lines |
| LogAnalyzer.StatusCode | log_analyzer.py:77-85 | the status code lies in 100..599, and is absent exactly when no word-bounded 3-digit token has such a value |
| LogAnalyzer.StatusCodeIsFirst | log_analyzer.py:77-85 | the status code is the value of the first word-bounded 3-digit token in 100..599, whatever tokens follow |
| LogAnalyzer.CountCode | log_analyzer.py:74-94 | an occurrence adds one to `total_count` and changes no timeout, unknown or message |
| LogAnalyzer.CountErrorKeywords | log_analyzer.py:96-108 | the keyword step changes neither the totals nor the code categories |
| LogAnalyzer.CountFallback | log_analyzer.py:110-114 | the fallback changes only `success_count` |
| LogAnalyzer.Assess | log_analyzer.py:77-108 | the line's code is a valid HTTP code, and its snippet is at most 100 characters |
| LogAnalyzer.CountOccurrence | log_analyzer.py:70-114 | each occurrence adds exactly one to `total_count` |
| LogAnalyzer.Cleaned | log_analyzer.py:71-73 | every match is counted under its `rstrip('.,;:)\'"')` form |
| LogAnalyzer.OccurrenceKeepsValid | log_analyzer.py:70-114 | an occurrence keeps the invariant: the three categories sum to at most the total, timeouts and unknowns sum to at most the total, status codes sum to at most the total, at most 3 messages of at most 100 characters |
| LogAnalyzer.OccurrenceCategory | log_analyzer.py:77-114 | 2xx counts a success, 4xx a client error and 5xx a server error; 1xx and 3xx count none; the success keywords count only without a code; the code's tally grows by one |
| LogAnalyzer.OccurrenceErrors | log_analyzer.py:96-108 | on error-keyword lines, `timeout` counts a timeout, else a line without a code counts an unknown; a message is stored while fewer than 3 are held |
| LogAnalyzer.CountUrls | log_analyzer.py:70-114 | definition of the loop over a line's cleaned URLs; pinned by `CountUrlsKeepsValid`, `CountUrlsKeys` and `TotalCountsOccurrences` |
| LogAnalyzer.CountUrlsKeepsValid | log_analyzer.py:70-114 | a line's URLs keep every URL's counters valid |
| LogAnalyzer.CountUrlsKeys | log_analyzer.py:70-74 | the line's URLs gain an entry each, and no other key appears |
| LogAnalyzer.TotalCountsOccurrences | log_analyzer.py:70-74 | each occurrence of a URL in the line adds exactly one to that URL's `total_count` |
| LogAnalyzer.Step | log_analyzer.py:57-114 | definition of one line of `analyze`; pinned by `StepKeepsValid` and `LineWithoutUrlCountsNothing` |
| LogAnalyzer.CountLine | log_analyzer.py:57-114 | definition of the counting of a line given its matches; pinned by `SecureLogAnalyzer.TallyLine` and, through `Step`, by `StepKeepsValid` |
| LogAnalyzer.Run | log_analyzer.py:56-114 | definition of `analyze` over a log; pinned by `RunKeepsValid` |
| LogAnalyzer.StepKeepsValid | log_analyzer.py:57-68 | every line adds one to `total_lines`; only a line with a URL adds one to `lines_with_urls`; every stat stays valid |
| LogAnalyzer.LineWithoutUrlCountsNothing | log_analyzer.py:64-68 | a line without a URL changes no URL's counters |
| LogAnalyzer.RunKeepsValid | log_analyzer.py:56-114 | over a log, `total_lines` is the number of lines, `lines_with_urls <= total_lines`, and every stat stays valid |
| LogAnalyzer.SecureLogAnalyzer.constructor | log_analyzer.py:29-41 | the counters start empty |
| LogAnalyzer.SecureLogAnalyzer.CountLineUrls | log_analyzer.py:70-114 | the per-URL loop computes `CountUrls`, and the line totals are untouched |
| LogAnalyzer.SecureLogAnalyzer.AnalyzeLine | log_analyzer.py:57-114 | the fields become `Step` of the old ones |
| LogAnalyzer.SecureLogAnalyzer.TallyLine | log_analyzer.py:57-114 | given the line's matches and facts, the fields become `CountLine` of the old ones |
| LogAnalyzer.SecureLogAnalyzer.Analyze | log_analyzer.py:56-114 | the fields become `Run` of the old ones |
| CleanLogViewer.CleanUrl | clean_log_viewer.py:26-35 | definition of `clean_url`; pinned by `CleanUrlIsPrefix`, `CleanUrlHasNoBracket` and `FoundUrlOnlyStripped` |
| CleanLogViewer.CleanUrlIsPrefix | clean_log_viewer.py:26-35 | for an input without line feeds, `clean_url` returns a prefix of its input |
| CleanLogViewer.CleanUrlHasNoBracket | clean_log_viewer.py:29-33 | for an input without line feeds, no `[` survives `clean_url` |
| CleanLogViewer.FoundUrlOnlyStripped | clean_log_viewer.py:41-52 | a match of the bracket-free URL pattern has no bracket, so `clean_url` only strips its tail |
| CleanLogViewer.Assess | clean_log_viewer.py:64-81 | the stored example is at most 150 characters |
| CleanLogViewer.CleanAll | clean_log_viewer.py:54-56 | every match is cleaned, in order |
| CleanLogViewer.IsSuccessLine | clean_log_viewer.py:64 | definition of the success search, ignoring case; it sets the `success` flag of `Assess`, which `OccurrenceEffects` counts |
| CleanLogViewer.IsErrorLine | clean_log_viewer.py:68 | definition of the error search, ignoring case; it sets the `error` flag of `Assess`, which `OccurrenceEffects` counts |
| CleanLogViewer.CountOccurrence | clean_log_viewer.py:61-81 | definition of the counting for one kept occurrence; pinned by `OccurrenceEffects` and `OccurrenceKeepsValid` |
| CleanLogViewer.OccurrenceEffects | clean_log_viewer.py:61-76 | a kept occurrence adds 1 to `total`; `success` and `errors` each add 1 exactly when their own search succeeds; `error_types` counts the first token only on error lines, and only when it is 4xx or 5xx |
| CleanLogViewer.OccurrenceKeepsValid | clean_log_viewer.py:61-81 | the invariant is kept: `success <= total`, `errors <= total`, `error_types` sums to at most `errors` and holds only 4xx/5xx, at most 3 examples of at most 150 characters |
| CleanLogViewer.CountUrls | clean_log_viewer.py:54-81 | definition of the loop over a line's cleaned URLs; pinned by `CountUrlsKeepsValid` and `TotalCountsOccurrences` |
| CleanLogViewer.CountUrlsKeepsValid | clean_log_viewer.py:54-81 | only the line's URLs of at least 10 characters gain entries, and every entry stays valid |
| CleanLogViewer.TotalCountsOccurrences | clean_log_viewer.py:57-61 | each occurrence of a kept URL adds one to its `total`; a URL shorter than 10 characters changes nothing |
| CleanLogViewer.Step | clean_log_viewer.py:50-81 | definition of one line of `analyze`; pinned by `StepKeepsValid` |
| CleanLogViewer.Run | clean_log_viewer.py:44-81 | definition of `analyze` over a log; pinned by `RunKeepsValid` |
| CleanLogViewer.StepKeepsValid | clean_log_viewer.py:50-81 | one line keeps every URL's counters valid |
| CleanLogViewer.RunKeepsValid | clean_log_viewer.py:37-83 | over a log, every URL's counters stay valid |
| CleanLogViewer.CleanLogViewer.constructor | clean_log_viewer.py:18-24 | `url_stats` starts empty |
| CleanLogViewer.CleanLogViewer.CountLineUrls | clean_log_viewer.py:54-81 | the per-URL loop computes `CountUrls` |
| CleanLogViewer.CleanLogViewer.AnalyzeLine | clean_log_viewer.py:50-81 | `url_stats` becomes `Step` of the old one |
| CleanLogViewer.CleanLogViewer.Analyze | clean_log_viewer.py:37-83 | `url_stats` becomes `Run` of the old one |
| ExtractUrls.CleanUrl | extract_urls.py:23-38 | definition of `clean_url`; pinned by `CleanUrlNoLeadingAt` and `CleanUrlHasNoBracket` |
| ExtractUrls.IsSuccessful | extract_urls.py:40-51 | definition of `is_successful`; pinned by `SuccessTakesPrecedence` |
| ExtractUrls.IsError | extract_urls.py:53-72 | definition of `is_error`; its logcat disjunct is `LogcatErrorEnd`, pinned by `LogcatLevelE` and `LogcatOtherLevel`; pinned as a whole by `SuccessTakesPrecedence` |
| ExtractUrls.CleanUrlNoLeadingAt | extract_urls.py:23-38 | `clean_url`'s result never starts with `@` |
| ExtractUrls.CleanUrlHasNoBracket | extract_urls.py:29-36 | for an input without line feeds, no `[` survives `clean_url` |
| ExtractUrls.SpacesAt | extract_urls.py:60 | the greedy `\s+` run at a position |
| ExtractUrls.DigitsAt | extract_urls.py:60 | the greedy `\d+` run at a position |
| ExtractUrls.LogcatErrorEnd | extract_urls.py:60 | a logcat match starts with `\d{2}-\d{2}\s` and ends with `\sE\s` |
| ExtractUrls.ClockEnd | extract_urls.py:60 | the date and time part of the logcat pattern |
| ExtractUrls.IdsEnd | extract_urls.py:60 | the fraction and the two id runs of the logcat pattern |
| ExtractUrls.LevelEEnd | extract_urls.py:60 | the `E\s` level of the logcat pattern |
| ExtractUrls.LogcatClock | extract_urls.py:60 | the date and time fields of a single-spaced logcat line match |
| ExtractUrls.LogcatIds | extract_urls.py:60 | the fraction, process and thread runs of a single-spaced logcat line have their exact lengths |
| ExtractUrls.LogcatLevelE | extract_urls.py:58-61 | a single-spaced logcat line at level `E` is recognised, and the match ends just after `E ` |
| ExtractUrls.LogcatOtherLevel | extract_urls.py:58-61 | the same layout at another non-space, non-digit level is not recognised |
| ExtractUrls.CleanAll | extract_urls.py:81-83 | every match is cleaned, in order |
| ExtractUrls.Kept | extract_urls.py:86-93 | definition of the three filters; pinned by `KeptUrls` and `KeptUrlsSingle` |
| ExtractUrls.KeptUrls | extract_urls.py:84-95 | the kept URLs are exactly the cleaned ones of length at least 10 that are not placeholders and start with a scheme and an alphanumeric |
| ExtractUrls.KeptUrlsAppend | extract_urls.py:82-95 | filtering keeps order: filtering a concatenation concatenates the filtered parts |
| ExtractUrls.KeptUrlsSingle | extract_urls.py:86-93 | a single URL is kept exactly when it passes the three filters |
| ExtractUrls.KeptUrlsOccurrences | extract_urls.py:82-95 | a URL that passes is kept once per match, and a URL that fails is not kept |
| ExtractUrls.LineUrls | extract_urls.py:74-95 | definition of `extract_urls_from_line`; pinned by `ExtractUrlsFromLine` and the `KeptUrls` lemmas |
| ExtractUrls.FilterUrls | extract_urls.py:84-95 | the filtering loop computes `KeptUrls` |
| ExtractUrls.ExtractUrlsFromLine | extract_urls.py:74-95 | the line's URLs are `KeptUrls` of its cleaned matches |
| ExtractUrls.CountUrls | extract_urls.py:115-119 | definition of the loop over a line's URLs; pinned by `CountPerUrl`, `CountTotals` and `CountErrorsUnchanged` |
| ExtractUrls.Step | extract_urls.py:106-119 | definition of one line of `analyze`; pinned by `LineWithoutUrlsChangesNothing` and `SuccessTakesPrecedence` |
| ExtractUrls.Run | extract_urls.py:97-121 | definition of `analyze` over a log; pinned by `URLExtractor.Analyze` |
| ExtractUrls.CountPerUrl | extract_urls.py:111-119 | each URL occurrence adds exactly one to one counter: success on a success line, error on an error-only line, neither otherwise |
| ExtractUrls.CountTotals | extract_urls.py:111-119 | a line's URLs are added to exactly one of the totals, or to none |
| ExtractUrls.LineWithoutUrlsChangesNothing | extract_urls.py:107-109 | a line without a kept URL changes neither counter |
| ExtractUrls.SuccessTakesPrecedence | extract_urls.py:115-119 | a line that is both a success and an error line counts only as a success |
| ExtractUrls.CountErrorsUnchanged | extract_urls.py:115-117 | on success lines the error map is left exactly as it was |
| ExtractUrls.URLExtractor.constructor | extract_urls.py:20-21 | both counters start empty |
| ExtractUrls.URLExtractor.CountLineUrls | extract_urls.py:115-119 | the categorising loop computes `CountUrls` |
| ExtractUrls.URLExtractor.AnalyzeLine | extract_urls.py:106-119 | the counters become `Step` of the old ones |
| ExtractUrls.URLExtractor.Analyze | extract_urls.py:97-121 | the counters become `Run` of the old ones |
| ManualUrlChecker.Kept | manual_url_checker.py:73 | definition of the filter; pinned by `CleanedUrls` and `HttpTestFollowsFromLength` |
| ManualUrlChecker.CleanedUrls | manual_url_checker.py:70-77 | a URL is kept exactly when, stripped of trailing `.,;:)'"[]`, it is longer than 10 characters and contains `http` |
| ManualUrlChecker.HttpTestFollowsFromLength | manual_url_checker.py:70-74 | for a match of the URL pattern, the `http` test never rejects what the length test keeps |
| ManualUrlChecker.StrippedMatchKeepsScheme | manual_url_checker.py:72-74 | a stripped match of at least 4 characters still contains `http` |
| ManualUrlChecker.IsSuccessLine | manual_url_checker.py:79-82 | definition of `is_success` over the lower-cased line; pinned by `RegistrationPatternNeverMatches` and `StepCategorises` |
| ManualUrlChecker.IsErrorLine | manual_url_checker.py:79-85 | definition of `is_error` over the lower-cased line; pinned by `StepCategorises` |
| ManualUrlChecker.RegistrationPatternNeverMatches | manual_url_checker.py:36-82 | the mixed-case `CAI registration successful` never matches the lower-cased line, so only the other five success patterns decide |
| ManualUrlChecker.ReportedTotal | manual_url_checker.py:120-122 | the reported total is at least the size of the union of the two sets |
| ManualUrlChecker.Step | manual_url_checker.py:64-92 | definition of one line of the loop; pinned by `StepCategorises`, `LineWithoutKeptUrlsChangesNothing` and `StepIdempotent` |
| ManualUrlChecker.Run | manual_url_checker.py:60-92 | definition of the loop over a log; pinned by `RunGrows`, `OverlapCountedTwice` and `CheckUrlStatus` |
| ManualUrlChecker.StepCategorises | manual_url_checker.py:82-92 | a kept URL goes to `successful_urls` on a success line, to `error_urls` on an error-only line, and nowhere otherwise; nothing else enters either set |
| ManualUrlChecker.LineWithoutKeptUrlsChangesNothing | manual_url_checker.py:66-77 | a line with no kept URL changes neither set |
| ManualUrlChecker.StepIdempotent | manual_url_checker.py:32-33 | the sets store a URL once, so reading the same line again changes nothing more |
| ManualUrlChecker.RunGrows | manual_url_checker.py:60-92 | both sets only grow over the log |
| ManualUrlChecker.OverlapCountedTwice | manual_url_checker.py:88-122 | a URL on a success line and later on an error-only line is in both sets, and the reported total then exceeds the union's size |
| ManualUrlChecker.CleanLineUrls | manual_url_checker.py:70-77 | the cleaning loop computes `CleanedUrls` |
| ManualUrlChecker.Categorise | manual_url_checker.py:88-92 | the categorising loop adds the line's URLs to one set, or to neither |
| ManualUrlChecker.CheckUrlStatus | manual_url_checker.py:60-92 | the two sets are `Run` over the whole log |
| RecoveryAnalyzer.KeywordVerdict | recovery_analyzer.py:88-94 | definition of the keyword fallback; pinned by `LaterNumbersIgnored`, and its error-word test by `BracketEntriesAreLiteral` |
| RecoveryAnalyzer.IsSuccess | recovery_analyzer.py:78-94 | definition of `is_success`; pinned by `FirstNumberDecides` and `LaterNumbersIgnored` |
| RecoveryAnalyzer.FirstNumberDecides | recovery_analyzer.py:81-85 | when the first word-bounded number is in 100..599, the line is a success exactly when it is 2xx |
| RecoveryAnalyzer.LaterNumbersIgnored | recovery_analyzer.py:81-94 | when the first number is not a status code, later numbers are never consulted and only the keywords decide |
| RecoveryAnalyzer.LowerKeepsBracket | recovery_analyzer.py:88-89 | lower-casing neither adds nor removes `[` |
| RecoveryAnalyzer.BracketEntriesAreLiteral | recovery_analyzer.py:88-94 | the `4[0-9][0-9]` and `5[0-9][0-9]` entries are literal text, so on a line without `[` only `error`, `fail` and `timeout` count |
| RecoveryAnalyzer.Bump | recovery_analyzer.py:130-141 | a bump adds the key and leaves every other bucket alone |
| RecoveryAnalyzer.SuccessCount | recovery_analyzer.py:127 | a timeline has at most as many successes as entries |
| RecoveryAnalyzer.BumpSums | recovery_analyzer.py:130-141 | a bump adds one entry to the buckets, and one success exactly for a success |
| RecoveryAnalyzer.InitValid | recovery_analyzer.py:22-27 | the empty state satisfies the bucket invariant |
| RecoveryAnalyzer.Record | recovery_analyzer.py:108-141 | definition of one line given its URL test, timestamp and verdict; pinned by `RecordKeepsValid`, `SkippedLinesChangeNothing` and `TimestampsTracked` |
| RecoveryAnalyzer.RecordKeepsValid | recovery_analyzer.py:108-141 | a line keeps the invariant: hour and minute buckets each sum to the timeline's length and successes, and timeline entries exist only once timestamps are set |
| RecoveryAnalyzer.Step | recovery_analyzer.py:107-141 | definition of one line of `analyze`; pinned by `StepKeepsValid` |
| RecoveryAnalyzer.Run | recovery_analyzer.py:96-141 | definition of `analyze` over a log; pinned by `RunKeepsValid` and `FirstTimestampSetOnce` |
| RecoveryAnalyzer.StepKeepsValid | recovery_analyzer.py:96-141 | one line keeps the bucket invariant |
| RecoveryAnalyzer.RunKeepsValid | recovery_analyzer.py:96-141 | over a log, the hourly and minute totals equal the timeline's length |
| RecoveryAnalyzer.SkippedLinesChangeNothing | recovery_analyzer.py:108-114 | a line without a URL or without a timestamp changes nothing |
| RecoveryAnalyzer.TimestampsTracked | recovery_analyzer.py:116-127 | the first timestamp is set only if unset; the last is always the line's; the timeline grows exactly when `is_success` decides |
| RecoveryAnalyzer.FirstTimestampSetOnce | recovery_analyzer.py:117-118 | once set, the first timestamp never changes over the rest of the log |
| RecoveryAnalyzer.Quarters | recovery_analyzer.py:220-227 | there are no quarters exactly when the timeline has fewer than four entries |
| RecoveryAnalyzer.QuartersCover | recovery_analyzer.py:220-227 | the four quarters concatenate back to the timeline; three hold `len // 4` entries and the last holds the rest |
| RecoveryAnalyzer.SuccessCountAppend | recovery_analyzer.py:127 | successes of a concatenation add up |
| RecoveryAnalyzer.QuarterSuccesses | recovery_analyzer.py:220-227 | the quarters' successes add up to the timeline's |
| RecoveryAnalyzer.RecoveryAnalyzer.constructor | recovery_analyzer.py:22-27 | the analyzer starts empty |
| RecoveryAnalyzer.RecoveryAnalyzer.AnalyzeLine | recovery_analyzer.py:107-141 | the fields become `Step` of the old ones |
| RecoveryAnalyzer.RecoveryAnalyzer.Analyze | recovery_analyzer.py:96-141 | the fields become `Run` of the old ones |

## Left out

- Flask routes, Socket.IO emits and environment configuration (app.py:17-30, 133-199) are not modelled, apart from the last-ten slice of the emergencies.
- The paho MQTT client (connect, `loop_start`, subscribe) is not modelled. Publishes are appends to `outbox`. Topic-filter matching with `+` is the broker's job.
- `outbox` is not a field of the source. The classes `Car2XDashboard` and `V2XSimulator` have one so that publishing is part of their state.
- These fields of the source are not modelled, because none of the modelled operations writes them in a way anything reads:
  - `V2XSimulator.infrastructure` (v2x_simulator.py:23) is set to `{}` and never written or read again; the traffic lights of `simulate_infrastructure` are a local list;
  - `V2XSimulator.running`, `broker_host` and `broker_port` (v2x_simulator.py:18-21) only drive the threads and the connection;
  - `RootCauseAnalyzer.error_details` (root_cause_analyzer.py:37) is created and never used;
  - the MQTT clients (`self.client`, `self.mqtt_client`) and the Socket.IO server are I/O;
  - the `log_file` paths of the log utilities are I/O: the model takes the lines themselves.
- mqtt_broker.py and simple_mqtt_broker.py are not part of this model. They are process launch and third-party broker code.
- Threads, `time.sleep` and the `simulate_*` loops are not modelled. In particular, the acknowledgements of `send_responses` are modelled as published at once, without the two-second delay or any interleaving with other messages.
- The floating-point kinematics of `simulate_vehicles` (v2x_simulator.py:105-123) are not modelled. A vehicle's position, speed and heading are inputs.
- JSON encoding and decoding are not modelled. Payloads are decoded `Json` values, and a decoding failure is `None`.
- Messages.AckTargets: a `target_vehicles` dict (which Python would iterate by key) yields no acknowledgement, because `Json` objects are unordered maps. Lists and strings are iterated as in the code.
- File reading, progress printing, the report and export functions, and the percentage, reliability and trend figures are not modelled. They are display-only float arithmetic.
- `extract_timestamp` and the `strftime` bucket keys are inputs (`Reading`). Date parsing is not modelled.
- The character classes `\d`, `\s` and `\w`, `str.lower()` and `re.IGNORECASE` are modelled on ASCII only. Unicode digits, spaces and case folding are not.
- The ETSI CAM and DENM encodings (EN 302 637-2 and -3) are not modelled. The code only borrows their names; the model keeps its ad-hoc dict shapes.
- CleanLogViewer.CleanUrlIsPrefix and CleanLogViewer.CleanUrlHasNoBracket hold only for inputs without a line feed. Python's `$` also matches before a final line feed, which `clean_url` then keeps. A URL found by the pattern never holds white space, so this restriction does not affect any URL the tools clean.
- ExtractUrls.CleanUrlHasNoBracket holds only for inputs without a line feed, for the same reason.
- ExtractUrls.LogcatLevelE and ExtractUrls.LogcatOtherLevel are stated for one layout: single spaces between fields, a one-digit fraction and two-digit ids. `LogcatErrorEnd` itself follows the pattern for every line.
- RootCause.MessagesOnlyWhenFound: an extracted message that is empty is not appended, because the code tests `if error_msg:`. So `error_messages` grows on a non-empty message, not on every non-`None` result.
- The analyzers' `AnalyzeLine` methods clean all matches of a line before the counting loop, where the code cleans each URL inside the loop. The cleaners are pure, so the counts are the same.
