/**
 * The records the V2X code builds (CAM, DENM, V2I, job, acknowledgement),
 * their JSON shape, and the job-record operations shared by the dashboard and
 * the simulator. `random`, `uuid.uuid4()` and `datetime.now()` are inputs:
 * a `pick` stands for the random draw, `uuid` for the generated uuid string,
 * `now` and `clock` for the clock readings.
 */
module Messages {
  import opened Wrappers
  import opened Text
  import opened JsonValues
  import opened Topics

  datatype Publish = Publish(topic: string, payload: Json)

  // ---------------------------------------------------------------- random draws and ids

  /** `random.randint(a, b)` for the draw `pick`. */
  function RandInt(a: int, b: int, pick: nat): (r: int)
    requires a <= b
    ensures a <= r <= b
  {
    a + pick % (b - a + 1)
  }

  /** Every value of the range is drawn by some pick. */
  lemma RandIntCovers(a: int, b: int, v: int)
    requires a <= v <= b
    ensures RandInt(a, b, (v - a) as nat) == v
  {
  }

  /** `random.choice(xs)` for the draw `pick`. */
  function Choice<T>(xs: seq<T>, pick: nat): (r: T)
    requires |xs| > 0
    ensures r in xs
  {
    xs[pick % |xs|]
  }

  predicate IsHexOrDash(c: char) { '0' <= c <= '9' || 'a' <= c <= 'f' || c == '-' }

  /** The text form of a uuid: 36 lower-case hexadecimal digits and dashes. */
  predicate IsUuidText(u: string) {
    |u| == 36 && forall k :: 0 <= k < |u| ==> IsHexOrDash(u[k])
  }

  /** `str(uuid.uuid4())[:8]`. */
  function ShortId(uuid: string): string { Take(uuid, 8) }

  /** A short id is eight characters long and can be put in a topic without adding a segment. */
  lemma ShortIdShape(uuid: string)
    requires IsUuidText(uuid)
    ensures |ShortId(uuid)| == 8 && '/' !in ShortId(uuid)
  {
    assert forall k :: 0 <= k < 8 ==> ShortId(uuid)[k] == uuid[k];
  }

  // ---------------------------------------------------------------- CAM

  /** A simulated vehicle: the dict `simulate_vehicles` keeps per vehicle. */
  datatype Vehicle = Vehicle(vehicleId: string, timestamp: string, position: Json, speed: real, heading: real, status: string)

  /** The CAM dict built by `publish_cam_message`. */
  function CamJson(v: Vehicle): Json {
    JObj(map[
      "type" := JStr("CAM"),
      "vehicle_id" := JStr(v.vehicleId),
      "timestamp" := JStr(v.timestamp),
      "position" := v.position,
      "speed" := JFloat(v.speed),
      "heading" := JFloat(v.heading),
      "status" := JStr(v.status)])
  }

  /** Reads a CAM back into a vehicle; `None` unless it is a CAM with fields of the right kinds. */
  function DecodeCam(j: Json): Option<Vehicle> {
    if !j.JObj? then None
    else
      var m := j.fields;
      if "type" in m && m["type"] == JStr("CAM")
        && "vehicle_id" in m && m["vehicle_id"].JStr?
        && "timestamp" in m && m["timestamp"].JStr?
        && "position" in m
        && "speed" in m && m["speed"].JFloat?
        && "heading" in m && m["heading"].JFloat?
        && "status" in m && m["status"].JStr?
      then Some(Vehicle(m["vehicle_id"].s, m["timestamp"].s, m["position"], m["speed"].r, m["heading"].r, m["status"].s))
      else None
  }

  /** A CAM is tagged "CAM" and carries the vehicle's id, timestamp, position, speed, heading and status unchanged. */
  lemma CamRoundTrip(v: Vehicle)
    ensures Field(CamJson(v), "type") == Some(JStr("CAM"))
    ensures DecodeCam(CamJson(v)) == Some(v)
  {
  }

  // ---------------------------------------------------------------- DENM

  const Severities: seq<string> := ["low", "medium", "high"]

  datatype Denm = Denm(eventId: string, timestamp: string, position: Json, eventType: string,
                       severity: string, duration: int, radius: int)

  /** The event `create_emergency_event` builds, for the given draws. */
  function NewDenm(eventType: string, uuid: string, now: string, position: Json,
                   severityPick: nat, durationPick: nat, radiusPick: nat): (d: Denm)
    ensures d.severity in Severities
    ensures 300 <= d.duration <= 1800 && 100 <= d.radius <= 1000
    ensures d.eventId == ShortId(uuid) && d.eventType == eventType
  {
    Denm(ShortId(uuid), now, position, eventType,
         Choice(Severities, severityPick), RandInt(300, 1800, durationPick), RandInt(100, 1000, radiusPick))
  }

  function DenmJson(d: Denm): Json {
    JObj(map[
      "type" := JStr("DENM"),
      "event_id" := JStr(d.eventId),
      "timestamp" := JStr(d.timestamp),
      "position" := d.position,
      "event_type" := JStr(d.eventType),
      "severity" := JStr(d.severity),
      "duration" := JInt(d.duration),
      "radius" := JInt(d.radius)])
  }

  function DecodeDenm(j: Json): Option<Denm> {
    if !j.JObj? then None
    else
      var m := j.fields;
      if "type" in m && m["type"] == JStr("DENM")
        && "event_id" in m && m["event_id"].JStr?
        && "timestamp" in m && m["timestamp"].JStr?
        && "position" in m
        && "event_type" in m && m["event_type"].JStr?
        && "severity" in m && m["severity"].JStr?
        && "duration" in m && m["duration"].JInt?
        && "radius" in m && m["radius"].JInt?
      then Some(Denm(m["event_id"].s, m["timestamp"].s, m["position"], m["event_type"].s,
                     m["severity"].s, m["duration"].i, m["radius"].i))
      else None
  }

  lemma DenmDecodes(d: Denm)
    ensures DecodeDenm(DenmJson(d)) == Some(d)
  {
  }

  /** A broadcast DENM is tagged "DENM" and decodes to an event whose severity, duration and radius are in range. */
  lemma DenmRoundTrip(eventType: string, uuid: string, now: string, position: Json,
                      severityPick: nat, durationPick: nat, radiusPick: nat)
    ensures var d := NewDenm(eventType, uuid, now, position, severityPick, durationPick, radiusPick);
      && Field(DenmJson(d), "type") == Some(JStr("DENM"))
      && DecodeDenm(DenmJson(d)) == Some(d)
      && d.severity in {"low", "medium", "high"}
      && 300 <= d.duration <= 1800 && 100 <= d.radius <= 1000
  {
  }

  // ---------------------------------------------------------------- V2I

  const LightStates: seq<string> := ["red", "yellow", "green"]

  datatype TrafficLight = TrafficLight(id: string, position: Json, state: string)

  predicate ValidLight(tl: TrafficLight) { tl.state in LightStates }

  function LightPosition(lat: real, lon: real): Json {
    JObj(map["lat" := JFloat(lat), "lon" := JFloat(lon)])
  }

  /** The three lights `simulate_infrastructure` starts from. */
  const InitialLights: seq<TrafficLight> := [
    TrafficLight("TL001", LightPosition(48.1351, 11.5820), "red"),
    TrafficLight("TL002", LightPosition(48.1361, 11.5830), "green"),
    TrafficLight("TL003", LightPosition(48.1371, 11.5840), "yellow")]

  /** One pass of the loop over a light: with 5% probability (`change`) a new state is drawn. */
  function StepLight(tl: TrafficLight, change: bool, pick: nat): (r: TrafficLight)
    ensures r.id == tl.id && r.position == tl.position
    ensures ValidLight(tl) ==> ValidLight(r)
  {
    if change then tl.(state := Choice(LightStates, pick)) else tl
  }

  /** The lights start valid, and every step keeps them valid. */
  lemma LightsStayValid(tl: TrafficLight, change: bool, pick: nat)
    ensures forall k :: 0 <= k < |InitialLights| ==> ValidLight(InitialLights[k])
    ensures ValidLight(tl) ==> ValidLight(StepLight(tl, change, pick))
    ensures ValidLight(StepLight(tl, true, pick))
  {
  }

  datatype V2i = V2i(infraId: string, timestamp: string, position: Json, lightState: string, remainingTime: int)

  /** The message `simulate_infrastructure` builds for one light. */
  function NewV2i(tl: TrafficLight, now: string, remainingPick: nat): (m: V2i)
    ensures 5 <= m.remainingTime <= 30
    ensures m.infraId == tl.id && m.lightState == tl.state
  {
    V2i(tl.id, now, tl.position, tl.state, RandInt(5, 30, remainingPick))
  }

  function V2iJson(m: V2i): Json {
    JObj(map[
      "type" := JStr("V2I"),
      "infrastructure_id" := JStr(m.infraId),
      "timestamp" := JStr(m.timestamp),
      "position" := m.position,
      "data" := JObj(map[
        "traffic_light_state" := JStr(m.lightState),
        "remaining_time" := JInt(m.remainingTime)])])
  }

  function DecodeV2i(j: Json): Option<V2i> {
    if !j.JObj? then None
    else
      var m := j.fields;
      if "type" in m && m["type"] == JStr("V2I")
        && "infrastructure_id" in m && m["infrastructure_id"].JStr?
        && "timestamp" in m && m["timestamp"].JStr?
        && "position" in m
        && "data" in m && m["data"].JObj?
        && "traffic_light_state" in m["data"].fields && m["data"].fields["traffic_light_state"].JStr?
        && "remaining_time" in m["data"].fields && m["data"].fields["remaining_time"].JInt?
      then Some(V2i(m["infrastructure_id"].s, m["timestamp"].s, m["position"],
                    m["data"].fields["traffic_light_state"].s, m["data"].fields["remaining_time"].i))
      else None
  }

  /** A V2I message for a valid light is tagged "V2I" and decodes to a light state in {red, yellow, green} and a countdown in 5..30. */
  lemma V2iRoundTrip(tl: TrafficLight, now: string, remainingPick: nat)
    requires ValidLight(tl)
    ensures var m := NewV2i(tl, now, remainingPick);
      && Field(V2iJson(m), "type") == Some(JStr("V2I"))
      && DecodeV2i(V2iJson(m)) == Some(m)
      && m.lightState in {"red", "yellow", "green"}
      && 5 <= m.remainingTime <= 30
  {
  }

  // ---------------------------------------------------------------- jobs

  /** A job record. `responses` is `None` until the first response creates the list. */
  datatype Job = Job(jobId: string, jobType: Json, timestamp: string, targets: Json,
                     parameters: Json, status: string, responses: Option<seq<Json>>)

  /** The record `create_job` stores: status "pending", `parameters or {}`, no responses yet. */
  function NewJob(jobId: string, jobType: Json, now: string, targets: Json, parameters: Json): Job {
    Job(jobId, jobType, now, targets, OrEmptyObject(parameters), "pending", None)
  }

  /** `job.get('responses', [])`. */
  function Responses(job: Job): seq<Json> { job.responses.GetOr([]) }

  /** The dict `json.dumps` sends for a job. */
  function JobJson(job: Job): Json {
    var m := map[
      "job_id" := JStr(job.jobId),
      "type" := job.jobType,
      "timestamp" := JStr(job.timestamp),
      "target_vehicles" := job.targets,
      "parameters" := job.parameters,
      "status" := JStr(job.status)];
    JObj(if job.responses.Some? then m["responses" := JArr(job.responses.value)] else m)
  }

  /** A fresh job is pending, has no responses, keeps type and targets, and defaults falsy parameters to `{}`. */
  lemma NewJobShape(jobId: string, jobType: Json, now: string, targets: Json, parameters: Json)
    ensures var job := NewJob(jobId, jobType, now, targets, parameters);
      && job.status == "pending" && Responses(job) == []
      && job.jobId == jobId && job.jobType == jobType && job.targets == targets
      && (Truthy(parameters) ==> job.parameters == parameters)
      && (!Truthy(parameters) ==> job.parameters == JObj(map[]))
      && Field(JobJson(job), "status") == Some(JStr("pending"))
      && Field(JobJson(job), "responses") == None
  {
  }

  /**
   * The response step of both handlers: `if job_id in jobs:` the list is
   * created if absent and the response appended; an unknown id is ignored.
   */
  function RecordResponse(jobs: map<string, Job>, jobId: string, response: Json): map<string, Job> {
    if jobId in jobs then
      var job := jobs[jobId];
      jobs[jobId := job.(responses := Some(Responses(job) + [response]))]
    else jobs
  }

  /** A response for a known job is appended at the end; every field but the responses, and every other job, is unchanged. */
  lemma RecordKnownJob(jobs: map<string, Job>, jobId: string, response: Json)
    requires jobId in jobs
    ensures var r := RecordResponse(jobs, jobId, response);
      && r.Keys == jobs.Keys
      && Responses(r[jobId]) == Responses(jobs[jobId]) + [response]
      && r[jobId].(responses := None) == jobs[jobId].(responses := None)
      && forall other :: other in jobs && other != jobId ==> r[other] == jobs[other]
  {
  }

  /** A response for an unknown job id changes nothing. */
  lemma RecordUnknownJob(jobs: map<string, Job>, jobId: string, response: Json)
    requires jobId !in jobs
    ensures RecordResponse(jobs, jobId, response) == jobs
  {
  }

  /** No response ever changes a job's status or the set of jobs. */
  lemma RecordKeepsStatus(jobs: map<string, Job>, jobId: string, response: Json)
    ensures var r := RecordResponse(jobs, jobId, response);
      r.Keys == jobs.Keys && forall id :: id in jobs ==> r[id].status == jobs[id].status
  {
  }

  function RecordAll(jobs: map<string, Job>, jobId: string, rs: seq<Json>): map<string, Job>
    decreases |rs|
  {
    if |rs| == 0 then jobs else RecordAll(RecordResponse(jobs, jobId, rs[0]), jobId, rs[1..])
  }

  /** Responses accumulate in arrival order, duplicates kept; the status stays "pending" for ever. */
  lemma {:induction false} RecordAllAppends(jobs: map<string, Job>, jobId: string, rs: seq<Json>)
    requires jobId in jobs
    ensures var r := RecordAll(jobs, jobId, rs);
      && r.Keys == jobs.Keys
      && Responses(r[jobId]) == Responses(jobs[jobId]) + rs
      && r[jobId].status == jobs[jobId].status
    decreases |rs|
  {
    if |rs| > 0 {
      var next := RecordResponse(jobs, jobId, rs[0]);
      RecordKnownJob(jobs, jobId, rs[0]);
      RecordAllAppends(next, jobId, rs[1..]);
      assert Responses(jobs[jobId]) + [rs[0]] + rs[1..] == Responses(jobs[jobId]) + rs;
    }
  }

  // ---------------------------------------------------------------- acknowledgements

  function StrList(xs: seq<string>): (r: Json)
    ensures r.JArr? && |r.items| == |xs|
    ensures forall k :: 0 <= k < |xs| ==> r.items[k] == JStr(xs[k])
  {
    JArr(seq(|xs|, k requires 0 <= k < |xs| => JStr(xs[k])))
  }

  /**
   * What `for vehicle_id in job_data.get('target_vehicles', [])` iterates
   * over: a list's items, a string's characters; nothing when the payload is
   * not a dict, the key is missing, or the value cannot be iterated.
   */
  function AckTargets(jobData: Json): seq<Json> {
    match Field(jobData, "target_vehicles")
    case None => []
    case Some(JArr(xs)) => xs
    case Some(JStr(s)) => seq(|s|, k requires 0 <= k < |s| => JStr([s[k]]))
    case Some(_) => []
  }

  function AckResponse(jobId: string, vehicleId: Json, timestamp: string): Json {
    JObj(map[
      "job_id" := JStr(jobId),
      "vehicle_id" := vehicleId,
      "status" := JStr("acknowledged"),
      "timestamp" := JStr(timestamp),
      "message" := JStr("Job received and processing")])
  }

  /** The publishes of `send_responses`: one per target, in target order, `clock(k)` read for the k-th. */
  function AckPublishes(jobId: string, jobData: Json, clock: nat -> string): (r: seq<Publish>)
    ensures |r| == |AckTargets(jobData)|
    ensures forall k :: 0 <= k < |r| ==>
      && r[k].topic == ResponseTopic(jobId)
      && Field(r[k].payload, "job_id") == Some(JStr(jobId))
      && Field(r[k].payload, "vehicle_id") == Some(AckTargets(jobData)[k])
      && Field(r[k].payload, "status") == Some(JStr("acknowledged"))
  {
    var targets := AckTargets(jobData);
    var r := seq(|targets|, k requires 0 <= k < |targets| => Publish(ResponseTopic(jobId), AckResponse(jobId, targets[k], clock(k))));
    assert forall k :: 0 <= k < |r| ==> r[k].payload == AckResponse(jobId, targets[k], clock(k));
    r
  }

  /** An assignment published for a job built from a list of vehicle ids is acknowledged once per vehicle, in order. */
  lemma AckFollowsTargets(jobId: string, jobType: Json, now: string, targets: seq<string>, parameters: Json)
    ensures AckTargets(JobJson(NewJob(jobId, jobType, now, StrList(targets), parameters))) == StrList(targets).items
  {
  }
}
