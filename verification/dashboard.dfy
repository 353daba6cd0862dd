/**
 * The dashboard's MQTT side (app.py, `Car2XDashboard`): four in-memory stores
 * updated by inbound messages, job creation, and the last-ten view of the
 * emergency list. Socket.IO emits are notifications only and are not modelled.
 */
module Dashboard {
  import opened Wrappers
  import opened Text
  import opened JsonValues
  import opened Topics
  import opened Messages

  /** The four stores of the dashboard. */
  datatype State = State(vehicles: map<string, Json>, infrastructure: map<string, Json>,
                         emergencies: seq<Json>, jobs: map<string, Job>)

  /** `on_mqtt_message` as a state transition; `None` is a payload `json.loads` rejected. */
  function OnMessage(st: State, topic: string, payload: Option<Json>): State {
    if payload.None? then st
    else
      var m := payload.value;
      match DashboardRoute(topic)
      case VehicleStatus(id) => st.(vehicles := st.vehicles[id := m])
      case Infrastructure(id) => st.(infrastructure := st.infrastructure[id := m])
      case EmergencyBroadcast => st.(emergencies := st.emergencies + [m])
      case JobResponse(id) => st.(jobs := RecordResponse(st.jobs, id, m))
      case _ => st
  }

  /** `emergencies[-10:]`. */
  function Recent(es: seq<Json>): seq<Json> {
    if |es| <= 10 then es else es[|es| - 10..]
  }

  /** The view holds the last min(10, n) entries, oldest first. */
  lemma RecentIsLastTen(es: seq<Json>)
    ensures |Recent(es)| == if |es| < 10 then |es| else 10
    ensures forall k :: 0 <= k < |Recent(es)| ==> Recent(es)[k] == es[|es| - |Recent(es)| + k]
  {
  }

  /** Appending an event shows it last and, once ten are shown, pushes the oldest one out. */
  lemma RecentAfterAppend(es: seq<Json>, e: Json)
    ensures Recent(es + [e]) == if |es| < 10 then Recent(es) + [e] else Recent(es)[1..] + [e]
  {
    if |es| >= 10 {
      assert (es + [e])[|es| + 1 - 10..] == es[|es| - 9..] + [e];
    }
  }

  /** A status message sets that vehicle to the payload; nothing else changes. */
  lemma StatusSetsVehicle(st: State, vehicleId: string, m: Json)
    requires '/' !in vehicleId
    ensures var r := OnMessage(st, StatusTopic(vehicleId), Some(m));
      && vehicleId in r.vehicles && r.vehicles[vehicleId] == m
      && r.vehicles.Keys == st.vehicles.Keys + {vehicleId}
      && (forall other :: other in st.vehicles && other != vehicleId ==> r.vehicles[other] == st.vehicles[other])
      && r.infrastructure == st.infrastructure && r.emergencies == st.emergencies && r.jobs == st.jobs
  {
    StatusTopicRoundTrip(vehicleId);
  }

  /** Last write wins: of two status messages for one vehicle, the second one's payload stays. */
  lemma StatusLastWriteWins(st: State, vehicleId: string, a: Json, b: Json)
    requires '/' !in vehicleId
    ensures OnMessage(OnMessage(st, StatusTopic(vehicleId), Some(a)), StatusTopic(vehicleId), Some(b))
         == OnMessage(st, StatusTopic(vehicleId), Some(b))
  {
    StatusTopicRoundTrip(vehicleId);
  }

  /** Status messages for different vehicles commute. */
  lemma StatusUpdatesCommute(st: State, v1: string, v2: string, a: Json, b: Json)
    requires '/' !in v1 && '/' !in v2 && v1 != v2
    ensures OnMessage(OnMessage(st, StatusTopic(v1), Some(a)), StatusTopic(v2), Some(b))
         == OnMessage(OnMessage(st, StatusTopic(v2), Some(b)), StatusTopic(v1), Some(a))
  {
    StatusTopicRoundTrip(v1);
    StatusTopicRoundTrip(v2);
  }

  /** An infrastructure message sets that element to the payload, last write wins; nothing else changes. */
  lemma InfrastructureLastWriteWins(st: State, infraId: string, a: Json, b: Json)
    requires '/' !in infraId
    ensures var r := OnMessage(st, InfrastructureTopic(infraId), Some(a));
      && infraId in r.infrastructure && r.infrastructure[infraId] == a
      && (forall other :: other in st.infrastructure && other != infraId ==> r.infrastructure[other] == st.infrastructure[other])
      && r.vehicles == st.vehicles && r.emergencies == st.emergencies && r.jobs == st.jobs
      && OnMessage(r, InfrastructureTopic(infraId), Some(b)).infrastructure[infraId] == b
  {
    InfrastructureTopicRoundTrip(infraId);
  }

  /** An `emergency` message appends exactly one entry at the end; earlier entries are untouched. */
  lemma EmergencyAppends(st: State, topic: string, m: Json)
    requires DashboardRoute(topic) == EmergencyBroadcast
    ensures var r := OnMessage(st, topic, Some(m));
      && |r.emergencies| == |st.emergencies| + 1
      && r.emergencies[..|st.emergencies|] == st.emergencies
      && r.emergencies[|st.emergencies|] == m
      && Recent(r.emergencies)[|Recent(r.emergencies)| - 1] == m
      && r.vehicles == st.vehicles && r.infrastructure == st.infrastructure && r.jobs == st.jobs
  {
  }

  /** A response for a known job is appended to its responses (duplicates kept); for an unknown id nothing changes. */
  lemma JobResponseRecorded(st: State, jobId: string, m: Json)
    requires '/' !in jobId
    ensures var r := OnMessage(st, ResponseTopic(jobId), Some(m));
      && r.vehicles == st.vehicles && r.infrastructure == st.infrastructure && r.emergencies == st.emergencies
      && (jobId in st.jobs ==> Responses(r.jobs[jobId]) == Responses(st.jobs[jobId]) + [m])
      && (jobId !in st.jobs ==> r == st)
  {
    ResponseTopicRoundTrip(jobId);
    if jobId in st.jobs {
      RecordKnownJob(st.jobs, jobId, m);
    }
  }

  /** Undecodable payloads, malformed or unrouted topics and vehicle emergencies change no store. */
  lemma DroppedMessagesChangeNothing(st: State, topic: string, payload: Option<Json>)
    requires payload.None? || DashboardRoute(topic) in {Malformed, Unrouted}
      || DashboardRoute(topic).VehicleEmergency?
    ensures OnMessage(st, topic, payload) == st
  {
  }

  /** `v2x/vehicles/status`, with its fourth segment missing, changes nothing. */
  lemma MissingSegmentDropped(st: State, m: Json)
    ensures OnMessage(st, "v2x/vehicles/status", Some(m)) == st
  {
    MissingSegmentIsMalformed("v2x", "status");
    assert "v2x" + "/vehicles/" + "status" == "v2x/vehicles/status";
  }

  /** No message changes the set of jobs or any job's status: nothing moves a job out of "pending". */
  lemma MessagesKeepJobStatus(st: State, topic: string, payload: Option<Json>)
    ensures var r := OnMessage(st, topic, payload);
      r.jobs.Keys == st.jobs.Keys && forall id :: id in st.jobs ==> r.jobs[id].status == st.jobs[id].status
  {
    if payload.Some? && DashboardRoute(topic).JobResponse? {
      RecordKeepsStatus(st.jobs, DashboardRoute(topic).jobId, payload.value);
    }
  }

  /** A CAM the simulator publishes is stored by the dashboard exactly, and the vehicle is read back from it. */
  lemma CamDelivered(st: State, v: Vehicle)
    requires '/' !in v.vehicleId
    ensures var r := OnMessage(st, StatusTopic(v.vehicleId), Some(CamJson(v)));
      v.vehicleId in r.vehicles && DecodeCam(r.vehicles[v.vehicleId]) == Some(v)
  {
    StatusTopicRoundTrip(v.vehicleId);
    CamRoundTrip(v);
  }

  /** The broadcast topic appends its payload, which the emergency view then shows last. */
  lemma BroadcastShownLast(st: State, m: Json)
    ensures var r := OnMessage(st, EmergencyTopic, Some(m));
      && r.emergencies == st.emergencies + [m]
      && Recent(r.emergencies)[|Recent(r.emergencies)| - 1] == m
  {
    EmergencyTopicRoutes();
    RecentAfterAppend(st.emergencies, m);
  }

  /** A DENM the simulator broadcasts ends up last in the dashboard's emergency view. */
  lemma DenmDelivered(st: State, d: Denm)
    ensures var r := OnMessage(st, EmergencyTopic, Some(DenmJson(d)));
      && r.emergencies == st.emergencies + [DenmJson(d)]
      && DecodeDenm(Recent(r.emergencies)[|Recent(r.emergencies)| - 1]) == Some(d)
  {
    BroadcastShownLast(st, DenmJson(d));
    DenmDecodes(d);
  }

  class Car2XDashboard {
    var vehicles: map<string, Json>
    var infrastructure: map<string, Json>
    var emergencies: seq<Json>
    var jobs: map<string, Job>
    /** What the dashboard hands to `mqtt_client.publish`, oldest first. */
    var outbox: seq<Publish>

    function Snapshot(): State
      reads this
    {
      State(vehicles, infrastructure, emergencies, jobs)
    }

    constructor ()
      ensures Snapshot() == State(map[], map[], [], map[]) && outbox == []
    {
      vehicles, infrastructure, emergencies, jobs := map[], map[], [], map[];
      outbox := [];
    }

    /** `on_mqtt_message`: any exception (a missing segment, a bad payload) is absorbed. */
    method OnMqttMessage(topic: string, payload: Option<Json>)
      modifies this
      ensures Snapshot() == OnMessage(old(Snapshot()), topic, payload)
      ensures outbox == old(outbox)
    {
      var parts := Split(topic, '/');
      if payload.None? || |parts| < 2 {
        return;
      }
      var message := payload.value;
      if parts[1] == "vehicles" {
        if |parts| < 4 {
          return;
        }
        if parts[3] == "status" {
          vehicles := vehicles[parts[2] := message];
        }
        // "emergency" is only forwarded to the observers
      } else if parts[1] == "infrastructure" {
        if |parts| < 3 {
          return;
        }
        infrastructure := infrastructure[parts[2] := message];
      } else if parts[1] == "emergency" {
        emergencies := emergencies + [message];
      } else if parts[1] == "jobs" {
        if |parts| < 3 {
          return;
        }
        var jobId := parts[2];
        if jobId in jobs {
          var job := jobs[jobId];
          job := job.(responses := Some(Responses(job)));
          job := job.(responses := Some(job.responses.value + [message]));
          jobs := jobs[jobId := job];
        }
      }
    }

    /** `create_job`: stores the pending record under the short id (overwriting on a collision) and publishes it once. */
    method CreateJob(jobType: Json, targets: Json, parameters: Json, uuid: string, now: string) returns (jobId: string)
      modifies this
      ensures jobId == ShortId(uuid)
      ensures jobs == old(jobs)[jobId := NewJob(jobId, jobType, now, targets, parameters)]
      ensures vehicles == old(vehicles) && infrastructure == old(infrastructure) && emergencies == old(emergencies)
      ensures outbox == old(outbox) + [Publish(AssignTopic(jobId), JobJson(jobs[jobId]))]
    {
      jobId := ShortId(uuid);
      var job := NewJob(jobId, jobType, now, targets, parameters);
      jobs := jobs[jobId := job];
      outbox := outbox + [Publish(AssignTopic(jobId), JobJson(job))];
    }

    /** The emergencies handed to observers: `emergencies[-10:]`. */
    method GetEmergencies() returns (recent: seq<Json>)
      ensures |recent| == if |emergencies| < 10 then |emergencies| else 10
      ensures recent == emergencies[|emergencies| - |recent|..]
    {
      recent := Recent(emergencies);
    }
  }
}
