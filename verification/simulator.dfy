/**
 * The simulator's message side (v2x_simulator.py, `V2XSimulator`): inbound
 * dispatch, the job registry, and the messages it publishes. Publishing is an
 * append to `outbox`; the two-second delay of the acknowledgement thread and
 * the simulation loops around the builders are not modelled.
 */
module Simulator {
  import opened Wrappers
  import opened Text
  import opened JsonValues
  import opened Topics
  import opened Messages

  datatype State = State(vehicles: map<string, Json>, jobs: map<string, Job>, outbox: seq<Publish>)

  /** `on_message` as a state transition; `clock(k)` is the time read for the k-th acknowledgement. */
  function OnMessage(st: State, topic: string, payload: Option<Json>, clock: nat -> string): State {
    if payload.None? then st
    else
      var m := payload.value;
      match SimulatorRoute(topic)
      case VehicleStatus(id) => st.(vehicles := st.vehicles[id := m])
      case JobAssign(id) => st.(outbox := st.outbox + AckPublishes(id, m, clock))
      case JobResponse(id) => st.(jobs := RecordResponse(st.jobs, id, m))
      case _ => st
  }

  /** A status message sets that vehicle to the payload unconditionally; jobs and outbox are unchanged. */
  lemma StatusSetsVehicle(st: State, vehicleId: string, m: Json, clock: nat -> string)
    requires '/' !in vehicleId
    ensures var r := OnMessage(st, StatusTopic(vehicleId), Some(m), clock);
      && vehicleId in r.vehicles && r.vehicles[vehicleId] == m
      && (forall other :: other in st.vehicles && other != vehicleId ==> other in r.vehicles && r.vehicles[other] == st.vehicles[other])
      && r.jobs == st.jobs && r.outbox == st.outbox
  {
    StatusTopicRoundTrip(vehicleId);
  }

  /** A response for a known job is appended in arrival order; an unknown id changes nothing. */
  lemma ResponseRecorded(st: State, jobId: string, m: Json, clock: nat -> string)
    requires '/' !in jobId
    ensures var r := OnMessage(st, ResponseTopic(jobId), Some(m), clock);
      && r.vehicles == st.vehicles && r.outbox == st.outbox
      && (jobId in st.jobs ==> jobId in r.jobs && Responses(r.jobs[jobId]) == Responses(st.jobs[jobId]) + [m])
      && (jobId !in st.jobs ==> r == st)
  {
    ResponseTopicRoundTrip(jobId);
    if jobId in st.jobs {
      RecordKnownJob(st.jobs, jobId, m);
    }
  }

  /**
   * Receiving its own assignment for a job created with a list of vehicle ids,
   * the simulator publishes one acknowledgement per target, in target order,
   * each on the job's response topic.
   */
  lemma OwnAssignmentAcknowledged(st: State, uuid: string, jobType: Json, now: string,
                                  targets: seq<string>, parameters: Json, clock: nat -> string)
    requires IsUuidText(uuid)
    ensures var jobId := ShortId(uuid);
      var r := OnMessage(st, AssignTopic(jobId), Some(JobJson(NewJob(jobId, jobType, now, StrList(targets), parameters))), clock);
      && r.vehicles == st.vehicles && r.jobs == st.jobs
      && |r.outbox| == |st.outbox| + |targets|
      && r.outbox[..|st.outbox|] == st.outbox
      && forall k :: 0 <= k < |targets| ==>
           && r.outbox[|st.outbox| + k].topic == ResponseTopic(jobId)
           && Field(r.outbox[|st.outbox| + k].payload, "vehicle_id") == Some(JStr(targets[k]))
           && Field(r.outbox[|st.outbox| + k].payload, "status") == Some(JStr("acknowledged"))
  {
    var jobId := ShortId(uuid);
    ShortIdShape(uuid);
    AssignTopicRoundTrip(jobId);
    AckFollowsTargets(jobId, jobType, now, targets, parameters);
  }

  /** Undecodable payloads, malformed or unrouted topics and vehicle emergencies change nothing. */
  lemma DroppedMessagesChangeNothing(st: State, topic: string, payload: Option<Json>, clock: nat -> string)
    requires payload.None? || SimulatorRoute(topic) in {Malformed, Unrouted}
      || SimulatorRoute(topic).VehicleEmergency?
    ensures OnMessage(st, topic, payload, clock) == st
  {
  }

  /** No message changes the set of jobs or any job's status. */
  lemma MessagesKeepJobStatus(st: State, topic: string, payload: Option<Json>, clock: nat -> string)
    ensures var r := OnMessage(st, topic, payload, clock);
      r.jobs.Keys == st.jobs.Keys && forall id :: id in st.jobs ==> r.jobs[id].status == st.jobs[id].status
  {
    if payload.Some? && SimulatorRoute(topic).JobResponse? {
      RecordKeepsStatus(st.jobs, SimulatorRoute(topic).jobId, payload.value);
    }
  }

  class V2XSimulator {
    var vehicles: map<string, Json>
    var jobs: map<string, Job>
    /** What the simulator hands to `client.publish`, oldest first. */
    var outbox: seq<Publish>

    function Snapshot(): State
      reads this
    {
      State(vehicles, jobs, outbox)
    }

    constructor ()
      ensures Snapshot() == State(map[], map[], [])
    {
      vehicles, jobs, outbox := map[], map[], [];
    }

    /** `on_message`: any exception (a missing segment, a bad payload) is absorbed. */
    method OnMqttMessage(topic: string, payload: Option<Json>, clock: nat -> string)
      modifies this
      ensures Snapshot() == OnMessage(old(Snapshot()), topic, payload, clock)
    {
      var parts := Split(topic, '/');
      if payload.None? || |parts| < 2 {
        return;
      }
      var message := payload.value;
      if parts[1] == "vehicles" {
        if |parts| < 4 {
          return;
        }
        if parts[3] == "status" {
          vehicles := vehicles[parts[2] := message];
        }
        // "emergency" is only printed
      } else if parts[1] == "jobs" {
        if |parts| < 4 {
          return;
        }
        if parts[3] == "assign" {
          HandleJobAssignment(parts[2], message, clock);
        } else if parts[3] == "response" {
          HandleJobResponse(parts[2], message);
        }
      }
    }

    /** `handle_job_response`: appends only when the job is known. */
    method HandleJobResponse(jobId: string, response: Json)
      modifies this
      ensures jobs == RecordResponse(old(jobs), jobId, response)
      ensures vehicles == old(vehicles) && outbox == old(outbox)
    {
      if jobId in jobs {
        var job := jobs[jobId];
        job := job.(responses := Some(Responses(job)));
        job := job.(responses := Some(job.responses.value + [response]));
        jobs := jobs[jobId := job];
      }
    }

    /** The loop of `send_responses`: one acknowledgement per target, in order. */
    method HandleJobAssignment(jobId: string, jobData: Json, clock: nat -> string)
      modifies this
      ensures outbox == old(outbox) + AckPublishes(jobId, jobData, clock)
      ensures vehicles == old(vehicles) && jobs == old(jobs)
    {
      var targets := AckTargets(jobData);
      ghost var acks := AckPublishes(jobId, jobData, clock);
      var k := 0;
      while k < |targets|
        invariant 0 <= k <= |targets| == |acks|
        invariant outbox == old(outbox) + acks[..k]
        invariant vehicles == old(vehicles) && jobs == old(jobs)
      {
        var response := AckResponse(jobId, targets[k], clock(k));
        outbox := outbox + [Publish(ResponseTopic(jobId), response)];
        assert acks[..k + 1] == acks[..k] + [acks[k]];
        k := k + 1;
      }
      assert acks[..k] == acks;
    }

    /** `create_job`: stores the pending record, then publishes the same assignment once per target. */
    method CreateJob(jobType: string, targets: seq<string>, parameters: Json, uuid: string, now: string)
      returns (jobId: string)
      modifies this
      ensures jobId == ShortId(uuid)
      ensures jobs == old(jobs)[jobId := NewJob(jobId, JStr(jobType), now, StrList(targets), parameters)]
      ensures vehicles == old(vehicles)
      ensures |outbox| == |old(outbox)| + |targets| && outbox[..|old(outbox)|] == old(outbox)
      ensures forall k :: |old(outbox)| <= k < |outbox| ==>
        outbox[k] == Publish(AssignTopic(jobId), JobJson(jobs[jobId]))
    {
      jobId := ShortId(uuid);
      var job := NewJob(jobId, JStr(jobType), now, StrList(targets), parameters);
      jobs := jobs[jobId := job];
      var k := 0;
      while k < |targets|
        invariant 0 <= k <= |targets|
        invariant |outbox| == |old(outbox)| + k && outbox[..|old(outbox)|] == old(outbox)
        invariant forall i :: |old(outbox)| <= i < |outbox| ==> outbox[i] == Publish(AssignTopic(jobId), JobJson(job))
        invariant jobs == old(jobs)[jobId := job] && vehicles == old(vehicles)
      {
        outbox := outbox + [Publish(AssignTopic(jobId), JobJson(job))];
        k := k + 1;
      }
    }

    /** `publish_cam_message`. */
    method PublishCamMessage(v: Vehicle)
      modifies this
      ensures outbox == old(outbox) + [Publish(StatusTopic(v.vehicleId), CamJson(v))]
      ensures vehicles == old(vehicles) && jobs == old(jobs)
    {
      outbox := outbox + [Publish(StatusTopic(v.vehicleId), CamJson(v))];
    }

    /** `create_emergency_event`: builds a DENM from the draws and broadcasts it. */
    method CreateEmergencyEvent(eventType: string, uuid: string, now: string, position: Json,
                                severityPick: nat, durationPick: nat, radiusPick: nat)
      modifies this
      ensures outbox == old(outbox) + [Publish(EmergencyTopic,
        DenmJson(NewDenm(eventType, uuid, now, position, severityPick, durationPick, radiusPick)))]
      ensures vehicles == old(vehicles) && jobs == old(jobs)
    {
      var denm := NewDenm(eventType, uuid, now, position, severityPick, durationPick, radiusPick);
      outbox := outbox + [Publish(EmergencyTopic, DenmJson(denm))];
    }

    /** One light's turn in `simulate_infrastructure`: maybe change state, then publish its V2I message. */
    method PublishInfrastructure(tl: TrafficLight, change: bool, statePick: nat, now: string, remainingPick: nat)
      returns (next: TrafficLight)
      modifies this
      ensures next == StepLight(tl, change, statePick)
      ensures outbox == old(outbox) + [Publish(InfrastructureTopic(tl.id), V2iJson(NewV2i(next, now, remainingPick)))]
      ensures vehicles == old(vehicles) && jobs == old(jobs)
    {
      next := StepLight(tl, change, statePick);
      outbox := outbox + [Publish(InfrastructureTopic(next.id), V2iJson(NewV2i(next, now, remainingPick)))];
    }
  }
}
