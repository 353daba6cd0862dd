/**
 * Topic strings: how the simulator formats them and how the dashboard
 * (app.py) and the simulator (v2x_simulator.py) route an inbound topic after
 * `topic.split('/')`. Only the second and fourth segments are looked at; an
 * index past the end raises `IndexError`, which the handlers absorb
 * (`Malformed`); a topic that passes every test without matching is
 * `Unrouted`. Both leave the state alone.
 */
module Topics {
  import opened Text

  datatype Route =
    | VehicleStatus(vehicleId: string)
    | VehicleEmergency(vehicleId: string)
    | Infrastructure(infraId: string)
    | EmergencyBroadcast
    | JobAssign(jobId: string)
    | JobResponse(jobId: string)
    | Unrouted
    | Malformed

  function StatusTopic(vehicleId: string): string { "v2x/vehicles/" + vehicleId + "/status" }
  function InfrastructureTopic(infraId: string): string { "v2x/infrastructure/" + infraId }
  const EmergencyTopic: string := "v2x/emergency/broadcast"
  function AssignTopic(jobId: string): string { "v2x/jobs/" + jobId + "/assign" }
  function ResponseTopic(jobId: string): string { "v2x/jobs/" + jobId + "/response" }

  /** Routing in `Car2XDashboard.on_mqtt_message`. */
  function DashboardRoute(topic: string): Route {
    var p := Split(topic, '/');
    if |p| < 2 then Malformed
    else if p[1] == "vehicles" then
      if |p| < 4 then Malformed
      else if p[3] == "status" then VehicleStatus(p[2])
      else if p[3] == "emergency" then VehicleEmergency(p[2])
      else Unrouted
    else if p[1] == "infrastructure" then
      if |p| < 3 then Malformed else Infrastructure(p[2])
    else if p[1] == "emergency" then EmergencyBroadcast
    else if p[1] == "jobs" then
      // every jobs topic is taken for a response: segment 3 is never read
      if |p| < 3 then Malformed else JobResponse(p[2])
    else Unrouted
  }

  /** Routing in `V2XSimulator.on_message`. */
  function SimulatorRoute(topic: string): Route {
    var p := Split(topic, '/');
    if |p| < 2 then Malformed
    else if p[1] == "vehicles" then
      if |p| < 4 then Malformed
      else if p[3] == "status" then VehicleStatus(p[2])
      else if p[3] == "emergency" then VehicleEmergency(p[2])
      else Unrouted
    else if p[1] == "jobs" then
      if |p| < 4 then Malformed
      else if p[3] == "assign" then JobAssign(p[2])
      else if p[3] == "response" then JobResponse(p[2])
      else Unrouted
    else Unrouted
  }

  lemma JoinThree(a: string, b: string, c: string)
    ensures Join([a, b, c], '/') == a + "/" + b + "/" + c
  {
    assert [a, b, c][1..] == [b, c];
    assert [b, c][1..] == [c];
    assert Join([b, c], '/') == b + ['/'] + c;
    assert Join([a, b, c], '/') == a + ['/'] + (b + ['/'] + c);
  }

  lemma JoinFour(a: string, b: string, c: string, e: string)
    ensures Join([a, b, c, e], '/') == a + "/" + b + "/" + c + "/" + e
  {
    assert [a, b, c, e][1..] == [b, c, e];
    JoinThree(b, c, e);
  }

  /** The segments of a topic built from delimiter-free pieces. */
  lemma SplitTopic(parts: seq<string>, topic: string)
    requires |parts| >= 1 && topic == Join(parts, '/')
    requires forall k :: 0 <= k < |parts| ==> '/' !in parts[k]
    ensures Split(topic, '/') == parts
  {
    SplitJoin(parts, '/');
  }

  /** Status topics route back to the vehicle they were formatted for, in both handlers. */
  lemma {:induction false} StatusTopicRoundTrip(vehicleId: string)
    requires '/' !in vehicleId
    ensures DashboardRoute(StatusTopic(vehicleId)) == VehicleStatus(vehicleId)
    ensures SimulatorRoute(StatusTopic(vehicleId)) == VehicleStatus(vehicleId)
  {
    var parts := ["v2x", "vehicles", vehicleId, "status"];
    JoinFour("v2x", "vehicles", vehicleId, "status");
    assert Join(parts, '/') == StatusTopic(vehicleId);
    SplitTopic(parts, StatusTopic(vehicleId));
  }

  /** Assignment topics route to the assignment branch of the simulator, with the same job id. */
  lemma {:induction false} AssignTopicRoundTrip(jobId: string)
    requires '/' !in jobId
    ensures SimulatorRoute(AssignTopic(jobId)) == JobAssign(jobId)
  {
    var parts := ["v2x", "jobs", jobId, "assign"];
    JoinFour("v2x", "jobs", jobId, "assign");
    assert Join(parts, '/') == AssignTopic(jobId);
    SplitTopic(parts, AssignTopic(jobId));
  }

  /** Response topics route to the response branch of both handlers, with the same job id. */
  lemma {:induction false} ResponseTopicRoundTrip(jobId: string)
    requires '/' !in jobId
    ensures SimulatorRoute(ResponseTopic(jobId)) == JobResponse(jobId)
    ensures DashboardRoute(ResponseTopic(jobId)) == JobResponse(jobId)
  {
    var parts := ["v2x", "jobs", jobId, "response"];
    JoinFour("v2x", "jobs", jobId, "response");
    assert Join(parts, '/') == ResponseTopic(jobId);
    SplitTopic(parts, ResponseTopic(jobId));
  }

  /** The dashboard never reads segment 3 of a jobs topic: an assignment is taken for a response. */
  lemma {:induction false} DashboardTakesAssignForResponse(jobId: string)
    requires '/' !in jobId
    ensures DashboardRoute(AssignTopic(jobId)) == JobResponse(jobId)
  {
    var parts := ["v2x", "jobs", jobId, "assign"];
    JoinFour("v2x", "jobs", jobId, "assign");
    assert Join(parts, '/') == AssignTopic(jobId);
    SplitTopic(parts, AssignTopic(jobId));
  }

  /** Infrastructure topics route to the infrastructure map of the dashboard. */
  lemma {:induction false} InfrastructureTopicRoundTrip(infraId: string)
    requires '/' !in infraId
    ensures DashboardRoute(InfrastructureTopic(infraId)) == Infrastructure(infraId)
  {
    var parts := ["v2x", "infrastructure", infraId];
    JoinThree("v2x", "infrastructure", infraId);
    assert Join(parts, '/') == InfrastructureTopic(infraId);
    SplitTopic(parts, InfrastructureTopic(infraId));
  }

  /** The broadcast topic reaches the dashboard's emergency list; the simulator ignores it. */
  lemma {:induction false} EmergencyTopicRoutes()
    ensures DashboardRoute(EmergencyTopic) == EmergencyBroadcast
    ensures SimulatorRoute(EmergencyTopic) == Unrouted
  {
    var parts := ["v2x", "emergency", "broadcast"];
    JoinThree("v2x", "emergency", "broadcast");
    assert Join(parts, '/') == EmergencyTopic;
    SplitTopic(parts, EmergencyTopic);
  }

  /** A vehicle topic with its fourth segment missing raises `IndexError` in both handlers. */
  lemma {:induction false} MissingSegmentIsMalformed(domain: string, vehicleId: string)
    requires '/' !in domain && '/' !in vehicleId
    ensures DashboardRoute(domain + "/vehicles/" + vehicleId) == Malformed
    ensures SimulatorRoute(domain + "/vehicles/" + vehicleId) == Malformed
  {
    var parts := [domain, "vehicles", vehicleId];
    JoinThree(domain, "vehicles", vehicleId);
    assert Join(parts, '/') == domain + "/vehicles/" + vehicleId;
    SplitTopic(parts, domain + "/vehicles/" + vehicleId);
  }

  /** A topic without any `/` has a single segment: `topic_parts[1]` raises in both handlers. */
  lemma {:induction false} SingleSegmentIsMalformed(topic: string)
    requires '/' !in topic
    ensures DashboardRoute(topic) == Malformed && SimulatorRoute(topic) == Malformed
  {
    SplitNoDelimiter(topic, '/');
  }

  /** The first segment (the domain) is never checked: replacing it does not change the route. */
  lemma {:induction false} DomainIgnored(a: string, b: string, rest: string)
    requires '/' !in a && '/' !in b
    ensures DashboardRoute(a + "/" + rest) == DashboardRoute(b + "/" + rest)
    ensures SimulatorRoute(a + "/" + rest) == SimulatorRoute(b + "/" + rest)
  {
    SplitAtFirst(a, '/', rest);
    SplitAtFirst(b, '/', rest);
    assert a + "/" + rest == a + ['/'] + rest;
    assert b + "/" + rest == b + ['/'] + rest;
  }
}
