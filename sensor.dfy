/**
 * The weather sensor node of `sensor.py`: its request dispatcher, which ticks
 * the node's Lamport clock once per request, the coordinator's health check
 * of the other sensors, and the follower's check of the known coordinator.
 *
 * Probes are oracles: `replies` gives the `status` field of each peer's
 * heartbeat answer, and `reachable` the ports a connection succeeds to.
 */
module SensorNode {
  import opened Wrappers
  import opened Lists
  import opened PythonText
  import opened Network
  import opened Lamport
  import Election

  /** One weather reading; it is carried along and never inspected. */
  datatype Reading = Reading(temperature: real, humidity: real, pressure: real, lastUpdated: real)

  /** The branch `process_message` takes. */
  datatype Request =
    | TimestampReq(field: string)  // the text between the first and second colon
    | GetData
    | HeartbeatReq
    | AlertReq(text: string)       // everything after the first colon
    | Unrecognised

  const TimestampPrefix: string := "TIMESTAMP:"
  const AlertPrefix: string := "ALERT:"

  function ClassifyRequest(raw: string): (r: Request)
    ensures r.TimestampReq? <==> TimestampPrefix <= raw
    ensures r.TimestampReq? ==>
              && TimestampPrefix + r.field <= raw
              && ':' !in r.field
              && (|raw| == |TimestampPrefix| + |r.field| || raw[|TimestampPrefix| + |r.field|] == ':')
    ensures r.GetData? <==> raw == "GET_DATA"
    ensures r.HeartbeatReq? <==> raw == "HEARTBEAT"
    ensures r.AlertReq? <==> AlertPrefix <= raw
    ensures r.AlertReq? ==> raw == AlertPrefix + r.text
  {
    if TimestampPrefix <= raw then
      var rest := raw[|TimestampPrefix|..];
      assert raw == "TIMESTAMP" + [':'] + rest;
      assert raw[0] != AlertPrefix[0];
      SplitCons("TIMESTAMP", ':', rest);
      TimestampReq(Split(raw, ':')[1])
    else if raw == "GET_DATA" then
      assert raw[0] != AlertPrefix[0];
      GetData
    else if raw == "HEARTBEAT" then
      assert raw[0] != AlertPrefix[0];
      HeartbeatReq
    else if AlertPrefix <= raw then
      var rest := raw[|AlertPrefix|..];
      assert raw == "ALERT" + [':'] + rest;
      SplitFirstCons("ALERT", ':', rest);
      AlertReq(SplitFirst(raw, ':').1)
    else Unrecognised
  }

  /** The timestamp field of `TIMESTAMP:<t>` is `t`, and so it is when a second colon and more text follow. */
  lemma TimestampField(t: string, tail: string)
    requires ':' !in t
    ensures ClassifyRequest(TimestampPrefix + t) == TimestampReq(t)
    ensures ClassifyRequest(TimestampPrefix + t + [':'] + tail) == TimestampReq(t)
  {
    assert TimestampPrefix + t == "TIMESTAMP" + [':'] + t;
    SplitCons("TIMESTAMP", ':', t);
    assert TimestampPrefix + t + [':'] + tail == "TIMESTAMP" + [':'] + (t + [':'] + tail);
    SplitCons("TIMESTAMP", ':', t + [':'] + tail);
    SplitCons(t, ':', tail);
  }

  /** An alert's text is everything after `ALERT:`, colons included. */
  lemma AlertText(text: string)
    ensures ClassifyRequest(AlertPrefix + text) == AlertReq(text)
  {
    var raw := AlertPrefix + text;
    assert AlertPrefix <= raw;
    assert raw[0] != TimestampPrefix[0];
    assert raw != "GET_DATA" && raw != "HEARTBEAT";
  }

  /** The answer `process_message` returns (serialised as JSON by the caller). */
  datatype Response =
    | TimestampUpdated
    | DataReport(sensorId: int, data: Reading, timestamp: nat,
                 isCoordinator: Option<bool>, coordinatorPort: Option<int>)
    | Alive(timestamp: nat)
    | AlertReceived
    | InvalidRequest

  /** `process_message` either returns a response or raises (an unparsable timestamp). */
  datatype Outcome = Reply(response: Response) | Raised

  /**
   * What the election object answers when asked whether this node is the
   * coordinator and which port is; the asked-for methods are not defined on
   * the election class, so the answers are inputs.
   */
  datatype CoordinatorView = CoordinatorView(isCoordinator: bool, coordinatorPort: Option<int>)

  /** A heartbeat answer whose `status` is `"ALIVE"`; a port absent from `replies` did not answer. */
  function AnswersAlive(replies: map<int, Option<string>>): int -> bool
  {
    p => p in replies && replies[p] == Some("ALIVE")
  }

  /** The sensors the health check probes: every roster port but the node's own data port. */
  function Peers(nodes: seq<int>, dataPort: int): seq<int>
  {
    Filter(nodes, Except(dataPort))
  }

  const FailureAlert: string := "AVISO: Múltiplas falhas detectadas"

  /** With a three-port roster the alert fires exactly when no peer answered ALIVE. */
  lemma ThreeNodeAlert(nodes: seq<int>, dataPort: int, replies: map<int, Option<string>>)
    requires |nodes| == 3
    ensures var active := Filter(Peers(nodes, dataPort), AnswersAlive(replies));
            |active| < |nodes| - 2 <==> forall p :: p in nodes && p != dataPort ==> !AnswersAlive(replies)(p)
  {
    var active := Filter(Peers(nodes, dataPort), AnswersAlive(replies));
    FilterMembers(nodes, Except(dataPort));
    FilterMembers(Peers(nodes, dataPort), AnswersAlive(replies));
    if active != [] {
      assert active[0] in active;
    }
  }

  /** The outcome of one `verify_coordinator` call. */
  datatype VerifyOutcome =
    | Skipped              // no known coordinator
    | CoordinatorAnswered  // the probe went through
    | ElectionStarted      // the probe failed; the election object ran an election
    | MonitorStopped       // the probe failed and there is no election object to call

  /** `Sensor` of sensor.py. */
  class Sensor {
    const id: int
    const dataPort: int
    const electionPort: int
    const nodes: seq<int>
    const clock: LamportClock
    var data: Reading
    /** The election object (`self.coordinator` in sensor.py); null until the election service starts. */
    var election: Election.Coordinator?
    /** Never assigned anything but None. */
    var knownCoordinator: Option<int>

    constructor (sensorId: int, port: int, initial: Reading)
      ensures id == sensorId && dataPort == port && electionPort == 5000 + sensorId
      ensures nodes == [5001, 5002, 5003] && data == initial
      ensures election == null && knownCoordinator == None
      ensures fresh(clock) && clock.time == 0 && clock.pendingEvents == []
    {
      id := sensorId;
      dataPort := port;
      electionPort := 5000 + sensorId;
      clock := new LamportClock();
      nodes := [5001, 5002, 5003];
      data := initial;
      election := null;
      knownCoordinator := None;
    }

    /** `start_election_service`, without the thread: create the election object on the election port. */
    method StartElectionService(allPorts: seq<int>)
      modifies this`election
      ensures election != null && fresh(election)
      ensures election.nodeId == id && election.port == electionPort && election.allPorts == allPorts
      ensures election.coordinator == None && !election.electionInProgress
    {
      election := new Election.Coordinator(id, electionPort, allPorts);
    }

    /** `is_current_coordinator`: None (JSON null) while there is no election object. */
    function IsCurrentCoordinator(view: CoordinatorView): (r: Option<bool>)
      reads this
      ensures r == None <==> election == null
    {
      if election == null then None else Some(view.isCoordinator)
    }

    /** `get_coordinator_port`: None while there is no election object. */
    function GetCoordinatorPort(view: CoordinatorView): (r: Option<int>)
      reads this
      ensures election == null ==> r == None
      ensures election != null ==> r == view.coordinatorPort
    {
      if election == null then None else view.coordinatorPort
    }

    /** One request: tick the clock, then dispatch on the request text. */
    method ProcessMessage(raw: string, view: CoordinatorView) returns (outcome: Outcome)
      modifies clock
      ensures old(clock.pendingEvents) + [Local(old(clock.time) + 1)] <= clock.pendingEvents
      ensures match ClassifyRequest(raw)
        case TimestampReq(field) =>
          (match ParseInt(field)
           case Some(received) =>
             && outcome == Reply(TimestampUpdated)
             && clock.time == Max(old(clock.time) + 1, received) + 1
             && clock.State() == Step(Step(old(clock.State()), Increment), Update(received))
           case None =>
             && outcome == Raised
             && clock.State() == Step(old(clock.State()), Increment))
        case GetData =>
          && outcome == Reply(DataReport(id, data, old(clock.time) + 1,
                                         IsCurrentCoordinator(view), GetCoordinatorPort(view)))
          && clock.State() == Step(old(clock.State()), Increment)
        case HeartbeatReq =>
          && outcome == Reply(Alive(old(clock.time) + 1))
          && clock.State() == Step(old(clock.State()), Increment)
        case AlertReq(_) =>
          && outcome == Reply(AlertReceived)
          && clock.State() == Step(old(clock.State()), Increment)
        case Unrecognised =>
          && outcome == Reply(InvalidRequest)
          && clock.State() == Step(old(clock.State()), Increment)
    {
      var _ := clock.Increment();
      match ClassifyRequest(raw)
      case TimestampReq(field) =>
        var parsed := ParseInt(field);
        if parsed.Some? {
          var _ := clock.Update(parsed.value);
          outcome := Reply(TimestampUpdated);
        } else {
          outcome := Raised;
        }
      case GetData =>
        outcome := Reply(DataReport(id, data, clock.GetTime(),
                                    IsCurrentCoordinator(view), GetCoordinatorPort(view)));
      case HeartbeatReq =>
        outcome := Reply(Alive(clock.GetTime()));
      case AlertReq(_) =>
        // the alert text is only logged
        outcome := Reply(AlertReceived);
      case Unrecognised =>
        outcome := Reply(InvalidRequest);
    }

    /**
     * The body of the `handle_data_requests` loop for one connection: empty
     * input is skipped without a tick, and an exception from
     * `process_message` is caught, so that connection gets no reply.
     */
    method HandleDataRequest(raw: string, view: CoordinatorView) returns (reply: Option<Response>)
      modifies clock
      ensures raw == [] ==> reply == None && clock.State() == old(clock.State())
      ensures raw != [] ==> clock.time > old(clock.time)
      ensures raw != [] && ClassifyRequest(raw).Unrecognised? ==>
                reply == Some(InvalidRequest) && clock.State() == Step(old(clock.State()), Increment)
      ensures reply == None <==>
                raw == [] || (ClassifyRequest(raw).TimestampReq? && ParseInt(ClassifyRequest(raw).field) == None)
      ensures raw != [] ==> match ClassifyRequest(raw)
        case TimestampReq(field) =>
          (match ParseInt(field)
           case Some(received) =>
             && reply == Some(TimestampUpdated)
             && clock.State() == Step(Step(old(clock.State()), Increment), Update(received))
           case None =>
             && reply == None
             && clock.State() == Step(old(clock.State()), Increment))
        case GetData =>
          && reply == Some(DataReport(id, data, old(clock.time) + 1,
                                      IsCurrentCoordinator(view), GetCoordinatorPort(view)))
          && clock.State() == Step(old(clock.State()), Increment)
        case HeartbeatReq =>
          && reply == Some(Alive(old(clock.time) + 1))
          && clock.State() == Step(old(clock.State()), Increment)
        case AlertReq(_) =>
          && reply == Some(AlertReceived)
          && clock.State() == Step(old(clock.State()), Increment)
        case Unrecognised =>
          && reply == Some(InvalidRequest)
          && clock.State() == Step(old(clock.State()), Increment)
    {
      if raw == [] {
        return None;
      }
      var outcome := ProcessMessage(raw, view);
      reply := if outcome.Reply? then Some(outcome.response) else None;
    }

    /**
     * `check_nodes_health`: probe every peer but itself with HEARTBEAT, count
     * the ALIVE answers, and broadcast an alert to the whole roster (itself
     * included) when fewer than `len(nodes) - 2` answered.
     */
    method CheckNodesHealth(replies: map<int, Option<string>>) returns (active: seq<int>, alerted: bool, sent: seq<Envelope>)
      ensures active == Filter(Peers(nodes, dataPort), AnswersAlive(replies))
      ensures forall p :: p in active ==> p in nodes && p != dataPort && AnswersAlive(replies)(p)
      ensures alerted <==> |active| < |nodes| - 2
      ensures forall e :: e in sent && e.body == Heartbeat ==> e.to in nodes && e.to != dataPort
      ensures sent == Notify(Peers(nodes, dataPort), Heartbeat)
                      + (if alerted then Notify(nodes, Alert(FailureAlert)) else [])
    {
      active := [];
      sent := [];
      for i := 0 to |nodes|
        invariant active == Filter(Filter(nodes[..i], Except(dataPort)), AnswersAlive(replies))
        invariant sent == Notify(Filter(nodes[..i], Except(dataPort)), Heartbeat)
      {
        var p := nodes[i];
        assert nodes[..i + 1] == nodes[..i] + [p];
        FilterSnoc(nodes[..i], p, Except(dataPort));
        assert Except(dataPort)(p) == (p != dataPort);
        assert AnswersAlive(replies)(p) == (p in replies && replies[p] == Some("ALIVE"));
        if p != dataPort {
          sent := sent + [Envelope(p, Heartbeat)];
          NotifySnoc(Filter(nodes[..i], Except(dataPort)), p, Heartbeat);
          if p in replies && replies[p] == Some("ALIVE") {
            active := active + [p];
          }
          FilterSnoc(Filter(nodes[..i], Except(dataPort)), p, AnswersAlive(replies));
        } else {
          assert Filter(nodes[..i + 1], Except(dataPort)) == Filter(nodes[..i], Except(dataPort));
        }
      }
      assert nodes[..|nodes|] == nodes;
      FilterMembers(nodes, Except(dataPort));
      FilterMembers(Peers(nodes, dataPort), AnswersAlive(replies));
      NotifyMembers(Peers(nodes, dataPort), Heartbeat);
      NotifyMembers(nodes, Alert(FailureAlert));
      alerted := |active| < |nodes| - 2;
      if alerted {
        var alerts := BroadcastAlert(FailureAlert);
        sent := sent + alerts;
      }
    }

    /** `broadcast_alert`: one ALERT send to every roster port; failures are ignored. */
    method BroadcastAlert(message: string) returns (sent: seq<Envelope>)
      ensures sent == Notify(nodes, Alert(message))
    {
      sent := [];
      for i := 0 to |nodes|
        invariant sent == Notify(nodes[..i], Alert(message))
      {
        assert nodes[..i + 1] == nodes[..i] + [nodes[i]];
        NotifySnoc(nodes[..i], nodes[i], Alert(message));
        sent := sent + [Envelope(nodes[i], Alert(message))];
      }
      assert nodes[..|nodes|] == nodes;
    }

    /**
     * `verify_coordinator`: with no known coordinator, return at once;
     * otherwise probe it, and on failure ask the election object to run an
     * election (which raises when there is no election object yet).
     */
    method VerifyCoordinator(reachable: set<int>) returns (outcome: VerifyOutcome, sent: seq<Envelope>)
      modifies election
      ensures !Election.Truthy(knownCoordinator) ==>
                outcome == Skipped && sent == [] && (election != null ==> unchanged(election))
      ensures Election.Truthy(knownCoordinator) && knownCoordinator.value in reachable ==>
                outcome == CoordinatorAnswered && sent == [Envelope(knownCoordinator.value, Heartbeat)]
                && (election != null ==> unchanged(election))
      ensures Election.Truthy(knownCoordinator) && knownCoordinator.value !in reachable && election == null ==>
                outcome == MonitorStopped && sent == [Envelope(knownCoordinator.value, Heartbeat)]
      ensures Election.Truthy(knownCoordinator) && knownCoordinator.value !in reachable && election != null ==>
                var r := Election.StartElectionSpec(old(election.coordinator), old(election.electionInProgress),
                                                    election.port, election.allPorts, reachable);
                && outcome == ElectionStarted
                && sent == [Envelope(knownCoordinator.value, Heartbeat)] + r.sent
                && election.coordinator == r.coordinator && election.electionInProgress == r.electionInProgress
    {
      sent := [];
      if !Election.Truthy(knownCoordinator) {
        return Skipped, sent;
      }
      var target := knownCoordinator.value;
      sent := [Envelope(target, Heartbeat)];
      if target in reachable {
        outcome := CoordinatorAnswered;
      } else if election == null {
        outcome := MonitorStopped;
      } else {
        var calls := election.StartElection(reachable);
        sent := sent + calls;
        outcome := ElectionStarted;
      }
    }
  }
}
