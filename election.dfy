/**
 * The Bully election node of `eleicao.py` (class `Coordinator`).
 *
 * Nodes are ranked by their election PORT, not by their node id. Sending a
 * message means opening a connection to a local port and writing the text;
 * such a send "succeeds" as soon as connect and send do, and no reply is ever
 * read. The network is therefore a reachability oracle: a send to port `p`
 * succeeds exactly when `p` is in the `reachable` set the caller supplies.
 */
module Election {
  import opened Wrappers
  import opened Lists
  import opened PythonText
  import opened Network

  const CoordinatorTag: string := "COORDINATOR"

  /** `[p for p in all_ports if p > port]` */
  function HigherPorts(allPorts: seq<int>, port: int): seq<int>
  {
    Filter(allPorts, Above(port))
  }

  /** `[p for p in all_ports if p < port]` */
  function LowerPorts(allPorts: seq<int>, port: int): seq<int>
  {
    Filter(allPorts, Below(port))
  }

  /** Python truthiness of `self.coordinator`: both None and port 0 are false. */
  predicate Truthy(coordinator: Option<int>)
  {
    coordinator.Some? && coordinator.value != 0
  }

  /** A run declares victory when none of the strictly higher ports accepted its ELECTION message. */
  predicate WinsElection(port: int, allPorts: seq<int>, reachable: set<int>)
  {
    Filter(HigherPorts(allPorts, port), Within(reachable)) == []
  }

  /** Winning means exactly: every strictly higher port of the roster is unreachable (vacuously so when there is none). */
  lemma WinsElectionIff(port: int, allPorts: seq<int>, reachable: set<int>)
    ensures WinsElection(port, allPorts, reachable)
        <==> forall q :: q in allPorts && q > port ==> q !in reachable
  {
    var responders := Filter(HigherPorts(allPorts, port), Within(reachable));
    FilterMembers(allPorts, Above(port));
    FilterMembers(HigherPorts(allPorts, port), Within(reachable));
    if !WinsElection(port, allPorts, reachable) {
      assert responders[0] in responders;
    }
  }

  /** The node state `start_election` reads and writes, and what it sent. */
  datatype Round = Round(coordinator: Option<int>, electionInProgress: bool, sent: seq<Envelope>)

  /**
   * One call of `start_election` on a node at `port` whose fields hold
   * `coordinator` and `inProgress`.
   */
  function StartElectionSpec(coordinator: Option<int>, inProgress: bool, port: int,
                             allPorts: seq<int>, reachable: set<int>): (r: Round)
    ensures inProgress ==> r == Round(coordinator, true, [])
    ensures !inProgress ==> !r.electionInProgress
    ensures !inProgress ==> Notify(HigherPorts(allPorts, port), ElectionCall) <= r.sent
    ensures !inProgress && WinsElection(port, allPorts, reachable) ==> r.coordinator == Some(port)
    ensures !WinsElection(port, allPorts, reachable) ==> r.coordinator == coordinator
    ensures forall e :: e in r.sent ==>
              e.to in allPorts
              && ((e.body == ElectionCall && e.to > port) || (e.body == Victory(port) && e.to < port))
  {
    FilterMembers(allPorts, Above(port));
    FilterMembers(allPorts, Below(port));
    NotifyMembers(HigherPorts(allPorts, port), ElectionCall);
    NotifyMembers(LowerPorts(allPorts, port), Victory(port));
    if inProgress then Round(coordinator, true, [])
    else
      var calls := Notify(HigherPorts(allPorts, port), ElectionCall);
      if WinsElection(port, allPorts, reachable) then
        Round(Some(port), false, calls + Notify(LowerPorts(allPorts, port), Victory(port)))
      else
        Round(coordinator, false, calls)
  }

  /** What the listener made of one incoming message. */
  datatype PeerMessage = ElectionMsg | CoordinatorMsg(announced: Option<int>) | PingMsg | OtherMsg

  /** `int(data.split()[1])`; None where Python raises (no second word, or not a number). */
  function AnnouncedPort(data: string): Option<int>
  {
    var words := Words(data);
    if |words| < 2 then None else ParseInt(words[1])
  }

  /** The branch `listen_for_messages` takes on `data`. */
  function ClassifyPeerMessage(data: string): (m: PeerMessage)
    ensures m.ElectionMsg? <==> data == Wire(ElectionCall)
    ensures m.CoordinatorMsg? <==> CoordinatorTag <= data
    ensures m.PingMsg? <==> data == Wire(Ping)
  {
    if data == Wire(ElectionCall) then ElectionMsg
    else if CoordinatorTag <= data then CoordinatorMsg(AnnouncedPort(data))
    else if data == Wire(Ping) then PingMsg
    else OtherMsg
  }

  /** The receiver of a victory notice reads back exactly the winner's port. */
  lemma AnnouncementUnderstood(port: int)
    ensures ClassifyPeerMessage(Wire(Victory(port))) == CoordinatorMsg(Some(port))
  {
    var data := Wire(Victory(port));
    var digits := Str(port);
    assert data == CoordinatorTag + " " + digits;
    StrNoSpace(port);
    AnnouncedDigits(digits);
    ParseIntOfStr(port);
    assert data[0] != Wire(ElectionCall)[0];
  }

  /** In `COORDINATOR <digits>` the second word is the digits, whatever they are. */
  lemma AnnouncedDigits(digits: string)
    requires digits != [] && NoSpace(digits)
    ensures AnnouncedPort(CoordinatorTag + " " + digits) == ParseInt(digits)
  {
    WordsCons(CoordinatorTag, digits);
    WordsSingle(digits);
  }

  /** Every lower peer that gets a winner's notice adopts the winner's port. */
  lemma VictoryNoticesAdopted(coordinator: Option<int>, port: int, allPorts: seq<int>, reachable: set<int>)
    ensures var r := StartElectionSpec(coordinator, false, port, allPorts, reachable);
            forall e :: e in r.sent && e.to < port ==> ClassifyPeerMessage(Wire(e.body)) == CoordinatorMsg(Some(port))
  {
    AnnouncementUnderstood(port);
  }

  /**
   * A consistent three-node example: each node's own port is its roster
   * entry in 6001, 6002, 6003, and the top node is up. The top node wins and
   * announces itself to both others, who adopt it; the two lower nodes
   * always stand down.
   */
  lemma ThreeNodeRoster(reachable: set<int>, coordinator: Option<int>)
    requires 6003 in reachable
    ensures var r := StartElectionSpec(coordinator, false, 6003, [6001, 6002, 6003], reachable);
            && r.coordinator == Some(6003)
            && r.sent == [Envelope(6001, Victory(6003)), Envelope(6002, Victory(6003))]
            && ClassifyPeerMessage(Wire(Victory(6003))) == CoordinatorMsg(Some(6003))
    ensures !WinsElection(6001, [6001, 6002, 6003], reachable)
    ensures !WinsElection(6002, [6001, 6002, 6003], reachable)
  {
    var roster := [6001, 6002, 6003];
    FilterEmpty(roster, Above(6003));
    assert roster == [6001, 6002] + [6003];
    FilterAll([6001, 6002], Below(6003));
    FilterEmpty([6003], Below(6003));
    FilterAppend([6001, 6002], [6003], Below(6003));
    assert LowerPorts(roster, 6003) == [6001, 6002];
    assert WinsElection(6003, roster, reachable);
    var notices := Notify([6001, 6002], Victory(6003));
    assert notices == [Envelope(6001, Victory(6003)), Envelope(6002, Victory(6003))];
    WinsElectionIff(6001, roster, reachable);
    WinsElectionIff(6002, roster, reachable);
    AnnouncementUnderstood(6003);
  }

  /**
   * The start-up block of eleicao.py as written: node 3 takes port
   * `5000 + 3`, below every roster port 6001, 6002, 6003, on which no node of
   * that block listens. Node 3 challenges all three, hears nothing back, and
   * becomes coordinator without notifying anyone.
   */
  lemma MainRosterAsWritten(reachable: set<int>, coordinator: Option<int>)
    requires 6001 !in reachable && 6002 !in reachable && 6003 !in reachable
    ensures var r := StartElectionSpec(coordinator, false, 5003, [6001, 6002, 6003], reachable);
            && r.coordinator == Some(5003)
            && r.sent == [Envelope(6001, ElectionCall), Envelope(6002, ElectionCall), Envelope(6003, ElectionCall)]
  {
    var roster := [6001, 6002, 6003];
    FilterAll(roster, Above(5003));
    FilterEmpty(roster, Below(5003));
    FilterEmpty(roster, Within(reachable));
    assert WinsElection(5003, roster, reachable);
    assert Notify(roster, ElectionCall)
        == [Envelope(6001, ElectionCall), Envelope(6002, ElectionCall), Envelope(6003, ElectionCall)];
  }

  /**
   * The loop of `start_election` over the higher ports: one ELECTION send
   * each, in order; `responses` keeps the ports whose send went through.
   */
  method ChallengeHigher(higher: seq<int>, reachable: set<int>) returns (sent: seq<Envelope>, responses: seq<int>)
    ensures sent == Notify(higher, ElectionCall)
    ensures responses == Filter(higher, Within(reachable))
  {
    sent := [];
    responses := [];
    for i := 0 to |higher|
      invariant sent == Notify(higher[..i], ElectionCall)
      invariant responses == Filter(higher[..i], Within(reachable))
    {
      // send_election_message: succeeds when connect and send do
      var target := higher[i];
      sent := sent + [Envelope(target, ElectionCall)];
      if target in reachable {
        responses := responses + [target];
      }
      assert higher[..i + 1] == higher[..i] + [target];
      FilterSnoc(higher[..i], target, Within(reachable));
      NotifySnoc(higher[..i], target, ElectionCall);
    }
    assert higher[..|higher|] == higher;
  }

  /** What became of the connection a message arrived on. */
  datatype ListenerOutcome =
    | Answered(reply: string)  // a reply was written, then the connection closed
    | Closed                   // closed without a reply
    | ListenerStopped          // an exception escaped and ended the listener loop

  /** `Coordinator` of eleicao.py. */
  class Coordinator {
    const nodeId: int
    const port: int
    const allPorts: seq<int>
    var coordinator: Option<int>
    var electionInProgress: bool

    constructor (nodeId: int, port: int, allPorts: seq<int>)
      ensures this.nodeId == nodeId && this.port == port && this.allPorts == allPorts
      ensures coordinator == None && !electionInProgress
    {
      this.nodeId := nodeId;
      this.port := port;
      this.allPorts := allPorts;
      coordinator := None;
      electionInProgress := false;
    }

    /** Bully election: challenge every higher port, and win unless one of them took the challenge. */
    method StartElection(reachable: set<int>) returns (sent: seq<Envelope>)
      modifies this
      ensures Round(coordinator, electionInProgress, sent)
           == StartElectionSpec(old(coordinator), old(electionInProgress), port, allPorts, reachable)
    {
      if electionInProgress {
        return [];
      }
      electionInProgress := true;
      var higher := HigherPorts(allPorts, port);
      sent := [];
      if higher == [] {
        sent := DeclareVictory();
      } else {
        var responses;
        sent, responses := ChallengeHigher(higher, reachable);
        // the three-second settling window is not modelled: the outcome depends only on `responses`
        if responses == [] {
          var notices := DeclareVictory();
          sent := sent + notices;
        }
      }
      electionInProgress := false;
    }

    /** Become coordinator and notify every strictly lower port; failed notices are ignored. */
    method DeclareVictory() returns (sent: seq<Envelope>)
      modifies this
      ensures coordinator == Some(port) && electionInProgress == old(electionInProgress)
      ensures sent == Notify(LowerPorts(allPorts, port), Victory(port))
    {
      coordinator := Some(port);
      var lower := LowerPorts(allPorts, port);
      var notice := Victory(port);
      sent := [];
      for i := 0 to |lower|
        invariant sent == Notify(lower[..i], notice)
        invariant coordinator == Some(port) && electionInProgress == old(electionInProgress)
      {
        sent := sent + [Envelope(lower[i], notice)];
        assert lower[..i + 1] == lower[..i] + [lower[i]];
        NotifySnoc(lower[..i], lower[i], notice);
      }
      assert lower[..|lower|] == lower;
    }

    /**
     * One pass of `monitor_coordinator` after its sleep: probe a coordinator
     * that is set and is not this node, and start an election when the probe
     * (a PING send) fails.
     */
    method MonitorCoordinator(reachable: set<int>) returns (electionStarted: bool, sent: seq<Envelope>)
      modifies this
      ensures var probe := Truthy(old(coordinator)) && old(coordinator).value != port;
              electionStarted <==> probe && old(coordinator).value !in reachable
      ensures !Truthy(old(coordinator)) || old(coordinator).value == port ==>
                sent == [] && coordinator == old(coordinator) && electionInProgress == old(electionInProgress)
      ensures Truthy(old(coordinator)) && old(coordinator).value != port && !electionStarted ==>
                sent == [Envelope(old(coordinator).value, Ping)]
                && coordinator == old(coordinator) && electionInProgress == old(electionInProgress)
      ensures electionStarted ==>
                var r := StartElectionSpec(old(coordinator), old(electionInProgress), port, allPorts, reachable);
                sent == [Envelope(old(coordinator).value, Ping)] + r.sent
                && coordinator == r.coordinator && electionInProgress == r.electionInProgress
    {
      electionStarted := false;
      sent := [];
      if Truthy(coordinator) && coordinator.value != port {
        // is_node_alive: a PING send that succeeds when connect and send do
        var target := coordinator.value;
        sent := [Envelope(target, Ping)];
        if target !in reachable {
          electionStarted := true;
          var calls := StartElection(reachable);
          sent := sent + calls;
        }
      }
    }

    /** One message taken by `listen_for_messages`. */
    method HandleMessage(data: string, reachable: set<int>) returns (outcome: ListenerOutcome, sent: seq<Envelope>)
      modifies this
      ensures match ClassifyPeerMessage(data)
        case ElectionMsg =>
          outcome == Answered("ALIVE")
          && Round(coordinator, electionInProgress, sent)
             == StartElectionSpec(old(coordinator), old(electionInProgress), port, allPorts, reachable)
        case CoordinatorMsg(Some(p)) =>
          outcome == Closed && sent == [] && coordinator == Some(p) && electionInProgress == old(electionInProgress)
        case CoordinatorMsg(None) =>
          outcome == ListenerStopped && sent == []
          && coordinator == old(coordinator) && electionInProgress == old(electionInProgress)
        case PingMsg =>
          outcome == Answered("PONG") && sent == []
          && coordinator == old(coordinator) && electionInProgress == old(electionInProgress)
        case OtherMsg =>
          outcome == Closed && sent == []
          && coordinator == old(coordinator) && electionInProgress == old(electionInProgress)
    {
      sent := [];
      match ClassifyPeerMessage(data)
      case ElectionMsg =>
        // ALIVE goes out before this node runs its own election
        outcome := Answered("ALIVE");
        sent := StartElection(reachable);
      case CoordinatorMsg(announced) =>
        if announced.Some? {
          coordinator := announced;
          outcome := Closed;
        } else {
          outcome := ListenerStopped;
        }
      case PingMsg =>
        outcome := Answered("PONG");
      case OtherMsg =>
        outcome := Closed;
    }
  }
}
