/**
 * The stand-alone demo system of `sysd.py`: a sensor that answers `GET_DATA`
 * with a simulated temperature and a bare event counter as its clock, and a
 * simplified Bully election that only asks the higher nodes whether they are
 * alive.
 *
 * A node `n` listens on port `PortBase + n`. The election's network is a
 * reply oracle: `replies[n]` is what node `n` answered to `ELEICAO`, and a
 * node missing from the map is one whose connect, send or receive raised.
 */
module SimpleSystem {
  import opened Wrappers
  import opened Lists
  import opened PythonText

  const PortBase: int := 5000

  newtype Byte = x: int | 0 <= x < 256

  /** `b"OK"` */
  const OkReply: seq<Byte> := [79, 75]

  /** Node `n` answered exactly `b"OK"`; an exception or any other reply does not count. */
  predicate RepliedOk(replies: map<int, seq<Byte>>, n: int)
  {
    n in replies && replies[n] == OkReply
  }

  /** `[n for n in self.nos if n > self.id]` */
  function NodesAbove(nodes: seq<int>, id: int): seq<int>
  {
    Filter(nodes, Above(id))
  }

  /** The nodes an election contacts are exactly the roster ids strictly above the node's own. */
  lemma NodesAboveMembers(nodes: seq<int>, id: int)
    ensures forall n :: n in NodesAbove(nodes, id) <==> n in nodes && n > id
  {
    FilterMembers(nodes, Above(id));
  }

  /** A node that no roster member outranks has nobody to ask. */
  lemma NoneAboveTop(nodes: seq<int>, id: int)
    requires forall i :: 0 <= i < |nodes| ==> nodes[i] <= id
    ensures NodesAbove(nodes, id) == []
  {
    FilterEmpty(nodes, Above(id));
  }

  /** With the roster `[1, 2, 3]` used by the menu, node 3 has nobody above it. */
  lemma RosterTop()
    ensures NodesAbove([1, 2, 3], 3) == []
  {
    NoneAboveTop([1, 2, 3], 3);
  }

  /** `EleicaoBully`: a node id and the ids of the nodes it knows. */
  class BullyElection {
    const id: int
    const nodes: seq<int>

    constructor (nodeId: int, knownNodes: seq<int>)
      ensures id == nodeId && nodes == knownNodes
    {
      id := nodeId;
      nodes := knownNodes;
    }

    /**
     * `iniciar_eleicao`: asks the higher nodes in roster order and gives up
     * at the first one that answers `b"OK"`. `won` is the returned boolean and
     * `contacted` lists the nodes it tried to reach, in order.
     */
    method StartElection(replies: map<int, seq<Byte>>) returns (won: bool, contacted: seq<int>)
      ensures NodesAbove(nodes, id) == [] ==> won && contacted == []
      ensures won <==> forall k :: 0 <= k < |NodesAbove(nodes, id)| ==> !RepliedOk(replies, NodesAbove(nodes, id)[k])
      ensures contacted <= NodesAbove(nodes, id)
      ensures won ==> contacted == NodesAbove(nodes, id)
      ensures !won ==> contacted != [] && RepliedOk(replies, contacted[|contacted| - 1])
      ensures forall k :: 0 <= k < |contacted| - 1 ==> !RepliedOk(replies, contacted[k])
    {
      won, contacted := AskInOrder(NodesAbove(nodes, id), replies);
    }
  }

  /**
   * The loop of `iniciar_eleicao` over the higher nodes: send `ELEICAO` to
   * each in turn and stop at the first exact `b"OK"`. With nobody to ask the
   * node wins at once.
   */
  method AskInOrder(higher: seq<int>, replies: map<int, seq<Byte>>) returns (won: bool, contacted: seq<int>)
    ensures higher == [] ==> won && contacted == []
    ensures won <==> forall k :: 0 <= k < |higher| ==> !RepliedOk(replies, higher[k])
    ensures contacted <= higher
    ensures won ==> contacted == higher
    ensures !won ==> contacted != [] && RepliedOk(replies, contacted[|contacted| - 1])
    ensures forall k :: 0 <= k < |contacted| - 1 ==> !RepliedOk(replies, contacted[k])
  {
    if higher == [] {
      return true, [];
    }
    contacted := [];
    var i := 0;
    while i < |higher|
      invariant 0 <= i <= |higher|
      invariant contacted == higher[..i]
      invariant forall k :: 0 <= k < i ==> !RepliedOk(replies, higher[k])
    {
      contacted := contacted + [higher[i]];
      if RepliedOk(replies, higher[i]) {
        assert contacted == higher[..i + 1];
        return false, contacted;
      }
      i := i + 1;
    }
    assert contacted == higher;
    return true, contacted;
  }

  // ------------------------------------------------------------ the sensor

  const GetDataRequest: string := "GET_DATA"

  /** `f"Sensor {id}: Temp={temp}°C (Clock: {clock})"` */
  function DataReply(id: int, temp: int, clock: int): string
  {
    "Sensor " + Str(id) + ": Temp=" + Str(temp) + "°C (Clock: " + Str(clock) + ")"
  }

  /** How many requests of a served sequence are exactly `GET_DATA`. */
  function GetDataCount(requests: seq<string>): (n: nat)
    ensures n <= |requests|
    ensures n == 0 <==> GetDataRequest !in requests
  {
    if requests == [] then 0
    else GetDataCount(requests[..|requests| - 1])
         + (if requests[|requests| - 1] == GetDataRequest then 1 else 0)
  }

  /** Counting is additive over consecutive batches of requests. */
  lemma {:induction false} GetDataCountAppend(a: seq<string>, b: seq<string>)
    ensures GetDataCount(a + b) == GetDataCount(a) + GetDataCount(b)
    decreases |b|
  {
    if b == [] {
      assert a + b == a;
    } else {
      var last := |b| - 1;
      assert (a + b)[..|a + b| - 1] == a + b[..last];
      GetDataCountAppend(a, b[..last]);
    }
  }

  /** `Sensor` of `sysd.py`: its clock is a plain counter of `GET_DATA` requests. */
  class SimpleSensor {
    const id: int
    const port: int
    var clock: nat
    var coordinator: bool

    constructor (sensorId: int)
      ensures id == sensorId && port == PortBase + sensorId
      ensures clock == 0 && !coordinator
    {
      id := sensorId;
      port := PortBase + sensorId;
      clock := 0;
      coordinator := false;
    }

    /**
     * One accepted connection of `iniciar`: `request` is the decoded text
     * received and `temp` the simulated reading, drawn from 20 to 35.
     * `GET_DATA` advances the clock by one and is answered; anything else
     * gets no reply.
     */
    method HandleRequest(request: string, temp: int) returns (reply: Option<string>)
      requires 20 <= temp <= 35
      modifies this`clock
      ensures request == GetDataRequest ==> clock == old(clock) + 1 && reply == Some(DataReply(id, temp, clock))
      ensures request != GetDataRequest ==> clock == old(clock) && reply == None
    {
      if request == GetDataRequest {
        clock := clock + 1;
        reply := Some(DataReply(id, temp, clock));
      } else {
        reply := None;
      }
    }

    /**
     * The accept loop of `iniciar` over a finite run of requests, with the
     * reading drawn for each: the clock advances by exactly the number of
     * `GET_DATA` requests, and each of them is answered.
     */
    method Serve(requests: seq<string>, temps: seq<int>) returns (answered: nat)
      requires |temps| == |requests|
      requires forall i :: 0 <= i < |temps| ==> 20 <= temps[i] <= 35
      modifies this`clock
      ensures clock == old(clock) + GetDataCount(requests)
      ensures answered == GetDataCount(requests)
    {
      answered := 0;
      var i := 0;
      while i < |requests|
        invariant 0 <= i <= |requests|
        invariant clock == old(clock) + GetDataCount(requests[..i])
        invariant answered == GetDataCount(requests[..i])
      {
        var reply := HandleRequest(requests[i], temps[i]);
        if reply.Some? {
          answered := answered + 1;
        }
        assert requests[..i + 1] == requests[..i] + [requests[i]];
        GetDataCountAppend(requests[..i], [requests[i]]);
        i := i + 1;
      }
      assert requests[..i] == requests;
    }
  }
}
