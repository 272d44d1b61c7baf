/**
 * What a node hands to the network. Every send in the coordination code is
 * a short-lived connection carrying one text message to one local port; the
 * model records the attempt as an envelope holding the message, and whether
 * it reached anybody is decided by the caller's reachability oracle.
 */
module Network {
  import opened PythonText

  /** The messages nodes send each other. */
  datatype Message =
    | ElectionCall        // Bully challenge to a higher port
    | Victory(port: int)  // a winner's notice to a lower port
    | Ping                // coordinator liveness probe
    | Heartbeat           // sensor liveness probe
    | Alert(text: string) // sensor failure alert

  /** The text each message travels as. */
  function Wire(m: Message): string
  {
    match m
    case ElectionCall => "ELECTION"
    case Victory(port) => "COORDINATOR " + Str(port)
    case Ping => "PING"
    case Heartbeat => "HEARTBEAT"
    case Alert(text) => "ALERT:" + text
  }

  datatype Envelope = Envelope(to: int, body: Message)

  /** One send of `body` to each target, in target order. */
  function Notify(targets: seq<int>, body: Message): (sent: seq<Envelope>)
    ensures |sent| == |targets|
  {
    if targets == [] then [] else [Envelope(targets[0], body)] + Notify(targets[1..], body)
  }

  /** The i-th send goes to the i-th target. */
  lemma {:induction false} NotifyAt(targets: seq<int>, body: Message)
    ensures forall i :: 0 <= i < |targets| ==> Notify(targets, body)[i] == Envelope(targets[i], body)
  {
    if targets != [] {
      NotifyAt(targets[1..], body);
    }
  }

  /** Every send carries `body` to one of the targets. */
  lemma NotifyMembers(targets: seq<int>, body: Message)
    ensures forall e :: e in Notify(targets, body) ==> e.body == body && e.to in targets
  {
    NotifyAt(targets, body);
  }

  /** Notifying a list one target at a time builds the same sends as notifying it at once. */
  lemma {:induction false} NotifySnoc(targets: seq<int>, t: int, body: Message)
    ensures Notify(targets + [t], body) == Notify(targets, body) + [Envelope(t, body)]
  {
    if targets != [] {
      assert (targets + [t])[1..] == targets[1..] + [t];
      NotifySnoc(targets[1..], t, body);
    }
  }
}
