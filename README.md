# Distributed weather sensors: coordination core in Dafny

This project models the coordination logic of a small distributed weather
monitoring system written in Python. Three sensor nodes each run a Lamport
logical clock, answer data and heartbeat requests over TCP, watch each
other's health, and elect a coordinator with the Bully algorithm. A separate
stand-alone demo program has its own simplified sensor and Bully election.

The model has one module per source file, plus small support modules:

- `Lamport` (`lamport.dfy`) covers `algorit.py`. The class `LamportClock`
  has the fields `time` and `pendingEvents`, and each of its state-changing
  methods is tied to a step function `Step` on the clock's observable state. Lemmas about
  `Run` (a sequence of `Step`s) state what holds across any sequence of
  calls.
- `Election` (`election.dfy`) covers `eleicao.py`. The class `Coordinator`
  keeps `coordinator` and `electionInProgress` as fields. `StartElection`
  is proved equal to the pure function `StartElectionSpec`. The listener's
  branch choice is the pure `ClassifyPeerMessage`. Lemmas cover the round
  trip of a victory notice (`COORDINATOR <port>` written by the winner and
  read back by `int(data.split()[1])`), a consistent three-node example,
  and the start-up block as it is written.
- `SensorNode` (`sensor.dfy`) covers `sensor.py`. The class `Sensor` owns a
  `LamportClock`. `ProcessMessage` ticks it once and then dispatches on the
  request text. `CheckNodesHealth` probes the peers and decides whether to
  alert. `VerifyCoordinator` guards on the known coordinator.
- `SimpleSystem` (`simple_system.dfy`) covers `sysd.py`. `BullyElection`
  has the early-return election loop. `SimpleSensor` has the `GET_DATA`
  counter clock.
- `PythonText` (`python_text.dfy`) holds the Python built-ins the messages
  rely on: `str.isspace`, `strip`, `split()`, `split(sep)`, `split(sep, 1)`,
  `int(text)` and `str(number)`. `Lists` holds list comprehensions as
  `Filter`. `Network` holds the messages and the list of sends
  (`Envelope`). `Wrappers` holds `Option`.

The network is modelled by oracles the caller supplies. A set `reachable`
says which ports accept a connection and a send. A map says what each peer
replied. Every send an operation attempts is returned, in order, as an
`Envelope(to, body)`. A failed send never stops the operation making it.
Where the source reacts to a failure, the `reachable` set or the reply map
decides the outcome. `declare_victory` and `broadcast_alert` ignore failures
outright.

Behaviour of the code worth knowing:

- The health check alerts when fewer than `len(nodes) - 2` peers answer
  ALIVE (`sensor.py:144`). With three nodes, it alerts only when none does.
- `if self.coordinator` follows Python truthiness. Port `0` counts as
  "no coordinator", just like `None` (`Election.Truthy`).
- A `COORDINATOR` message that `int()` cannot read raises inside the
  listener loop. That exception ends the listener thread
  (`ListenerStopped`).
- `verify_coordinator` returns at once on every call, because
  `known_coordinator` is only ever assigned `None` (`sensor.py:18`).

## Model

| member | source | states |
|---|---|---|
| `Lamport.Step` | algorit.py:6-23 | Time never decreases. `increment` adds exactly 1. `update(r)` ends strictly above both the old time and `r`. `clear_events` empties the log. Every other call keeps the old log as a prefix. The getters change nothing. |
| `Lamport.RunAdvances` | algorit.py:6-23 | Over any sequence of calls, time never decreases. It rises by at least one per `increment`/`update`. |
| `Lamport.RunKeepsLog` | algorit.py:6-14 | With no `clear_events` in between, earlier log entries are unchanged. Exactly one entry is appended per `increment`/`update`. |
| `Lamport.RunWithoutTicks` | algorit.py:16-23 | Calls of `get_time`, `get_events` and `clear_events` alone leave the time exactly as it was. |
| `Lamport.LamportClock.constructor` | algorit.py:2-4 | A fresh clock has time 0 and an empty event log. |
| `Lamport.LamportClock.Increment` | algorit.py:6-9 | Time goes up by exactly 1 and is returned. The log gains exactly `('local', new_time)` at the end. |
| `Lamport.LamportClock.Update` | algorit.py:11-14 | Time becomes `max(old, r) + 1` and is returned. The log gains exactly `('received', r, new_time)` at the end. |
| `Lamport.LamportClock.ClearEvents` | algorit.py:22-23 | The log becomes empty and the time is unchanged. |
| `Lists.FilterMembers` | eleicao.py:48 | An element is in a list comprehension's result exactly when it is in the list and passes the condition. |
| `PythonText.ParseIntOfStr` | eleicao.py:93 | `int(str(n)) == n` for every integer, so a port written with an f-string reads back unchanged. |
| `Election.WinsElectionIff` | eleicao.py:55-63 | A run declares victory exactly when every roster port strictly above its own is unreachable. This includes the case of no higher port at all. |
| `Election.StartElectionSpec` | eleicao.py:40-65 | While an election is in progress, the call is a no-op. Otherwise the flag ends false, and ELECTION goes to the higher ports in roster order. If none of them accepts, the node becomes coordinator. If one does, `coordinator` is untouched. Every send is either ELECTION to a higher roster port or COORDINATOR to a lower one. |
| `Election.ClassifyPeerMessage` | eleicao.py:108-121 | The listener takes the ELECTION branch exactly on the text `ELECTION`. It takes the COORDINATOR branch exactly on text starting with `COORDINATOR`, and the PING branch exactly on `PING`. |
| `Election.AnnouncementUnderstood` | eleicao.py:88-117 | The notice `COORDINATOR <port>` a winner sends is read by a receiver as the COORDINATOR branch carrying exactly that port. |
| `Election.VictoryNoticesAdopted` | eleicao.py:78-117 | Every notice a winning run sends to a lower port is understood by its receiver as announcing the winner's port. |
| `Election.ThreeNodeRoster` | eleicao.py:40-95 | This is a consistent example in which each node's port is its roster entry. On the roster 6001, 6002, 6003, with 6003 up, node 6003 wins. It sends COORDINATOR 6003 to 6001 and then 6002, and both adopt it. Nodes 6001 and 6002 never declare victory. |
| `Election.MainRosterAsWritten` | eleicao.py:125-136 | The start-up block as written gives node 3 port 5003, below all of 6001, 6002, 6003, and nothing listens there. Node 3 sends ELECTION to all three, becomes coordinator, and sends no COORDINATOR notice. |
| `Election.ChallengeHigher` | eleicao.py:55-76 | One ELECTION send goes to each higher port, in order. Exactly the ports whose connect and send succeed are collected as responses, in order. |
| `Election.Coordinator.constructor` | eleicao.py:7-13 | A new node has no coordinator and no election in progress. |
| `Election.Coordinator.StartElection` | eleicao.py:40-76 | The new `coordinator`, the new flag and the sends are exactly those of `StartElectionSpec` for the old state. |
| `Election.Coordinator.DeclareVictory` | eleicao.py:78-95 | The node becomes coordinator. It sends `COORDINATOR <port>` to exactly the strictly lower roster ports, in order, and ignores failures. |
| `Election.Coordinator.MonitorCoordinator` | eleicao.py:20-38 | An election starts exactly when `coordinator` is set (truthy), differs from the node's own port, and the PING probe fails. Otherwise nothing changes. |
| `Election.Coordinator.HandleMessage` | eleicao.py:104-123 | ELECTION is answered ALIVE and the node runs its own election. The sender never reads the reply (`eleicao.py:67-76`), so the order of the two cannot be observed. `COORDINATOR p` overwrites `coordinator` with `p` unconditionally, and an unreadable one stops the listener. PING is answered PONG. Anything else is closed unanswered. |
| `SensorNode.ClassifyRequest` | sensor.py:94-117 | The branches are tried in source order: TIMESTAMP prefix, then `GET_DATA`, `HEARTBEAT` and the ALERT prefix. A timestamp field is the text between the first and second colon. An alert text is everything after the first colon. |
| `SensorNode.TimestampField` | sensor.py:94-95 | `TIMESTAMP:t` yields field `t`. So does `TIMESTAMP:t:anything`. |
| `SensorNode.AlertText` | sensor.py:112-113 | `ALERT:text` yields exactly `text`, even when the text holds colons. |
| `SensorNode.ThreeNodeAlert` | sensor.py:128-146 | With three roster ports, the alert fires exactly when no peer answered ALIVE. |
| `SensorNode.Sensor.constructor` | sensor.py:10-18 | The election port is `5000 + id`. The roster is 5001, 5002, 5003. A fresh clock starts at 0. There is no election object and no known coordinator. |
| `SensorNode.Sensor.StartElectionService` | sensor.py:44-48 | It creates a new election node on the election port with the given roster, with no coordinator and no election in progress. |
| `SensorNode.Sensor.IsCurrentCoordinator` | sensor.py:174-176 | The result is None exactly when there is no election object. |
| `SensorNode.Sensor.GetCoordinatorPort` | sensor.py:178-180 | The result is None when there is no election object. Otherwise it is the election object's answer. |
| `SensorNode.Sensor.ProcessMessage` | sensor.py:90-117 | Every call first appends one local tick to the clock. TIMESTAMP then applies `update(t)`, leaving `max(old + 1, t) + 1`, or raises when `t` is not an integer. GET_DATA and HEARTBEAT report the post-increment time. ALERT and unknown requests change nothing beyond the tick. |
| `SensorNode.Sensor.HandleDataRequest` | sensor.py:71-88 | Empty input is skipped without a tick. Any other input gets exactly the response and the clock state of `process_message`, branch by branch. A connection goes unanswered exactly when the input is empty or its timestamp cannot be parsed. |
| `SensorNode.Sensor.CheckNodesHealth` | sensor.py:128-146 | HEARTBEAT goes to every roster port except its own data port, in order. Only peers whose status is `ALIVE` count as active. The alert is broadcast exactly when `active < len(nodes) - 2`. |
| `SensorNode.Sensor.BroadcastAlert` | sensor.py:163-172 | One `ALERT:<message>` is sent to every roster port, its own included, in order. |
| `SensorNode.Sensor.VerifyCoordinator` | sensor.py:148-161 | With no known coordinator it returns without probing or electing. Otherwise it probes the coordinator. When the probe fails, the election object runs `start_election`, or the call raises if there is no election object yet. |
| `SimpleSystem.NodesAboveMembers` | sysd.py:54 | The nodes an election asks are exactly the roster ids strictly above the node's own. |
| `SimpleSystem.NoneAboveTop` | sysd.py:54-58 | A node that no roster id exceeds has nobody above it. |
| `SimpleSystem.RosterTop` | sysd.py:126 | On the menu's roster `[1, 2, 3]`, node 3 has nobody above it. By `StartElection`'s contract it therefore wins without contacting anyone. |
| `SimpleSystem.BullyElection.constructor` | sysd.py:48-50 | It keeps the node id and the roster. |
| `SimpleSystem.BullyElection.StartElection` | sysd.py:52-74 | It contacts only a prefix of the higher ids, in roster order. It returns False at the first one that replies exactly `b"OK"` and contacts no later one. It returns True exactly when no higher node replies `b"OK"`, whether a node is unreachable or replies something else. With no higher node, it contacts nobody. |
| `SimpleSystem.AskInOrder` | sysd.py:56-74 | It asks the given nodes in order and stops at the first exact `b"OK"`. It wins exactly when none replies `b"OK"`. With nobody to ask, it wins without contacting anyone. |
| `SimpleSystem.GetDataCount` | sysd.py:33-34 | The count is zero exactly when no request is `GET_DATA`, and never exceeds the number of requests. |
| `SimpleSystem.GetDataCountAppend` | sysd.py:29-34 | Counting `GET_DATA` requests is additive over consecutive batches. |
| `SimpleSystem.SimpleSensor.constructor` | sysd.py:16-20 | The port is `5000 + id`, the clock starts at 0, and the sensor is not coordinator. |
| `SimpleSystem.SimpleSensor.HandleRequest` | sysd.py:30-39 | `GET_DATA` raises the clock by exactly 1 and is answered with the new clock value. Any other request leaves the clock unchanged and gets no reply. |
| `SimpleSystem.SimpleSensor.Serve` | sysd.py:29-39 | Over a run of requests, the clock rises by exactly the number of `GET_DATA` requests, and each of them is answered. |

## Left out

- Sockets, threads, sleeps and timeouts are left out. Connection results are oracle inputs: a reachable-port set or a reply map. The three-second settling window in `start_election` does not change the outcome. Daemon threads and accept loops are modelled one call or one connection at a time.
- Concurrency is left out. `election_in_progress` is an unguarded flag shared between threads, and `data_lock` guards the readings. The model is single-threaded.
- Random readings (`random.uniform`, `random.randint`) and `time.time()` are inputs. The `Reading` is opaque, and the `sysd.py` temperature is a parameter in its source range of 20 to 35.
- `simulate_data_changes`, `monitor_nodes`' scheduling loop and `log`/`print` output are left out as timing and presentation code. The menus and the `__main__` blocks are also left out, apart from their port and roster assignments. `Election.MainRosterAsWritten` models those for eleicao.py:125-136, and `SimpleSystem.RosterTop` models them for sysd.py:126.
- `is_current_coordinator()` and `get_current_coordinator()` are called on the election class, which does not define them (`sensor.py:176,180`). Their answers are an opaque `CoordinatorView` input, used only when the election object exists.
- The port rosters are hard-coded and do not match: data ports 5001 to 5003 against election ports 6001 to 6003, while `5000 + id` gives 5001 to 5003. The model takes `port` and `all_ports` as parameters and does not try to reconcile them.
- Requests are taken as already-decoded text. The model leaves out the `recv(1024)` size cap and the failure of `.decode()` on invalid bytes. That failure ends the election listener (`eleicao.py:106`) and the `sysd.py` server (`sysd.py:31,40-41`), and leaves a sensor connection unanswered (`sensor.py:75,84-85`).
- `Election.ThreeNodeRoster` does not model the start-up block of eleicao.py. That block gives node 3 port `5000 + 3`, which is outside the roster 6001, 6002, 6003. `Election.MainRosterAsWritten` models the block as written.
- JSON encoding of responses and decoding of heartbeat replies is left out. A heartbeat reply is represented by its `status` field, or by the absence of a reply.
- `PythonText.ParseInt`: it does not accept the underscores between digits or the non-ASCII Unicode digits that Python's `int()` also accepts. Only ASCII digits with an optional sign and surrounding whitespace are read.
- `Lamport.LamportClock.GetTime` and `Lamport.LamportClock.GetEvents` are read-only functions and carry no contract of their own. That they change nothing, and that the log copy equals the log, follows from their being functions over the fields.
- `security.py` (encryption over a foreign library), `cliente.py` and `multi.py` (gRPC over generated modules) are not part of this model.
