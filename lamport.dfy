/**
 * The Lamport logical clock of `algorit.py`: a counter that advances by one on
 * a local event and jumps past a received timestamp on a receive event, and
 * an event log that every tick appends to until it is cleared.
 */
module Lamport {

  /** An entry of the pending-event log: `('local', t)` or `('received', r, t)`. */
  datatype Event = Local(time: nat) | Received(receivedTime: int, time: nat)

  /** The calls a client can make on a clock. */
  datatype ClockOp = Increment | Update(receivedTime: int) | GetTime | GetEvents | ClearEvents

  /** The observable state of a clock. */
  datatype ClockState = ClockState(time: nat, events: seq<Event>)

  function Max(a: int, b: int): int
  {
    if a >= b then a else b
  }

  /** The effect of one call on the clock's state. */
  function Step(s: ClockState, op: ClockOp): (r: ClockState)
    ensures r.time >= s.time
    ensures op.Increment? ==> r.time == s.time + 1
    ensures op.Update? ==> r.time > s.time && r.time > op.receivedTime
    ensures op.ClearEvents? ==> r.events == []
    ensures !op.ClearEvents? ==> s.events <= r.events
    ensures (op.GetTime? || op.GetEvents?) ==> r == s
  {
    match op
    case Increment => ClockState(s.time + 1, s.events + [Local(s.time + 1)])
    case Update(received) =>
      var t := Max(s.time, received) + 1;
      ClockState(t, s.events + [Received(received, t)])
    case GetTime => s
    case GetEvents => s
    case ClearEvents => ClockState(s.time, [])
  }

  /** The state after a sequence of calls, applied left to right. */
  function Run(s: ClockState, ops: seq<ClockOp>): ClockState
    decreases |ops|
  {
    if ops == [] then s else Run(Step(s, ops[0]), ops[1..])
  }

  /** The number of calls in `ops` that tick the clock. */
  function Ticks(ops: seq<ClockOp>): nat
  {
    if ops == [] then 0
    else (if ops[0].Increment? || ops[0].Update? then 1 else 0) + Ticks(ops[1..])
  }

  predicate NoClear(ops: seq<ClockOp>)
  {
    forall i :: 0 <= i < |ops| ==> !ops[i].ClearEvents?
  }

  /** Across any sequence of calls the clock never goes back, and each tick moves it forward by at least one. */
  lemma {:induction false} RunAdvances(s: ClockState, ops: seq<ClockOp>)
    ensures Run(s, ops).time >= s.time + Ticks(ops)
    decreases |ops|
  {
    if ops != [] {
      RunAdvances(Step(s, ops[0]), ops[1..]);
    }
  }

  /**
   * Until the log is cleared it only grows: earlier entries stay as they were
   * and exactly one entry is added per tick.
   */
  lemma {:induction false} RunKeepsLog(s: ClockState, ops: seq<ClockOp>)
    requires NoClear(ops)
    ensures s.events <= Run(s, ops).events
    ensures |Run(s, ops).events| == |s.events| + Ticks(ops)
    decreases |ops|
  {
    if ops != [] {
      RunKeepsLog(Step(s, ops[0]), ops[1..]);
    }
  }

  /** Without increments or updates the time stays exactly where it was. */
  lemma {:induction false} RunWithoutTicks(s: ClockState, ops: seq<ClockOp>)
    requires Ticks(ops) == 0
    ensures Run(s, ops).time == s.time
    decreases |ops|
  {
    if ops != [] {
      RunWithoutTicks(Step(s, ops[0]), ops[1..]);
    }
  }

  /** `LamportClock` of algorit.py. */
  class LamportClock {
    var time: nat
    var pendingEvents: seq<Event>

    function State(): ClockState
      reads this
    {
      ClockState(time, pendingEvents)
    }

    constructor ()
      ensures time == 0 && pendingEvents == []
    {
      time := 0;
      pendingEvents := [];
    }

    /** A local event: one step forward, logged as `Local`. */
    method Increment() returns (t: nat)
      modifies this
      ensures time == old(time) + 1 && t == time
      ensures pendingEvents == old(pendingEvents) + [Local(time)]
      ensures State() == Step(old(State()), ClockOp.Increment)
    {
      time := time + 1;
      pendingEvents := pendingEvents + [Local(time)];
      t := time;
    }

    /** A receive event: jump past both the local and the received time, logged as `Received`. */
    method Update(receivedTime: int) returns (t: nat)
      modifies this
      ensures time == Max(old(time), receivedTime) + 1 && t == time
      ensures pendingEvents == old(pendingEvents) + [Received(receivedTime, time)]
      ensures State() == Step(old(State()), ClockOp.Update(receivedTime))
    {
      time := Max(time, receivedTime) + 1;
      pendingEvents := pendingEvents + [Received(receivedTime, time)];
      t := time;
    }

    function GetTime(): nat
      reads this
    {
      time
    }

    /** A copy of the log; sequences are values, so the copy cannot alias the log. */
    function GetEvents(): seq<Event>
      reads this
    {
      pendingEvents
    }

    method ClearEvents()
      modifies this
      ensures pendingEvents == [] && time == old(time)
      ensures State() == Step(old(State()), ClockOp.ClearEvents)
    {
      pendingEvents := [];
    }
  }
}
