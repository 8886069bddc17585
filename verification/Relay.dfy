/**
 The workers between a local socket and a device stream: the relay of a device OPEN
 (adb_client/src/message_devices/transport_dispatcher.rs:751-813) and the worker of a forwarded connection
 (adb_client/src/message_devices/dispatched_device.rs:266-353).

 A schedule says what each turn of the loop finds: whether a packet has come, whether the socket has bytes and takes
 some, and what becomes of each send.  The workers are run on every schedule, and what they did is recorded in order.
 */
module Relay {
  import opened Bytes
  import opened Message
  import opened WorkerTrace

  type Chunk = b: seq<byte> | 0 < |b| <= 0x1_0000 witness [0]

  datatype Arrival = Came(packet: Packet) | Nothing | Gone

  datatype Local = Bytes(chunk: Chunk) | Eof | Empty | Broken

  /** A send goes through, is refused by the transport while the dispatcher lives on, or finds the dispatcher gone. */
  datatype Outcome = Accepted | Declined | Vanished

  /** What a turn finds, with an outcome for each send it may make: the OKAY, the WRTE and the closing CLSE. */
  datatype Turn =
    Turn(arrival: Arrival, local: Local, writable: bool, okay: Outcome, write: Outcome, closing: Outcome)

  /** `Abandoned`: the dispatcher has gone.  `Broke`: something failed while it lives on. */
  datatype Ending = Running | Finished | Broke | Abandoned

  datatype Run = Run(trace: seq<Event>, end: Ending)

  function Attempt(command: Command, payload: seq<byte>, outcome: Outcome): Event {
    if outcome.Accepted? then Sent(command, payload) else Unsent(command, payload)
  }

  /** A send that fails ends the loop with its error. */
  function After(outcome: Outcome): Ending {
    match outcome
    case Accepted => Running
    case Declined => Broke
    case Vanished => Abandoned
  }

  /** What is done with a packet that has come. */
  function DevicePart(arrival: Arrival, writable: bool, okay: Outcome): Run {
    match arrival
    case Nothing => Run([], Running)
    case Gone => Run([], Abandoned)
    case Came(p) =>
      match p.command
      case Wrte =>
        if !writable then Run([Received(p), WriteFailed], Broke)
        else Run([Received(p), WroteLocal(p.payload), Attempt(Command.Okay, [], okay)], After(okay))
      case Okay => Run([Received(p)], Running)
      case Clse => Run([Received(p)], Finished)
      case _ => Run([Received(p)], Broke)
  }

  /** What is done with the socket while no WRTE is in flight. */
  function LocalPart(local: Local, write: Outcome): Run {
    match local
    case Bytes(chunk) => Run([TookLocal(chunk), Attempt(Wrte, chunk, write)], After(write))
    case Eof => Run([SawEof], Finished)
    case Empty => Run([], Running)
    case Broken => Run([], Broke)
  }

  function DeviceRun(turn: Turn): Run {
    DevicePart(turn.arrival, turn.writable, turn.okay)
  }

  function LocalRun(turn: Turn): Run {
    LocalPart(turn.local, turn.write)
  }

  function AfterArrival(pending: bool, arrival: Arrival): bool {
    pending && !(arrival.Came? && arrival.packet.command == Command.Okay)
  }

  function Both(first: Run, second: Run): Run {
    Run(first.trace + second.trace, second.end)
  }

  /** A turn of the relay: a packet first, then the socket. */
  function RelayTurn(pending: bool, turn: Turn): Run {
    if !DeviceRun(turn).end.Running? || AfterArrival(pending, turn.arrival) then DeviceRun(turn)
    else Both(DeviceRun(turn), LocalRun(turn))
  }

  function RelayPending(pending: bool, turn: Turn): bool {
    AfterArrival(pending, turn.arrival) || turn.local.Bytes?
  }

  /** The CLSE that is tried at the end; it cannot go out when the dispatcher has gone. */
  function Closing(end: Ending, closing: Outcome): Event {
    Attempt(Command.Clse, [], if end.Abandoned? then Vanished else closing)
  }

  /** The relay tries to close the stream however it ends. */
  function RelayClosed(r: Run, closing: Outcome): Run {
    if r.end.Running? then r else Run(r.trace + [Closing(r.end, closing)], r.end)
  }

  function RelayLoop(pending: bool, turns: seq<Turn>): Run
    decreases |turns|
  {
    if turns == [] then Run([], Running)
    else
      var first := RelayTurn(pending, turns[0]);
      if first.end.Running? then Both(first, RelayLoop(RelayPending(pending, turns[0]), turns[1..]))
      else RelayClosed(first, turns[0].closing)
  }

  /** The OKAY that opens the stream comes first, and when it fails there is nothing else. */
  function RelayRun(opening: Outcome, turns: seq<Turn>): Run {
    var open := Run([Attempt(Command.Okay, [], opening)], After(opening));
    if opening.Accepted? then Both(open, RelayLoop(false, turns)) else open
  }

  /**
   A turn of a forwarded connection: the socket first, then a packet.  `Broken` is here that the thread which reads the
   socket has gone without reporting an end; the worker then returns and leaves the stream to be unregistered.
   */
  function ForwardTurn(pending: bool, turn: Turn): Run {
    if pending then DeviceRun(turn)
    else if !LocalRun(turn).end.Running? then LocalRun(turn)
    else Both(LocalRun(turn), DeviceRun(turn))
  }

  function ForwardPending(pending: bool, turn: Turn): bool {
    AfterArrival(pending || turn.local.Bytes?, turn.arrival)
  }

  /** A forwarded connection is closed after its local end or a CLSE of the device, and not after a failure. */
  function ForwardClosed(r: Run, closing: Outcome): Run {
    if r.end.Finished? then Run(r.trace + [Closing(r.end, closing)], r.end) else r
  }

  function ForwardLoop(pending: bool, turns: seq<Turn>): Run
    decreases |turns|
  {
    if turns == [] then Run([], Running)
    else
      var first := ForwardTurn(pending, turns[0]);
      if first.end.Running? then Both(first, ForwardLoop(ForwardPending(pending, turns[0]), turns[1..]))
      else ForwardClosed(first, turns[0].closing)
  }

  // ---- The loops of the source ----

  lemma RelayUnrolled(trace: seq<Event>, pending: bool, turns: seq<Turn>, i: nat)
    requires i < |turns|
    ensures var first := RelayTurn(pending, turns[i]);
            var rest := RelayLoop(RelayPending(pending, turns[i]), turns[i + 1..]);
            && RelayLoop(pending, turns[i..]) ==
                 (if first.end.Running? then Both(first, rest) else RelayClosed(first, turns[i].closing))
            && trace + (first.trace + rest.trace) == trace + first.trace + rest.trace
  {
    assert turns[i..][0] == turns[i] && turns[i..][1..] == turns[i + 1..];
  }

  lemma ForwardUnrolled(trace: seq<Event>, pending: bool, turns: seq<Turn>, i: nat)
    requires i < |turns|
    ensures var first := ForwardTurn(pending, turns[i]);
            var rest := ForwardLoop(ForwardPending(pending, turns[i]), turns[i + 1..]);
            && ForwardLoop(pending, turns[i..]) ==
                 (if first.end.Running? then Both(first, rest) else ForwardClosed(first, turns[i].closing))
            && trace + (first.trace + rest.trace) == trace + first.trace + rest.trace
  {
    assert turns[i..][0] == turns[i] && turns[i..][1..] == turns[i + 1..];
  }

  /** A send, with its outcome. */
  method Send(command: Command, payload: seq<byte>, outcome: Outcome) returns (e: Event, end: Ending)
    ensures e == Attempt(command, payload, outcome) && end == After(outcome)
  {
    match outcome
    case Accepted => return Sent(command, payload), Running;
    case Declined => return Unsent(command, payload), Broke;
    case Vanished => return Unsent(command, payload), Abandoned;
  }

  /** The packet half of a turn. */
  method TakePacket(turn: Turn, pendingWrite: bool) returns (events: seq<Event>, end: Ending, pending: bool)
    ensures Run(events, end) == DeviceRun(turn) && pending == AfterArrival(pendingWrite, turn.arrival)
  {
    pending := pendingWrite;
    match turn.arrival
    case Nothing => return [], Running, pending;
    case Gone => return [], Abandoned, pending;
    case Came(packet) =>
      events := [Received(packet)];
      match packet.command
      case Wrte =>
        if !turn.writable {
          return events + [WriteFailed], Broke, pending;
        }
        var sent;
        sent, end := Send(Command.Okay, [], turn.okay);
        events := events + [WroteLocal(packet.payload), sent];
      case Okay => return events, Running, false;
      case Clse => return events, Finished, pending;
      case _ => return events, Broke, pending;
  }

  /** The socket half of a turn, which happens only while no WRTE is in flight. */
  method TakeLocal(turn: Turn) returns (events: seq<Event>, end: Ending, pending: bool)
    ensures Run(events, end) == LocalRun(turn) && pending == turn.local.Bytes?
  {
    match turn.local
    case Bytes(chunk) =>
      var sent;
      sent, end := Send(Wrte, chunk, turn.write);
      return [TookLocal(chunk), sent], end, true;
    case Eof => return [SawEof], Finished, false;
    case Empty => return [], Running, false;
    case Broken => return [], Broke, false;
  }

  /** `relay`: a packet if there is one, then a read of the socket unless a WRTE is in flight. */
  method RunRelay(opening: Outcome, turns: seq<Turn>) returns (trace: seq<Event>, end: Ending)
    ensures Run(trace, end) == RelayRun(opening, turns)
  {
    var open;
    open, end := Send(Command.Okay, [], opening);
    if !end.Running? {
      return [open], end;
    }
    trace := [];
    var pendingWrite, i := false, 0;
    while i < |turns| && end.Running?
      invariant i <= |turns|
      invariant end.Running? ==>
        && RelayLoop(false, turns).trace == trace + RelayLoop(pendingWrite, turns[i..]).trace
        && RelayLoop(false, turns).end == RelayLoop(pendingWrite, turns[i..]).end
      invariant !end.Running? ==> RelayLoop(false, turns) == Run(trace, end)
      decreases |turns| - i, end.Running?
    {
      RelayUnrolled(trace, pendingWrite, turns, i);
      ghost var was := pendingWrite;
      var events;
      events, end, pendingWrite := TakePacket(turns[i], pendingWrite);
      if end.Running? && !pendingWrite {
        var more;
        more, end, pendingWrite := TakeLocal(turns[i]);
        events := events + more;
      }
      assert Run(events, end) == RelayTurn(was, turns[i]);
      if !end.Running? {
        events := events + [Closing(end, turns[i].closing)];
      }
      trace, i := trace + events, i + 1;
    }
    trace := [open] + trace;
  }

  /** The loop of `forward_connection`. */
  method RunForward(turns: seq<Turn>) returns (trace: seq<Event>, end: Ending)
    ensures Run(trace, end) == ForwardLoop(false, turns)
  {
    trace, end := [], Running;
    var pending, i := false, 0;
    while i < |turns| && end.Running?
      invariant i <= |turns|
      invariant end.Running? ==>
        && ForwardLoop(false, turns).trace == trace + ForwardLoop(pending, turns[i..]).trace
        && ForwardLoop(false, turns).end == ForwardLoop(pending, turns[i..]).end
      invariant !end.Running? ==> ForwardLoop(false, turns) == Run(trace, end)
      decreases |turns| - i, end.Running?
    {
      ForwardUnrolled(trace, pending, turns, i);
      ghost var was := pending;
      var events := [];
      if !pending {
        events, end, pending := TakeLocal(turns[i]);
      }
      if end.Running? {
        var more;
        more, end, pending := TakePacket(turns[i], pending);
        events := events + more;
      }
      assert Run(events, end) == ForwardTurn(was, turns[i]);
      if end.Finished? {
        events := events + [Closing(end, turns[i].closing)];
      }
      trace, i := trace + events, i + 1;
    }
  }

  // ---- Every run is orderly ----

  /** A trace that a worker can go on from. */
  predicate Going(t: seq<Event>, pending: bool) {
    Orderly(t) && !HalfDone(t) && !Over(t) && Outstanding(t) == One(pending)
  }

  /**
   A trace where part of a turn is over: it can be closed, and a run that goes on or finishes has had no failed send.
   */
  predicate Stage(t: seq<Event>, end: Ending, pending: bool) {
    && Orderly(t) && !HalfDone(t) && (t == [] || !IsClose(t[|t| - 1]))
    && (end.Running? ==> Going(t, pending))
    && (end.Finished? ==> !Failed(t))
    && (end.Finished? <==> t != [] && Ends(t[|t| - 1]))
  }

  lemma Step(t: seq<Event>, e: Event)
    requires Orderly(t) && Proper(t, e)
    ensures Orderly(t + [e])
    ensures Outstanding(t + [e]) ==
            (if e.Sent? && e.command == Wrte then Outstanding(t) + 1
             else if e.Received? && e.packet.command == Command.Okay then 0 else Outstanding(t))
  {
    OrderlyGrows(t, e);
    Grows(t, e);
  }

  lemma GoingUnfailed(t: seq<Event>, pending: bool, e: Event)
    requires Going(t, pending) && !e.Unsent?
    ensures !Failed(t + [e])
  {
    FailureEnds(t);
    assert (t + [e])[..|t|] == t;
    FailedGrows(t + [e]);
  }

  lemma ReceivedOrderly(t: seq<Event>, pending: bool, p: Packet, end: Ending)
    requires Going(t, pending) && p.command != Wrte
    requires (end.Running? <==> p.command == Command.Okay) && (end.Finished? <==> p.command == Command.Clse)
    ensures Stage(t + [Received(p)], end, pending && p.command != Command.Okay)
  {
    Step(t, Received(p));
    GoingUnfailed(t, pending, Received(p));
  }

  lemma WriteFailedOrderly(t: seq<Event>, pending: bool, p: Packet)
    requires Going(t, pending) && p.command == Wrte
    ensures Stage(t + [Received(p), WriteFailed], Broke, pending)
  {
    var u := t + [Received(p)];
    Step(t, Received(p));
    Step(u, WriteFailed);
    assert t + [Received(p), WriteFailed] == u + [WriteFailed];
  }

  lemma WrittenOrderly(t: seq<Event>, pending: bool, p: Packet, okay: Outcome)
    requires Going(t, pending) && p.command == Wrte
    ensures Stage(t + [Received(p), WroteLocal(p.payload), Attempt(Command.Okay, [], okay)], After(okay), pending)
  {
    var u := t + [Received(p)];
    var v, e := u + [WroteLocal(p.payload)], Attempt(Command.Okay, [], okay);
    Step(t, Received(p));
    Step(u, WroteLocal(p.payload));
    Step(v, e);
    assert t + [Received(p), WroteLocal(p.payload), e] == v + [e];
  }

  /** A turn in which nothing happens, or the dispatcher or the socket turns out to have gone. */
  lemma IdleOrderly(t: seq<Event>, pending: bool, end: Ending)
    requires Going(t, pending) && !end.Finished?
    ensures Stage(t + [], end, pending)
  {
    assert t + [] == t;
  }

  /** A packet that is noted, or ends the loop. */
  lemma NotedOrderly(t: seq<Event>, pending: bool, p: Packet, writable: bool, okay: Outcome)
    requires Going(t, pending) && p.command != Wrte
    ensures var r := DevicePart(Came(p), writable, okay);
            Stage(t + r.trace, r.end, pending && p.command != Command.Okay)
  {
    var r := DevicePart(Came(p), writable, okay);
    assert r == Run([Received(p)], if p.command == Command.Okay then Running
                                   else if p.command == Command.Clse then Finished else Broke);
    ReceivedOrderly(t, pending, p, r.end);
  }

  lemma PacketOrderly(t: seq<Event>, pending: bool, p: Packet, writable: bool, okay: Outcome)
    requires Going(t, pending)
    ensures var r := DevicePart(Came(p), writable, okay);
            Stage(t + r.trace, r.end, pending && p.command != Command.Okay)
  {
    if p.command != Wrte {
      NotedOrderly(t, pending, p, writable, okay);
    } else if !writable {
      WriteFailedOrderly(t, pending, p);
    } else {
      WrittenOrderly(t, pending, p, okay);
    }
  }

  lemma DeviceOrderly(t: seq<Event>, pending: bool, turn: Turn)
    requires Going(t, pending)
    ensures Stage(t + DeviceRun(turn).trace, DeviceRun(turn).end, AfterArrival(pending, turn.arrival))
  {
    match turn.arrival
    case Nothing => IdleOrderly(t, pending, Running);
    case Gone => IdleOrderly(t, pending, Abandoned);
    case Came(p) => PacketOrderly(t, pending, p, turn.writable, turn.okay);
  }

  lemma TakenOrderly(t: seq<Event>, chunk: Chunk, write: Outcome)
    requires Going(t, false)
    ensures Stage(t + [TookLocal(chunk), Attempt(Wrte, chunk, write)], After(write), true)
  {
    var u, e := t + [TookLocal(chunk)], Attempt(Wrte, chunk, write);
    Step(t, TookLocal(chunk));
    Step(u, e);
    assert t + [TookLocal(chunk), e] == u + [e];
  }

  lemma LocalOrderly(t: seq<Event>, turn: Turn)
    requires Going(t, false)
    ensures Stage(t + LocalRun(turn).trace, LocalRun(turn).end, turn.local.Bytes?)
  {
    match turn.local
    case Bytes(chunk) => TakenOrderly(t, chunk, turn.write);
    case Eof =>
      Step(t, SawEof);
      GoingUnfailed(t, false, SawEof);
    case Empty => assert t + [] == t;
    case Broken => assert t + [] == t;
  }

  lemma BothOrderly(t: seq<Event>, first: Run, second: Run, pending: bool)
    requires Stage(t + first.trace + second.trace, second.end, pending)
    ensures Stage(t + Both(first, second).trace, second.end, pending)
  {
    Regrouped(t, first.trace, second.trace);
  }

  lemma RelayTurnOrderly(t: seq<Event>, pending: bool, turn: Turn)
    requires Going(t, pending)
    ensures var r := RelayTurn(pending, turn); Stage(t + r.trace, r.end, RelayPending(pending, turn))
  {
    DeviceOrderly(t, pending, turn);
    if DeviceRun(turn).end.Running? && !AfterArrival(pending, turn.arrival) {
      LocalOrderly(t + DeviceRun(turn).trace, turn);
      BothOrderly(t, DeviceRun(turn), LocalRun(turn), turn.local.Bytes?);
    }
  }

  lemma ForwardTurnOrderly(t: seq<Event>, pending: bool, turn: Turn)
    requires Going(t, pending)
    ensures var r := ForwardTurn(pending, turn); Stage(t + r.trace, r.end, ForwardPending(pending, turn))
  {
    if pending {
      DeviceOrderly(t, pending, turn);
    } else {
      LocalOrderly(t, turn);
      if LocalRun(turn).end.Running? {
        DeviceOrderly(t + LocalRun(turn).trace, turn.local.Bytes?, turn);
        BothOrderly(t, LocalRun(turn), DeviceRun(turn), ForwardPending(pending, turn));
      }
    }
  }

  /** Where a run may stop, how it has ended then, and whether it must have tried to close the stream. */
  predicate Stops(t: seq<Event>, end: Ending, closing: bool) {
    && Orderly(t) && !HalfDone(t) && (closing ==> t != [] && IsClose(t[|t| - 1]))
    && (end.Running? ==> !Over(t))
    && (end.Finished? <==> LastWork(t).Some? && Ends(LastWork(t).value))
  }

  lemma CloseStops(t: seq<Event>, trace: seq<Event>, end: Ending, pending: bool, e: Event)
    requires Stage(t + trace, end, pending) && !end.Running?
    requires e == Sent(Command.Clse, []) || e == Unsent(Command.Clse, [])
    ensures Stops(t + (trace + [e]), end, true) && (Failed(t + (trace + [e])) <==> Failed(t + trace))
  {
    Step(t + trace, e);
    Regrouped(t, trace, [e]);
    FailedGrows(t + trace + [e]);
    assert (t + trace + [e])[..|t + trace|] == t + trace;
  }

  lemma StopsJoined(t: seq<Event>, a: Run, b: Run, closing: bool)
    requires Stops(t + a.trace + b.trace, b.end, closing)
    ensures Stops(t + Both(a, b).trace, b.end, closing)
  {
    Regrouped(t, a.trace, b.trace);
  }

  lemma {:induction false} RelayLoopOrderly(t: seq<Event>, pending: bool, turns: seq<Turn>)
    requires Going(t, pending)
    ensures var r := RelayLoop(pending, turns); Stops(t + r.trace, r.end, !r.end.Running?)
    decreases |turns|
  {
    if turns == [] {
      assert t + [] == t;
    } else {
      var first, next := RelayTurn(pending, turns[0]), RelayPending(pending, turns[0]);
      RelayTurnOrderly(t, pending, turns[0]);
      if first.end.Running? {
        RelayLoopOrderly(t + first.trace, next, turns[1..]);
        StopsJoined(t, first, RelayLoop(next, turns[1..]), !RelayLoop(next, turns[1..]).end.Running?);
      } else {
        CloseStops(t, first.trace, first.end, next, Closing(first.end, turns[0].closing));
      }
    }
  }

  lemma {:induction false} ForwardLoopOrderly(t: seq<Event>, pending: bool, turns: seq<Turn>)
    requires Going(t, pending)
    ensures var r := ForwardLoop(pending, turns);
            Stops(t + r.trace, r.end, r.end.Finished?) && (Failed(t + r.trace) ==> !Closed(t + r.trace))
    decreases |turns|
  {
    if turns == [] {
      assert t + [] == t;
    } else {
      var first, next := ForwardTurn(pending, turns[0]), ForwardPending(pending, turns[0]);
      ForwardTurnOrderly(t, pending, turns[0]);
      if first.end.Running? {
        ForwardLoopOrderly(t + first.trace, next, turns[1..]);
        StopsJoined(t, first, ForwardLoop(next, turns[1..]), ForwardLoop(next, turns[1..]).end.Finished?);
        Regrouped(t, first.trace, ForwardLoop(next, turns[1..]).trace);
      } else if first.end.Finished? {
        CloseStops(t, first.trace, first.end, next, Closing(first.end, turns[0].closing));
      }
    }
  }

  // ---- What the workers guarantee ----

  lemma OpenOrderly(opening: Outcome)
    ensures var open := [Attempt(Command.Okay, [], opening)];
            Stops(open, After(opening), false) && (opening.Accepted? ==> Going(open, false))
  {
    var e := Attempt(Command.Okay, [], opening);
    Step([], e);
    assert [] + [e] == [e];
  }

  lemma RelayRunOrderly(opening: Outcome, turns: seq<Turn>)
    ensures var r := RelayRun(opening, turns); Stops(r.trace, r.end, opening.Accepted? && !r.end.Running?)
  {
    OpenOrderly(opening);
    if opening.Accepted? {
      RelayLoopOrderly([Attempt(Command.Okay, [], opening)], false, turns);
    }
  }

  /**
   On every schedule, with every outcome of every send, the relay is faithful and leaves nothing half done; and when it
   has opened the stream it ends by trying to close it.
   */
  lemma RelayIsFaithful(opening: Outcome, turns: seq<Turn>)
    ensures var r := RelayRun(opening, turns);
            && Orderly(r.trace) && Faithful(r.trace, 1) && !HalfDone(r.trace)
            && (opening.Accepted? && !r.end.Running? ==> IsClose(r.trace[|r.trace| - 1]))
  {
    RelayRunOrderly(opening, turns);
    OrderlyIsFaithful(RelayRun(opening, turns).trace);
  }

  /**
   When exactly the close of a relay can be trusted: behind a CLSE that went out all bytes taken were sent and all
   writes acknowledged, if and only if no send failed before a later one went through.
   */
  lemma RelayClosesExactly(opening: Outcome, turns: seq<Turn>)
    ensures var t := RelayRun(opening, turns).trace; (Closed(t) ==> Whole(t, 1)) <==> !Skipped(t)
  {
    RelayIsFaithful(opening, turns);
    ClosedExactly(RelayRun(opening, turns).trace);
  }

  /**
   The input that shows it: a transport that declines one WRTE and takes the CLSE behind it.  The bytes are lost
   behind a clean close.
   */
  lemma DeclinedThenClosed(chunk: Chunk, okay: Outcome)
    ensures var r := RelayRun(Accepted, [Turn(Nothing, Bytes(chunk), true, okay, Declined, Accepted)]);
            && r.trace == [Sent(Command.Okay, []), TookLocal(chunk), Unsent(Wrte, chunk), Sent(Command.Clse, [])]
            && Closed(r.trace) && !Whole(r.trace, 1)
  {
    var turns := [Turn(Nothing, Bytes(chunk), true, okay, Declined, Accepted)];
    var t := RelayRun(Accepted, turns).trace;
    assert t == [Sent(Command.Okay, []), TookLocal(chunk), Unsent(Wrte, chunk), Sent(Command.Clse, [])];
    RelayIsFaithful(Accepted, turns);
    ClosedWhole(t);
    assert t[2].Unsent? && t[2].command != Command.Clse;
  }

  lemma ForwardRunOrderly(turns: seq<Turn>)
    ensures var r := ForwardLoop(false, turns);
            && Stops(r.trace, r.end, r.end.Finished?) && (Failed(r.trace) ==> !Closed(r.trace))
            && !OpensWithOkay(r.trace)
  {
    ForwardLoopOrderly([], false, turns);
    assert [] + ForwardLoop(false, turns).trace == ForwardLoop(false, turns).trace;
    ForwardStarts(false, turns);
  }

  /**
   On every schedule a forwarded connection is faithful and leaves nothing half done, it tries to close the stream when
   either side has ended it, and a CLSE that goes out can be trusted: it is not sent after a failure.
   */
  lemma ForwardIsFaithful(turns: seq<Turn>)
    ensures var r := ForwardLoop(false, turns);
            && Faithful(r.trace, 0) && !HalfDone(r.trace)
            && (r.end.Finished? ==> r.trace != [] && IsClose(r.trace[|r.trace| - 1]))
            && (Closed(r.trace) ==> Whole(r.trace, 0))
  {
    var r := ForwardLoop(false, turns);
    ForwardRunOrderly(turns);
    OrderlyIsFaithful(r.trace);
    if Closed(r.trace) {
      ClosedWhole(r.trace);
    }
  }

  /** How a run that has done `t` has ended. */
  ghost predicate EndsAs(t: seq<Event>, end: Ending) {
    && (end.Running? ==> forall k | 0 <= k < |t| :: !Ends(t[k]) && !IsClose(t[k]))
    && (end.Finished? <==> LastWork(t).Some? && Ends(LastWork(t).value))
    && (forall k | 0 <= k < |t| && Ends(t[k]) :: k == |t| - 1 || (k == |t| - 2 && IsClose(t[|t| - 1])))
  }

  lemma StopsEnds(t: seq<Event>, end: Ending, closing: bool)
    requires Stops(t, end, closing)
    ensures EndsAs(t, end)
  {
    EndsAreLast(t);
  }

  /**
   When exactly the workers end in good order.  On every schedule, with every outcome of every send: behind the end of
   the socket, or a CLSE of the device, there is nothing but the closing CLSE, sent or not; a worker that goes on has
   seen neither; and it has finished if and only if one of them was the last thing before the close.
   */
  lemma WorkersEndExactly(opening: Outcome, turns: seq<Turn>)
    ensures EndsAs(RelayRun(opening, turns).trace, RelayRun(opening, turns).end)
    ensures EndsAs(ForwardLoop(false, turns).trace, ForwardLoop(false, turns).end)
  {
    var r, f := RelayRun(opening, turns), ForwardLoop(false, turns);
    RelayRunOrderly(opening, turns);
    StopsEnds(r.trace, r.end, opening.Accepted? && !r.end.Running?);
    ForwardRunOrderly(turns);
    StopsEnds(f.trace, f.end, f.end.Finished?);
  }

  // ---- What a turn takes ----

  /** Nothing goes wrong with the packet that has come, if any, and it is no end. */
  predicate Smooth(turn: Turn) {
    || turn.arrival.Nothing?
    || (turn.arrival.Came? && turn.arrival.packet.command == Command.Okay)
    || (turn.arrival.Came? && turn.arrival.packet.command == Wrte && turn.writable && turn.okay.Accepted?)
  }

  /** What is done with the packet then. */
  function Handled(turn: Turn): seq<Event>
    requires Smooth(turn)
  {
    if turn.arrival.Nothing? then []
    else if turn.arrival.packet.command == Command.Okay then [Received(turn.arrival.packet)]
    else [Received(turn.arrival.packet), WroteLocal(turn.arrival.packet.payload), Sent(Command.Okay, [])]
  }

  /** What is taken from the socket when nothing is in flight. */
  function Fetched(turn: Turn): seq<Event> {
    match turn.local
    case Bytes(chunk) => [TookLocal(chunk), if turn.write.Accepted? then Sent(Wrte, chunk) else Unsent(Wrte, chunk)]
    case Eof => [SawEof]
    case Empty => []
    case Broken => []
  }

  predicate Continues(turn: Turn) {
    turn.local.Empty? || (turn.local.Bytes? && turn.write.Accepted?)
  }

  /**
   A relay that has done `t` does `trace` in its next turns: it takes each packet that has come, and from the socket
   exactly when nothing is in flight then.
   */
  ghost predicate RelayTakes(t: seq<Event>, turns: seq<Turn>, trace: seq<Event>)
    decreases |turns|
  {
    turns != [] && Smooth(turns[0]) ==>
      var handled := Handled(turns[0]);
      var free := Outstanding(t + handled) == 0;
      var now := if free then handled + Fetched(turns[0]) else handled;
      && now <= trace
      && (!free || Continues(turns[0]) ==> RelayTakes(t + now, turns[1..], trace[|now|..]))
  }

  /** The same of a forwarded connection, which looks at the socket first. */
  ghost predicate ForwardTakes(t: seq<Event>, turns: seq<Turn>, trace: seq<Event>)
    decreases |turns|
  {
    turns != [] ==>
      var free := Outstanding(t) == 0;
      var fetched := if free then Fetched(turns[0]) else [];
      && fetched <= trace
      && ((!free || Continues(turns[0])) && Smooth(turns[0]) ==>
            var now := fetched + Handled(turns[0]);
            now <= trace && ForwardTakes(t + now, turns[1..], trace[|now|..]))
  }

  lemma SmoothRun(turn: Turn)
    requires Smooth(turn)
    ensures DeviceRun(turn) == Run(Handled(turn), Running)
  {
  }

  lemma FetchedRun(turn: Turn)
    ensures LocalRun(turn).trace == Fetched(turn) && (LocalRun(turn).end.Running? <==> Continues(turn))
  {
  }

  lemma RelayTurnIs(t: seq<Event>, pending: bool, turn: Turn)
    requires Going(t, pending) && Smooth(turn)
    ensures var handled := Handled(turn);
            var free := Outstanding(t + handled) == 0;
            var r := RelayTurn(pending, turn);
            && r.trace == (if free then handled + Fetched(turn) else handled)
            && (r.end.Running? <==> !free || Continues(turn))
            && (r.end.Running? ==> Going(t + r.trace, RelayPending(pending, turn)))
  {
    SmoothRun(turn);
    FetchedRun(turn);
    DeviceOrderly(t, pending, turn);
    RelayTurnOrderly(t, pending, turn);
  }

  lemma {:induction false} RelayLoopTakes(t: seq<Event>, pending: bool, turns: seq<Turn>)
    requires Going(t, pending)
    ensures RelayTakes(t, turns, RelayLoop(pending, turns).trace)
    decreases |turns|
  {
    if turns != [] && Smooth(turns[0]) {
      RelayTurnIs(t, pending, turns[0]);
      var first, next := RelayTurn(pending, turns[0]), RelayPending(pending, turns[0]);
      if first.end.Running? {
        RelayLoopTakes(t + first.trace, next, turns[1..]);
        var rest := RelayLoop(next, turns[1..]).trace;
        assert (first.trace + rest)[|first.trace|..] == rest;
      }
    }
  }

  lemma ForwardTurnIs(t: seq<Event>, pending: bool, turn: Turn)
    requires Going(t, pending)
    ensures var free := Outstanding(t) == 0;
            var fetched := if free then Fetched(turn) else [];
            var r := ForwardTurn(pending, turn);
            && fetched <= r.trace
            && ((!free || Continues(turn)) && Smooth(turn) ==>
                  && r == Run(fetched + Handled(turn), Running)
                  && Going(t + r.trace, ForwardPending(pending, turn)))
  {
    FetchedRun(turn);
    if Smooth(turn) {
      SmoothRun(turn);
    }
    ForwardTurnOrderly(t, pending, turn);
    assert [] + DeviceRun(turn).trace == DeviceRun(turn).trace;
  }

  lemma {:induction false} ForwardLoopTakes(t: seq<Event>, pending: bool, turns: seq<Turn>)
    requires Going(t, pending)
    ensures ForwardTakes(t, turns, ForwardLoop(pending, turns).trace)
    decreases |turns|
  {
    if turns != [] {
      ForwardTurnIs(t, pending, turns[0]);
      var first, next := ForwardTurn(pending, turns[0]), ForwardPending(pending, turns[0]);
      if Smooth(turns[0]) && (Outstanding(t) != 0 || Continues(turns[0])) {
        ForwardLoopTakes(t + first.trace, next, turns[1..]);
        var rest := ForwardLoop(next, turns[1..]).trace;
        assert (first.trace + rest)[|first.trace|..] == rest;
      }
    }
  }

  /**
   Neither worker leaves anything lying.  On every schedule, as long as nothing goes wrong, each turn takes the packet
   that has come, writes and acknowledges it, and takes from the socket exactly when no WRTE is in flight.
   */
  lemma WorkersTakeAll(turns: seq<Turn>)
    ensures var r := RelayRun(Accepted, turns).trace;
            r != [] && r[0] == Sent(Command.Okay, []) && RelayTakes([r[0]], turns, r[1..])
    ensures ForwardTakes([], turns, ForwardLoop(false, turns).trace)
  {
    OpenOrderly(Accepted);
    RelayLoopTakes([Sent(Command.Okay, [])], false, turns);
    ForwardLoopTakes([], false, turns);
    var rest := RelayLoop(false, turns).trace;
    assert ([Sent(Command.Okay, [])] + rest)[1..] == rest;
  }

  lemma {:induction false} ForwardStarts(pending: bool, turns: seq<Turn>)
    ensures !OpensWithOkay(ForwardLoop(pending, turns).trace)
    decreases |turns|
  {
    if turns != [] {
      TurnStarts(pending, turns[0]);
      ForwardStarts(ForwardPending(pending, turns[0]), turns[1..]);
    }
  }

  lemma TurnStarts(pending: bool, turn: Turn)
    ensures !OpensWithOkay(ForwardTurn(pending, turn).trace)
  {
  }
}
