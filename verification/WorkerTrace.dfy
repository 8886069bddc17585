/**
 What a worker between a local socket and a device stream does, as a trace of events, and when each is proper: packets
 taken, bytes written to the socket and taken from it, and what it tried to send, with success or without.
 */
module WorkerTrace {
  import opened Bytes
  import opened Message

  /** `Unsent` is a send that failed: refused by the transport, or made when the dispatcher had gone. */
  datatype Event =
    | Received(packet: Packet)
    | WroteLocal(bytes: seq<byte>)
    | WriteFailed
    | TookLocal(bytes: seq<byte>)
    | SawEof
    | Sent(command: Command, payload: seq<byte>)
    | Unsent(command: Command, payload: seq<byte>)

  // ---- Sums over a trace ----

  /** The bytes taken from the socket for sending. */
  function Taken(t: seq<Event>): seq<byte> {
    if t == [] then []
    else
      var last := t[|t| - 1];
      if last.TookLocal? then Taken(t[..|t| - 1]) + last.bytes else Taken(t[..|t| - 1])
  }

  /** The payloads of the WRTEs sent. */
  function SentData(t: seq<Event>): seq<byte> {
    if t == [] then []
    else
      var last := t[|t| - 1];
      if last.Sent? && last.command == Wrte then SentData(t[..|t| - 1]) + last.payload else SentData(t[..|t| - 1])
  }

  /** The payloads of the WRTEs that came. */
  function DeviceData(t: seq<Event>): seq<byte> {
    if t == [] then []
    else
      var last := t[|t| - 1];
      if IsWrite(last) then DeviceData(t[..|t| - 1]) + last.packet.payload else DeviceData(t[..|t| - 1])
  }

  /** The bytes written to the socket. */
  function LocalData(t: seq<Event>): seq<byte> {
    if t == [] then []
    else
      var last := t[|t| - 1];
      if last.WroteLocal? then LocalData(t[..|t| - 1]) + last.bytes else LocalData(t[..|t| - 1])
  }

  /** WRTEs sent since the last OKAY. */
  function Outstanding(t: seq<Event>): nat {
    if t == [] then 0
    else
      var last := t[|t| - 1];
      if last.Sent? && last.command == Wrte then Outstanding(t[..|t| - 1]) + 1
      else if last.Received? && last.packet.command == Okay then 0
      else Outstanding(t[..|t| - 1])
  }

  function OkaysSent(t: seq<Event>): nat {
    if t == [] then 0
    else OkaysSent(t[..|t| - 1]) + One(t[|t| - 1].Sent? && t[|t| - 1].command == Okay)
  }

  function Writes(t: seq<Event>): nat {
    if t == [] then 0 else Writes(t[..|t| - 1]) + One(t[|t| - 1].WroteLocal?)
  }

  lemma Grows(t: seq<Event>, e: Event)
    ensures Outstanding(t + [e]) ==
            (if e.Sent? && e.command == Wrte then Outstanding(t) + 1
             else if e.Received? && e.packet.command == Okay then 0 else Outstanding(t))
  {
    assert (t + [e])[..|t|] == t;
  }

  // ---- The order of things ----

  predicate IsWrite(e: Event) {
    e.Received? && e.packet.command == Wrte
  }

  /** A CLSE, sent or not. */
  predicate IsClose(e: Event) {
    (e.Sent? || e.Unsent?) && e.command == Clse
  }

  /** Bytes taken and not sent, a WRTE taken and not written, or a write not acknowledged. */
  predicate HalfDone(t: seq<Event>) {
    t != [] && var last := t[|t| - 1]; last.TookLocal? || last.WroteLocal? || IsWrite(last)
  }

  /** What ends the work of a worker in good order: the end of the socket, or a CLSE of the device. */
  predicate Ends(e: Event) {
    e.SawEof? || (e.Received? && e.packet.command == Clse)
  }

  /** A packet that has no place on the stream. */
  predicate Strays(e: Event) {
    e.Received? && e.packet.command !in {Wrte, Okay, Clse}
  }

  predicate Over(t: seq<Event>) {
    && t != []
    && var last := t[|t| - 1]; Ends(last) || Strays(last) || last.WriteFailed? || last.Unsent? || IsClose(last)
  }

  /** When there is reason to send something: the bytes just taken, an OKAY for the bytes just written, one CLSE. */
  predicate Due(t: seq<Event>, command: Command, payload: seq<byte>) {
    if command == Wrte then t != [] && t[|t| - 1] == TookLocal(payload)
    else if command == Okay then payload == [] && (t == [] || t[|t| - 1].WroteLocal?)
    else command == Clse && payload == [] && !HalfDone(t) && (t == [] || !IsClose(t[|t| - 1]))
  }

  /** What a worker may do next, given all it has done. */
  predicate Proper(t: seq<Event>, e: Event) {
    match e
    case Received(_) => !HalfDone(t) && !Over(t)
    case WroteLocal(bytes) => t != [] && IsWrite(t[|t| - 1]) && t[|t| - 1].packet.payload == bytes
    case WriteFailed => t != [] && IsWrite(t[|t| - 1])
    case TookLocal(bytes) => bytes != [] && !HalfDone(t) && !Over(t) && Outstanding(t) == 0
    case SawEof => !HalfDone(t) && !Over(t) && Outstanding(t) == 0
    case Sent(command, payload) => Due(t, command, payload)
    case Unsent(command, payload) => Due(t, command, payload)
  }

  /** Every event was proper when it happened. */
  predicate Orderly(t: seq<Event>) {
    t == [] || (Orderly(t[..|t| - 1]) && Proper(t[..|t| - 1], t[|t| - 1]))
  }

  lemma OrderlyGrows(t: seq<Event>, e: Event)
    requires Orderly(t) && Proper(t, e)
    ensures Orderly(t + [e])
  {
    assert (t + [e])[..|t|] == t;
  }

  lemma {:induction false} OrderlyAt(t: seq<Event>, k: nat)
    requires Orderly(t) && k <= |t|
    ensures Orderly(t[..k]) && (k < |t| ==> Proper(t[..k], t[k]))
    decreases |t|
  {
    if k == |t| {
      assert t[..k] == t;
    } else if k < |t| - 1 {
      OrderlyAt(t[..|t| - 1], k);
      assert t[..|t| - 1][..k] == t[..k];
    }
  }

  /** Behind the end of the work there is nothing but the closing CLSE. */
  lemma {:induction false} EndsAreLast(t: seq<Event>)
    requires Orderly(t)
    ensures forall k | 0 <= k < |t| && IsClose(t[k]) :: k == |t| - 1
    ensures forall k | 0 <= k < |t| && (Ends(t[k]) || Strays(t[k])) ::
              k == |t| - 1 || (k == |t| - 2 && IsClose(t[|t| - 1]))
  {
    if t != [] {
      var init := t[..|t| - 1];
      EndsAreLast(init);
      assert forall k | 0 <= k < |init| :: init[k] == t[k];
    }
  }

  /** The last thing done before the stream was closed, or tried to. */
  function LastWork(t: seq<Event>): Option<Event> {
    if t == [] then None
    else if !IsClose(t[|t| - 1]) then Some(t[|t| - 1])
    else if |t| == 1 then None
    else Some(t[|t| - 2])
  }

  // ---- What an orderly trace adds up to ----

  /** The bytes taken and not tried to send yet, when the trace stops between the two. */
  function InHand(t: seq<Event>): seq<byte> {
    if t != [] && t[|t| - 1].TookLocal? then t[|t| - 1].bytes else []
  }

  /** The payload of the WRTE that could not be sent. */
  function Refused(t: seq<Event>): seq<byte> {
    if t == [] then []
    else
      var last := t[|t| - 1];
      if last.Unsent? && last.command == Wrte then Refused(t[..|t| - 1]) + last.payload else Refused(t[..|t| - 1])
  }

  function OkaysUnsent(t: seq<Event>): nat {
    if t == [] then 0
    else OkaysUnsent(t[..|t| - 1]) + One(t[|t| - 1].Unsent? && t[|t| - 1].command == Okay)
  }

  /** Something other than a CLSE could not be sent. */
  predicate Failed(t: seq<Event>) {
    exists k | 0 <= k < |t| :: t[k].Unsent? && t[k].command != Clse
  }

  lemma FailedGrows(t: seq<Event>)
    requires t != []
    ensures Failed(t) <==> Failed(t[..|t| - 1]) || (t[|t| - 1].Unsent? && t[|t| - 1].command != Clse)
  {
    var init := t[..|t| - 1];
    if Failed(init) {
      var k :| 0 <= k < |init| && init[k].Unsent? && init[k].command != Clse;
      assert t[k] == init[k];
    }
    if Failed(t) {
      var k :| 0 <= k < |t| && t[k].Unsent? && t[k].command != Clse;
      assert k < |init| ==> init[k] == t[k];
    }
  }

  /** After a send that failed, nothing is done but one more CLSE. */
  lemma {:induction false} FailureEnds(t: seq<Event>)
    requires Orderly(t)
    ensures Failed(t) ==> Over(t)
    ensures forall k | 0 <= k < |t| && IsClose(t[k]) :: k == |t| - 1
  {
    if t != [] {
      FailureEnds(t[..|t| - 1]);
      FailedGrows(t);
    }
  }

  /** Nothing lost and nothing reordered on the way to the device, and one WRTE in flight at most, at every moment. */
  lemma {:induction false} OrderlySends(t: seq<Event>)
    requires Orderly(t)
    ensures SentData(t) + Refused(t) + InHand(t) == Taken(t)
    ensures Outstanding(t) <= 1 && (t != [] && t[|t| - 1].TookLocal? ==> Outstanding(t) == 0 && InHand(t) != [])
    ensures Refused(t) != [] ==> Failed(t)
  {
    if t != [] {
      var init := t[..|t| - 1];
      OrderlySends(init);
      FailureEnds(init);
      FailedGrows(t);
    }
  }

  /** One OKAY for every write; the first OKAY of a relay, which opens the stream, answers none. */
  lemma {:induction false} OrderlyAcknowledges(t: seq<Event>)
    requires Orderly(t)
    ensures OkaysSent(t) + OkaysUnsent(t) + One(t != [] && t[|t| - 1].WroteLocal?) == Writes(t) + One(OpensWithOkay(t))
    ensures OkaysUnsent(t) > 0 ==> Failed(t)
  {
    if t != [] {
      OrderlyAcknowledges(t[..|t| - 1]);
      FailedGrows(t);
    }
  }

  predicate OpensWithOkay(t: seq<Event>) {
    t != [] && (t[0] == Sent(Okay, []) || t[0] == Unsent(Okay, []))
  }

  /** What failed was the bytes of a WRTE or the OKAY of a write. */
  lemma {:induction false} FailureShows(t: seq<Event>)
    requires Orderly(t) && Failed(t)
    ensures Refused(t) != [] || OkaysUnsent(t) > 0
  {
    FailedGrows(t);
    if Failed(t[..|t| - 1]) {
      FailureShows(t[..|t| - 1]);
    } else {
      OrderlySends(t[..|t| - 1]);
    }
  }

  /** What is written is what came, in order, and all of it unless a write failed. */
  lemma {:induction false} OrderlyDelivers(t: seq<Event>)
    requires Orderly(t)
    ensures LocalData(t) <= DeviceData(t)
    ensures WriteFailed !in t ==> LocalData(t) + Unwritten(t) == DeviceData(t)
    ensures Unwritten(t) != [] ==> WriteFailed !in t
    ensures WriteFailed in t ==> Over(t)
  {
    if t != [] {
      var init, last := t[..|t| - 1], t[|t| - 1];
      OrderlyDelivers(init);
      MemberGrows(t, WriteFailed);
    }
  }

  /** The payload of a WRTE that was taken last. */
  function Unwritten(t: seq<Event>): seq<byte> {
    if t != [] && IsWrite(t[|t| - 1]) then t[|t| - 1].packet.payload else []
  }

  lemma MemberGrows(t: seq<Event>, e: Event)
    requires t != []
    ensures e in t <==> e in t[..|t| - 1] || e == t[|t| - 1]
  {
    assert t == t[..|t| - 1] + [t[|t| - 1]];
  }

  // ---- Faithful ----

  /**
   Nothing is lost and nothing reordered, in both directions and wherever a run stops: the WRTEs sent, one that could
   not be, and what is in hand, are the bytes taken from the socket; the socket was given what the device sent unless
   a write to it failed; each write has its one OKAY, sent or not, but for one cut off; one WRTE at most was in flight
   at every moment; the end of the socket was seen only with none in flight; and nothing follows a CLSE.
   */
  ghost predicate Faithful(t: seq<Event>, unasked: nat) {
    && SentData(t) + Refused(t) + InHand(t) == Taken(t)
    && LocalData(t) <= DeviceData(t) && (WriteFailed !in t ==> LocalData(t) == DeviceData(t))
    && OkaysSent(t) + OkaysUnsent(t) + One(t != [] && t[|t| - 1].WroteLocal?) == Writes(t) + unasked
    && (forall k | 0 <= k <= |t| :: Outstanding(t[..k]) <= 1)
    && (forall k | 0 <= k < |t| && t[k].SawEof? :: Outstanding(t[..k]) == 0)
    && (forall k | 0 <= k < |t| && IsClose(t[k]) :: k == |t| - 1)
  }

  lemma OrderlyIsFaithful(t: seq<Event>)
    requires Orderly(t) && (t == [] || !IsWrite(t[|t| - 1]))
    ensures Faithful(t, One(OpensWithOkay(t)))
  {
    OrderlySends(t);
    OrderlyAcknowledges(t);
    OrderlyDelivers(t);
    FailureEnds(t);
    forall k | 0 <= k <= |t| ensures Outstanding(t[..k]) <= 1 {
      OrderlyAt(t, k);
      OrderlySends(t[..k]);
    }
    forall k | 0 <= k < |t| && t[k].SawEof? ensures Outstanding(t[..k]) == 0 {
      OrderlyAt(t, k);
    }
  }

  /** All bytes taken were sent, and every write was acknowledged. */
  predicate Whole(t: seq<Event>, unasked: nat) {
    SentData(t) == Taken(t) && OkaysSent(t) == Writes(t) + unasked
  }

  /** The stream was closed: the CLSE went out. */
  predicate Closed(t: seq<Event>) {
    t != [] && t[|t| - 1] == Sent(Clse, [])
  }

  /** A send failed and a later one went through. */
  predicate Skipped(t: seq<Event>) {
    exists i, j | 0 <= i < j < |t| :: t[i].Unsent? && t[j].Sent?
  }

  /** Behind a CLSE that went out everything is whole, unless some send before it failed; and that is the only way. */
  lemma ClosedExactly(t: seq<Event>)
    requires Orderly(t)
    ensures (Closed(t) ==> Whole(t, One(OpensWithOkay(t)))) <==> !Skipped(t)
  {
    FailureEnds(t);
    if Closed(t) {
      ClosedWhole(t);
      ClosedSkipped(t);
    } else {
      forall i, j | 0 <= i < j < |t| && t[i].Unsent? && t[j].Sent? ensures false {
        SkippedCloses(t, i, j);
      }
    }
  }

  /** What is sent after a failure is the CLSE. */
  lemma SkippedCloses(t: seq<Event>, i: nat, j: nat)
    requires Orderly(t) && i < j < |t| && t[i].Unsent? && t[j].Sent?
    ensures Closed(t) && t[i].command != Clse
  {
    FailureEnds(t);
    OrderlyAt(t, j);
    FailureEnds(t[..j]);
    assert t[..j][i] == t[i];
    assert Failed(t[..j]);
  }

  lemma ClosedSkipped(t: seq<Event>)
    requires Orderly(t) && Closed(t)
    ensures Failed(t) <==> Skipped(t)
  {
    if Failed(t) {
      var i :| 0 <= i < |t| && t[i].Unsent? && t[i].command != Clse;
      assert i < |t| - 1;
    }
    if Skipped(t) {
      var i, j :| 0 <= i < j < |t| && t[i].Unsent? && t[j].Sent?;
      SkippedCloses(t, i, j);
    }
  }

  lemma ClosedWhole(t: seq<Event>)
    requires Orderly(t) && Closed(t)
    ensures Whole(t, One(OpensWithOkay(t))) <==> !Failed(t)
  {
    OrderlySends(t);
    OrderlyAcknowledges(t);
    if Failed(t) {
      FailureShows(t);
      assert |Taken(t)| == |SentData(t)| + |Refused(t)|;
    } else {
      assert SentData(t) + [] + [] == SentData(t);
    }
  }
}
