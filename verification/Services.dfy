/**
 Services read through the dispatcher (adb_client/src/message_devices/dispatched_device.rs): bytes taken from a queue of
 packets with one OKAY for each WRTE, and the two protocols spoken on top of them, shell version 2 and the download.
 */
module Services {
  import opened Bytes
  import opened Message
  import opened SyncReply

  const MAX_SHELL_PACKET: nat := 0x10_0000
  const MAX_DIAGNOSTICS: nat := 0x1_0000
  const MAX_SYNC_PACKET: nat := 0x1_0000

  /** The service bytes that a queue of packets carries before something other than WRTE and OKAY. */
  function Carried(packets: seq<Packet>): seq<byte> {
    if packets == [] then []
    else if packets[0].command == Wrte then packets[0].payload + Carried(packets[1..])
    else if packets[0].command == Okay then Carried(packets[1..])
    else []
  }

  // ---- Shell version 2 ----

  datatype ShellEnd = Exited(code: byte) | BadExit | Oversized | Invalid | Interrupted

  datatype Shell = Shell(stdout: seq<byte>, stderr: seq<byte>, end: ShellEnd)

  function Prefixed(stdout: seq<byte>, stderr: seq<byte>, s: Shell): Shell {
    Shell(stdout + s.stdout, stderr + s.stderr, s.end)
  }

  /** The two channels of a service stream, up to its exit packet or to what is wrong with it. */
  function Demultiplexed(s: seq<byte>): Shell
    decreases |s|
  {
    if |s| < 5 then Shell([], [], Interrupted)
    else if Word(s, 1) > MAX_SHELL_PACKET then Shell([], [], Oversized)
    else if |s| < 5 + Word(s, 1) then Shell([], [], Interrupted)
    else
      var data, rest := s[5..5 + Word(s, 1)], s[5 + Word(s, 1)..];
      if s[0] == 1 then Prefixed(data, [], Demultiplexed(rest))
      else if s[0] == 2 then Prefixed([], data, Demultiplexed(rest))
      else if s[0] == 3 then Shell([], [], if |data| == 1 then Exited(data[0]) else BadExit)
      else Shell([], [], Invalid)
  }

  /** The diagnostics that are kept: the first 64 KiB. */
  function Kept(stderr: seq<byte>): seq<byte> {
    if |stderr| <= MAX_DIAGNOSTICS then stderr else stderr[..MAX_DIAGNOSTICS]
  }

  /** What the caller is told: exit zero, another exit with the diagnostics that were kept, or that there was none. */
  datatype Verdict = Success | RemoteExit(code: byte, diagnostics: seq<byte>) | NoExit(end: ShellEnd)

  function VerdictOf(shell: Shell): Verdict {
    if !shell.end.Exited? then NoExit(shell.end)
    else if shell.end.code == 0 then Success
    else RemoteExit(shell.end.code, Kept(shell.stderr))
  }

  // ---- Download ----

  datatype PullEnd = Complete | Refused(message: seq<byte>) | InvalidPacket | Closed

  datatype Download = Download(output: seq<byte>, end: PullEnd)

  /** What a reply to RECV delivers.  A record that is cut short delivers nothing of its body. */
  function Downloaded(s: seq<byte>): Download
    decreases |s|
  {
    if |s| < 8 then Download([], Closed)
    else
      var id, n := s[..4], Word(s, 4);
      if id == DONE then Download([], Complete)
      else if id == DATA && n <= MAX_SYNC_PACKET then
        if |s| < 8 + n then Download([], Closed)
        else
          var next := Downloaded(s[8 + n..]);
          next.(output := s[8..8 + n] + next.output)
      else if id == FAIL && n <= MAX_SYNC_PACKET then
        if |s| < 8 + n then Download([], Closed) else Download([], Refused(s[8..8 + n]))
      else Download([], InvalidPacket)
  }

  lemma DownloadedStep(s: seq<byte>)
    requires |s| >= 8 && Word(s, 4) <= MAX_SYNC_PACKET && 8 + Word(s, 4) <= |s|
    ensures var n := Word(s, 4); var next := Downloaded(s[8 + n..]);
            && s[8..][..n] == s[8..8 + n] && s[8..][n..] == s[8 + n..]
            && (s[..4] == DATA ==> Downloaded(s) == Download(s[8..8 + n] + next.output, next.end))
            && (s[..4] == FAIL ==> Downloaded(s) == Download([], Refused(s[8..8 + n])))
  {
  }

  /** How many of some packets carry a command. */
  function Count(packets: seq<Packet>, command: Command): nat {
    if packets == [] then 0
    else Count(packets[..|packets| - 1], command) + One(packets[|packets| - 1].command == command)
  }

  lemma CountGrows(packets: seq<Packet>, p: Packet, command: Command)
    ensures Count(packets + [p], command) == Count(packets, command) + One(p.command == command)
  {
    assert (packets + [p])[..|packets|] == packets;
  }

  class Service {
    const localId: u32
    const remoteId: u32

    /** What the dispatcher has for this session; when it runs out, receiving fails. */
    var incoming: seq<Packet>
    var sent: seq<Packet>
    var buffered: seq<byte>

    /** Everything the dispatcher delivers, how much of it has been taken, and what was sent before. */
    ghost const queue: seq<Packet>
    ghost const opening: seq<Packet>
    ghost var taken: nat

    /** Every packet taken has been replied to, in turn. */
    ghost predicate Valid()
      reads this
    {
      && taken <= |queue|
      && incoming == queue[taken..]
      && sent == opening + Replies(queue[..taken])
    }

    constructor (localId: u32, remoteId: u32, incoming: seq<Packet>, sent: seq<Packet>)
      ensures Valid() && this.localId == localId && this.remoteId == remoteId
      ensures queue == incoming && this.incoming == incoming && opening == sent && taken == 0 && buffered == []
    {
      this.localId, this.remoteId, this.incoming, this.sent, buffered := localId, remoteId, incoming, sent, [];
      queue, opening, taken := incoming, sent, 0;
    }

    /** All the bytes that reading can still give. */
    ghost function Pending(): seq<byte>
      reads this
    {
      buffered + Carried(incoming)
    }

    /** What is sent for a packet as it is taken: an OKAY for a WRTE, a CLSE for a CLSE. */
    function ReplyTo(packet: Packet): seq<Packet> {
      match packet.command
      case Wrte => [Packet(Okay, localId, remoteId, [])]
      case Clse => [Packet(Clse, localId, remoteId, [])]
      case _ => []
    }

    ghost function Replies(packets: seq<Packet>): seq<Packet> {
      if packets == [] then [] else Replies(packets[..|packets| - 1]) + ReplyTo(packets[|packets| - 1])
    }

    /** A reply on this stream: no payload, and the addresses of its two ends. */
    predicate OnStream(p: Packet) {
      p.command in {Okay, Clse} && p.arg0 == localId && p.arg1 == remoteId && p.payload == []
    }

    /**
     What has been sent behind `opening`: an OKAY for each WRTE taken, each in its turn, a CLSE for each CLSE taken, and
     `closes` more, all on this stream.
     */
    ghost predicate Acknowledged(closes: nat)
      reads this
    {
      taken <= |queue| && opening <= sent && Answers(sent[|opening|..], queue[..taken], closes)
    }

    predicate Answers(mine: seq<Packet>, packets: seq<Packet>, closes: nat) {
      && (forall p <- mine :: OnStream(p))
      && Count(mine, Okay) == Count(packets, Wrte)
      && Count(mine, Clse) == Count(packets, Clse) + closes
      && forall k | 0 <= k <= |packets| :: InTurn(mine, packets[..k])
    }

    /** When these packets had been taken, their WRTEs had been acknowledged. */
    predicate InTurn(mine: seq<Packet>, packets: seq<Packet>) {
      var n := Count(packets, Wrte) + Count(packets, Clse);
      n <= |mine| && Count(mine[..n], Okay) == Count(packets, Wrte)
    }

    lemma ReplyCounts(replies: seq<Packet>, packet: Packet)
      requires forall p <- replies :: OnStream(p)
      ensures var more := replies + ReplyTo(packet);
              && (forall p <- more :: OnStream(p))
              && Count(more, Okay) == Count(replies, Okay) + One(packet.command == Wrte)
              && Count(more, Clse) == Count(replies, Clse) + One(packet.command == Clse)
              && |more| == |replies| + One(packet.command == Wrte) + One(packet.command == Clse)
    {
      if packet.command == Wrte || packet.command == Clse {
        var reply := ReplyTo(packet)[0];
        assert OnStream(reply);
        CountGrows(replies, reply, Okay);
        CountGrows(replies, reply, Clse);
      } else {
        assert replies + ReplyTo(packet) == replies;
      }
    }

    lemma {:induction false} RepliesCount(packets: seq<Packet>)
      ensures forall p <- Replies(packets) :: OnStream(p)
      ensures Count(Replies(packets), Okay) == Count(packets, Wrte)
      ensures Count(Replies(packets), Clse) == Count(packets, Clse)
      ensures |Replies(packets)| == Count(packets, Wrte) + Count(packets, Clse)
    {
      if packets != [] {
        RepliesCount(packets[..|packets| - 1]);
        ReplyCounts(Replies(packets[..|packets| - 1]), packets[|packets| - 1]);
      }
    }

    lemma {:induction false} RepliesInTurn(packets: seq<Packet>, k: nat)
      requires k <= |packets|
      ensures Replies(packets[..k]) <= Replies(packets)
      decreases |packets|
    {
      if k == |packets| {
        assert packets[..k] == packets;
      } else {
        RepliesInTurn(packets[..|packets| - 1], k);
        assert packets[..|packets| - 1][..k] == packets[..k];
      }
    }

    lemma PrefixInTurn(mine: seq<Packet>, replies: seq<Packet>, packets: seq<Packet>)
      requires replies <= mine && |replies| == Count(packets, Wrte) + Count(packets, Clse)
      requires Count(replies, Okay) == Count(packets, Wrte)
      ensures InTurn(mine, packets)
    {
      assert mine[..|replies|] == replies;
    }

    lemma TurnHolds(mine: seq<Packet>, packets: seq<Packet>, k: nat)
      requires k <= |packets| && Replies(packets) <= mine
      ensures InTurn(mine, packets[..k])
    {
      RepliesInTurn(packets, k);
      RepliesCount(packets[..k]);
      PrefixInTurn(mine, Replies(packets[..k]), packets[..k]);
    }

    lemma MineCounts(mine: seq<Packet>, replies: seq<Packet>, closing: bool)
      requires mine == if closing then replies + [Packet(Clse, localId, remoteId, [])] else replies
      requires forall p <- replies :: OnStream(p)
      ensures forall p <- mine :: OnStream(p)
      ensures Count(mine, Okay) == Count(replies, Okay) && Count(mine, Clse) == Count(replies, Clse) + One(closing)
    {
      CountGrows(replies, Packet(Clse, localId, remoteId, []), Okay);
      CountGrows(replies, Packet(Clse, localId, remoteId, []), Clse);
    }

    lemma AllInTurn(mine: seq<Packet>, packets: seq<Packet>)
      requires Replies(packets) <= mine
      ensures forall k | 0 <= k <= |packets| :: InTurn(mine, packets[..k])
    {
      forall k | 0 <= k <= |packets| ensures InTurn(mine, packets[..k]) {
        TurnHolds(mine, packets, k);
      }
    }

    lemma RepliesAnswer(mine: seq<Packet>, packets: seq<Packet>, closing: bool)
      requires mine == if closing then Replies(packets) + [Packet(Clse, localId, remoteId, [])] else Replies(packets)
      ensures Answers(mine, packets, One(closing))
    {
      RepliesCount(packets);
      MineCounts(mine, Replies(packets), closing);
      AllInTurn(mine, packets);
    }

    /** All that has been taken is acknowledged, with a CLSE on top or without. */
    lemma RepliesAcknowledge(closing: bool)
      requires taken <= |queue|
      requires sent == opening + Replies(queue[..taken]) +
                 (if closing then [Packet(Clse, localId, remoteId, [])] else [])
      ensures Acknowledged(One(closing))
    {
      RepliesAnswer(sent[|opening|..], queue[..taken], closing);
    }

    /** So it is in every state that the methods below leave, between any two packets. */
    lemma ValidAcknowledges()
      requires Valid()
      ensures Acknowledged(0)
    {
      assert sent + [] == sent;
      RepliesAcknowledge(false);
    }

    /** One more packet taken, and its reply. */
    lemma OneTaken(k: nat)
      requires k < |queue|
      ensures queue[k..][1..] == queue[k + 1..] && queue[k..][0] == queue[k]
      ensures opening + Replies(queue[..k + 1]) == opening + Replies(queue[..k]) + ReplyTo(queue[k])
    {
      assert queue[..k + 1][..k] == queue[..k];
      Regrouped(opening, Replies(queue[..k]), ReplyTo(queue[k]));
    }

    /** The reply to a packet as it is taken. */
    method Reply(packet: Packet)
      modifies `sent
      ensures sent == old(sent) + (if packet.command == Wrte then [Packet(Okay, localId, remoteId, [])]
                                   else if packet.command == Clse then [Packet(Clse, localId, remoteId, [])]
                                   else [])
    {
      if packet.command == Wrte {
        sent := sent + [Packet(Okay, localId, remoteId, [])];
      } else if packet.command == Clse {
        CloseAck();
      }
    }

    method TakePacket() returns (ok: bool)
      requires Valid() && incoming != []
      modifies `incoming, `sent, `buffered, `taken
      ensures Valid() && taken == old(taken) + 1 && incoming == old(incoming)[1..]
      ensures sent == old(sent) + (if old(incoming)[0].command == Wrte then [Packet(Okay, localId, remoteId, [])]
                                   else if old(incoming)[0].command == Clse then [Packet(Clse, localId, remoteId, [])]
                                   else [])
      ensures ok ==> Pending() == old(Pending())
      ensures !ok ==> Carried(old(incoming)) == [] && buffered == old(buffered)
    {
      var packet := incoming[0];
      OneTaken(taken);
      Regrouped(buffered, packet.payload, Carried(incoming[1..]));
      Reply(packet);
      incoming, taken := incoming[1..], taken + 1;
      if packet.command == Wrte {
        buffered := buffered + packet.payload;
      }
      ok := packet.command == Wrte || packet.command == Okay;
    }

    /** `read_bytes`. */
    method ReadBytes(length: nat) returns (r: Option<seq<byte>>)
      requires Valid()
      modifies `incoming, `sent, `buffered, `taken
      ensures Valid() && taken >= old(taken)
      ensures r.Some? <==> length <= |old(Pending())|
      ensures r.Some? ==> r.value == old(Pending())[..length] && Pending() == old(Pending())[length..]
    {
      ghost var all := Pending();
      while |buffered| < length
        invariant Valid() && taken >= old(taken)
        invariant Pending() == all
        decreases |incoming|
      {
        if incoming == [] {
          return None;
        }
        var ok := TakePacket();
        if !ok {
          return None;
        }
      }
      r, buffered := Some(buffered[..length]), buffered[length..];
    }

    /** `close_ack`. */
    method CloseAck()
      modifies `sent
      ensures sent == old(sent) + [Packet(Clse, localId, remoteId, [])]
    {
      sent := sent + [Packet(Clse, localId, remoteId, [])];
    }

    /** One shell packet, or the end. */
    method ShellPacket() returns (channel: byte, data: seq<byte>, end: Option<ShellEnd>)
      requires Valid()
      modifies `incoming, `sent, `buffered, `taken
      ensures Valid() && taken >= old(taken)
      ensures end.Some? ==> Demultiplexed(old(Pending())) == Shell([], [], end.value) && !end.value.Exited?
      ensures end.None? ==>
        && |Pending()| < |old(Pending())|
        && (channel == 1 ==> Demultiplexed(old(Pending())) == Prefixed(data, [], Demultiplexed(Pending())))
        && (channel == 2 ==> Demultiplexed(old(Pending())) == Prefixed([], data, Demultiplexed(Pending())))
        && (channel == 3 ==>
              Demultiplexed(old(Pending())) == Shell([], [], if |data| == 1 then Exited(data[0]) else BadExit))
        && (channel != 1 && channel != 2 && channel != 3 ==> Demultiplexed(old(Pending())) == Shell([], [], Invalid))
    {
      ghost var s := Pending();
      channel, data := 0, [];
      var header := ReadBytes(5);
      if header.None? {
        return channel, data, Some(Interrupted);
      }
      var length := Word(header.value, 1);
      assert length == Word(s, 1) && header.value[0] == s[0];
      if length > MAX_SHELL_PACKET {
        return channel, data, Some(Oversized);
      }
      var body := ReadBytes(length);
      if body.None? {
        return channel, data, Some(Interrupted);
      }
      assert s[5..][..length] == s[5..5 + length] && s[5..][length..] == s[5 + length..];
      return header.value[0], body.value, None;
    }

    /** The loop of `shell_command`. */
    method Demultiplex() returns (stdout: seq<byte>, verdict: Verdict)
      requires Valid()
      modifies `incoming, `sent, `buffered, `taken
      ensures stdout == Demultiplexed(old(Pending())).stdout
      ensures verdict == VerdictOf(Demultiplexed(old(Pending())))
      ensures taken <= |queue| && incoming == queue[taken..]
      ensures sent == opening + Replies(queue[..taken]) +
                (if verdict.NoExit? then [] else [Packet(Clse, localId, remoteId, [])])
    {
      stdout := [];
      var errors := [];
      ghost var all, stderr := Pending(), [];
      while true
        invariant Valid()
        invariant Demultiplexed(all) == Prefixed(stdout, stderr, Demultiplexed(Pending()))
        invariant errors == Kept(stderr)
        decreases |Pending()|
      {
        var channel, data, stop := ShellPacket();
        if stop.Some? {
          return stdout, NoExit(stop.value);
        }
        ghost var rest := Demultiplexed(Pending());
        if channel == 1 {
          StdoutGrows(stdout, stderr, data, rest);
          stdout := stdout + data;
        } else if channel == 2 {
          StderrGrows(stdout, stderr, data, rest);
          KeptGrows(stderr, data);
          stderr := stderr + data;
          errors := Retained(errors, data);
        } else if channel == 3 {
          if |data| != 1 {
            return stdout, NoExit(BadExit);
          }
          CloseAck();
          return stdout, if data[0] == 0 then Success else RemoteExit(data[0], errors);
        } else {
          return stdout, NoExit(Invalid);
        }
      }
    }

    /**
     `shell_command`: demultiplexes the service until its exit packet.  Whatever the packets the stream came in,
     standard output is the whole first channel, the diagnostics are the start of the second, and it succeeds on exit
     zero only.  Every WRTE is acknowledged as it is taken, and an exit is answered by one CLSE.
     */
    method ShellCommand() returns (stdout: seq<byte>, verdict: Verdict)
      requires Valid()
      modifies `incoming, `sent, `buffered, `taken
      ensures stdout == Demultiplexed(old(Pending())).stdout
      ensures verdict == VerdictOf(Demultiplexed(old(Pending())))
      ensures verdict.Success? <==> Demultiplexed(old(Pending())).end == Exited(0)
      ensures taken <= |queue| && incoming == queue[taken..]
      ensures sent == opening + Replies(queue[..taken]) +
                (if verdict.NoExit? then [] else [Packet(Clse, localId, remoteId, [])])
      ensures Acknowledged(One(!verdict.NoExit?))
    {
      stdout, verdict := Demultiplex();
      RepliesAcknowledge(!verdict.NoExit?);
    }

    /** One record of a download, or the end. */
    method PullRecord() returns (data: seq<byte>, end: Option<PullEnd>)
      requires Valid()
      modifies `incoming, `sent, `buffered, `taken
      ensures Valid() && taken >= old(taken)
      ensures end.Some? ==> Downloaded(old(Pending())) == Download([], end.value)
      ensures end.None? ==>
        && |Pending()| < |old(Pending())|
        && Downloaded(old(Pending())) == Download(data + Downloaded(Pending()).output, Downloaded(Pending()).end)
    {
      ghost var s := Pending();
      var header := ReadBytes(8);
      if header.None? {
        return [], Some(Closed);
      }
      var id, length := header.value[..4], Word(header.value, 4);
      assert id == s[..4] && length == Word(s, 4);
      if id == DONE {
        return [], Some(Complete);
      }
      if id == DATA && length <= MAX_SYNC_PACKET {
        var body := ReadBytes(length);
        if body.None? {
          return [], Some(Closed);
        }
        DownloadedStep(s);
        return body.value, None;
      }
      if id == FAIL && length <= MAX_SYNC_PACKET {
        var message := ReadBytes(length);
        if message.None? {
          return [], Some(Closed);
        }
        DownloadedStep(s);
        return [], Some(Refused(message.value));
      }
      return [], Some(InvalidPacket);
    }

    /** The loop of `pull`. */
    method PullRecords() returns (output: seq<byte>, end: PullEnd)
      requires Valid()
      modifies `incoming, `sent, `buffered, `taken
      ensures Valid() && Download(output, end) == Downloaded(old(Pending()))
    {
      output := [];
      ghost var all := Pending();
      while true
        invariant Valid()
        invariant Downloaded(all) == Download(output + Downloaded(Pending()).output, Downloaded(Pending()).end)
        decreases |Pending()|
      {
        var data, stop := PullRecord();
        if stop.Some? {
          return output, stop.value;
        }
        Regrouped(output, data, Downloaded(Pending()).output);
        output := output + data;
      }
    }

    /** `pull`, behind its request: the service is closed however the download ended. */
    method Pull() returns (output: seq<byte>, end: PullEnd)
      requires Valid()
      modifies `incoming, `sent, `buffered, `taken
      ensures Download(output, end) == Downloaded(old(Pending()))
      ensures taken <= |queue| && incoming == queue[taken..]
      ensures sent == opening + Replies(queue[..taken]) + [Packet(Clse, localId, remoteId, [])]
      ensures Acknowledged(1)
    {
      output, end := PullRecords();
      CloseAck();
      RepliesAcknowledge(true);
    }
  }

  lemma Prefix(a: seq<byte>, b: seq<byte>, c: seq<byte>, d: seq<byte>, s: Shell)
    ensures Prefixed(a, b, Prefixed(c, d, s)) == Prefixed(a + c, b + d, s)
  {
    assert a + (c + s.stdout) == a + c + s.stdout;
    assert b + (d + s.stderr) == b + d + s.stderr;
  }

  lemma StdoutGrows(stdout: seq<byte>, stderr: seq<byte>, data: seq<byte>, rest: Shell)
    ensures Prefixed(stdout, stderr, Prefixed(data, [], rest)) == Prefixed(stdout + data, stderr, rest)
  {
    Prefix(stdout, stderr, data, [], rest);
    assert stderr + [] == stderr;
  }

  lemma StderrGrows(stdout: seq<byte>, stderr: seq<byte>, data: seq<byte>, rest: Shell)
    ensures Prefixed(stdout, stderr, Prefixed([], data, rest)) == Prefixed(stdout, stderr + data, rest)
  {
    Prefix(stdout, stderr, [], data, rest);
    assert stdout + [] == stdout;
  }

  /** Appends what there is room for. */
  function Retained(errors: seq<byte>, data: seq<byte>): seq<byte> {
    if |errors| < MAX_DIAGNOSTICS then
      var remaining := MAX_DIAGNOSTICS - |errors|;
      errors + data[..if |data| < remaining then |data| else remaining]
    else errors
  }

  /** Appending what there is room for keeps the first 64 KiB. */
  lemma KeptGrows(stderr: seq<byte>, data: seq<byte>)
    ensures Kept(stderr + data) == Retained(Kept(stderr), data)
  {
    var room := MAX_DIAGNOSTICS - |Kept(stderr)|;
    if |stderr| >= MAX_DIAGNOSTICS {
      assert stderr[..MAX_DIAGNOSTICS] == (stderr + data)[..MAX_DIAGNOSTICS];
    } else if |data| >= room {
      assert (stderr + data)[..MAX_DIAGNOSTICS] == stderr + data[..room];
    }
  }

  // ---- What the shell decoder undoes ----

  datatype Chunk = Chunk(channel: byte, data: seq<byte>)

  /** A shell packet: channel, length, data. */
  function ShellFrame(c: Chunk): seq<byte>
    requires |c.data| <= MAX_SHELL_PACKET
  {
    [c.channel] + Le32(|c.data|) + c.data
  }

  function ShellFrames(chunks: seq<Chunk>): seq<byte>
    requires forall c <- chunks :: |c.data| <= MAX_SHELL_PACKET
  {
    if chunks == [] then [] else ShellFrame(chunks[0]) + ShellFrames(chunks[1..])
  }

  /** The data of one channel, in order. */
  function OnChannel(chunks: seq<Chunk>, channel: byte): seq<byte> {
    if chunks == [] then []
    else if chunks[0].channel == channel then chunks[0].data + OnChannel(chunks[1..], channel)
    else OnChannel(chunks[1..], channel)
  }

  lemma ShellFrameRead(c: Chunk, tail: seq<byte>)
    requires |c.data| <= MAX_SHELL_PACKET
    ensures var s := ShellFrame(c) + tail; var n := 5 + |c.data|;
            && |s| >= n && s[0] == c.channel && Word(s, 1) == |c.data| && s[5..n] == c.data && s[n..] == tail
  {
    WordOfLe32(|c.data|);
    var s := ShellFrame(c) + tail;
    assert s[1..5] == Le32(|c.data|);
    assert Word(s, 1) == Word(s[1..5], 0);
  }

  lemma ExitFrame(code: byte, tail: seq<byte>)
    ensures Demultiplexed(ShellFrame(Chunk(3, [code])) + tail) == Shell([], [], Exited(code))
  {
    ShellFrameRead(Chunk(3, [code]), tail);
  }

  lemma ChannelFrame(c: Chunk, rest: seq<byte>)
    requires |c.data| <= MAX_SHELL_PACKET && (c.channel == 1 || c.channel == 2)
    ensures Demultiplexed(ShellFrame(c) + rest) ==
            if c.channel == 1 then Prefixed(c.data, [], Demultiplexed(rest))
            else Prefixed([], c.data, Demultiplexed(rest))
  {
    ShellFrameRead(c, rest);
  }

  /** Behind whole packets of the two channels the decoder has delivered them, and goes on. */
  lemma {:induction false} ShellBehind(chunks: seq<Chunk>, rest: seq<byte>)
    requires forall c <- chunks :: |c.data| <= MAX_SHELL_PACKET && (c.channel == 1 || c.channel == 2)
    ensures Demultiplexed(ShellFrames(chunks) + rest) ==
            Prefixed(OnChannel(chunks, 1), OnChannel(chunks, 2), Demultiplexed(rest))
  {
    if chunks == [] {
      assert ShellFrames(chunks) + rest == rest;
      Prefixed0(Demultiplexed(rest));
    } else {
      var others := ShellFrames(chunks[1..]);
      ShellBehind(chunks[1..], rest);
      ChannelFrame(chunks[0], others + rest);
      Regrouped(ShellFrame(chunks[0]), others, rest);
      var c, one, two := chunks[0], OnChannel(chunks[1..], 1), OnChannel(chunks[1..], 2);
      Prefix(if c.channel == 1 then c.data else [], if c.channel == 2 then c.data else [], one, two,
             Demultiplexed(rest));
      assert [] + one == one && [] + two == two;
    }
  }

  lemma Prefixed0(s: Shell)
    ensures Prefixed([], [], s) == s
  {
    assert [] + s.stdout == s.stdout && [] + s.stderr == s.stderr;
  }

  lemma ShellDecodes(chunks: seq<Chunk>, code: byte, tail: seq<byte>)
    requires forall c <- chunks :: |c.data| <= MAX_SHELL_PACKET && (c.channel == 1 || c.channel == 2)
    ensures Demultiplexed(ShellFrames(chunks) + (ShellFrame(Chunk(3, [code])) + tail)) ==
            Shell(OnChannel(chunks, 1), OnChannel(chunks, 2), Exited(code))
  {
    ShellBehind(chunks, ShellFrame(Chunk(3, [code])) + tail);
    ExitFrame(code, tail);
    assert OnChannel(chunks, 1) + [] == OnChannel(chunks, 1) && OnChannel(chunks, 2) + [] == OnChannel(chunks, 2);
  }

  /** What is wrong with a packet behind the two channels. */
  lemma FaultyFrame(channel: byte, length: u32, body: seq<byte>)
    ensures var s := [channel] + Le32(length) + body;
            && (length > 0x10_0000 ==> Demultiplexed(s) == Shell([], [], Oversized))
            && (length <= 0x10_0000 && |body| < length ==> Demultiplexed(s) == Shell([], [], Interrupted))
            && (length <= 0x10_0000 && |body| >= length && channel !in {1, 2, 3} ==>
                  Demultiplexed(s) == Shell([], [], Invalid))
            && (length <= 0x10_0000 && |body| >= length && channel == 3 && length != 1 ==>
                  Demultiplexed(s) == Shell([], [], BadExit))
  {
    var s := [channel] + Le32(length) + body;
    WordOfLe32(length);
    assert s[1..5] == Le32(length);
    assert Word(s, 1) == Word(s[1..5], 0);
  }

  /**
   What a command that goes wrong comes to.  Behind whole packets of the two channels, which are delivered: a length
   above 1 MiB is oversized, a packet cut short is an interruption, another channel is invalid, and so is an exit of
   other than one byte; none of them is a success.
   */
  lemma ShellFaults(chunks: seq<Chunk>, channel: byte, length: u32, body: seq<byte>)
    requires forall c <- chunks :: |c.data| <= MAX_SHELL_PACKET && (c.channel == 1 || c.channel == 2)
    ensures var shell := Demultiplexed(ShellFrames(chunks) + ([channel] + Le32(length) + body));
            && (length > 0x10_0000 ==>
                  shell == Shell(OnChannel(chunks, 1), OnChannel(chunks, 2), Oversized))
            && (length <= 0x10_0000 && |body| < length ==>
                  shell == Shell(OnChannel(chunks, 1), OnChannel(chunks, 2), Interrupted))
            && (length <= 0x10_0000 && |body| >= length && channel !in {1, 2, 3} ==>
                  shell == Shell(OnChannel(chunks, 1), OnChannel(chunks, 2), Invalid))
            && (length <= 0x10_0000 && |body| >= length && channel == 3 && length != 1 ==>
                  shell == Shell(OnChannel(chunks, 1), OnChannel(chunks, 2), BadExit))
  {
    ShellBehind(chunks, [channel] + Le32(length) + body);
    FaultyFrame(channel, length, body);
    assert OnChannel(chunks, 1) + [] == OnChannel(chunks, 1) && OnChannel(chunks, 2) + [] == OnChannel(chunks, 2);
  }

  /**
   Standard output is the first channel in order, diagnostics the second, and the command succeeds if and only if the
   exit byte is zero; otherwise the caller is given the byte and the first 64 KiB of diagnostics.
   */
  lemma ShellRoundTrip(chunks: seq<Chunk>, code: byte, tail: seq<byte>)
    requires forall c <- chunks :: |c.data| <= MAX_SHELL_PACKET && (c.channel == 1 || c.channel == 2)
    ensures var shell := Demultiplexed(ShellFrames(chunks) + ShellFrame(Chunk(3, [code])) + tail);
            && shell == Shell(OnChannel(chunks, 1), OnChannel(chunks, 2), Exited(code))
            && (code == 0 ==> VerdictOf(shell) == Success)
            && (code != 0 ==>
                  && VerdictOf(shell).RemoteExit? && VerdictOf(shell).code == code
                  && VerdictOf(shell).diagnostics <= OnChannel(chunks, 2)
                  && |VerdictOf(shell).diagnostics| == Min(|OnChannel(chunks, 2)|, 0x1_0000))
  {
    ShellDecodes(chunks, code, tail);
    Regrouped(ShellFrames(chunks), ShellFrame(Chunk(3, [code])), tail);
  }

  /** The payloads of the WRTEs among some packets, in order. */
  function Payloads(packets: seq<Packet>): seq<seq<byte>> {
    if packets == [] then []
    else if packets[0].command == Wrte then [packets[0].payload] + Payloads(packets[1..])
    else Payloads(packets[1..])
  }

  /** Service bytes do not show how they were packetised: only WRTE payloads count, in order, up to another command. */
  lemma {:induction false} CarriedIsConcatenation(packets: seq<Packet>, more: seq<Packet>)
    requires forall i | 0 <= i < |packets| :: packets[i].command == Wrte || packets[i].command == Okay
    ensures Carried(packets + more) == Flatten(Payloads(packets)) + Carried(more)
    ensures more == [] || (more[0].command != Wrte && more[0].command != Okay) ==> Carried(more) == []
  {
    if packets == [] {
      assert packets + more == more;
    } else {
      assert (packets + more)[0] == packets[0] && (packets + more)[1..] == packets[1..] + more;
      CarriedIsConcatenation(packets[1..], more);
      if packets[0].command == Wrte {
        assert Payloads(packets)[1..] == Payloads(packets[1..]);
        Regrouped(packets[0].payload, Flatten(Payloads(packets[1..])), Carried(more));
      }
    }
  }
}
