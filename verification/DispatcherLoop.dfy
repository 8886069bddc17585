/**
 The dispatcher thread itself (adb_client/src/message_devices/transport_dispatcher.rs:262-419): a loop over its own
 session map, routes and cursor.  Each step it takes is a step of the transition system in `Dispatcher`, so that what is
 proved there of every run holds of this loop, whatever the clients do between its steps.
 */
module DispatcherLoop {
  import opened Bytes
  import opened Message
  import opened SessionIds
  import opened Dispatcher
  import opened DispatcherRuns

  /** What the transport gives when it is read: a packet, no packet in time, or an error. */
  datatype Arrival = Arrived(packet: Packet) | TimedOut | Broke

  /** The step that takes what the transport gives. */
  predicate Takes(act: Act, arrival: Arrival) {
    match arrival
    case Arrived(packet) => act.Read? && act.packet == packet
    case TimedOut => act.TimeOut?
    case Broke => act.ReadError?
  }

  class Loop {
    var running: bool
    var commands: seq<Cmd>
    var sessions: map<u32, Owner>
    var nextLocalId: u32
    var routes: map<seq<byte>, seq<byte>>

    /** The far ends of the channels: replies to registrations, completions, and packets. */
    var replies: map<Owner, Option<u32>>
    var channels: map<Owner, seq<Packet>>
    var answered: set<Token>
    var written: seq<Packet>

    /** Sessions handed to the relays. */
    var nextOwner: Owner
    var handles: map<Owner, u32>
    var settled: set<Owner>

    /** The requests made, and those that nobody will answer. */
    var nextToken: Token
    var dropped: set<Token>

    ghost var read: seq<Packet>
    ghost var history: map<Owner, Registration>

    ghost function State(): World
      reads this
    {
      World(running, commands, sessions, nextLocalId, routes, replies, handles, settled, channels, written, nextOwner,
            nextToken, answered, dropped, read, history)
    }

    constructor ()
      ensures State() == Initial()
    {
      running, commands, sessions, nextLocalId, routes := true, [], map[], 1, map[];
      replies, channels, answered, written := map[], map[], {}, [];
      nextOwner, handles, settled := 0, map[], {};
      dropped, nextToken, read, history := {}, 0, [], map[];
    }

    method DropQueue()
      modifies `commands, `replies, `dropped
      ensures commands == []
      ensures replies == old(replies + Refusals(commands)) && dropped == old(dropped + TokensOf(commands))
    {
      replies, dropped, commands := replies + Refusals(commands), dropped + TokensOf(commands), [];
    }

    method DropSessions(ghost ending: Ending)
      modifies `running, `sessions, `history
      ensures !running && sessions == map[] && history == old(Ended(history, sessions, ending))
    {
      history := Ended(history, sessions, ending);
      running, sessions := false, map[];
    }

    /** Returning drops the queue and the senders of every session. */
    method Return(ghost ending: Ending)
      modifies `running, `commands, `sessions, `replies, `dropped, `history
      ensures State() == Halted(old(State()), ending)
    {
      DropQueue();
      DropSessions(ending);
    }

    method Insert(owner: Owner, id: u32, after: u32)
      modifies this
      ensures State() == Registered(old(State()), owner, id, after)
    {
      sessions := sessions[id := owner];
      nextLocalId := after;
      channels := channels[owner := []];
      history := history[owner := Registration(id, |read|, Current)];
    }

    method Register(owner: Owner) returns (ghost id: Option<u32>, ghost after: u32)
      requires commands != [] && commands[0] == RegisterCmd(owner)
      modifies this
      ensures Allocates(old(sessions).Keys, old(nextLocalId), id, after)
      ensures State() == Added(old(State()).(commands := old(commands)[1..]), owner, id, after)
    {
      var r, next := AllocateLocalId(sessions.Keys, nextLocalId);
      commands := commands[1..];
      if r.Some? {
        Insert(owner, r.value, next);
      } else {
        nextLocalId := next;
      }
      replies := replies[owner := r];
      return r, next;
    }

    method Unregister(localId: u32)
      modifies this
      ensures State() == Unregistered(old(State()), localId)
    {
      if localId in sessions {
        history := Closed(history, sessions[localId], |read|);
        sessions := sessions - {localId};
      }
    }

    method SetRoute(token: Token, remote: seq<byte>, local: Option<seq<byte>>)
      requires commands != [] && commands[0] == RouteCmd(token, remote, local)
      modifies this
      ensures State() == Processed(old(State()), None, 0)
    {
      commands, answered := commands[1..], answered + {token};
      if local.Some? {
        routes := routes[remote := local.value];
      } else {
        routes := routes - {remote};
      }
    }

    method Write(token: Token, message: Packet)
      requires commands != [] && commands[0] == WriteCmd(token, message)
      modifies this
      ensures State() == Processed(old(State()), None, 0)
    {
      commands, written, answered := commands[1..], written + [message], answered + {token};
    }

    /** One command taken from the queue. */
    method ServeCommand() returns (ghost act: Act)
      requires running && commands != []
      modifies this
      ensures act.Process? && Enabled(old(State()), act) && State() == Processed(old(State()), act.id, act.after)
      ensures running ==> |commands| < |old(commands)|
    {
      act := Process(None, 0);
      match commands[0] {
        case WriteCmd(token, message) => Write(token, message);
        case RegisterCmd(owner) =>
          ghost var id, after := Register(owner);
          act := Process(id, after);
        case UnregisterCmd(localId, _) =>
          commands := commands[1..];
          Unregister(localId);
        case RouteCmd(token, remote, local) => SetRoute(token, remote, local);
        case RoutesCmd(token) => commands, answered := commands[1..], answered + {token};
        case ShutdownCmd => Return(Stopped(|read|));
      }
    }

    /** A packet that a device sent. */
    method Deliver(packet: Packet)
      requires running && packet.command != Open
      modifies this
      ensures State() == Routed(old(State()), packet)
    {
      read := read + [packet];
      var localId := packet.arg1;
      if localId in sessions && sessions[localId] in channels {
        var session := sessions[localId];
        channels := channels[session := channels[session] + [packet]];
      }
    }

    /** A session of the loop's own, sent to the connector of the relays. */
    method HandToRelay(id: u32, after: u32)
      modifies this
      ensures State() == Relayed(old(State()), id, after)
    {
      Insert(nextOwner, id, after);
      handles, settled, nextOwner := handles[nextOwner := id], settled + {nextOwner}, nextOwner + 1;
    }

    /** A connection that the device opened: relayed, refused or ignored. */
    method TakeOpen(packet: Packet) returns (ghost id: Option<u32>, ghost after: u32)
      requires running && packet.command == Open
      modifies this
      ensures Decide(old(routes), packet.payload).Relay? ==> Allocates(old(sessions).Keys, old(nextLocalId), id, after)
      ensures State() == Incoming(old(State()), packet, Decide(old(routes), packet.payload), id, after)
    {
      id, after := None, 0;
      read := read + [packet];
      match Decide(routes, packet.payload) {
        case Refuse => written := written + [Packet(Clse, 0, packet.arg0, [])];
        case Ignore =>
        case Relay(_) =>
          var r, next := AllocateLocalId(sessions.Keys, nextLocalId);
          id, after := r, next;
          if r.None? {
            nextLocalId := next;
          } else {
            HandToRelay(r.value, next);
          }
      }
    }

    /** Sends each registered session one CLSE, in whatever order the map gives them. */
    method WakeAll()
      requires MapOk(State()) && forall id <- sessions :: sessions[id] in channels
      modifies `channels
      ensures channels == Woken(old(State()))
    {
      ghost var w := State();
      var left := sessions.Keys;
      WokenAfterNone(w);
      while left != {}
        invariant left <= sessions.Keys && channels == WokenBut(w, left)
      {
        var id :| id in left;
        var session := sessions[id];
        WokenOneMore(w, left, id);
        channels := channels[session := channels[session] + [Packet(Clse, 0, id, [])]];
        left := left - {id};
      }
      WokenAfterAll(w);
    }

    /** A transport error wakes every session before the loop returns. */
    method Fail()
      requires running && MapOk(State()) && forall id <- sessions :: sessions[id] in channels
      modifies this
      ensures State() == Next(old(State()), ReadError)
    {
      WakeAll();
      Return(Failed(|read|));
    }

    /** One read of the transport, and what is done with what it gives. */
    method ReadOnce(arrival: Arrival) returns (ghost act: Act)
      requires running && MapOk(State()) && forall id <- sessions :: sessions[id] in channels
      modifies this
      ensures Enabled(old(State()), act) && State() == Next(old(State()), act)
      ensures Takes(act, arrival)
    {
      match arrival {
        case Arrived(packet) =>
          if packet.command == Open {
            ghost var id, after := TakeOpen(packet);
            act := Read(packet, id, after);
          } else {
            Deliver(packet);
            act := Read(packet, None, 0);
          }
        case TimedOut => act := TimeOut;
        case Broke =>
          Fail();
          act := ReadError;
      }
    }

    /** What holds of every state the loop can be in. */
    ghost predicate Sound()
      reads this
    {
      forall x: Owner :: OwnerInv(State(), x) && ChannelOk(State(), x)
    }

    /** Whatever step of the transition system was taken, by the loop or by a client. */
    twostate lemma StaysSound(act: Act)
      requires old(Sound()) && Enabled(old(State()), act) && State() == Next(old(State()), act)
      ensures Sound()
    {
      forall x: Owner ensures OwnerInv(State(), x) && ChannelOk(State(), x) {
        StepKeeps(old(State()), act, x);
        StepDelivers(old(State()), act, x);
      }
    }

    lemma SoundMap()
      requires Sound() && running
      ensures MapOk(State()) && forall id <- sessions :: sessions[id] in channels
    {
      assert OwnerInv(State(), 0);
      forall id <- sessions ensures sessions[id] in channels {
        assert ChannelOk(State(), sessions[id]);
      }
    }

    // ---- What clients do between the steps of the loop ----

    /** A request joins the queue, or is dropped when the loop has returned. */
    method Request(cmd: Token -> Cmd)
      modifies `commands, `dropped, `nextToken
      ensures State() == Ask(old(State()), cmd)
    {
      if running {
        commands := commands + [cmd(nextToken)];
      } else {
        dropped := dropped + {nextToken};
      }
      nextToken := nextToken + 1;
    }

    method Enqueue(cmd: Cmd)
      modifies `commands
      ensures State() == Submit(old(State()), cmd)
    {
      if running {
        commands := commands + [cmd];
      }
    }

    method RequestSession()
      modifies `commands, `replies, `nextOwner
      ensures State() == Next(old(State()), AskRegister)
    {
      if running {
        commands := commands + [RegisterCmd(nextOwner)];
      } else {
        replies := replies[nextOwner := None];
      }
      nextOwner := nextOwner + 1;
    }

    method TakeReply(owner: Owner)
      requires owner in replies
      modifies `replies, `handles, `settled
      ensures State() == PickedUp(old(State()), owner)
    {
      if replies[owner].Some? {
        handles := handles[owner := replies[owner].value];
      }
      replies, settled := replies - {owner}, settled + {owner};
    }

    method Drop(owner: Owner)
      requires owner in handles
      modifies `handles, `commands
      ensures State() == Next(old(State()), DropHandle(owner))
    {
      var localId := handles[owner];
      handles := handles - {owner};
      Enqueue(UnregisterCmd(localId, owner));
    }

    /** One step of some client, if it can be taken. */
    method Client(act: Act) returns (taken: bool)
      modifies this
      ensures taken <==> Enabled(old(State()), act) && !act.Process? && !act.Read? && !act.TimeOut? && !act.ReadError?
      ensures State() == if taken then Next(old(State()), act) else old(State())
      ensures running == old(running)
    {
      taken := true;
      match act {
        case AskRegister => RequestSession();
        case AskWrite(message) => Request((t: Token) => WriteCmd(t, message));
        case AskRoute(remote, local) => Request((t: Token) => RouteCmd(t, remote, local));
        case AskRoutes => Request((t: Token) => RoutesCmd(t));
        case AskShutdown => Enqueue(ShutdownCmd);
        case PickUp(owner) =>
          if owner in replies {
            TakeReply(owner);
          } else {
            taken := false;
          }
        case DropHandle(owner) =>
          if owner in handles {
            Drop(owner);
          } else {
            taken := false;
          }
        case _ => taken := false;
      }
    }

    /** Whatever some clients do. */
    method Interfere(wishes: seq<Act>) returns (ghost acts: seq<Act>)
      requires Sound()
      modifies this
      ensures Legal(old(State()), acts) && State() == After(old(State()), acts) && Sound()
      ensures running == old(running)
    {
      acts := [];
      ghost var start := State();
      for i := 0 to |wishes|
        invariant Legal(start, acts) && State() == After(start, acts) && Sound()
        invariant running == old(running)
      {
        label Before:
        var taken := Client(wishes[i]);
        if taken {
          StaysSound@Before(wishes[i]);
          OneMore(start, acts, wishes[i]);
          acts := acts + [wishes[i]];
        }
      }
    }

    /**
     One pass of the loop: serve everything that is queued, then read once.  `clients` is what clients do before each
     of these steps; what they queue is served too.  Unless a command ends the loop, the queue is empty when the
     transport is read, and what is read is taken.
     */
    method Pass(arrival: Arrival, clients: seq<seq<Act>>) returns (ghost acts: seq<Act>)
      requires running && Sound()
      modifies this
      ensures Legal(old(State()), acts) && State() == After(old(State()), acts) && Sound()
      ensures acts != [] && Legal(old(State()), acts[..|acts| - 1])
      ensures var last, before := acts[|acts| - 1], After(old(State()), acts[..|acts| - 1]);
              if last.Process? then !running else Takes(last, arrival) && before.running && before.commands == []
    {
      acts := [];
      ghost var start, act, theirs: seq<Act> := State(), TimeOut, [];
      var left := clients;
      while running && (commands != [] || left != [])
        invariant Legal(start, acts) && State() == After(start, acts) && Sound()
        invariant running || (acts != [] && acts[|acts| - 1].Process? && Legal(start, acts[..|acts| - 1]))
        decreases running, |left|, |commands|
      {
        if left != [] {
          theirs := Interfere(left[0]);
          ManyMore(start, acts, theirs);
          acts, left := acts + theirs, left[1..];
        }
        if commands != [] {
          label Before:
          act := ServeCommand();
          StaysSound@Before(act);
          OneMore(start, acts, act);
          assert (acts + [act])[..|acts|] == acts;
          acts := acts + [act];
        }
      }
      if running {
        SoundMap();
        label Before:
        act := ReadOnce(arrival);
        StaysSound@Before(act);
        OneMore(start, acts, act);
        assert (acts + [act])[..|acts|] == acts;
        acts := acts + [act];
      }
    }
  }

  /** The channels when all sessions but those in `left` have been woken. */
  ghost function WokenBut(w: World, left: set<u32>): map<Owner, seq<Packet>> {
    map o <- w.channels ::
      if o in w.sessions.Values && o in w.history && w.history[o].id !in left
      then w.channels[o] + [Packet(Clse, 0, w.history[o].id, [])] else w.channels[o]
  }

  lemma WokenAfterNone(w: World)
    requires MapOk(w)
    ensures WokenBut(w, w.sessions.Keys) == w.channels
  {
    forall o <- w.channels | o in w.sessions.Values && o in w.history ensures w.history[o].id in w.sessions {
      var id :| id in w.sessions && w.sessions[id] == o;
    }
  }

  lemma WokenAfterAll(w: World)
    ensures WokenBut(w, {}) == Woken(w)
  {
  }

  lemma WokenOneMore(w: World, left: set<u32>, id: u32)
    requires MapOk(w) && id in left && left <= w.sessions.Keys && w.sessions[id] in w.channels
    ensures w.sessions[id] in WokenBut(w, left)
    ensures var o := w.sessions[id]; var now := WokenBut(w, left);
            WokenBut(w, left - {id}) == now[o := now[o] + [Packet(Clse, 0, id, [])]]
  {
    var o, now := w.sessions[id], WokenBut(w, left);
    assert o in w.sessions.Values && w.history[o].id == id;
    forall p <- w.channels | p != o ensures WokenBut(w, left - {id})[p] == now[p] {
      if p in w.sessions.Values && p in w.history {
        var other :| other in w.sessions && w.sessions[other] == p;
        assert w.history[p].id == other && other != id;
      }
    }
  }

  /** A run and one step more. */
  lemma {:induction false} OneMore(w: World, acts: seq<Act>, a: Act)
    requires Legal(w, acts) && Enabled(After(w, acts), a)
    ensures Legal(w, acts + [a]) && After(w, acts + [a]) == Next(After(w, acts), a)
    decreases |acts|
  {
    if acts == [] {
      assert [] + [a] == [a];
      assert [a][1..] == [];
    } else {
      assert (acts + [a])[1..] == acts[1..] + [a];
      OneMore(Next(w, acts[0]), acts[1..], a);
    }
  }

  /** Two runs, one after the other. */
  lemma {:induction false} ManyMore(w: World, acts: seq<Act>, more: seq<Act>)
    requires Legal(w, acts) && Legal(After(w, acts), more)
    ensures Legal(w, acts + more) && After(w, acts + more) == After(After(w, acts), more)
    decreases |acts|
  {
    if acts == [] {
      assert [] + more == more;
    } else {
      assert (acts + more)[1..] == acts[1..] + more;
      ManyMore(Next(w, acts[0]), acts[1..], more);
    }
  }
}
