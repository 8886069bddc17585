/**
 Whole runs of the packet dispatcher: who owns an identifier, which packets a session is sent, and that nobody is left
 waiting when the loop has returned (adb_client/src/message_devices/transport_dispatcher.rs:90-422).
 */
module DispatcherRuns {
  import opened Bytes
  import opened Message
  import opened SessionIds
  import opened Dispatcher

  // ---- Ownership ----

  lemma InitiallyOwned(o: Owner)
    ensures OwnerInv(Initial(), o)
  {
  }

  /**
   In every reachable state of the running loop the identifiers in use are non-zero and belong to different owners,
   and a client's handle names its own session and no other client's.
   */
  lemma LiveIdentifiersAreOwned(acts: seq<Act>)
    requires Legal(Initial(), acts) && After(Initial(), acts).running
    ensures var w := After(Initial(), acts);
      && (forall id <- w.sessions :: id != 0)
      && (forall i, j | i in w.sessions && j in w.sessions && i != j :: w.sessions[i] != w.sessions[j])
      && (forall o <- w.handles :: w.handles[o] in w.sessions && w.sessions[w.handles[o]] == o)
      && (forall o, p | o in w.handles && p in w.handles && o != p :: w.handles[o] != w.handles[p])
  {
    var w := After(Initial(), acts);
    forall o: Owner ensures OwnerInv(Initial(), o) {
      InitiallyOwned(o);
    }
    OwnershipHolds(Initial(), acts);
    assert OwnerInv(w, 0);
    forall o <- w.handles ensures w.handles[o] in w.sessions && w.sessions[w.handles[o]] == o {
      assert OwnerInv(w, o);
    }
  }

  /** The identifier keeps its session. */
  predicate Kept(w: World, w': World, id: u32)
    requires id in w.sessions
  {
    id in w'.sessions && w'.sessions[id] == w.sessions[id]
  }

  lemma UnregisterRemoves(w: World, r: Option<u32>, after: u32, id: u32)
    requires w.running && w.commands != [] && w.commands[0].UnregisterCmd? && id in w.sessions
    requires OwnerInv(w, w.commands[0].client)
    ensures
      if w.commands[0] == UnregisterCmd(id, w.sessions[id]) then id !in Processed(w, r, after).sessions
      else Kept(w, Processed(w, r, after), id)
  {
    UnregisterHitsItsOwn(w);
  }

  lemma RegisterRemoves(w: World, r: Option<u32>, after: u32, id: u32)
    requires Enabled(w, Process(r, after)) && w.commands[0].RegisterCmd? && id in w.sessions && MapOk(w)
    ensures Kept(w, Processed(w, r, after), id)
  {
    AllocationSucceeds(w.sessions.Keys, w.nextLocalId, r, after);
  }

  lemma ProcessRemoves(w: World, r: Option<u32>, after: u32, id: u32)
    requires Enabled(w, Process(r, after)) && id in w.sessions && !w.commands[0].ShutdownCmd?
    requires forall o: Owner :: OwnerInv(w, o)
    ensures
      if w.commands[0] == UnregisterCmd(id, w.sessions[id]) then id !in Processed(w, r, after).sessions
      else Kept(w, Processed(w, r, after), id)
  {
    assert OwnerInv(w, 0);
    if w.commands[0].UnregisterCmd? {
      UnregisterRemoves(w, r, after, id);
    } else if w.commands[0].RegisterCmd? {
      RegisterRemoves(w, r, after, id);
    } else {
      assert Processed(w, r, after).sessions == w.sessions;
    }
  }

  lemma IncomingRemoves(w: World, p: Packet, decision: Decision, r: Option<u32>, after: u32, id: u32)
    requires w.running && id in w.sessions && w.nextLocalId >= 1
    requires decision.Relay? ==> Allocates(w.sessions.Keys, w.nextLocalId, r, after)
    ensures Kept(w, Incoming(w, p, decision, r, after), id)
  {
    if decision.Relay? {
      AllocationSucceeds(w.sessions.Keys, w.nextLocalId, r, after);
    }
  }

  /** What a step does to an identifier in use. */
  ghost predicate KeptOrLeft(w: World, a: Act, id: u32)
    requires Enabled(w, a) && id in w.sessions
  {
    if a.Process? && w.commands[0] == UnregisterCmd(id, w.sessions[id]) then id !in Next(w, a).sessions
    else Kept(w, Next(w, a), id)
  }

  lemma ReadRemoves(w: World, a: Act, id: u32)
    requires Enabled(w, a) && a.Read? && id in w.sessions && w.nextLocalId >= 1
    ensures Kept(w, Next(w, a), id)
  {
    if a.packet.command == Open {
      IncomingRemoves(w, a.packet, Decide(w.routes, a.packet.payload), a.id, a.after, id);
    }
  }

  lemma AskRemoves(w: World, a: Act, id: u32)
    requires id in w.sessions && (a.AskRegister? || a.AskWrite? || a.AskRoute? || a.AskRoutes? || a.AskShutdown?)
    ensures Kept(w, Next(w, a), id)
  {
    assert Next(w, a).sessions == w.sessions;
  }

  lemma ClientRemoves(w: World, a: Act, id: u32)
    requires Enabled(w, a) && (a.PickUp? || a.DropHandle? || a.TimeOut?) && id in w.sessions
    ensures Kept(w, Next(w, a), id)
  {
    assert Next(w, a).sessions == w.sessions;
  }

  lemma StepRemoves(w: World, a: Act, id: u32)
    requires Enabled(w, a) && id in w.sessions && w.running && Next(w, a).running
    requires forall o: Owner :: OwnerInv(w, o)
    ensures KeptOrLeft(w, a, id)
  {
    assert OwnerInv(w, 0);
    if a.Process? {
      assert !w.commands[0].ShutdownCmd?;
      ProcessRemoves(w, a.id, a.after, id);
    } else if a.Read? {
      ReadRemoves(w, a, id);
    } else if a.PickUp? || a.DropHandle? || a.TimeOut? {
      ClientRemoves(w, a, id);
    } else {
      assert !a.ReadError?;
      AskRemoves(w, a, id);
    }
  }

  /** Only the Unregister its own client queued takes an identifier out of the map while the loop runs. */
  lemma OnlyItsOwnerUnregisters(acts: seq<Act>, a: Act, id: u32)
    requires Legal(Initial(), acts) && Enabled(After(Initial(), acts), a)
    requires After(Initial(), acts).running && Next(After(Initial(), acts), a).running
    requires id in After(Initial(), acts).sessions
    ensures var w, w' := After(Initial(), acts), Next(After(Initial(), acts), a);
      if a.Process? && w.commands[0] == UnregisterCmd(id, w.sessions[id]) then id !in w'.sessions else Kept(w, w', id)
  {
    forall o: Owner ensures OwnerInv(Initial(), o) {
      InitiallyOwned(o);
    }
    OwnershipHolds(Initial(), acts);
    StepRemoves(After(Initial(), acts), a, id);
  }

  // ---- Routing ----

  /** What the dispatcher sends the session `id` of the packets `ps`. */
  function Select(ps: seq<Packet>, id: u32): seq<Packet> {
    if ps == [] then []
    else
      var last := ps[|ps| - 1];
      if last.command != Open && last.arg1 == id then Select(ps[..|ps| - 1], id) + [last]
      else Select(ps[..|ps| - 1], id)
  }

  lemma SelectGrows(ps: seq<Packet>, p: Packet, id: u32)
    ensures Select(ps + [p], id) == if p.command != Open && p.arg1 == id then Select(ps, id) + [p] else Select(ps, id)
  {
    assert (ps + [p])[..|ps|] == ps;
  }

  function EndOf(r: Registration, now: nat): nat {
    match r.ending
    case Current => now
    case Removed(at) => at
    case Failed(at) => at
    case Stopped(at) => at
  }

  predicate Bounded(r: Registration, now: nat) {
    r.since <= EndOf(r, now) <= now
  }

  /** Everything a registration is sent: its packets while it lasted, and a CLSE if a transport error ended it. */
  function Due(r: Registration, read: seq<Packet>): seq<Packet>
    requires Bounded(r, |read|)
  {
    var selected := Select(read[r.since..EndOf(r, |read|)], r.id);
    if r.ending.Failed? then selected + [Packet(Clse, 0, r.id, [])] else selected
  }

  predicate ChannelOk(w: World, o: Owner) {
    && (o in w.channels <==> o in w.history)
    && (o in w.history ==>
      && Bounded(w.history[o], |w.read|)
      && w.channels[o] == Due(w.history[o], w.read))
    && (o in w.history ==> o < w.nextOwner)
    && (w.running && o in w.history ==> !w.history[o].ending.Failed?)
  }

  /** A packet that is read changes what is due to the open registrations it names, and to no other. */
  lemma DueGrows(r: Registration, read: seq<Packet>, p: Packet)
    requires Bounded(r, |read|) && !r.ending.Failed?
    ensures Bounded(r, |read| + 1)
    ensures Due(r, read + [p]) ==
      if r.ending.Current? && p.command != Open && p.arg1 == r.id then Due(r, read) + [p] else Due(r, read)
  {
    if r.ending.Current? {
      assert (read + [p])[r.since..|read| + 1] == read[r.since..] + [p];
      assert read[r.since..|read|] == read[r.since..];
      SelectGrows(read[r.since..], p, r.id);
    } else {
      assert (read + [p])[r.since..EndOf(r, |read|)] == read[r.since..EndOf(r, |read|)];
    }
  }

  lemma DueFresh(id: u32, read: seq<Packet>)
    ensures Bounded(Registration(id, |read|, Current), |read|)
    ensures Due(Registration(id, |read|, Current), read) == []
  {
    assert read[|read|..|read|] == [];
  }

  lemma DueEnded(r: Registration, read: seq<Packet>, ending: Ending)
    requires Bounded(r, |read|) && r.ending.Current?
    requires ending == Removed(|read|) || ending == Failed(|read|) || ending == Stopped(|read|)
    ensures Bounded(r.(ending := ending), |read|)
    ensures Due(r.(ending := ending), read) ==
      if ending.Failed? then Due(r, read) + [Packet(Clse, 0, r.id, [])] else Due(r, read)
  {
  }

  lemma OpenIsRouted(w: World, o: Owner)
    requires MapOk(w) && o in w.history
    ensures w.history[o].ending.Current? <==> o in w.sessions.Values
    ensures forall id <- w.sessions :: w.sessions[id] == o <==> w.history[o].ending.Current? && id == w.history[o].id
  {
    if w.history[o].ending.Current? {
      assert w.sessions[w.history[o].id] == o;
      assert w.history[o].id in w.sessions;
    }
    forall id <- w.sessions ensures w.sessions[id] == o <==> w.history[o].ending.Current? && id == w.history[o].id {
      assert IsOpen(w, w.sessions[id]);
    }
  }

  lemma RoutedDelivers(w: World, p: Packet, o: Owner)
    requires MapOk(w) && w.running && ChannelOk(w, o) && p.command != Open
    requires p.arg1 in w.sessions ==> ChannelOk(w, w.sessions[p.arg1])
    ensures ChannelOk(Routed(w, p), o)
  {
    var w' := Routed(w, p);
    if o in w.history {
      OpenIsRouted(w, o);
      DueGrows(w.history[o], w.read, p);
      if w.history[o].ending.Current? && p.arg1 == w.history[o].id {
        assert w.sessions[p.arg1] == o;
        assert w'.channels[o] == w.channels[o] + [p];
      } else {
        assert w'.channels[o] == w.channels[o];
      }
    }
  }

  lemma SeenDelivers(w: World, p: Packet, o: Owner)
    requires w.running && ChannelOk(w, o) && p.command == Open
    ensures ChannelOk(w.(read := w.read + [p]), o)
  {
    if o in w.history {
      DueGrows(w.history[o], w.read, p);
    }
  }

  lemma RegisteredDelivers(w: World, owner: Owner, id: u32, after: u32, o: Owner)
    requires ChannelOk(w, o) && owner < w.nextOwner
    ensures ChannelOk(Registered(w, owner, id, after), o)
  {
    DueFresh(id, w.read);
  }

  lemma HaltDelivers(w: World, ending: Ending, o: Owner)
    requires MapOk(w) && w.running && ChannelOk(w, o) && ending == Stopped(|w.read|)
    ensures ChannelOk(Halted(w, ending), o)
  {
    if o in w.history {
      OpenIsRouted(w, o);
      if w.history[o].ending.Current? {
        DueEnded(w.history[o], w.read, ending);
      }
    }
  }

  lemma ErrorDelivers(w: World, o: Owner)
    requires MapOk(w) && w.running && ChannelOk(w, o)
    ensures ChannelOk(Halted(w.(channels := Woken(w)), Failed(|w.read|)), o)
  {
    if o in w.history {
      OpenIsRouted(w, o);
      if w.history[o].ending.Current? {
        DueEnded(w.history[o], w.read, Failed(|w.read|));
      }
    }
  }

  /** A step that leaves registrations and channels alone. */
  lemma QuietDelivers(w: World, w': World, o: Owner)
    requires ChannelOk(w, o) && w'.channels == w.channels && w'.history == w.history && w'.read == w.read
    requires w'.nextOwner >= w.nextOwner && (w'.running ==> w.running)
    ensures ChannelOk(w', o)
  {
  }

  lemma IncomingDelivers(w: World, p: Packet, decision: Decision, id: Option<u32>, after: u32, o: Owner)
    requires w.running && ChannelOk(w, o) && p.command == Open
    ensures ChannelOk(Incoming(w, p, decision, id, after), o)
  {
    var seen := w.(read := w.read + [p]);
    SeenDelivers(w, p, o);
    if decision.Relay? && id.Some? {
      var wider := seen.(nextOwner := seen.nextOwner + 1);
      QuietDelivers(seen, wider, o);
      RegisteredDelivers(wider, w.nextOwner, id.value, after, o);
      QuietDelivers(Registered(wider, w.nextOwner, id.value, after), Relayed(seen, id.value, after), o);
    } else {
      QuietDelivers(seen, Incoming(w, p, decision, id, after), o);
    }
  }

  lemma RemovedDelivers(w: World, id: Option<u32>, after: u32, o: Owner)
    requires MapOk(w) && w.running && ChannelOk(w, o) && w.commands != [] && w.commands[0].UnregisterCmd?
    ensures ChannelOk(Processed(w, id, after), o)
  {
    if o in w.history {
      OpenIsRouted(w, o);
      if w.history[o].ending.Current? {
        DueEnded(w.history[o], w.read, Removed(|w.read|));
      }
    }
  }

  lemma AddedDelivers(w: World, id: Option<u32>, after: u32, o: Owner)
    requires ChannelOk(w, o) && w.commands != [] && w.commands[0].RegisterCmd? && w.commands[0].owner < w.nextOwner
    ensures ChannelOk(Processed(w, id, after), o)
  {
    var next, owner := w.(commands := w.commands[1..]), w.commands[0].owner;
    QuietDelivers(w, next, o);
    if id.Some? {
      RegisteredDelivers(next, owner, id.value, after, o);
      QuietDelivers(Registered(next, owner, id.value, after), Processed(w, id, after), o);
    }
  }

  lemma PlainDelivers(w: World, id: Option<u32>, after: u32, o: Owner)
    requires w.running && w.commands != [] && ChannelOk(w, o)
    requires w.commands[0].WriteCmd? || w.commands[0].RouteCmd? || w.commands[0].RoutesCmd?
    ensures ChannelOk(Processed(w, id, after), o)
  {
    QuietDelivers(w, Processed(w, id, after), o);
  }

  lemma ProcessDelivers(w: World, id: Option<u32>, after: u32, o: Owner)
    requires Enabled(w, Process(id, after)) && ChannelOk(w, o) && MapOk(w)
    requires w.commands[0].RegisterCmd? ==> OwnerOk(w, w.commands[0].owner)
    ensures ChannelOk(Processed(w, id, after), o)
  {
    match w.commands[0]
    case RegisterCmd(owner) =>
      AskedOnce(w, owner);
      AddedDelivers(w, id, after, o);
    case UnregisterCmd(_, _) => RemovedDelivers(w, id, after, o);
    case ShutdownCmd => HaltDelivers(w, Stopped(|w.read|), o);
    case WriteCmd(_, _) => PlainDelivers(w, id, after, o);
    case RouteCmd(_, _, _) => PlainDelivers(w, id, after, o);
    case RoutesCmd(_) => PlainDelivers(w, id, after, o);
  }

  lemma ReadDelivers(w: World, p: Packet, id: Option<u32>, after: u32, o: Owner)
    requires Enabled(w, Read(p, id, after)) && MapOk(w) && (forall x: Owner :: ChannelOk(w, x))
    ensures ChannelOk(Next(w, Read(p, id, after)), o)
  {
    if p.command == Open {
      IncomingDelivers(w, p, Decide(w.routes, p.payload), id, after, o);
    } else {
      RoutedDelivers(w, p, o);
    }
  }

  lemma AskDelivers(w: World, a: Act, o: Owner)
    requires ChannelOk(w, o)
    requires a.AskRegister? || a.AskWrite? || a.AskRoute? || a.AskRoutes? || a.AskShutdown?
    ensures ChannelOk(Next(w, a), o)
  {
    QuietDelivers(w, Next(w, a), o);
  }

  lemma PickUpDelivers(w: World, owner: Owner, o: Owner)
    requires ChannelOk(w, o) && owner in w.replies
    ensures ChannelOk(PickedUp(w, owner), o)
  {
    QuietDelivers(w, PickedUp(w, owner), o);
  }

  lemma DropDelivers(w: World, owner: Owner, o: Owner)
    requires ChannelOk(w, o) && owner in w.handles
    ensures ChannelOk(Next(w, DropHandle(owner)), o)
  {
    QuietDelivers(w, Next(w, DropHandle(owner)), o);
  }

  lemma StepDelivers(w: World, a: Act, o: Owner)
    requires Enabled(w, a) && (forall x: Owner :: OwnerInv(w, x) && ChannelOk(w, x))
    ensures ChannelOk(Next(w, a), o)
  {
    assert OwnerInv(w, 0);
    match a
    case Process(id, after) =>
      assert w.commands[0].RegisterCmd? ==> OwnerInv(w, w.commands[0].owner);
      ProcessDelivers(w, id, after, o);
    case Read(p, id, after) => ReadDelivers(w, p, id, after, o);
    case ReadError => ErrorDelivers(w, o);
    case PickUp(owner) => PickUpDelivers(w, owner, o);
    case DropHandle(owner) => DropDelivers(w, owner, o);
    case TimeOut =>
    case AskRegister => AskDelivers(w, a, o);
    case AskWrite(_) => AskDelivers(w, a, o);
    case AskRoute(_, _) => AskDelivers(w, a, o);
    case AskRoutes => AskDelivers(w, a, o);
    case AskShutdown => AskDelivers(w, a, o);
  }

  lemma {:induction false} DeliveryHolds(w: World, acts: seq<Act>)
    requires (forall o: Owner :: OwnerInv(w, o) && ChannelOk(w, o)) && Legal(w, acts)
    ensures forall o: Owner :: OwnerInv(After(w, acts), o) && ChannelOk(After(w, acts), o)
    decreases |acts|
  {
    if acts != [] {
      forall o: Owner ensures OwnerInv(Next(w, acts[0]), o) && ChannelOk(Next(w, acts[0]), o) {
        StepKeeps(w, acts[0], o);
        StepDelivers(w, acts[0], o);
      }
      DeliveryHolds(Next(w, acts[0]), acts[1..]);
    }
  }

  /**
   Routing refines a filter.  In every run, each session has been sent exactly the non-OPEN packets with its identifier
   that were read while it was registered, in order, and then one CLSE if and only if a transport error ended it.
   */
  lemma RoutingIsAFilter(acts: seq<Act>, o: Owner)
    requires Legal(Initial(), acts) && o in After(Initial(), acts).history
    ensures var w := After(Initial(), acts); var r := w.history[o];
      && o in w.channels && r.since <= EndOf(r, |w.read|) <= |w.read|
      && w.channels[o] == Select(w.read[r.since..EndOf(r, |w.read|)], r.id) +
                          (if r.ending.Failed? then [Packet(Clse, 0, r.id, [])] else [])
      && (r.ending.Current? <==> w.running && r.id in w.sessions && w.sessions[r.id] == o)
  {
    forall x: Owner ensures OwnerInv(Initial(), x) && ChannelOk(Initial(), x) {
      InitiallyOwned(x);
    }
    DeliveryHolds(Initial(), acts);
    var w := After(Initial(), acts);
    assert OwnerInv(w, o) && ChannelOk(w, o);
  }

  // ---- Nobody waits for ever ----

  function Queued(cs: seq<Cmd>, t: Token): nat {
    if cs == [] then 0 else (if t in TokenOf(cs[0]) then 1 else 0) + Queued(cs[1..], t)
  }

  lemma {:induction false} QueuedGrows(cs: seq<Cmd>, c: Cmd, t: Token)
    ensures Queued(cs + [c], t) == Queued(cs, t) + if t in TokenOf(c) then 1 else 0
  {
    if cs == [] {
      assert [c][1..] == [];
    } else {
      assert (cs + [c])[1..] == cs[1..] + [c];
      QueuedGrows(cs[1..], c, t);
    }
  }

  lemma {:induction false} QueuedTokens(cs: seq<Cmd>, t: Token)
    ensures t in TokensOf(cs) <==> Queued(cs, t) >= 1
  {
    if cs != [] {
      QueuedTokens(cs[1..], t);
    }
  }

  lemma {:induction false} QueuedOwners(cs: seq<Cmd>, o: Owner)
    ensures o in Registering(cs) <==> Asking(cs, o) >= 1
  {
    if cs != [] {
      QueuedOwners(cs[1..], o);
    }
  }

  /** Every request is in exactly one place: queued, answered, or dropped unanswered. */
  predicate RequestOk(w: World, t: Token) {
    && Queued(w.commands, t) + One(t in w.answered) + One(t in w.dropped) == One(t < w.nextToken)
    && (!w.running ==> w.commands == [])
  }

  /** Every registration is in exactly one place: queued, replied to, or back with its caller. */
  predicate RegistrationOk(w: World, o: Owner) {
    && Asking(w.commands, o) + One(o in w.replies) + One(o in w.settled) == One(o < w.nextOwner)
    && (!w.running ==> w.commands == [])
  }

  /** A command other than Shutdown leaves the queue and is answered. */
  lemma HeadIsTaken(w: World, w': World, t: Token)
    requires w.running && w'.running && w.commands != [] && RequestOk(w, t)
    requires w'.commands == w.commands[1..] && (t in w'.answered <==> t in w.answered || t in TokenOf(w.commands[0]))
    requires w'.dropped == w.dropped && w'.nextToken == w.nextToken
    ensures RequestOk(w', t)
  {
  }

  lemma HaltAnswers(w: World, ending: Ending, t: Token)
    requires w.running && RequestOk(w, t)
    ensures RequestOk(Halted(w, ending), t)
  {
    QueuedTokens(w.commands, t);
  }

  lemma WriteAnswers(w: World, id: Option<u32>, after: u32, t: Token)
    requires w.running && w.commands != [] && w.commands[0].WriteCmd? && RequestOk(w, t)
    ensures RequestOk(Processed(w, id, after), t)
  {
    HeadIsTaken(w, Processed(w, id, after), t);
  }

  lemma RouteAnswers(w: World, id: Option<u32>, after: u32, t: Token)
    requires w.running && w.commands != [] && (w.commands[0].RouteCmd? || w.commands[0].RoutesCmd?) && RequestOk(w, t)
    ensures RequestOk(Processed(w, id, after), t)
  {
    HeadIsTaken(w, Processed(w, id, after), t);
  }

  lemma RegisterAnswers(w: World, id: Option<u32>, after: u32, t: Token)
    requires w.running && w.commands != [] && w.commands[0].RegisterCmd? && RequestOk(w, t)
    ensures RequestOk(Processed(w, id, after), t)
  {
    HeadIsTaken(w, Processed(w, id, after), t);
  }

  lemma UnregisterAnswers(w: World, id: Option<u32>, after: u32, t: Token)
    requires w.running && w.commands != [] && w.commands[0].UnregisterCmd? && RequestOk(w, t)
    ensures RequestOk(Processed(w, id, after), t)
  {
    HeadIsTaken(w, Processed(w, id, after), t);
  }

  lemma ProcessAnswers(w: World, id: Option<u32>, after: u32, t: Token)
    requires w.running && w.commands != [] && RequestOk(w, t)
    ensures RequestOk(Processed(w, id, after), t)
  {
    match w.commands[0]
    case ShutdownCmd => HaltAnswers(w, Stopped(|w.read|), t);
    case WriteCmd(_, _) => WriteAnswers(w, id, after, t);
    case RegisterCmd(_) => RegisterAnswers(w, id, after, t);
    case UnregisterCmd(_, _) => UnregisterAnswers(w, id, after, t);
    case _ => RouteAnswers(w, id, after, t);
  }

  /** A new request joins the queue, or is dropped when the loop has returned. */
  lemma AskAnswers(w: World, cmd: Token -> Cmd, t: Token)
    requires RequestOk(w, t) && forall x: Token :: TokenOf(cmd(x)) == {x}
    ensures RequestOk(Ask(w, cmd), t)
  {
    QueuedGrows(w.commands, cmd(w.nextToken), t);
  }

  lemma SubmitAnswers(w: World, c: Cmd, t: Token)
    requires RequestOk(w, t) && TokenOf(c) == {}
    ensures RequestOk(Submit(w, c), t)
  {
    QueuedGrows(w.commands, c, t);
  }

  /** A step without a request. */
  lemma QuietAnswers(w: World, w': World, t: Token)
    requires RequestOk(w, t) && w'.commands == w.commands && w'.answered == w.answered && w'.dropped == w.dropped
    requires w'.nextToken == w.nextToken && w'.running == w.running
    ensures RequestOk(w', t)
  {
  }

  lemma ReadAnswers(w: World, p: Packet, id: Option<u32>, after: u32, t: Token)
    requires Enabled(w, Read(p, id, after)) && RequestOk(w, t)
    ensures RequestOk(Next(w, Read(p, id, after)), t)
  {
    if p.command == Open {
      IncomingAnswers(w, p, Decide(w.routes, p.payload), id, after, t);
    } else {
      QuietAnswers(w, Routed(w, p), t);
    }
  }

  lemma IncomingAnswers(w: World, p: Packet, decision: Decision, id: Option<u32>, after: u32, t: Token)
    requires RequestOk(w, t)
    ensures RequestOk(Incoming(w, p, decision, id, after), t)
  {
    match decision
    case Refuse => QuietAnswers(w, Incoming(w, p, decision, id, after), t);
    case Ignore => QuietAnswers(w, Incoming(w, p, decision, id, after), t);
    case Relay(_) => QuietAnswers(w, Incoming(w, p, decision, id, after), t);
  }

  lemma AskRegisterAnswers(w: World, t: Token)
    requires RequestOk(w, t)
    ensures RequestOk(Next(w, AskRegister), t)
  {
    SubmitAnswers(w, RegisterCmd(w.nextOwner), t);
    QuietAnswers(Submit(w, RegisterCmd(w.nextOwner)), Next(w, AskRegister), t);
  }

  lemma AskStepAnswers(w: World, a: Act, t: Token)
    requires RequestOk(w, t) && (a.AskRegister? || a.AskWrite? || a.AskRoute? || a.AskRoutes? || a.AskShutdown?)
    ensures RequestOk(Next(w, a), t)
  {
    match a
    case AskRegister => AskRegisterAnswers(w, t);
    case AskWrite(message) => AskAnswers(w, (x: Token) => WriteCmd(x, message), t);
    case AskRoute(remote, local) => AskAnswers(w, (x: Token) => RouteCmd(x, remote, local), t);
    case AskRoutes => AskAnswers(w, (x: Token) => RoutesCmd(x), t);
    case AskShutdown => SubmitAnswers(w, ShutdownCmd, t);
  }

  lemma HandleAnswers(w: World, a: Act, t: Token)
    requires Enabled(w, a) && RequestOk(w, t) && (a.PickUp? || a.DropHandle?)
    ensures RequestOk(Next(w, a), t)
  {
    match a
    case PickUp(owner) => QuietAnswers(w, PickedUp(w, owner), t);
    case DropHandle(owner) =>
      SubmitAnswers(w.(handles := w.handles - {owner}), UnregisterCmd(w.handles[owner], owner), t);
  }

  lemma StepAnswers(w: World, a: Act, t: Token)
    requires Enabled(w, a) && RequestOk(w, t)
    ensures RequestOk(Next(w, a), t)
  {
    match a
    case Process(id, after) => ProcessAnswers(w, id, after, t);
    case Read(p, id, after) => ReadAnswers(w, p, id, after, t);
    case ReadError => HaltAnswers(w.(channels := Woken(w)), Failed(|w.read|), t);
    case TimeOut =>
    case PickUp(_) => HandleAnswers(w, a, t);
    case DropHandle(_) => HandleAnswers(w, a, t);
    case AskWrite(_) => AskStepAnswers(w, a, t);
    case AskRoute(_, _) => AskStepAnswers(w, a, t);
    case AskRoutes => AskStepAnswers(w, a, t);
    case AskShutdown => AskStepAnswers(w, a, t);
    case AskRegister => AskStepAnswers(w, a, t);
  }

  lemma HeadIsReplied(w: World, w': World, o: Owner)
    requires w.running && w'.running && w.commands != [] && RegistrationOk(w, o)
    requires w'.commands == w.commands[1..] && w'.settled == w.settled && w'.nextOwner == w.nextOwner
    requires o in w'.replies <==> o in w.replies || w.commands[0] == RegisterCmd(o)
    ensures RegistrationOk(w', o)
  {
  }

  lemma HaltReplies(w: World, ending: Ending, o: Owner)
    requires w.running && RegistrationOk(w, o)
    ensures RegistrationOk(Halted(w, ending), o)
  {
    QueuedOwners(w.commands, o);
  }

  lemma AddedReplies(w: World, id: Option<u32>, after: u32, o: Owner)
    requires w.running && w.commands != [] && w.commands[0].RegisterCmd? && RegistrationOk(w, o)
    ensures RegistrationOk(Processed(w, id, after), o)
  {
    HeadIsReplied(w, Processed(w, id, after), o);
  }

  lemma RemovedReplies(w: World, id: Option<u32>, after: u32, o: Owner)
    requires w.running && w.commands != [] && w.commands[0].UnregisterCmd? && RegistrationOk(w, o)
    ensures RegistrationOk(Processed(w, id, after), o)
  {
    HeadIsReplied(w, Processed(w, id, after), o);
  }

  lemma PlainReplies(w: World, id: Option<u32>, after: u32, o: Owner)
    requires w.running && w.commands != [] && RegistrationOk(w, o)
    requires w.commands[0].WriteCmd? || w.commands[0].RouteCmd? || w.commands[0].RoutesCmd?
    ensures RegistrationOk(Processed(w, id, after), o)
  {
    HeadIsReplied(w, Processed(w, id, after), o);
  }

  lemma ProcessReplies(w: World, id: Option<u32>, after: u32, o: Owner)
    requires w.running && w.commands != [] && RegistrationOk(w, o)
    ensures RegistrationOk(Processed(w, id, after), o)
  {
    match w.commands[0]
    case ShutdownCmd => HaltReplies(w, Stopped(|w.read|), o);
    case RegisterCmd(_) => AddedReplies(w, id, after, o);
    case UnregisterCmd(_, _) => RemovedReplies(w, id, after, o);
    case WriteCmd(_, _) => PlainReplies(w, id, after, o);
    case RouteCmd(_, _, _) => PlainReplies(w, id, after, o);
    case RoutesCmd(_) => PlainReplies(w, id, after, o);
  }

  lemma AskRegisterReplies(w: World, o: Owner)
    requires RegistrationOk(w, o)
    ensures RegistrationOk(Next(w, AskRegister), o)
  {
    QueueGrows(w.commands, RegisterCmd(w.nextOwner), o);
  }

  lemma SubmitReplies(w: World, w': World, c: Cmd, o: Owner)
    requires RegistrationOk(w, o) && !c.RegisterCmd? && w'.running == w.running
    requires w'.commands == if w.running then w.commands + [c] else w.commands
    requires w'.replies == w.replies && w'.settled == w.settled && w'.nextOwner == w.nextOwner
    ensures RegistrationOk(w', o)
  {
    QueueGrows(w.commands, c, o);
  }

  lemma QuietReplies(w: World, w': World, o: Owner)
    requires RegistrationOk(w, o) && w'.running == w.running && w'.commands == w.commands
    requires w'.replies == w.replies && w'.settled == w.settled && w'.nextOwner == w.nextOwner
    ensures RegistrationOk(w', o)
  {
  }

  lemma ReadReplies(w: World, p: Packet, decision: Decision, id: Option<u32>, after: u32, o: Owner)
    requires w.running && RegistrationOk(w, o)
    ensures RegistrationOk(Incoming(w, p, decision, id, after), o)
  {
    if decision.Relay? && id.Some? {
    } else {
      QuietReplies(w, Incoming(w, p, decision, id, after), o);
    }
  }

  /** A reply goes back to the caller that waited for it. */
  lemma PickUpReplies(w: World, owner: Owner, o: Owner)
    requires RegistrationOk(w, o) && owner in w.replies
    ensures RegistrationOk(PickedUp(w, owner), o)
  {
    var w' := PickedUp(w, owner);
    assert w'.replies == w.replies - {owner} && w'.settled == w.settled + {owner};
    assert w'.commands == w.commands && w'.nextOwner == w.nextOwner && w'.running == w.running;
  }

  lemma AskStepReplies(w: World, a: Act, o: Owner)
    requires RegistrationOk(w, o) && (a.AskRegister? || a.AskWrite? || a.AskRoute? || a.AskRoutes? || a.AskShutdown?)
    ensures RegistrationOk(Next(w, a), o)
  {
    var w' := Next(w, a);
    match a
    case AskRegister => AskRegisterReplies(w, o);
    case AskWrite(message) => SubmitReplies(w, w', WriteCmd(w.nextToken, message), o);
    case AskRoute(remote, local) => SubmitReplies(w, w', RouteCmd(w.nextToken, remote, local), o);
    case AskRoutes => SubmitReplies(w, w', RoutesCmd(w.nextToken), o);
    case AskShutdown => SubmitReplies(w, w', ShutdownCmd, o);
  }

  lemma HandleReplies(w: World, a: Act, o: Owner)
    requires Enabled(w, a) && RegistrationOk(w, o) && (a.PickUp? || a.DropHandle?)
    ensures RegistrationOk(Next(w, a), o)
  {
    match a
    case PickUp(owner) => PickUpReplies(w, owner, o);
    case DropHandle(owner) => SubmitReplies(w, Next(w, a), UnregisterCmd(w.handles[owner], owner), o);
  }

  lemma ReadStepReplies(w: World, a: Act, o: Owner)
    requires Enabled(w, a) && RegistrationOk(w, o) && a.Read?
    ensures RegistrationOk(Next(w, a), o)
  {
    if a.packet.command == Open {
      ReadReplies(w, a.packet, Decide(w.routes, a.packet.payload), a.id, a.after, o);
    } else {
      QuietReplies(w, Next(w, a), o);
    }
  }

  lemma StepReplies(w: World, a: Act, o: Owner)
    requires Enabled(w, a) && RegistrationOk(w, o)
    ensures RegistrationOk(Next(w, a), o)
  {
    match a
    case Process(id, after) => ProcessReplies(w, id, after, o);
    case Read(_, _, _) => ReadStepReplies(w, a, o);
    case ReadError => HaltReplies(w.(channels := Woken(w)), Failed(|w.read|), o);
    case TimeOut =>
    case PickUp(_) => HandleReplies(w, a, o);
    case DropHandle(_) => HandleReplies(w, a, o);
    case AskWrite(_) => AskStepReplies(w, a, o);
    case AskRoute(_, _) => AskStepReplies(w, a, o);
    case AskRoutes => AskStepReplies(w, a, o);
    case AskShutdown => AskStepReplies(w, a, o);
    case AskRegister => AskStepReplies(w, a, o);
  }

  lemma {:induction false} AccountsHold(w: World, acts: seq<Act>, t: Token, o: Owner)
    requires RequestOk(w, t) && RegistrationOk(w, o) && Legal(w, acts)
    ensures RequestOk(After(w, acts), t) && RegistrationOk(After(w, acts), o)
    decreases |acts|
  {
    if acts != [] {
      StepAnswers(w, acts[0], t);
      StepReplies(w, acts[0], o);
      AccountsHold(Next(w, acts[0]), acts[1..], t, o);
    }
  }

  /**
   Once the loop has returned, for whatever reason, every request ever made is answered or dropped and not both, every
   registration has its reply, and no session keeps a sender, so that a receiver that runs out of packets fails.
   */
  lemma NobodyWaitsForEver(acts: seq<Act>, t: Token, o: Owner)
    requires Legal(Initial(), acts) && !After(Initial(), acts).running
    ensures var w := After(Initial(), acts);
      && w.sessions == map[]
      && (t < w.nextToken ==> (t in w.answered) != (t in w.dropped))
      && (o < w.nextOwner ==> (o in w.replies) != (o in w.settled))
  {
    AccountsHold(Initial(), acts, t, o);
    forall x: Owner ensures OwnerInv(Initial(), x) {
      InitiallyOwned(x);
    }
    OwnershipHolds(Initial(), acts);
    assert OwnerInv(After(Initial(), acts), o);
  }
}
