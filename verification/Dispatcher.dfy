/**
 The one-reader packet dispatcher (adb_client/src/message_devices/transport_dispatcher.rs:90-422) as a transition
 system.  Clients queue commands, pick up replies and drop handles at any time; the dispatcher thread processes the
 oldest command, reads a packet, or stops.  Every statement is about all interleavings.

 An owner is one registration: the channel behind a session.  A queued Unregister carries an identifier only; its
 `client` records, for the statements, who queued it, and processing does not look at it.
 */
module Dispatcher {
  import opened Bytes
  import opened Message
  import opened SessionIds

  type Owner = nat
  type Token = nat

  datatype Cmd =
    | WriteCmd(token: Token, message: Packet)
    | RegisterCmd(owner: Owner)
    | UnregisterCmd(localId: u32, client: Owner)
    | RouteCmd(token: Token, remote: seq<byte>, local: Option<seq<byte>>)
    | RoutesCmd(token: Token)
    | ShutdownCmd

  datatype Ending = Current | Removed(at: nat) | Failed(at: nat) | Stopped(at: nat)

  /** History of a registration: its identifier and the stretch of the incoming packets it was registered for. */
  datatype Registration = Registration(id: u32, since: nat, ending: Ending)

  datatype World = World(
    running: bool,
    commands: seq<Cmd>,
    sessions: map<u32, Owner>,
    nextLocalId: u32,
    routes: map<seq<byte>, seq<byte>>,
    replies: map<Owner, Option<u32>>,
    handles: map<Owner, u32>,
    settled: set<Owner>,
    channels: map<Owner, seq<Packet>>,
    written: seq<Packet>,
    nextOwner: Owner,
    nextToken: Token,
    answered: set<Token>,
    dropped: set<Token>,
    read: seq<Packet>,
    history: map<Owner, Registration>)

  function Initial(): World {
    World(true, [], map[], 1, map[], map[], map[], {}, map[], [], 0, 0, {}, {}, [], map[])
  }

  // ---- Routes ----

  /** The destination named by a device OPEN, without its trailing zeros. */
  function Trimmed(s: seq<byte>): seq<byte> {
    if s != [] && s[|s| - 1] == 0 then Trimmed(s[..|s| - 1]) else s
  }

  const TCP: seq<byte> := [0x74, 0x63, 0x70, 0x3a]

  predicate Digit(b: byte) {
    0x30 <= b <= 0x39
  }

  function Decimal(s: seq<byte>): nat
    requires forall b <- s :: Digit(b)
  {
    if s == [] then 0
    else
      assert Digit(s[|s| - 1]);
      10 * Decimal(s[..|s| - 1]) + (s[|s| - 1] as int - 0x30)
  }

  /** `strip_prefix("tcp:")` and `parse::<u16>()`, which allows one leading plus sign. */
  function PortOf(local: seq<byte>): Option<nat> {
    if !(TCP <= local) then None
    else
      var text := local[4..];
      var digits := if text != [] && text[0] == 0x2b then text[1..] else text;
      if digits == [] || !(forall b <- digits :: Digit(b)) || Decimal(digits) > 0xFFFF then None
      else Some(Decimal(digits))
  }

  /** The local end a device OPEN is relayed to: by route, or because it names a routed local end itself. */
  function LocalEnd(routes: map<seq<byte>, seq<byte>>, destination: seq<byte>): Option<seq<byte>> {
    if destination in routes then Some(routes[destination])
    else if destination in routes.Values then Some(destination)
    else None
  }

  datatype Decision = Refuse | Ignore | Relay(port: nat)

  /** A device OPEN is refused when no route names it, and ignored when its local end is not a TCP port. */
  function Decide(routes: map<seq<byte>, seq<byte>>, payload: seq<byte>): Decision {
    match LocalEnd(routes, Trimmed(payload))
    case None => Refuse
    case Some(local) => if PortOf(local).None? then Ignore else Relay(PortOf(local).value)
  }

  /** Trimming takes off zeros only, and all of them. */
  lemma {:induction false} TrimmedIs(s: seq<byte>)
    ensures Trimmed(s) <= s && (Trimmed(s) != [] ==> Trimmed(s)[|Trimmed(s)| - 1] != 0)
    ensures forall i | |Trimmed(s)| <= i < |s| :: s[i] == 0
  {
    if s != [] && s[|s| - 1] == 0 {
      TrimmedIs(s[..|s| - 1]);
    }
  }

  /** A number as it is formatted. */
  function Rendered(n: nat): (r: seq<byte>)
    ensures r != [] && forall b <- r :: Digit(b)
  {
    if n < 10 then [0x30 + n] else Rendered(n / 10) + [0x30 + n % 10]
  }

  lemma {:induction false} DecimalOfRendered(n: nat)
    ensures Decimal(Rendered(n)) == n
  {
    var r := Rendered(n);
    if n < 10 {
      assert r[..0] == [];
    } else {
      DecimalOfRendered(n / 10);
      assert r[..|r| - 1] == Rendered(n / 10);
    }
  }

  /** The local end that a reverse forward installs for a port is read back as that port, and no other number is one. */
  lemma PortOfRendered(n: nat)
    ensures PortOf(TCP + Rendered(n)) == if n <= 0xFFFF then Some(n) else None
  {
    var local := TCP + Rendered(n);
    DecimalOfRendered(n);
    assert TCP <= local && local[4..] == Rendered(n);
    assert Digit(Rendered(n)[0]);
  }

  /**
   An OPEN is refused if and only if no route names its destination at either end.  Otherwise it is relayed to the
   port of the route's local end, or of the destination itself when only a local end is named, and ignored when that
   is no port.
   */
  lemma RefusedExactly(routes: map<seq<byte>, seq<byte>>, payload: seq<byte>)
    ensures var destination, decision := Trimmed(payload), Decide(routes, payload);
            && (decision.Refuse? <==>
                  forall remote <- routes :: remote != destination && routes[remote] != destination)
            && (destination in routes ==>
                  var port := PortOf(routes[destination]);
                  decision == if port.Some? then Relay(port.value) else Ignore)
            && (destination !in routes && !decision.Refuse? ==>
                  decision == if PortOf(destination).Some? then Relay(PortOf(destination).value) else Ignore)
  {
    var destination := Trimmed(payload);
    if forall remote <- routes :: remote != destination && routes[remote] != destination {
      assert destination !in routes.Values;
    } else if destination !in routes {
      var remote :| remote in routes && routes[remote] == destination;
      assert destination in routes.Values;
    }
  }

  // ---- Steps ----

  datatype Act =
    | AskRegister
    | AskWrite(message: Packet)
    | AskRoute(remote: seq<byte>, local: Option<seq<byte>>)
    | AskRoutes
    | AskShutdown
    | PickUp(owner: Owner)
    | DropHandle(owner: Owner)
    | Process(id: Option<u32>, after: u32)
    | Read(packet: Packet, id: Option<u32>, after: u32)
    | TimeOut
    | ReadError

  /** The outcome of an allocation is a parameter of the step, bound by what `AllocateLocalId` ensures. */
  ghost predicate Enabled(w: World, a: Act) {
    match a
    case PickUp(owner) => owner in w.replies
    case DropHandle(owner) => owner in w.handles
    case Process(id, after) =>
      && w.running && w.commands != []
      && (w.commands[0].RegisterCmd? ==> Allocates(w.sessions.Keys, w.nextLocalId, id, after))
    case Read(p, id, after) =>
      && w.running
      && (p.command == Open && Decide(w.routes, p.payload).Relay? ==>
            Allocates(w.sessions.Keys, w.nextLocalId, id, after))
    case TimeOut => w.running
    case ReadError => w.running
    case _ => true
  }

  /** Sending to a dispatcher that has gone fails at once: the token is dropped. */
  function Ask(w: World, cmd: Token -> Cmd): World {
    var next := w.(nextToken := w.nextToken + 1);
    if w.running then next.(commands := w.commands + [cmd(w.nextToken)])
    else next.(dropped := w.dropped + {w.nextToken})
  }

  function Submit(w: World, cmd: Cmd): World {
    if w.running then w.(commands := w.commands + [cmd]) else w
  }

  function TokenOf(c: Cmd): set<Token> {
    match c
    case WriteCmd(t, _) => {t}
    case RouteCmd(t, _, _) => {t}
    case RoutesCmd(t) => {t}
    case _ => {}
  }

  function TokensOf(cs: seq<Cmd>): set<Token> {
    if cs == [] then {} else TokenOf(cs[0]) + TokensOf(cs[1..])
  }

  /** The owners whose registration is still queued. */
  function Registering(cs: seq<Cmd>): set<Owner> {
    if cs == [] then {} else (if cs[0].RegisterCmd? then {cs[0].owner} else {}) + Registering(cs[1..])
  }

  /** Registrations still queued when the loop returns are answered by their channel closing. */
  function Refusals(cs: seq<Cmd>): map<Owner, Option<u32>> {
    map o <- Registering(cs) :: None
  }

  function Ended(history: map<Owner, Registration>, sessions: map<u32, Owner>, ending: Ending)
    : map<Owner, Registration>
  {
    map o <- history :: if o in sessions.Values then history[o].(ending := ending) else history[o]
  }

  /** The loop returns: the queue and every sender it owns are dropped, and with them all that was queued. */
  function Halted(w: World, ending: Ending): World {
    w.(running := false, commands := [], sessions := map[],
       dropped := w.dropped + TokensOf(w.commands),
       replies := w.replies + Refusals(w.commands),
       history := Ended(w.history, w.sessions, ending))
  }

  function Registered(w: World, owner: Owner, id: u32, after: u32): World {
    w.(sessions := w.sessions[id := owner], nextLocalId := after, channels := w.channels[owner := []],
       history := w.history[owner := Registration(id, |w.read|, Current)])
  }

  /** An allocated registration is answered with its identifier, the others with an error. */
  function Added(w: World, owner: Owner, id: Option<u32>, after: u32): World {
    if id.Some? then Registered(w, owner, id.value, after).(replies := w.replies[owner := id])
    else w.(nextLocalId := after, replies := w.replies[owner := None])
  }

  function Unregistered(w: World, localId: u32): World {
    if localId in w.sessions then
      w.(sessions := w.sessions - {localId}, history := Closed(w.history, w.sessions[localId], |w.read|))
    else w
  }

  function Closed(history: map<Owner, Registration>, o: Owner, at: nat): map<Owner, Registration> {
    if o in history then history[o := history[o].(ending := Removed(at))] else history
  }

  function SetRoute(routes: map<seq<byte>, seq<byte>>, remote: seq<byte>, local: Option<seq<byte>>)
    : map<seq<byte>, seq<byte>>
  {
    if local.Some? then routes[remote := local.value] else routes - {remote}
  }

  function Processed(w: World, id: Option<u32>, after: u32): World
    requires w.commands != []
  {
    var next := w.(commands := w.commands[1..]);
    match w.commands[0]
    case WriteCmd(t, message) => next.(written := w.written + [message], answered := w.answered + {t})
    case RegisterCmd(owner) => Added(next, owner, id, after)
    case UnregisterCmd(localId, _) => Unregistered(next, localId)
    case RouteCmd(t, remote, local) => next.(answered := w.answered + {t}, routes := SetRoute(w.routes, remote, local))
    case RoutesCmd(t) => next.(answered := w.answered + {t})
    case ShutdownCmd => Halted(w, Stopped(|w.read|))
  }

  /** A session of the dispatcher's own, handed to the relay for its port. */
  function Relayed(w: World, id: u32, after: u32): World {
    Registered(w, w.nextOwner, id, after)
      .(nextOwner := w.nextOwner + 1, handles := w.handles[w.nextOwner := id], settled := w.settled + {w.nextOwner})
  }

  /** A device OPEN: relayed to its local end by a session of its own, refused, or ignored. */
  function Incoming(w: World, p: Packet, decision: Decision, id: Option<u32>, after: u32): World {
    var seen := w.(read := w.read + [p]);
    match decision
    case Refuse => seen.(written := w.written + [Packet(Clse, 0, p.arg0, [])])
    case Ignore => seen
    case Relay(_) =>
      if id.None? then seen.(nextLocalId := after)
      else Relayed(seen, id.value, after)
  }

  function Routed(w: World, p: Packet): World {
    var seen := w.(read := w.read + [p]);
    if p.arg1 in w.sessions && w.sessions[p.arg1] in w.channels then
      var o := w.sessions[p.arg1];
      seen.(channels := w.channels[o := w.channels[o] + [p]])
    else seen
  }

  /** After a transport error every registered session is sent one CLSE before the loop returns. */
  function Woken(w: World): map<Owner, seq<Packet>> {
    map o <- w.channels ::
      if o in w.sessions.Values && o in w.history
      then w.channels[o] + [Packet(Clse, 0, w.history[o].id, [])] else w.channels[o]
  }

  /** A registration returns to its caller, with a handle or an error. */
  function PickedUp(w: World, owner: Owner): World
    requires owner in w.replies
  {
    var rest := w.replies - {owner};
    var next := w.(replies := rest, settled := w.settled + {owner});
    if w.replies[owner].Some? then next.(handles := w.handles[owner := w.replies[owner].value]) else next
  }

  function Next(w: World, a: Act): World
    requires Enabled(w, a)
  {
    match a
    case AskRegister =>
      var next := w.(nextOwner := w.nextOwner + 1);
      if w.running then next.(commands := w.commands + [RegisterCmd(w.nextOwner)])
      else next.(replies := w.replies[w.nextOwner := None])
    case AskWrite(message) => Ask(w, (t: Token) => WriteCmd(t, message))
    case AskRoute(remote, local) => Ask(w, (t: Token) => RouteCmd(t, remote, local))
    case AskRoutes => Ask(w, (t: Token) => RoutesCmd(t))
    case AskShutdown => Submit(w, ShutdownCmd)
    case PickUp(owner) => PickedUp(w, owner)
    case DropHandle(owner) =>
      Submit(w.(handles := w.handles - {owner}), UnregisterCmd(w.handles[owner], owner))
    case Process(id, after) => Processed(w, id, after)
    case Read(p, id, after) =>
      if p.command == Open then Incoming(w, p, Decide(w.routes, p.payload), id, after) else Routed(w, p)
    case TimeOut => w
    case ReadError => Halted(w.(channels := Woken(w)), Failed(|w.read|))
  }

  ghost predicate Legal(w: World, acts: seq<Act>)
    decreases |acts|
  {
    acts == [] || (Enabled(w, acts[0]) && Legal(Next(w, acts[0]), acts[1..]))
  }

  ghost function After(w: World, acts: seq<Act>): World
    requires Legal(w, acts)
    decreases |acts|
  {
    if acts == [] then w else After(Next(w, acts[0]), acts[1..])
  }

  // ---- Ownership ----

  function Unregistering(cs: seq<Cmd>, o: Owner): nat {
    if cs == [] then 0 else (if cs[0].UnregisterCmd? && cs[0].client == o then 1 else 0) + Unregistering(cs[1..], o)
  }

  function Asking(cs: seq<Cmd>, o: Owner): nat {
    if cs == [] then 0 else (if cs[0] == RegisterCmd(o) then 1 else 0) + Asking(cs[1..], o)
  }

  lemma {:induction false} QueueGrows(cs: seq<Cmd>, c: Cmd, o: Owner)
    ensures Unregistering(cs + [c], o) == Unregistering(cs, o) + if c.UnregisterCmd? && c.client == o then 1 else 0
    ensures Asking(cs + [c], o) == Asking(cs, o) + if c == RegisterCmd(o) then 1 else 0
  {
    if cs == [] {
      assert [c][1..] == [];
    } else {
      assert (cs + [c])[1..] == cs[1..] + [c];
      QueueGrows(cs[1..], c, o);
    }
  }

  predicate IsOpen(w: World, o: Owner) {
    o in w.history && w.history[o].ending.Current?
  }

  /** In how many hands the right to unregister is: an unread reply, a handle, a queued Unregister. */
  function Holds(w: World, o: Owner): nat {
    (if o in w.replies && w.replies[o].Some? then 1 else 0) + (if o in w.handles then 1 else 0) +
    Unregistering(w.commands, o)
  }

  /** The session map and the open registrations are the same thing. */
  predicate MapOk(w: World) {
    && w.nextLocalId >= 1
    && (forall id <- w.sessions :: id >= 1 && IsOpen(w, w.sessions[id]) && w.history[w.sessions[id]].id == id)
    && (forall o <- w.history | w.history[o].ending.Current? ::
          w.history[o].id in w.sessions && w.sessions[w.history[o].id] == o)
  }

  predicate OwnerOk(w: World, o: Owner) {
    && Holds(w, o) == (if IsOpen(w, o) then 1 else 0)
    && (o in w.replies && w.replies[o].Some? ==> IsOpen(w, o) && w.replies[o].value == w.history[o].id)
    && (o in w.handles ==> IsOpen(w, o) && w.handles[o] == w.history[o].id)
    && (forall c <- w.commands | c.UnregisterCmd? && c.client == o :: IsOpen(w, o) && c.localId == w.history[o].id)
    && Asking(w.commands, o) <= 1
    && (Asking(w.commands, o) == 1 ==> o < w.nextOwner && o !in w.history && o !in w.replies && o !in w.handles)
    && (o >= w.nextOwner ==> o !in w.history && o !in w.replies && o !in w.handles && Asking(w.commands, o) == 0)
  }

  /** What holds of an owner once the loop has returned. */
  predicate Gone(w: World, o: Owner) {
    && w.sessions == map[] && w.commands == []
    && !IsOpen(w, o)
  }

  predicate OwnerInv(w: World, o: Owner) {
    if w.running then MapOk(w) && OwnerOk(w, o) else Gone(w, o)
  }

  /** Nothing about owner `o` differs. */
  predicate SameOwner(w: World, w': World, o: Owner) {
    && (o in w'.history <==> o in w.history)
    && (o in w.history ==> w'.history[o] == w.history[o])
    && (o in w'.replies <==> o in w.replies)
    && (o in w.replies ==> w'.replies[o] == w.replies[o])
    && (o in w'.handles <==> o in w.handles)
    && (o in w.handles ==> w'.handles[o] == w.handles[o])
    && Unregistering(w'.commands, o) == Unregistering(w.commands, o)
    && Asking(w'.commands, o) == Asking(w.commands, o)
    && (forall c <- w'.commands | c.UnregisterCmd? && c.client == o :: c in w.commands)
    && w.nextOwner <= w'.nextOwner
  }

  lemma SameOwnerOk(w: World, w': World, o: Owner)
    requires OwnerOk(w, o) && SameOwner(w, w', o)
    ensures OwnerOk(w', o)
  {
  }

  lemma UnregisteringMember(cs: seq<Cmd>, c: Cmd)
    requires c in cs && c.UnregisterCmd?
    ensures Unregistering(cs, c.client) >= 1
  {
    if cs[0] != c {
      UnregisteringMember(cs[1..], c);
    }
  }

  lemma AskKeeps(w: World, a: Act, o: Owner)
    requires OwnerInv(w, o) && Enabled(w, a)
    requires a.AskRegister? || a.AskWrite? || a.AskRoute? || a.AskRoutes? || a.AskShutdown?
    ensures OwnerInv(Next(w, a), o)
  {
    var w' := Next(w, a);
    if w.running {
      QueueGrows(w.commands, w'.commands[|w.commands|], o);
    }
  }

  lemma SameMapOk(w: World, w': World)
    requires MapOk(w) && w'.sessions == w.sessions && w'.history == w.history && w'.nextLocalId >= 1
    ensures MapOk(w')
  {
  }

  lemma PickUpKeeps(w: World, owner: Owner, o: Owner)
    requires OwnerInv(w, o) && OwnerInv(w, owner) && owner in w.replies
    ensures OwnerInv(PickedUp(w, owner), o)
  {
    var w' := PickedUp(w, owner);
    if !w.running {
      assert Gone(w', o);
    } else if o != owner {
      SameMapOk(w, w');
      PickUpOther(w, owner, o);
    } else {
      SameMapOk(w, w');
      PickedUpOk(w, o);
    }
  }

  lemma PickUpOther(w: World, owner: Owner, o: Owner)
    requires OwnerOk(w, o) && o != owner && owner in w.replies
    ensures OwnerOk(PickedUp(w, owner), o)
  {
    var w' := PickedUp(w, owner);
    assert SameOwner(w, w', o);
    SameOwnerOk(w, w', o);
  }

  lemma PickedUpOk(w: World, o: Owner)
    requires OwnerOk(w, o) && o in w.replies
    ensures OwnerOk(PickedUp(w, o), o)
  {
    var w' := PickedUp(w, o);
    assert Asking(w.commands, o) == 0 && w'.commands == w.commands;
    assert Holds(w', o) == Holds(w, o) by {
      if w.replies[o].Some? {
        assert o !in w.handles;
      }
    }
  }

  lemma DropKeeps(w: World, owner: Owner, o: Owner)
    requires OwnerInv(w, o) && OwnerInv(w, owner) && owner in w.handles
    ensures OwnerInv(Next(w, DropHandle(owner)), o)
  {
    QueueGrows(w.commands, UnregisterCmd(w.handles[owner], owner), o);
  }

  lemma HaltKeeps(w: World, ending: Ending, o: Owner)
    requires w.running && OwnerInv(w, o) && !ending.Current?
    ensures OwnerInv(Halted(w, ending), o)
  {
    if IsOpen(w, o) {
      assert w.sessions[w.history[o].id] == o;
      assert o in w.sessions.Values;
    }
  }

  /** A fresh registration under a free identifier. */
  lemma RegisterKeepsMap(w: World, owner: Owner, id: u32, after: u32)
    requires MapOk(w) && owner !in w.history && id != 0 && id !in w.sessions && after != 0
    ensures MapOk(Registered(w, owner, id, after))
  {
  }

  /**
   The queued Unregister that is processed removes the session of the very client that queued it, whichever sessions
   have been opened and closed meanwhile.
   */
  lemma UnregisterHitsItsOwn(w: World)
    requires w.running && w.commands != [] && w.commands[0].UnregisterCmd?
    requires OwnerInv(w, w.commands[0].client)
    ensures w.commands[0].localId in w.sessions && w.sessions[w.commands[0].localId] == w.commands[0].client
  {
    assert w.commands[0] in w.commands;
  }

  /** Commands that touch neither sessions nor owners. */
  lemma ProcessPlainKeeps(w: World, id: Option<u32>, after: u32, o: Owner)
    requires w.running && w.commands != [] && OwnerInv(w, o)
    requires w.commands[0].WriteCmd? || w.commands[0].RouteCmd? || w.commands[0].RoutesCmd?
    ensures OwnerInv(Processed(w, id, after), o)
  {
    assert forall c <- w.commands[1..] :: c in w.commands;
  }

  lemma ProcessUnregisterKeeps(w: World, id: Option<u32>, after: u32, o: Owner)
    requires w.running && w.commands != [] && w.commands[0].UnregisterCmd?
    requires OwnerInv(w, o) && OwnerInv(w, w.commands[0].client)
    ensures OwnerInv(Processed(w, id, after), o)
  {
    var c := w.commands[0];
    var w' := Processed(w, id, after);
    UnregisterHitsItsOwn(w);
    assert forall d <- w.commands[1..] :: d in w.commands;
    if o == c.client {
      if exists d :: d in w.commands[1..] && d.UnregisterCmd? && d.client == o {
        var d :| d in w.commands[1..] && d.UnregisterCmd? && d.client == o;
        UnregisteringMember(w.commands[1..], d);
        assert false;
      }
    }
    UnregisterKeepsMap(w, id, after);
  }

  lemma UnregisterKeepsMap(w: World, id: Option<u32>, after: u32)
    requires w.running && w.commands != [] && w.commands[0].UnregisterCmd? && MapOk(w)
    requires w.commands[0].localId in w.sessions
    ensures MapOk(Processed(w, id, after))
  {
    var w' := Processed(w, id, after);
    var gone := w.sessions[w.commands[0].localId];
    assert w'.history == w.history[gone := w.history[gone].(ending := Removed(|w.read|))];
    forall i <- w'.sessions ensures w'.sessions[i] != gone {
      assert w.history[w.sessions[i]].id == i;
    }
  }

  lemma AskedOnce(w: World, owner: Owner)
    requires w.commands != [] && w.commands[0] == RegisterCmd(owner) && OwnerOk(w, owner)
    ensures owner !in w.history && owner !in w.replies && owner !in w.handles && owner < w.nextOwner
    ensures Asking(w.commands[1..], owner) == 0 && Unregistering(w.commands, owner) == 0
    ensures forall c <- w.commands :: !(c.UnregisterCmd? && c.client == owner)
  {
    assert Asking(w.commands, owner) == 1;
    assert Holds(w, owner) == 0;
  }

  lemma ProcessRegisterKeeps(w: World, id: Option<u32>, after: u32, o: Owner)
    requires w.running && w.commands != [] && w.commands[0].RegisterCmd?
    requires Allocates(w.sessions.Keys, w.nextLocalId, id, after)
    requires OwnerInv(w, o) && OwnerInv(w, w.commands[0].owner)
    ensures OwnerInv(Processed(w, id, after), o)
  {
    var owner := w.commands[0].owner;
    var w' := Processed(w, id, after);
    AskedOnce(w, owner);
    AllocationSucceeds(w.sessions.Keys, w.nextLocalId, id, after);
    assert forall c <- w.commands[1..] :: c in w.commands;
    if id.Some? {
      RegisterKeepsMap(w, owner, id.value, after);
    }
    if o != owner {
      assert SameOwner(w, w', o);
      SameOwnerOk(w, w', o);
    } else {
      RegisteredOwnerOk(w, id, after);
    }
  }

  lemma RegisteredOwnerOk(w: World, id: Option<u32>, after: u32)
    requires w.commands != [] && w.commands[0].RegisterCmd? && OwnerOk(w, w.commands[0].owner)
    ensures OwnerOk(Processed(w, id, after), w.commands[0].owner)
  {
    AskedOnce(w, w.commands[0].owner);
    assert forall c <- w.commands[1..] :: c in w.commands;
  }

  lemma ProcessKeeps(w: World, id: Option<u32>, after: u32, o: Owner)
    requires Enabled(w, Process(id, after))
    requires forall x: Owner :: OwnerInv(w, x)
    ensures OwnerInv(Processed(w, id, after), o)
  {
    match w.commands[0]
    case WriteCmd(_, _) => ProcessPlainKeeps(w, id, after, o);
    case RegisterCmd(_) => ProcessRegisterKeeps(w, id, after, o);
    case UnregisterCmd(_, _) => ProcessUnregisterKeeps(w, id, after, o);
    case RouteCmd(_, _, _) => ProcessPlainKeeps(w, id, after, o);
    case RoutesCmd(_) => ProcessPlainKeeps(w, id, after, o);
    case ShutdownCmd => HaltKeeps(w, Stopped(|w.read|), o);
  }

  /** A step that leaves sessions, owners and commands alone. */
  lemma QuietKeeps(w: World, w': World, o: Owner)
    requires w.running && w'.running && OwnerInv(w, o)
    requires w'.sessions == w.sessions && w'.history == w.history && w'.replies == w.replies && w'.handles == w.handles
    requires w'.commands == w.commands && w'.nextOwner == w.nextOwner && w'.nextLocalId >= 1
    ensures OwnerInv(w', o)
  {
    assert SameOwner(w, w', o);
    SameOwnerOk(w, w', o);
  }

  /** What a device OPEN may change, whatever the routes decide. */
  lemma IncomingEither(w: World, p: Packet, decision: Decision, id: Option<u32>, after: u32)
    requires after != 0 && w.nextLocalId >= 1
    ensures var w' := Incoming(w, p, decision, id, after);
      || (id.Some? && w' == Relayed(w.(read := w.read + [p]), id.value, after))
      || (&& w'.sessions == w.sessions && w'.history == w.history && w'.replies == w.replies && w'.handles == w.handles
          && w'.commands == w.commands && w'.nextOwner == w.nextOwner && w'.nextLocalId >= 1 && w'.running == w.running)
  {
  }

  lemma IncomingKeeps(w: World, p: Packet, decision: Decision, id: Option<u32>, after: u32, o: Owner)
    requires w.running && OwnerInv(w, o) && OwnerInv(w, w.nextOwner) && after != 0
    requires id.Some? ==> MapOk(Registered(w.(read := w.read + [p]), w.nextOwner, id.value, after))
    ensures OwnerInv(Incoming(w, p, decision, id, after), o)
  {
    var seen, w' := w.(read := w.read + [p]), Incoming(w, p, decision, id, after);
    IncomingEither(w, p, decision, id, after);
    if w'.sessions == w.sessions && w'.handles == w.handles && w'.history == w.history && w'.nextOwner == w.nextOwner {
      QuietKeeps(w, w', o);
    } else {
      QuietKeeps(w, seen, o);
      QuietKeeps(w, seen, w.nextOwner);
      RelayedKeeps(seen, id.value, after, o);
    }
  }

  lemma RelayedKeeps(w: World, id: u32, after: u32, o: Owner)
    requires w.running && OwnerInv(w, o) && OwnerInv(w, w.nextOwner)
    requires MapOk(Registered(w, w.nextOwner, id, after))
    ensures OwnerInv(Relayed(w, id, after), o)
  {
    assert Holds(w, w.nextOwner) == 0;
    assert forall c <- w.commands :: !(c.UnregisterCmd? && c.client == w.nextOwner);
  }

  lemma OpenKeeps(w: World, p: Packet, decision: Decision, id: Option<u32>, after: u32, o: Owner)
    requires w.running && (decision.Relay? ==> Allocates(w.sessions.Keys, w.nextLocalId, id, after))
    requires OwnerInv(w, o) && OwnerInv(w, w.nextOwner)
    ensures OwnerInv(Incoming(w, p, decision, id, after), o)
  {
    if !decision.Relay? {
      QuietKeeps(w, Incoming(w, p, decision, id, after), o);
      return;
    }
    AllocationSucceeds(w.sessions.Keys, w.nextLocalId, id, after);
    if id.Some? {
      RegisterKeepsMap(w.(read := w.read + [p]), w.nextOwner, id.value, after);
    }
    IncomingKeeps(w, p, decision, id, after, o);
  }

  lemma ReadKeeps(w: World, p: Packet, id: Option<u32>, after: u32, o: Owner)
    requires Enabled(w, Read(p, id, after))
    requires OwnerInv(w, o) && OwnerInv(w, w.nextOwner)
    ensures OwnerInv(Next(w, Read(p, id, after)), o)
  {
    if p.command == Open {
      OpenKeeps(w, p, Decide(w.routes, p.payload), id, after, o);
    } else {
      QuietKeeps(w, Routed(w, p), o);
    }
  }

  lemma StepKeeps(w: World, a: Act, o: Owner)
    requires Enabled(w, a)
    requires forall x: Owner :: OwnerInv(w, x)
    ensures OwnerInv(Next(w, a), o)
  {
    match a
    case PickUp(owner) => PickUpKeeps(w, owner, o);
    case DropHandle(owner) => DropKeeps(w, owner, o);
    case Process(id, after) => ProcessKeeps(w, id, after, o);
    case Read(p, id, after) => ReadKeeps(w, p, id, after, o);
    case TimeOut =>
    case ReadError => HaltKeeps(w.(channels := Woken(w)), Failed(|w.read|), o);
    case _ => AskKeeps(w, a, o);
  }

  lemma {:induction false} OwnershipHolds(w: World, acts: seq<Act>)
    requires (forall o: Owner :: OwnerInv(w, o)) && Legal(w, acts)
    ensures forall o: Owner :: OwnerInv(After(w, acts), o)
    decreases |acts|
  {
    if acts != [] {
      forall o: Owner ensures OwnerInv(Next(w, acts[0]), o) {
        StepKeeps(w, acts[0], o);
      }
      OwnershipHolds(Next(w, acts[0]), acts[1..]);
    }
  }
}
