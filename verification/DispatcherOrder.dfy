/**
 In what order the packet dispatcher serves its clients, and what it writes to the transport
 (adb_client/src/message_devices/transport_dispatcher.rs:273-385).  The statements are about whole runs of the
 transition system in `Dispatcher`: commands are served in the order in which they were accepted, each message of a
 client is written once, and nothing else is written but a CLSE for each refused connection.
 */
module DispatcherOrder {
  import opened Bytes
  import opened Message
  import opened SessionIds
  import opened Dispatcher
  import opened DispatcherRuns

  // ---- What a run accepts, serves, and refuses ----

  /** The command that joins the queue, if any. */
  function Joins(w: World, a: Act): seq<Cmd>
    requires a.DropHandle? ==> a.owner in w.handles
  {
    if !w.running then []
    else
      match a
      case AskRegister => [RegisterCmd(w.nextOwner)]
      case AskWrite(message) => [WriteCmd(w.nextToken, message)]
      case AskRoute(remote, local) => [RouteCmd(w.nextToken, remote, local)]
      case AskRoutes => [RoutesCmd(w.nextToken)]
      case AskShutdown => [ShutdownCmd]
      case DropHandle(owner) => [UnregisterCmd(w.handles[owner], owner)]
      case _ => []
  }

  function Serves(w: World, a: Act): seq<Cmd> {
    if a.Process? && w.commands != [] then [w.commands[0]] else []
  }

  /** No route names the destination, at either end. */
  predicate Unrouted(routes: map<seq<byte>, seq<byte>>, payload: seq<byte>) {
    forall remote <- routes :: remote != Trimmed(payload) && routes[remote] != Trimmed(payload)
  }

  /** The CLSE for a connection that is refused. */
  function Refuses(w: World, a: Act): seq<Packet> {
    if a.Read? && a.packet.command == Open && Unrouted(w.routes, a.packet.payload)
    then [Packet(Clse, 0, a.packet.arg0, [])] else []
  }

  ghost function Accepted(w: World, acts: seq<Act>): seq<Cmd>
    requires Legal(w, acts)
    decreases |acts|
  {
    if acts == [] then [] else Joins(w, acts[0]) + Accepted(Next(w, acts[0]), acts[1..])
  }

  ghost function Served(w: World, acts: seq<Act>): seq<Cmd>
    requires Legal(w, acts)
    decreases |acts|
  {
    if acts == [] then [] else Serves(w, acts[0]) + Served(Next(w, acts[0]), acts[1..])
  }

  ghost function Refused(w: World, acts: seq<Act>): seq<Packet>
    requires Legal(w, acts)
    decreases |acts|
  {
    if acts == [] then [] else Refuses(w, acts[0]) + Refused(Next(w, acts[0]), acts[1..])
  }

  /** The messages among some commands, in order. */
  function Messages(cs: seq<Cmd>): seq<Packet> {
    if cs == [] then []
    else if cs[0].WriteCmd? then [cs[0].message] + Messages(cs[1..])
    else Messages(cs[1..])
  }

  /** Both sequences, in their own order, make up the whole. */
  predicate Merges<T(==)>(all: seq<T>, a: seq<T>, b: seq<T>) {
    if all == [] then a == [] && b == []
    else
      || (a != [] && a[0] == all[0] && Merges(all[1..], a[1..], b))
      || (b != [] && b[0] == all[0] && Merges(all[1..], a, b[1..]))
  }

  /** The local end that the last of some commands gives a route, or what it was before. */
  function LastRoute(cs: seq<Cmd>, remote: seq<byte>, was: Option<seq<byte>>): Option<seq<byte>> {
    if cs == [] then was
    else LastRoute(cs[1..], remote, if cs[0].RouteCmd? && cs[0].remote == remote then cs[0].local else was)
  }

  function RouteOf(routes: map<seq<byte>, seq<byte>>, remote: seq<byte>): Option<seq<byte>> {
    if remote in routes then Some(routes[remote]) else None
  }

  // ---- One step ----

  /** The routes after a command. */
  function Routing(routes: map<seq<byte>, seq<byte>>, c: Cmd): map<seq<byte>, seq<byte>> {
    if !c.RouteCmd? then routes
    else if c.local.Some? then routes[c.remote := c.local.value]
    else routes - {c.remote}
  }

  /** The loop is still running, and has served a command. */
  predicate ServedAs(w: World, w': World, c: Cmd)
    requires w.commands != []
  {
    && w'.running && w'.commands == w.commands[1..]
    && w'.written == w.written + Messages([c])
    && w'.routes == Routing(w.routes, c)
    && w'.answered == w.answered + TokenOf(c)
    && w'.dropped == w.dropped && w'.nextToken == w.nextToken
  }

  /** A step that leaves the transport, the routes and the answers alone. */
  predicate Quiet(w: World, w': World) {
    w'.written == w.written && w'.routes == w.routes && w'.answered == w.answered
  }

  /** The loop has returned, and dropped what was queued. */
  predicate Halts(w: World, w': World) {
    !w'.running && w'.commands == [] && w'.dropped == w.dropped + TokensOf(w.commands) && w'.nextToken == w.nextToken
  }

  /** A client has put a command into the queue, or nothing. */
  predicate JoinsAs(w: World, w': World, joins: seq<Cmd>) {
    && w'.running == w.running && w'.commands == w.commands + joins
    && w.dropped <= w'.dropped && w.nextToken <= w'.nextToken
    && (joins == [] || (|joins| == 1 && TokenOf(joins[0]) <= {w.nextToken} &&
                        (TokenOf(joins[0]) != {} ==> w.nextToken < w'.nextToken)))
  }

  lemma ServesWrite(w: World, a: Act)
    requires Enabled(w, a) && a.Process? && w.commands[0].WriteCmd?
    ensures ServedAs(w, Next(w, a), w.commands[0])
  {
    assert Messages([w.commands[0]][1..]) == [];
  }

  lemma ServesRoute(w: World, a: Act)
    requires Enabled(w, a) && a.Process? && (w.commands[0].RouteCmd? || w.commands[0].RoutesCmd?)
    ensures ServedAs(w, Next(w, a), w.commands[0])
  {
    assert Messages([w.commands[0]][1..]) == [];
  }

  /** Nothing of the queue, the transport, the routes and the answers differs. */
  predicate Beside(w: World, w': World) {
    && w'.running == w.running && w'.commands == w.commands && w'.written == w.written && w'.routes == w.routes
    && w'.answered == w.answered && w'.dropped == w.dropped && w'.nextToken == w.nextToken
  }

  lemma AddedBeside(w: World, owner: Owner, id: Option<u32>, after: u32)
    ensures Beside(w, Added(w, owner, id, after))
  {
  }

  lemma UnregisteredBeside(w: World, localId: u32)
    ensures Beside(w, Unregistered(w, localId))
  {
  }

  lemma PickedUpBeside(w: World, owner: Owner)
    requires owner in w.replies
    ensures Beside(w, PickedUp(w, owner))
  {
    var rest := w.replies - {owner};
    var next := w.(replies := rest, settled := w.settled + {owner});
    assert Beside(w, next);
  }

  lemma ServesRegister(w: World, a: Act)
    requires Enabled(w, a) && a.Process? && w.commands[0].RegisterCmd?
    ensures ServedAs(w, Next(w, a), w.commands[0])
  {
    AddedBeside(w.(commands := w.commands[1..]), w.commands[0].owner, a.id, a.after);
    assert Messages([w.commands[0]][1..]) == [];
  }

  lemma ServesUnregister(w: World, a: Act)
    requires Enabled(w, a) && a.Process? && w.commands[0].UnregisterCmd?
    ensures ServedAs(w, Next(w, a), w.commands[0])
  {
    UnregisteredBeside(w.(commands := w.commands[1..]), w.commands[0].localId);
    assert Messages([w.commands[0]][1..]) == [];
  }

  lemma Serving(w: World, a: Act)
    requires Enabled(w, a) && a.Process? && !w.commands[0].ShutdownCmd?
    ensures ServedAs(w, Next(w, a), w.commands[0])
  {
    match w.commands[0]
    case WriteCmd(_, _) => ServesWrite(w, a);
    case RouteCmd(_, _, _) => ServesRoute(w, a);
    case RoutesCmd(_) => ServesRoute(w, a);
    case RegisterCmd(_) => ServesRegister(w, a);
    case UnregisterCmd(_, _) => ServesUnregister(w, a);
  }

  lemma ShutsDown(w: World, a: Act)
    requires Enabled(w, a) && a.Process? && w.commands[0].ShutdownCmd?
    ensures Halts(w, Next(w, a)) && Quiet(w, Next(w, a))
  {
  }

  lemma Breaks(w: World)
    requires w.running
    ensures Halts(w, Next(w, ReadError)) && Quiet(w, Next(w, ReadError))
  {
  }

  lemma Asks(w: World, a: Act)
    requires a.AskWrite? || a.AskRoute? || a.AskRoutes?
    requires !w.running ==> w.commands == []
    ensures JoinsAs(w, Next(w, a), Joins(w, a)) && Quiet(w, Next(w, a))
  {
  }

  lemma AsksWithout(w: World, a: Act)
    requires Enabled(w, a) && (a.AskRegister? || a.AskShutdown? || a.DropHandle?)
    requires !w.running ==> w.commands == []
    ensures JoinsAs(w, Next(w, a), Joins(w, a)) && Quiet(w, Next(w, a))
  {
  }

  lemma PicksUp(w: World, owner: Owner)
    requires owner in w.replies
    ensures JoinsAs(w, Next(w, PickUp(owner)), []) && Quiet(w, Next(w, PickUp(owner)))
  {
    PickedUpBeside(w, owner);
    assert w.commands + [] == w.commands;
  }

  lemma Joining(w: World, a: Act)
    requires Enabled(w, a) && !a.Process? && !a.Read? && !a.ReadError?
    requires !w.running ==> w.commands == []
    ensures JoinsAs(w, Next(w, a), Joins(w, a)) && Quiet(w, Next(w, a))
  {
    match a
    case AskWrite(_) => Asks(w, a);
    case AskRoute(_, _) => Asks(w, a);
    case AskRoutes => Asks(w, a);
    case AskRegister => AsksWithout(w, a);
    case AskShutdown => AsksWithout(w, a);
    case DropHandle(_) => AsksWithout(w, a);
    case PickUp(owner) => PicksUp(w, owner);
    case TimeOut => assert w.commands + [] == w.commands;
  }

  /** What reading the transport does to all this: a CLSE is written for a connection that no route names. */
  predicate ReadsAs(w: World, w': World, refuses: seq<Packet>) {
    && w'.running == w.running && w'.commands == w.commands
    && w'.dropped == w.dropped && w'.nextToken == w.nextToken
    && w'.routes == w.routes && w'.answered == w.answered
    && w'.written == w.written + refuses
  }

  lemma ReadsOpen(w: World, a: Act)
    requires Enabled(w, a) && a.Read? && a.packet.command == Open
    ensures ReadsAs(w, Next(w, a), Refuses(w, a))
  {
    RefusedExactly(w.routes, a.packet.payload);
    IncomingReads(w, a.packet, Decide(w.routes, a.packet.payload), a.id, a.after);
  }

  lemma IncomingReads(w: World, p: Packet, decision: Decision, id: Option<u32>, after: u32)
    ensures ReadsAs(w, Incoming(w, p, decision, id, after),
                    if decision.Refuse? then [Packet(Clse, 0, p.arg0, [])] else [])
  {
  }

  lemma Reading(w: World, a: Act)
    requires Enabled(w, a) && a.Read?
    ensures ReadsAs(w, Next(w, a), Refuses(w, a))
  {
    if a.packet.command == Open {
      ReadsOpen(w, a);
    } else {
      assert w.written + [] == w.written;
    }
  }

  /** Any step is one of these. */
  ghost predicate Stepped(w: World, a: Act)
    requires Enabled(w, a)
  {
    var w' := Next(w, a);
    if a.Process? && !w.commands[0].ShutdownCmd? then ServedAs(w, w', w.commands[0])
    else if a.Process? || a.ReadError? then Halts(w, w') && Quiet(w, w')
    else if a.Read? then ReadsAs(w, w', Refuses(w, a))
    else JoinsAs(w, w', Joins(w, a)) && Quiet(w, w')
  }

  lemma Steps(w: World, a: Act)
    requires Enabled(w, a) && (!w.running ==> w.commands == [])
    ensures Stepped(w, a) && (!Next(w, a).running ==> Next(w, a).commands == [])
  {
    if a.Process? && !w.commands[0].ShutdownCmd? {
      Serving(w, a);
    } else if a.Process? {
      ShutsDown(w, a);
    } else if a.ReadError? {
      Breaks(w);
    } else if a.Read? {
      Reading(w, a);
    } else {
      Joining(w, a);
    }
  }

  // ---- Whole runs ----

  lemma {:induction false} MessagesAppend(a: seq<Cmd>, b: seq<Cmd>)
    ensures Messages(a + b) == Messages(a) + Messages(b)
  {
    if a == [] {
      assert a + b == b;
    } else {
      assert (a + b)[1..] == a[1..] + b;
      MessagesAppend(a[1..], b);
    }
  }

  lemma {:induction false} TokensAppend(a: seq<Cmd>, b: seq<Cmd>)
    ensures TokensOf(a + b) == TokensOf(a) + TokensOf(b)
  {
    if a == [] {
      assert a + b == b;
    } else {
      assert (a + b)[1..] == a[1..] + b;
      TokensAppend(a[1..], b);
    }
  }

  lemma TokensOfOne(c: Cmd)
    ensures TokensOf([c]) == TokenOf(c)
  {
    assert [c][1..] == [];
  }

  /** The queue of a loop that has returned is empty. */
  predicate QueueOk(w: World) {
    !w.running ==> w.commands == []
  }

  /** After the loop has returned nothing is accepted, served or refused. */
  lemma {:induction false} NothingAfter(w: World, acts: seq<Act>)
    requires Legal(w, acts) && !w.running && w.commands == []
    ensures Accepted(w, acts) == [] && Served(w, acts) == [] && Refused(w, acts) == []
    ensures var v := After(w, acts);
            !v.running && v.commands == [] && Quiet(w, v) && w.dropped <= v.dropped
    decreases |acts|
  {
    if acts != [] {
      Steps(w, acts[0]);
      NothingAfter(Next(w, acts[0]), acts[1..]);
    }
  }

  /** What was queued and what is accepted is what is served and what is left, in the same order. */
  ghost predicate Fifo(w: World, acts: seq<Act>)
    requires Legal(w, acts)
  {
    var v := After(w, acts);
    var all, served := w.commands + Accepted(w, acts), Served(w, acts);
    if v.running then all == served + v.commands
    else served <= all && TokensOf(all[|served|..]) <= v.dropped
  }

  lemma FifoHalts(w: World, acts: seq<Act>)
    requires Legal(w, acts) && acts != [] && w.running && Halts(w, Next(w, acts[0]))
    requires acts[0].Process? ==> w.commands != [] && w.commands[0].ShutdownCmd?
    requires acts[0].Process? || acts[0].ReadError?
    ensures Fifo(w, acts)
  {
    var w' := Next(w, acts[0]);
    NothingAfter(w', acts[1..]);
    assert w.commands + Accepted(w, acts) == w.commands;
    if acts[0].Process? {
      assert Served(w, acts) == [w.commands[0]] && w.commands == [w.commands[0]] + w.commands[1..];
      assert w.commands[1..] == w.commands[|Served(w, acts)|..];
      TokensOfOne(w.commands[0]);
      TokensAppend([w.commands[0]], w.commands[1..]);
    } else {
      assert w.commands[0..] == w.commands;
    }
  }

  /** One step in front of a run that keeps the order. */
  lemma FifoPrepended(w: World, joins: seq<Cmd>, serves: seq<Cmd>, queue: seq<Cmd>, accepted: seq<Cmd>,
                      served: seq<Cmd>, left: seq<Cmd>)
    requires w.commands + joins == serves + queue && queue + accepted == served + left
    ensures w.commands + (joins + accepted) == serves + served + left
  {
    Regrouped(w.commands, joins, accepted);
    Regrouped(serves, queue, accepted);
    Regrouped(serves, served, left);
  }

  lemma FifoGoesOn(w: World, acts: seq<Act>)
    requires Legal(w, acts) && acts != [] && Next(w, acts[0]).running && w.running
    requires w.commands + Joins(w, acts[0]) == Serves(w, acts[0]) + Next(w, acts[0]).commands
    requires Fifo(Next(w, acts[0]), acts[1..])
    ensures Fifo(w, acts)
  {
    var w', rest := Next(w, acts[0]), acts[1..];
    var served := Served(w', rest);
    var all := w'.commands + Accepted(w', rest);
    var left := all[|served|..];
    assert all == served + left;
    FifoPrepended(w, Joins(w, acts[0]), Serves(w, acts[0]), w'.commands, Accepted(w', rest), served, left);
    assert (Serves(w, acts[0]) + served + left)[|Serves(w, acts[0]) + served|..] == left;
  }

  lemma {:induction false} RunsAreFifo(w: World, acts: seq<Act>)
    requires Legal(w, acts) && QueueOk(w)
    ensures Fifo(w, acts)
    decreases |acts|
  {
    if acts == [] {
      assert w.commands + [] == [] + w.commands;
    } else if !w.running {
      NothingAfter(w, acts);
      assert TokensOf([]) == {};
    } else {
      Steps(w, acts[0]);
      if Next(w, acts[0]).running {
        RunsAreFifo(Next(w, acts[0]), acts[1..]);
        TurnsQueue(w, acts[0]);
        FifoGoesOn(w, acts);
      } else {
        FifoHalts(w, acts);
      }
    }
  }

  lemma TurnsQueue(w: World, a: Act)
    requires Enabled(w, a) && Stepped(w, a) && w.running && Next(w, a).running
    ensures w.commands + Joins(w, a) == Serves(w, a) + Next(w, a).commands
  {
    if a.Process? {
      assert w.commands == [w.commands[0]] + w.commands[1..];
    }
  }

  // ---- What is written ----

  lemma MergesLeft<T>(x: seq<T>, all: seq<T>, a: seq<T>, b: seq<T>)
    requires Merges(all, a, b) && |x| <= 1
    ensures Merges(x + all, x + a, b)
  {
    if x == [] {
      assert x + all == all && x + a == a;
    } else {
      assert (x + all)[1..] == all && (x + a)[1..] == a;
    }
  }

  lemma MergesRight<T>(x: seq<T>, all: seq<T>, a: seq<T>, b: seq<T>)
    requires Merges(all, a, b) && |x| <= 1
    ensures Merges(x + all, a, x + b)
  {
    if x == [] {
      assert x + all == all && x + b == b;
    } else {
      assert (x + all)[1..] == all && (x + b)[1..] == b;
    }
  }

  lemma ProcessWrites(w: World, a: Act)
    requires Enabled(w, a) && Stepped(w, a) && a.Process?
    ensures Next(w, a).written == w.written + Messages(Serves(w, a)) && |Messages(Serves(w, a))| <= 1
  {
    assert [w.commands[0]][1..] == [];
    if w.commands[0].ShutdownCmd? {
      assert Messages([w.commands[0]]) == [];
      assert w.written + [] == w.written;
    }
  }

  /** What is written by a step, of either kind. */
  lemma Writes(w: World, a: Act) returns (mine: seq<Packet>)
    requires Enabled(w, a) && Stepped(w, a)
    ensures Next(w, a).written == w.written + mine && |mine| <= 1
    ensures
      || (mine == Messages(Serves(w, a)) && Refuses(w, a) == [])
      || (mine == Refuses(w, a) && Messages(Serves(w, a)) == [])
  {
    if a.Process? {
      ProcessWrites(w, a);
      mine := Messages(Serves(w, a));
    } else if a.Read? {
      mine := Refuses(w, a);
    } else {
      mine := [];
      assert w.written + [] == w.written;
    }
  }

  lemma {:induction false} RunsMerge(w: World, acts: seq<Act>) returns (more: seq<Packet>)
    requires Legal(w, acts) && QueueOk(w)
    ensures After(w, acts).written == w.written + more
    ensures Merges(more, Messages(Served(w, acts)), Refused(w, acts))
    decreases |acts|
  {
    if acts == [] {
      more := [];
      assert w.written + [] == w.written;
    } else {
      var w', rest := Next(w, acts[0]), acts[1..];
      Steps(w, acts[0]);
      var mine := Writes(w, acts[0]);
      var others := RunsMerge(w', rest);
      more := mine + others;
      Regrouped(w.written, mine, others);
      MessagesAppend(Serves(w, acts[0]), Served(w', rest));
      MergesLeft(mine, others, Messages(Served(w', rest)), Refused(w', rest));
      MergesRight(mine, others, Messages(Served(w', rest)), Refused(w', rest));
      assert [] + Refused(w', rest) == Refused(w', rest);
      assert [] + Messages(Served(w', rest)) == Messages(Served(w', rest));
    }
  }

  // ---- Answers and routes ----

  lemma {:induction false} RunsAnswer(w: World, acts: seq<Act>)
    requires Legal(w, acts) && QueueOk(w)
    ensures After(w, acts).answered == w.answered + TokensOf(Served(w, acts))
    decreases |acts|
  {
    if acts != [] {
      var a := acts[0];
      Steps(w, a);
      AnswersOne(w, a);
      RunsAnswer(Next(w, a), acts[1..]);
      TokensAppend(Serves(w, a), Served(Next(w, a), acts[1..]));
    }
  }

  lemma AnswersOne(w: World, a: Act)
    requires Enabled(w, a) && Stepped(w, a)
    ensures Next(w, a).answered == w.answered + TokensOf(Serves(w, a))
  {
    if a.Process? {
      TokensOfOne(w.commands[0]);
    }
  }

  lemma {:induction false} RunsRoute(w: World, acts: seq<Act>, remote: seq<byte>)
    requires Legal(w, acts) && QueueOk(w)
    ensures RouteOf(After(w, acts).routes, remote) == LastRoute(Served(w, acts), remote, RouteOf(w.routes, remote))
    decreases |acts|
  {
    if acts != [] {
      var a := acts[0];
      Steps(w, a);
      RunsRoute(Next(w, a), acts[1..], remote);
      RoutesOne(w, a, remote);
      LastRouteAppend(Serves(w, a), Served(Next(w, a), acts[1..]), remote, RouteOf(w.routes, remote));
    }
  }

  lemma RoutesOne(w: World, a: Act, remote: seq<byte>)
    requires Enabled(w, a) && Stepped(w, a)
    ensures RouteOf(Next(w, a).routes, remote) == LastRoute(Serves(w, a), remote, RouteOf(w.routes, remote))
  {
    if a.Process? {
      assert [w.commands[0]][1..] == [];
    }
  }

  lemma LastRouteAppend(a: seq<Cmd>, b: seq<Cmd>, remote: seq<byte>, was: Option<seq<byte>>)
    requires |a| <= 1
    ensures LastRoute(a + b, remote, was) == LastRoute(b, remote, LastRoute(a, remote, was))
  {
    if a == [] {
      assert a + b == b;
    } else {
      assert (a + b)[1..] == b && a[1..] == [];
    }
  }

  // ---- Tokens ----

  /** No two commands share a token, and none is older than `from`. */
  predicate Distinct(cs: seq<Cmd>, from: Token) {
    && (forall i | 0 <= i < |cs| :: forall t <- TokenOf(cs[i]) :: t >= from)
    && (forall i, j | 0 <= i < j < |cs| :: TokenOf(cs[i]) !! TokenOf(cs[j]))
  }

  lemma {:induction false} AcceptedTokens(w: World, acts: seq<Act>)
    requires Legal(w, acts) && QueueOk(w)
    ensures Distinct(Accepted(w, acts), w.nextToken)
    decreases |acts|
  {
    if acts != [] {
      var a := acts[0];
      Steps(w, a);
      TokensOne(w, a);
      AcceptedTokens(Next(w, a), acts[1..]);
      DistinctPrepended(Joins(w, a), Accepted(Next(w, a), acts[1..]), w.nextToken, Next(w, a).nextToken);
    }
  }

  lemma TokensOne(w: World, a: Act)
    requires Enabled(w, a) && Stepped(w, a)
    ensures w.nextToken <= Next(w, a).nextToken && |Joins(w, a)| <= 1
    ensures forall c <- Joins(w, a) ::
              TokenOf(c) == {} || (TokenOf(c) == {w.nextToken} && w.nextToken < Next(w, a).nextToken)
  {
  }

  lemma DistinctPrepended(joins: seq<Cmd>, others: seq<Cmd>, from: Token, next: Token)
    requires |joins| <= 1 && from <= next && Distinct(others, next)
    requires forall c <- joins :: TokenOf(c) == {} || (TokenOf(c) == {from} && from < next)
    ensures Distinct(joins + others, from)
  {
    var all := joins + others;
    forall i | 0 <= i < |all| ensures forall t <- TokenOf(all[i]) :: t >= from {
      assert all[i] == if i < |joins| then joins[i] else others[i - |joins|];
    }
    forall i, j | 0 <= i < j < |all| ensures TokenOf(all[i]) !! TokenOf(all[j]) {
      assert all[j] == others[j - |joins|];
      assert all[i] == if i < |joins| then joins[i] else others[i - |joins|];
    }
  }

  // ---- What the dispatcher guarantees ----

  /**
   Clients are served in order, and the transport is written nothing else.  In every run: the commands served,
   followed by those queued, are the commands accepted, in the same order; once the loop has returned those served are
   the first of them and the rest are dropped.  What has been written is the messages of the commands served, in
   order, and between them, in order, one CLSE for each connection that no route named.
   */
  lemma ServedInOrder(acts: seq<Act>)
    requires Legal(Initial(), acts)
    ensures var w := After(Initial(), acts);
            var accepted, served := Accepted(Initial(), acts), Served(Initial(), acts);
            && (if w.running then accepted == served + w.commands
                else served <= accepted && TokensOf(accepted[|served|..]) <= w.dropped)
            && Merges(w.written, Messages(served), Refused(Initial(), acts))
  {
    RunsAreFifo(Initial(), acts);
    var more := RunsMerge(Initial(), acts);
    assert [] + Accepted(Initial(), acts) == Accepted(Initial(), acts);
    assert [] + more == more;
  }

  /**
   A request is answered exactly when its command is served, so that a message whose request is answered has been
   written once: no two commands share a token.
   */
  lemma AnsweredIsServed(acts: seq<Act>, i: nat, t: Token)
    requires Legal(Initial(), acts) && i < |Accepted(Initial(), acts)| && t in TokenOf(Accepted(Initial(), acts)[i])
    ensures var accepted := Accepted(Initial(), acts);
            && (t in After(Initial(), acts).answered <==> i < |Served(Initial(), acts)|)
            && (forall j | 0 <= j < |accepted| && j != i :: t !in TokenOf(accepted[j]))
  {
    ServedInOrder(acts);
    RunsAnswer(Initial(), acts);
    AcceptedTokens(Initial(), acts);
    var accepted, served := Accepted(Initial(), acts), Served(Initial(), acts);
    forall j | 0 <= j < |accepted| && j != i ensures t !in TokenOf(accepted[j]) {
      assert if j < i then TokenOf(accepted[j]) !! TokenOf(accepted[i])
             else TokenOf(accepted[i]) !! TokenOf(accepted[j]);
    }
    assert served == accepted[..|served|];
    TokenAmong(served, t);
  }

  lemma {:induction false} TokenAmong(cs: seq<Cmd>, t: Token)
    ensures t in TokensOf(cs) <==> exists j :: 0 <= j < |cs| && t in TokenOf(cs[j])
  {
    if cs != [] {
      TokenAmong(cs[1..], t);
      if t in TokensOf(cs[1..]) {
        var j :| 0 <= j < |cs[1..]| && t in TokenOf(cs[1..][j]);
        assert cs[j + 1] == cs[1..][j];
      }
      if exists j :: 0 < j < |cs| && t in TokenOf(cs[j]) {
        var j :| 0 < j < |cs| && t in TokenOf(cs[j]);
        assert cs[1..][j - 1] == cs[j];
      }
    }
  }

  /** A route is what the last command served for it says, in every run. */
  lemma RoutesFollow(acts: seq<Act>, remote: seq<byte>)
    requires Legal(Initial(), acts)
    ensures RouteOf(After(Initial(), acts).routes, remote) == LastRoute(Served(Initial(), acts), remote, None)
  {
    RunsRoute(Initial(), acts, remote);
  }

  // ---- Sessions are granted ----

  /** A session of its own, new and with nothing delivered yet, under an identifier that no other has. */
  predicate Granted(w: World, w': World, owner: Owner, id: u32) {
    && id != 0 && id !in w.sessions && owner !in w.history
    && w'.sessions == w.sessions[id := owner]
    && owner in w'.channels && w'.channels[owner] == []
  }

  lemma ReachableOwned(acts: seq<Act>, o: Owner)
    requires Legal(Initial(), acts)
    ensures OwnerInv(After(Initial(), acts), o)
  {
    forall x: Owner ensures OwnerInv(Initial(), x) {
      InitiallyOwned(x);
    }
    OwnershipHolds(Initial(), acts);
  }

  /**
   Every registration that is served has its session: in any reachable state it is answered with an identifier of its
   own, or with none if and only if no identifier is free but the one behind the cursor.
   */
  lemma RegistrationsAreGranted(acts: seq<Act>, a: Act)
    requires Legal(Initial(), acts) && Enabled(After(Initial(), acts), a) && a.Process?
    requires After(Initial(), acts).commands[0].RegisterCmd?
    ensures var w, w' := After(Initial(), acts), Next(After(Initial(), acts), a); var owner := w.commands[0].owner;
            && owner in w'.replies && w'.replies[owner] == a.id
            && (a.id.Some? ==> Granted(w, w', owner, a.id.value))
            && (a.id.None? <==> forall x: u32 :: Free(w.sessions.Keys, x) ==> x == Untried(w.nextLocalId))
  {
    var w := After(Initial(), acts);
    ReachableOwned(acts, w.commands[0].owner);
    AskedOnce(w, w.commands[0].owner);
    AllocationSucceeds(w.sessions.Keys, w.nextLocalId, a.id, a.after);
  }

  /** Every connection of the device that a route leads to a port has a session of its own, which a relay holds. */
  lemma ConnectionsAreRelayed(acts: seq<Act>, a: Act)
    requires Legal(Initial(), acts) && Enabled(After(Initial(), acts), a) && a.Read? && a.packet.command == Open
    requires Decide(After(Initial(), acts).routes, a.packet.payload).Relay? && a.id.Some?
    ensures var w, w' := After(Initial(), acts), Next(After(Initial(), acts), a); var owner := w.nextOwner;
            Granted(w, w', owner, a.id.value) && owner in w'.handles && w'.handles[owner] == a.id.value
  {
    var w := After(Initial(), acts);
    ReachableOwned(acts, w.nextOwner);
    AllocationSucceeds(w.sessions.Keys, w.nextLocalId, a.id, a.after);
  }
}
