/**
 The rules of local forwards (adb_client/src/message_devices/dispatched_device.rs:179-264): threads that each serve one
 local endpoint, a shared table of rules, and a stop flag per rule.  Every statement is about all interleavings.
 */
module Forwards {
  import opened Bytes
  import opened Dispatcher

  type Endpoint = seq<byte>

  /** `Leaving` has seen its flag and not yet taken the lock; `Broken` has returned after a failed accept. */
  datatype Phase = Listening | Leaving | Broken | Gone

  datatype Server = Server(local: Endpoint, remote: Endpoint, stopped: bool, phase: Phase)

  /** The table names the server that made the entry; its remote end and its flag are the server's. */
  datatype Table = Table(rules: map<Endpoint, nat>, servers: seq<Server>)

  datatype Act =
    | Serve(local: Endpoint, remote: Endpoint, bound: bool)
    | Remove(local: Endpoint)
    | RemoveAll
    | SeeStop(server: nat)
    | FailAccept(server: nat)
    | Leave(server: nat)

  predicate Enabled(t: Table, a: Act) {
    match a
    case SeeStop(i) => i < |t.servers| && t.servers[i].phase.Listening? && t.servers[i].stopped
    case FailAccept(i) => i < |t.servers| && t.servers[i].phase.Listening?
    case Leave(i) => i < |t.servers| && t.servers[i].phase.Leaving?
    case Remove(local) => local in t.rules ==> t.rules[local] < |t.servers|
    case _ => true
  }

  /** A rule is refused for anything but an unused TCP port, and when the port cannot be bound. */
  predicate Accepts(t: Table, local: Endpoint, bound: bool) {
    PortOf(local).Some? && PortOf(local).value != 0 && local !in t.rules && bound
  }

  function Become(t: Table, i: nat, phase: Phase): Table
    requires i < |t.servers|
  {
    t.(servers := t.servers[i := t.servers[i].(phase := phase)])
  }

  function StopAll(t: Table): (r: seq<Server>)
    ensures |r| == |t.servers|
  {
    seq(|t.servers|, (i: nat) requires i < |t.servers| =>
      if i in t.rules.Values then t.servers[i].(stopped := true) else t.servers[i])
  }

  function Next(t: Table, a: Act): Table
    requires Enabled(t, a)
  {
    match a
    case Serve(local, remote, bound) =>
      if Accepts(t, local, bound)
      then Table(t.rules[local := |t.servers|], t.servers + [Server(local, remote, false, Listening)])
      else t
    case Remove(local) =>
      if local in t.rules
      then Table(t.rules - {local}, t.servers[t.rules[local] := t.servers[t.rules[local]].(stopped := true)])
      else t
    case RemoveAll => Table(map[], StopAll(t))
    case SeeStop(i) => Become(t, i, Leaving)
    case FailAccept(i) => Become(t, i, Broken)
    case Leave(i) =>
      var local := t.servers[i].local;
      var left := Become(t, i, Gone);
      if local in t.rules && t.rules[local] == i then left.(rules := t.rules - {local}) else left
  }

  predicate Legal(t: Table, acts: seq<Act>)
    decreases |acts|
  {
    acts == [] || (Enabled(t, acts[0]) && Legal(Next(t, acts[0]), acts[1..]))
  }

  function After(t: Table, acts: seq<Act>): Table
    requires Legal(t, acts)
    decreases |acts|
  {
    if acts == [] then t else After(Next(t, acts[0]), acts[1..])
  }

  /** The rules are the servers that have not been told to stop, each under its own endpoint. */
  predicate Inv(t: Table) {
    && (forall local <- t.rules :: t.rules[local] < |t.servers| && t.servers[t.rules[local]].local == local)
    && (forall i | 0 <= i < |t.servers| ::
          !t.servers[i].stopped <==> t.servers[i].local in t.rules && t.rules[t.servers[i].local] == i)
    && (forall i | 0 <= i < |t.servers| ::
          t.servers[i].phase.Leaving? || t.servers[i].phase.Gone? ==> t.servers[i].stopped)
  }

  lemma ServeKeeps(t: Table, local: Endpoint, remote: Endpoint, bound: bool)
    requires Inv(t)
    ensures Inv(Next(t, Serve(local, remote, bound)))
  {
  }

  lemma RemoveKeeps(t: Table, local: Endpoint)
    requires Inv(t)
    ensures Enabled(t, Remove(local)) && Inv(Next(t, Remove(local)))
  {
  }

  lemma RemoveAllKeeps(t: Table)
    requires Inv(t)
    ensures Inv(Next(t, RemoveAll))
  {
    forall i | 0 <= i < |t.servers| ensures !t.servers[i].stopped ==> i in t.rules.Values {
      if !t.servers[i].stopped {
        assert t.rules[t.servers[i].local] == i;
      }
    }
  }

  /** The clean-up of a server that leaves has nothing to do: whoever set its flag took its rule out with it. */
  lemma LeavingRemovesNothing(t: Table, i: nat)
    requires Inv(t) && Enabled(t, Leave(i))
    ensures Next(t, Leave(i)).rules == t.rules && Inv(Next(t, Leave(i)))
  {
  }

  lemma StepKeeps(t: Table, a: Act)
    requires Inv(t) && Enabled(t, a)
    ensures Inv(Next(t, a))
  {
    match a
    case Serve(local, remote, bound) => ServeKeeps(t, local, remote, bound);
    case Remove(local) => RemoveKeeps(t, local);
    case RemoveAll => RemoveAllKeeps(t);
    case SeeStop(i) =>
    case FailAccept(i) =>
    case Leave(i) => LeavingRemovesNothing(t, i);
  }

  lemma {:induction false} RunsKeep(t: Table, acts: seq<Act>)
    requires Inv(t) && Legal(t, acts)
    ensures Inv(After(t, acts))
    decreases |acts|
  {
    if acts != [] {
      StepKeeps(t, acts[0]);
      RunsKeep(Next(t, acts[0]), acts[1..]);
    }
  }

  const NOTHING := Table(map[], [])

  /**
   In every reachable state a rule is listed exactly as long as its own server has not been told to stop, no two such
   servers share an endpoint, a server told to stop has no rule, and removing a rule stops its own server and no other.
   */
  lemma RulesAreServers(acts: seq<Act>, local: Endpoint)
    requires Legal(NOTHING, acts)
    ensures var t := After(NOTHING, acts);
            && (local in t.rules <==>
                exists i :: 0 <= i < |t.servers| && t.servers[i].local == local && !t.servers[i].stopped)
            && (forall i, j | 0 <= i < j < |t.servers| && t.servers[i].local == t.servers[j].local ::
                  t.servers[i].stopped || t.servers[j].stopped)
            && Enabled(t, Remove(local))
            && (var u := Next(t, Remove(local));
                && local !in u.rules && |u.servers| == |t.servers|
                && forall i | 0 <= i < |t.servers| ::
                     u.servers[i].stopped == (t.servers[i].stopped || t.servers[i].local == local))
  {
    RunsKeep(NOTHING, acts);
    RemoveKeeps(After(NOTHING, acts), local);
  }

  /** Removing all rules leaves none, and tells every server to stop. */
  lemma AllAreRemoved(acts: seq<Act>)
    requires Legal(NOTHING, acts)
    ensures var t := After(NOTHING, acts); var u := Next(t, RemoveAll);
            u.rules == map[] && |u.servers| == |t.servers| && forall i | 0 <= i < |t.servers| :: u.servers[i].stopped
  {
    RunsKeep(NOTHING, acts);
    RemoveAllKeeps(After(NOTHING, acts));
  }

  // ---- What the servers serve ----

  /** The endpoints of the rule that an action adds: a bound TCP port other than zero, under which nothing is listed. */
  function Adds(t: Table, a: Act): seq<(Endpoint, Endpoint)> {
    if a.Serve? && a.bound && a.local !in t.rules && PortOf(a.local).Some? && PortOf(a.local).value != 0
    then [(a.local, a.remote)] else []
  }

  function Added(t: Table, acts: seq<Act>): seq<(Endpoint, Endpoint)>
    requires Legal(t, acts)
    decreases |acts|
  {
    if acts == [] then [] else Adds(t, acts[0]) + Added(Next(t, acts[0]), acts[1..])
  }

  function Ends(servers: seq<Server>): seq<(Endpoint, Endpoint)> {
    seq(|servers|, (i: nat) requires i < |servers| => (servers[i].local, servers[i].remote))
  }

  lemma EndsKept(t: Table, a: Act)
    requires Enabled(t, a)
    ensures Ends(Next(t, a).servers) == Ends(t.servers) + Adds(t, a)
  {
  }

  lemma {:induction false} RunsAdd(t: Table, acts: seq<Act>)
    requires Legal(t, acts)
    ensures Ends(After(t, acts).servers) == Ends(t.servers) + Added(t, acts)
    decreases |acts|
  {
    if acts != [] {
      EndsKept(t, acts[0]);
      RunsAdd(Next(t, acts[0]), acts[1..]);
      Regrouped(Ends(t.servers), Adds(t, acts[0]), Added(Next(t, acts[0]), acts[1..]));
    }
  }

  /**
   Every rule leads where it was asked to.  In every reachable state the servers are those of the rules added, in order,
   each between the endpoints it was given, and a listed endpoint is served by a server for it.
   */
  lemma ServersAreThoseAdded(acts: seq<Act>, local: Endpoint)
    requires Legal(NOTHING, acts)
    ensures var t := After(NOTHING, acts); var added := Added(NOTHING, acts);
            && |t.servers| == |added|
            && (forall i | 0 <= i < |added| :: t.servers[i].local == added[i].0 && t.servers[i].remote == added[i].1)
            && (local in t.rules ==> t.rules[local] < |added| && added[t.rules[local]].0 == local)
  {
    RunsKeep(NOTHING, acts);
    RunsAdd(NOTHING, acts);
    var t := After(NOTHING, acts);
    assert [] + Added(NOTHING, acts) == Added(NOTHING, acts);
    assert forall i | 0 <= i < |t.servers| :: Ends(t.servers)[i] == (t.servers[i].local, t.servers[i].remote);
  }

  // ---- Rules that nobody serves ----

  /** A server that fails to accept has returned for good. */
  lemma BrokenStays(t: Table, a: Act, i: nat)
    requires Enabled(t, a) && i < |t.servers| && t.servers[i].phase.Broken?
    ensures var u := Next(t, a);
            i < |u.servers| && u.servers[i].phase.Broken? && u.servers[i].local == t.servers[i].local
  {
  }

  /** Servers are not forgotten, and only a failed accept breaks one. */
  lemma BrokenByFailing(t: Table, a: Act, i: nat)
    requires Enabled(t, a) && i < |Next(t, a).servers|
    ensures Next(t, a).servers[i].phase.Broken? ==>
            a == FailAccept(i) || (i < |t.servers| && t.servers[i].phase.Broken?)
    ensures a == FailAccept(i) ==> Next(t, a).servers[i].phase.Broken?
  {
  }

  lemma {:induction false} AfterAppended(t: Table, acts: seq<Act>, a: Act)
    requires Legal(t, acts + [a])
    ensures Legal(t, acts) && Enabled(After(t, acts), a) && After(t, acts + [a]) == Next(After(t, acts), a)
    decreases |acts|
  {
    if acts == [] {
      assert [] + [a] == [a] && [a][1..] == [];
    } else {
      assert (acts + [a])[1..] == acts[1..] + [a];
      AfterAppended(Next(t, acts[0]), acts[1..], a);
    }
  }

  lemma {:induction false} BrokenExactly(acts: seq<Act>, i: nat)
    requires Legal(NOTHING, acts) && i < |After(NOTHING, acts).servers|
    ensures After(NOTHING, acts).servers[i].phase.Broken? <==> FailAccept(i) in acts
    decreases |acts|
  {
    if acts != [] {
      var init, a := acts[..|acts| - 1], acts[|acts| - 1];
      assert acts == init + [a];
      AfterAppended(NOTHING, init, a);
      var t := After(NOTHING, init);
      BrokenByFailing(t, a, i);
      if i < |t.servers| {
        BrokenExactly(init, i);
        if t.servers[i].phase.Broken? {
          BrokenStays(t, a, i);
        }
      } else {
        FailedServersExist(init, i);
      }
    }
  }

  /** A server fails only once it is there. */
  lemma {:induction false} FailedServersExist(acts: seq<Act>, i: nat)
    requires Legal(NOTHING, acts)
    ensures FailAccept(i) in acts ==> i < |After(NOTHING, acts).servers|
    decreases |acts|
  {
    if acts != [] {
      var init, a := acts[..|acts| - 1], acts[|acts| - 1];
      assert acts == init + [a];
      AfterAppended(NOTHING, init, a);
      FailedServersExist(init, i);
    }
  }

  /**
   When exactly a listed rule has nobody listening: if and only if its own server has failed to accept.  Such a server
   returns without taking its rule out.
   */
  lemma UnservedRules(acts: seq<Act>, local: Endpoint)
    requires Legal(NOTHING, acts) && local in After(NOTHING, acts).rules
    ensures var t := After(NOTHING, acts);
            && t.rules[local] < |t.servers|
            && (!t.servers[t.rules[local]].phase.Listening? <==> FailAccept(t.rules[local]) in acts)
  {
    RunsKeep(NOTHING, acts);
    BrokenExactly(acts, After(NOTHING, acts).rules[local]);
  }

  predicate Removes(a: Act, local: Endpoint) {
    a == Remove(local) || a == RemoveAll
  }

  /** The rule is listed, and its server is broken. */
  predicate Unserved(t: Table, local: Endpoint) {
    local in t.rules && t.rules[local] < |t.servers| && t.servers[t.rules[local]].phase.Broken?
  }

  lemma UnservedStep(t: Table, a: Act, local: Endpoint)
    requires Inv(t) && Enabled(t, a) && Unserved(t, local) && !Removes(a, local)
    ensures Unserved(Next(t, a), local) && Next(t, a).rules[local] == t.rules[local]
  {
    BrokenStays(t, a, t.rules[local]);
    if a.Leave? {
      LeavingRemovesNothing(t, a.server);
    }
  }

  /**
   Such a rule stays, whatever else happens, until it is removed: after any actions without its removal it is listed for
   the same server, nobody listens, and another server for the endpoint is refused.
   */
  lemma {:induction false} UnservedStays(t: Table, acts: seq<Act>, local: Endpoint, remote: Endpoint, bound: bool)
    requires Inv(t) && Unserved(t, local) && Legal(t, acts) && forall a <- acts :: !Removes(a, local)
    ensures var u := After(t, acts);
            && Unserved(u, local) && u.rules[local] == t.rules[local]
            && Next(u, Serve(local, remote, bound)) == u
    decreases |acts|
  {
    if acts != [] {
      UnservedStep(t, acts[0], local);
      StepKeeps(t, acts[0]);
      UnservedStays(Next(t, acts[0]), acts[1..], local, remote, bound);
    }
  }
}
