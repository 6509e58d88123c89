/** What the server's port and route bookkeeping guarantees in every reachable state. */
module ServerTheorems {
  import opened Basics
  import opened Registry
  import opened ControlMessages
  import opened ServerMachine
  import opened ServerOwnership
  import Naming

  ghost predicate Reachable(cfg: Config, s: Server) {
    exists moves :: Run(cfg, INITIAL, moves) && After(cfg, INITIAL, moves) == s
  }

  lemma ReachableInv(cfg: Config, s: Server)
    requires Reachable(cfg, s)
    ensures Inv(cfg, s)
  {
    var moves :| Run(cfg, INITIAL, moves) && After(cfg, INITIAL, moves) == s;
    InitiallyOk(cfg);
    InvAlways(cfg, INITIAL, moves);
  }

  lemma ReachableTasks(cfg: Config, s: Server)
    requires Reachable(cfg, s)
    ensures TasksOk(s) && Consistent(s.table, cfg.limit)
  {
    ReachableInv(cfg, s);
  }

  lemma ReachableLocal(cfg: Config, s: Server, sid: SessionId)
    requires Reachable(cfg, s) && sid in s.tasks
    ensures LocalAt(s, sid)
  {
    ReachableInv(cfg, s);
  }

  lemma ReachableListeners(cfg: Config, s: Server)
    requires Reachable(cfg, s)
    ensures TasksOk(s) && ListenersOk(s) && TokensOk(s.pool, s.listeners)
  {
    ReachableInv(cfg, s);
  }

  /**
   * The tunnel (session, id) owns public port `p`: its lease call is in progress, or its route records the
   * port and its session's task is not past the step that releases it.
   */
  ghost predicate Owns(s: Server, sid: SessionId, tid: TunnelId, p: Port) {
    && sid in s.tasks
    && var pc := s.tasks[sid].pc;
       || (InFlight(pc) == Some(p) && OpeningId(pc) == Some(tid))
       || (exists h <- Matches(s.table, sid, tid) :: s.table.hosts[h].tcpPort == Some(p) && StillHeld(pc, s.table.hosts[h]))
  }

  lemma OwnedIsLeased(cfg: Config, s: Server, sid: SessionId, tid: TunnelId, p: Port)
    requires Reachable(cfg, s) && Owns(s, sid, tid, p)
    ensures p in s.pool.leased && s.pool.leased[p].session == sid && s.pool.leased[p].tunnelId == tid
  {
    ReachableLocal(cfg, s, sid);
    var routes, leases, pc := RoutesOf(s.table, sid), LeasesOf(s.pool.leased, sid), s.tasks[sid].pc;
    if !(InFlight(pc) == Some(p) && OpeningId(pc) == Some(tid)) {
      var h :| h in Matches(s.table, sid, tid) && s.table.hosts[h].tcpPort == Some(p) && StillHeld(pc, s.table.hosts[h]);
      assert h in routes && leases[p].host == h;
    }
    assert p in leases;
  }

  lemma LeasedIsOwned(cfg: Config, s: Server, p: Port)
    requires Reachable(cfg, s) && p in s.pool.leased
    ensures Owns(s, s.pool.leased[p].session, s.pool.leased[p].tunnelId, p)
  {
    var l := s.pool.leased[p];
    ReachableTasks(cfg, s);
    ReachableLocal(cfg, s, l.session);
    assert p in LeasesOf(s.pool.leased, l.session);
    assert l.host in RoutesOf(s.table, l.session);
    assert l.host in Matches(s.table, l.session, l.tunnelId);
  }

  /** Every leased port has exactly one owner, and every owner's port is leased. */
  lemma OneOwnerPerPort(cfg: Config, s: Server, p: Port)
    requires Reachable(cfg, s)
    ensures p in s.pool.leased <==> exists sid, tid :: Owns(s, sid, tid, p)
    ensures forall sid1, tid1, sid2, tid2 | Owns(s, sid1, tid1, p) && Owns(s, sid2, tid2, p) ::
      sid1 == sid2 && tid1 == tid2
  {
    if p in s.pool.leased {
      LeasedIsOwned(cfg, s, p);
    }
    forall sid, tid | Owns(s, sid, tid, p)
      ensures p in s.pool.leased && s.pool.leased[p].session == sid && s.pool.leased[p].tunnelId == tid
    {
      OwnedIsLeased(cfg, s, sid, tid, p);
    }
  }

  /** A `release` only ever frees a port that a route of the caller still owns, and frees nothing else. */
  lemma ReleaseFreesOwnPort(cfg: Config, s: Server, sid: SessionId, ev: Event, p: Port)
    requires Reachable(cfg, s) && Enabled(s, sid, ev) && (ev.Free? || ev.Return?)
    requires AboutToRelease(s.tasks[sid].pc) == Some(p)
    ensures exists tid :: Owns(s, sid, tid, p)
    ensures p in s.pool.leased && Step(cfg, s, sid, ev).pool.leased == s.pool.leased - {p}
    ensures forall l :: Accepting(Step(cfg, s, sid, ev), l) ==> l.port != p
  {
    var routes, leases, pc := RoutesOf(s.table, sid), LeasesOf(s.pool.leased, sid), s.tasks[sid].pc;
    ReachableLocal(cfg, s, sid);
    LocalRelease(routes, leases, pc, p);
    var h :| h in routes && routes[h].tcpPort == Some(p) && StillHeld(pc, routes[h]);
    assert h in Matches(s.table, sid, routes[h].tunnelId);
    assert Owns(s, sid, routes[h].tunnelId, p);
    assert p in leases;
    var s' := Step(cfg, s, sid, ev);
    ReachableListeners(cfg, s);
    forall l | Accepting(s', l)
      ensures l.port != p
    {
      assert Accepting(s, l);
    }
  }

  /** A failed bind takes back the caller's own placeholder, and a successful one finds its token. */
  lemma BindSeesItsOwnPlaceholder(cfg: Config, s: Server, sid: SessionId)
    requires Reachable(cfg, s) && sid in s.tasks && InFlight(s.tasks[sid].pc).Some?
    ensures var pc := s.tasks[sid].pc;
      && pc.port in s.pool.leased
      && s.pool.leased[pc.port].session == sid
      && s.pool.leased[pc.port].tunnelId == pc.tid
      && s.pool.leased[pc.port].host == pc.host
    ensures s.tasks[sid].pc.Bound? ==> Step(cfg, s, sid, Spawn).tasks[sid].pc.Leased?
    ensures s.tasks[sid].pc.Binding? ==> forall l :: Accepting(s, l) ==> l.port != s.tasks[sid].pc.port
  {
    var leases := LeasesOf(s.pool.leased, sid);
    OwnPlaceholder(cfg, s, sid);
    assert s.tasks[sid].pc.port in leases;
    ReachableListeners(cfg, s);
  }

  lemma OwnPlaceholder(cfg: Config, s: Server, sid: SessionId)
    requires Reachable(cfg, s) && sid in s.tasks && InFlight(s.tasks[sid].pc).Some?
    ensures var pc, leases := s.tasks[sid].pc, LeasesOf(s.pool.leased, sid);
      pc.port in leases && leases[pc.port].host == pc.host && leases[pc.port].tunnelId == pc.tid
  {
    ReachableLocal(cfg, s, sid);
  }

  /**
   * A running accept loop serves a leased port, alone, and its host key still leads to the very tunnel the
   * port was leased for; the next borrower of a port never sees the previous tunnel's traffic.
   */
  lemma AcceptLoopServesItsTunnel(cfg: Config, s: Server, l: Listener)
    requires Reachable(cfg, s) && Accepting(s, l)
    ensures l.port in s.pool.leased && s.pool.leased[l.port] == l.lease
    ensures l.lease.host in s.table.hosts
    ensures s.table.hosts[l.lease.host].session.id == l.lease.session && l.lease.session in s.table.sessions
    ensures s.table.hosts[l.lease.host].tunnelId == l.lease.tunnelId
    ensures forall m :: Accepting(s, m) && m.port == l.port ==> m == l
  {
    ReachableListeners(cfg, s);
    ReachableLocal(cfg, s, l.lease.session);
    assert l.port in LeasesOf(s.pool.leased, l.lease.session);
    assert l.lease.host in RoutesOf(s.table, l.lease.session);
    ReachableTasks(cfg, s);
  }

  lemma GoneOwnsNothing(cfg: Config, s: Server, sid: SessionId)
    requires Reachable(cfg, s) && sid in s.tasks && s.tasks[sid].pc.Gone?
    ensures RoutesOf(s.table, sid) == map[] && LeasesOf(s.pool.leased, sid) == map[]
  {
    ReachableLocal(cfg, s, sid);
  }

  /** Whatever way the message loop ended, clean-up leaves nothing behind. */
  lemma GoneLeavesNothing(cfg: Config, s: Server, sid: SessionId)
    requires Reachable(cfg, s) && sid in s.tasks && s.tasks[sid].pc.Gone?
    ensures sid !in s.table.sessions
    ensures forall h <- s.table.hosts :: s.table.hosts[h].session.id != sid
    ensures forall u <- s.table.byUser :: sid !in s.table.byUser[u]
    ensures forall p <- s.pool.leased :: s.pool.leased[p].session != sid
    ensures forall l :: Accepting(s, l) ==> l.lease.session != sid
  {
    GoneOwnsNothing(cfg, s, sid);
    ReachableTasks(cfg, s);
    assert forall h :: h !in RoutesOf(s.table, sid);
    forall p <- s.pool.leased
      ensures s.pool.leased[p].session != sid
    {
      assert p !in LeasesOf(s.pool.leased, sid);
    }
    forall u <- s.table.byUser
      ensures sid !in s.table.byUser[u]
    {
      assert sid !in SessionsOf(s.table.byUser, u);
    }
    forall l | Accepting(s, l)
      ensures l.lease.session != sid
    {
      AcceptLoopServesItsTunnel(cfg, s, l);
    }
  }

  /** When every session has ended, both tables are empty and no accept loop runs. */
  lemma AllGoneAllFree(cfg: Config, s: Server)
    requires Reachable(cfg, s)
    requires forall sid <- s.tasks :: s.tasks[sid].pc.Gone?
    ensures s.pool.leased == map[] && s.table == EMPTY
    ensures forall l :: !Accepting(s, l)
  {
    ReachableTasks(cfg, s);
    forall sid <- s.tasks
      ensures forall p <- s.pool.leased :: s.pool.leased[p].session != sid
    {
      GoneLeavesNothing(cfg, s, sid);
    }
    assert s.table.sessions == map[];
    forall u
      ensures u !in s.table.byUser
    {
      forall sid
        ensures sid !in SessionsOf(s.table.byUser, u)
      {
        assert sid !in s.table.sessions;
      }
      assert SessionsOf(s.table.byUser, u) == {};
    }
    assert s.table.byUser == map[] && s.table.hosts == map[];
    ReachableListeners(cfg, s);
  }

  lemma RunLonger(cfg: Config, s: Server, m: Move, moves: seq<Move>)
    requires Enabled(s, m.sid, m.ev) && FreshId(s, m) && Run(cfg, Step(cfg, s, m.sid, m.ev), moves)
    ensures Run(cfg, s, [m] + moves)
    ensures After(cfg, s, [m] + moves) == After(cfg, Step(cfg, s, m.sid, m.ev), moves)
  {
    assert ([m] + moves)[1..] == moves;
  }

  ghost predicate OnlyBy(sid: SessionId, moves: seq<Move>) {
    forall i :: 0 <= i < |moves| ==> moves[i].sid == sid && !moves[i].ev.Login?
  }

  /** However many steps one session takes, everybody else's routes, leases and tasks stay as they were. */
  lemma {:induction false} OthersUntouched(cfg: Config, s: Server, sid: SessionId, moves: seq<Move>)
    requires Inv(cfg, s) && Run(cfg, s, moves) && OnlyBy(sid, moves)
    ensures OthersKept(s, After(cfg, s, moves), sid)
    decreases |moves|
  {
    if moves != [] {
      assert moves[0].sid == sid;
      InvStep(cfg, s, sid, moves[0].ev);
      forall i | 0 <= i < |moves[1..]|
        ensures moves[1..][i].sid == sid && !moves[1..][i].ev.Login?
      {
        assert moves[1..][i] == moves[i + 1];
      }
      OthersUntouched(cfg, Step(cfg, s, sid, moves[0].ev), sid, moves[1..]);
    }
  }

  lemma {:induction false} ListingExists(hosts: set<Host>) returns (listed: seq<Host>)
    ensures Distinct(listed) && Elements(listed) == hosts
    decreases |hosts|
  {
    if hosts == {} {
      listed := [];
    } else {
      var h :| h in hosts;
      var rest := ListingExists(hosts - {h});
      assert forall x <- rest :: x in Elements(rest);
      listed := rest + [h];
      assert Elements(listed) == Elements(rest) + {h};
    }
  }

  lemma SomeMatch(t: Table, sid: SessionId, tid: TunnelId) returns (found: Option<Host>)
    ensures IsMatch(t, sid, tid, found)
  {
    if Matches(t, sid, tid) == {} {
      found := None;
    } else {
      var h :| h in Matches(t, sid, tid);
      found := Some(h);
    }
  }

  /** No reachable task is ever stuck: until it is gone, its next lock section is enabled. */
  lemma NeverStuck(cfg: Config, s: Server, sid: SessionId) returns (ev: Event)
    requires Reachable(cfg, s) && sid in s.tasks && !s.tasks[sid].pc.Gone?
    ensures Enabled(s, sid, ev) && FreshId(s, Move(sid, ev)) && !ev.Login?
    ensures ev.Receive? ==> s.tasks[sid].pc.Idle?
  {
    ReachableLocal(cfg, s, sid);
    ev := NextMove(s, sid);
  }

  lemma NextMove(s: Server, sid: SessionId) returns (ev: Event)
    requires sid in s.tasks && LocalAt(s, sid) && !s.tasks[sid].pc.Gone?
    ensures Enabled(s, sid, ev) && FreshId(s, Move(sid, ev)) && !ev.Login?
    ensures ev.Receive? ==> s.tasks[sid].pc.Idle?
  {
    var pc := s.tasks[sid].pc;
    match pc {
      case Fresh => ev := Enter;
      case Idle => ev := Leave(false);
      case Placing(_, _, _, _) => ev := TryNext;
      case Binding(_, _, _, _, _) => ev := Bind(false);
      case Bound(_, _, _) => ev := Spawn;
      case Leased(_, _, _) => ev := Record;
      case Refused(tid, _, _) =>
        var found := SomeMatch(s.table, sid, tid);
        ev := GiveBack(found);
      case Closing(tid) =>
        var found := SomeMatch(s.table, sid, tid);
        ev := LookUpPort(found);
      case Freeing(_, _) => ev := Free;
      case Dropping(tid) =>
        var found := SomeMatch(s.table, sid, tid);
        ev := Drop(found);
      case Leaving =>
        var hosts := ListingExists(HostsWithPort(s.table, sid));
        assert forall h <- hosts :: h in Elements(hosts);
        ev := ListPorts(hosts);
      case Returning(ports) => ev := if ports == [] then Unregister else Return;
      case Crashed => assert false;
    }
  }

  // ---- what an open request is answered ----

  /** The host an HTTP request asks for: its own domain, or the one composed of user and name. */
  function AskedHost(cfg: Config, user: User, msg: ClientMsg): Host
    requires msg.OpenTunnel?
  {
    if msg.customDomain.Some? then Lower(msg.customDomain.value) else Naming.HostFor(user, msg.name, cfg.suffix)
  }

  /** A custom domain must be registered to the caller. */
  predicate MayUse(msg: ClientMsg, check: DomainCheck)
    requires msg.OpenTunnel?
  {
    msg.customDomain.Some? ==> check == OwnedByCaller
  }

  /**
   * An HTTP request is granted exactly when its name is valid, its domain the caller's, its host free and the
   * user under the limit; then the host is routed to it. Otherwise nothing changes and the code is that of the
   * first check it fails.
   */
  lemma HttpOpenIsDecided(cfg: Config, s: Server, sid: SessionId, msg: ClientMsg, check: DomainCheck)
    requires Enabled(s, sid, Receive(msg, check)) && msg.OpenTunnel? && msg.kind == Http
    ensures
      var session, id := s.tasks[sid].session, msg.id;
      var host := AskedHost(cfg, session.user, msg);
      var valid, free := Naming.ValidateName(msg.name) == None, Lower(host) !in s.table.hosts;
      var room := |HostsOfUser(s.table, session.user)| < cfg.limit(session.user);
      var s', reply := Step(cfg, s, sid, Receive(msg, check)), Reply(cfg, s, sid, Receive(msg, check));
      && (valid && MayUse(msg, check) && free && room ==>
            && reply == Some(TunnelOpened(id, Url(host)))
            && s' == s.(table := s.table.(hosts := s.table.hosts[
                 Lower(host) := Tunnel(session, id, msg.name, Http, msg.auth, None)])))
      && (!(valid && MayUse(msg, check) && free && room) ==> s' == s && reply.Some? && reply.value.Failure?)
      && (!valid ==> reply == Some(Failure(CodeNameInvalid, Some(id))))
      && (valid && !MayUse(msg, check) ==>
            reply == Some(Failure(if check == StoreFailed then CodeInternal else CodeTaken, Some(id))))
      && (valid && MayUse(msg, check) && !free ==> reply == Some(Failure(CodeTaken, Some(id))))
      && (valid && MayUse(msg, check) && free && !room ==> reply == Some(Failure(CodeLimit, Some(id))))
  {
    var session := s.tasks[sid].session;
    var host := AskedHost(cfg, session.user, msg);
    if Naming.ValidateName(msg.name) == None && MayUse(msg, check) {
      assert Decide(cfg, session.user, msg, check) == Route(host);
      assert At(s.(table := AfterOpen(s.table, host, TunnelFor(session, msg), cfg.limit(session.user))), sid, Idle).tasks
        == s.tasks;
    }
  }

  // ---- why tunnel ids must be unique within a session ----

  ghost predicate SameId(routes: Routes, tid: TunnelId, found: Option<Host>) {
    match found
    case None => forall h <- routes :: routes[h].tunnelId != tid
    case Some(h) => h in routes && routes[h].tunnelId == tid
  }

  function RoutesAfterClose(routes: Routes, dropped: Option<Host>): Routes {
    if dropped.Some? then routes - {dropped.value} else routes
  }

  function LeasesAfterClose(routes: Routes, leases: Leases, looked: Option<Host>): Leases {
    if looked.Some? && looked.value in routes && routes[looked.value].tcpPort.Some?
    then leases - {routes[looked.value].tcpPort.value}
    else leases
  }

  /**
   * Closing looks the id up twice, each time taking any match. The books balance afterwards for every
   * choice exactly when no two routes under the id involve a public port.
   */
  lemma CloseBalancesExactlyWhen(routes: Routes, leases: Leases, tid: TunnelId)
    requires OwnsLeases(routes, leases, Idle)
    ensures
      (forall looked, dropped | SameId(routes, tid, looked) && SameId(routes, tid, dropped) ::
         OwnsLeases(RoutesAfterClose(routes, dropped), LeasesAfterClose(routes, leases, looked), Idle))
      <==>
      (forall h1, h2 | h1 in routes && h2 in routes && routes[h1].tunnelId == routes[h2].tunnelId == tid ::
         h1 == h2 || (routes[h1].tcpPort == None && routes[h2].tcpPort == None))
  {
    if h1, h2 :| SameId(routes, tid, Some(h1)) && SameId(routes, tid, Some(h2)) && h1 != h2 && routes[h1].tcpPort.Some? {
      var routes', leases' := RoutesAfterClose(routes, Some(h2)), LeasesAfterClose(routes, leases, Some(h1));
      assert StillHeld(Idle, routes'[h1]) && routes'[h1].tcpPort.value !in leases';
    } else {
      forall looked, dropped | SameId(routes, tid, looked) && SameId(routes, tid, dropped)
        ensures OwnsLeases(RoutesAfterClose(routes, dropped), LeasesAfterClose(routes, leases, looked), Idle)
      {
        BalancedClose(routes, leases, tid, looked, dropped);
      }
    }
  }

  lemma BalancedClose(routes: Routes, leases: Leases, tid: TunnelId, looked: Option<Host>, dropped: Option<Host>)
    requires OwnsLeases(routes, leases, Idle)
    requires forall h1, h2 | h1 in routes && h2 in routes && routes[h1].tunnelId == routes[h2].tunnelId == tid ::
      h1 == h2 || (routes[h1].tcpPort == None && routes[h2].tcpPort == None)
    requires SameId(routes, tid, looked) && SameId(routes, tid, dropped)
    ensures OwnsLeases(RoutesAfterClose(routes, dropped), LeasesAfterClose(routes, leases, looked), Idle)
  {
    var routes', leases' := RoutesAfterClose(routes, dropped), LeasesAfterClose(routes, leases, looked);
    if looked.Some? && dropped.Some? {
      assert looked == dropped || (routes[looked.value].tcpPort == None && routes[dropped.value].tcpPort == None);
    }
    forall h <- routes' | StillHeld(Idle, routes'[h])
      ensures routes'[h].tcpPort.value in leases' && leases'[routes'[h].tcpPort.value].host == h
    {
      assert StillHeld(Idle, routes[h]);
    }
  }

  /**
   * The refusal of a TCP request looks the id up too, to take its route back, and may take any match. The books
   * balance afterwards for every choice exactly when no route under the id holds a port.
   */
  lemma RefusalBalancesExactlyWhen(routes: Routes, leases: Leases, pc: Pc)
    requires pc.Refused? && OwnsLeases(routes, leases, pc)
    ensures
      (forall found | SameId(routes, pc.tid, found) :: OwnsLeases(RoutesAfterClose(routes, found), leases, Idle))
      <==>
      (forall h | h in routes && routes[h].tunnelId == pc.tid :: routes[h].tcpPort == None)
  {
    if h :| h in routes && routes[h].tunnelId == pc.tid && routes[h].tcpPort.Some? {
      assert SameId(routes, pc.tid, Some(h));
      assert StillHeld(pc, routes[h]);
      assert leases[routes[h].tcpPort.value].host == h;
    } else {
      forall found | SameId(routes, pc.tid, found)
        ensures OwnsLeases(RoutesAfterClose(routes, found), leases, Idle)
      {
        BalancedRefusal(routes, leases, pc, found);
      }
    }
  }

  lemma BalancedRefusal(routes: Routes, leases: Leases, pc: Pc, found: Option<Host>)
    requires pc.Refused? && OwnsLeases(routes, leases, pc) && SameId(routes, pc.tid, found)
    requires forall h | h in routes && routes[h].tunnelId == pc.tid :: routes[h].tcpPort == None
    ensures OwnsLeases(RoutesAfterClose(routes, found), leases, Idle)
  {
    var routes' := RoutesAfterClose(routes, found);
    forall h <- routes' | StillHeld(Idle, routes'[h])
      ensures routes'[h].tcpPort.value in leases && leases[routes'[h].tcpPort.value].host == h
    {
      assert StillHeld(pc, routes[h]);
    }
  }
}
