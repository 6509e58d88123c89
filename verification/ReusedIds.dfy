/**
 * Why ids must be unique within a session: the server does not check that (crates/cy-server/src/control.rs), and a
 * run in which a client uses one id twice unbalances the books on ports for everybody.
 */
module ReusedIds {
  import opened Basics
  import opened Registry
  import opened PortPool
  import opened ControlMessages
  import opened ServerMachine
  import opened ServerOwnership
  import opened ServerTheorems
  import Naming

  // ---- runs in which ids may be used again ----

  ghost predicate Plays(cfg: Config, s: Server, moves: seq<Move>)
    decreases |moves|
  {
    moves == [] || (
      && Enabled(s, moves[0].sid, moves[0].ev)
      && Plays(cfg, Step(cfg, s, moves[0].sid, moves[0].ev), moves[1..]))
  }

  ghost function Played(cfg: Config, s: Server, moves: seq<Move>): Server
    requires Plays(cfg, s, moves)
    decreases |moves|
  {
    if moves == [] then s else Played(cfg, Step(cfg, s, moves[0].sid, moves[0].ev), moves[1..])
  }

  ghost predicate Leads(cfg: Config, s: Server, s': Server) {
    exists moves :: Plays(cfg, s, moves) && Played(cfg, s, moves) == s'
  }

  lemma {:induction false} PlaysLonger(cfg: Config, s: Server, moves: seq<Move>, m: Move)
    requires Plays(cfg, s, moves) && Enabled(Played(cfg, s, moves), m.sid, m.ev)
    ensures Plays(cfg, s, moves + [m])
    ensures Played(cfg, s, moves + [m]) == Step(cfg, Played(cfg, s, moves), m.sid, m.ev)
    decreases |moves|
  {
    var all := moves + [m];
    if moves == [] {
      assert all == [m] && all[1..] == [];
    } else {
      assert all[1..] == moves[1..] + [m];
      PlaysLonger(cfg, Step(cfg, s, moves[0].sid, moves[0].ev), moves[1..], m);
    }
  }

  lemma Onward(cfg: Config, s: Server, s': Server, sid: SessionId, ev: Event)
    requires Leads(cfg, s, s') && Enabled(s', sid, ev)
    ensures Leads(cfg, s, Step(cfg, s', sid, ev))
  {
    var moves :| Plays(cfg, s, moves) && Played(cfg, s, moves) == s';
    PlaysLonger(cfg, s, moves, Move(sid, ev));
  }

  // ---- four handlings, each from message to reply ----

  ghost predicate Waiting(s: Server, sid: SessionId) {
    sid in s.tasks && s.tasks[sid].pc == Idle
  }

  lemma SameTasks(s: Server, s': Server, sid: SessionId)
    requires Waiting(s, sid) && s'.tasks == s.tasks[sid := s.tasks[sid].(pc := Idle)]
    ensures s'.tasks == s.tasks
  {
  }

  lemma LogsIn(cfg: Config, start: Server, s: Server, user: User) returns (s': Server)
    requires Leads(cfg, start, s) && s.nextSession !in s.tasks
    ensures Leads(cfg, start, s') && s'.pool == s.pool && s'.listeners == s.listeners
    ensures s'.table == Registered(s.table, Session(s.nextSession, user))
    ensures s'.tasks == s.tasks[s.nextSession := Task(Session(s.nextSession, user), Idle)]
    ensures s'.nextSession == s.nextSession + 1
  {
    var sid := s.nextSession;
    Onward(cfg, start, s, sid, Login(user));
    s' := Step(cfg, s, sid, Login(user));
    Onward(cfg, start, s', sid, Enter);
    s' := Step(cfg, s', sid, Enter);
  }

  ghost predicate Welcomed(cfg: Config, s: Server, sid: SessionId, msg: ClientMsg)
    requires sid in s.tasks && msg.OpenTunnel?
  {
    var user := s.tasks[sid].session.user;
    && Naming.ValidName(msg.name) && msg.customDomain == None
    && Lower(Naming.HostFor(user, msg.name, cfg.suffix)) !in s.table.hosts
    && |HostsOfUser(s.table, user)| < cfg.limit(user)
  }

  lemma OpensTcp(cfg: Config, start: Server, s: Server, sid: SessionId, msg: ClientMsg, port: Port)
    returns (s': Server)
    requires Leads(cfg, start, s) && Waiting(s, sid)
    requires msg.OpenTunnel? && msg.kind == Tcp && msg.remotePort == Some(port) && Welcomed(cfg, s, sid, msg)
    requires InRange(cfg.lo, cfg.hi, port) && port !in s.pool.leased
    ensures Leads(cfg, start, s') && s'.tasks == s.tasks && s'.nextSession == s.nextSession
    ensures var session := s.tasks[sid].session;
      var key := Lower(Naming.HostFor(session.user, msg.name, cfg.suffix));
      && s'.table == s.table.(hosts := s.table.hosts[key := TunnelFor(session, msg).(tcpPort := Some(port))])
      && s'.pool == Placed(s.pool, port, sid, msg.id, key)
  {
    var session := s.tasks[sid].session;
    var host := Naming.HostFor(session.user, msg.name, cfg.suffix);
    LowerTwice(host);
    var asked := Receive(msg, NotOwned);
    Onward(cfg, start, s, sid, asked);
    var s1 := Step(cfg, s, sid, asked);
    assert s1 == At(s.(table := s.table.(hosts := s.table.hosts[Lower(host) := TunnelFor(session, msg)])), sid,
                    Placing(msg.id, Lower(host), true, [port]));
    s' := PortTaken(cfg, start, s1, sid, msg.id, Lower(host), port);
    SameTasks(s, s', sid);
  }

  lemma PortTaken(cfg: Config, start: Server, s: Server, sid: SessionId, tid: TunnelId, host: Host, port: Port)
    returns (s': Server)
    requires Leads(cfg, start, s) && sid in s.tasks && s.tasks[sid].pc == Placing(tid, host, true, [port])
    requires port !in s.pool.leased && host in s.table.hosts && Lower(host) == host
    ensures Leads(cfg, start, s') && s'.nextSession == s.nextSession
    ensures s'.table == WithPort(s.table, host, port) && s'.pool == Placed(s.pool, port, sid, tid, host)
    ensures s'.tasks == s.tasks[sid := s.tasks[sid].(pc := Idle)]
  {
    var none: seq<Port> := [port][1..];
    assert none == [];
    Onward(cfg, start, s, sid, TryNext);
    var s1 := Step(cfg, s, sid, TryNext);
    assert s1 == At(s.(pool := Placed(s.pool, port, sid, tid, host)), sid, Binding(tid, host, true, port, none));
    Onward(cfg, start, s1, sid, Bind(true));
    var s2 := Step(cfg, s1, sid, Bind(true));
    Onward(cfg, start, s2, sid, Spawn);
    var s3 := Step(cfg, s2, sid, Spawn);
    Onward(cfg, start, s3, sid, Record);
    s' := Step(cfg, s3, sid, Record);
  }

  lemma OpensHttp(cfg: Config, start: Server, s: Server, sid: SessionId, msg: ClientMsg) returns (s': Server)
    requires Leads(cfg, start, s) && Waiting(s, sid)
    requires msg.OpenTunnel? && msg.kind == Http && Welcomed(cfg, s, sid, msg)
    ensures Leads(cfg, start, s')
    ensures var session := s.tasks[sid].session;
      var key := Lower(Naming.HostFor(session.user, msg.name, cfg.suffix));
      s' == s.(table := s.table.(hosts := s.table.hosts[key := TunnelFor(session, msg)]))
  {
    HttpOpenIsDecided(cfg, s, sid, msg, NotOwned);
    Onward(cfg, start, s, sid, Receive(msg, NotOwned));
    s' := Step(cfg, s, sid, Receive(msg, NotOwned));
  }

  /** The two lookups of one close take different routes. */
  lemma ClosesCrossed(
    cfg: Config, start: Server, s: Server, sid: SessionId, tid: TunnelId, looked: Host, dropped: Host, port: Port)
    returns (s': Server)
    requires Leads(cfg, start, s) && Waiting(s, sid)
    requires looked in Matches(s.table, sid, tid) && dropped in Matches(s.table, sid, tid)
    requires s.table.hosts[looked].tcpPort == Some(port)
    ensures Leads(cfg, start, s') && s'.tasks == s.tasks && s'.nextSession == s.nextSession
    ensures s'.table == Closed(s.table, Some(dropped)) && s'.pool == Released(s.pool, port)
  {
    var asked := Receive(CloseTunnel(tid), NotOwned);
    Onward(cfg, start, s, sid, asked);
    var s1 := Step(cfg, s, sid, asked);
    Onward(cfg, start, s1, sid, LookUpPort(Some(looked)));
    var s2 := Step(cfg, s1, sid, LookUpPort(Some(looked)));
    Onward(cfg, start, s2, sid, Free);
    var s3 := Step(cfg, s2, sid, Free);
    Onward(cfg, start, s3, sid, Drop(Some(dropped)));
    s' := Step(cfg, s3, sid, Drop(Some(dropped)));
    SameTasks(s, s', sid);
  }

  /** A request for a port that is held is refused, and takes back any route under its id. */
  lemma RefusedTcp(cfg: Config, start: Server, s: Server, sid: SessionId, msg: ClientMsg, port: Port, dropped: Host)
    returns (s': Server)
    requires Leads(cfg, start, s) && Waiting(s, sid)
    requires msg.OpenTunnel? && msg.kind == Tcp && msg.remotePort == Some(port) && Welcomed(cfg, s, sid, msg)
    requires InRange(cfg.lo, cfg.hi, port) && port in s.pool.leased
    requires s.tasks[sid].session.id == sid && dropped in Matches(s.table, sid, msg.id)
    ensures Leads(cfg, start, s') && s'.tasks == s.tasks && s'.pool == s.pool
    ensures var session := s.tasks[sid].session;
      var key := Lower(Naming.HostFor(session.user, msg.name, cfg.suffix));
      && s'.table.hosts == s.table.hosts[key := TunnelFor(session, msg)] - {dropped}
      && s'.table.sessions == s.table.sessions
  {
    var session := s.tasks[sid].session;
    var host := Naming.HostFor(session.user, msg.name, cfg.suffix);
    var asked := Receive(msg, NotOwned);
    Onward(cfg, start, s, sid, asked);
    var s1 := Step(cfg, s, sid, asked);
    assert s1 == At(s.(table := s.table.(hosts := s.table.hosts[Lower(host) := TunnelFor(session, msg)])), sid,
                    Placing(msg.id, Lower(host), true, [port]));
    Onward(cfg, start, s1, sid, TryNext);
    var s2 := Step(cfg, s1, sid, TryNext);
    assert s2 == At(s1, sid, Refused(msg.id, Lower(host), CodePortTaken));
    assert dropped in Matches(s2.table, sid, msg.id);
    Onward(cfg, start, s2, sid, GiveBack(Some(dropped)));
    s' := Step(cfg, s2, sid, GiveBack(Some(dropped)));
    SameTasks(s, s', sid);
  }

  /** A session whose routes hold no port frees nothing when it ends. */
  lemma EndsFreeingNothing(cfg: Config, start: Server, s: Server, sid: SessionId) returns (s': Server)
    requires Leads(cfg, start, s) && Waiting(s, sid) && HostsWithPort(s.table, sid) == {}
    ensures Leads(cfg, start, s') && s' == At(s.(table := Unregistered(s.table, sid)), sid, Gone)
  {
    Onward(cfg, start, s, sid, Leave(false));
    var s1 := Step(cfg, s, sid, Leave(false));
    var none: seq<Host> := [];
    assert Elements(none) == {};
    Onward(cfg, start, s1, sid, ListPorts(none));
    var s2 := Step(cfg, s1, sid, ListPorts(none));
    Onward(cfg, start, s2, sid, Unregister);
    s' := Step(cfg, s2, sid, Unregister);
  }

  lemma StartsLeaving(cfg: Config, start: Server, s: Server, sid: SessionId, host: Host, port: Port)
    returns (s': Server)
    requires Leads(cfg, start, s) && Waiting(s, sid)
    requires HostsWithPort(s.table, sid) == {host} && s.table.hosts[host].tcpPort == Some(port)
    ensures Leads(cfg, start, s') && s' == At(s, sid, Returning([port]))
  {
    Onward(cfg, start, s, sid, Leave(false));
    var s1 := Step(cfg, s, sid, Leave(false));
    assert Elements([host]) == {host};
    Onward(cfg, start, s1, sid, ListPorts([host]));
    s' := Step(cfg, s1, sid, ListPorts([host]));
    assert PortsAt(s.table, [host]) == [port];
  }

  // ---- the run ----

  const SMALL := Config(10, 20, "t.io", _ => 5)

  function Ask(kind: Kind, name: string): ClientMsg {
    OpenTunnel(1, kind, name, None, None, if kind == Tcp then Some(10) else None)
  }

  function HostOf(name: string): Host {
    Lower(Naming.HostFor("u", name, SMALL.suffix))
  }

  lemma NamesAreGood()
    ensures Naming.ValidName("a") && Naming.ValidName("bb") && Naming.ValidName("ccc")
    ensures HostOf("a") != HostOf("bb") && HostOf("bb") != HostOf("ccc") && HostOf("a") != HostOf("ccc")
  {
    assert |HostOf("a")| < |HostOf("bb")| < |HostOf("ccc")|;
  }

  lemma FewHosts(t: Table, user: User, some: set<Host>)
    requires t.hosts.Keys <= some && |some| <= 4
    ensures |HostsOfUser(t, user)| < SMALL.limit(user)
  {
    SubsetSize(HostsOfUser(t, user), some);
  }

  ghost predicate BothWaiting(s: Server) {
    s.tasks == map[1 := Task(Session(1, "u"), Idle), 2 := Task(Session(2, "u"), Idle)]
  }

  /** Two sessions of one user are in their message loops and nothing is open. */
  lemma TwoSessions() returns (s: Server)
    ensures Leads(SMALL, INITIAL, s) && s.table.hosts == map[] && s.pool == INITIAL.pool
    ensures 1 in s.table.sessions
    ensures BothWaiting(s)
  {
    assert Plays(SMALL, INITIAL, []);
    s := LogsIn(SMALL, INITIAL, INITIAL, "u");
    s := LogsIn(SMALL, INITIAL, s, "u");
  }

  function TcpRoute(sid: SessionId, name: string): Tunnel {
    TunnelFor(Session(sid, "u"), Ask(Tcp, name)).(tcpPort := Some(10))
  }

  /** The first session opens a TCP and an HTTP tunnel under one id. */
  lemma OneIdTwice() returns (s: Server)
    ensures Leads(SMALL, INITIAL, s) && BothWaiting(s)
    ensures s.table.hosts ==
      map[HostOf("a") := TcpRoute(1, "a"), HostOf("bb") := TunnelFor(Session(1, "u"), Ask(Http, "bb"))]
    ensures s.pool == Pool(map[10 := Lease(0, 1, 1, HostOf("a"))], 1, {})
  {
    NamesAreGood();
    s := TwoSessions();
    FewHosts(s.table, "u", {});
    s := OpensTcp(SMALL, INITIAL, s, 1, Ask(Tcp, "a"), 10);
    FewHosts(s.table, "u", {HostOf("a")});
    s := OpensHttp(SMALL, INITIAL, s, 1, Ask(Http, "bb"));
  }

  /** It closes that id: its port goes back to the pool, its TCP route stays. */
  lemma PortWithoutRoute() returns (s: Server)
    ensures Leads(SMALL, INITIAL, s) && BothWaiting(s)
    ensures s.table.hosts == map[HostOf("a") := TcpRoute(1, "a")]
    ensures s.pool.leased == map[] && s.pool.nextToken == 1
  {
    NamesAreGood();
    s := OneIdTwice();
    s := ClosesCrossed(SMALL, INITIAL, s, 1, 1, HostOf("a"), HostOf("bb"), 10);
  }

  /** The second session is given the port. */
  lemma PortChangesHands() returns (s: Server)
    ensures Leads(SMALL, INITIAL, s) && BothWaiting(s)
    ensures s.table.hosts == map[HostOf("a") := TcpRoute(1, "a"), HostOf("ccc") := TcpRoute(2, "ccc")]
    ensures s.pool.leased == map[10 := Lease(1, 2, 1, HostOf("ccc"))]
  {
    NamesAreGood();
    s := PortWithoutRoute();
    FewHosts(s.table, "u", {HostOf("a")});
    s := OpensTcp(SMALL, INITIAL, s, 2, Ask(Tcp, "ccc"), 10);
  }

  /**
   * So with an id used twice a release frees a port that another session's open tunnel owns, and stops its accept
   * loop: what `ReleaseFreesOwnPort` excludes for clients that never reuse an id.
   */
  lemma ReusedIdFreesAnothersPort() returns (s: Server)
    ensures Leads(SMALL, INITIAL, s) && Enabled(s, 1, Return) && AboutToRelease(s.tasks[1].pc) == Some(10)
    ensures Owns(s, 2, 1, 10) && 10 in s.pool.leased && s.pool.leased[10].session == 2
    ensures var s' := Step(SMALL, s, 1, Return);
      10 !in s'.pool.leased && s.pool.leased[10].token in s'.pool.cancelled
  {
    NamesAreGood();
    s := PortChangesHands();
    assert HostsWithPort(s.table, 1) == {HostOf("a")};
    s := StartsLeaving(SMALL, INITIAL, s, 1, HostOf("a"), 10);
    assert HostOf("ccc") in Matches(s.table, 2, 1);
  }

  /** The first session opens a TCP tunnel, asks for the same port under the same id and is refused. */
  lemma WrongRouteTakenBack() returns (s: Server)
    ensures Leads(SMALL, INITIAL, s) && BothWaiting(s)
    ensures s.table.hosts == map[HostOf("bb") := TunnelFor(Session(1, "u"), Ask(Tcp, "bb"))]
    ensures s.pool == Pool(map[10 := Lease(0, 1, 1, HostOf("a"))], 1, {}) && 1 in s.table.sessions
  {
    NamesAreGood();
    s := TwoSessions();
    FewHosts(s.table, "u", {});
    s := OpensTcp(SMALL, INITIAL, s, 1, Ask(Tcp, "a"), 10);
    FewHosts(s.table, "u", {HostOf("a")});
    s := RefusedTcp(SMALL, INITIAL, s, 1, Ask(Tcp, "bb"), 10, HostOf("a"));
  }

  /**
   * No close is needed to lose a port: after that refusal the session ends, and the port stays leased to a session
   * that is gone, its accept loop not told to stop. `GoneLeavesNothing` excludes this for clients that never reuse
   * an id.
   */
  lemma ReusedIdLeaksItsPort() returns (s: Server)
    ensures Leads(SMALL, INITIAL, s) && s.tasks.Keys == {1, 2} && s.tasks[1].pc.Gone?
    ensures s.table.hosts == map[] && 1 !in s.table.sessions
    ensures 10 in s.pool.leased && s.pool.leased[10].session == 1 && s.pool.cancelled == {}
  {
    NamesAreGood();
    s := WrongRouteTakenBack();
    LosesItsSession(s);
    s := EndsFreeingNothing(SMALL, INITIAL, s, 1);
  }

  lemma LosesItsSession(s: Server)
    requires s.table.hosts == map[HostOf("bb") := TunnelFor(Session(1, "u"), Ask(Tcp, "bb"))]
    ensures HostsWithPort(s.table, 1) == {}
    ensures 1 !in Unregistered(s.table, 1).sessions
    ensures 1 in s.table.sessions ==> Unregistered(s.table, 1).hosts == map[]
  {
  }
}
