/** Where the server's routes come from and what they keep (crates/cy-server/src/control.rs, open_tunnel and open_tcp_tunnel). */
module ServerRoutes {
  import opened Basics
  import opened Registry
  import opened ControlMessages
  import opened ServerMachine
  import opened ServerOwnership
  import Naming

  /** The host a request is about: its own domain for HTTP, if it has one, or the one made of user and name. */
  function HostOf(cfg: Config, user: User, msg: ClientMsg): Host
    requires msg.OpenTunnel?
  {
    Lower(if msg.kind == Http && msg.customDomain.Some? then msg.customDomain.value
          else Naming.HostFor(user, msg.name, cfg.suffix))
  }

  /** The route is what the message asked for, field by field; only its port is not in the message. */
  ghost predicate AskedFor(cfg: Config, m: Move, h: Host, route: Tunnel) {
    && m.ev.Receive? && m.ev.msg.OpenTunnel?
    && var msg := m.ev.msg;
       && h == HostOf(cfg, route.session.user, msg)
       && route.session.id == m.sid
       && route.tunnelId == msg.id
       && route.name == msg.name
       && route.kind == msg.kind
       && route.auth == msg.auth
       && (msg.kind == Http && msg.customDomain.Some? ==> m.ev.check == OwnedByCaller)
  }

  ghost predicate SameRoute(a: Tunnel, b: Tunnel) {
    a.session == b.session && a.tunnelId == b.tunnelId && a.name == b.name && a.kind == b.kind && a.auth == b.auth
  }

  /** Only an open request adds a route, and it is the route asked for; no step changes one but for its port. */
  lemma StepRoutes(cfg: Config, s: Server, m: Move, h: Host)
    requires TasksOk(s) && Enabled(s, m.sid, m.ev)
    requires h in Step(cfg, s, m.sid, m.ev).table.hosts
    ensures var route := Step(cfg, s, m.sid, m.ev).table.hosts[h];
      if h in s.table.hosts then SameRoute(route, s.table.hosts[h])
      else
        && AskedFor(cfg, m, h, route)
        && route.session == s.tasks[m.sid].session && route.tcpPort == None
  {
    match m.ev
    case Receive(msg, check) =>
      if msg.OpenTunnel? {
        OpenRoutes(cfg, s, m.sid, msg, check, h);
      }
    case _ =>
  }

  lemma OpenRoutes(cfg: Config, s: Server, sid: SessionId, msg: ClientMsg, check: DomainCheck, h: Host)
    requires TasksOk(s) && sid in s.tasks && msg.OpenTunnel?
    requires h in OpenAsked(cfg, s, sid, msg, check).table.hosts
    ensures var route := OpenAsked(cfg, s, sid, msg, check).table.hosts[h];
      if h in s.table.hosts then route == s.table.hosts[h]
      else
        && AskedFor(cfg, Move(sid, Receive(msg, check)), h, route)
        && route.session == s.tasks[sid].session && route.tcpPort == None
  {
    if msg.customDomain.Some? {
      LowerTwice(msg.customDomain.value);
    }
  }

  /** The run asks for this route: it has a request that is it, field by field. */
  ghost predicate Requested(cfg: Config, moves: seq<Move>, h: Host, route: Tunnel) {
    exists i :: 0 <= i < |moves| && AskedFor(cfg, moves[i], h, route)
  }

  /** Along any run a route is one that was there, unchanged but for its port, or was asked for in the run. */
  lemma {:induction false} RoutesWereThereOrAsked(cfg: Config, s: Server, moves: seq<Move>, h: Host, route: Tunnel)
    requires Inv(cfg, s) && Run(cfg, s, moves)
    requires h in After(cfg, s, moves).table.hosts && route == After(cfg, s, moves).table.hosts[h]
    ensures Requested(cfg, moves, h, route) || (h in s.table.hosts && SameRoute(route, s.table.hosts[h]))
    decreases |moves|
  {
    if moves != [] {
      var m := moves[0];
      var s' := Step(cfg, s, m.sid, m.ev);
      InvStep(cfg, s, m.sid, m.ev);
      RoutesWereThereOrAsked(cfg, s', moves[1..], h, route);
      if Requested(cfg, moves[1..], h, route) {
        RequestedLater(cfg, moves, h, route);
      } else {
        ThereOrAskedNow(cfg, s, moves, h, route);
      }
    }
  }

  lemma RequestedLater(cfg: Config, moves: seq<Move>, h: Host, route: Tunnel)
    requires moves != [] && Requested(cfg, moves[1..], h, route)
    ensures Requested(cfg, moves, h, route)
  {
    var i :| 0 <= i < |moves[1..]| && AskedFor(cfg, moves[1..][i], h, route);
    assert AskedFor(cfg, moves[i + 1], h, route);
  }

  lemma ThereOrAskedNow(cfg: Config, s: Server, moves: seq<Move>, h: Host, route: Tunnel)
    requires moves != [] && TasksOk(s) && Enabled(s, moves[0].sid, moves[0].ev)
    requires var s' := Step(cfg, s, moves[0].sid, moves[0].ev);
      h in s'.table.hosts && SameRoute(route, s'.table.hosts[h])
    ensures Requested(cfg, moves, h, route) || (h in s.table.hosts && SameRoute(route, s.table.hosts[h]))
  {
    StepRoutes(cfg, s, moves[0], h);
    if h !in s.table.hosts {
      assert AskedFor(cfg, moves[0], h, route);
    }
  }

  /** So in every reachable state every route is exactly what some open request of its session asked for. */
  lemma EveryRouteWasAskedFor(cfg: Config, moves: seq<Move>, h: Host)
    requires Run(cfg, INITIAL, moves) && h in After(cfg, INITIAL, moves).table.hosts
    ensures Requested(cfg, moves, h, After(cfg, INITIAL, moves).table.hosts[h])
  {
    InitiallyOk(cfg);
    RoutesWereThereOrAsked(cfg, INITIAL, moves, h, After(cfg, INITIAL, moves).table.hosts[h]);
  }

  /** The host has a route all through the run. */
  ghost predicate Stands(cfg: Config, s: Server, moves: seq<Move>, h: Host)
    requires Run(cfg, s, moves)
    decreases |moves|
  {
    && h in s.table.hosts
    && (moves == [] || Stands(cfg, Step(cfg, s, moves[0].sid, moves[0].ev), moves[1..], h))
  }

  /** As long as a route stands nothing anybody does changes it but for its port. */
  lemma {:induction false} StandingRouteStays(cfg: Config, s: Server, moves: seq<Move>, h: Host)
    requires Inv(cfg, s) && Run(cfg, s, moves) && Stands(cfg, s, moves, h)
    ensures h in After(cfg, s, moves).table.hosts
    ensures SameRoute(After(cfg, s, moves).table.hosts[h], s.table.hosts[h])
    decreases |moves|
  {
    if moves != [] {
      var m := moves[0];
      var s' := Step(cfg, s, m.sid, m.ev);
      InvStep(cfg, s, m.sid, m.ev);
      assert h in s'.table.hosts;
      StepRoutes(cfg, s, m, h);
      StandingRouteStays(cfg, s', moves[1..], h);
    }
  }

  // ---- ports are for TCP ----

  ghost predicate TcpOnly(s: Server) {
    && (forall h <- s.table.hosts :: s.table.hosts[h].tcpPort.Some? ==> s.table.hosts[h].kind == Tcp)
    && (forall sid <- s.tasks | OpeningId(s.tasks[sid].pc).Some? ::
          s.tasks[sid].pc.host in s.table.hosts && s.table.hosts[s.tasks[sid].pc.host].kind == Tcp)
  }

  /** A port appears on a route only when the open of that very route records it. */
  lemma NewPort(cfg: Config, s: Server, m: Move, h: Host)
    requires TasksOk(s) && Enabled(s, m.sid, m.ev)
    requires h in s.table.hosts && h in Step(cfg, s, m.sid, m.ev).table.hosts
    ensures var port, port' := s.table.hosts[h].tcpPort, Step(cfg, s, m.sid, m.ev).table.hosts[h].tcpPort;
      port' == port || (m.ev.Record? && h == Lower(s.tasks[m.sid].pc.host) && port' == Some(s.tasks[m.sid].pc.port))
  {
    if m.ev.Receive? && m.ev.msg.OpenTunnel? {
      OpenRoutes(cfg, s, m.sid, m.ev.msg, m.ev.check, h);
    }
  }

  /** A task that is opening something after its step was opening it before, or its step added the TCP route. */
  lemma NewOpening(cfg: Config, s: Server, m: Move)
    requires TasksOk(s) && Enabled(s, m.sid, m.ev) && m.sid in s.tasks
    ensures m.sid in Step(cfg, s, m.sid, m.ev).tasks
    ensures var s' := Step(cfg, s, m.sid, m.ev);
      var pc, pc' := s.tasks[m.sid].pc, s'.tasks[m.sid].pc;
      OpeningId(pc').Some? ==>
        || (OpeningId(pc).Some? && pc'.host == pc.host)
        || (pc'.host in s'.table.hosts && s'.table.hosts[pc'.host].kind == Tcp)
  {
  }

  lemma TcpStep(cfg: Config, s: Server, m: Move)
    requires Inv(cfg, s) && TcpOnly(s) && Enabled(s, m.sid, m.ev) && FreshId(s, m)
    ensures TcpOnly(Step(cfg, s, m.sid, m.ev))
  {
    var s' := Step(cfg, s, m.sid, m.ev);
    forall h <- s'.table.hosts | s'.table.hosts[h].tcpPort.Some?
      ensures s'.table.hosts[h].kind == Tcp
    {
      PortOnTcp(cfg, s, m, h);
    }
    forall sid <- s'.tasks | OpeningId(s'.tasks[sid].pc).Some?
      ensures s'.tasks[sid].pc.host in s'.table.hosts && s'.table.hosts[s'.tasks[sid].pc.host].kind == Tcp
    {
      OpeningTcp(cfg, s, m, sid);
    }
  }

  lemma PortOnTcp(cfg: Config, s: Server, m: Move, h: Host)
    requires Inv(cfg, s) && TcpOnly(s) && Enabled(s, m.sid, m.ev)
    requires var s' := Step(cfg, s, m.sid, m.ev); h in s'.table.hosts && s'.table.hosts[h].tcpPort.Some?
    ensures Step(cfg, s, m.sid, m.ev).table.hosts[h].kind == Tcp
  {
    StepRoutes(cfg, s, m, h);
    NewPort(cfg, s, m, h);
    if m.ev.Record? {
      OpeningIsLower(cfg, s, m.sid);
    }
  }

  lemma OpeningTcp(cfg: Config, s: Server, m: Move, sid: SessionId)
    requires Inv(cfg, s) && TcpOnly(s) && Enabled(s, m.sid, m.ev) && FreshId(s, m)
    requires var s' := Step(cfg, s, m.sid, m.ev); sid in s'.tasks && OpeningId(s'.tasks[sid].pc).Some?
    ensures var s' := Step(cfg, s, m.sid, m.ev);
      s'.tasks[sid].pc.host in s'.table.hosts && s'.table.hosts[s'.tasks[sid].pc.host].kind == Tcp
  {
    OpeningStands(cfg, s, m, sid);
    StepRoutes(cfg, s, m, Step(cfg, s, m.sid, m.ev).tasks[sid].pc.host);
    if sid == m.sid && !m.ev.Login? {
      NewOpening(cfg, s, m);
    } else {
      OthersTaskStays(cfg, s, m, sid);
    }
  }

  lemma OpeningStands(cfg: Config, s: Server, m: Move, sid: SessionId)
    requires Inv(cfg, s) && Enabled(s, m.sid, m.ev) && FreshId(s, m)
    requires var s' := Step(cfg, s, m.sid, m.ev); sid in s'.tasks && OpeningId(s'.tasks[sid].pc).Some?
    ensures var s' := Step(cfg, s, m.sid, m.ev); s'.tasks[sid].pc.host in s'.table.hosts
  {
    InvStep(cfg, s, m.sid, m.ev);
    OpeningIsLower(cfg, Step(cfg, s, m.sid, m.ev), sid);
  }

  lemma OthersTaskStays(cfg: Config, s: Server, m: Move, sid: SessionId)
    requires Enabled(s, m.sid, m.ev) && sid in Step(cfg, s, m.sid, m.ev).tasks && (sid != m.sid || m.ev.Login?)
    ensures var pc := Step(cfg, s, m.sid, m.ev).tasks[sid].pc; pc == Fresh || (sid in s.tasks && pc == s.tasks[sid].pc)
  {
  }

  lemma OpeningIsLower(cfg: Config, s: Server, sid: SessionId)
    requires Inv(cfg, s) && sid in s.tasks && OpeningId(s.tasks[sid].pc).Some?
    ensures s.tasks[sid].pc.host in s.table.hosts && Lower(s.tasks[sid].pc.host) == s.tasks[sid].pc.host
  {
    assert s.tasks[sid].pc.host in RoutesOf(s.table, sid);
  }

  /** In every reachable state the routes that hold a port are TCP routes. */
  lemma {:induction false} PortsAreForTcp(cfg: Config, s: Server, moves: seq<Move>)
    requires Inv(cfg, s) && TcpOnly(s) && Run(cfg, s, moves)
    ensures TcpOnly(After(cfg, s, moves))
    decreases |moves|
  {
    if moves != [] {
      InvStep(cfg, s, moves[0].sid, moves[0].ev);
      TcpStep(cfg, s, moves[0]);
      PortsAreForTcp(cfg, Step(cfg, s, moves[0].sid, moves[0].ev), moves[1..]);
    }
  }

  // ---- who a session is ----

  ghost predicate LoggedIn(moves: seq<Move>, sid: SessionId, session: Session) {
    session.id == sid && exists i :: 0 <= i < |moves| && moves[i] == Move(sid, Login(session.user))
  }

  /** A session is whoever logged in as it, for good. */
  lemma {:induction false} SessionsLoggedIn(cfg: Config, s: Server, moves: seq<Move>, sid: SessionId)
    requires Run(cfg, s, moves) && sid in After(cfg, s, moves).tasks
    ensures var session := After(cfg, s, moves).tasks[sid].session;
      LoggedIn(moves, sid, session) || (sid in s.tasks && s.tasks[sid].session == session)
    decreases |moves|
  {
    if moves != [] {
      var m, rest := moves[0], moves[1..];
      var s' := Step(cfg, s, m.sid, m.ev);
      var session := After(cfg, s, moves).tasks[sid].session;
      SessionsLoggedIn(cfg, s', rest, sid);
      if LoggedIn(rest, sid, session) {
        var i :| 0 <= i < |rest| && rest[i] == Move(sid, Login(session.user));
        assert moves[i + 1] == rest[i];
      } else {
        StepSession(cfg, s, m, sid);
        if sid !in s.tasks {
          assert moves[0] == Move(sid, Login(session.user));
        }
      }
    }
  }

  lemma StepSession(cfg: Config, s: Server, m: Move, sid: SessionId)
    requires Enabled(s, m.sid, m.ev) && sid in Step(cfg, s, m.sid, m.ev).tasks
    ensures var session := Step(cfg, s, m.sid, m.ev).tasks[sid].session;
      if sid in s.tasks then session == s.tasks[sid].session
      else m.sid == sid && m.ev.Login? && session == Session(sid, m.ev.user)
  {
  }
}
