/** Who owns a public port at every step of the server, and that nothing leaks. */
module ServerOwnership {
  import opened Basics
  import opened Registry
  import opened PortPool
  import opened ControlMessages
  import opened ServerMachine

  // ---- one session's share of the two tables ----

  type Routes = map<Host, Tunnel>
  type Leases = map<Port, Lease>

  function LeasesOf(leased: map<Port, Lease>, sid: SessionId): Leases {
    map p | p in leased && leased[p].session == sid :: leased[p]
  }

  predicate Active(pc: Pc) {
    !pc.Fresh? && !pc.Gone?
  }

  /** The tunnel an open request in progress is for. */
  function OpeningId(pc: Pc): Option<TunnelId> {
    if pc.Placing? || pc.Binding? || pc.Bound? || pc.Leased? || pc.Refused? then Some(pc.tid) else None
  }

  /** The port a lease in progress has reserved. */
  function InFlight(pc: Pc): Option<Port> {
    if pc.Binding? || pc.Bound? || pc.Leased? then Some(pc.port) else None
  }

  /** The route's port has not been given back yet by its session's own task. */
  predicate StillHeld(pc: Pc, route: Tunnel) {
    && route.tcpPort.Some?
    && (pc.Dropping? ==> pc.tid != route.tunnelId)
    && (pc.Returning? ==> route.tcpPort.value in pc.ports)
  }

  /** A leased port has its accept loop once the bind is past. */
  predicate Serving(pc: Pc, p: Port) {
    InFlight(pc) == Some(p) ==> pc.Leased?
  }

  ghost predicate UniqueIds(routes: Routes) {
    forall h1, h2 | h1 in routes && h2 in routes :: routes[h1].tunnelId == routes[h2].tunnelId ==> h1 == h2
  }

  /** What a session's position in its handling says about its own routes. */
  ghost predicate PcOk(routes: Routes, pc: Pc) {
    && !pc.Crashed?
    && (OpeningId(pc).Some? ==>
          && pc.host in routes
          && routes[pc.host].tunnelId == pc.tid
          && routes[pc.host].tcpPort == None
          && Lower(pc.host) == pc.host)
    && (pc.Freeing? ==>
          && (forall h <- routes :: routes[h].tunnelId == pc.tid ==> routes[h].tcpPort == pc.toFree)
          && (pc.toFree.Some? ==> exists h :: h in routes && routes[h].tcpPort == pc.toFree && routes[h].tunnelId == pc.tid))
    && (pc.Returning? ==>
          && Distinct(pc.ports)
          && forall p <- pc.ports :: exists h :: h in routes && routes[h].tcpPort == Some(p))
    && (pc.Fresh? || pc.Gone? ==> routes == map[])
  }

  /** Each of the session's leases belongs to the open in progress or to a route that still holds it. */
  ghost predicate OwnsLeases(routes: Routes, leases: Leases, pc: Pc) {
    && (forall p <- leases ::
          && leases[p].host in routes
          && routes[leases[p].host].tunnelId == leases[p].tunnelId
          && ((InFlight(pc) == Some(p) && pc.host == leases[p].host)
              || (routes[leases[p].host].tcpPort == Some(p) && StillHeld(pc, routes[leases[p].host]))))
    && (forall h <- routes :: StillHeld(pc, routes[h]) ==>
          routes[h].tcpPort.value in leases && leases[routes[h].tcpPort.value].host == h)
    && (InFlight(pc).Some? ==> pc.port in leases && leases[pc.port].host == pc.host)
  }

  ghost predicate Local(routes: Routes, leases: Leases, pc: Pc) {
    UniqueIds(routes) && PcOk(routes, pc) && OwnsLeases(routes, leases, pc)
  }

  // ---- the invariant ----

  ghost predicate TasksOk(s: Server) {
    && (forall sid <- s.tasks :: sid < s.nextSession && s.tasks[sid].session.id == sid)
    && (forall sid :: sid in s.table.sessions <==> sid in s.tasks && Active(s.tasks[sid].pc))
    && (forall sid <- s.table.sessions :: s.table.sessions[sid] == s.tasks[sid].session)
    && (forall p <- s.pool.leased :: s.pool.leased[p].session in s.tasks)
  }

  ghost predicate LocalAt(s: Server, sid: SessionId)
    requires sid in s.tasks
  {
    Local(RoutesOf(s.table, sid), LeasesOf(s.pool.leased, sid), s.tasks[sid].pc)
  }

  ghost predicate TokensOk(p: Pool, listeners: set<Listener>) {
    && (forall q <- p.leased :: p.leased[q].token < p.nextToken && p.leased[q].token !in p.cancelled)
    && (forall q, r | q in p.leased && r in p.leased :: p.leased[q].token == p.leased[r].token ==> q == r)
    && (forall k <- p.cancelled :: k < p.nextToken)
    && (forall l <- listeners :: l.lease.token < p.nextToken)
  }

  ghost predicate Accepting(s: Server, l: Listener) {
    l in s.listeners && l.lease.token !in s.pool.cancelled
  }

  /** Accept loops run on exactly the leased ports whose bind is past, one loop per port. */
  ghost predicate ListenersOk(s: Server)
    requires TasksOk(s)
  {
    && (forall l :: Accepting(s, l) ==>
          && l.port in s.pool.leased && s.pool.leased[l.port] == l.lease
          && Serving(s.tasks[l.lease.session].pc, l.port))
    && (forall p <- s.pool.leased ::
          Serving(s.tasks[s.pool.leased[p].session].pc, p) ==> Listener(p, s.pool.leased[p]) in s.listeners)
  }

  ghost predicate Inv(cfg: Config, s: Server) {
    && Consistent(s.table, cfg.limit)
    && TasksOk(s)
    && (forall sid <- s.tasks :: LocalAt(s, sid))
    && TokensOk(s.pool, s.listeners)
    && ListenersOk(s)
  }

  lemma InitiallyOk(cfg: Config)
    ensures Inv(cfg, INITIAL)
  {
    EmptyIsConsistent(cfg.limit);
  }

  // ---- how the two tables' operations look from one session ----

  lemma OpenProjects(t: Table, host: Host, tunnel: Tunnel, limit: nat)
    requires OpenOutcome(t, host, tunnel, limit) == Opened
    ensures forall x ::
      RoutesOf(AfterOpen(t, host, tunnel, limit), x) ==
      if x == tunnel.session.id then RoutesOf(t, x)[Lower(host) := tunnel] else RoutesOf(t, x)
  {
  }

  lemma CloseProjects(t: Table, sid: SessionId, h: Host)
    requires h in RoutesOf(t, sid)
    ensures forall x ::
      RoutesOf(Closed(t, Some(h)), x) == if x == sid then RoutesOf(t, x) - {h} else RoutesOf(t, x)
  {
  }

  lemma SetPortProjects(t: Table, sid: SessionId, h: Host, port: Port)
    requires h in RoutesOf(t, sid) && Lower(h) == h
    ensures forall x ::
      RoutesOf(WithPort(t, h, port), x) ==
      if x == sid then RoutesOf(t, x)[h := RoutesOf(t, x)[h].(tcpPort := Some(port))] else RoutesOf(t, x)
  {
  }

  lemma UnregisterProjects(t: Table, sid: SessionId)
    requires sid in t.sessions
    ensures forall x :: RoutesOf(Unregistered(t, sid), x) == if x == sid then map[] else RoutesOf(t, x)
  {
  }

  lemma PlaceProjects(p: Pool, port: Port, sid: SessionId, tid: TunnelId, h: Host)
    requires port !in p.leased
    ensures forall x ::
      LeasesOf(Placed(p, port, sid, tid, h).leased, x) ==
      if x == sid then LeasesOf(p.leased, x)[port := Lease(p.nextToken, sid, tid, h)] else LeasesOf(p.leased, x)
  {
  }

  lemma RemoveProjects(leased: Leases, sid: SessionId, port: Port)
    requires port in LeasesOf(leased, sid)
    ensures forall x :: LeasesOf(leased - {port}, x) == if x == sid then LeasesOf(leased, x) - {port} else LeasesOf(leased, x)
  {
  }

  // ---- one session's task, seen alone ----

  lemma LocalRelease(routes: Routes, leases: Leases, pc: Pc, p: Port)
    requires Local(routes, leases, pc) && AboutToRelease(pc) == Some(p)
    ensures exists h :: h in routes && routes[h].tcpPort == Some(p) && StillHeld(pc, routes[h])
    ensures p in leases && InFlight(pc) == None
    ensures Local(routes, leases - {p}, if pc.Freeing? then Dropping(pc.tid) else Returning(pc.ports[1..]))
  {
    var h :| h in routes && routes[h].tcpPort == Some(p) && StillHeld(pc, routes[h]);
    assert leases[p].host == h;
  }

  lemma LocalListPorts(routes: Routes, leases: Leases, hosts: seq<Host>, ports: seq<Port>)
    requires Local(routes, leases, Leaving)
    requires Distinct(hosts) && Elements(hosts) == set h | h in routes && routes[h].tcpPort.Some?
    requires |ports| == |hosts|
    requires forall i :: 0 <= i < |hosts| ==> hosts[i] in routes && routes[hosts[i]].tcpPort == Some(ports[i])
    ensures Local(routes, leases, Returning(ports))
  {
    forall i, j | 0 <= i < j < |ports|
      ensures ports[i] != ports[j]
    {
      assert StillHeld(Leaving, routes[hosts[i]]) && StillHeld(Leaving, routes[hosts[j]]);
    }
    forall h <- routes | routes[h].tcpPort.Some?
      ensures routes[h].tcpPort.value in ports
    {
      assert h in Elements(hosts);
    }
  }

  lemma LocalOpen(routes: Routes, leases: Leases, h: Host, tunnel: Tunnel, pc: Pc)
    requires Local(routes, leases, Idle)
    requires h !in routes && tunnel.tcpPort == None && Lower(h) == h
    requires forall x <- routes :: routes[x].tunnelId != tunnel.tunnelId
    requires pc.Idle? || ((pc.Placing? || pc.Refused?) && pc.tid == tunnel.tunnelId && pc.host == h)
    ensures Local(routes[h := tunnel], leases, pc)
  {
  }

  lemma LocalPlace(routes: Routes, leases: Leases, pc: Pc, l: Lease)
    requires Local(routes, leases, pc) && pc.Placing? && pc.candidates != []
    requires pc.candidates[0] !in leases
    requires l.host == pc.host && l.tunnelId == pc.tid
    ensures Local(routes, leases[pc.candidates[0] := l],
                  Binding(pc.tid, pc.host, pc.wanted, pc.candidates[0], pc.candidates[1..]))
  {
  }

  lemma LocalAbandon(routes: Routes, leases: Leases, pc: Pc, pc': Pc)
    requires Local(routes, leases, pc) && pc.Binding?
    requires (pc'.Placing? || pc'.Refused?) && pc'.tid == pc.tid && pc'.host == pc.host
    ensures pc.port in leases
    ensures Local(routes, leases - {pc.port}, pc')
  {
  }

  lemma LocalRecord(routes: Routes, leases: Leases, pc: Pc)
    requires Local(routes, leases, pc) && pc.Leased?
    ensures Local(routes[pc.host := routes[pc.host].(tcpPort := Some(pc.port))], leases, Idle)
  {
  }

  /** Removing the one route under the id being closed; `found` is what the lookup returned. */
  lemma LocalRemove(routes: Routes, leases: Leases, pc: Pc, found: Option<Host>)
    requires Local(routes, leases, pc) && (pc.Refused? || pc.Dropping?)
    requires match found
             case None => forall h <- routes :: routes[h].tunnelId != pc.tid
             case Some(h) => h in routes && routes[h].tunnelId == pc.tid
    ensures Local(if found.Some? then routes - {found.value} else routes, leases, Idle)
  {
  }

  // ---- one step ----

  /** The port a `release` step is about to give back. */
  function AboutToRelease(pc: Pc): Option<Port> {
    if pc.Freeing? then pc.toFree
    else if pc.Returning? && pc.ports != [] then Some(pc.ports[0])
    else None
  }

  /** What a step needs to know about the acting session. */
  ghost predicate Ready(s: Server, sid: SessionId) {
    && sid in s.tasks && LocalAt(s, sid)
    && s.tasks[sid].session.id == sid
    && (sid in s.table.sessions <==> Active(s.tasks[sid].pc))
  }

  /** Every other session keeps its task, its routes and its leases. */
  ghost predicate OthersKept(s: Server, s': Server, sid: SessionId) {
    && (forall x | x != sid :: RoutesOf(s'.table, x) == RoutesOf(s.table, x))
    && (forall x | x != sid :: LeasesOf(s'.pool.leased, x) == LeasesOf(s.pool.leased, x))
    && (forall x | x != sid :: x in s'.tasks <==> x in s.tasks)
    && (forall x | x != sid && x in s.tasks :: s'.tasks[x] == s.tasks[x])
  }

  ghost predicate Shared(s: Server, s': Server, sid: SessionId) {
    sid in s'.tasks && LocalAt(s', sid) && OthersKept(s, s', sid)
  }

  lemma OwnOpened(s: Server, sid: SessionId, host: Host, tunnel: Tunnel, limit: nat, pc: Pc)
    requires Ready(s, sid) && s.tasks[sid].pc.Idle?
    requires tunnel.session.id == sid && tunnel.tcpPort == None
    requires OpenOutcome(s.table, host, tunnel, limit) == Opened
    requires Matches(s.table, sid, tunnel.tunnelId) == {}
    requires pc.Idle? || ((pc.Placing? || pc.Refused?) && pc.tid == tunnel.tunnelId && pc.host == Lower(host))
    ensures Shared(s, At(s.(table := AfterOpen(s.table, host, tunnel, limit)), sid, pc), sid)
  {
    var routes := RoutesOf(s.table, sid);
    OpenProjects(s.table, host, tunnel, limit);
    LowerTwice(host);
    forall h <- routes
      ensures routes[h].tunnelId != tunnel.tunnelId
    {
      assert h !in Matches(s.table, sid, tunnel.tunnelId);
    }
    LocalOpen(routes, LeasesOf(s.pool.leased, sid), Lower(host), tunnel, pc);
  }

  lemma OwnReceive(cfg: Config, s: Server, sid: SessionId, msg: ClientMsg, check: DomainCheck)
    requires Ready(s, sid) && s.tasks[sid].pc.Idle? && FreshId(s, Move(sid, Receive(msg, check)))
    ensures Shared(s, Step(cfg, s, sid, Receive(msg, check)), sid)
  {
    if msg.OpenTunnel? {
      var session := s.tasks[sid].session;
      match Decide(cfg, session.user, msg, check)
      case Reject(_) =>
      case Route(host) =>
        var tunnel := TunnelFor(session, msg);
        var limit := cfg.limit(session.user);
        if OpenOutcome(s.table, host, tunnel, limit) == Opened {
          OwnOpened(s, sid, host, tunnel, limit, AfterRoute(cfg, msg, host));
        }
    }
  }

  lemma OwnTryNext(cfg: Config, s: Server, sid: SessionId)
    requires Ready(s, sid) && s.tasks[sid].pc.Placing?
    ensures Shared(s, Step(cfg, s, sid, TryNext), sid)
  {
    var pc := s.tasks[sid].pc;
    if pc.candidates != [] && pc.candidates[0] !in s.pool.leased {
      PlaceProjects(s.pool, pc.candidates[0], sid, pc.tid, pc.host);
      LocalPlace(RoutesOf(s.table, sid), LeasesOf(s.pool.leased, sid), pc, Lease(s.pool.nextToken, sid, pc.tid, pc.host));
    }
  }

  lemma OwnBind(cfg: Config, s: Server, sid: SessionId, ok: bool)
    requires Ready(s, sid) && s.tasks[sid].pc.Binding?
    ensures Shared(s, Step(cfg, s, sid, Bind(ok)), sid)
  {
    var pc := s.tasks[sid].pc;
    if !ok {
      var pc' := if pc.wanted then Refused(pc.tid, pc.host, CodePortTaken)
                 else Placing(pc.tid, pc.host, pc.wanted, pc.rest);
      LocalAbandon(RoutesOf(s.table, sid), LeasesOf(s.pool.leased, sid), pc, pc');
      RemoveProjects(s.pool.leased, sid, pc.port);
    }
  }

  lemma OwnSpawn(cfg: Config, s: Server, sid: SessionId)
    requires Ready(s, sid) && s.tasks[sid].pc.Bound?
    ensures Shared(s, Step(cfg, s, sid, Spawn), sid)
  {
    assert s.tasks[sid].pc.port in LeasesOf(s.pool.leased, sid);
  }

  lemma OwnRecord(cfg: Config, s: Server, sid: SessionId)
    requires Ready(s, sid) && s.tasks[sid].pc.Leased?
    ensures Shared(s, Step(cfg, s, sid, Record), sid)
  {
    var pc := s.tasks[sid].pc;
    SetPortProjects(s.table, sid, pc.host, pc.port);
    LocalRecord(RoutesOf(s.table, sid), LeasesOf(s.pool.leased, sid), pc);
  }

  lemma OwnRemove(cfg: Config, s: Server, sid: SessionId, ev: Event)
    requires Ready(s, sid) && Enabled(s, sid, ev) && (ev.GiveBack? || ev.Drop?)
    ensures Shared(s, Step(cfg, s, sid, ev), sid)
  {
    if ev.found.Some? {
      CloseProjects(s.table, sid, ev.found.value);
    } else {
      assert forall h <- RoutesOf(s.table, sid) :: h !in Matches(s.table, sid, s.tasks[sid].pc.tid);
    }
    LocalRemove(RoutesOf(s.table, sid), LeasesOf(s.pool.leased, sid), s.tasks[sid].pc, ev.found);
  }

  lemma OwnLookUp(cfg: Config, s: Server, sid: SessionId, ev: Event)
    requires Ready(s, sid) && Enabled(s, sid, ev) && ev.LookUpPort?
    ensures Shared(s, Step(cfg, s, sid, ev), sid)
  {
    assert forall h <- RoutesOf(s.table, sid) ::
      RoutesOf(s.table, sid)[h].tunnelId == s.tasks[sid].pc.tid ==> h in Matches(s.table, sid, s.tasks[sid].pc.tid);
    if ev.found.Some? {
      assert ev.found.value in RoutesOf(s.table, sid);
    }
  }

  lemma OwnRelease(cfg: Config, s: Server, sid: SessionId, ev: Event)
    requires Ready(s, sid) && Enabled(s, sid, ev) && (ev.Free? || ev.Return?)
    ensures Shared(s, Step(cfg, s, sid, ev), sid)
  {
    var pc := s.tasks[sid].pc;
    if AboutToRelease(pc).Some? {
      LocalRelease(RoutesOf(s.table, sid), LeasesOf(s.pool.leased, sid), pc, AboutToRelease(pc).value);
      RemoveProjects(s.pool.leased, sid, AboutToRelease(pc).value);
    }
  }

  lemma OwnListPorts(cfg: Config, s: Server, sid: SessionId, ev: Event)
    requires Ready(s, sid) && Enabled(s, sid, ev) && ev.ListPorts?
    ensures Shared(s, Step(cfg, s, sid, ev), sid)
  {
    var routes := RoutesOf(s.table, sid);
    assert (set h | h in routes && routes[h].tcpPort.Some?) == HostsWithPort(s.table, sid);
    assert forall h <- ev.hosts :: h in Elements(ev.hosts);
    var ports := PortsAt(s.table, ev.hosts);
    forall i | 0 <= i < |ev.hosts|
      ensures ev.hosts[i] in routes && routes[ev.hosts[i]].tcpPort == Some(ports[i])
    {
      assert ev.hosts[i] in HostsWithPort(s.table, sid);
    }
    LocalListPorts(routes, LeasesOf(s.pool.leased, sid), ev.hosts, ports);
  }

  lemma OwnUnregister(cfg: Config, s: Server, sid: SessionId)
    requires Ready(s, sid) && Enabled(s, sid, Unregister)
    ensures Shared(s, Step(cfg, s, sid, Unregister), sid)
  {
    UnregisterProjects(s.table, sid);
  }

  lemma OwnEnter(cfg: Config, s: Server, sid: SessionId)
    requires Ready(s, sid) && Enabled(s, sid, Enter)
    ensures Shared(s, Step(cfg, s, sid, Enter), sid)
  {
    assert forall x :: RoutesOf(Registered(s.table, s.tasks[sid].session), x) == RoutesOf(s.table, x);
  }

  /** One step keeps the acting session's bookkeeping and touches nobody else's. */
  lemma StepIsLocal(cfg: Config, s: Server, sid: SessionId, ev: Event)
    requires Enabled(s, sid, ev) && !ev.Login? && Ready(s, sid) && FreshId(s, Move(sid, ev))
    ensures Shared(s, Step(cfg, s, sid, ev), sid)
  {
    match ev {
      case Enter => OwnEnter(cfg, s, sid);
      case Receive(msg, check) => OwnReceive(cfg, s, sid, msg, check);
      case TryNext => OwnTryNext(cfg, s, sid);
      case Bind(ok) => OwnBind(cfg, s, sid, ok);
      case Spawn => OwnSpawn(cfg, s, sid);
      case Record => OwnRecord(cfg, s, sid);
      case GiveBack(_) => OwnRemove(cfg, s, sid, ev);
      case LookUpPort(_) => OwnLookUp(cfg, s, sid, ev);
      case Free => OwnRelease(cfg, s, sid, ev);
      case Drop(_) => OwnRemove(cfg, s, sid, ev);
      case ListPorts(_) => OwnListPorts(cfg, s, sid, ev);
      case Return => OwnRelease(cfg, s, sid, ev);
      case Unregister => OwnUnregister(cfg, s, sid);
      case Beat(_) =>
      case Leave(_) =>
    }
  }

  lemma ConsistentStep(cfg: Config, s: Server, sid: SessionId, ev: Event)
    requires Enabled(s, sid, ev) && Consistent(s.table, cfg.limit)
    requires !ev.Login? ==> s.tasks[sid].session.id == sid
    requires sid in s.table.sessions <==> sid in s.tasks && Active(s.tasks[sid].pc)
    requires sid in s.table.sessions ==> s.table.sessions[sid] == s.tasks[sid].session
    ensures Consistent(Step(cfg, s, sid, ev).table, cfg.limit)
  {
    match ev {
      case Enter => RegisterKeepsConsistent(s.table, s.tasks[sid].session, cfg.limit);
      case Receive(msg, check) =>
        if msg.OpenTunnel? {
          var session := s.tasks[sid].session;
          match Decide(cfg, session.user, msg, check)
          case Reject(_) =>
          case Route(host) => OpenKeepsConsistent(s.table, host, TunnelFor(session, msg), cfg.limit);
        }
      case Record => SetPortKeepsConsistent(s.table, s.tasks[sid].pc.host, s.tasks[sid].pc.port, cfg.limit);
      case GiveBack(found) => CloseKeepsConsistent(s.table, found, cfg.limit);
      case Drop(found) => CloseKeepsConsistent(s.table, found, cfg.limit);
      case Unregister => UnregisterKeepsConsistent(s.table, sid, cfg.limit);
      case _ =>
    }
  }

  /** Only entering and unregistering change who is live; only placing adds a lease. */
  lemma StepShape(cfg: Config, s: Server, sid: SessionId, ev: Event)
    requires Enabled(s, sid, ev) && !ev.Login? && (sid in s.table.sessions <==> Active(s.tasks[sid].pc))
    ensures var s' := Step(cfg, s, sid, ev);
      && s'.tasks == s.tasks[sid := Task(s.tasks[sid].session, s'.tasks[sid].pc)]
      && s'.nextSession == s.nextSession
      && !s'.tasks[sid].pc.Fresh?
      && s'.table.sessions == (if ev.Enter? then s.table.sessions[s.tasks[sid].session.id := s.tasks[sid].session]
                               else if s'.tasks[sid].pc.Gone? then s.table.sessions - {sid}
                               else s.table.sessions)
  {
  }

  lemma NewLeasesAreOwn(cfg: Config, s: Server, sid: SessionId, ev: Event)
    requires Enabled(s, sid, ev)
    ensures var s' := Step(cfg, s, sid, ev);
      forall p <- s'.pool.leased :: s'.pool.leased[p].session == sid || (p in s.pool.leased && s'.pool.leased[p] == s.pool.leased[p])
  {
  }

  lemma TasksStep(cfg: Config, s: Server, sid: SessionId, ev: Event)
    requires TasksOk(s) && Enabled(s, sid, ev)
    ensures TasksOk(Step(cfg, s, sid, ev))
  {
    NewLeasesAreOwn(cfg, s, sid, ev);
    if !ev.Login? {
      StepShape(cfg, s, sid, ev);
    }
  }

  predicate Quiet(s: Server, sid: SessionId, ev: Event)
    requires ev.Login? || sid in s.tasks
  {
    match ev
    case Login(_) => true
    case TryNext =>
      s.tasks[sid].pc.Placing? && (s.tasks[sid].pc.candidates == [] || s.tasks[sid].pc.candidates[0] in s.pool.leased)
    case Bind(ok) => ok
    case Spawn => false
    case Free => AboutToRelease(s.tasks[sid].pc) == None
    case Return => false
    case _ => true
  }

  lemma QuietShape(cfg: Config, s: Server, sid: SessionId, ev: Event)
    requires Enabled(s, sid, ev) && Quiet(s, sid, ev)
    ensures var s' := Step(cfg, s, sid, ev);
      && s'.pool == s.pool && s'.listeners == s.listeners
      && forall p :: ev.Login? || Serving(s'.tasks[sid].pc, p) == Serving(s.tasks[sid].pc, p)
  {
  }

  lemma TokensReleased(p: Pool, listeners: set<Listener>, port: Port)
    requires TokensOk(p, listeners)
    ensures TokensOk(Released(p, port), listeners) && TokensOk(Abandoned(p, port), listeners)
  {
  }

  lemma TokensStep(cfg: Config, s: Server, sid: SessionId, ev: Event)
    requires TokensOk(s.pool, s.listeners) && Enabled(s, sid, ev)
    ensures var s' := Step(cfg, s, sid, ev); TokensOk(s'.pool, s'.listeners)
  {
    if Quiet(s, sid, ev) {
      QuietShape(cfg, s, sid, ev);
    } else {
      var pc := s.tasks[sid].pc;
      match ev
      case TryNext =>
      case Spawn =>
      case Bind(_) => TokensReleased(s.pool, s.listeners, pc.port);
      case Free => TokensReleased(s.pool, s.listeners, pc.toFree.value);
      case Return => TokensReleased(s.pool, s.listeners, pc.ports[0]);
    }
  }

  /** Moving one task without touching pool or accept loops; its leased ports stay served or unserved. */
  lemma ListenersQuiet(s: Server, s': Server, sid: SessionId)
    requires TasksOk(s) && TasksOk(s') && ListenersOk(s)
    requires s'.pool == s.pool && s'.listeners == s.listeners
    requires forall x <- s.tasks :: x in s'.tasks && (x != sid ==> s'.tasks[x] == s.tasks[x])
    requires sid in s.tasks ==> forall p :: Serving(s'.tasks[sid].pc, p) == Serving(s.tasks[sid].pc, p)
    ensures ListenersOk(s')
  {
    forall l | Accepting(s', l)
      ensures l.port in s'.pool.leased && s'.pool.leased[l.port] == l.lease
      ensures Serving(s'.tasks[l.lease.session].pc, l.port)
    {
      assert Accepting(s, l);
    }
  }

  lemma ListenersPlace(cfg: Config, s: Server, sid: SessionId)
    requires TasksOk(s) && TokensOk(s.pool, s.listeners) && ListenersOk(s)
    requires sid in s.tasks && s.tasks[sid].pc.Placing?
    requires var cs := s.tasks[sid].pc.candidates; cs != [] && cs[0] !in s.pool.leased
    ensures TasksOk(Step(cfg, s, sid, TryNext)) && ListenersOk(Step(cfg, s, sid, TryNext))
  {
    TasksStep(cfg, s, sid, TryNext);
    var s' := Step(cfg, s, sid, TryNext);
    forall l | Accepting(s', l)
      ensures l.port in s'.pool.leased && s'.pool.leased[l.port] == l.lease
      ensures Serving(s'.tasks[l.lease.session].pc, l.port)
    {
      assert Accepting(s, l);
    }
  }

  lemma ListenersAbandon(cfg: Config, s: Server, sid: SessionId)
    requires TasksOk(s) && ListenersOk(s) && sid in s.tasks && LocalAt(s, sid) && s.tasks[sid].pc.Binding?
    ensures TasksOk(Step(cfg, s, sid, Bind(false))) && ListenersOk(Step(cfg, s, sid, Bind(false)))
  {
    TasksStep(cfg, s, sid, Bind(false));
    var s' := Step(cfg, s, sid, Bind(false));
    var port := s.tasks[sid].pc.port;
    assert port in LeasesOf(s.pool.leased, sid);
    forall l | Accepting(s', l)
      ensures l.port in s'.pool.leased && s'.pool.leased[l.port] == l.lease
      ensures Serving(s'.tasks[l.lease.session].pc, l.port)
    {
      assert Accepting(s, l);
    }
  }

  lemma ListenersSpawn(cfg: Config, s: Server, sid: SessionId)
    requires TasksOk(s) && TokensOk(s.pool, s.listeners) && ListenersOk(s)
    requires sid in s.tasks && LocalAt(s, sid) && s.tasks[sid].pc.Bound?
    ensures TasksOk(Step(cfg, s, sid, Spawn)) && ListenersOk(Step(cfg, s, sid, Spawn))
  {
    TasksStep(cfg, s, sid, Spawn);
    var s' := Step(cfg, s, sid, Spawn);
    var port := s.tasks[sid].pc.port;
    assert port in LeasesOf(s.pool.leased, sid);
    forall l | Accepting(s', l)
      ensures l.port in s'.pool.leased && s'.pool.leased[l.port] == l.lease
      ensures Serving(s'.tasks[l.lease.session].pc, l.port)
    {
      assert l != Listener(port, s.pool.leased[port]) ==> Accepting(s, l);
    }
  }

  lemma ListenersRelease(s: Server, s': Server, sid: SessionId, pc: Pc, p: Port)
    requires TasksOk(s) && TokensOk(s.pool, s.listeners) && ListenersOk(s) && TasksOk(s')
    requires sid in s.tasks && InFlight(s.tasks[sid].pc) == InFlight(pc) == None
    requires p in s.pool.leased
    requires s' == At(s.(pool := Released(s.pool, p)), sid, pc)
    ensures ListenersOk(s')
  {
    forall l | Accepting(s', l)
      ensures l.port in s'.pool.leased && s'.pool.leased[l.port] == l.lease
      ensures Serving(s'.tasks[l.lease.session].pc, l.port)
    {
      assert Accepting(s, l);
    }
  }

  lemma ListenersStep(cfg: Config, s: Server, sid: SessionId, ev: Event)
    requires TasksOk(s) && Enabled(s, sid, ev) && TokensOk(s.pool, s.listeners) && ListenersOk(s)
    requires !ev.Login? ==> LocalAt(s, sid)
    requires ev.Login? ==> sid !in s.tasks
    ensures TasksOk(Step(cfg, s, sid, ev)) && ListenersOk(Step(cfg, s, sid, ev))
  {
    TasksStep(cfg, s, sid, ev);
    if Quiet(s, sid, ev) {
      QuietShape(cfg, s, sid, ev);
      if !ev.Login? {
        StepShape(cfg, s, sid, ev);
      }
      ListenersQuiet(s, Step(cfg, s, sid, ev), sid);
    } else if ev.Spawn? {
      ListenersSpawn(cfg, s, sid);
    } else if ev.Bind? {
      ListenersAbandon(cfg, s, sid);
    } else if ev.TryNext? {
      ListenersPlace(cfg, s, sid);
    } else {
      var pc := s.tasks[sid].pc;
      LocalRelease(RoutesOf(s.table, sid), LeasesOf(s.pool.leased, sid), pc, AboutToRelease(pc).value);
      ListenersRelease(s, Step(cfg, s, sid, ev), sid, Step(cfg, s, sid, ev).tasks[sid].pc, AboutToRelease(pc).value);
    }
  }

  lemma LocalsStep(s: Server, s': Server, sid: SessionId)
    requires forall x <- s.tasks :: LocalAt(s, x)
    requires Shared(s, s', sid)
    ensures forall x <- s'.tasks :: LocalAt(s', x)
  {
    forall x <- s'.tasks
      ensures LocalAt(s', x)
    {
      assert x != sid ==> LocalAt(s, x);
    }
  }

  lemma LoginStep(cfg: Config, s: Server, sid: SessionId, user: User)
    requires TasksOk(s) && Consistent(s.table, cfg.limit) && Enabled(s, sid, Login(user))
    requires forall x <- s.tasks :: LocalAt(s, x)
    ensures var s' := Step(cfg, s, sid, Login(user)); forall x <- s'.tasks :: LocalAt(s', x)
  {
    var s' := Step(cfg, s, sid, Login(user));
    assert RoutesOf(s.table, sid) == map[] && LeasesOf(s.pool.leased, sid) == map[];
    forall x <- s'.tasks
      ensures LocalAt(s', x)
    {
      assert x != sid ==> LocalAt(s, x);
    }
  }

  /** The invariant is inductive. */
  lemma InvStep(cfg: Config, s: Server, sid: SessionId, ev: Event)
    requires Inv(cfg, s) && Enabled(s, sid, ev) && FreshId(s, Move(sid, ev))
    ensures Inv(cfg, Step(cfg, s, sid, ev))
    ensures ev.Login? || Shared(s, Step(cfg, s, sid, ev), sid)
  {
    var s' := Step(cfg, s, sid, ev);
    assert Consistent(s'.table, cfg.limit) by { ConsistentStep(cfg, s, sid, ev); }
    assert TokensOk(s'.pool, s'.listeners) by { TokensStep(cfg, s, sid, ev); }
    assert TasksOk(s') && ListenersOk(s') by { ListenersStep(cfg, s, sid, ev); }
    if ev.Login? {
      LoginStep(cfg, s, sid, ev.user);
    } else {
      StepIsLocal(cfg, s, sid, ev);
      LocalsStep(s, s', sid);
    }
  }

  /** Whatever the interleaving, every reachable server satisfies the invariant. */
  lemma {:induction false} InvAlways(cfg: Config, s: Server, moves: seq<Move>)
    requires Inv(cfg, s) && Run(cfg, s, moves)
    ensures Inv(cfg, After(cfg, s, moves))
    decreases |moves|
  {
    if moves != [] {
      InvStep(cfg, s, moves[0].sid, moves[0].ev);
      InvAlways(cfg, Step(cfg, s, moves[0].sid, moves[0].ev), moves[1..]);
    }
  }
}
