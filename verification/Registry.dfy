/** Live sessions and the routing table (crates/cy-server/src/registry.rs). */
module Registry {
  import opened Basics

  type Host = string
  type User = string
  type SessionId = nat
  type TunnelId = nat

  datatype Kind = Http | Tcp

  datatype Session = Session(id: SessionId, user: User)

  datatype Tunnel = Tunnel(
    session: Session,
    tunnelId: TunnelId,
    name: string,
    kind: Kind,
    auth: Option<string>,
    tcpPort: Option<Port>)

  datatype Outcome = Opened | Taken | LimitReached

  /** The contents of the table at one moment. */
  datatype Table = Table(
    sessions: map<SessionId, Session>,
    hosts: map<Host, Tunnel>,
    byUser: map<User, set<SessionId>>)

  const EMPTY := Table(map[], map[], map[])

  // ---- what each operation does to the contents ----

  function SessionsOf(byUser: map<User, set<SessionId>>, user: User): set<SessionId> {
    if user in byUser then byUser[user] else {}
  }

  function Registered(t: Table, s: Session): Table {
    t.(sessions := t.sessions[s.id := s], byUser := t.byUser[s.user := SessionsOf(t.byUser, s.user) + {s.id}])
  }

  function WithoutSession(byUser: map<User, set<SessionId>>, user: User, sid: SessionId): map<User, set<SessionId>> {
    if user !in byUser then byUser
    else if byUser[user] - {sid} == {} then byUser - {user}
    else byUser[user := byUser[user] - {sid}]
  }

  function Unregistered(t: Table, sid: SessionId): Table {
    if sid !in t.sessions then t
    else Table(
           t.sessions - {sid},
           map h | h in t.hosts && t.hosts[h].session.id != sid :: t.hosts[h],
           WithoutSession(t.byUser, t.sessions[sid].user, sid))
  }

  function HostsOfUser(t: Table, user: User): set<Host> {
    set h | h in t.hosts && t.hosts[h].session.user == user
  }

  function OpenOutcome(t: Table, host: Host, tunnel: Tunnel, limit: nat): Outcome {
    if Lower(host) in t.hosts then Taken
    else if |HostsOfUser(t, tunnel.session.user)| >= limit then LimitReached
    else Opened
  }

  function AfterOpen(t: Table, host: Host, tunnel: Tunnel, limit: nat): Table {
    if OpenOutcome(t, host, tunnel, limit) == Opened
    then t.(hosts := t.hosts[Lower(host) := tunnel])
    else t
  }

  /** Hosts routed to this session under this tunnel id; the lookups pick any one of them. */
  function Matches(t: Table, sid: SessionId, tid: TunnelId): set<Host> {
    set h | h in t.hosts && t.hosts[h].session.id == sid && t.hosts[h].tunnelId == tid
  }

  ghost predicate IsMatch(t: Table, sid: SessionId, tid: TunnelId, found: Option<Host>) {
    match found
    case None => Matches(t, sid, tid) == {}
    case Some(h) => h in Matches(t, sid, tid)
  }

  /** The port recorded on the route found, if one was found and holds one. */
  function PortOn(t: Table, found: Option<Host>): Option<Port> {
    if found.Some? && found.value in t.hosts then t.hosts[found.value].tcpPort else None
  }

  function Closed(t: Table, found: Option<Host>): Table {
    match found
    case None => t
    case Some(h) => t.(hosts := t.hosts - {h})
  }

  function WithPort(t: Table, host: Host, port: Port): Table {
    var h := Lower(host);
    if h in t.hosts then t.(hosts := t.hosts[h := t.hosts[h].(tcpPort := Some(port))]) else t
  }

  /** The tunnel visitors of a host are sent to, whatever the spelling. */
  function LookedUp(t: Table, host: Host): Option<Tunnel> {
    if Lower(host) in t.hosts then Some(t.hosts[Lower(host)]) else None
  }

  /** The routes of one session, by host. */
  function RoutesOf(t: Table, sid: SessionId): map<Host, Tunnel> {
    map h | h in t.hosts && t.hosts[h].session.id == sid :: t.hosts[h]
  }

  function HostsWithPort(t: Table, sid: SessionId): set<Host> {
    set h | h in t.hosts && t.hosts[h].session.id == sid && t.hosts[h].tcpPort.Some?
  }

  /** `hosts` lists the session's routes that hold a public port, each once, in some order. */
  ghost predicate Lists(t: Table, sid: SessionId, hosts: seq<Host>) {
    Distinct(hosts) && Elements(hosts) == HostsWithPort(t, sid)
  }

  ghost predicate AllHoldPorts(t: Table, hosts: seq<Host>) {
    forall h <- hosts :: h in t.hosts && t.hosts[h].tcpPort.Some?
  }

  ghost function PortsAt(t: Table, hosts: seq<Host>): seq<Port>
    requires AllHoldPorts(t, hosts)
  {
    seq(|hosts|, i requires 0 <= i < |hosts| => t.hosts[hosts[i]].tcpPort.value)
  }

  lemma ListOneMore(t: Table, sid: SessionId, hosts: seq<Host>, rest: set<Host>, h: Host)
    requires rest <= HostsWithPort(t, sid) && h in rest
    requires Distinct(hosts) && Elements(hosts) == HostsWithPort(t, sid) - rest
    ensures Distinct(hosts + [h]) && Elements(hosts + [h]) == HostsWithPort(t, sid) - (rest - {h})
    ensures AllHoldPorts(t, hosts) && AllHoldPorts(t, hosts + [h])
    ensures PortsAt(t, hosts + [h]) == PortsAt(t, hosts) + [t.hosts[h].tcpPort.value]
  {
    assert forall x <- hosts :: x in Elements(hosts);
    assert h !in hosts;
    assert Elements(hosts + [h]) == Elements(hosts) + {h};
  }

  // ---- what holds in every reachable table ----

  /** The user index is exactly the grouping of live sessions, with no empty group. */
  ghost predicate IndexIsGrouping(t: Table) {
    && (forall sid <- t.sessions :: t.sessions[sid].id == sid)
    && (forall u <- t.byUser :: t.byUser[u] != {})
    && (forall u, sid :: sid in SessionsOf(t.byUser, u) <==> sid in t.sessions && t.sessions[sid].user == u)
  }

  /** Every route belongs to a live session and sits under a lower-case host. */
  ghost predicate RoutesAreLive(t: Table) {
    forall h <- t.hosts ::
      && Lower(h) == h
      && t.hosts[h].session.id in t.sessions
      && t.sessions[t.hosts[h].session.id] == t.hosts[h].session
  }

  ghost predicate WithinLimits(t: Table, limit: User -> nat) {
    forall u :: |HostsOfUser(t, u)| <= limit(u)
  }

  ghost predicate Consistent(t: Table, limit: User -> nat) {
    IndexIsGrouping(t) && RoutesAreLive(t) && WithinLimits(t, limit)
  }

  lemma EmptyIsConsistent(limit: User -> nat)
    ensures Consistent(EMPTY, limit)
  {
    forall u
      ensures |HostsOfUser(EMPTY, u)| == 0
    {
      assert HostsOfUser(EMPTY, u) == {};
    }
  }

  lemma SubsetSize<T>(a: set<T>, b: set<T>)
    requires a <= b
    ensures |a| <= |b|
  {
    assert b == a + (b - a);
  }

  /** Losing routes, or changing what a route carries besides its owner, keeps every limit. */
  lemma FewerRoutesKeepLimits(t: Table, t': Table, limit: User -> nat)
    requires WithinLimits(t, limit)
    requires t'.hosts.Keys <= t.hosts.Keys
    requires forall h <- t'.hosts :: t'.hosts[h].session == t.hosts[h].session
    ensures WithinLimits(t', limit)
  {
    forall u
      ensures |HostsOfUser(t', u)| <= limit(u)
    {
      SubsetSize(HostsOfUser(t', u), HostsOfUser(t, u));
    }
  }

  lemma RegisterKeepsConsistent(t: Table, s: Session, limit: User -> nat)
    requires Consistent(t, limit) && s.id !in t.sessions
    ensures Consistent(Registered(t, s), limit)
  {
    var t' := Registered(t, s);
    FewerRoutesKeepLimits(t, t', limit);
    forall u, x
      ensures x in SessionsOf(t'.byUser, u) <==> x in t'.sessions && t'.sessions[x].user == u
    {
      assert x in SessionsOf(t.byUser, u) <==> x in t.sessions && t.sessions[x].user == u;
    }
  }

  lemma UnregisterKeepsConsistent(t: Table, sid: SessionId, limit: User -> nat)
    requires Consistent(t, limit)
    ensures Consistent(Unregistered(t, sid), limit)
    ensures forall h <- Unregistered(t, sid).hosts :: Unregistered(t, sid).hosts[h].session.id != sid
    ensures forall u :: sid !in SessionsOf(Unregistered(t, sid).byUser, u)
    ensures forall other | other != sid :: RoutesOf(Unregistered(t, sid), other) == RoutesOf(t, other)
  {
    var t' := Unregistered(t, sid);
    FewerRoutesKeepLimits(t, t', limit);
    if sid in t.sessions {
      forall u, x
        ensures x in SessionsOf(t'.byUser, u) <==> x in SessionsOf(t.byUser, u) && x != sid
      {
        assert x in SessionsOf(t.byUser, u) <==> x in t.sessions && t.sessions[x].user == u;
      }
    }
    forall other | other != sid
      ensures RoutesOf(t', other) == RoutesOf(t, other)
    {
    }
  }

  lemma HostsAfterOpening(t: Table, key: Host, tunnel: Tunnel, u: User)
    requires key !in t.hosts
    ensures HostsOfUser(t.(hosts := t.hosts[key := tunnel]), u) ==
      HostsOfUser(t, u) + if u == tunnel.session.user then {key} else {}
  {
  }

  lemma OpenKeepsLimits(t: Table, host: Host, tunnel: Tunnel, limit: User -> nat)
    requires WithinLimits(t, limit)
    ensures WithinLimits(AfterOpen(t, host, tunnel, limit(tunnel.session.user)), limit)
  {
    var t' := AfterOpen(t, host, tunnel, limit(tunnel.session.user));
    if OpenOutcome(t, host, tunnel, limit(tunnel.session.user)) == Opened {
      forall u
        ensures |HostsOfUser(t', u)| <= limit(u)
      {
        HostsAfterOpening(t, Lower(host), tunnel, u);
      }
    }
  }

  lemma OpenKeepsConsistent(t: Table, host: Host, tunnel: Tunnel, limit: User -> nat)
    requires Consistent(t, limit)
    requires tunnel.session.id in t.sessions && t.sessions[tunnel.session.id] == tunnel.session
    ensures Consistent(AfterOpen(t, host, tunnel, limit(tunnel.session.user)), limit)
  {
    OpenKeepsLimits(t, host, tunnel, limit);
    LowerTwice(host);
  }

  lemma CloseKeepsConsistent(t: Table, found: Option<Host>, limit: User -> nat)
    requires Consistent(t, limit)
    ensures Consistent(Closed(t, found), limit)
  {
    FewerRoutesKeepLimits(t, Closed(t, found), limit);
  }

  lemma SetPortKeepsConsistent(t: Table, host: Host, port: Port, limit: User -> nat)
    requires Consistent(t, limit)
    ensures Consistent(WithPort(t, host, port), limit)
  {
    FewerRoutesKeepLimits(t, WithPort(t, host, port), limit);
  }

  /**
   * A lookup always leads to a live session. Opening makes the tunnel the answer for every spelling of its host
   * and for no other; ending a session takes away exactly the answers that led to it.
   */
  lemma LookupsFollow(t: Table, host: Host, tunnel: Tunnel, sid: SessionId, asked: Host, limit: User -> nat)
    requires Consistent(t, limit)
    ensures var found := LookedUp(t, asked);
      && (found.Some? ==> found.value.session.id in t.sessions && t.sessions[found.value.session.id] == found.value.session)
      && LookedUp(AfterOpen(t, host, tunnel, limit(tunnel.session.user)), asked) ==
           (if Lower(asked) == Lower(host) && OpenOutcome(t, host, tunnel, limit(tunnel.session.user)) == Opened
            then Some(tunnel) else found)
      && LookedUp(Unregistered(t, sid), asked) ==
           (if found.Some? && found.value.session.id == sid then None else found)
  {
    var t' := Unregistered(t, sid);
    if sid in t.sessions && Lower(asked) in t'.hosts {
      assert t'.hosts[Lower(asked)] == t.hosts[Lower(asked)];
    }
  }

  /** The registry object: one lock around the table, a session counter, and the sessions' cancel switches. */
  class Registry {
    var sessions: map<SessionId, Session>
    var hosts: map<Host, Tunnel>
    var byUser: map<User, set<SessionId>>
    var nextSession: nat
    /** Sessions whose cancel token has fired. */
    var cancelled: set<SessionId>

    ghost function View(): Table
      reads this
    {
      Table(sessions, hosts, byUser)
    }

    constructor ()
      ensures View() == EMPTY && nextSession == 1 && cancelled == {}
    {
      sessions, hosts, byUser := map[], map[], map[];
      nextSession := 1;
      cancelled := {};
    }

    method NewSessionId() returns (id: SessionId)
      modifies this`nextSession
      ensures id == old(nextSession) && nextSession == old(nextSession) + 1
    {
      id := nextSession;
      nextSession := nextSession + 1;
    }

    method Register(s: Session)
      modifies this`sessions, this`byUser
      ensures View() == Registered(old(View()), s)
    {
      if s.user !in byUser {
        byUser := byUser[s.user := {}];
      }
      byUser := byUser[s.user := byUser[s.user] + {s.id}];
      sessions := sessions[s.id := s];
    }

    method Unregister(sid: SessionId)
      modifies this`sessions, this`hosts, this`byUser
      ensures View() == Unregistered(old(View()), sid)
    {
      if sid in sessions {
        var user := sessions[sid].user;
        sessions := sessions - {sid};
        if user in byUser {
          var ids := byUser[user] - {sid};
          byUser := byUser[user := ids];
          if ids == {} {
            byUser := byUser - {user};
          }
        }
        hosts := map h | h in hosts && hosts[h].session.id != sid :: hosts[h];
      }
    }

    method OpenTunnel(host: Host, tunnel: Tunnel, limit: nat) returns (r: Outcome)
      modifies this`hosts
      ensures r == OpenOutcome(old(View()), host, tunnel, limit)
      ensures View() == AfterOpen(old(View()), host, tunnel, limit)
    {
      var key := Lower(host);
      if key in hosts {
        return Taken;
      }
      var used := |set h | h in hosts && hosts[h].session.user == tunnel.session.user|;
      if used >= limit {
        return LimitReached;
      }
      hosts := hosts[key := tunnel];
      r := Opened;
    }

    method CloseTunnel(sid: SessionId, tid: TunnelId) returns (r: Option<Host>)
      modifies this`hosts
      ensures IsMatch(old(View()), sid, tid, r)
      ensures View() == Closed(old(View()), r)
    {
      var found := set h | h in hosts && hosts[h].session.id == sid && hosts[h].tunnelId == tid;
      if found == {} {
        return None;
      }
      var h :| h in found;
      hosts := hosts - {h};
      r := Some(h);
    }

    method SetTcpPort(host: Host, port: Port)
      modifies this`hosts
      ensures View() == WithPort(old(View()), host, port)
    {
      var key := Lower(host);
      if key in hosts {
        hosts := hosts[key := hosts[key].(tcpPort := Some(port))];
      }
    }

    method TcpPortOf(sid: SessionId, tid: TunnelId) returns (r: Option<Port>)
      ensures exists found :: IsMatch(View(), sid, tid, found) && r == PortOn(View(), found)
    {
      var matching := set h | h in hosts && hosts[h].session.id == sid && hosts[h].tunnelId == tid;
      if matching == {} {
        assert IsMatch(View(), sid, tid, None);
        return None;
      }
      var h :| h in matching;
      assert IsMatch(View(), sid, tid, Some(h));
      r := hosts[h].tcpPort;
    }

    method TcpPortsOfSession(sid: SessionId) returns (ports: seq<Port>)
      ensures exists listed ::
        Lists(View(), sid, listed) && AllHoldPorts(View(), listed) && ports == PortsAt(View(), listed)
    {
      ghost var t := View();
      ghost var listed := [];
      ports := [];
      var rest := set h | h in hosts && hosts[h].session.id == sid && hosts[h].tcpPort.Some?;
      while rest != {}
        invariant rest <= HostsWithPort(t, sid)
        invariant Distinct(listed) && Elements(listed) == HostsWithPort(t, sid) - rest
        invariant AllHoldPorts(t, listed) && ports == PortsAt(t, listed)
        decreases |rest|
      {
        var h :| h in rest;
        ListOneMore(t, sid, listed, rest, h);
        ports, listed := ports + [hosts[h].tcpPort.value], listed + [h];
        rest := rest - {h};
      }
      assert View() == t;
      assert Lists(View(), sid, listed) && AllHoldPorts(View(), listed) && ports == PortsAt(View(), listed);
    }

    method Lookup(host: Host) returns (r: Option<Tunnel>)
      ensures r == LookedUp(View(), host)
    {
      var key := Lower(host);
      r := if key in hosts then Some(hosts[key]) else None;
    }

    /** Fires the cancel switch of every live session of `user` and counts them. */
    method KickUser(user: User) returns (kicked: nat)
      requires IndexIsGrouping(View())
      modifies this`cancelled
      ensures forall sid :: sid in cancelled <==>
        sid in old(cancelled) || (sid in sessions && sessions[sid].user == user)
      ensures kicked == |set sid | sid in sessions && sessions[sid].user == user|
    {
      kicked := 0;
      if user !in byUser {
        assert forall sid :: sid !in SessionsOf(byUser, user);
        assert (set sid | sid in sessions && sessions[sid].user == user) == {};
        return;
      }
      var rest := byUser[user];
      while rest != {}
        invariant rest <= byUser[user]
        invariant cancelled == old(cancelled) + (byUser[user] - rest)
        invariant kicked == |byUser[user] - rest|
        decreases |rest|
      {
        var sid :| sid in rest;
        assert sid in SessionsOf(byUser, user);
        if sid in sessions {
          assert byUser[user] - (rest - {sid}) == (byUser[user] - rest) + {sid};
          cancelled := cancelled + {sid};
          kicked := kicked + 1;
        }
        rest := rest - {sid};
      }
      assert byUser[user] - rest == byUser[user];
      assert forall sid :: sid in SessionsOf(byUser, user) <==> sid in sessions && sessions[sid].user == user;
      assert (set sid | sid in sessions && sessions[sid].user == user) == byUser[user];
    }
  }
}
