/**
 * One session's message handling over the registry and the port pool, with nobody else in between
 * (crates/cy-server/src/control.rs, open_tcp_tunnel, the close arm of message_loop and the clean-up after it).
 */
module ServerHandlers {
  import opened Basics
  import opened Registry
  import opened PortPool
  import opened ControlMessages
  import opened ServerMachine
  import opened ServerOwnership
  import Naming

  function LeaseCode(e: LeaseError): Code {
    match e
    case Exhausted => CodePoolExhausted
    case PortTaken => CodePortTaken
    case BindFailed => CodePortTaken
    case OutOfRange => CodePortTaken
  }

  /** What a lease call would come to. */
  ghost predicate Grants(
    lo: Port, hi: Port, leased: map<Port, Lease>, wanted: Option<Port>, binds: set<Port>, port: Port)
  {
    && InRange(lo, hi, port) && port !in leased && port in binds
    && (match wanted
        case Some(w) => w == port
        case None => forall q: Port | lo <= q < port :: q in leased || q !in binds)
  }

  lemma NothingGranted(lo: Port, hi: Port, leased: map<Port, Lease>, wanted: Option<Port>, binds: set<Port>)
    requires match wanted
             case Some(w) => !InRange(lo, hi, w) || w in leased || w !in binds
             case None => forall q: Port | InRange(lo, hi, q) :: q in leased || q !in binds
    ensures forall p: Port :: !Grants(lo, hi, leased, wanted, binds, p)
  {
  }

  /** The session's routes and leases, when its task is between two messages. */
  ghost predicate AtRest(t: Table, pool: Pool, session: Session) {
    && session.id in t.sessions
    && Local(RoutesOf(t, session.id), LeasesOf(pool.leased, session.id), Idle)
  }

  /** The tunnel was added and then one route under its id was dropped. */
  ghost predicate TakenBack(t: Table, host: string, tunnel: Tunnel, after: Table) {
    var added := t.(hosts := t.hosts[Lower(host) := tunnel]);
    exists found ::
      IsMatch(added, tunnel.session.id, tunnel.tunnelId, found) && after == Closed(added, found)
  }

  class Handler {
    const session: Session
    const registry: Registry
    const ports: PortPool
    const suffix: string
    const maxTunnels: nat

    constructor (session: Session, registry: Registry, ports: PortPool, suffix: string, maxTunnels: nat)
      ensures this.session == session && this.registry == registry && this.ports == ports
      ensures this.suffix == suffix && this.maxTunnels == maxTunnels
    {
      this.session, this.registry, this.ports := session, registry, ports;
      this.suffix, this.maxTunnels := suffix, maxTunnels;
    }

    /**
     * All or nothing: on success the route carries a port that was free and could be bound and that is leased
     * for this route. On failure no port stays leased and one route under the id is taken back, which is the
     * one just added, and so nothing changes, if the id was not in use; the code says why.
     */
    method OpenTcpTunnel(msg: ClientMsg, binds: set<Port>) returns (reply: ServerMsg)
      requires msg.OpenTunnel? && msg.kind == Tcp
      modifies registry, ports
      ensures reply.TunnelOpened? || reply.Failure?
      ensures reply.TunnelOpened? ==>
        var key := Lower(Naming.HostFor(session.user, msg.name, suffix));
        && reply.id == msg.id && reply.public.Addr?
        && Grants(ports.lo, ports.hi, old(ports.leased), msg.remotePort, binds, reply.public.port)
        && key !in old(registry.hosts)
        && registry.View() == old(registry.View()).(hosts :=
             old(registry.hosts)[key :=
               Tunnel(session, msg.id, msg.name, Tcp, msg.auth, Some(reply.public.port))])
        && reply.public.port in ports.leased
        && ports.leased == old(ports.leased)[reply.public.port := ports.leased[reply.public.port]]
        && ports.leased[reply.public.port].session == session.id
        && ports.leased[reply.public.port].tunnelId == msg.id
        && ports.leased[reply.public.port].host == key
      ensures reply.Failure? ==>
        && reply.subject == Some(msg.id) && ports.leased == old(ports.leased)
        && (registry.View() == old(registry.View())
            || TakenBack(old(registry.View()), Naming.HostFor(session.user, msg.name, suffix),
                         TunnelFor(session, msg), registry.View()))
        && (Matches(old(registry.View()), session.id, msg.id) == {} ==> registry.View() == old(registry.View()))
      ensures ports.cancelled == old(ports.cancelled)
      ensures
        var host := Naming.HostFor(session.user, msg.name, suffix);
        var o := OpenOutcome(old(registry.View()), host, TunnelFor(session, msg), maxTunnels);
        && (o == Taken ==> reply == Failure(CodeTaken, Some(msg.id)))
        && (o == LimitReached ==> reply == Failure(CodeLimit, Some(msg.id)))
        && (o == Opened ==>
              (reply.TunnelOpened? <==> exists p: Port :: Grants(ports.lo, ports.hi, old(ports.leased), msg.remotePort, binds, p))
              && (reply.Failure? ==> reply.code == if msg.remotePort.Some? then CodePortTaken else CodePoolExhausted)
              && reply == LeaseReply(LeaseAnswer(ports.lo, ports.hi, old(ports.leased), msg.remotePort, binds), msg.id))
    {
      var host := Naming.HostFor(session.user, msg.name, suffix);
      var tunnel := TunnelFor(session, msg);
      ghost var before := registry.View();
      var outcome := registry.OpenTunnel(host, tunnel, maxTunnels);
      if outcome == Taken {
        return Failure(CodeTaken, Some(msg.id));
      }
      if outcome == LimitReached {
        return Failure(CodeLimit, Some(msg.id));
      }
      var leased := ports.LeasePort(msg.remotePort, session.id, msg.id, Lower(host), binds);
      match leased
      case Ok(port) =>
        assert Grants(ports.lo, ports.hi, old(ports.leased), msg.remotePort, binds, port);
        registry.SetTcpPort(host, port);
        reply := TunnelOpened(msg.id, Addr(port));
      case Err(e) =>
        assert msg.remotePort == None ==> e == Exhausted;
        assert e == OutOfRange || e == PortTaken || e == BindFailed || e == Exhausted;
        NothingGranted(ports.lo, ports.hi, old(ports.leased), msg.remotePort, binds);
        var found := registry.CloseTunnel(session.id, msg.id);
        if Matches(before, session.id, msg.id) == {} {
          OnlyTheNewOne(before, Lower(host), tunnel);
          assert found == Some(Lower(host));
          assert registry.hosts == before.hosts;
        }
        reply := Failure(LeaseCode(e), Some(msg.id));
    }

    /**
     * A route under the id goes, and the port of a route under the id is freed with its accept loop told to
     * stop; nothing else changes. With one route under the id at most, it is the same route.
     */
    method CloseTunnel(tid: TunnelId) returns (found: Option<Host>)
      modifies registry, ports
      ensures IsMatch(old(registry.View()), session.id, tid, found)
      ensures registry.View() == Closed(old(registry.View()), found)
      ensures exists looked ::
        && IsMatch(old(registry.View()), session.id, tid, looked)
        && ports.View() == FreedAt(old(ports.View()), PortOn(old(registry.View()), looked))
      ensures UniqueIds(RoutesOf(old(registry.View()), session.id)) ==>
        ports.View() == FreedAt(old(ports.View()), PortOn(old(registry.View()), found))
    {
      ghost var t := registry.View();
      var port := registry.TcpPortOf(session.id, tid);
      ghost var at :| IsMatch(t, session.id, tid, at) && port == PortOn(t, at);
      if port.Some? {
        ports.Release(port.value);
      }
      found := registry.CloseTunnel(session.id, tid);
      if UniqueIds(RoutesOf(t, session.id)) {
        SameMatch(t, session.id, tid, at, found);
      }
    }

    /**
     * The session's clean-up: the ports its routes record first, then the registration. Between two messages
     * those are the session's leases, so that nothing is left behind and nobody else loses one.
     */
    method CleanUp()
      modifies registry, ports
      ensures registry.View() == Unregistered(old(registry.View()), session.id)
      ensures ports.leased == old(ports.leased) - RoutePorts(old(registry.View()), session.id)
      ensures ports.cancelled ==
        old(ports.cancelled) + TokensAt(old(ports.leased), RoutePorts(old(registry.View()), session.id))
      ensures old(AtRest(registry.View(), ports.View(), session)) ==>
        && LeasesOf(ports.leased, session.id) == map[]
        && (forall other | other != session.id :: LeasesOf(ports.leased, other) == LeasesOf(old(ports.leased), other))
        && RoutePorts(old(registry.View()), session.id) == LeasesOf(old(ports.leased), session.id).Keys
    {
      ghost var t, pool := registry.View(), ports.View();
      var listed := registry.TcpPortsOfSession(session.id);
      ghost var hosts :| Lists(t, session.id, hosts) && AllHoldPorts(t, hosts) && listed == PortsAt(t, hosts);
      ListedAreRoutePorts(t, session.id, hosts, listed);
      FreePorts(listed);
      registry.Unregister(session.id);
      if AtRest(t, pool, session) {
        ListedAreLeased(t, pool, session, hosts, listed);
        OwnLeasesGone(pool.leased, session.id, RoutePorts(t, session.id));
      }
    }

    method FreePorts(listed: seq<Port>)
      modifies ports
      ensures ports.leased == old(ports.leased) - Elements(listed)
      ensures ports.cancelled == old(ports.cancelled) + TokensAt(old(ports.leased), Elements(listed))
    {
      for i := 0 to |listed|
        invariant ports.leased == old(ports.leased) - Elements(listed[..i])
        invariant ports.cancelled == old(ports.cancelled) + TokensAt(old(ports.leased), Elements(listed[..i]))
      {
        assert listed[..i + 1] == listed[..i] + [listed[i]];
        assert Elements(listed[..i + 1]) == Elements(listed[..i]) + {listed[i]};
        ports.Release(listed[i]);
      }
      assert listed[..|listed|] == listed;
    }
  }

  function FreedAt(pool: Pool, port: Option<Port>): Pool {
    if port.Some? then Released(pool, port.value) else pool
  }

  /** The ports recorded on the session's routes. */
  ghost function RoutePorts(t: Table, sid: SessionId): set<Port> {
    set h | h in HostsWithPort(t, sid) :: t.hosts[h].tcpPort.value
  }

  ghost function TokensAt(leased: map<Port, Lease>, freed: set<Port>): set<Token> {
    set p | p in freed && p in leased :: leased[p].token
  }

  lemma ListedAreRoutePorts(t: Table, sid: SessionId, hosts: seq<Host>, listed: seq<Port>)
    requires Lists(t, sid, hosts) && AllHoldPorts(t, hosts) && listed == PortsAt(t, hosts)
    ensures Elements(listed) == RoutePorts(t, sid)
  {
    forall p
      ensures p in listed <==> p in RoutePorts(t, sid)
    {
      if p in listed {
        var i :| 0 <= i < |listed| && listed[i] == p;
        assert hosts[i] in Elements(hosts);
      }
      if p in RoutePorts(t, sid) {
        var h :| h in HostsWithPort(t, sid) && t.hosts[h].tcpPort.value == p;
        assert h in Elements(hosts);
        var i :| 0 <= i < |hosts| && hosts[i] == h;
        assert listed[i] == p;
      }
    }
  }

  lemma OwnLeasesGone(leased: map<Port, Lease>, sid: SessionId, freed: set<Port>)
    requires freed == LeasesOf(leased, sid).Keys
    ensures LeasesOf(leased - freed, sid) == map[]
    ensures forall other | other != sid :: LeasesOf(leased - freed, other) == LeasesOf(leased, other)
  {
  }

  /** Right after the name was taken, the new route is the only one under its id. */
  lemma OnlyTheNewOne(t: Table, key: Host, tunnel: Tunnel)
    requires Matches(t, tunnel.session.id, tunnel.tunnelId) == {}
    ensures Matches(t.(hosts := t.hosts[key := tunnel]), tunnel.session.id, tunnel.tunnelId) == {key}
  {
    forall h <- t.hosts
      ensures !(t.hosts[h].session.id == tunnel.session.id && t.hosts[h].tunnelId == tunnel.tunnelId)
    {
      assert h !in Matches(t, tunnel.session.id, tunnel.tunnelId);
    }
  }

  lemma SameMatch(t: Table, sid: SessionId, tid: TunnelId, a: Option<Host>, b: Option<Host>)
    requires UniqueIds(RoutesOf(t, sid)) && IsMatch(t, sid, tid, a) && IsMatch(t, sid, tid, b)
    ensures a == b
  {
    var routes := RoutesOf(t, sid);
    if a.Some? && b.Some? {
      assert a.value in routes && b.value in routes;
      assert routes[a.value].tunnelId == routes[b.value].tunnelId;
    }
  }

  /** Between messages, the ports recorded on the session's routes are exactly the ports it leases, each once. */
  lemma ListedAreLeased(t: Table, pool: Pool, session: Session, hosts: seq<Host>, ports: seq<Port>)
    requires AtRest(t, pool, session) && Lists(t, session.id, hosts)
    requires AllHoldPorts(t, hosts) && ports == PortsAt(t, hosts)
    ensures Distinct(ports) && Elements(ports) == LeasesOf(pool.leased, session.id).Keys
  {
    var routes, mine := RoutesOf(t, session.id), LeasesOf(pool.leased, session.id);
    forall i | 0 <= i < |hosts|
      ensures hosts[i] in routes && ports[i] in mine && mine[ports[i]].host == hosts[i]
    {
      assert hosts[i] in Elements(hosts);
      assert StillHeld(Idle, routes[hosts[i]]);
    }
    forall p <- mine
      ensures p in ports
    {
      assert mine[p].host in HostsWithPort(t, session.id);
      assert mine[p].host in Elements(hosts);
      var i :| 0 <= i < |hosts| && hosts[i] == mine[p].host;
      assert ports[i] == p;
    }
  }

  /** Closing what was just opened puts both tables back. */
  lemma CloseUndoesOpen(t: Table, pool: Pool, key: Host, tunnel: Tunnel, port: Port, lease: Lease, found: Option<Host>)
    requires Matches(t, tunnel.session.id, tunnel.tunnelId) == {} && key !in t.hosts && port !in pool.leased
    requires tunnel.tcpPort == Some(port)
    requires IsMatch(t.(hosts := t.hosts[key := tunnel]), tunnel.session.id, tunnel.tunnelId, found)
    ensures found == Some(key)
    ensures Closed(t.(hosts := t.hosts[key := tunnel]), found) == t
    ensures Released(pool.(leased := pool.leased[port := lease]), port).leased == pool.leased
    ensures Released(pool.(leased := pool.leased[port := lease]), port).cancelled == pool.cancelled + {lease.token}
  {
    OnlyTheNewOne(t, key, tunnel);
    assert t.hosts[key := tunnel] - {key} == t.hosts;
    assert pool.leased[port := lease] - {port} == pool.leased;
  }

  /** What the client is told about a lease. */
  function LeaseReply(answer: Result<Port, LeaseError>, id: TunnelId): ServerMsg {
    match answer
    case Ok(port) => TunnelOpened(id, Addr(port))
    case Err(e) => Failure(LeaseCode(e), Some(id))
  }

  /** The client too sees a request for port 0 treated as one for any port under exactly that condition. */
  lemma ZeroIsAnsweredAlike(lo: Port, hi: Port, leased: map<Port, Lease>, binds: set<Port>, id: TunnelId)
    ensures LeaseReply(LeaseAnswer(lo, hi, leased, Some(0), binds), id)
        == LeaseReply(LeaseAnswer(lo, hi, leased, None, binds), id)
      <==> lo == 0 && 0 !in leased && 0 in binds
  {
    ZeroIsNotAnyPort(lo, hi, leased, binds);
  }
}
