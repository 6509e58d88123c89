/**
 * The server as an interleaving of session tasks over two separately locked tables
 * (crates/cy-server/src/control.rs, registry.rs, ingress_tcp.rs). One step is one lock section of one task.
 */
module ServerMachine {
  import opened Basics
  import opened Registry
  import opened PortPool
  import opened ControlMessages
  import Naming

  datatype Config = Config(lo: Port, hi: Port, suffix: string, limit: User -> nat)

  /** Where a session task stands between two lock sections. */
  datatype Pc =
    | Fresh                                     // authenticated, id taken, not registered yet
    | Idle                                      // in the message loop
    | Placing(tid: TunnelId, host: Host, wanted: bool, candidates: seq<Port>)
    | Binding(tid: TunnelId, host: Host, wanted: bool, port: Port, rest: seq<Port>)
    | Bound(tid: TunnelId, host: Host, port: Port)
    | Leased(tid: TunnelId, host: Host, port: Port)
    | Refused(tid: TunnelId, host: Host, code: Code)
    | Closing(tid: TunnelId)
    | Freeing(tid: TunnelId, toFree: Option<Port>)
    | Dropping(tid: TunnelId)
    | Leaving                                   // message loop over, clean-up about to start
    | Returning(ports: seq<Port>)
    | Gone
    | Crashed                                   // the lookup of the just-inserted token failed

  datatype Task = Task(session: Session, pc: Pc)

  /** An accept loop on a public port; it runs until its lease's token is cancelled. */
  datatype Listener = Listener(port: Port, lease: Lease)

  datatype Server = Server(
    table: Table,
    pool: Pool,
    tasks: map<SessionId, Task>,
    listeners: set<Listener>,
    nextSession: nat)

  const INITIAL := Server(EMPTY, Pool(map[], 0, {}), map[], {}, 1)

  /** What the store answers about the owner of a custom domain. */
  datatype DomainCheck = OwnedByCaller | NotOwned | StoreFailed

  datatype Event =
    | Login(user: User)
    | Enter
    | Receive(msg: ClientMsg, check: DomainCheck)
    | Beat(seqno: nat)
    | TryNext
    | Bind(ok: bool)
    | Spawn
    | Record
    | GiveBack(found: Option<Host>)
    | LookUpPort(found: Option<Host>)
    | Free
    | Drop(found: Option<Host>)
    | Leave(kicked: bool)
    | ListPorts(hosts: seq<Host>)
    | Return
    | Unregister

  ghost predicate Enabled(s: Server, sid: SessionId, ev: Event) {
    if ev.Login? then sid == s.nextSession && sid !in s.tasks
    else
      && sid in s.tasks
      && var pc := s.tasks[sid].pc;
         match ev
         case Enter => pc.Fresh?
         case Receive(_, _) => pc.Idle?
         case Beat(_) => pc.Idle?
         case TryNext => pc.Placing?
         case Bind(_) => pc.Binding?
         case Spawn => pc.Bound?
         case Record => pc.Leased?
         case GiveBack(found) => pc.Refused? && IsMatch(s.table, sid, pc.tid, found)
         case LookUpPort(found) => pc.Closing? && IsMatch(s.table, sid, pc.tid, found)
         case Free => pc.Freeing?
         case Drop(found) => pc.Dropping? && IsMatch(s.table, sid, pc.tid, found)
         case Leave(_) => pc.Idle?
         case ListPorts(hosts) => pc.Leaving? && Lists(s.table, sid, hosts) && AllHoldPorts(s.table, hosts)
         case Return => pc.Returning? && pc.ports != []
         case Unregister => pc.Returning? && pc.ports == []
  }

  function At(s: Server, sid: SessionId, pc: Pc): Server
    requires sid in s.tasks
  {
    s.(tasks := s.tasks[sid := s.tasks[sid].(pc := pc)])
  }

  // ---- an open request, as far as the checks before the registry go ----

  datatype Decision = Reject(code: Code) | Route(host: Host)

  function Decide(cfg: Config, user: User, msg: ClientMsg, check: DomainCheck): Decision
    requires msg.OpenTunnel?
  {
    if Naming.ValidateName(msg.name) != None then Reject(CodeNameInvalid)
    else if msg.kind == Tcp || msg.customDomain == None then Route(Naming.HostFor(user, msg.name, cfg.suffix))
    else match check
         case OwnedByCaller => Route(Lower(msg.customDomain.value))
         case NotOwned => Reject(CodeTaken)
         case StoreFailed => Reject(CodeInternal)
  }

  function TunnelFor(session: Session, msg: ClientMsg): Tunnel
    requires msg.OpenTunnel?
  {
    Tunnel(session, msg.id, msg.name, msg.kind, msg.auth, None)
  }

  function OutcomeCode(o: Outcome): Code
    requires !o.Opened?
  {
    if o.Taken? then CodeTaken else CodeLimit
  }

  function AfterRoute(cfg: Config, msg: ClientMsg, host: Host): Pc
    requires msg.OpenTunnel?
  {
    if msg.kind == Http then Idle
    else match Candidates(cfg.lo, cfg.hi, msg.remotePort)
         case Ok(cs) => Placing(msg.id, Lower(host), msg.remotePort.Some?, cs)
         case Err(_) => Refused(msg.id, Lower(host), CodePortTaken)
  }

  function OpenAsked(cfg: Config, s: Server, sid: SessionId, msg: ClientMsg, check: DomainCheck): Server
    requires sid in s.tasks && msg.OpenTunnel?
  {
    var session := s.tasks[sid].session;
    match Decide(cfg, session.user, msg, check)
    case Reject(_) => s
    case Route(host) =>
      var tunnel := TunnelFor(session, msg);
      var limit := cfg.limit(session.user);
      if OpenOutcome(s.table, host, tunnel, limit) == Opened
      then At(s.(table := AfterOpen(s.table, host, tunnel, limit)), sid, AfterRoute(cfg, msg, host))
      else s
  }

  /** The reply to an open request that is settled at once; a TCP request that got its name replies later. */
  function OpeningReply(cfg: Config, s: Server, sid: SessionId, msg: ClientMsg, check: DomainCheck): Option<ServerMsg>
    requires sid in s.tasks && msg.OpenTunnel?
  {
    var session := s.tasks[sid].session;
    match Decide(cfg, session.user, msg, check)
    case Reject(code) => Some(Failure(code, Some(msg.id)))
    case Route(host) =>
      var o := OpenOutcome(s.table, host, TunnelFor(session, msg), cfg.limit(session.user));
      if !o.Opened? then Some(Failure(OutcomeCode(o), Some(msg.id)))
      else if msg.kind == Http then Some(TunnelOpened(msg.id, Url(host)))
      else None
  }

  ghost function Step(cfg: Config, s: Server, sid: SessionId, ev: Event): Server
    requires Enabled(s, sid, ev)
  {
    match ev
    case Login(user) => s.(tasks := s.tasks[sid := Task(Session(sid, user), Fresh)], nextSession := sid + 1)
    case Enter => At(s.(table := Registered(s.table, s.tasks[sid].session)), sid, Idle)
    case Receive(msg, check) =>
      (match msg
       case OpenTunnel(_, _, _, _, _, _) => OpenAsked(cfg, s, sid, msg, check)
       case CloseTunnel(id) => At(s, sid, Closing(id))
       case Hello => At(s, sid, Leaving)
       case _ => s)
    case Beat(_) => s
    case TryNext =>
      var pc := s.tasks[sid].pc;
      if pc.candidates == [] then At(s, sid, Refused(pc.tid, pc.host, CodePoolExhausted))
      else
        var port, rest := pc.candidates[0], pc.candidates[1..];
        if port !in s.pool.leased then
          At(s.(pool := Placed(s.pool, port, sid, pc.tid, pc.host)), sid, Binding(pc.tid, pc.host, pc.wanted, port, rest))
        else if pc.wanted then At(s, sid, Refused(pc.tid, pc.host, CodePortTaken))
        else At(s, sid, Placing(pc.tid, pc.host, pc.wanted, rest))
    case Bind(ok) =>
      var pc := s.tasks[sid].pc;
      if ok then At(s, sid, Bound(pc.tid, pc.host, pc.port))
      else
        At(s.(pool := Abandoned(s.pool, pc.port)), sid,
           if pc.wanted then Refused(pc.tid, pc.host, CodePortTaken)
           else Placing(pc.tid, pc.host, pc.wanted, pc.rest))
    case Spawn =>
      var pc := s.tasks[sid].pc;
      if pc.port !in s.pool.leased then At(s, sid, Crashed)
      else
        At(s.(listeners := s.listeners + {Listener(pc.port, s.pool.leased[pc.port])}), sid,
           Leased(pc.tid, pc.host, pc.port))
    case Record =>
      var pc := s.tasks[sid].pc;
      At(s.(table := WithPort(s.table, pc.host, pc.port)), sid, Idle)
    case GiveBack(found) => At(s.(table := Closed(s.table, found)), sid, Idle)
    case LookUpPort(found) =>
      At(s, sid, Freeing(s.tasks[sid].pc.tid, if found.Some? then s.table.hosts[found.value].tcpPort else None))
    case Free =>
      var pc := s.tasks[sid].pc;
      At(if pc.toFree.Some? then s.(pool := Released(s.pool, pc.toFree.value)) else s, sid, Dropping(pc.tid))
    case Drop(found) => At(s.(table := Closed(s.table, found)), sid, Idle)
    case Leave(_) => At(s, sid, Leaving)
    case ListPorts(hosts) => At(s, sid, Returning(PortsAt(s.table, hosts)))
    case Return =>
      var ports := s.tasks[sid].pc.ports;
      At(s.(pool := Released(s.pool, ports[0])), sid, Returning(ports[1..]))
    case Unregister => At(s.(table := Unregistered(s.table, sid)), sid, Gone)
  }

  /** What the step puts on the session's outbound queue. */
  ghost function Reply(cfg: Config, s: Server, sid: SessionId, ev: Event): Option<ServerMsg>
    requires Enabled(s, sid, ev)
  {
    match ev
    case Receive(msg, check) =>
      (match msg
       case OpenTunnel(_, _, _, _, _, _) => OpeningReply(cfg, s, sid, msg, check)
       case ClientPing(n) => Some(ServerPong(n))
       case _ => None)
    case Beat(n) => Some(ServerPing(n))
    case Record => Some(TunnelOpened(s.tasks[sid].pc.tid, Addr(s.tasks[sid].pc.port)))
    case GiveBack(_) => Some(Failure(s.tasks[sid].pc.code, Some(s.tasks[sid].pc.tid)))
    case Leave(kicked) => if kicked then Some(Kick) else None
    case _ => None
  }

  // ---- runs ----

  datatype Move = Move(sid: SessionId, ev: Event)

  /** No session asks to open a tunnel under an id it already has a route for. */
  ghost predicate FreshId(s: Server, m: Move) {
    m.ev.Receive? && m.ev.msg.OpenTunnel? ==> Matches(s.table, m.sid, m.ev.msg.id) == {}
  }

  ghost predicate Run(cfg: Config, s: Server, moves: seq<Move>)
    decreases |moves|
  {
    moves == [] || (
      && Enabled(s, moves[0].sid, moves[0].ev)
      && FreshId(s, moves[0])
      && Run(cfg, Step(cfg, s, moves[0].sid, moves[0].ev), moves[1..]))
  }

  ghost function After(cfg: Config, s: Server, moves: seq<Move>): Server
    requires Run(cfg, s, moves)
    decreases |moves|
  {
    if moves == [] then s else After(cfg, Step(cfg, s, moves[0].sid, moves[0].ev), moves[1..])
  }
}
