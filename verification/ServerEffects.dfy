/** What each server step does to the acting session's own routes. */
module ServerEffects {
  import opened Basics
  import opened Registry
  import opened ControlMessages
  import opened ServerMachine
  import opened ServerOwnership

  /** The route an open request would add, or nothing when it is turned down. */
  ghost function Admitted(cfg: Config, s: Server, sid: SessionId, msg: ClientMsg, check: DomainCheck): Option<Host>
    requires sid in s.tasks && msg.OpenTunnel?
  {
    var session := s.tasks[sid].session;
    match Decide(cfg, session.user, msg, check)
    case Reject(_) => None
    case Route(host) =>
      if OpenOutcome(s.table, host, TunnelFor(session, msg), cfg.limit(session.user)) == Opened then Some(host) else None
  }

  ghost function RoutesAfter(cfg: Config, s: Server, sid: SessionId, ev: Event): Routes
    requires Enabled(s, sid, ev) && !ev.Login? && LocalAt(s, sid)
  {
    var routes, pc := RoutesOf(s.table, sid), s.tasks[sid].pc;
    match ev
    case Receive(msg, check) =>
      if msg.OpenTunnel? && Admitted(cfg, s, sid, msg, check).Some?
      then routes[Lower(Admitted(cfg, s, sid, msg, check).value) := TunnelFor(s.tasks[sid].session, msg)]
      else routes
    case Record => routes[pc.host := routes[pc.host].(tcpPort := Some(pc.port))]
    case GiveBack(found) => if found.Some? then routes - {found.value} else routes
    case Drop(found) => if found.Some? then routes - {found.value} else routes
    case Unregister => map[]
    case _ => routes
  }

  lemma ReceiveEffect(cfg: Config, s: Server, sid: SessionId, msg: ClientMsg, check: DomainCheck)
    requires Ready(s, sid) && s.tasks[sid].pc.Idle?
    ensures RoutesOf(Step(cfg, s, sid, Receive(msg, check)).table, sid) == RoutesAfter(cfg, s, sid, Receive(msg, check))
  {
    if msg.OpenTunnel? {
      var session := s.tasks[sid].session;
      match Decide(cfg, session.user, msg, check)
      case Reject(_) =>
      case Route(host) =>
        var tunnel := TunnelFor(session, msg);
        if OpenOutcome(s.table, host, tunnel, cfg.limit(session.user)) == Opened {
          OpenProjects(s.table, host, tunnel, cfg.limit(session.user));
        }
    }
  }

  lemma RemoveEffect(cfg: Config, s: Server, sid: SessionId, ev: Event)
    requires Ready(s, sid) && Enabled(s, sid, ev) && (ev.GiveBack? || ev.Drop?)
    ensures RoutesOf(Step(cfg, s, sid, ev).table, sid) == RoutesAfter(cfg, s, sid, ev)
  {
    if ev.found.Some? {
      CloseProjects(s.table, sid, ev.found.value);
    }
  }

  lemma RouteEffect(cfg: Config, s: Server, sid: SessionId, ev: Event)
    requires Enabled(s, sid, ev) && !ev.Login? && Ready(s, sid)
    ensures RoutesOf(Step(cfg, s, sid, ev).table, sid) == RoutesAfter(cfg, s, sid, ev)
  {
    match ev {
      case Receive(msg, check) => ReceiveEffect(cfg, s, sid, msg, check);
      case Record => SetPortProjects(s.table, sid, s.tasks[sid].pc.host, s.tasks[sid].pc.port);
      case GiveBack(_) => RemoveEffect(cfg, s, sid, ev);
      case Drop(_) => RemoveEffect(cfg, s, sid, ev);
      case Unregister => UnregisterProjects(s.table, sid);
      case Enter =>
        assert RoutesOf(Registered(s.table, s.tasks[sid].session), sid) == RoutesOf(s.table, sid);
      case _ =>
    }
  }
}
