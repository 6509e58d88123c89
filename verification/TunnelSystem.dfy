/**
 * The whole system: the server with all its session tasks, and for every session the real client's control
 * loop with its two queues. Any of them may move at any time.
 */
module TunnelSystem {
  import opened Basics
  import opened Registry
  import opened ControlMessages
  import opened ControlLoop
  import opened ServerMachine
  import opened ServerOwnership
  import opened ServerEffects
  import opened TunnelProtocol

  datatype Sys = Sys(server: Server, conns: map<SessionId, Conn>)

  const START := Sys(INITIAL, map[])

  datatype ClientAct =
    | Call(spec: Spec)
    | CallClose(name: string)
    | TakeCommand
    | TakeMessage
    | Stop                             // cancelled, stream ended or broken, or the handle was dropped
    | Break(keepUp: nat, keepDown: nat)

  datatype Act =
    | Serve(ev: Event)                 // a server lock section other than reading a message
    | Deliver(check: DomainCheck)      // the server reads the next message
    | Client(act: ClientAct)

  predicate CanAct(c: Conn, a: ClientAct) {
    match a
    case Call(_) => !c.loop.running || |c.calls.commands| < COMMAND_QUEUE
    case CallClose(_) => !c.loop.running || |c.calls.commands| < COMMAND_QUEUE
    case TakeCommand => c.loop.running && c.calls.commands != []
    case TakeMessage => c.loop.running && c.loop.down != []
    case Stop => c.loop.running
    case Break(keepUp, keepDown) => keepUp <= |c.loop.up| && keepDown <= |c.loop.down|
  }

  ghost predicate Can(x: Sys, sid: SessionId, a: Act) {
    match a
    case Serve(ev) => !ev.Receive? && Enabled(x.server, sid, ev) && (ev.Login? || ev.Enter? || sid in x.conns)
    case Deliver(check) =>
      sid in x.conns && x.conns[sid].loop.up != [] && Enabled(x.server, sid, Receive(x.conns[sid].loop.up[0], check))
    case Client(act) => sid in x.conns && CanAct(x.conns[sid], act)
  }

  /** The event a server-side act amounts to. */
  ghost function EventOf(x: Sys, sid: SessionId, a: Act): Event
    requires Can(x, sid, a) && !a.Client?
  {
    if a.Serve? then a.ev else Receive(x.conns[sid].loop.up[0], a.check)
  }

  /** The messages a session's queues show after one server event. */
  ghost function LoopAfter(cfg: Config, s: Server, sid: SessionId, ev: Event, l: Loop): Loop
    requires Enabled(s, sid, ev) && (ev.Receive? ==> l.up != [])
  {
    Delivered(if ev.Receive? then Popped(l) else l, Reply(cfg, s, sid, ev))
  }

  ghost function ServerDo(cfg: Config, x: Sys, sid: SessionId, a: Act): Sys
    requires Can(x, sid, a) && !a.Client?
  {
    var ev := EventOf(x, sid, a);
    var server := Step(cfg, x.server, sid, ev);
    if ev.Login? then Sys(server, x.conns)
    else if ev.Enter? then Sys(server, x.conns[sid := NEW_CONN])
    else
      var c := x.conns[sid];
      Sys(server, x.conns[sid := c.(loop := LoopAfter(cfg, x.server, sid, ev, c.loop))])
  }

  function ClientDo(c: Conn, a: ClientAct): Conn
    requires CanAct(c, a)
  {
    match a
    case Call(spec) => Submitted(c, spec)
    case CallClose(name) => SubmittedClose(c, name)
    case TakeCommand => AfterCommand(c)
    case TakeMessage => AfterMessage(c)
    case Stop => Stopped(c)
    case Break(keepUp, keepDown) => c.(loop := Broken(c.loop, keepUp, keepDown))
  }

  ghost function Do(cfg: Config, x: Sys, sid: SessionId, a: Act): Sys
    requires Can(x, sid, a)
  {
    if a.Client? then x.(conns := x.conns[sid := ClientDo(x.conns[sid], a.act)]) else ServerDo(cfg, x, sid, a)
  }

  datatype Turn = Turn(sid: SessionId, act: Act)

  ghost predicate History(cfg: Config, x: Sys, turns: seq<Turn>)
    decreases |turns|
  {
    turns == [] ||
    (Can(x, turns[0].sid, turns[0].act) && History(cfg, Do(cfg, x, turns[0].sid, turns[0].act), turns[1..]))
  }

  ghost function Final(cfg: Config, x: Sys, turns: seq<Turn>): Sys
    requires History(cfg, x, turns)
    decreases |turns|
  {
    if turns == [] then x else Final(cfg, Do(cfg, x, turns[0].sid, turns[0].act), turns[1..])
  }

  // ---- tickets: every call is waiting in exactly one place, or answered ----

  ghost predicate Ticketed(c: Conn) {
    var waiting, queued := PendingTickets(c.loop.pending), QueuedTickets(c.calls.commands);
    && (forall t: nat :: t < c.calls.nextTicket <==> t in c.calls.answers || t in waiting || t in queued)
    && (forall t <- c.calls.answers :: t !in waiting && t !in queued)
    && (forall t <- waiting :: t !in queued)
    && (forall i, j | i in c.loop.pending && j in c.loop.pending ::
          c.loop.pending[i].ticket == c.loop.pending[j].ticket ==> i == j)
    && (forall i, j | 0 <= i < j < |c.calls.commands| && c.calls.commands[i].Open? && c.calls.commands[j].Open? ::
          c.calls.commands[i].ticket != c.calls.commands[j].ticket)
    && (!c.loop.running ==> c.calls.commands == [])
  }

  lemma QueuedAppend(commands: seq<Command>, k: Command)
    ensures QueuedTickets(commands + [k]) == QueuedTickets(commands) + (if k.Open? then {k.ticket} else {})
  {
  }

  lemma QueuedHead(commands: seq<Command>)
    requires commands != []
    requires forall i, j | 0 <= i < j < |commands| && commands[i].Open? && commands[j].Open? ::
      commands[i].ticket != commands[j].ticket
    ensures QueuedTickets(commands[1..]) == QueuedTickets(commands) - (if commands[0].Open? then {commands[0].ticket} else {})
  {
    var rest := commands[1..];
    assert forall k <- commands :: k == commands[0] || k in rest;
    forall k <- rest
      ensures k in commands && (k.Open? && commands[0].Open? ==> k.ticket != commands[0].ticket)
    {
      var i :| 0 <= i < |rest| && rest[i] == k;
      assert commands[i + 1] == k;
    }
  }

  lemma PendingWithout(pending: map<TunnelId, Pending>, id: TunnelId)
    requires id in pending
    requires forall i, j | i in pending && j in pending :: pending[i].ticket == pending[j].ticket ==> i == j
    ensures PendingTickets(pending - {id}) == PendingTickets(pending) - {pending[id].ticket}
  {
    forall t <- PendingTickets(pending) | t != pending[id].ticket
      ensures t in PendingTickets(pending - {id})
    {
      var i :| i in pending && pending[i].ticket == t;
      assert i in pending - {id};
    }
  }

  lemma SubmitTicketed(c: Conn, spec: Spec)
    requires Ticketed(c)
    ensures Ticketed(Submitted(c, spec))
  {
    QueuedAppend(c.calls.commands, Open(spec, c.calls.nextTicket));
  }

  lemma SubmitCloseTicketed(c: Conn, name: string)
    requires Ticketed(c)
    ensures Ticketed(SubmittedClose(c, name))
  {
    QueuedAppend(c.calls.commands, Close(name));
  }

  lemma StopTicketed(c: Conn)
    requires Ticketed(c)
    ensures Ticketed(Stopped(c))
    ensures forall t: nat :: t < c.calls.nextTicket ==> t in Stopped(c).calls.answers
  {
    assert PendingTickets(map[]) == {} && QueuedTickets([]) == {};
  }

  lemma AnswerTicketed(c: Conn, id: TunnelId, answer: Answer, loop: Loop)
    requires Ticketed(c) && id in c.loop.pending
    requires loop.pending == c.loop.pending - {id} && loop.running == c.loop.running
    ensures Ticketed(Conn(loop, Answered(c.calls, c.loop.pending[id].ticket, answer)))
  {
    PendingWithout(c.loop.pending, id);
    assert c.loop.pending[id].ticket in PendingTickets(c.loop.pending);
  }

  lemma SamePendingTicketed(c: Conn, loop: Loop)
    requires Ticketed(c) && loop.pending == c.loop.pending && loop.running == c.loop.running
    ensures Ticketed(c.(loop := loop))
  {
  }

  lemma CommandsTail(commands: seq<Command>)
    requires commands != []
    ensures forall i :: 0 <= i < |commands| - 1 ==> commands[1..][i] == commands[i + 1]
  {
  }

  lemma PendingWith(pending: map<TunnelId, Pending>, id: TunnelId, p: Pending)
    requires id !in pending
    ensures PendingTickets(pending[id := p]) == PendingTickets(pending) + {p.ticket}
  {
    var pending' := pending[id := p];
    assert forall i <- pending :: i in pending' && pending'[i] == pending[i];
    assert pending'[id] == p;
  }

  lemma TakeOpenTicketed(c: Conn, spec: Spec, ticket: nat)
    requires Ticketed(c) && c.loop.running && c.calls.commands != [] && c.calls.commands[0] == Open(spec, ticket)
    requires c.loop.nextId !in c.loop.pending
    ensures Ticketed(Conn(Requested(c.loop, spec, ticket), c.calls.(commands := c.calls.commands[1..])))
  {
    QueuedHead(c.calls.commands);
    CommandsTail(c.calls.commands);
    assert ticket in QueuedTickets(c.calls.commands);
    PendingWith(c.loop.pending, c.loop.nextId, Pending(spec.name, spec.localPort, ticket));
  }

  lemma RefuseOpenTicketed(c: Conn, spec: Spec, ticket: nat)
    requires Ticketed(c) && c.loop.running && c.calls.commands != [] && c.calls.commands[0] == Open(spec, ticket)
    ensures Ticketed(Conn(c.loop.(nextId := c.loop.nextId + 1),
                          Answered(c.calls.(commands := c.calls.commands[1..]), ticket, Refusal(None))))
  {
    QueuedHead(c.calls.commands);
    CommandsTail(c.calls.commands);
    assert ticket in QueuedTickets(c.calls.commands);
  }

  lemma TakeCloseTicketed(c: Conn, name: string)
    requires Ticketed(c) && c.loop.running && c.calls.commands != [] && c.calls.commands[0] == Close(name)
    ensures Ticketed(AfterCommand(c))
  {
    QueuedHead(c.calls.commands);
    assert forall i :: 0 <= i < |c.calls.commands| - 1 ==> c.calls.commands[1..][i] == c.calls.commands[i + 1];
  }

  lemma CommandTicketed(c: Conn)
    requires Ticketed(c) && c.loop.running && c.calls.commands != [] && c.loop.nextId !in c.loop.pending
    ensures Ticketed(AfterCommand(c))
  {
    match c.calls.commands[0]
    case Open(spec, ticket) =>
      if c.loop.linkUp {
        TakeOpenTicketed(c, spec, ticket);
      } else {
        RefuseOpenTicketed(c, spec, ticket);
        StopTicketed(Conn(c.loop.(nextId := c.loop.nextId + 1),
                          Answered(c.calls.(commands := c.calls.commands[1..]), ticket, Refusal(None))));
      }
    case Close(name) => TakeCloseTicketed(c, name);
  }

  lemma PingTicketed(c: Conn, n: nat)
    requires Ticketed(c) && c.loop.running && c.loop.down != [] && c.loop.down[0] == ServerPing(n)
    ensures Ticketed(AfterMessage(c))
  {
    var l := c.loop.(down := c.loop.down[1..]);
    if l.linkUp {
      SamePendingTicketed(c, l.(up := l.up + [ClientPong(n)]));
    } else {
      SamePendingTicketed(c, l);
      StopTicketed(c.(loop := l));
    }
  }

  lemma MessageTicketed(c: Conn)
    requires Ticketed(c) && c.loop.running && c.loop.down != []
    ensures Ticketed(AfterMessage(c))
  {
    var l := c.loop.(down := c.loop.down[1..]);
    SamePendingTicketed(c, l);
    match c.loop.down[0]
    case ServerPing(n) =>
      PingTicketed(c, n);
    case TunnelOpened(id, public) =>
      if id in l.pending {
        AnswerTicketed(c.(loop := l), id, Granted(public), Installed(l, id));
      }
    case Failure(code, subject) =>
      if subject.Some? && subject.value in l.pending {
        AnswerTicketed(c.(loop := l), subject.value, Refusal(Some(code)), l.(pending := l.pending - {subject.value}));
      } else {
        StopTicketed(c.(loop := l));
      }
    case Kick => StopTicketed(c.(loop := l));
    case _ =>
  }

  // ---- agreement: the client's acts ----

  lemma NumberIsSkipped(routes: Routes, pc: Pc, l: Loop)
    requires Agree(routes, pc, l)
    ensures Agree(routes, pc, l.(nextId := l.nextId + 1))
  {
    assert InFlightIds(pc, l.(nextId := l.nextId + 1)) == InFlightIds(pc, l);
  }

  lemma SkippedHaltAgrees(routes: Routes, pc: Pc, l: Loop)
    requires Agree(routes, pc, l)
    ensures Agree(routes, pc, Halted(l.(nextId := l.nextId + 1)))
  {
    NumberIsSkipped(routes, pc, l);
    HaltAgrees(routes, pc, l.(nextId := l.nextId + 1));
  }

  lemma SentAgrees(routes: Routes, pc: Pc, c: Conn, spec: Spec, ticket: nat)
    requires Agree(routes, pc, c.loop) && c.loop.running && c.loop.linkUp
    requires c.calls.commands != [] && c.calls.commands[0] == Open(spec, ticket)
    ensures Agree(routes, pc, AfterCommand(c).loop)
  {
    RequestAgrees(routes, pc, c.loop, spec, ticket);
  }

  lemma FailedSendAgrees(routes: Routes, pc: Pc, c: Conn, spec: Spec, ticket: nat)
    requires Agree(routes, pc, c.loop) && c.loop.running && !c.loop.linkUp
    requires c.calls.commands != [] && c.calls.commands[0] == Open(spec, ticket)
    ensures Agree(routes, pc, AfterCommand(c).loop)
  {
    SkippedHaltAgrees(routes, pc, c.loop);
  }

  lemma CloseAgrees(routes: Routes, pc: Pc, c: Conn, name: string)
    requires Agree(routes, pc, c.loop) && c.loop.running
    requires c.calls.commands != [] && c.calls.commands[0] == Close(name)
    ensures Agree(routes, pc, AfterCommand(c).loop)
  {
    if name in c.loop.byName {
      ForgetAgrees(routes, pc, c.loop, name);
    }
  }

  lemma CommandAgrees(routes: Routes, pc: Pc, c: Conn)
    requires Agree(routes, pc, c.loop) && c.loop.running && c.calls.commands != []
    ensures Agree(routes, pc, AfterCommand(c).loop)
  {
    match c.calls.commands[0]
    case Open(spec, ticket) =>
      if c.loop.linkUp {
        SentAgrees(routes, pc, c, spec, ticket);
      } else {
        FailedSendAgrees(routes, pc, c, spec, ticket);
      }
    case Close(name) => CloseAgrees(routes, pc, c, name);
  }

  /** Reading a message never hits the exit for an error the client cannot place. */
  lemma MessageAgrees(routes: Routes, pc: Pc, c: Conn)
    requires Agree(routes, pc, c.loop) && c.loop.running && c.loop.down != []
    ensures Agree(routes, pc, AfterMessage(c).loop)
  {
    var l := c.loop.(down := c.loop.down[1..]);
    match c.loop.down[0]
    case ServerPing(n) =>
      SkipAgrees(routes, pc, c.loop);
      if l.linkUp {
        PongAgrees(routes, pc, l, n);
      } else {
        HaltAgrees(routes, pc, l);
      }
    case TunnelOpened(id, public) => InstallAgrees(routes, pc, c.loop, id, public);
    case Failure(code, subject) =>
      assert c.loop.down[0] in c.loop.down;
      RefusalAgrees(routes, pc, c.loop, subject.value, code);
    case Kick =>
      SkipAgrees(routes, pc, c.loop);
      HaltAgrees(routes, pc, l);
    case _ => SkipAgrees(routes, pc, c.loop);
  }

  lemma ClientActAgrees(routes: Routes, pc: Pc, c: Conn, a: ClientAct)
    requires Agree(routes, pc, c.loop) && CanAct(c, a)
    ensures Agree(routes, pc, ClientDo(c, a).loop)
  {
    match a
    case Call(_) =>
    case CallClose(_) =>
    case TakeCommand => CommandAgrees(routes, pc, c);
    case TakeMessage => MessageAgrees(routes, pc, c);
    case Stop => HaltAgrees(routes, pc, c.loop);
    case Break(keepUp, keepDown) => BreakAgrees(routes, pc, c.loop, keepUp, keepDown);
  }

  lemma ClientActTicketed(c: Conn, a: ClientAct)
    requires Ticketed(c) && CanAct(c, a) && c.loop.nextId !in c.loop.pending
    ensures Ticketed(ClientDo(c, a))
  {
    match a
    case Call(spec) => SubmitTicketed(c, spec);
    case CallClose(name) => SubmitCloseTicketed(c, name);
    case TakeCommand => CommandTicketed(c);
    case TakeMessage => MessageTicketed(c);
    case Stop => StopTicketed(c);
    case Break(keepUp, keepDown) => SamePendingTicketed(c, Broken(c.loop, keepUp, keepDown));
  }

  // ---- agreement: the server's acts ----

  lemma ReceiveShape(cfg: Config, s: Server, sid: SessionId, msg: ClientMsg, check: DomainCheck)
    requires Ready(s, sid) && s.tasks[sid].pc.Idle? && !msg.OpenTunnel?
    ensures var ev := Receive(msg, check); var s' := Step(cfg, s, sid, ev);
      && s'.table == s.table
      && s'.tasks[sid].pc == (match msg case CloseTunnel(id) => Closing(id) case Hello => Leaving case _ => Idle)
      && Reply(cfg, s, sid, ev) == if msg.ClientPing? then Some(ServerPong(msg.seqno)) else None
  {
  }

  lemma ReceiveMoves(cfg: Config, s: Server, sid: SessionId, msg: ClientMsg, check: DomainCheck, l: Loop)
    requires Ready(s, sid) && s.tasks[sid].pc.Idle? && l.up != [] && l.up[0] == msg && !msg.OpenTunnel?
    requires Agree(RoutesOf(s.table, sid), Idle, l)
    ensures var ev := Receive(msg, check); var s' := Step(cfg, s, sid, ev);
      ServerMoved(RoutesOf(s.table, sid), Idle, l, RoutesOf(s'.table, sid), s'.tasks[sid].pc, LoopAfter(cfg, s, sid, ev, l))
  {
    var routes := RoutesOf(s.table, sid);
    ReceiveShape(cfg, s, sid, msg, check);
    match msg
    case CloseTunnel(id) => CloseReadMoves(routes, Idle, l, id);
    case Hello => SkippedMoves(routes, Idle, l, Leaving, None);
    case ClientPing(n) => SkippedMoves(routes, Idle, l, Idle, Some(ServerPong(n)));
    case _ => SkippedMoves(routes, Idle, l, Idle, None);
  }

  lemma OpenMoves(cfg: Config, s: Server, sid: SessionId, msg: ClientMsg, check: DomainCheck, l: Loop)
    requires Ready(s, sid) && s.tasks[sid].pc.Idle? && l.up != [] && l.up[0] == msg && msg.OpenTunnel?
    requires Agree(RoutesOf(s.table, sid), Idle, l)
    ensures var ev := Receive(msg, check); var s' := Step(cfg, s, sid, ev);
      ServerMoved(RoutesOf(s.table, sid), Idle, l, RoutesOf(s'.table, sid), s'.tasks[sid].pc, LoopAfter(cfg, s, sid, ev, l))
  {
    var routes, session := RoutesOf(s.table, sid), s.tasks[sid].session;
    ReceiveEffect(cfg, s, sid, msg, check);
    match Decide(cfg, session.user, msg, check)
    case Reject(code) => RejectedMoves(routes, Idle, l, code);
    case Route(host) =>
      var tunnel := TunnelFor(session, msg);
      var o := OpenOutcome(s.table, host, tunnel, cfg.limit(session.user));
      if !o.Opened? {
        RejectedMoves(routes, Idle, l, OutcomeCode(o));
      } else if msg.kind == Http {
        GrantedMoves(routes, Idle, l, host, tunnel);
      } else {
        BegunMoves(routes, Idle, l, Lower(host), tunnel, AfterRoute(cfg, msg, host));
      }
  }

  lemma RecordMoves(cfg: Config, s: Server, sid: SessionId, l: Loop)
    requires Ready(s, sid) && s.tasks[sid].pc.Leased? && Agree(RoutesOf(s.table, sid), s.tasks[sid].pc, l)
    ensures var s' := Step(cfg, s, sid, Record);
      ServerMoved(RoutesOf(s.table, sid), s.tasks[sid].pc, l, RoutesOf(s'.table, sid), s'.tasks[sid].pc,
                  LoopAfter(cfg, s, sid, Record, l))
  {
    var routes, pc := RoutesOf(s.table, sid), s.tasks[sid].pc;
    RouteEffect(cfg, s, sid, Record);
    var routes' := routes[pc.host := routes[pc.host].(tcpPort := Some(pc.port))];
    PortRecorded(routes, pc.host, pc.port);
    FinishedMoves(routes, pc, l, routes', TunnelOpened(pc.tid, Addr(pc.port)));
  }

  lemma PortRecorded(routes: Routes, h: Host, port: Port)
    requires h in routes
    ensures var routes' := routes[h := routes[h].(tcpPort := Some(port))];
      && Ids(routes') == Ids(routes)
      && Backs(routes', routes[h].tunnelId, Addr(port))
      && forall id, public | id != routes[h].tunnelId :: Backs(routes, id, public) ==> Backs(routes', id, public)
  {
    var routes' := routes[h := routes[h].(tcpPort := Some(port))];
    assert routes'[h].tcpPort == Some(port) && routes'[h].tunnelId == routes[h].tunnelId;
    forall x <- routes
      ensures x in routes' && routes'[x].tunnelId == routes[x].tunnelId && (x != h ==> routes'[x] == routes[x])
    {
    }
    forall id
      ensures id in Ids(routes') <==> id in Ids(routes)
    {
      if id in Ids(routes) {
        var x :| x in routes && routes[x].tunnelId == id;
        assert x in routes' && routes'[x].tunnelId == id;
      }
      if id in Ids(routes') {
        var x :| x in routes' && routes'[x].tunnelId == id;
        assert x in routes && routes[x].tunnelId == id;
      }
    }
  }

  lemma RouteRemoved(routes: Routes, tid: TunnelId, found: Option<Host>)
    requires UniqueIds(routes)
    requires match found
             case None => tid !in Ids(routes)
             case Some(h) => h in routes && routes[h].tunnelId == tid
    ensures var routes' := if found.Some? then routes - {found.value} else routes;
      && Ids(routes') == Ids(routes) - {tid}
      && forall id, public | id != tid :: Backs(routes, id, public) ==> Backs(routes', id, public)
  {
    var routes' := if found.Some? then routes - {found.value} else routes;
    forall id
      ensures id in Ids(routes') <==> id in Ids(routes) && id != tid
    {
      if id in Ids(routes) && id != tid {
        var x :| x in routes && routes[x].tunnelId == id;
        assert x in routes' && routes'[x].tunnelId == id;
      }
    }
    forall id, public | id != tid && Backs(routes, id, public)
      ensures Backs(routes', id, public)
    {
      if public.Addr? {
        var x :| x in routes && routes[x].tunnelId == id && routes[x].tcpPort == Some(public.port);
        assert x in routes' && routes'[x].tunnelId == id && routes'[x].tcpPort == Some(public.port);
      }
    }
  }

  lemma FoundIsMatch(s: Server, sid: SessionId, tid: TunnelId, found: Option<Host>)
    requires IsMatch(s.table, sid, tid, found)
    ensures var routes := RoutesOf(s.table, sid);
      match found
      case None => tid !in Ids(routes)
      case Some(h) => h in routes && routes[h].tunnelId == tid
  {
    var routes := RoutesOf(s.table, sid);
    if tid in Ids(routes) {
      var x :| x in routes && routes[x].tunnelId == tid;
      assert x in Matches(s.table, sid, tid);
    }
  }

  lemma RemoveMoves(cfg: Config, s: Server, sid: SessionId, ev: Event, l: Loop)
    requires Ready(s, sid) && Enabled(s, sid, ev) && (ev.GiveBack? || ev.Drop?)
    requires Agree(RoutesOf(s.table, sid), s.tasks[sid].pc, l)
    ensures var s' := Step(cfg, s, sid, ev);
      ServerMoved(RoutesOf(s.table, sid), s.tasks[sid].pc, l, RoutesOf(s'.table, sid), s'.tasks[sid].pc,
                  LoopAfter(cfg, s, sid, ev, l))
  {
    var routes, pc := RoutesOf(s.table, sid), s.tasks[sid].pc;
    RouteEffect(cfg, s, sid, ev);
    FoundIsMatch(s, sid, pc.tid, ev.found);
    RouteRemoved(routes, pc.tid, ev.found);
    var routes' := if ev.found.Some? then routes - {ev.found.value} else routes;
    if ev.GiveBack? {
      FinishedMoves(routes, pc, l, routes', Failure(pc.code, Some(pc.tid)));
    } else {
      ClosedMoves(routes, pc, l, routes');
    }
  }

  lemma OtherMoves(cfg: Config, s: Server, sid: SessionId, ev: Event, l: Loop)
    requires Ready(s, sid) && Enabled(s, sid, ev)
    requires !ev.Receive? && !ev.Login? && !ev.Enter? && !ev.Record? && !ev.GiveBack? && !ev.Drop? && !ev.Unregister?
    requires Agree(RoutesOf(s.table, sid), s.tasks[sid].pc, l)
    ensures var s' := Step(cfg, s, sid, ev);
      ServerMoved(RoutesOf(s.table, sid), s.tasks[sid].pc, l, RoutesOf(s'.table, sid), s'.tasks[sid].pc,
                  LoopAfter(cfg, s, sid, ev, l))
  {
    RouteEffect(cfg, s, sid, ev);
    NotCrashing(cfg, s, sid, ev);
    ProgressMoves(RoutesOf(s.table, sid), s.tasks[sid].pc, l, Step(cfg, s, sid, ev).tasks[sid].pc, Reply(cfg, s, sid, ev));
  }

  lemma NotCrashing(cfg: Config, s: Server, sid: SessionId, ev: Event)
    requires Ready(s, sid) && Enabled(s, sid, ev)
    requires !ev.Receive? && !ev.Login? && !ev.Enter? && !ev.Record? && !ev.GiveBack? && !ev.Drop? && !ev.Unregister?
    ensures var pc, pc' := s.tasks[sid].pc, Step(cfg, s, sid, ev).tasks[sid].pc;
      OpeningId(pc') == OpeningId(pc) && ClosingId(pc') == ClosingId(pc) && Active(pc) && Active(pc')
  {
    if ev.Spawn? {
      assert s.tasks[sid].pc.port in LeasesOf(s.pool.leased, sid);
    }
  }

  /** Every server event does to its session's share and queues only what the agreement allows for. */
  lemma EventMoves(cfg: Config, s: Server, sid: SessionId, ev: Event, l: Loop)
    requires Ready(s, sid) && Enabled(s, sid, ev) && !ev.Login? && !ev.Enter?
    requires ev.Receive? ==> l.up != [] && l.up[0] == ev.msg
    requires Agree(RoutesOf(s.table, sid), s.tasks[sid].pc, l)
    ensures var s' := Step(cfg, s, sid, ev);
      ServerMoved(RoutesOf(s.table, sid), s.tasks[sid].pc, l, RoutesOf(s'.table, sid), s'.tasks[sid].pc,
                  LoopAfter(cfg, s, sid, ev, l))
  {
    match ev {
      case Receive(msg, check) =>
        if msg.OpenTunnel? {
          OpenMoves(cfg, s, sid, msg, check, l);
        } else {
          ReceiveMoves(cfg, s, sid, msg, check, l);
        }
      case Record => RecordMoves(cfg, s, sid, l);
      case GiveBack(_) => RemoveMoves(cfg, s, sid, ev, l);
      case Drop(_) => RemoveMoves(cfg, s, sid, ev, l);
      case Unregister =>
        RouteEffect(cfg, s, sid, ev);
        UnregisteredMoves(RoutesOf(s.table, sid), s.tasks[sid].pc, l);
      case _ => OtherMoves(cfg, s, sid, ev, l);
    }
  }

  // ---- the system's invariant ----

  ghost predicate Connected(x: Sys) {
    forall sid :: sid in x.conns <==> sid in x.server.tasks && !x.server.tasks[sid].pc.Fresh?
  }

  ghost predicate InStep(x: Sys, sid: SessionId)
    requires sid in x.conns && sid in x.server.tasks
  {
    && Agree(RoutesOf(x.server.table, sid), x.server.tasks[sid].pc, x.conns[sid].loop)
    && Ticketed(x.conns[sid])
  }

  ghost predicate SysInv(cfg: Config, x: Sys) {
    Inv(cfg, x.server) && AllInStep(x)
  }

  lemma InvReady(cfg: Config, s: Server, sid: SessionId)
    requires Inv(cfg, s) && sid in s.tasks
    ensures Ready(s, sid)
  {
  }

  lemma NoMatch(t: Table, sid: SessionId, tid: TunnelId)
    requires tid !in Ids(RoutesOf(t, sid))
    ensures Matches(t, sid, tid) == {}
  {
    if h :| h in Matches(t, sid, tid) {
      MatchHasId(t, sid, tid, h);
    }
  }

  lemma MatchHasId(t: Table, sid: SessionId, tid: TunnelId, h: Host)
    requires h in Matches(t, sid, tid)
    ensures tid in Ids(RoutesOf(t, sid))
  {
    assert h in RoutesOf(t, sid) && RoutesOf(t, sid)[h].tunnelId == tid;
  }

  /** The ids a real client puts on the wire are never in use: the server's hypothesis is met. */
  lemma ClientsUseFreshIds(cfg: Config, x: Sys, sid: SessionId, a: Act)
    requires SysInv(cfg, x) && Can(x, sid, a) && !a.Client?
    ensures FreshId(x.server, Move(sid, EventOf(x, sid, a)))
  {
    var ev := EventOf(x, sid, a);
    if ev.Receive? && ev.msg.OpenTunnel? {
      assert InStep(x, sid);
      HeadOpenFresh(RoutesOf(x.server.table, sid), x.server.tasks[sid].pc, x.conns[sid].loop);
      NoMatch(x.server.table, sid, ev.msg.id);
    }
  }

  /** A session's step leaves every other session in step. */
  lemma OthersInStep(x: Sys, x': Sys, sid: SessionId)
    requires Connected(x) && (forall y <- x.conns :: InStep(x, y))
    requires OthersKept(x.server, x'.server, sid)
    requires forall y | y != sid :: y in x'.conns <==> y in x.conns
    requires forall y <- x.conns | y != sid :: x'.conns[y] == x.conns[y]
    ensures forall y <- x'.conns | y != sid :: y in x'.server.tasks && InStep(x', y)
  {
    forall y <- x'.conns | y != sid
      ensures y in x'.server.tasks && InStep(x', y)
    {
      assert InStep(x, y);
    }
  }

  /** Putting the system's per-session part together again after a step of `sid`. */
  ghost predicate AllInStep(x: Sys) {
    Connected(x) && forall y <- x.conns :: InStep(x, y)
  }

  lemma EnterOwn(cfg: Config, s: Server, sid: SessionId)
    requires Ready(s, sid) && Enabled(s, sid, Enter)
    ensures var s' := Step(cfg, s, sid, Enter);
      && RoutesOf(s'.table, sid) == map[] && s'.tasks[sid].pc == Idle
      && Agree(map[], Idle, NEW_LOOP) && Ticketed(NEW_CONN)
  {
    RouteEffect(cfg, s, sid, Enter);
    NewLoopAgrees(Idle);
    assert PendingTickets(map[]) == {} && QueuedTickets([]) == {};
  }

  lemma EnterInStep(cfg: Config, x: Sys, sid: SessionId)
    requires AllInStep(x) && Ready(x.server, sid) && Can(x, sid, Serve(Enter))
    requires Shared(x.server, Do(cfg, x, sid, Serve(Enter)).server, sid)
    ensures AllInStep(Do(cfg, x, sid, Serve(Enter)))
  {
    var x' := Do(cfg, x, sid, Serve(Enter));
    EnterOwn(cfg, x.server, sid);
    assert x'.conns == x.conns[sid := NEW_CONN] && InStep(x', sid);
    AllTogether(x, x', sid);
  }

  lemma EventOwn(cfg: Config, s: Server, sid: SessionId, ev: Event, c: Conn)
    requires Ready(s, sid) && Enabled(s, sid, ev) && !ev.Login? && !ev.Enter?
    requires ev.Receive? ==> c.loop.up != [] && c.loop.up[0] == ev.msg
    requires Agree(RoutesOf(s.table, sid), s.tasks[sid].pc, c.loop) && Ticketed(c)
    ensures var s' := Step(cfg, s, sid, ev);
      && Agree(RoutesOf(s'.table, sid), s'.tasks[sid].pc, LoopAfter(cfg, s, sid, ev, c.loop))
      && Ticketed(c.(loop := LoopAfter(cfg, s, sid, ev, c.loop)))
      && !s'.tasks[sid].pc.Fresh?
  {
    EventAgrees(cfg, s, sid, ev, c.loop);
    SamePendingTicketed(c, LoopAfter(cfg, s, sid, ev, c.loop));
    StepShape(cfg, s, sid, ev);
  }

  lemma EventAgrees(cfg: Config, s: Server, sid: SessionId, ev: Event, l: Loop)
    requires Ready(s, sid) && Enabled(s, sid, ev) && !ev.Login? && !ev.Enter?
    requires ev.Receive? ==> l.up != [] && l.up[0] == ev.msg
    requires Agree(RoutesOf(s.table, sid), s.tasks[sid].pc, l)
    ensures var s' := Step(cfg, s, sid, ev);
      Agree(RoutesOf(s'.table, sid), s'.tasks[sid].pc, LoopAfter(cfg, s, sid, ev, l))
  {
    var s' := Step(cfg, s, sid, ev);
    EventMoves(cfg, s, sid, ev, l);
    ServerAgrees(RoutesOf(s.table, sid), s.tasks[sid].pc, l, RoutesOf(s'.table, sid), s'.tasks[sid].pc,
                 LoopAfter(cfg, s, sid, ev, l));
  }

  lemma EventInStep(cfg: Config, x: Sys, sid: SessionId, a: Act)
    requires AllInStep(x) && Ready(x.server, sid) && Can(x, sid, a) && !a.Client?
    requires !EventOf(x, sid, a).Login? && !EventOf(x, sid, a).Enter?
    requires Shared(x.server, Do(cfg, x, sid, a).server, sid)
    ensures AllInStep(Do(cfg, x, sid, a))
  {
    assert InStep(x, sid);
    EventOwn(cfg, x.server, sid, EventOf(x, sid, a), x.conns[sid]);
    AllTogether(x, Do(cfg, x, sid, a), sid);
  }

  lemma AllTogether(x: Sys, x': Sys, sid: SessionId)
    requires AllInStep(x) && OthersKept(x.server, x'.server, sid)
    requires sid in x'.server.tasks && !x'.server.tasks[sid].pc.Fresh?
    requires sid in x'.conns && x'.conns == x.conns[sid := x'.conns[sid]]
    requires InStep(x', sid)
    ensures AllInStep(x')
  {
    OthersInStep(x, x', sid);
  }

  lemma LoginInStep(cfg: Config, x: Sys, sid: SessionId, user: User)
    requires AllInStep(x) && Can(x, sid, Serve(Login(user)))
    ensures AllInStep(Do(cfg, x, sid, Serve(Login(user))))
  {
    LoginConnects(cfg, x, sid, user);
    forall y <- x.conns
      ensures InStep(Do(cfg, x, sid, Serve(Login(user))), y)
    {
      LoginLeavesAlone(cfg, x, sid, user, y);
    }
  }

  lemma LoginConnects(cfg: Config, x: Sys, sid: SessionId, user: User)
    requires Connected(x) && Can(x, sid, Serve(Login(user)))
    ensures var x' := Do(cfg, x, sid, Serve(Login(user))); Connected(x') && x'.conns == x.conns
  {
  }

  lemma LoginLeavesAlone(cfg: Config, x: Sys, sid: SessionId, user: User, y: SessionId)
    requires Connected(x) && Can(x, sid, Serve(Login(user))) && y in x.conns && InStep(x, y)
    ensures var x' := Do(cfg, x, sid, Serve(Login(user))); y in x'.conns && y in x'.server.tasks && InStep(x', y)
  {
    var x' := Do(cfg, x, sid, Serve(Login(user)));
    assert x'.conns == x.conns && x'.server.table == x.server.table && x'.server.tasks[y] == x.server.tasks[y];
  }

  lemma ServeKeeps(cfg: Config, x: Sys, sid: SessionId, a: Act)
    requires SysInv(cfg, x) && Can(x, sid, a) && !a.Client?
    ensures SysInv(cfg, Do(cfg, x, sid, a))
  {
    var ev := EventOf(x, sid, a);
    ClientsUseFreshIds(cfg, x, sid, a);
    InvStep(cfg, x.server, sid, ev);
    if ev.Login? {
      LoginInStep(cfg, x, sid, ev.user);
    } else {
      InvReady(cfg, x.server, sid);
      if ev.Enter? {
        EnterInStep(cfg, x, sid);
      } else {
        EventInStep(cfg, x, sid, a);
      }
    }
  }

  lemma ClientInStep(cfg: Config, x: Sys, sid: SessionId, act: ClientAct)
    requires AllInStep(x) && Can(x, sid, Client(act))
    ensures AllInStep(Do(cfg, x, sid, Client(act)))
  {
    var x' := Do(cfg, x, sid, Client(act));
    assert InStep(x, sid);
    ClientActAgrees(RoutesOf(x.server.table, sid), x.server.tasks[sid].pc, x.conns[sid], act);
    ClientActTicketed(x.conns[sid], act);
    OthersInStep(x, x', sid);
    forall y <- x'.conns
      ensures InStep(x', y)
    {
    }
  }

  lemma SysStep(cfg: Config, x: Sys, sid: SessionId, a: Act)
    requires SysInv(cfg, x) && Can(x, sid, a)
    ensures SysInv(cfg, Do(cfg, x, sid, a))
  {
    if a.Client? {
      ClientInStep(cfg, x, sid, a.act);
    } else {
      ServeKeeps(cfg, x, sid, a);
    }
  }

  lemma {:induction false} SysAlways(cfg: Config, x: Sys, turns: seq<Turn>)
    requires SysInv(cfg, x) && History(cfg, x, turns)
    ensures SysInv(cfg, Final(cfg, x, turns))
    decreases |turns|
  {
    if turns != [] {
      SysStep(cfg, x, turns[0].sid, turns[0].act);
      SysAlways(cfg, Do(cfg, x, turns[0].sid, turns[0].act), turns[1..]);
    }
  }

  // ---- whose connection a turn moves ----

  /** A session with a connection does not log in or register again. */
  lemma EntersOnce(x: Sys, sid: SessionId, a: Act)
    requires Connected(x) && Can(x, sid, a) && !a.Client? && sid in x.conns
    ensures !EventOf(x, sid, a).Login? && !EventOf(x, sid, a).Enter?
  {
  }

  lemma OthersKeepLine(cfg: Config, x: Sys, t: Turn, sid: SessionId)
    requires Can(x, t.sid, t.act) && t.sid != sid && sid in x.conns
    ensures sid in Do(cfg, x, t.sid, t.act).conns && Do(cfg, x, t.sid, t.act).conns[sid] == x.conns[sid]
  {
  }
}
