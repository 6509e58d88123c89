/** Status rows never promise more than the connection and the server keep. */
module EngineProofs {
  import opened Basics
  import opened Registry
  import opened ControlMessages
  import opened ControlLoop
  import opened ServerMachine
  import opened ServerOwnership
  import opened TunnelProtocol
  import opened TunnelSystem
  import opened StatusBoard
  import opened Engine
  import S = TunnelState
  import R = TakenRetries
  import Naming

  /**
   * The address is real: the client maps the tunnel's id to this local port, and while the session is
   * registered the server routes the address to that id.
   */
  ghost predicate Live(routes: Routes, registered: bool, l: Loop, name: string, port: Port, public: Endpoint) {
    && name in l.byName
    && l.byName[name] in l.ports
    && l.ports[l.byName[name]] == LocalRoute(port, name)
    && (registered ==> Backs(routes, l.byName[name], public))
  }

  ghost predicate Awaits(waiting: Option<Wait>, name: string) {
    waiting.Some? && waiting.value.spec.name == name
  }

  /** The engine is the only caller: at most the awaited open is under way, behind nothing but closes. */
  ghost predicate Tidy(waiting: Option<Wait>, c: Conn) {
    match waiting
    case None => c.loop.pending == map[] && forall k <- c.calls.commands :: k.Close?
    case Some(w) =>
      && w.ticket < c.calls.nextTicket
      && (forall id <- c.loop.pending :: c.loop.pending[id] == Pending(w.spec.name, w.spec.localPort, w.ticket))
      && (c.calls.commands != [] ==>
            && c.calls.commands[|c.calls.commands| - 1] == Open(w.spec, w.ticket)
            && forall i :: 0 <= i < |c.calls.commands| - 1 ==> c.calls.commands[i].Close?)
  }

  ghost predicate AwaitedTrue(waiting: Option<Wait>, routes: Routes, registered: bool, c: Conn) {
    waiting.Some? ==>
      var w := waiting.value;
      w.ticket in c.calls.answers && c.calls.answers[w.ticket].Granted? ==>
        && c.calls.commands == []
        && Live(routes, registered, c.loop, w.spec.name, w.spec.localPort, c.calls.answers[w.ticket].public)
  }

  ghost predicate RowTrue(e: Engine, routes: Routes, registered: bool, c: Conn, name: string)
    requires name in e.rows
  {
    e.rows[name].url.Some? && !Awaits(e.waiting, name) ==>
      && e.rows[name].enabled
      && S.IsEnabled(e.tunnels, name)
      && Live(routes, registered, c.loop, name, e.rows[name].localPort, e.rows[name].url.value)
      && Close(name) !in c.calls.commands
  }

  ghost predicate WorkWanted(e: Engine) {
    && (e.waiting.Some? ==> S.IsEnabled(e.tunnels, e.waiting.value.spec.name))
    && (forall j <- e.jobs :: j.Reopen? ==> S.IsEnabled(e.tunnels, j.spec.name))
  }

  /** Everything the engine shows and waits for is true, but for the rows of `but`. */
  ghost predicate TruthfulBut(e: Engine, routes: Routes, registered: bool, c: Conn, but: set<string>) {
    && Tidy(e.waiting, c)
    && AwaitedTrue(e.waiting, routes, registered, c)
    && (forall name <- e.rows | name !in but :: RowTrue(e, routes, registered, c, name))
    && WorkWanted(e)
  }

  ghost predicate Truthful(e: Engine, routes: Routes, registered: bool, c: Conn) {
    TruthfulBut(e, routes, registered, c, {})
  }

  // ---- the connection moves on its own ----

  lemma TidyCommand(waiting: Option<Wait>, c: Conn)
    requires Tidy(waiting, c) && c.loop.running && c.calls.commands != []
    ensures Tidy(waiting, AfterCommand(c))
    ensures c.calls.commands[0].Open? ==> waiting.Some? && c.calls.commands == [Open(waiting.value.spec, waiting.value.ticket)]
  {
    var commands := c.calls.commands;
    assert commands[0] in commands;
    assert forall k <- commands[1..] :: k in commands;
  }

  lemma TidyMoves(waiting: Option<Wait>, c: Conn, a: ClientAct)
    requires Tidy(waiting, c) && CanAct(c, a) && !a.Call? && !a.CallClose?
    ensures Tidy(waiting, ClientDo(c, a))
  {
    if a.TakeCommand? {
      TidyCommand(waiting, c);
    }
  }

  lemma LiveCommand(
    waiting: Option<Wait>, routes: Routes, registered: bool, c: Conn, name: string, port: Port, public: Endpoint)
    requires Tidy(waiting, c) && ClientOk(c.loop) && c.loop.running && c.calls.commands != []
    requires Live(routes, registered, c.loop, name, port, public) && Close(name) !in c.calls.commands
    ensures Live(routes, registered, AfterCommand(c).loop, name, port, public)
    ensures Close(name) !in AfterCommand(c).calls.commands
  {
    assert c.calls.commands[0] in c.calls.commands;
    assert forall k <- c.calls.commands[1..] :: k in c.calls.commands;
  }

  /** Any message but a grant leaves the client's tables and grants nothing. */
  lemma OtherMessage(c: Conn, ticket: nat)
    requires c.loop.running && c.loop.down != []
    requires c.loop.down[0].TunnelOpened? ==> c.loop.down[0].id !in c.loop.pending
    ensures AfterMessage(c).loop.byName == c.loop.byName && AfterMessage(c).loop.ports == c.loop.ports
    ensures ticket in AfterMessage(c).calls.answers && AfterMessage(c).calls.answers[ticket].Granted? ==>
      ticket in c.calls.answers
  {
  }

  lemma LiveMessage(
    waiting: Option<Wait>, routes: Routes, registered: bool, c: Conn, name: string, port: Port, public: Endpoint)
    requires Tidy(waiting, c) && ClientOk(c.loop) && c.loop.running && c.loop.down != []
    requires Live(routes, registered, c.loop, name, port, public) && !Awaits(waiting, name)
    ensures Live(routes, registered, AfterMessage(c).loop, name, port, public)
  {
    if c.loop.down[0].TunnelOpened? && c.loop.down[0].id in c.loop.pending {
      LiveInstalled(routes, registered, c.loop.(down := c.loop.down[1..]), c.loop.down[0].id, name, port, public);
    } else {
      OtherMessage(c, 0);
    }
  }

  lemma LiveInstalled(
    routes: Routes, registered: bool, l: Loop, id: TunnelId, name: string, port: Port, public: Endpoint)
    requires ClientOk(l) && id in l.pending && Live(routes, registered, l, name, port, public)
    requires l.pending[id].name != name
    ensures Live(routes, registered, Installed(l, id), name, port, public)
  {
  }

  /** A shown address stays true while the client's loop moves. */
  lemma LiveMoves(
    waiting: Option<Wait>, routes: Routes, pc: Pc, c: Conn, a: ClientAct, name: string, port: Port, public: Endpoint)
    requires Tidy(waiting, c) && Agree(routes, pc, c.loop) && CanAct(c, a) && !a.Call? && !a.CallClose?
    requires Live(routes, Active(pc), c.loop, name, port, public)
    requires !Awaits(waiting, name) && Close(name) !in c.calls.commands
    ensures Live(routes, Active(pc), ClientDo(c, a).loop, name, port, public)
    ensures Close(name) !in ClientDo(c, a).calls.commands
  {
    match a
    case TakeCommand => LiveCommand(waiting, routes, Active(pc), c, name, port, public);
    case TakeMessage =>
      LiveMessage(waiting, routes, Active(pc), c, name, port, public);
      assert forall k <- ClientDo(c, a).calls.commands :: k in c.calls.commands;
    case Stop =>
    case Break(_, _) =>
  }

  /** Its ticket is in the last command, if any is left, and in every pending request. */
  lemma WhereTicketIs(waiting: Option<Wait>, c: Conn)
    requires Tidy(waiting, c) && waiting.Some?
    ensures c.calls.commands != [] ==> waiting.value.ticket in QueuedTickets(c.calls.commands)
    ensures c.loop.pending != map[] ==> waiting.value.ticket in PendingTickets(c.loop.pending)
  {
    var w, commands := waiting.value, c.calls.commands;
    if commands != [] {
      assert commands[|commands| - 1] in commands;
    }
    if id :| id in c.loop.pending {
      assert c.loop.pending[id].ticket == w.ticket;
    }
  }

  /** Once the awaited answer is there, nothing the engine asked for is under way. */
  lemma AnsweredIsQuiet(waiting: Option<Wait>, c: Conn)
    requires Tidy(waiting, c) && Ticketed(c) && waiting.Some? && waiting.value.ticket in c.calls.answers
    ensures c.loop.pending == map[] && c.calls.commands == []
  {
    WhereTicketIs(waiting, c);
  }

  lemma AnsweredStays(waiting: Option<Wait>, routes: Routes, pc: Pc, c: Conn, a: ClientAct)
    requires Tidy(waiting, c) && Ticketed(c) && CanAct(c, a) && !a.Call? && !a.CallClose?
    requires waiting.Some? && waiting.value.ticket in c.calls.answers
    requires AwaitedTrue(waiting, routes, Active(pc), c)
    ensures AwaitedTrue(waiting, routes, Active(pc), ClientDo(c, a))
  {
    AnsweredIsQuiet(waiting, c);
    assert PendingTickets(map[]) == {} && QueuedTickets([]) == {};
    assert c.calls.answers + RefuseAll({}) == c.calls.answers;
  }

  lemma GrantArrives(waiting: Option<Wait>, routes: Routes, registered: bool, c: Conn)
    requires Tidy(waiting, c) && Ticketed(c) && waiting.Some?
    requires c.loop.running && c.loop.down != [] && c.loop.down[0].TunnelOpened? && c.loop.down[0].id in c.loop.pending
    requires registered ==> Backs(routes, c.loop.down[0].id, c.loop.down[0].public)
    ensures AwaitedTrue(waiting, routes, registered, AfterMessage(c))
  {
    WhereTicketIs(waiting, c);
  }

  lemma AnswerArrives(waiting: Option<Wait>, routes: Routes, pc: Pc, c: Conn, a: ClientAct)
    requires Tidy(waiting, c) && Agree(routes, pc, c.loop) && Ticketed(c)
    requires CanAct(c, a) && !a.Call? && !a.CallClose?
    requires waiting.Some? && waiting.value.ticket !in c.calls.answers
    ensures AwaitedTrue(waiting, routes, Active(pc), ClientDo(c, a))
  {
    if a.TakeMessage? {
      if c.loop.down[0].TunnelOpened? && c.loop.down[0].id in c.loop.pending {
        assert c.loop.down[0] in c.loop.down;
        GrantArrives(waiting, routes, Active(pc), c);
      } else {
        OtherMessage(c, waiting.value.ticket);
      }
    } else {
      NoGrant(c, a, waiting.value.ticket);
    }
  }

  lemma NoGrant(c: Conn, a: ClientAct, ticket: nat)
    requires CanAct(c, a) && !a.Call? && !a.CallClose? && !a.TakeMessage? && ticket !in c.calls.answers
    ensures ticket in ClientDo(c, a).calls.answers ==> !ClientDo(c, a).calls.answers[ticket].Granted?
  {
  }

  /** The awaited answer, when it is a grant, is true the moment it is given and stays so. */
  lemma AwaitedMoves(waiting: Option<Wait>, routes: Routes, pc: Pc, c: Conn, a: ClientAct)
    requires Tidy(waiting, c) && Agree(routes, pc, c.loop) && Ticketed(c)
    requires CanAct(c, a) && !a.Call? && !a.CallClose?
    requires AwaitedTrue(waiting, routes, Active(pc), c)
    ensures AwaitedTrue(waiting, routes, Active(pc), ClientDo(c, a))
  {
    if waiting.Some? {
      var w := waiting.value;
      if w.ticket in c.calls.answers {
        AnsweredStays(waiting, routes, pc, c, a);
      } else {
        AnswerArrives(waiting, routes, pc, c, a);
      }
    }
  }

  lemma TruthfulClient(e: Engine, routes: Routes, pc: Pc, c: Conn, a: ClientAct)
    requires Truthful(e, routes, Active(pc), c) && Agree(routes, pc, c.loop) && Ticketed(c)
    requires CanAct(c, a) && !a.Call? && !a.CallClose?
    ensures Truthful(e, routes, Active(pc), ClientDo(c, a))
  {
    TidyMoves(e.waiting, c, a);
    AwaitedMoves(e.waiting, routes, pc, c, a);
    forall name <- e.rows
      ensures RowTrue(e, routes, Active(pc), ClientDo(c, a), name)
    {
      assert RowTrue(e, routes, Active(pc), c, name);
      if e.rows[name].url.Some? && !Awaits(e.waiting, name) {
        LiveMoves(e.waiting, routes, pc, c, a, name, e.rows[name].localPort, e.rows[name].url.value);
      }
    }
  }

  // ---- the server moves ----

  lemma LiveServed(
    routes: Routes, pc: Pc, l: Loop, routes': Routes, pc': Pc, l': Loop, name: string, port: Port, public: Endpoint)
    requires Agree(routes, pc, l) && ServerMoved(routes, pc, l, routes', pc', l')
    requires Live(routes, Active(pc), l, name, port, public)
    ensures Live(routes', Active(pc'), l', name, port, public)
  {
    var id, f := l.byName[name], InFlightIds(pc, l);
    assert OpeningId(pc) != Some(id) by {
      if OpeningId(pc).Some? {
        assert f[|ReplyIds(l.down)|] == OpeningId(pc).value;
      }
    }
    assert ClosingId(pc) != Some(id);
  }

  lemma TruthfulServed(e: Engine, routes: Routes, pc: Pc, c: Conn, routes': Routes, pc': Pc, l': Loop)
    requires Truthful(e, routes, Active(pc), c) && Agree(routes, pc, c.loop)
    requires ServerMoved(routes, pc, c.loop, routes', pc', l')
    ensures Truthful(e, routes', Active(pc'), c.(loop := l'))
  {
    var c' := c.(loop := l');
    if e.waiting.Some? {
      var w := e.waiting.value;
      if w.ticket in c.calls.answers && c.calls.answers[w.ticket].Granted? {
        LiveServed(routes, pc, c.loop, routes', pc', l', w.spec.name, w.spec.localPort, c.calls.answers[w.ticket].public);
      }
    }
    forall name <- e.rows
      ensures RowTrue(e, routes', Active(pc'), c', name)
    {
      assert RowTrue(e, routes, Active(pc), c, name);
      if e.rows[name].url.Some? && !Awaits(e.waiting, name) {
        LiveServed(routes, pc, c.loop, routes', pc', l', name, e.rows[name].localPort, e.rows[name].url.value);
      }
    }
  }

  // ---- the engine moves ----

  lemma OpensTruthfully(e: Engine, routes: Routes, registered: bool, c: Conn, spec: Spec, next: Next)
    requires TruthfulBut(e, routes, registered, c, {spec.name}) && Ticketed(c)
    requires e.waiting == None && S.IsEnabled(e.tunnels, spec.name)
    ensures Truthful(e.(waiting := Some(Wait(c.calls.nextTicket, spec, next))), routes, registered, Submitted(c, spec))
  {
    var e', c' := e.(waiting := Some(Wait(c.calls.nextTicket, spec, next))), Submitted(c, spec);
    assert forall i :: 0 <= i < |c.calls.commands| ==> c.calls.commands[i] in c.calls.commands;
    forall name <- e'.rows
      ensures RowTrue(e', routes, registered, c', name)
    {
      if name != spec.name {
        assert RowTrue(e, routes, registered, c, name);
      }
    }
  }

  lemma ClosesTruthfully(e: Engine, routes: Routes, registered: bool, c: Conn, name: string)
    requires TruthfulBut(e, routes, registered, c, {name}) && e.waiting == None
    ensures TruthfulBut(e, routes, registered, SubmittedClose(c, name), {name})
  {
    forall other <- e.rows | other != name
      ensures RowTrue(e, routes, registered, SubmittedClose(c, name), other)
    {
      assert RowTrue(e, routes, registered, c, other);
    }
  }

  /** The engine changes only what it keeps about one name. */
  ghost predicate SameBut(e: Engine, e': Engine, name: string) {
    && e'.waiting == None && e'.jobs == []
    && (forall n | n != name :: n in e'.rows <==> n in e.rows)
    && (forall n | n != name && n in e.rows :: e'.rows[n] == e.rows[n])
    && (forall n | n != name :: S.IsEnabled(e.tunnels, n) ==> S.IsEnabled(e'.tunnels, n))
  }

  lemma OneNameChanges(e: Engine, e': Engine, routes: Routes, registered: bool, c: Conn, name: string)
    requires Truthful(e, routes, registered, c) && e.waiting == None && SameBut(e, e', name)
    ensures TruthfulBut(e', routes, registered, c, {name})
  {
    forall n <- e'.rows | n != name
      ensures RowTrue(e', routes, registered, c, n)
    {
      assert RowTrue(e, routes, registered, c, n);
    }
  }

  lemma ResumesTruthfully(e: Engine, routes: Routes, registered: bool, c: Conn, now: R.Time)
    requires Truthful(e, routes, registered, c) && Ticketed(c)
    requires e.waiting.Some? && e.waiting.value.ticket in c.calls.answers
    ensures Truthful(Resumed(e, c.calls.answers[e.waiting.value.ticket], now), routes, registered, c)
  {
    var e' := Resumed(e, c.calls.answers[e.waiting.value.ticket], now);
    AnsweredIsQuiet(e.waiting, c);
    forall name <- e'.rows
      ensures RowTrue(e', routes, registered, c, name)
    {
      if name != e.waiting.value.spec.name {
        assert RowTrue(e, routes, registered, c, name);
      }
    }
  }

  // ---- the whole world ----

  ghost predicate TruthfulAt(e: Engine, x: Sys, sid: SessionId, but: set<string>) {
    && sid in x.conns && sid in x.server.tasks
    && TruthfulBut(e, RoutesOf(x.server.table, sid), Active(x.server.tasks[sid].pc), x.conns[sid], but)
  }

  ghost predicate NoneShown(e: Engine) {
    AtRest(e) && forall name <- e.rows :: e.rows[name].url == None
  }

  /** Without a session nothing is shown; with one, everything shown is true. */
  ghost predicate Honest(w: World) {
    match w.eng.session
    case None => NoneShown(w.eng)
    case Some(sid) => TruthfulAt(w.eng, w.sys, sid, {})
  }

  ghost predicate WorldInv(cfg: Config, w: World) {
    SysInv(cfg, w.sys) && Honest(w)
  }

  /** Somebody else's step leaves this session's share of the system alone. */
  lemma ShareKept(cfg: Config, x: Sys, turn: Turn, sid: SessionId)
    requires Can(x, turn.sid, turn.act) && turn.sid != sid && sid in x.conns && sid in x.server.tasks
    requires !turn.act.Client? && !EventOf(x, turn.sid, turn.act).Login? ==>
      Ready(x.server, turn.sid) && FreshId(x.server, Move(turn.sid, EventOf(x, turn.sid, turn.act)))
    ensures var x' := Do(cfg, x, turn.sid, turn.act);
      && sid in x'.conns && x'.conns[sid] == x.conns[sid]
      && sid in x'.server.tasks && x'.server.tasks[sid] == x.server.tasks[sid]
      && RoutesOf(x'.server.table, sid) == RoutesOf(x.server.table, sid)
  {
    if !turn.act.Client? {
      var ev := EventOf(x, turn.sid, turn.act);
      if !ev.Login? {
        StepIsLocal(cfg, x.server, turn.sid, ev);
      }
    }
  }

  lemma ReadyForEvent(cfg: Config, x: Sys, turn: Turn)
    requires SysInv(cfg, x) && Can(x, turn.sid, turn.act)
    ensures !turn.act.Client? && !EventOf(x, turn.sid, turn.act).Login? ==>
      Ready(x.server, turn.sid) && FreshId(x.server, Move(turn.sid, EventOf(x, turn.sid, turn.act)))
  {
    if !turn.act.Client? && !EventOf(x, turn.sid, turn.act).Login? {
      InvReady(cfg, x.server, turn.sid);
      ClientsUseFreshIds(cfg, x, turn.sid, turn.act);
    }
  }

  lemma ShareInStep(cfg: Config, x: Sys, sid: SessionId)
    requires SysInv(cfg, x) && sid in x.conns
    ensures sid in x.server.tasks && Ready(x.server, sid) && !x.server.tasks[sid].pc.Fresh?
    ensures Agree(RoutesOf(x.server.table, sid), x.server.tasks[sid].pc, x.conns[sid].loop) && Ticketed(x.conns[sid])
  {
    assert InStep(x, sid);
    InvReady(cfg, x.server, sid);
  }

  lemma ClientHonest(cfg: Config, e: Engine, x: Sys, sid: SessionId, act: ClientAct)
    requires TruthfulAt(e, x, sid, {}) && CanAct(x.conns[sid], act) && !act.Call? && !act.CallClose?
    requires Agree(RoutesOf(x.server.table, sid), x.server.tasks[sid].pc, x.conns[sid].loop) && Ticketed(x.conns[sid])
    ensures TruthfulAt(e, Do(cfg, x, sid, Client(act)), sid, {})
  {
    TruthfulClient(e, RoutesOf(x.server.table, sid), x.server.tasks[sid].pc, x.conns[sid], act);
  }

  lemma ServerHonest(cfg: Config, e: Engine, s: Server, sid: SessionId, ev: Event, c: Conn)
    requires Ready(s, sid) && Enabled(s, sid, ev) && !ev.Login? && !ev.Enter?
    requires ev.Receive? ==> c.loop.up != [] && c.loop.up[0] == ev.msg
    requires Agree(RoutesOf(s.table, sid), s.tasks[sid].pc, c.loop)
    requires Truthful(e, RoutesOf(s.table, sid), Active(s.tasks[sid].pc), c)
    ensures sid in Step(cfg, s, sid, ev).tasks
    ensures var s' := Step(cfg, s, sid, ev);
      Truthful(e, RoutesOf(s'.table, sid), Active(s'.tasks[sid].pc), c.(loop := LoopAfter(cfg, s, sid, ev, c.loop)))
  {
    var s' := Step(cfg, s, sid, ev);
    EventMoves(cfg, s, sid, ev, c.loop);
    TruthfulServed(e, RoutesOf(s.table, sid), s.tasks[sid].pc, c, RoutesOf(s'.table, sid), s'.tasks[sid].pc,
                   LoopAfter(cfg, s, sid, ev, c.loop));
  }

  /** The system's step at this very session, put together. */
  lemma HereHonest(cfg: Config, e: Engine, x: Sys, turn: Turn)
    requires Can(x, turn.sid, turn.act) && TruthfulAt(e, x, turn.sid, {})
    requires !turn.act.Client? || (!turn.act.act.Call? && !turn.act.act.CallClose?)
    requires Ready(x.server, turn.sid) && !x.server.tasks[turn.sid].pc.Fresh? && Ticketed(x.conns[turn.sid])
    requires Agree(RoutesOf(x.server.table, turn.sid), x.server.tasks[turn.sid].pc, x.conns[turn.sid].loop)
    ensures TruthfulAt(e, Do(cfg, x, turn.sid, turn.act), turn.sid, {})
  {
    if turn.act.Client? {
      ClientHonest(cfg, e, x, turn.sid, turn.act.act);
    } else {
      ServerHonest(cfg, e, x.server, turn.sid, EventOf(x, turn.sid, turn.act), x.conns[turn.sid]);
    }
  }

  lemma BackgroundHonest(cfg: Config, w: World, turn: Turn)
    requires WorldInv(cfg, w) && Possible(w, Background(turn))
    ensures WorldInv(cfg, Acted(cfg, w, Background(turn)))
  {
    SysStep(cfg, w.sys, turn.sid, turn.act);
    if w.eng.session == Some(turn.sid) {
      ShareInStep(cfg, w.sys, turn.sid);
      HereHonest(cfg, w.eng, w.sys, turn);
    } else if w.eng.session.Some? {
      ReadyForEvent(cfg, w.sys, turn);
      ShareKept(cfg, w.sys, turn, w.eng.session.value);
    }
  }

  // ---- the engine's own actions, on the whole world ----

  /** The engine's session is up, and what the engine shows is true but for the rows of `but`. */
  ghost predicate HonestBut(w: World, but: set<string>) {
    w.eng.session.Some? && TruthfulAt(w.eng, w.sys, w.eng.session.value, but)
  }

  lemma OpeningShown(w: World, spec: Spec, next: Next)
    requires HonestBut(w, {spec.name}) && Ticketed(Line(w))
    requires w.eng.waiting == None && S.IsEnabled(w.eng.tunnels, spec.name)
    ensures Honest(Opening(w, spec, next))
  {
    var sid := w.eng.session.value;
    OpensTruthfully(w.eng, RoutesOf(w.sys.server.table, sid), Active(w.sys.server.tasks[sid].pc), Line(w), spec, next);
  }

  lemma ClosingShown(w: World, name: string)
    requires HonestBut(w, {name}) && Ticketed(Line(w)) && w.eng.waiting == None
    ensures HonestBut(ClosingName(w, name), {name}) && Ticketed(Line(ClosingName(w, name)))
  {
    var sid := w.eng.session.value;
    ClosesTruthfully(w.eng, RoutesOf(w.sys.server.table, sid), Active(w.sys.server.tasks[sid].pc), Line(w), name);
    SubmitCloseTicketed(Line(w), name);
  }

  lemma NothingShownThere(e: Engine, routes: Routes, registered: bool, c: Conn, name: string)
    requires TruthfulBut(e, routes, registered, c, {name}) && !Showing(e.rows, name)
    ensures Truthful(e, routes, registered, c)
  {
  }

  /** Closing, with no address shown under the name any more. */
  lemma ClosedShown(w: World, name: string)
    requires HonestBut(w, {name}) && !Showing(w.eng.rows, name)
    ensures Honest(w)
  {
    var sid := w.eng.session.value;
    NothingShownThere(w.eng, RoutesOf(w.sys.server.table, sid), Active(w.sys.server.tasks[sid].pc), w.sys.conns[sid], name);
  }

  lemma OneNameHonest(w: World, e: Engine, name: string)
    requires HonestBut(w, {}) && AtRest(w.eng) && SameBut(w.eng, e, name) && e.session == w.eng.session
    ensures HonestBut(w.(eng := e), {name})
  {
    var sid := w.eng.session.value;
    OneNameChanges(w.eng, e, RoutesOf(w.sys.server.table, sid), Active(w.sys.server.tasks[sid].pc), Line(w), name);
  }

  /** A command about one name changes the engine about that name and opens, closes and opens again, or closes. */
  ghost predicate GoesOn(w: World, e: Engine, spec: Spec, next: Next, w': World)
    requires Attached(w)
  {
    && SameBut(w.eng, e, spec.name) && e.session == w.eng.session
    && ((S.IsEnabled(e.tunnels, spec.name) && w' == Opening(w.(eng := e), spec, next))
        || (S.IsEnabled(e.tunnels, spec.name) && w' == Opening(ClosingName(w.(eng := e), spec.name), spec, next))
        || (!Showing(e.rows, spec.name) && w' == ClosingName(w.(eng := e), spec.name)))
  }

  lemma GoesOnShown(w: World, e: Engine, spec: Spec, next: Next, w': World)
    requires Honest(w) && Attached(w) && AtRest(w.eng) && Ticketed(Line(w)) && GoesOn(w, e, spec, next, w')
    ensures Honest(w')
  {
    var changed := w.(eng := e);
    OneNameHonest(w, e, spec.name);
    ClosingShown(changed, spec.name);
    if w' == ClosingName(changed, spec.name) && !Showing(e.rows, spec.name) {
      ClosedShown(w', spec.name);
    } else if w' == Opening(changed, spec, next) {
      OpeningShown(changed, spec, next);
    } else {
      OpeningShown(ClosingName(changed, spec.name), spec, next);
    }
  }

  lemma OpeningSys(cfg: Config, w: World, spec: Spec, next: Next)
    requires Attached(w) && Room(Line(w), 1) && SysInv(cfg, w.sys)
    ensures SysInv(cfg, Opening(w, spec, next).sys)
  {
    SysStep(cfg, w.sys, w.eng.session.value, Client(Call(spec)));
    assert Opening(w, spec, next).sys == Do(cfg, w.sys, w.eng.session.value, Client(Call(spec)));
  }

  lemma ClosingSys(cfg: Config, w: World, name: string)
    requires Attached(w) && Room(Line(w), 1) && SysInv(cfg, w.sys)
    ensures SysInv(cfg, ClosingName(w, name).sys)
  {
    SysStep(cfg, w.sys, w.eng.session.value, Client(CallClose(name)));
    assert ClosingName(w, name).sys == Do(cfg, w.sys, w.eng.session.value, Client(CallClose(name)));
  }

  lemma GoesOnSys(cfg: Config, w: World, e: Engine, spec: Spec, next: Next, w': World)
    requires Attached(w) && Room(Line(w), 2) && GoesOn(w, e, spec, next, w') && SysInv(cfg, w.sys)
    ensures SysInv(cfg, w'.sys)
  {
    var changed := w.(eng := e);
    if w' == Opening(changed, spec, next) {
      OpeningSys(cfg, changed, spec, next);
    } else {
      ClosingSys(cfg, changed, spec.name);
      if w' != ClosingName(changed, spec.name) {
        OpeningSys(cfg, ClosingName(changed, spec.name), spec, next);
      }
    }
  }

  lemma AddingGoesOn(w: World, spec: Spec) returns (e: Engine, effective: Spec)
    requires Attached(w) && AtRest(w.eng) && Naming.ValidateName(spec.name) == None
    requires !(Showing(w.eng.rows, spec.name) && w.eng.rows[spec.name].localPort == spec.localPort)
    ensures GoesOn(w, e, effective, Nothing, Adding(w, spec))
  {
    e := w.eng.(tunnels := S.Upserted(w.eng.tunnels, spec, true));
    effective := S.SpecOf(spec.name, e.tunnels[spec.name]);
  }

  lemma RemovingGoesOn(w: World, name: string) returns (e: Engine, spec: Spec)
    requires Attached(w) && AtRest(w.eng)
    ensures GoesOn(w, e, spec, Nothing, Removing(w, name))
  {
    e := w.eng.(taken := R.Forgotten(w.eng.taken, name), tunnels := S.Removed(w.eng.tunnels, name),
                rows := w.eng.rows - {name});
    spec := S.SpecOf(name, S.DEFAULT_ENTRY);
  }

  lemma RekeyingGoesOn(w: World, name: string, auth: Option<string>) returns (e: Engine, spec: Spec)
    requires Attached(w) && AtRest(w.eng) && S.IsEnabled(w.eng.tunnels, name)
    ensures GoesOn(w, e, spec, ShowGuard, Rekeying(w, name, auth))
  {
    e := w.eng.(tunnels := S.WithAuth(w.eng.tunnels, name, auth));
    spec := S.SpecOf(name, e.tunnels[name]);
  }

  lemma SwitchingGoesOn(w: World, name: string, enabled: bool) returns (e: Engine, spec: Spec)
    requires Attached(w) && AtRest(w.eng) && (enabled ==> name in w.eng.tunnels)
    ensures GoesOn(w, e, spec, Nothing, Switching(w, name, enabled))
  {
    e := w.eng.(tunnels := S.WithEnabled(w.eng.tunnels, name, enabled));
    if enabled {
      spec := S.SpecOf(name, e.tunnels[name]);
    } else {
      e := e.(taken := R.Forgotten(e.taken, name), rows := SwitchedOff(e.rows, name));
      spec := S.SpecOf(name, S.DEFAULT_ENTRY);
    }
  }

  /** The other commands only touch what the engine keeps, and show no more than before. */
  predicate StaysPut(e: Engine, cmd: S.Command) {
    match cmd
    case AddTunnel(spec) =>
      || Naming.ValidateName(spec.name) != None
      || (Showing(e.rows, spec.name) && e.rows[spec.name].localPort == spec.localPort)
    case RemoveTunnel(_) => false
    case SetAuth(name, _) => name !in e.tunnels || !e.tunnels[name].enabled
    case SetEnabled(name, enabled) => enabled && name !in e.tunnels
    case _ => true
  }

  /** Nothing new is shown: the rows stay but for their guard mark, and what was enabled still is. */
  ghost predicate Milder(e: Engine, e': Engine) {
    && e'.session == e.session && e'.waiting == None && e'.jobs == []
    && e'.rows.Keys == e.rows.Keys
    && (forall n <- e.rows :: e'.rows[n] == e.rows[n].(guarded := e'.rows[n].guarded))
    && (forall n: string :: S.IsEnabled(e.tunnels, n) ==> S.IsEnabled(e'.tunnels, n))
  }

  lemma PutCommands(w: World, cmd: S.Command)
    requires Attached(w) && AtRest(w.eng) && StaysPut(w.eng, cmd)
    ensures Handling(w, cmd).sys == w.sys
    ensures Milder(w.eng, Handling(w, cmd).eng) || NoneShown(Handling(w, cmd).eng)
    ensures Handling(w, cmd).eng.session == None ==> NoneShown(Handling(w, cmd).eng)
    ensures Handling(w, cmd).eng.session.Some? ==> Milder(w.eng, Handling(w, cmd).eng)
  {
  }

  lemma MilderShown(w: World, e: Engine)
    requires Honest(w) && Attached(w) && AtRest(w.eng) && Milder(w.eng, e)
    ensures Honest(w.(eng := e))
  {
    var sid := w.eng.session.value;
    MilderTruthful(w.eng, e, RoutesOf(w.sys.server.table, sid), Active(w.sys.server.tasks[sid].pc), Line(w));
  }

  lemma MilderTruthful(e: Engine, e': Engine, routes: Routes, registered: bool, c: Conn)
    requires Truthful(e, routes, registered, c) && e.waiting == None && Milder(e, e')
    ensures Truthful(e', routes, registered, c)
  {
    forall n <- e'.rows
      ensures RowTrue(e', routes, registered, c, n)
    {
      assert RowTrue(e, routes, registered, c, n);
    }
  }

  lemma MovingCommands(w: World, cmd: S.Command) returns (e: Engine, spec: Spec, next: Next)
    requires Attached(w) && AtRest(w.eng) && !StaysPut(w.eng, cmd)
    ensures GoesOn(w, e, spec, next, Handling(w, cmd))
  {
    next := Nothing;
    match cmd
    case AddTunnel(asked) => e, spec := AddingGoesOn(w, asked);
    case RemoveTunnel(name) => e, spec := RemovingGoesOn(w, name);
    case SetAuth(name, auth) =>
      next := ShowGuard;
      e, spec := RekeyingGoesOn(w, name, auth);
    case SetEnabled(name, enabled) => e, spec := SwitchingGoesOn(w, name, enabled);
  }

  /** Every command handled while the session is up leaves what is shown true. */
  lemma CommandsShowTheTruth(w: World, cmd: S.Command)
    requires Honest(w) && Attached(w) && AtRest(w.eng) && Ticketed(Line(w))
    ensures Honest(Handling(w, cmd))
  {
    if StaysPut(w.eng, cmd) {
      PutCommands(w, cmd);
      if Handling(w, cmd).eng.session.Some? {
        MilderShown(w, Handling(w, cmd).eng);
        assert Handling(w, cmd) == w.(eng := Handling(w, cmd).eng);
      }
    } else {
      var e, spec, next := MovingCommands(w, cmd);
      GoesOnShown(w, e, spec, next, Handling(w, cmd));
    }
  }

  lemma HandlingHonest(cfg: Config, w: World, cmd: S.Command, w': World)
    requires Attached(w) && AtRest(w.eng) && Room(Line(w), 2) && w' == Handling(w, cmd)
    requires WorldInv(cfg, w)
    ensures WorldInv(cfg, w')
  {
    ShareInStep(cfg, w.sys, w.eng.session.value);
    CommandsShowTheTruth(w, cmd);
    if StaysPut(w.eng, cmd) {
      PutCommands(w, cmd);
    } else {
      var e, spec, next := MovingCommands(w, cmd);
      GoesOnSys(cfg, w, e, spec, next, w');
    }
  }

  lemma WorkingShown(w: World)
    requires Honest(w) && Attached(w) && w.eng.waiting == None && w.eng.jobs != [] && Ticketed(Line(w))
    ensures Honest(Working(w))
  {
    var sid := w.eng.session.value;
    OneJobLess(w.eng, RoutesOf(w.sys.server.table, sid), Active(w.sys.server.tasks[sid].pc), Line(w));
    var rest := w.(eng := w.eng.(jobs := w.eng.jobs[1..]));
    match w.eng.jobs[0]
    case Reopen(spec) => OpeningShown(rest, spec, Nothing);
    case Retry(name) =>
      if name in w.eng.tunnels && w.eng.tunnels[name].enabled {
        OpeningShown(rest, S.SpecOf(name, w.eng.tunnels[name]), Nothing);
      }
  }

  lemma WorkingHonest(cfg: Config, w: World, w': World)
    requires Attached(w) && w.eng.waiting == None && w.eng.jobs != [] && Room(Line(w), 1) && w' == Working(w)
    requires WorldInv(cfg, w)
    ensures WorldInv(cfg, w')
  {
    ShareInStep(cfg, w.sys, w.eng.session.value);
    WorkingShown(w);
    var rest := w.(eng := w.eng.(jobs := w.eng.jobs[1..]));
    match w.eng.jobs[0]
    case Reopen(spec) => OpeningSys(cfg, rest, spec, Nothing);
    case Retry(name) =>
      if name in w.eng.tunnels && w.eng.tunnels[name].enabled {
        OpeningSys(cfg, rest, S.SpecOf(name, w.eng.tunnels[name]), Nothing);
      }
  }

  lemma OneJobLess(e: Engine, routes: Routes, registered: bool, c: Conn)
    requires Truthful(e, routes, registered, c) && e.jobs != []
    ensures forall taken, but :: TruthfulBut(e.(jobs := e.jobs[1..], taken := taken), routes, registered, c, but)
    ensures e.jobs[0].Reopen? ==> S.IsEnabled(e.tunnels, e.jobs[0].spec.name)
  {
    forall taken, but
      ensures TruthfulBut(e.(jobs := e.jobs[1..], taken := taken), routes, registered, c, but)
    {
      var e' := e.(jobs := e.jobs[1..], taken := taken);
      assert forall j <- e'.jobs :: j in e.jobs;
      forall n <- e'.rows
        ensures RowTrue(e', routes, registered, c, n)
      {
        assert RowTrue(e, routes, registered, c, n);
      }
    }
  }

  lemma ResumeHonest(cfg: Config, w: World, now: R.Time)
    requires WorldInv(cfg, w) && Possible(w, Resume(now))
    ensures WorldInv(cfg, Acted(cfg, w, Resume(now)))
  {
    var sid := w.eng.session.value;
    ShareInStep(cfg, w.sys, sid);
    ResumesTruthfully(w.eng, RoutesOf(w.sys.server.table, sid), Active(w.sys.server.tasks[sid].pc), Line(w), now);
  }

  lemma TickHonest(cfg: Config, w: World, now: R.Time, due: seq<string>)
    requires WorldInv(cfg, w) && Possible(w, TimerTick(now, due))
    ensures WorldInv(cfg, Ticking(w, due))
  {
    if Line(w).loop.running {
      var sid := w.eng.session.value;
      MoreRetries(w.eng, Ticking(w, due).eng.jobs, RoutesOf(w.sys.server.table, sid),
                  Active(w.sys.server.tasks[sid].pc), Line(w));
    }
  }

  lemma MoreRetries(e: Engine, jobs: seq<Job>, routes: Routes, registered: bool, c: Conn)
    requires Truthful(e, routes, registered, c) && forall j <- jobs :: j.Retry?
    ensures Truthful(e.(jobs := jobs), routes, registered, c)
  {
    forall n <- e.rows
      ensures RowTrue(e.(jobs := jobs), routes, registered, c, n)
    {
      assert RowTrue(e, routes, registered, c, n);
    }
  }

  lemma AttachHonest(cfg: Config, w: World, sid: SessionId, specs: seq<Spec>, h: nat)
    requires WorldInv(cfg, w) && Possible(w, Attach(sid, specs, h))
    ensures WorldInv(cfg, Acted(cfg, w, Attach(sid, specs, h)))
  {
    SysStep(cfg, w.sys, sid, Serve(Enter));
    var x' := Do(cfg, w.sys, sid, Serve(Enter));
    FreshLineHonest(Acted(cfg, w, Attach(sid, specs, h)).eng, specs, RoutesOf(x'.server.table, sid),
                    Active(x'.server.tasks[sid].pc));
  }

  lemma FreshLineHonest(e: Engine, specs: seq<Spec>, routes: Routes, registered: bool)
    requires e.waiting == None && (forall name <- e.rows :: e.rows[name].url == None)
    requires S.ListsEnabled(e.tunnels, specs) && e.jobs == seq(|specs|, i requires 0 <= i < |specs| => Reopen(specs[i]))
    ensures Truthful(e, routes, registered, NEW_CONN)
  {
  }

  /** Whatever happens, the engine never shows an address that is not there. */
  lemma HonestyLasts(cfg: Config, w: World, a: Action)
    requires WorldInv(cfg, w) && Possible(w, a)
    ensures WorldInv(cfg, Acted(cfg, w, a))
  {
    match a
    case Background(turn) => BackgroundHonest(cfg, w, turn);
    case Attach(sid, specs, h) => AttachHonest(cfg, w, sid, specs, h);
    case Handle(cmd) => HandlingHonest(cfg, w, cmd, Handling(w, cmd));
    case HandleOffline(_) =>
    case NextJob => WorkingHonest(cfg, w, Working(w));
    case Resume(now) => ResumeHonest(cfg, w, now);
    case TimerTick(now, due) => TickHonest(cfg, w, now, due);
    case LinkLost =>
  }

  lemma {:induction false} HonestyAlways(cfg: Config, w: World, actions: seq<Action>)
    requires WorldInv(cfg, w) && Possibly(cfg, w, actions)
    ensures WorldInv(cfg, Later(cfg, w, actions))
    decreases |actions|
  {
    if actions != [] {
      HonestyLasts(cfg, w, actions[0]);
      HonestyAlways(cfg, Acted(cfg, w, actions[0]), actions[1..]);
    }
  }

  // ---- what the user is promised ----

  ghost predicate Lived(cfg: Config, w: World) {
    exists tunnels, actions :: Possibly(cfg, Initially(tunnels), actions) && Later(cfg, Initially(tunnels), actions) == w
  }

  lemma LivedHonest(cfg: Config, w: World)
    requires Lived(cfg, w)
    ensures WorldInv(cfg, w)
  {
    var tunnels, actions :|
      Possibly(cfg, Initially(tunnels), actions) && Later(cfg, Initially(tunnels), actions) == w;
    InitiallyOk(cfg);
    HonestyAlways(cfg, Initially(tunnels), actions);
  }

  /**
   * A row showing an address, other than one whose open is being waited for, names a configured and enabled
   * tunnel; the client maps that tunnel's id to exactly the local port shown; and as long as the server has
   * the session registered it routes the address to that id.
   */
  lemma ShownAddressesAreReal(cfg: Config, w: World, name: string)
    requires Lived(cfg, w) && Showing(w.eng.rows, name) && !Awaits(w.eng.waiting, name)
    ensures w.eng.session.Some? && w.eng.session.value in w.sys.conns
    ensures S.IsEnabled(w.eng.tunnels, name) && w.eng.rows[name].enabled
    ensures
      var sid := w.eng.session.value;
      var l := w.sys.conns[sid].loop;
      && name in l.byName
      && l.byName[name] in l.ports
      && l.ports[l.byName[name]] == LocalRoute(w.eng.rows[name].localPort, name)
      && (sid in w.sys.server.table.sessions ==>
            Backs(RoutesOf(w.sys.server.table, sid), l.byName[name], w.eng.rows[name].url.value))
  {
    LivedHonest(cfg, w);
    var sid := w.eng.session.value;
    ShareInStep(cfg, w.sys, sid);
    assert RowTrue(w.eng, RoutesOf(w.sys.server.table, sid), Active(w.sys.server.tasks[sid].pc), w.sys.conns[sid], name);
  }

  /** Without a session no row shows an address. */
  lemma NothingShownWhenDown(cfg: Config, w: World)
    requires Lived(cfg, w) && w.eng.session == None
    ensures forall name <- w.eng.rows :: w.eng.rows[name].url == None
    ensures AtRest(w.eng)
  {
    LivedHonest(cfg, w);
  }

  /**
   * The moment an answer is noted, the row and the books on retries say the same: granted, with the address;
   * waiting for the name, with a retry booked; the name lost for good, with none; or the plain reason. No other
   * row and no other retry changes.
   */
  lemma AnswersAreShown(e: Engine, answer: Answer, now: R.Time)
    requires e.waiting.Some?
    ensures
      var name, e' := e.waiting.value.spec.name, Resumed(e, answer, now);
      && name in e'.rows && e'.rows[name].localPort == e.waiting.value.spec.localPort && e'.rows[name].enabled
      && var row := e'.rows[name];
         match answer
         case Granted(public) => row.url == Some(public) && row.error == None && name !in e'.taken.pending
         case Refusal(code) =>
           && row.url == None
           && (code == Some(CodeTaken) ==> row.error == Some(if name in e'.taken.pending then WaitingForName else NameTaken))
           && (code != Some(CodeTaken) ==> row.error == Some(Reason(code)) && name !in e'.taken.pending)
    ensures
      var name, e' := e.waiting.value.spec.name, Resumed(e, answer, now);
      && (e.waiting.value.next.ShowGuard? ==>
            e'.rows[name].guarded == (name in e.tunnels && e.tunnels[name].auth.Some?))
      && (e.waiting.value.next.Nothing? ==>
            e'.rows[name].guarded == if name in e.rows then e.rows[name].guarded else e.waiting.value.spec.auth.Some?)
      && e'.rows - {name} == e.rows - {name}
      && e'.taken.pending - {name} == e.taken.pending - {name}
  {
    R.VerdictsSettle(e.taken, e.waiting.value.spec.name, Bare(ResultOf(answer)), now);
    RestStays(e, answer, now);
  }

  lemma RestStays(e: Engine, answer: Answer, now: R.Time)
    requires e.waiting.Some?
    ensures
      var name, e' := e.waiting.value.spec.name, Resumed(e, answer, now);
      e'.rows - {name} == e.rows - {name} && e'.taken.pending - {name} == e.taken.pending - {name}
  {
    var name, e' := e.waiting.value.spec.name, Resumed(e, answer, now);
    assert forall n | n != name :: n in e'.rows <==> n in e.rows;
    assert forall n | n != name :: n in e'.taken.pending <==> n in e.taken.pending;
  }
}
