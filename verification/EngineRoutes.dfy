/**
 * From the user's commands to the server's routes: every route of the engine's session was opened by the engine, with
 * the password and the domain the commands had given by then (crates/cy-core/src/engine.rs, client.rs and
 * crates/cy-server/src/control.rs taken together).
 */
module EngineRoutes {
  import opened Basics
  import opened Registry
  import opened ControlMessages
  import opened ControlLoop
  import opened ServerMachine
  import opened ServerOwnership
  import opened ServerRoutes
  import opened TunnelSystem
  import opened Engine
  import opened EngineHistory
  import opened EngineOutbox
  import opened EngineProofs
  import S = TunnelState
  import Naming

  /** The route is what the spec says, under the host it says. */
  ghost predicate Serves(cfg: Config, user: User, h: Host, route: Tunnel, spec: Spec) {
    && route.name == spec.name && route.kind == spec.kind && route.auth == spec.auth
    && h == Lower(if spec.kind == Http && spec.customDomain.Some? then spec.customDomain.value
                  else Naming.HostFor(user, spec.name, cfg.suffix))
  }

  ghost predicate OneCarried(m: ClientMsg, specs: set<Spec>) {
    exists spec <- specs :: Carries(m, spec)
  }

  ghost predicate OneServed(cfg: Config, user: User, h: Host, route: Tunnel, specs: set<Spec>) {
    exists spec <- specs :: Serves(cfg, user, h, route, spec)
  }

  /** Everything on its way to the server and everything the server routes stems from these specs. */
  ghost predicate StemFrom(cfg: Config, specs: set<Spec>, user: User, c: Conn, routes: Routes) {
    && (forall k <- c.calls.commands :: k.Open? ==> k.spec in specs)
    && (forall m <- c.loop.up :: m.OpenTunnel? ==> OneCarried(m, specs))
    && (forall h <- routes :: OneServed(cfg, user, h, routes[h], specs))
  }

  // ---- the client's moves ----

  lemma ClientStems(cfg: Config, specs: set<Spec>, user: User, c: Conn, routes: Routes, a: ClientAct)
    requires StemFrom(cfg, specs, user, c, routes) && CanAct(c, a) && !a.Call?
    ensures StemFrom(cfg, specs, user, ClientDo(c, a), routes)
  {
    if a.TakeCommand? {
      CommandStems(cfg, specs, user, c, routes);
    }
  }

  lemma CommandStems(cfg: Config, specs: set<Spec>, user: User, c: Conn, routes: Routes)
    requires StemFrom(cfg, specs, user, c, routes) && c.loop.running && c.calls.commands != []
    ensures StemFrom(cfg, specs, user, AfterCommand(c), routes)
  {
    var k := c.calls.commands[0];
    assert k in c.calls.commands && forall x <- c.calls.commands[1..] :: x in c.calls.commands;
    if k.Open? {
      var m := OpenRequest(c.loop.nextId, k.spec);
      assert Carries(m, k.spec);
      assert forall x <- AfterCommand(c).loop.up :: x in c.loop.up || x == m;
    }
  }

  // ---- the server's moves ----

  lemma ServedAs(cfg: Config, user: User, m: Move, h: Host, route: Tunnel, specs: set<Spec>)
    requires AskedFor(cfg, m, h, route) && route.session.user == user && OneCarried(m.ev.msg, specs)
    ensures OneServed(cfg, user, h, route, specs)
  {
    var spec :| spec in specs && Carries(m.ev.msg, spec);
    assert Serves(cfg, user, h, route, spec);
  }

  lemma SameIsServed(cfg: Config, user: User, h: Host, a: Tunnel, b: Tunnel, specs: set<Spec>)
    requires SameRoute(b, a) && OneServed(cfg, user, h, a, specs)
    ensures OneServed(cfg, user, h, b, specs)
  {
    var spec :| spec in specs && Serves(cfg, user, h, a, spec);
    assert Serves(cfg, user, h, b, spec);
  }

  /** A step of the session adds at most the route of the message it reads. */
  lemma RoutesStem(cfg: Config, s: Server, sid: SessionId, ev: Event, specs: set<Spec>, s': Server)
    requires TasksOk(s) && Enabled(s, sid, ev) && sid in s.tasks && s' == Step(cfg, s, sid, ev)
    requires ev.Receive? && ev.msg.OpenTunnel? ==> OneCarried(ev.msg, specs)
    requires var routes := RoutesOf(s.table, sid);
      forall h <- routes :: OneServed(cfg, s.tasks[sid].session.user, h, routes[h], specs)
    ensures var routes' := RoutesOf(s'.table, sid);
      forall h <- routes' :: OneServed(cfg, s.tasks[sid].session.user, h, routes'[h], specs)
  {
    var routes, routes' := RoutesOf(s.table, sid), RoutesOf(s'.table, sid);
    forall h <- routes'
      ensures OneServed(cfg, s.tasks[sid].session.user, h, routes'[h], specs)
    {
      StepRoutes(cfg, s, Move(sid, ev), h);
      if h in s.table.hosts {
        assert h in routes;
        SameIsServed(cfg, s.tasks[sid].session.user, h, routes[h], routes'[h], specs);
      } else {
        ServedAs(cfg, s.tasks[sid].session.user, Move(sid, ev), h, routes'[h], specs);
      }
    }
  }

  lemma ServerStems(cfg: Config, x: Sys, sid: SessionId, a: Act, specs: set<Spec>, x': Sys)
    requires sid in x.conns && sid in x.server.tasks
    requires StemFrom(cfg, specs, x.server.tasks[sid].session.user, x.conns[sid], RoutesOf(x.server.table, sid))
    requires Can(x, sid, a) && !a.Client? && x' == Do(cfg, x, sid, a) && TasksOk(x.server) && Connected(x)
    ensures sid in x'.conns && sid in x'.server.tasks
    ensures StemFrom(cfg, specs, x'.server.tasks[sid].session.user, x'.conns[sid], RoutesOf(x'.server.table, sid))
  {
    EntersOnce(x, sid, a);
    var ev := EventOf(x, sid, a);
    if ev.Receive? {
      assert x.conns[sid].loop.up[0] in x.conns[sid].loop.up;
    }
    RoutesStem(cfg, x.server, sid, ev, specs, x'.server);
    UpShrinks(cfg, x.server, sid, ev, x.conns[sid].loop);
    SessionStays(cfg, x.server, sid, ev);
  }

  lemma UpShrinks(cfg: Config, s: Server, sid: SessionId, ev: Event, l: Loop)
    requires Enabled(s, sid, ev) && (ev.Receive? ==> l.up != [])
    ensures forall m <- LoopAfter(cfg, s, sid, ev, l).up :: m in l.up
  {
  }

  lemma SessionStays(cfg: Config, s: Server, sid: SessionId, ev: Event)
    requires Enabled(s, sid, ev) && !ev.Login?
    ensures sid in s.tasks && sid in Step(cfg, s, sid, ev).tasks
    ensures Step(cfg, s, sid, ev).tasks[sid].session == s.tasks[sid].session
  {
  }

  // ---- the whole world ----

  ghost predicate StemAt(cfg: Config, w: World, sid: SessionId, specs: set<Spec>) {
    w.eng.session == Some(sid) ==>
      && sid in w.sys.conns && sid in w.sys.server.tasks
      && StemFrom(cfg, specs, w.sys.server.tasks[sid].session.user, w.sys.conns[sid], RoutesOf(w.sys.server.table, sid))
  }

  ghost function SpecsOf(put: seq<Command>): set<Spec> {
    set k | k in put && k.Open? :: k.spec
  }

  lemma TurnStems(cfg: Config, w: World, turn: Turn, sid: SessionId, specs: set<Spec>)
    requires StemAt(cfg, w, sid, specs) && w.eng.session == Some(sid)
    requires WorldInv(cfg, w) && Possible(w, Background(turn))
    ensures StemAt(cfg, Acted(cfg, w, Background(turn)), sid, specs)
  {
    ShareInStep(cfg, w.sys, sid);
    if turn.sid != sid {
      ReadyForEvent(cfg, w.sys, turn);
      ShareKept(cfg, w.sys, turn, sid);
    } else if turn.act.Client? {
      ClientStems(cfg, specs, w.sys.server.tasks[sid].session.user, w.sys.conns[sid],
                  RoutesOf(w.sys.server.table, sid), turn.act.act);
    } else {
      ServerStems(cfg, w.sys, sid, turn.act, specs, Do(cfg, w.sys, sid, turn.act));
    }
  }

  /** A new session starts with nothing. */
  lemma EntryStems(cfg: Config, w: World, a: Action, sid: SessionId, specs: set<Spec>)
    requires WorldInv(cfg, w) && Possible(w, a) && a.Attach? && a.sid == sid
    ensures StemAt(cfg, Acted(cfg, w, a), sid, specs)
  {
    InvReady(cfg, w.sys.server, sid);
    EnterOwn(cfg, w.sys.server, sid);
  }

  /** The engine's own actions only append commands. */
  ghost predicate Grows(w: World, sid: SessionId, w': World) {
    && sid in w.sys.conns && w'.sys.server == w.sys.server && sid in w'.sys.conns
    && w'.sys.conns[sid].loop == w.sys.conns[sid].loop
    && w.sys.conns[sid].calls.commands <= w'.sys.conns[sid].calls.commands
  }

  lemma OpeningGrows(w: World, e: Engine, spec: Spec, next: Next, sid: SessionId)
    requires Attached(w) && w.eng.session == Some(sid) && e.session == Some(sid)
    ensures Grows(w, sid, Opening(w.(eng := e), spec, next))
  {
  }

  lemma ReopeningGrows(w: World, e: Engine, name: string, spec: Spec, next: Next, sid: SessionId)
    requires Attached(w) && w.eng.session == Some(sid) && e.session == Some(sid)
    ensures Grows(w, sid, Opening(ClosingName(w.(eng := e), name), spec, next))
  {
  }

  lemma CommandGrows(w: World, cmd: S.Command, sid: SessionId)
    requires Attached(w) && AtRest(w.eng) && w.eng.session == Some(sid)
    ensures Grows(w, sid, Handling(w, cmd))
  {
    match cmd
    case AddTunnel(spec) =>
      if Naming.ValidateName(spec.name) == None {
        var e := w.eng.(tunnels := S.Upserted(w.eng.tunnels, spec, true));
        var effective := S.SpecOf(spec.name, e.tunnels[spec.name]);
        OpeningGrows(w, e, effective, Nothing, sid);
        ReopeningGrows(w, e, spec.name, effective, Nothing, sid);
      }
    case RemoveTunnel(_) =>
    case SetAuth(name, auth) =>
      if name in w.eng.tunnels {
        var e := w.eng.(tunnels := S.WithAuth(w.eng.tunnels, name, auth));
        ReopeningGrows(w, e, name, S.SpecOf(name, e.tunnels[name]), ShowGuard, sid);
      }
    case SetEnabled(name, enabled) =>
      var e := w.eng.(tunnels := S.WithEnabled(w.eng.tunnels, name, enabled));
      if enabled && name in e.tunnels {
        OpeningGrows(w, e, S.SpecOf(name, e.tunnels[name]), Nothing, sid);
      }
    case _ =>
  }

  lemma WorkGrows(w: World, sid: SessionId)
    requires Attached(w) && w.eng.session == Some(sid) && w.eng.jobs != []
    ensures Grows(w, sid, Working(w))
  {
    var e := w.eng.(jobs := w.eng.jobs[1..]);
    match w.eng.jobs[0]
    case Reopen(spec) => OpeningGrows(w, e, spec, Nothing, sid);
    case Retry(name) =>
      if S.IsEnabled(e.tunnels, name) {
        OpeningGrows(w, e, S.SpecOf(name, e.tunnels[name]), Nothing, sid);
      }
  }

  lemma OwnActionStems(cfg: Config, w: World, a: Action, sid: SessionId, specs: set<Spec>, w': World)
    requires StemAt(cfg, w, sid, specs) && w.eng.session == Some(sid)
    requires Possible(w, a) && (a.Handle? || a.NextJob?) && w' == Acted(cfg, w, a)
    requires SpecsOf(PutBy(sid, w, a, w')) <= specs
    ensures StemAt(cfg, w', sid, specs)
  {
    if a.Handle? {
      CommandGrows(w, a.cmd, sid);
    } else {
      WorkGrows(w, sid);
    }
    var before, after, put := w.sys.conns[sid].calls.commands, w'.sys.conns[sid].calls.commands, PutBy(sid, w, a, w');
    assert after == before + put;
    forall k <- after | k.Open?
      ensures k in before || k.spec in SpecsOf(put)
    {
    }
  }

  /** Only attaching brings the engine to another session. */
  lemma SessionOnlyByAttach(cfg: Config, w: World, a: Action, sid: SessionId)
    requires Possible(w, a) && w.eng.session != Some(sid) && (a.Attach? ==> a.sid != sid)
    ensures Acted(cfg, w, a).eng.session != Some(sid)
  {
  }

  lemma RestStems(cfg: Config, w: World, a: Action, sid: SessionId, specs: set<Spec>)
    requires StemAt(cfg, w, sid, specs) && w.eng.session == Some(sid)
    requires Possible(w, a) && (a.Resume? || a.TimerTick? || a.LinkLost? || a.HandleOffline?)
    ensures StemAt(cfg, Acted(cfg, w, a), sid, specs)
  {
    assert Acted(cfg, w, a).sys == w.sys;
  }

  lemma WorldStems(cfg: Config, w: World, a: Action, sid: SessionId, specs: set<Spec>, w': World)
    requires StemAt(cfg, w, sid, specs) && WorldInv(cfg, w) && Possible(w, a) && w' == Acted(cfg, w, a)
    requires SpecsOf(PutBy(sid, w, a, w')) <= specs
    ensures StemAt(cfg, w', sid, specs)
  {
    if a.Attach? && a.sid == sid {
      EntryStems(cfg, w, a, sid, specs);
    } else if w.eng.session != Some(sid) {
      SessionOnlyByAttach(cfg, w, a, sid);
    } else {
      match a
      case Background(turn) => TurnStems(cfg, w, turn, sid, specs);
      case Handle(_) => OwnActionStems(cfg, w, a, sid, specs, w');
      case NextJob => OwnActionStems(cfg, w, a, sid, specs, w');
      case Attach(_, _, _) =>
      case _ => RestStems(cfg, w, a, sid, specs);
    }
  }

  lemma {:induction false} AlwaysStems(cfg: Config, w: World, actions: seq<Action>, sid: SessionId, specs: set<Spec>)
    requires StemAt(cfg, w, sid, specs) && WorldInv(cfg, w) && Possibly(cfg, w, actions)
    requires SpecsOf(Outbox(cfg, sid, w, actions)) <= specs
    ensures StemAt(cfg, Later(cfg, w, actions), sid, specs)
    decreases |actions|
  {
    if actions != [] {
      var w' := Acted(cfg, w, actions[0]);
      var put, rest := PutBy(sid, w, actions[0], w'), Outbox(cfg, sid, w', actions[1..]);
      PutTogether(put, rest, specs);
      WorldStems(cfg, w, actions[0], sid, specs, w');
      HonestyLasts(cfg, w, actions[0]);
      AlwaysStems(cfg, w', actions[1..], sid, specs);
    }
  }

  lemma PutTogether(put: seq<Command>, rest: seq<Command>, specs: set<Spec>)
    requires SpecsOf(put + rest) <= specs
    ensures SpecsOf(put) <= specs && SpecsOf(rest) <= specs
  {
    forall k | (k in put || k in rest) && k.Open?
      ensures k.spec in specs
    {
      assert k in put + rest;
      assert k.spec in SpecsOf(put + rest);
    }
  }

  // ---- from command to route ----

  /** At some moment the commands so far had left the tunnel on, with exactly this to be opened for it. */
  ghost predicate WasSaid(actions: seq<Action>, spec: Spec) {
    exists i :: 0 <= i <= |actions| && SaidBy(CommandLog(actions[..i]), spec)
  }

  ghost predicate SaidBy(log: seq<S.Handled>, spec: Spec) {
    && S.Configured(log, spec.name) && S.LastSwitchedOn(log, spec.name)
    && spec == Spec(spec.name, S.LastPort(log, spec.name), Http, S.LastAuth(log, spec.name), S.LastDomain(log, spec.name))
  }

  lemma {:induction false} PutWasSaid(cfg: Config, before: seq<Action>, actions: seq<Action>, w: World, sid: SessionId, k: Command)
    requires Possibly(cfg, Initially(map[]), before) && w == Later(cfg, Initially(map[]), before)
    requires Possibly(cfg, w, actions) && k in Outbox(cfg, sid, w, actions) && k.Open?
    ensures WasSaid(before + actions, k.spec)
    decreases |actions|
  {
    var a, rest := actions[0], actions[1..];
    OneMore(cfg, Initially(map[]), before, a);
    Regroup(before, a, actions);
    if k in PutBy(sid, w, a, Acted(cfg, w, a)) {
      PutIsSaid(cfg, before, a, w, sid, k);
      assert SaidBy(CommandLog((before + actions)[..|before| + 1]), k.spec);
    } else {
      PutWasSaid(cfg, before + [a], rest, Acted(cfg, w, a), sid, k);
    }
  }

  lemma Regroup(before: seq<Action>, a: Action, actions: seq<Action>)
    requires actions != [] && actions[0] == a
    ensures before + actions == (before + [a]) + actions[1..]
    ensures (before + actions)[..|before| + 1] == before + [a]
  {
  }

  lemma PutIsSaid(cfg: Config, before: seq<Action>, a: Action, w: World, sid: SessionId, k: Command)
    requires Possibly(cfg, Initially(map[]), before) && w == Later(cfg, Initially(map[]), before)
    requires Possible(w, a) && k.Open? && k in PutBy(sid, w, a, Acted(cfg, w, a))
    ensures SaidBy(CommandLog(before + [a]), k.spec)
  {
    OpensCarryTheLog(cfg, before, a, sid, k);
  }

  /**
   * Over any history: every route the server holds for the engine's session was opened by the engine. It has the
   * kind, the password and the host of what the user's commands, at some moment, had left on under its name.
   */
  lemma EveryRouteWasSaid(cfg: Config, actions: seq<Action>, w: World, sid: SessionId, h: Host)
    requires Possibly(cfg, Initially(map[]), actions) && w == Later(cfg, Initially(map[]), actions)
    requires w.eng.session == Some(sid) && h in w.sys.server.table.hosts && w.sys.server.table.hosts[h].session.id == sid
    ensures sid in w.sys.server.tasks
    ensures exists spec ::
      WasSaid(actions, spec) && Serves(cfg, w.sys.server.tasks[sid].session.user, h, w.sys.server.table.hosts[h], spec)
  {
    var box := Outbox(cfg, sid, Initially(map[]), actions);
    InitiallyOk(cfg);
    AlwaysStems(cfg, Initially(map[]), actions, sid, SpecsOf(box));
    assert h in RoutesOf(w.sys.server.table, sid);
    var spec :| spec in SpecsOf(box) &&
      Serves(cfg, w.sys.server.tasks[sid].session.user, h, w.sys.server.table.hosts[h], spec);
    var k :| k in box && k.Open? && k.spec == spec;
    var none: seq<Action> := [];
    PutWasSaid(cfg, none, actions, Initially(map[]), sid, k);
    assert none + actions == actions;
  }

  // ---- right after a reconnect ----

  lemma JobWithin(w: World)
    requires Attached(w) && w.eng.jobs != []
    ensures Working(w).eng.jobs == w.eng.jobs[1..] && Working(w).eng.tunnels == w.eng.tunnels
    ensures Working(w).eng.session == w.eng.session
  {
  }

  lemma WithinStep(cfg: Config, w: World, a: Action, sid: SessionId, w': World)
    requires (a.Background? || a.NextJob? || a.Resume?) && w.eng.session == Some(sid)
    requires Possible(w, a) && w' == Acted(cfg, w, a)
    ensures w'.eng.session == Some(sid) && w'.eng.tunnels == w.eng.tunnels
    ensures forall spec <- SpecsOf(PutBy(sid, w, a, w')) :: spec in Owed(w.eng.tunnels, w.eng.jobs)
    ensures forall spec <- Owed(w'.eng.tunnels, w'.eng.jobs) :: spec in Owed(w.eng.tunnels, w.eng.jobs)
  {
    match a
    case NextJob =>
      JobWithin(w);
      if Line(w).loop.running {
        JobPuts(w);
        assert forall k <- PutBy(sid, w, a, w') :: k.Open? && k.spec in OwedBy(w.eng.tunnels, w.eng.jobs[0]);
      } else {
        NothingPutWhenStopped(w, a, cfg, sid);
      }
    case _ => OthersPutNothing(cfg, w, a, sid);
  }

  lemma SpecsJoin(put: seq<Command>, rest: seq<Command>)
    ensures SpecsOf(put + rest) == SpecsOf(put) + SpecsOf(rest)
  {
  }

  /** As long as the engine only works off its jobs, it opens nothing but what they stand for. */
  lemma {:induction false} OnlyOwed(cfg: Config, w: World, actions: seq<Action>, sid: SessionId)
    requires WorksOff(actions) && w.eng.session == Some(sid) && Possibly(cfg, w, actions)
    ensures forall spec <- SpecsOf(Outbox(cfg, sid, w, actions)) :: spec in Owed(w.eng.tunnels, w.eng.jobs)
    ensures Later(cfg, w, actions).eng.session == Some(sid)
    decreases |actions|
  {
    if actions != [] {
      var a, w' := actions[0], Acted(cfg, w, actions[0]);
      assert a in actions && forall b <- actions[1..] :: b in actions;
      WithinStep(cfg, w, a, sid, w');
      OnlyOwed(cfg, w', actions[1..], sid);
      SpecsJoin(PutBy(sid, w, a, w'), Outbox(cfg, sid, w', actions[1..]));
    }
  }

  lemma NewSessionStems(cfg: Config, w0: World, a: Action, rest: seq<Action>, w1: World, w: World, sid: SessionId, specs: seq<Spec>)
    requires a.Attach? && a.sid == sid && a.specs == specs && WorksOff(rest)
    requires WorldInv(cfg, w0) && Possible(w0, a) && w1 == Acted(cfg, w0, a)
    requires Possibly(cfg, w1, rest) && w == Later(cfg, w1, rest)
    ensures w.eng.session == Some(sid) && StemAt(cfg, w, sid, Elements(specs))
  {
    HonestyLasts(cfg, w0, a);
    EntryStems(cfg, w0, a, sid, Elements(specs));
    ReopensOwe(w1.eng.tunnels, specs);
    OnlyOwed(cfg, w1, rest, sid);
    AlwaysStems(cfg, w1, rest, sid, Elements(specs));
  }

  lemma ListIsSaid(log: seq<S.Handled>, specs: seq<Spec>, spec: Spec)
    requires spec in specs
    requires (exists i :: 0 <= i < |specs| && specs[i].name == spec.name) ==>
      S.Configured(log, spec.name) && S.LastSwitchedOn(log, spec.name)
    requires forall i :: 0 <= i < |specs| && specs[i].name == spec.name ==>
      S.Configured(log, spec.name) &&
      specs[i] == Spec(spec.name, S.LastPort(log, spec.name), Http, S.LastAuth(log, spec.name), S.LastDomain(log, spec.name))
    ensures SaidBy(log, spec)
  {
    var i :| 0 <= i < |specs| && specs[i] == spec;
  }

  lemma NewRoute(
    cfg: Config, actions: seq<Action>, w0: World, sid: SessionId, specs: seq<Spec>, heartbeat: nat, rest: seq<Action>,
    w1: World, w: World, h: Host) returns (spec: Spec)
    requires Possibly(cfg, Initially(map[]), actions) && w0 == Later(cfg, Initially(map[]), actions)
    requires Possible(w0, Attach(sid, specs, heartbeat)) && w1 == Acted(cfg, w0, Attach(sid, specs, heartbeat))
    requires WorksOff(rest) && Possibly(cfg, w1, rest) && w == Later(cfg, w1, rest)
    requires h in w.sys.server.table.hosts && w.sys.server.table.hosts[h].session.id == sid
    ensures sid in w.sys.server.tasks && spec in specs
    ensures Serves(cfg, w.sys.server.tasks[sid].session.user, h, w.sys.server.table.hosts[h], spec)
  {
    InitiallyOk(cfg);
    HonestyAlways(cfg, Initially(map[]), actions);
    NewSessionStems(cfg, w0, Attach(sid, specs, heartbeat), rest, w1, w, sid, specs);
    spec := SpecServed(cfg, w, sid, specs, h);
  }

  lemma SpecServed(cfg: Config, w: World, sid: SessionId, specs: seq<Spec>, h: Host) returns (spec: Spec)
    requires w.eng.session == Some(sid) && StemAt(cfg, w, sid, Elements(specs))
    requires h in w.sys.server.table.hosts && w.sys.server.table.hosts[h].session.id == sid
    ensures sid in w.sys.server.tasks && spec in specs
    ensures Serves(cfg, w.sys.server.tasks[sid].session.user, h, w.sys.server.table.hosts[h], spec)
  {
    assert h in RoutesOf(w.sys.server.table, sid);
    spec :| spec in Elements(specs) &&
      Serves(cfg, w.sys.server.tasks[sid].session.user, h, w.sys.server.table.hosts[h], spec);
  }

  lemma SpecIsSaid(
    cfg: Config, actions: seq<Action>, w0: World, sid: SessionId, specs: seq<Spec>, heartbeat: nat, spec: Spec)
    requires Possibly(cfg, Initially(map[]), actions) && w0 == Later(cfg, Initially(map[]), actions)
    requires Possible(w0, Attach(sid, specs, heartbeat)) && spec in specs
    ensures SaidBy(CommandLog(actions), spec)
  {
    ReconnectReopens(cfg, actions, sid, specs, heartbeat, spec.name);
    ListIsSaid(CommandLog(actions), specs, spec);
  }

  lemma ProtectedBy(cfg: Config, log: seq<S.Handled>, user: User, h: Host, route: Tunnel, spec: Spec)
    requires SaidBy(log, spec) && Serves(cfg, user, h, route, spec)
    ensures
      && S.Configured(log, route.name) && S.LastSwitchedOn(log, route.name)
      && route.auth == S.LastAuth(log, route.name) && route.kind == Http
      && h == Lower(match S.LastDomain(log, route.name)
                    case Some(domain) => domain
                    case None => Naming.HostFor(user, route.name, cfg.suffix))
  {
  }

  /**
   * After a reconnect, at any moment until the user's next command: every route of the new session is of a tunnel the
   * commands so far left on, with the last password given to it.
   */
  lemma ReconnectedRoutesAreProtected(
    cfg: Config, actions: seq<Action>, w0: World, sid: SessionId, specs: seq<Spec>, heartbeat: nat, rest: seq<Action>,
    w1: World, w: World, h: Host)
    requires Possibly(cfg, Initially(map[]), actions) && w0 == Later(cfg, Initially(map[]), actions)
    requires Possible(w0, Attach(sid, specs, heartbeat)) && w1 == Acted(cfg, w0, Attach(sid, specs, heartbeat))
    requires WorksOff(rest) && Possibly(cfg, w1, rest) && w == Later(cfg, w1, rest)
    requires h in w.sys.server.table.hosts && w.sys.server.table.hosts[h].session.id == sid
    ensures var log, route := CommandLog(actions), w.sys.server.table.hosts[h];
      && S.Configured(log, route.name) && S.LastSwitchedOn(log, route.name)
      && route.auth == S.LastAuth(log, route.name) && route.kind == Http
      && sid in w.sys.server.tasks
      && h == Lower(match S.LastDomain(log, route.name)
                    case Some(domain) => domain
                    case None => Naming.HostFor(w.sys.server.tasks[sid].session.user, route.name, cfg.suffix))
  {
    var spec := NewRoute(cfg, actions, w0, sid, specs, heartbeat, rest, w1, w, h);
    SpecIsSaid(cfg, actions, w0, sid, specs, heartbeat, spec);
    ProtectedBy(cfg, CommandLog(actions), w.sys.server.tasks[sid].session.user, h, w.sys.server.table.hosts[h], spec);
  }
}
