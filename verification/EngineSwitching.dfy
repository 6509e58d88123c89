/**
 * An open call from the command to the noted answer, and what becomes of a tunnel that is switched on while it is up
 * (crates/cy-core/src/engine.rs:688-695).
 */
module EngineSwitching {
  import opened Basics
  import opened Registry
  import opened ControlMessages
  import opened ControlLoop
  import opened ServerMachine
  import opened ServerTheorems
  import opened TunnelProtocol
  import opened TunnelSystem
  import opened Engine
  import opened EngineOutbox
  import P = EngineProofs
  import S = TunnelState
  import R = TakenRetries
  import Naming

  lemma FirstThenRest(cfg: Config, w: World, a: Action, rest: seq<Action>)
    requires Possible(w, a) && Possibly(cfg, Acted(cfg, w, a), rest)
    ensures Possibly(cfg, w, [a] + rest) && Later(cfg, w, [a] + rest) == Later(cfg, Acted(cfg, w, a), rest)
  {
    assert ([a] + rest)[1..] == rest;
  }

  /** The server grants the request, as it stands. */
  ghost predicate Grantable(cfg: Config, s: Server, sid: SessionId, spec: Spec, check: DomainCheck)
    requires sid in s.tasks
  {
    var user, msg := s.tasks[sid].session.user, OpenRequest(0, spec);
    && Naming.ValidName(spec.name) && MayUse(msg, check)
    && Lower(AskedHost(cfg, user, msg)) !in s.table.hosts
    && |HostsOfUser(s.table, user)| < cfg.limit(user)
  }

  ghost function HostAsked(cfg: Config, s: Server, sid: SessionId, spec: Spec): Host
    requires sid in s.tasks
  {
    AskedHost(cfg, s.tasks[sid].session.user, OpenRequest(0, spec))
  }

  /** What the request comes to, with the code of the first check it fails. */
  ghost function Decided(cfg: Config, s: Server, sid: SessionId, spec: Spec, check: DomainCheck): Result<Endpoint, Option<Code>>
    requires sid in s.tasks
  {
    var user := s.tasks[sid].session.user;
    if !Naming.ValidName(spec.name) then Err(Some(CodeNameInvalid))
    else if !MayUse(OpenRequest(0, spec), check) then Err(Some(if check == StoreFailed then CodeInternal else CodeTaken))
    else if Lower(HostAsked(cfg, s, sid, spec)) in s.table.hosts then Err(Some(CodeTaken))
    else if |HostsOfUser(s.table, user)| >= cfg.limit(user) then Err(Some(CodeLimit))
    else Ok(Url(HostAsked(cfg, s, sid, spec)))
  }

  ghost function WithRoute(cfg: Config, s: Server, sid: SessionId, id: TunnelId, spec: Spec): Server
    requires sid in s.tasks
  {
    var tunnel := Tunnel(s.tasks[sid].session, id, spec.name, Http, spec.auth, None);
    s.(table := s.table.(hosts := s.table.hosts[Lower(HostAsked(cfg, s, sid, spec)) := tunnel]))
  }

  // ---- the three moves between the call and its answer ----

  ghost function Turned(sid: SessionId, act: Act): Action {
    Background(Turn(sid, act))
  }

  ghost function Rewired(w: World, server: Server, sid: SessionId, c: Conn): World {
    w.(sys := Sys(server, w.sys.conns[sid := c]))
  }

  lemma TheLoopSends(cfg: Config, w: World, sid: SessionId, spec: Spec, ticket: nat)
    requires sid in w.sys.conns
    requires var c := w.sys.conns[sid]; c.loop.running && c.loop.linkUp && c.calls.commands == [Open(spec, ticket)]
    ensures Possible(w, Turned(sid, Client(TakeCommand)))
    ensures var c := w.sys.conns[sid];
      Acted(cfg, w, Turned(sid, Client(TakeCommand)))
      == Rewired(w, w.sys.server, sid, Conn(Requested(c.loop, spec, ticket), c.calls.(commands := [])))
  {
    var c := w.sys.conns[sid];
    var none: seq<Command> := c.calls.commands[1..];
    assert none == [];
  }

  lemma TheServerAnswers(cfg: Config, w: World, sid: SessionId, id: TunnelId, spec: Spec, check: DomainCheck)
    returns (reply: ServerMsg)
    requires sid in w.sys.conns && sid in w.sys.server.tasks && w.sys.server.tasks[sid].pc == Idle && spec.kind == Http
    requires var l := w.sys.conns[sid].loop; l.linkUp && l.up == [OpenRequest(id, spec)] && l.down == []
    ensures Possible(w, Turned(sid, Deliver(check)))
    ensures var c, s := w.sys.conns[sid], w.sys.server;
      Acted(cfg, w, Turned(sid, Deliver(check)))
      == Rewired(w, if Grantable(cfg, s, sid, spec, check) then WithRoute(cfg, s, sid, id, spec) else s, sid,
                 c.(loop := c.loop.(up := [], down := [reply])))
    ensures match Decided(cfg, w.sys.server, sid, spec, check)
      case Ok(public) => reply == TunnelOpened(id, public)
      case Err(code) => code.Some? && reply == Failure(code.value, Some(id))
  {
    var c, s, msg := w.sys.conns[sid], w.sys.server, OpenRequest(id, spec);
    HttpOpenIsDecided(cfg, s, sid, msg, check);
    reply := Reply(cfg, s, sid, Receive(msg, check)).value;
    var none: seq<ClientMsg> := c.loop.up[1..];
    assert none == [];
    assert AskedHost(cfg, s.tasks[sid].session.user, msg) == HostAsked(cfg, s, sid, spec);
    assert EventOf(w.sys, sid, Deliver(check)) == Receive(msg, check);
    assert LoopAfter(cfg, s, sid, Receive(msg, check), c.loop) == c.loop.(up := [], down := [reply]);
    assert Step(cfg, s, sid, Receive(msg, check)) ==
      if Grantable(cfg, s, sid, spec, check) then WithRoute(cfg, s, sid, id, spec) else s;
  }

  lemma TheLoopIsTold(cfg: Config, w: World, sid: SessionId, id: TunnelId, reply: ServerMsg)
    requires sid in w.sys.conns
    requires var l := w.sys.conns[sid].loop;
      l.running && l.down == [reply] && id in l.pending
      && ((reply.TunnelOpened? && reply.id == id) || (reply.Failure? && reply.subject == Some(id)))
    ensures Possible(w, Turned(sid, Client(TakeMessage)))
    ensures var c := w.sys.conns[sid];
      var l, ticket := c.loop.(down := []), c.loop.pending[id].ticket;
      Acted(cfg, w, Turned(sid, Client(TakeMessage)))
      == Rewired(w, w.sys.server, sid,
                 if reply.TunnelOpened? then Conn(Installed(l, id), Answered(c.calls, ticket, Granted(reply.public)))
                 else Conn(l.(pending := l.pending - {id}), Answered(c.calls, ticket, Refusal(Some(reply.code)))))
  {
    var none: seq<ServerMsg> := w.sys.conns[sid].loop.down[1..];
    assert none == [];
  }

  // ---- one call, from the command to the row ----

  /** What follows a call when nobody else moves. */
  ghost function Exchange(sid: SessionId, check: DomainCheck, now: R.Time): seq<Action> {
    [Turned(sid, Client(TakeCommand))] + ([Turned(sid, Deliver(check))] +
      ([Turned(sid, Client(TakeMessage))] + [Resume(now)]))
  }

  /** The engine awaits nothing and nothing of its session is under way; it may have work left. */
  ghost predicate LineIdle(w: World, sid: SessionId) {
    && w.eng.session == Some(sid) && w.eng.waiting == None
    && sid in w.sys.conns && sid in w.sys.server.tasks && w.sys.server.tasks[sid].pc == Idle
    && var c := w.sys.conns[sid];
       && c.loop.running && c.loop.linkUp && c.loop.up == [] && c.loop.down == [] && c.loop.pending == map[]
       && c.calls.commands == []
  }

  ghost predicate Idling(w: World, sid: SessionId) {
    LineIdle(w, sid) && w.eng.jobs == []
  }

  /** The call was granted and is in force everywhere, or was refused and only the row and the retries tell. */
  ghost predicate Settled(
    cfg: Config, w: World, sid: SessionId, spec: Spec, check: DomainCheck, now: R.Time, w': World)
    requires LineIdle(w, sid)
  {
    var result := Decided(cfg, w.sys.server, sid, spec, check);
    var l, id := w.sys.conns[sid].loop, w.sys.conns[sid].loop.nextId;
    && LineIdle(w', sid)
    && w'.sys.server == (if result.Ok? then WithRoute(cfg, w.sys.server, sid, id, spec) else w.sys.server)
    && var l' := w'.sys.conns[sid].loop;
       && l'.byName == (if result.Ok? then l.byName[spec.name := id] else l.byName)
       && l'.ports == (if result.Ok? then l.ports[id := LocalRoute(spec.localPort, spec.name)] else l.ports)
       && spec.name in w'.eng.rows
       && w'.eng.rows[spec.name].url == (if result.Ok? then Some(result.value) else None)
       && w'.eng.rows[spec.name].localPort == spec.localPort
       && w'.eng.rows - {spec.name} == w.eng.rows - {spec.name}
       && w'.eng.tunnels == w.eng.tunnels && w'.eng.jobs == w.eng.jobs
       && w'.eng.taken == R.Recorded(w.eng.taken, spec.name, Bare(result), now).0
  }

  /** The connection after the answer: the call's tunnel open, or nothing but a number used up. */
  ghost predicate Told(cfg: Config, w: World, sid: SessionId, spec: Spec, ticket: nat, check: DomainCheck, w': World)
    requires sid in w.sys.conns && sid in w.sys.server.tasks
  {
    var granted, s := Grantable(cfg, w.sys.server, sid, spec, check), w.sys.server;
    var l, id := w.sys.conns[sid].loop, w.sys.conns[sid].loop.nextId;
    && w'.eng == w.eng && sid in w'.sys.conns
    && w'.sys.server == (if granted then WithRoute(cfg, s, sid, id, spec) else s)
    && var c' := w'.sys.conns[sid];
       && c'.loop == l.(nextId := id + 1, pending := c'.loop.pending,
                        byName := if granted then l.byName[spec.name := id] else l.byName,
                        ports := if granted then l.ports[id := LocalRoute(spec.localPort, spec.name)] else l.ports)
       && c'.loop.pending == map[] && c'.calls.commands == []
       && ticket in c'.calls.answers
       && c'.calls.answers[ticket] ==
            (match Decided(cfg, s, sid, spec, check) case Ok(public) => Granted(public) case Err(code) => Refusal(code))
  }

  lemma AnswerComes(cfg: Config, w1: World, sid: SessionId, spec: Spec, ticket: nat, check: DomainCheck)
    returns (w2: World, w3: World, w4: World)
    requires sid in w1.sys.conns && sid in w1.sys.server.tasks && w1.sys.server.tasks[sid].pc == Idle && spec.kind == Http
    requires var c := w1.sys.conns[sid];
      && c.loop.running && c.loop.linkUp && c.loop.up == [] && c.loop.down == [] && c.loop.pending == map[]
      && c.calls.commands == [Open(spec, ticket)]
    ensures Possible(w1, Turned(sid, Client(TakeCommand))) && w2 == Acted(cfg, w1, Turned(sid, Client(TakeCommand)))
    ensures Possible(w2, Turned(sid, Deliver(check))) && w3 == Acted(cfg, w2, Turned(sid, Deliver(check)))
    ensures Possible(w3, Turned(sid, Client(TakeMessage))) && w4 == Acted(cfg, w3, Turned(sid, Client(TakeMessage)))
    ensures Told(cfg, w1, sid, spec, ticket, check, w4)
  {
    var id := w1.sys.conns[sid].loop.nextId;
    TheLoopSends(cfg, w1, sid, spec, ticket);
    w2 := Acted(cfg, w1, Turned(sid, Client(TakeCommand)));
    assert w2.sys.conns[sid].loop.up == [OpenRequest(id, spec)];
    var reply := TheServerAnswers(cfg, w2, sid, id, spec, check);
    w3 := Acted(cfg, w2, Turned(sid, Deliver(check)));
    TheLoopIsTold(cfg, w3, sid, id, reply);
    w4 := Acted(cfg, w3, Turned(sid, Client(TakeMessage)));
  }

  lemma CallIsSettled(cfg: Config, w: World, sid: SessionId, spec: Spec, next: Next, check: DomainCheck, now: R.Time)
    requires LineIdle(w, sid) && spec.kind == Http
    ensures Possibly(cfg, Opening(w, spec, next), Exchange(sid, check, now))
    ensures Settled(cfg, w, sid, spec, check, now, Later(cfg, Opening(w, spec, next), Exchange(sid, check, now)))
  {
    var ticket := w.sys.conns[sid].calls.nextTicket;
    var w1 := Opening(w, spec, next);
    assert w1.sys.conns[sid].calls.commands == [Open(spec, ticket)];
    var w2, w3, w4 := AnswerComes(cfg, w1, sid, spec, ticket, check);
    TheRowIsNoted(cfg, w4, ticket, now);
    OneAfterAnother(cfg, w1, w2, w3, w4, sid, check, now);
  }

  lemma OneAfterAnother(
    cfg: Config, w1: World, w2: World, w3: World, w4: World, sid: SessionId, check: DomainCheck, now: R.Time)
    requires Possible(w1, Turned(sid, Client(TakeCommand))) && w2 == Acted(cfg, w1, Turned(sid, Client(TakeCommand)))
    requires Possible(w2, Turned(sid, Deliver(check))) && w3 == Acted(cfg, w2, Turned(sid, Deliver(check)))
    requires Possible(w3, Turned(sid, Client(TakeMessage))) && w4 == Acted(cfg, w3, Turned(sid, Client(TakeMessage)))
    requires Possible(w4, Resume(now))
    ensures Possibly(cfg, w1, Exchange(sid, check, now))
    ensures Later(cfg, w1, Exchange(sid, check, now)) == Acted(cfg, w4, Resume(now))
  {
    var none: seq<Action> := [];
    assert [Resume(now)] + none == [Resume(now)];
    FirstThenRest(cfg, w4, Resume(now), none);
    FirstThenRest(cfg, w3, Turned(sid, Client(TakeMessage)), [Resume(now)]);
    FirstThenRest(cfg, w2, Turned(sid, Deliver(check)), [Turned(sid, Client(TakeMessage))] + [Resume(now)]);
    FirstThenRest(cfg, w1, Turned(sid, Client(TakeCommand)),
                  [Turned(sid, Deliver(check))] + ([Turned(sid, Client(TakeMessage))] + [Resume(now)]));
  }

  lemma TheRowIsNoted(cfg: Config, w: World, ticket: nat, now: R.Time)
    requires Attached(w) && w.eng.waiting.Some? && w.eng.waiting.value.ticket == ticket && ticket in Line(w).calls.answers
    ensures Possible(w, Resume(now))
    ensures var w', name, answer := Acted(cfg, w, Resume(now)), w.eng.waiting.value.spec.name, Line(w).calls.answers[ticket];
      && w'.sys == w.sys && w'.eng.session == w.eng.session && w'.eng.tunnels == w.eng.tunnels
      && w'.eng.waiting == None && w'.eng.jobs == w.eng.jobs
      && name in w'.eng.rows && w'.eng.rows[name].localPort == w.eng.waiting.value.spec.localPort
      && w'.eng.rows[name].url == (if answer.Granted? then Some(answer.public) else None)
      && w'.eng.taken == R.Recorded(w.eng.taken, name, Bare(ResultOf(answer)), now).0
      && w'.eng.rows - {name} == w.eng.rows - {name}
  {
    P.AnswersAreShown(w.eng, Line(w).calls.answers[ticket], now);
  }

  // ---- switching on ----

  ghost function SwitchOn(sid: SessionId, name: string, check: DomainCheck, now: R.Time): seq<Action> {
    [Handle(S.SetEnabled(name, true))] + Exchange(sid, check, now)
  }

  /**
   * After a tunnel was switched on and nobody else moved, its row shows an address if and only if the host it asks
   * for is free, the user under the limit, and name and domain in order. Otherwise the server and the client's
   * tables are as they were: a tunnel that was up still is, and its row shows nothing.
   */
  lemma SwitchedOnIsShownExactlyWhen(
    cfg: Config, w: World, sid: SessionId, name: string, check: DomainCheck, now: R.Time)
    requires Idling(w, sid) && name in w.eng.tunnels
    ensures Possibly(cfg, w, SwitchOn(sid, name, check, now))
    ensures var w' := Later(cfg, w, SwitchOn(sid, name, check, now));
      var granted := Grantable(cfg, w.sys.server, sid, Stored(w.eng.tunnels, name), check);
      var l, l' := w.sys.conns[sid].loop, if sid in w'.sys.conns then w'.sys.conns[sid].loop else NEW_LOOP;
      && Idling(w', sid)
      && (Showing(w'.eng.rows, name) <==> granted)
      && (granted ==> w'.sys.server == WithRoute(cfg, w.sys.server, sid, l.nextId, Stored(w.eng.tunnels, name)))
      && (!granted ==> w'.sys.server == w.sys.server)
      && l'.byName == (if granted then l.byName[name := l.nextId] else l.byName)
      && l'.ports == (if granted then l.ports[l.nextId := LocalRoute(w.eng.tunnels[name].localPort, name)] else l.ports)
  {
    var e := w.eng.(tunnels := S.WithEnabled(w.eng.tunnels, name, true));
    var spec := Stored(w.eng.tunnels, name);
    assert Handling(w, S.SetEnabled(name, true)) == Opening(w.(eng := e), spec, Nothing);
    CallIsSettled(cfg, w.(eng := e), sid, spec, Nothing, check, now);
    FirstThenRest(cfg, w, Handle(S.SetEnabled(name, true)), Exchange(sid, check, now));
  }

  /** So a tunnel that is up where it is stored to be loses its address from the row, and stays up. */
  lemma SwitchingOnHidesWhatIsUp(cfg: Config, w: World, sid: SessionId, name: string, check: DomainCheck, now: R.Time)
    requires P.Lived(cfg, w) && Idling(w, sid) && name in w.eng.tunnels && Showing(w.eng.rows, name)
    requires w.eng.rows[name].url.value == Url(HostAsked(cfg, w.sys.server, sid, Stored(w.eng.tunnels, name)))
    ensures Possibly(cfg, w, SwitchOn(sid, name, check, now))
    ensures var w' := Later(cfg, w, SwitchOn(sid, name, check, now));
      var host := Lower(HostAsked(cfg, w.sys.server, sid, Stored(w.eng.tunnels, name)));
      && Idling(w', sid) && !Showing(w'.eng.rows, name)
      && w'.sys.server == w.sys.server
      && name in w'.sys.conns[sid].loop.byName
      && host in w'.sys.server.table.hosts
      && w'.sys.server.table.hosts[host].session.id == sid
      && w'.sys.server.table.hosts[host].tunnelId == w'.sys.conns[sid].loop.byName[name]
  {
    P.ShownAddressesAreReal(cfg, w, name);
    P.LivedHonest(cfg, w);
    P.ShareInStep(cfg, w.sys, sid);
    Registered(cfg, w, sid);
    SwitchedOnIsShownExactlyWhen(cfg, w, sid, name, check, now);
  }

  lemma Registered(cfg: Config, w: World, sid: SessionId)
    requires P.WorldInv(cfg, w) && Idling(w, sid)
    ensures sid in w.sys.server.table.sessions
  {
  }

  /** When it is granted once more, elsewhere, the tunnel that was up can no longer be closed by its name. */
  lemma SwitchingOnTwiceLosesTheFirst(
    cfg: Config, w: World, sid: SessionId, name: string, check: DomainCheck, now: R.Time)
    requires P.WorldInv(cfg, w) && Idling(w, sid) && name in w.eng.tunnels && name in w.sys.conns[sid].loop.byName
    requires Grantable(cfg, w.sys.server, sid, Stored(w.eng.tunnels, name), check)
    ensures Possibly(cfg, w, SwitchOn(sid, name, check, now))
    ensures var w' := Later(cfg, w, SwitchOn(sid, name, check, now));
      Idling(w', sid) && !Named(w'.sys.conns[sid].loop, name)
  {
    LineIsOk(cfg, w.sys, sid);
    SwitchedOnIsShownExactlyWhen(cfg, w, sid, name, check, now);
    var w' := Later(cfg, w, SwitchOn(sid, name, check, now));
    FirstIsLost(w.sys.conns[sid].loop, w'.sys.conns[sid].loop, name, w.eng.tunnels[name].localPort);
  }

  lemma LineIsOk(cfg: Config, x: Sys, sid: SessionId)
    requires SysInv(cfg, x) && sid in x.conns
    ensures ClientOk(x.conns[sid].loop)
  {
    P.ShareInStep(cfg, x, sid);
  }

  lemma FirstIsLost(l: Loop, l': Loop, name: string, port: Port)
    requires ClientOk(l) && name in l.byName
    requires l'.byName == l.byName[name := l.nextId] && l'.ports == l.ports[l.nextId := LocalRoute(port, name)]
    ensures !Named(l', name)
  {
    var older := l.byName[name];
    assert older in l'.ports && l'.ports[older].name == name;
  }

  // ---- such a history ----

  lemma {:induction false} ThenMore(cfg: Config, w: World, before: seq<Action>, after: seq<Action>)
    requires Possibly(cfg, w, before) && Possibly(cfg, Later(cfg, w, before), after)
    ensures Possibly(cfg, w, before + after)
    ensures Later(cfg, w, before + after) == Later(cfg, Later(cfg, w, before), after)
    decreases |before|
  {
    if before == [] {
      assert before + after == after;
    } else {
      ThenMore(cfg, Acted(cfg, w, before[0]), before[1..], after);
      assert before + after == [before[0]] + (before[1..] + after);
      FirstThenRest(cfg, w, before[0], before[1..] + after);
    }
  }

  const SMALL := Config(10, 20, "t.io", _ => 5)
  const WEB := Spec("a", 8080, Http, None, None)

  /** The engine connects as its server's first session, with nothing stored. */
  lemma ConnectsFirst() returns (actions: seq<Action>)
    ensures Possibly(SMALL, Initially(map[]), actions)
    ensures var w := Later(SMALL, Initially(map[]), actions);
      && Idling(w, 1) && w.eng.tunnels == map[] && w.eng.rows == map[]
      && w.sys.server.table.hosts == map[] && w.sys.server.tasks[1].session == Session(1, "u")
      && w.sys.conns[1].loop == NEW_LOOP
  {
    var none: seq<Action> := [];
    var w0 := Initially(map[]);
    var login := Turned(1, Serve(ServerMachine.Login("u")));
    var w1 := Acted(SMALL, w0, login);
    var specs: seq<Spec> := [];
    var attach := Attach(1, specs, 30);
    assert S.ListsEnabled(map[], specs);
    assert Possible(w1, attach);
    var w2 := Acted(SMALL, w1, attach);
    FirstThenRest(SMALL, w1, attach, none);
    FirstThenRest(SMALL, w0, login, [attach] + none);
    actions := [login] + ([attach] + none);
  }

  /** A tunnel is added and comes up. */
  lemma TunnelComesUp() returns (actions: seq<Action>)
    ensures Possibly(SMALL, Initially(map[]), actions)
    ensures var w := Later(SMALL, Initially(map[]), actions);
      && Idling(w, 1) && "a" in w.eng.tunnels && Stored(w.eng.tunnels, "a") == WEB && Showing(w.eng.rows, "a")
      && w.sys.server.tasks[1].session == Session(1, "u")
      && Lower(HostAsked(SMALL, w.sys.server, 1, WEB)) in w.sys.server.table.hosts
      && w.sys.conns[1].loop.byName == map["a" := 1]
  {
    var before := ConnectsFirst();
    var w := Later(SMALL, Initially(map[]), before);
    var e := w.eng.(tunnels := S.Upserted(w.eng.tunnels, WEB, true));
    assert Naming.ValidateName("a") == None;
    assert Stored(e.tunnels, "a") == WEB;
    assert Handling(w, S.AddTunnel(WEB)) == Opening(w.(eng := e), WEB, Nothing);
    assert HostsOfUser(w.sys.server.table, "u") == {};
    assert Grantable(SMALL, w.sys.server, 1, WEB, NotOwned);
    CallIsSettled(SMALL, w.(eng := e), 1, WEB, Nothing, NotOwned, 0);
    FirstThenRest(SMALL, w, Handle(S.AddTunnel(WEB)), Exchange(1, NotOwned, 0));
    ThenMore(SMALL, Initially(map[]), before, [Handle(S.AddTunnel(WEB))] + Exchange(1, NotOwned, 0));
    actions := before + ([Handle(S.AddTunnel(WEB))] + Exchange(1, NotOwned, 0));
  }

  /** Then it is switched on, being on already: it stays open and routed, and its row shows no address. */
  lemma AnOpenTunnelIsNotShown() returns (actions: seq<Action>)
    ensures Possibly(SMALL, Initially(map[]), actions)
    ensures var w := Later(SMALL, Initially(map[]), actions);
      && Idling(w, 1) && !Showing(w.eng.rows, "a")
      && "a" in w.sys.conns[1].loop.byName
      && Lower(HostAsked(SMALL, w.sys.server, 1, WEB)) in w.sys.server.table.hosts
  {
    var before := TunnelComesUp();
    var w := Later(SMALL, Initially(map[]), before);
    SwitchedOnIsShownExactlyWhen(SMALL, w, 1, "a", NotOwned, 0);
    ThenMore(SMALL, Initially(map[]), before, SwitchOn(1, "a", NotOwned, 0));
    actions := before + SwitchOn(1, "a", NotOwned, 0);
  }
}
