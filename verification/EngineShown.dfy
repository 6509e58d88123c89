/** The other half of the rows' honesty: an open tunnel is shown (crates/cy-core/src/engine.rs, session). */
module EngineShown {
  import opened Basics
  import opened Registry
  import opened ControlLoop
  import opened ControlMessages
  import opened ServerMachine
  import opened ServerOwnership
  import opened TunnelProtocol
  import opened TunnelSystem
  import opened StatusBoard
  import opened Engine
  import opened EngineProofs
  import B = EngineRetries
  import S = TunnelState
  import R = TakenRetries
  import Naming

  // ---- the invariant ----

  /** An open tunnel nobody is closing is shown, or its grant is about to be; and it is the only one of its name. */
  ghost predicate OpenIsShown(e: Engine, c: Conn, name: string) {
    && (c.loop.running && name in c.loop.byName && Close(name) !in c.calls.commands ==>
          if Awaits(e.waiting, name)
          then e.waiting.value.ticket in c.calls.answers && c.calls.answers[e.waiting.value.ticket].Granted?
          else Showing(e.rows, name))
    && Named(c.loop, name)
  }

  function JobName(j: Job): string {
    if j.Reopen? then j.spec.name else j.name
  }

  /** Work is left only for names without an address, one job for each. */
  ghost predicate JobsHidden(e: Engine) {
    && (forall i, j | 0 <= i < j < |e.jobs| :: JobName(e.jobs[i]) != JobName(e.jobs[j]))
    && (forall j <- e.jobs :: !Showing(e.rows, JobName(j)) && !Awaits(e.waiting, JobName(j)))
  }

  ghost predicate ShownAt(w: World, name: string) {
    w.eng.session.Some? ==>
      JobsHidden(w.eng) && w.eng.session.value in w.sys.conns
      && OpenIsShown(w.eng, w.sys.conns[w.eng.session.value], name)
  }

  // ---- the connection moves ----

  lemma TakeCommandShows(e: Engine, c: Conn, name: string)
    requires Tidy(e.waiting, c) && ClientOk(c.loop) && OpenIsShown(e, c, name)
    requires c.loop.running && c.calls.commands != []
    ensures OpenIsShown(e, AfterCommand(c), name)
  {
    TidyCommand(e.waiting, c);
    var commands := c.calls.commands;
    assert forall k :: k in commands <==> k == commands[0] || k in commands[1..] by {
      assert commands == [commands[0]] + commands[1..];
    }
    match commands[0]
    case Open(_, _) =>
    case Close(gone) =>
      if gone in c.loop.byName {
        ForgettingKeepsNames(c.loop, gone, name);
      }
  }

  lemma GrantShows(e: Engine, c: Conn, name: string)
    requires Tidy(e.waiting, c) && Ticketed(c) && ClientOk(c.loop) && OpenIsShown(e, c, name)
    requires c.loop.running && c.loop.down != [] && c.loop.down[0].TunnelOpened? && c.loop.down[0].id in c.loop.pending
    ensures OpenIsShown(e, AfterMessage(c), name)
  {
    var id := c.loop.down[0].id;
    var l := c.loop.(down := c.loop.down[1..]);
    assert e.waiting.Some? && c.loop.pending[id].name == e.waiting.value.spec.name;
    WhereTicketIs(e.waiting, c);
    assert c.calls.commands == [];
    assert Named(l, name);
    if c.loop.pending[id].name == name {
      assert name !in c.loop.byName;
    }
    PlainGrant(l, id, name);
  }

  lemma PlainGrant(l: Loop, id: TunnelId, name: string)
    requires ClientOk(l) && id in l.pending && Named(l, name)
    requires l.pending[id].name == name ==> name !in l.byName
    ensures Named(Installed(l, id), name)
  {
  }

  lemma RefusalShows(e: Engine, c: Conn, name: string)
    requires Tidy(e.waiting, c) && Ticketed(c) && OpenIsShown(e, c, name)
    requires c.loop.running && c.loop.down != [] && c.loop.down[0].Failure?
    requires c.loop.down[0].subject.Some? && c.loop.down[0].subject.value in c.loop.pending
    ensures OpenIsShown(e, AfterMessage(c), name)
  {
    var id := c.loop.down[0].subject.value;
    assert c.loop.pending[id].ticket in PendingTickets(c.loop.pending);
    WhereTicketIs(e.waiting, c);
  }

  /** Any other message leaves the tunnels, the commands and the answers, or ends the loop. */
  lemma OtherMessageShows(e: Engine, c: Conn, name: string)
    requires OpenIsShown(e, c, name)
    requires c.loop.running && c.loop.down != []
    requires c.loop.down[0].TunnelOpened? ==> c.loop.down[0].id !in c.loop.pending
    requires c.loop.down[0].Failure? ==>
      c.loop.down[0].subject.None? || c.loop.down[0].subject.value !in c.loop.pending
    ensures OpenIsShown(e, AfterMessage(c), name)
  {
    var c' := AfterMessage(c);
    assert c'.loop.byName == c.loop.byName && c'.loop.ports == c.loop.ports;
    assert c'.loop.running ==> c'.calls == c.calls;
  }

  lemma ClientShows(e: Engine, c: Conn, a: ClientAct, name: string)
    requires Tidy(e.waiting, c) && Ticketed(c) && ClientOk(c.loop) && OpenIsShown(e, c, name)
    requires CanAct(c, a) && !a.Call? && !a.CallClose?
    ensures OpenIsShown(e, ClientDo(c, a), name)
  {
    match a
    case TakeCommand => TakeCommandShows(e, c, name);
    case TakeMessage =>
      if c.loop.down[0].TunnelOpened? && c.loop.down[0].id in c.loop.pending {
        GrantShows(e, c, name);
      } else if c.loop.down[0].Failure? && c.loop.down[0].subject.Some? && c.loop.down[0].subject.value in c.loop.pending {
        RefusalShows(e, c, name);
      } else {
        OtherMessageShows(e, c, name);
      }
    case Stop =>
    case Break(_, _) =>
  }

  // ---- the engine moves ----

  /** An open call for a tunnel that is not shown, or is being closed. */
  lemma OpeningShows(e: Engine, c: Conn, spec: Spec, next: Next, name: string)
    requires OpenIsShown(e, c, name) && e.waiting == None && Ticketed(c)
    requires spec.name == name ==> !Showing(e.rows, name) || Close(name) in c.calls.commands
    ensures OpenIsShown(e.(waiting := Some(Wait(c.calls.nextTicket, spec, next))), Submitted(c, spec), name)
  {
  }

  /** A close, after whatever happened to the row of the name closed. */
  lemma ClosingShows(e: Engine, e': Engine, c: Conn, closed: string, name: string)
    requires OpenIsShown(e, c, name) && e.waiting == e'.waiting == None
    requires name != closed ==> (Showing(e.rows, name) ==> Showing(e'.rows, name))
    ensures OpenIsShown(e', SubmittedClose(c, closed), name)
    ensures c.loop.running ==> Close(closed) in SubmittedClose(c, closed).calls.commands
  {
  }

  lemma ResumingShows(e: Engine, c: Conn, now: R.Time, name: string)
    requires Tidy(e.waiting, c) && Ticketed(c) && OpenIsShown(e, c, name)
    requires e.waiting.Some? && e.waiting.value.ticket in c.calls.answers
    ensures OpenIsShown(Resumed(e, c.calls.answers[e.waiting.value.ticket], now), c, name)
  {
    var answer := c.calls.answers[e.waiting.value.ticket];
    AnsweredIsQuiet(e.waiting, c);
    AnswersAreShown(e, answer, now);
    if name != e.waiting.value.spec.name {
      B.SameElsewhere(e.rows, Resumed(e, answer, now).rows, e.waiting.value.spec.name, name);
    }
  }

  lemma ResumingHides(e: Engine, answer: Answer, now: R.Time)
    requires JobsHidden(e) && e.waiting.Some?
    ensures JobsHidden(Resumed(e, answer, now))
  {
    AnswersAreShown(e, answer, now);
    var name, e' := e.waiting.value.spec.name, Resumed(e, answer, now);
    forall j <- e'.jobs
      ensures !Showing(e'.rows, JobName(j))
    {
      B.SameElsewhere(e.rows, e'.rows, name, JobName(j));
    }
  }

  // ---- the system moves ----

  lemma QueuesShow(e: Engine, c: Conn, l: Loop, name: string)
    requires OpenIsShown(e, c, name) && l == c.loop.(up := l.up, down := l.down)
    ensures OpenIsShown(e, c.(loop := l), name)
  {
  }

  lemma ServerShows(cfg: Config, e: Engine, x: Sys, sid: SessionId, a: Act, name: string)
    requires Can(x, sid, a) && !a.Client? && sid in x.conns && OpenIsShown(e, x.conns[sid], name)
    requires !EventOf(x, sid, a).Login? && !EventOf(x, sid, a).Enter?
    ensures sid in Do(cfg, x, sid, a).conns && OpenIsShown(e, Do(cfg, x, sid, a).conns[sid], name)
  {
    QueuesShow(e, x.conns[sid], LoopAfter(cfg, x.server, sid, EventOf(x, sid, a), x.conns[sid].loop), name);
  }

  lemma HereShows(cfg: Config, e: Engine, x: Sys, turn: Turn, name: string)
    requires Connected(x) && Can(x, turn.sid, turn.act) && turn.sid in x.conns
    requires !turn.act.Client? || (!turn.act.act.Call? && !turn.act.act.CallClose?)
    requires var c := x.conns[turn.sid]; Tidy(e.waiting, c) && Ticketed(c) && ClientOk(c.loop) && OpenIsShown(e, c, name)
    ensures var x' := Do(cfg, x, turn.sid, turn.act);
      turn.sid in x'.conns && OpenIsShown(e, x'.conns[turn.sid], name)
  {
    if turn.act.Client? {
      ClientShows(e, x.conns[turn.sid], turn.act.act, name);
    } else {
      EntersOnce(x, turn.sid, turn.act);
      ServerShows(cfg, e, x, turn.sid, turn.act, name);
    }
  }

  lemma BackgroundShows(cfg: Config, w: World, turn: Turn, name: string)
    requires WorldInv(cfg, w) && Possible(w, Background(turn)) && ShownAt(w, name)
    ensures ShownAt(Acted(cfg, w, Background(turn)), name)
  {
    if w.eng.session.Some? {
      var sid := w.eng.session.value;
      ShareInStep(cfg, w.sys, sid);
      if turn.sid == sid {
        HereShows(cfg, w.eng, w.sys, turn, name);
      } else {
        ReadyForEvent(cfg, w.sys, turn);
        ShareKept(cfg, w.sys, turn, sid);
      }
    }
  }

  // ---- the engine's own actions ----

  /** The engine's session is up, its line is in order and nothing is awaited. */
  ghost predicate Free(w: World, name: string) {
    && w.eng.session.Some? && w.eng.session.value in w.sys.conns && w.eng.waiting == None
    && Ticketed(w.sys.conns[w.eng.session.value])
    && OpenIsShown(w.eng, w.sys.conns[w.eng.session.value], name)
  }

  lemma OpensShown(w: World, spec: Spec, next: Next, name: string)
    requires Free(w, name) && JobsHidden(w.eng)
    requires forall j <- w.eng.jobs :: JobName(j) != spec.name
    requires spec.name == name ==> !Showing(w.eng.rows, name) || Close(name) in Line(w).calls.commands
    ensures ShownAt(Opening(w, spec, next), name)
  {
    OpeningShows(w.eng, Line(w), spec, next, name);
  }

  lemma ClosesShown(w: World, e: Engine, closed: string, name: string)
    requires Free(w, name) && AtRest(e) && e.session == w.eng.session
    requires name != closed && Showing(w.eng.rows, name) ==> Showing(e.rows, name)
    ensures Free(ClosingName(w.(eng := e), closed), name)
    ensures Line(w).loop.running ==> Close(closed) in Line(ClosingName(w.(eng := e), closed)).calls.commands
  {
    ClosingShows(w.eng, e, Line(w), closed, name);
    SubmitCloseTicketed(Line(w), closed);
  }

  /** Not running, or closed just now: the call that follows a close finds nothing open. */
  lemma ReopensShown(w: World, e: Engine, spec: Spec, next: Next, name: string)
    requires Free(w, name) && AtRest(e) && e.session == w.eng.session && e.rows == w.eng.rows
    ensures ShownAt(Opening(ClosingName(w.(eng := e), spec.name), spec, next), name)
  {
    var w' := ClosingName(w.(eng := e), spec.name);
    ClosesShown(w, e, spec.name, name);
    var c := Line(w');
    if c.loop.running {
      OpensShown(w', spec, next, name);
    } else {
      assert Named(Submitted(c, spec).loop, name);
      assert !Submitted(c, spec).loop.running;
    }
  }

  lemma AddingShows(w: World, spec: Spec, name: string)
    requires Free(w, name) && AtRest(w.eng)
    ensures ShownAt(Adding(w, spec), name)
  {
    if Naming.ValidateName(spec.name) == None {
      var e := w.eng.(tunnels := S.Upserted(w.eng.tunnels, spec, true));
      var effective := S.SpecOf(spec.name, e.tunnels[spec.name]);
      if !Showing(w.eng.rows, spec.name) {
        OpensShown(w.(eng := e), effective, Nothing, name);
      } else if w.eng.rows[spec.name].localPort != effective.localPort {
        ReopensShown(w, e, effective, Nothing, name);
      }
    }
  }

  lemma RemovingShows(w: World, gone: string, name: string)
    requires Free(w, name) && AtRest(w.eng)
    ensures ShownAt(Removing(w, gone), name)
  {
    ClosesShown(w, w.eng.(taken := R.Forgotten(w.eng.taken, gone), tunnels := S.Removed(w.eng.tunnels, gone),
                           rows := w.eng.rows - {gone}), gone, name);
  }

  lemma RekeyingShows(w: World, key: string, auth: Option<string>, name: string)
    requires Free(w, name) && AtRest(w.eng)
    ensures ShownAt(Rekeying(w, key, auth), name)
  {
    if key in w.eng.tunnels {
      var e := w.eng.(tunnels := S.WithAuth(w.eng.tunnels, key, auth));
      if e.tunnels[key].enabled {
        ReopensShown(w, e, S.SpecOf(key, e.tunnels[key]), ShowGuard, name);
      }
    }
  }

  lemma SwitchingShows(w: World, key: string, enabled: bool, name: string)
    requires Free(w, name) && AtRest(w.eng)
    requires enabled && key == name ==> !Showing(w.eng.rows, name)
    ensures ShownAt(Switching(w, key, enabled), name)
  {
    var e := w.eng.(tunnels := S.WithEnabled(w.eng.tunnels, key, enabled));
    if !enabled {
      ClosesShown(w, e.(taken := R.Forgotten(e.taken, key), rows := SwitchedOff(e.rows, key)), key, name);
    } else if key in e.tunnels {
      OpensShown(w.(eng := e), S.SpecOf(key, e.tunnels[key]), Nothing, name);
    }
  }

  /** The one thing a careful user does not do: switch on what is shown to be up. */
  predicate SwitchesOnShown(e: Engine, cmd: S.Command, name: string) {
    cmd == S.SetEnabled(name, true) && Showing(e.rows, name)
  }

  lemma CommandShows(w: World, cmd: S.Command, name: string)
    requires Free(w, name) && AtRest(w.eng) && !SwitchesOnShown(w.eng, cmd, name)
    ensures ShownAt(Handling(w, cmd), name)
  {
    match cmd
    case AddTunnel(spec) => AddingShows(w, spec, name);
    case RemoveTunnel(gone) => RemovingShows(w, gone, name);
    case SetAuth(key, auth) => RekeyingShows(w, key, auth, name);
    case SetEnabled(key, enabled) => SwitchingShows(w, key, enabled, name);
    case _ =>
  }

  lemma WorkingShows(w: World, name: string)
    requires Free(w, name) && JobsHidden(w.eng) && w.eng.jobs != []
    ensures ShownAt(Working(w), name)
  {
    var job, rest := w.eng.jobs[0], w.eng.jobs[1..];
    var e := w.eng.(jobs := rest);
    assert job in w.eng.jobs && forall j <- rest :: j in w.eng.jobs;
    forall j <- rest
      ensures JobName(j) != JobName(job)
    {
      var i :| 0 <= i < |rest| && rest[i] == j;
      assert w.eng.jobs[i + 1] == j;
    }
    assert forall i :: 0 <= i < |rest| ==> rest[i] == w.eng.jobs[i + 1];
    assert JobsHidden(e);
    match job
    case Reopen(spec) => OpensShown(w.(eng := e), spec, Nothing, name);
    case Retry(n) =>
      if n in e.tunnels && e.tunnels[n].enabled {
        OpensShown(w.(eng := e), S.SpecOf(n, e.tunnels[n]), Nothing, name);
      }
  }

  lemma AttachShows(cfg: Config, w: World, sid: SessionId, specs: seq<Spec>, h: nat, name: string)
    requires NoneShown(w.eng) && Possible(w, Attach(sid, specs, h))
    ensures ShownAt(Acted(cfg, w, Attach(sid, specs, h)), name)
  {
    var w' := Acted(cfg, w, Attach(sid, specs, h));
    forall i, j | 0 <= i < j < |specs|
      ensures specs[i].name != specs[j].name
    {
      NeverBeforeItself(specs[i].name);
    }
    assert w'.sys.conns[sid] == NEW_CONN;
  }

  lemma TickShows(w: World, now: R.Time, due: seq<string>, name: string)
    requires Possible(w, TimerTick(now, due)) && B.Booked(w.eng) && ShownAt(w, name)
    ensures ShownAt(Ticking(w, due), name)
  {
    if Line(w).loop.running {
      AscendingIsDistinct(due);
      forall n <- due
        ensures !Showing(w.eng.rows, n)
      {
        assert n in Elements(due);
        assert B.NameBooked(w.eng, n);
      }
    }
  }

  ghost predicate Careless(w: World, a: Action, name: string) {
    a.Handle? && SwitchesOnShown(w.eng, a.cmd, name)
  }

  lemma LineIsFree(cfg: Config, w: World, name: string)
    requires WorldInv(cfg, w) && ShownAt(w, name) && w.eng.session.Some? && w.eng.waiting == None
    ensures Free(w, name)
  {
    ShareInStep(cfg, w.sys, w.eng.session.value);
  }

  lemma ResumeShows(cfg: Config, w: World, now: R.Time, name: string)
    requires WorldInv(cfg, w) && Possible(w, Resume(now)) && ShownAt(w, name)
    ensures ShownAt(Acted(cfg, w, Resume(now)), name)
  {
    ShareInStep(cfg, w.sys, w.eng.session.value);
    ResumingShows(w.eng, Line(w), now, name);
    ResumingHides(w.eng, Line(w).calls.answers[w.eng.waiting.value.ticket], now);
  }

  /** Every action of anybody keeps it, but for that one. */
  lemma ShownLasts(cfg: Config, w: World, a: Action, name: string)
    requires WorldInv(cfg, w) && B.Booked(w.eng) && ShownAt(w, name) && Possible(w, a) && !Careless(w, a, name)
    ensures ShownAt(Acted(cfg, w, a), name)
  {
    match a
    case Background(turn) => BackgroundShows(cfg, w, turn, name);
    case Attach(sid, specs, h) => AttachShows(cfg, w, sid, specs, h, name);
    case Handle(cmd) =>
      LineIsFree(cfg, w, name);
      CommandShows(w, cmd, name);
    case HandleOffline(_) =>
    case NextJob =>
      LineIsFree(cfg, w, name);
      WorkingShows(w, name);
    case Resume(now) => ResumeShows(cfg, w, now, name);
    case TimerTick(now, due) => TickShows(w, now, due, name);
    case LinkLost =>
  }

  ghost predicate Careful(cfg: Config, w: World, actions: seq<Action>, name: string)
    requires Possibly(cfg, w, actions)
    decreases |actions|
  {
    actions == [] || (
      && !Careless(w, actions[0], name)
      && Careful(cfg, Acted(cfg, w, actions[0]), actions[1..], name))
  }

  lemma {:induction false} ShownAlways(cfg: Config, w: World, actions: seq<Action>, name: string)
    requires WorldInv(cfg, w) && B.Booked(w.eng) && ShownAt(w, name)
    requires Possibly(cfg, w, actions) && Careful(cfg, w, actions, name)
    ensures WorldInv(cfg, Later(cfg, w, actions)) && ShownAt(Later(cfg, w, actions), name)
    decreases |actions|
  {
    if actions != [] {
      HonestyLasts(cfg, w, actions[0]);
      B.BookedLasts(cfg, w, actions[0]);
      ShownLasts(cfg, w, actions[0], name);
      ShownAlways(cfg, Acted(cfg, w, actions[0]), actions[1..], name);
    }
  }

  // ---- what is shown is what is open ----

  lemma CarefulKeeps(cfg: Config, tunnels: S.Entries, actions: seq<Action>, name: string)
    requires Possibly(cfg, Initially(tunnels), actions) && Careful(cfg, Initially(tunnels), actions, name)
    ensures var w := Later(cfg, Initially(tunnels), actions);
      Lived(cfg, w) && WorldInv(cfg, w) && ShownAt(w, name)
  {
    InitiallyOk(cfg);
    assert B.Booked(Initially(tunnels).eng);
    ShownAlways(cfg, Initially(tunnels), actions, name);
  }

  /**
   * Over any history in which the user never switches a tunnel on while its row shows an address: as long as the
   * client's loop runs, a row not being waited for shows an address if and only if the client has the tunnel open
   * and is not about to close it; and then no other tunnel of that name is open.
   */
  lemma OpenTunnelsAreShown(cfg: Config, tunnels: S.Entries, actions: seq<Action>, name: string)
    requires Possibly(cfg, Initially(tunnels), actions) && Careful(cfg, Initially(tunnels), actions, name)
    requires var e := Later(cfg, Initially(tunnels), actions).eng; e.session.Some? && !Awaits(e.waiting, name)
    ensures var w := Later(cfg, Initially(tunnels), actions);
      && Attached(w)
      && (Line(w).loop.running ==>
            (Showing(w.eng.rows, name) <==> name in Line(w).loop.byName && Close(name) !in Line(w).calls.commands))
      && Named(Line(w).loop, name)
  {
    var w := Later(cfg, Initially(tunnels), actions);
    CarefulKeeps(cfg, tunnels, actions, name);
    var sid := w.eng.session.value;
    if Showing(w.eng.rows, name) {
      assert RowTrue(w.eng, RoutesOf(w.sys.server.table, sid), Active(w.sys.server.tasks[sid].pc), w.sys.conns[sid], name);
    }
  }

  /** Nothing of the engine's is under way: no answer awaited, nothing in the queues, the session between two messages. */
  ghost predicate Quiet(w: World, sid: SessionId) {
    && w.eng.session == Some(sid) && AtRest(w.eng)
    && sid in w.sys.conns && sid in w.sys.server.tasks && w.sys.server.tasks[sid].pc == Idle
    && var c := w.sys.conns[sid];
       c.loop.running && c.loop.linkUp && c.loop.up == [] && c.loop.down == [] && c.calls.commands == []
  }

  lemma NothingOnTheWay(routes: Routes, l: Loop)
    requires Agree(routes, Idle, l) && l.linkUp && l.up == [] && l.down == []
    ensures ClientOk(l)
    ensures forall id :: id in Ids(routes) <==> id in l.ports
  {
    forall id <- Ids(routes)
      ensures id in l.ports
    {
      assert !GrantQueued(l.down, id) && CloseTunnel(id) !in l.up;
    }
  }

  /** When all is quiet both tables hold the same tunnels. */
  lemma QuietTablesAgree(cfg: Config, w: World, sid: SessionId)
    requires WorldInv(cfg, w) && Quiet(w, sid)
    ensures ClientOk(w.sys.conns[sid].loop)
    ensures var routes := RoutesOf(w.sys.server.table, sid);
      forall id :: id in Ids(routes) <==> id in w.sys.conns[sid].loop.ports
  {
    ShareInStep(cfg, w.sys, sid);
    NothingOnTheWay(RoutesOf(w.sys.server.table, sid), w.sys.conns[sid].loop);
  }

  ghost predicate ShownUnder(e: Engine, l: Loop, id: TunnelId, name: string) {
    Showing(e.rows, name) && name in l.byName && l.byName[name] == id
  }

  lemma OpenIsShownUnderItsName(
    cfg: Config, tunnels: S.Entries, actions: seq<Action>, sid: SessionId, id: TunnelId, w: World)
    requires Possibly(cfg, Initially(tunnels), actions) && w == Later(cfg, Initially(tunnels), actions)
    requires forall name :: Careful(cfg, Initially(tunnels), actions, name)
    requires Quiet(w, sid) && id in w.sys.conns[sid].loop.ports
    ensures ShownUnder(w.eng, w.sys.conns[sid].loop, id, w.sys.conns[sid].loop.ports[id].name)
  {
    OpenTunnelsAreShown(cfg, tunnels, actions, w.sys.conns[sid].loop.ports[id].name);
  }

  /** With such a user, whenever all is quiet the server's routes are exactly the tunnels whose rows show an address. */
  lemma RoutesAreShown(cfg: Config, tunnels: S.Entries, actions: seq<Action>, sid: SessionId, id: TunnelId, w: World)
    requires Possibly(cfg, Initially(tunnels), actions) && w == Later(cfg, Initially(tunnels), actions)
    requires forall name :: Careful(cfg, Initially(tunnels), actions, name)
    requires Quiet(w, sid)
    ensures id in Ids(RoutesOf(w.sys.server.table, sid)) <==>
      exists name :: ShownUnder(w.eng, w.sys.conns[sid].loop, id, name)
  {
    CarefulKeeps(cfg, tunnels, actions, "");
    QuietTablesAgree(cfg, w, sid);
    if id in w.sys.conns[sid].loop.ports {
      OpenIsShownUnderItsName(cfg, tunnels, actions, sid, id, w);
    }
  }
}
