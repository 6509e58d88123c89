/** What the engine asks of its connection: which commands, when, and with what in them (crates/cy-core/src/engine.rs, session). */
module EngineOutbox {
  import opened Basics
  import opened ControlMessages
  import opened ControlLoop
  import opened ServerMachine
  import opened ServerOwnership
  import opened TunnelSystem
  import opened Registry
  import opened Engine
  import opened EngineHistory
  import opened EngineProofs
  import opened StatusBoard
  import B = EngineRetries
  import S = TunnelState
  import R = TakenRetries
  import Naming

  /** The commands an action of the engine puts on the connection of this session; nobody else puts any there. */
  ghost function PutBy(sid: SessionId, w: World, a: Action, w': World): seq<Command> {
    if a.Background? || sid !in w.sys.conns || sid !in w'.sys.conns then []
    else
      var before, after := w.sys.conns[sid].calls.commands, w'.sys.conns[sid].calls.commands;
      if |before| <= |after| then after[|before|..] else []
  }

  /** The stored tunnel, field by field. */
  function Stored(tunnels: S.Entries, name: string): Spec
    requires name in tunnels
  {
    Spec(name, tunnels[name].localPort, Http, tunnels[name].auth, tunnels[name].customDomain)
  }

  /** The message asks for what the spec says. */
  predicate Carries(m: ClientMsg, spec: Spec) {
    m.OpenTunnel? && m.kind == spec.kind && m.name == spec.name && m.customDomain == spec.customDomain && m.auth == spec.auth
  }

  // ---- what each command comes to ----

  /** What a command puts on a running connection, given the engine before and what it has stored afterwards. */
  function Expected(e: Engine, after: S.Entries, cmd: S.Command, ticket: nat): Option<seq<Command>> {
    match cmd
    case AddTunnel(spec) =>
      if Naming.ValidateName(spec.name) != None then Some([])
      else if spec.name !in after then None
      else if spec.name !in e.rows || e.rows[spec.name].url == None then Some([Open(Stored(after, spec.name), ticket)])
      else if e.rows[spec.name].localPort != spec.localPort
      then Some([Close(spec.name), Open(Stored(after, spec.name), ticket)])
      else Some([])
    case RemoveTunnel(name) => Some([Close(name)])
    case SetAuth(name, _) =>
      if name in e.tunnels && e.tunnels[name].enabled
      then if name in after then Some([Close(name), Open(Stored(after, name), ticket)]) else None
      else Some([])
    case SetEnabled(name, enabled) =>
      if !enabled then Some([Close(name)])
      else if name !in e.tunnels then Some([])
      else if name in after then Some([Open(Stored(after, name), ticket)]) else None
    case _ => Some([])
  }

  /** Each command opens and closes exactly what it is about, with what is stored by then; the rest stays as it is. */
  lemma CommandsPut(cfg: Config, w: World, cmd: S.Command)
    requires Possible(w, Handle(cmd)) && Line(w).loop.running
    ensures var w' := Acted(cfg, w, Handle(cmd));
      Some(PutBy(w.eng.session.value, w, Handle(cmd), w')) == Expected(w.eng, w'.eng.tunnels, cmd, Line(w).calls.nextTicket)
  {
    var w' := Acted(cfg, w, Handle(cmd));
    var sid, commands := w.eng.session.value, Line(w).calls.commands;
    match cmd
    case AddTunnel(spec) => AddPuts(w, spec);
    case RemoveTunnel(name) => assert (commands + [Close(name)])[|commands|..] == [Close(name)];
    case SetAuth(name, auth) => RekeyPuts(w, name, auth);
    case SetEnabled(name, enabled) => SwitchPuts(w, name, enabled);
    case _ => Suffix(commands, []);
  }

  lemma Suffix(commands: seq<Command>, more: seq<Command>)
    ensures (commands + more)[|commands|..] == more
    ensures commands[|commands|..] == []
  {
  }

  lemma OpeningPuts(w: World, e: Engine, spec: Spec, next: Next)
    requires Attached(w) && e.session == w.eng.session && Line(w).loop.running
    ensures PutBy(w.eng.session.value, w, NextJob, Opening(w.(eng := e), spec, next))
         == [Open(spec, Line(w).calls.nextTicket)]
  {
    Suffix(Line(w).calls.commands, [Open(spec, Line(w).calls.nextTicket)]);
  }

  lemma ReopeningPuts(w: World, e: Engine, name: string, spec: Spec, next: Next)
    requires Attached(w) && e.session == w.eng.session && Line(w).loop.running
    ensures PutBy(w.eng.session.value, w, NextJob, Opening(ClosingName(w.(eng := e), name), spec, next))
         == [Close(name), Open(spec, Line(w).calls.nextTicket)]
  {
    var commands, ticket := Line(w).calls.commands, Line(w).calls.nextTicket;
    Suffix(commands, [Close(name), Open(spec, ticket)]);
    assert commands + [Close(name)] + [Open(spec, ticket)] == commands + [Close(name), Open(spec, ticket)];
  }

  lemma AddPuts(w: World, spec: Spec)
    requires Attached(w) && AtRest(w.eng) && Line(w).loop.running
    ensures Some(PutBy(w.eng.session.value, w, NextJob, Adding(w, spec)))
         == Expected(w.eng, Adding(w, spec).eng.tunnels, S.AddTunnel(spec), Line(w).calls.nextTicket)
  {
    Suffix(Line(w).calls.commands, []);
    if Naming.ValidateName(spec.name) == None {
      var e := w.eng.(tunnels := S.Upserted(w.eng.tunnels, spec, true));
      var effective := S.SpecOf(spec.name, e.tunnels[spec.name]);
      OpeningPuts(w, e, effective, Nothing);
      ReopeningPuts(w, e, spec.name, effective, Nothing);
    }
  }

  lemma RekeyPuts(w: World, name: string, auth: Option<string>)
    requires Attached(w) && AtRest(w.eng) && Line(w).loop.running
    ensures Some(PutBy(w.eng.session.value, w, NextJob, Rekeying(w, name, auth)))
         == Expected(w.eng, Rekeying(w, name, auth).eng.tunnels, S.SetAuth(name, auth), Line(w).calls.nextTicket)
  {
    Suffix(Line(w).calls.commands, []);
    if name in w.eng.tunnels {
      var e := w.eng.(tunnels := S.WithAuth(w.eng.tunnels, name, auth));
      ReopeningPuts(w, e, name, S.SpecOf(name, e.tunnels[name]), ShowGuard);
    }
  }

  lemma SwitchPuts(w: World, name: string, enabled: bool)
    requires Attached(w) && AtRest(w.eng) && Line(w).loop.running
    ensures Some(PutBy(w.eng.session.value, w, NextJob, Switching(w, name, enabled)))
         == Expected(w.eng, Switching(w, name, enabled).eng.tunnels, S.SetEnabled(name, enabled), Line(w).calls.nextTicket)
  {
    var e := w.eng.(tunnels := S.WithEnabled(w.eng.tunnels, name, enabled));
    Suffix(Line(w).calls.commands, [Close(name)]);
    if enabled && name in e.tunnels {
      OpeningPuts(w, e, S.SpecOf(name, e.tunnels[name]), Nothing);
    }
  }

  // ---- whatever is opened is opened as it is stored ----

  ghost predicate AsStored(tunnels: S.Entries, spec: Spec) {
    S.IsEnabled(tunnels, spec.name) && spec == Stored(tunnels, spec.name)
  }

  /** A reopening still to come is for a tunnel that is on, with all that is stored of it. */
  ghost predicate JobsStored(e: Engine) {
    forall j <- e.jobs :: j.Reopen? ==> AsStored(e.tunnels, j.spec)
  }

  ghost predicate OpensStored(tunnels: S.Entries, put: seq<Command>) {
    forall k <- put :: k.Open? ==> AsStored(tunnels, k.spec)
  }

  lemma AttachStored(cfg: Config, w: World, sid: SessionId, specs: seq<Spec>, h: nat)
    requires Possible(w, Attach(sid, specs, h))
    ensures JobsStored(Acted(cfg, w, Attach(sid, specs, h)).eng)
    ensures PutBy(sid, w, Attach(sid, specs, h), Acted(cfg, w, Attach(sid, specs, h))) == []
  {
    var e' := Acted(cfg, w, Attach(sid, specs, h)).eng;
    forall j <- e'.jobs
      ensures j.Reopen? && AsStored(e'.tunnels, j.spec)
    {
      var i :| 0 <= i < |specs| && j == Reopen(specs[i]);
      assert specs[i].name in S.Reopened(e'.tunnels);
    }
  }

  /** The command a job puts on a running connection. */
  function JobExpected(tunnels: S.Entries, job: Job, ticket: nat): seq<Command> {
    match job
    case Reopen(spec) => [Open(spec, ticket)]
    case Retry(name) =>
      if name in tunnels && tunnels[name].enabled then [Open(Stored(tunnels, name), ticket)] else []
  }

  lemma JobPuts(w: World)
    requires Attached(w) && w.eng.waiting == None && w.eng.jobs != [] && Line(w).loop.running
    ensures PutBy(w.eng.session.value, w, NextJob, Working(w))
         == JobExpected(w.eng.tunnels, w.eng.jobs[0], Line(w).calls.nextTicket)
    ensures Working(w).eng.tunnels == w.eng.tunnels && Working(w).eng.jobs == w.eng.jobs[1..]
    ensures Working(w).eng.session == w.eng.session && Attached(Working(w)) && Line(Working(w)).loop == Line(w).loop
  {
    var e := w.eng.(jobs := w.eng.jobs[1..]);
    Suffix(Line(w).calls.commands, []);
    match w.eng.jobs[0]
    case Reopen(spec) => OpeningPuts(w, e, spec, Nothing);
    case Retry(name) =>
      if name in e.tunnels && e.tunnels[name].enabled {
        OpeningPuts(w, e, S.SpecOf(name, e.tunnels[name]), Nothing);
      }
  }

  lemma NothingPutWhenStopped(w: World, a: Action, cfg: Config, sid: SessionId)
    requires Possible(w, a) && sid in w.sys.conns && !w.sys.conns[sid].loop.running
    requires a.Handle? || a.NextJob?
    ensures PutBy(sid, w, a, Acted(cfg, w, a)) == []
  {
    Suffix(w.sys.conns[sid].calls.commands, []);
  }

  lemma NothingPutElsewhere(w: World, a: Action, cfg: Config, sid: SessionId)
    requires Possible(w, a) && w.eng.session != Some(sid) && (a.Handle? || a.NextJob?)
    ensures PutBy(sid, w, a, Acted(cfg, w, a)) == []
  {
    if sid in w.sys.conns {
      Suffix(w.sys.conns[sid].calls.commands, []);
    }
  }

  lemma CommandStored(cfg: Config, w: World, cmd: S.Command, sid: SessionId)
    requires Possible(w, Handle(cmd))
    ensures OpensStored(Acted(cfg, w, Handle(cmd)).eng.tunnels, PutBy(sid, w, Handle(cmd), Acted(cfg, w, Handle(cmd))))
  {
    if w.eng.session != Some(sid) {
      NothingPutElsewhere(w, Handle(cmd), cfg, sid);
    } else if !Line(w).loop.running {
      NothingPutWhenStopped(w, Handle(cmd), cfg, sid);
    } else {
      CommandsPut(cfg, w, cmd);
    }
  }

  lemma JobStored(cfg: Config, w: World, sid: SessionId)
    requires Possible(w, NextJob) && JobsStored(w.eng)
    ensures var w' := Acted(cfg, w, NextJob);
      OpensStored(w'.eng.tunnels, PutBy(sid, w, NextJob, w')) && JobsStored(w'.eng)
  {
    assert w.eng.jobs[0] in w.eng.jobs && forall j <- w.eng.jobs[1..] :: j in w.eng.jobs;
    if w.eng.session != Some(sid) {
      NothingPutElsewhere(w, NextJob, cfg, sid);
    } else if !Line(w).loop.running {
      NothingPutWhenStopped(w, NextJob, cfg, sid);
    } else {
      JobPuts(w);
    }
  }

  /** The other actions put nothing on any connection. */
  lemma OthersPutNothing(cfg: Config, w: World, a: Action, sid: SessionId)
    requires Possible(w, a) && !a.Handle? && !a.NextJob? && !a.Attach?
    ensures PutBy(sid, w, a, Acted(cfg, w, a)) == []
  {
    if sid in w.sys.conns {
      Suffix(w.sys.conns[sid].calls.commands, []);
    }
  }

  lemma AttachPutsNothing(cfg: Config, w: World, a: Action, sid: SessionId)
    requires Possible(w, a) && a.Attach?
    ensures PutBy(sid, w, a, Acted(cfg, w, a)) == []
  {
    if sid in w.sys.conns {
      Suffix(w.sys.conns[sid].calls.commands, []);
    }
  }

  lemma NoJobsAfterCommand(w: World, cmd: S.Command)
    requires Attached(w) && AtRest(w.eng)
    ensures Handling(w, cmd).eng.jobs == []
  {
  }

  /** The jobs left stay in step with what is stored; commands come when there are none. */
  lemma JobsKeptStored(cfg: Config, w: World, a: Action)
    requires Possible(w, a) && JobsStored(w.eng) && !a.Attach? && !a.NextJob?
    requires w.eng.session == None ==> AtRest(w.eng)
    ensures JobsStored(Acted(cfg, w, a).eng)
  {
    match a
    case Background(_) =>
    case Handle(cmd) => NoJobsAfterCommand(w, cmd);
    case HandleOffline(_) =>
    case Resume(_) =>
    case TimerTick(_, _) =>
    case LinkLost =>
  }

  /** Whatever action opens a tunnel, it opens one that is on, with exactly what is stored of it by then. */
  lemma OpensAreAsStored(cfg: Config, w: World, a: Action, sid: SessionId, w': World)
    requires Possible(w, a) && w' == Acted(cfg, w, a) && JobsStored(w.eng)
    requires w.eng.session == None ==> AtRest(w.eng)
    ensures JobsStored(w'.eng) && OpensStored(w'.eng.tunnels, PutBy(sid, w, a, w'))
  {
    match a
    case Attach(s, specs, h) =>
      AttachStored(cfg, w, s, specs, h);
      AttachPutsNothing(cfg, w, a, sid);
    case Handle(cmd) =>
      CommandStored(cfg, w, cmd, sid);
      JobsKeptStored(cfg, w, a);
    case NextJob => JobStored(cfg, w, sid);
    case _ =>
      OthersPutNothing(cfg, w, a, sid);
      JobsKeptStored(cfg, w, a);
  }

  lemma {:induction false} JobsStayStored(cfg: Config, w: World, actions: seq<Action>)
    requires WorldInv(cfg, w) && JobsStored(w.eng) && Possibly(cfg, w, actions)
    ensures WorldInv(cfg, Later(cfg, w, actions)) && JobsStored(Later(cfg, w, actions).eng)
    decreases |actions|
  {
    if actions != [] {
      HonestyLasts(cfg, w, actions[0]);
      OpensAreAsStored(cfg, w, actions[0], 0, Acted(cfg, w, actions[0]));
      JobsStayStored(cfg, Acted(cfg, w, actions[0]), actions[1..]);
    }
  }

  // ---- and what is stored is what was said ----

  lemma {:induction false} LogJoins(a: seq<Action>, b: seq<Action>)
    ensures CommandLog(a + b) == CommandLog(a) + CommandLog(b)
  {
    if a == [] {
      assert a + b == b;
    } else {
      assert (a + b)[1..] == a[1..] + b;
      LogJoins(a[1..], b);
      assert CommandLog(a + b) == LogOf(a[0]) + (CommandLog(a[1..]) + CommandLog(b));
    }
  }

  lemma {:induction false} OneMore(cfg: Config, w: World, actions: seq<Action>, a: Action)
    requires Possibly(cfg, w, actions) && Possible(Later(cfg, w, actions), a)
    ensures Possibly(cfg, w, actions + [a])
    ensures Later(cfg, w, actions + [a]) == Acted(cfg, Later(cfg, w, actions), a)
    decreases |actions|
  {
    var all := actions + [a];
    if actions == [] {
      assert all == [a] && all[1..] == [];
    } else {
      assert all[0] == actions[0] && all[1..] == actions[1..] + [a];
      OneMore(cfg, Acted(cfg, w, actions[0]), actions[1..], a);
    }
  }

  /**
   * Over any history: whenever the engine opens a tunnel, by command, on reconnect or as a retry, the open carries
   * the port, the password and the domain the commands so far have given it, and the tunnel is one they left on.
   */
  lemma OpensCarryTheLog(cfg: Config, actions: seq<Action>, a: Action, sid: SessionId, k: Command)
    requires Possibly(cfg, Initially(map[]), actions) && Possible(Later(cfg, Initially(map[]), actions), a)
    requires var w := Later(cfg, Initially(map[]), actions); k.Open? && k in PutBy(sid, w, a, Acted(cfg, w, a))
    ensures var log, name := CommandLog(actions + [a]), k.spec.name;
      && S.Configured(log, name) && S.LastSwitchedOn(log, name)
      && k.spec == Spec(name, S.LastPort(log, name), Http, S.LastAuth(log, name), S.LastDomain(log, name))
  {
    var s := S.Stored("", "", "", map[]);
    InitiallyOk(cfg);
    JobsStayStored(cfg, Initially(map[]), actions);
    var w := Later(cfg, Initially(map[]), actions);
    OpensAreAsStored(cfg, w, a, sid, Acted(cfg, w, a));
    OneMore(cfg, Initially(map[]), actions, a);
    StoredIsReplayed(cfg, Initially(map[]), actions + [a], s);
    S.StoredIsWhatWasSaid(s, CommandLog(actions + [a]), k.spec.name);
  }

  // ---- the work left, to its end ----

  ghost function Outbox(cfg: Config, sid: SessionId, w: World, actions: seq<Action>): seq<Command>
    requires Possibly(cfg, w, actions)
    decreases |actions|
  {
    if actions == [] then []
    else
      var w' := Acted(cfg, w, actions[0]);
      PutBy(sid, w, actions[0], w') + Outbox(cfg, sid, w', actions[1..])
  }

  /** Until the engine is at rest it only works off its jobs and waits; the rest of the system moves as it likes. */
  predicate WorksOff(actions: seq<Action>) {
    forall a <- actions :: a.Background? || a.NextJob? || a.Resume?
  }

  /** What the jobs still ask for, in order. */
  function Owed(tunnels: S.Entries, jobs: seq<Job>): seq<Spec> {
    if jobs == [] then []
    else OwedBy(tunnels, jobs[0]) + Owed(tunnels, jobs[1..])
  }

  function OwedBy(tunnels: S.Entries, job: Job): seq<Spec> {
    match job
    case Reopen(spec) => [spec]
    case Retry(name) => if name in tunnels && tunnels[name].enabled then [Stored(tunnels, name)] else []
  }

  /** The commands are opens of these tunnels, one each, in this order, and nothing else. */
  ghost predicate Opens(put: seq<Command>, specs: seq<Spec>) {
    |put| == |specs| && forall i :: 0 <= i < |put| ==> put[i].Open? && put[i].spec == specs[i]
  }

  lemma OpensJoin(a: seq<Command>, b: seq<Command>, s: seq<Spec>, t: seq<Spec>)
    requires Opens(a, s) && Opens(b, t)
    ensures Opens(a + b, s + t)
  {
  }

  lemma JobLeavesLoop(w: World, sid: SessionId)
    requires Attached(w) && w.eng.jobs != [] && sid in w.sys.conns
    ensures var w' := Working(w);
      && sid in w'.sys.conns && w'.sys.conns[sid].loop == w.sys.conns[sid].loop
      && w'.eng.session == w.eng.session && w'.eng.tunnels == w.eng.tunnels
  {
  }

  lemma LoopStops(cfg: Config, w: World, a: Action, sid: SessionId)
    requires Connected(w.sys) && Possible(w, a) && (a.Background? || a.NextJob? || a.Resume?)
    requires sid in w.sys.conns
    ensures var w' := Acted(cfg, w, a);
      && sid in w'.sys.conns && (w'.sys.conns[sid].loop.running ==> w.sys.conns[sid].loop.running)
      && w'.eng.session == w.eng.session && w'.eng.tunnels == w.eng.tunnels
  {
    match a
    case Background(turn) => BackgroundStops(cfg, w.sys, turn, sid);
    case NextJob => JobLeavesLoop(w, sid);
    case Resume(_) =>
  }

  lemma BackgroundStops(cfg: Config, x: Sys, t: Turn, sid: SessionId)
    requires Connected(x) && Can(x, t.sid, t.act) && sid in x.conns
    ensures var x' := Do(cfg, x, t.sid, t.act);
      sid in x'.conns && (x'.conns[sid].loop.running ==> x.conns[sid].loop.running)
  {
    if t.sid != sid {
      OthersKeepLine(cfg, x, t, sid);
    } else if !t.act.Client? {
      EntersOnce(x, sid, t.act);
    }
  }

  /** One action of it: what it puts and what it leaves to do. */
  lemma OneActionOfWork(cfg: Config, w: World, a: Action, sid: SessionId, w': World)
    requires w.eng.session == Some(sid) && (a.Background? || a.NextJob? || a.Resume?)
    requires Possible(w, a) && w' == Acted(cfg, w, a) && sid in w.sys.conns && w.sys.conns[sid].loop.running
    ensures if a.NextJob?
      then w.eng.jobs != [] && w'.eng.jobs == w.eng.jobs[1..]
        && Opens(PutBy(sid, w, a, w'), OwedBy(w.eng.tunnels, w.eng.jobs[0]))
      else w'.eng.jobs == w.eng.jobs && PutBy(sid, w, a, w') == []
  {
    if a.NextJob? {
      JobPuts(w);
    } else {
      OthersPutNothing(cfg, w, a, sid);
    }
  }

  lemma {:induction false} RunningAllAlong(cfg: Config, w: World, actions: seq<Action>, sid: SessionId)
    requires WorldInv(cfg, w) && Possibly(cfg, w, actions) && WorksOff(actions) && sid in w.sys.conns
    ensures sid in Later(cfg, w, actions).sys.conns
    ensures Later(cfg, w, actions).sys.conns[sid].loop.running ==> w.sys.conns[sid].loop.running
    ensures Later(cfg, w, actions).eng.tunnels == w.eng.tunnels && Later(cfg, w, actions).eng.session == w.eng.session
    decreases |actions|
  {
    if actions != [] {
      assert actions[0] in actions && forall a <- actions[1..] :: a in actions;
      LoopStops(cfg, w, actions[0], sid);
      HonestyLasts(cfg, w, actions[0]);
      RunningAllAlong(cfg, Acted(cfg, w, actions[0]), actions[1..], sid);
    }
  }

  lemma WorkStep(cfg: Config, w: World, a: Action, sid: SessionId, w': World)
    requires a.Background? || a.NextJob? || a.Resume?
    requires w.eng.session == Some(sid) && sid in w.sys.conns
    requires Possible(w, a) && w' == Acted(cfg, w, a) && WorldInv(cfg, w)
    ensures WorldInv(cfg, w') && sid in w'.sys.conns
    ensures w'.eng.session == w.eng.session && w'.eng.tunnels == w.eng.tunnels
    ensures w'.sys.conns[sid].loop.running ==>
      if a.NextJob?
      then w.eng.jobs != [] && w'.eng.jobs == w.eng.jobs[1..]
        && Opens(PutBy(sid, w, a, w'), OwedBy(w.eng.tunnels, w.eng.jobs[0]))
      else w'.eng.jobs == w.eng.jobs && PutBy(sid, w, a, w') == []
  {
    LoopStops(cfg, w, a, sid);
    if w'.sys.conns[sid].loop.running {
      OneActionOfWork(cfg, w, a, sid, w');
    }
    HonestyLasts(cfg, w, a);
  }

  lemma WorkJoins(jobs: seq<Job>, jobs': seq<Job>, tunnels: S.Entries, put: seq<Command>, rest: seq<Command>, job: bool)
    requires if job then jobs != [] && jobs' == jobs[1..] && Opens(put, OwedBy(tunnels, jobs[0]))
      else jobs' == jobs && put == []
    requires Opens(rest, Owed(tunnels, jobs'))
    ensures Opens(put + rest, Owed(tunnels, jobs))
  {
    if job {
      OpensJoin(put, rest, OwedBy(tunnels, jobs[0]), Owed(tunnels, jobs'));
    } else {
      assert put + rest == rest;
    }
  }

  /** Worked off to the end, the jobs have put exactly the opens they stand for, in their order. */
  lemma {:induction false} JobsAreDone(cfg: Config, w: World, actions: seq<Action>, sid: SessionId)
    requires w.eng.session == Some(sid) && sid in w.sys.conns && WorksOff(actions)
    requires WorldInv(cfg, w) && Possibly(cfg, w, actions)
    requires var w' := Later(cfg, w, actions);
      AtRest(w'.eng) && sid in w'.sys.conns && w'.sys.conns[sid].loop.running
    ensures Opens(Outbox(cfg, sid, w, actions), Owed(w.eng.tunnels, w.eng.jobs))
    decreases |actions|
  {
    if actions != [] {
      var a, w' := actions[0], Acted(cfg, w, actions[0]);
      assert a in actions && forall b <- actions[1..] :: b in actions;
      WorkStep(cfg, w, a, sid, w');
      RunningAllAlong(cfg, w', actions[1..], sid);
      JobsAreDone(cfg, w', actions[1..], sid);
      WorkJoins(w.eng.jobs, w'.eng.jobs, w.eng.tunnels, PutBy(sid, w, a, w'), Outbox(cfg, sid, w', actions[1..]), a.NextJob?);
    }
  }

  // ---- the timer ----

  /** What is to be asked for when these names are due: those still switched on, as stored, in this order. */
  function DueSpecs(tunnels: S.Entries, due: seq<string>): seq<Spec> {
    if due == [] then []
    else
      (if due[0] in tunnels && tunnels[due[0]].enabled then [Stored(tunnels, due[0])] else [])
      + DueSpecs(tunnels, due[1..])
  }

  lemma {:induction false} RetriesOwe(tunnels: S.Entries, due: seq<string>)
    ensures Owed(tunnels, seq(|due|, i requires 0 <= i < |due| => Retry(due[i]))) == DueSpecs(tunnels, due)
  {
    var jobs := seq(|due|, i requires 0 <= i < |due| => Retry(due[i]));
    if due != [] {
      assert jobs[1..] == seq(|due[1..]|, i requires 0 <= i < |due[1..]| => Retry(due[1..][i]));
      RetriesOwe(tunnels, due[1..]);
    }
  }

  lemma {:induction false} AllOn(tunnels: S.Entries, due: seq<string>)
    requires forall n <- due :: S.IsEnabled(tunnels, n)
    ensures |DueSpecs(tunnels, due)| == |due|
    ensures forall i :: 0 <= i < |due| ==> due[i] in tunnels && DueSpecs(tunnels, due)[i] == Stored(tunnels, due[i])
  {
    if due != [] {
      AllOn(tunnels, due[1..]);
      assert due[0] in due && forall i :: 0 < i < |due| ==> due[i] == due[1..][i - 1];
    }
  }

  /** A tick books one retry for each name due, in order, and touches nothing else. */
  lemma TimerBooks(cfg: Config, w: World, now: R.Time, due: seq<string>)
    requires Possible(w, TimerTick(now, due)) && Line(w).loop.running
    ensures var w' := Acted(cfg, w, TimerTick(now, due));
      && w'.sys == w.sys && w'.eng == w.eng.(jobs := w'.eng.jobs)
      && |w'.eng.jobs| == |due| && forall i :: 0 <= i < |due| ==> w'.eng.jobs[i] == Retry(due[i])
  {
  }

  lemma TimerStarts(cfg: Config, w: World, now: R.Time, due: seq<string>)
    requires Possible(w, TimerTick(now, due)) && Line(w).loop.running
    ensures var w' := Acted(cfg, w, TimerTick(now, due));
      && w'.sys == w.sys && w'.eng == w.eng.(jobs := w'.eng.jobs)
      && w'.eng.jobs == seq(|due|, i requires 0 <= i < |due| => Retry(due[i]))
      && Owed(w.eng.tunnels, w'.eng.jobs) == DueSpecs(w.eng.tunnels, due)
  {
    TimerBooks(cfg, w, now, due);
    RetriesOwe(w.eng.tunnels, due);
  }

  /**
   * A tick of the timer, worked off: for each name then due, in the order of the names, the engine opens the tunnel
   * once, as stored, if it is still on, and opens nothing else.
   */
  lemma TickAsksForDueNames(cfg: Config, w: World, now: R.Time, due: seq<string>, rest: seq<Action>, sid: SessionId)
    requires w.eng.session == Some(sid) && WorksOff(rest)
    requires WorldInv(cfg, w) && Possible(w, TimerTick(now, due)) && Line(w).loop.running
    requires Possibly(cfg, Acted(cfg, w, TimerTick(now, due)), rest)
    requires var w' := Later(cfg, Acted(cfg, w, TimerTick(now, due)), rest);
      AtRest(w'.eng) && sid in w'.sys.conns && w'.sys.conns[sid].loop.running
    ensures Opens(Outbox(cfg, sid, Acted(cfg, w, TimerTick(now, due)), rest), DueSpecs(w.eng.tunnels, due))
    ensures PutBy(sid, w, TimerTick(now, due), Acted(cfg, w, TimerTick(now, due))) == []
  {
    TimerStarts(cfg, w, now, due);
    OthersPutNothing(cfg, w, TimerTick(now, due), sid);
    HonestyLasts(cfg, w, TimerTick(now, due));
    JobsAreDone(cfg, Acted(cfg, w, TimerTick(now, due)), rest, sid);
  }

  lemma DueNamesAreOn(cfg: Config, w: World, now: R.Time, due: seq<string>)
    requires Lived(cfg, w) && Possible(w, TimerTick(now, due))
    ensures forall n <- due :: S.IsEnabled(w.eng.tunnels, n)
  {
    forall n <- due
      ensures S.IsEnabled(w.eng.tunnels, n)
    {
      assert n in Elements(due);
      B.WaitingRowsAreRetried(cfg, w, n);
    }
  }

  /** After any history every due name is still on, so that each is asked for, exactly once. */
  lemma EveryDueNameIsAskedFor(cfg: Config, w: World, now: R.Time, due: seq<string>, rest: seq<Action>, sid: SessionId)
    requires w.eng.session == Some(sid) && WorksOff(rest)
    requires Lived(cfg, w) && Possible(w, TimerTick(now, due)) && Line(w).loop.running
    requires Possibly(cfg, Acted(cfg, w, TimerTick(now, due)), rest)
    requires var w' := Later(cfg, Acted(cfg, w, TimerTick(now, due)), rest);
      AtRest(w'.eng) && sid in w'.sys.conns && w'.sys.conns[sid].loop.running
    ensures var put := Outbox(cfg, sid, Acted(cfg, w, TimerTick(now, due)), rest);
      && |put| == |due|
      && forall i :: 0 <= i < |due| ==>
           S.IsEnabled(w.eng.tunnels, due[i]) && put[i].Open? && put[i].spec == Stored(w.eng.tunnels, due[i])
  {
    LivedHonest(cfg, w);
    DueNamesAreOn(cfg, w, now, due);
    AllOn(w.eng.tunnels, due);
    TickAsksForDueNames(cfg, w, now, due, rest, sid);
    assert forall i :: 0 <= i < |due| ==> due[i] in due;
  }

  // ---- a name switched off meanwhile ----

  /** A retry booked for the name, if there is one, is about to be looked at; nothing else is under way for it. */
  ghost predicate OnlyRetry(e: Engine, name: string) {
    && !S.IsEnabled(e.tunnels, name) && !Awaits(e.waiting, name)
    && (forall j <- e.jobs :: j.Reopen? ==> j.spec.name != name)
    && (name in e.taken.pending ==> Retry(name) in e.jobs)
  }

  lemma WorkForgets(w: World, name: string)
    requires Attached(w) && w.eng.waiting == None && w.eng.jobs != [] && OnlyRetry(w.eng, name)
    ensures OnlyRetry(Working(w).eng, name)
  {
    assert w.eng.jobs[0] in w.eng.jobs && forall j <- w.eng.jobs[1..] :: j in w.eng.jobs;
    assert forall j <- w.eng.jobs :: j == w.eng.jobs[0] || j in w.eng.jobs[1..];
  }

  lemma ResumeForgets(e: Engine, answer: Answer, now: R.Time, name: string)
    requires e.waiting.Some? && OnlyRetry(e, name)
    ensures OnlyRetry(Resumed(e, answer, now), name)
  {
    AnswersAreShown(e, answer, now);
    B.SameElsewhere(e.taken.pending, Resumed(e, answer, now).taken.pending, e.waiting.value.spec.name, name);
  }

  lemma {:induction false} OffNamesAreForgotten(cfg: Config, w: World, actions: seq<Action>, name: string)
    requires WorksOff(actions) && OnlyRetry(w.eng, name) && Possibly(cfg, w, actions)
    ensures OnlyRetry(Later(cfg, w, actions).eng, name)
    ensures AtRest(Later(cfg, w, actions).eng) ==> name !in Later(cfg, w, actions).eng.taken.pending
    decreases |actions|
  {
    if actions != [] {
      var a := actions[0];
      assert a in actions && forall b <- actions[1..] :: b in actions;
      match a {
        case Background(_) =>
        case NextJob => WorkForgets(w, name);
        case Resume(now) => ResumeForgets(w.eng, Line(w).calls.answers[w.eng.waiting.value.ticket], now, name);
      }
      OffNamesAreForgotten(cfg, Acted(cfg, w, a), actions[1..], name);
    }
  }

  /** A due name that is no longer on is not asked for any more and its retry is forgotten. */
  lemma DueNameSwitchedOff(cfg: Config, w: World, now: R.Time, due: seq<string>, rest: seq<Action>, name: string)
    requires Possible(w, TimerTick(now, due)) && Line(w).loop.running
    requires name in due && !S.IsEnabled(w.eng.tunnels, name)
    requires WorksOff(rest) && Possibly(cfg, Acted(cfg, w, TimerTick(now, due)), rest)
    requires AtRest(Later(cfg, Acted(cfg, w, TimerTick(now, due)), rest).eng)
    ensures name !in Later(cfg, Acted(cfg, w, TimerTick(now, due)), rest).eng.taken.pending
  {
    var w1 := Acted(cfg, w, TimerTick(now, due));
    TimerStarts(cfg, w, now, due);
    var i :| 0 <= i < |due| && due[i] == name;
    assert w1.eng.jobs[i] == Retry(name);
    OffNamesAreForgotten(cfg, w1, rest, name);
  }

  // ---- a new connection ----

  lemma {:induction false} ReopensOwe(tunnels: S.Entries, specs: seq<Spec>)
    ensures Owed(tunnels, seq(|specs|, i requires 0 <= i < |specs| => Reopen(specs[i]))) == specs
  {
    var jobs := seq(|specs|, i requires 0 <= i < |specs| => Reopen(specs[i]));
    if specs != [] {
      assert jobs[1..] == seq(|specs[1..]|, i requires 0 <= i < |specs[1..]| => Reopen(specs[1..][i]));
      ReopensOwe(tunnels, specs[1..]);
    }
  }

  /** The connection of a session begun with this list has been given all the work there was. */
  ghost predicate WorkedOff(cfg: Config, w1: World, sid: SessionId, rest: seq<Action>) {
    && WorksOff(rest) && Possibly(cfg, w1, rest)
    && var w := Later(cfg, w1, rest);
       AtRest(w.eng) && sid in w.sys.conns && w.sys.conns[sid].loop.running
  }

  lemma ReconnectPuts(cfg: Config, w0: World, sid: SessionId, specs: seq<Spec>, h: nat, rest: seq<Action>, w1: World)
    requires Possible(w0, Attach(sid, specs, h)) && w1 == Acted(cfg, w0, Attach(sid, specs, h)) && WorldInv(cfg, w0)
    requires WorkedOff(cfg, w1, sid, rest)
    ensures Opens(Outbox(cfg, sid, w1, rest), specs)
  {
    HonestyLasts(cfg, w0, Attach(sid, specs, h));
    ReopensOwe(w1.eng.tunnels, specs);
    JobsAreDone(cfg, w1, rest, sid);
  }

  ghost predicate OpensName(put: seq<Command>, name: string) {
    exists i :: 0 <= i < |put| && put[i].Open? && put[i].spec.name == name
  }

  lemma SameNames(put: seq<Command>, specs: seq<Spec>, name: string)
    requires Opens(put, specs)
    ensures OpensName(put, name) <==> exists i :: 0 <= i < |specs| && specs[i].name == name
  {
    if i :| 0 <= i < |specs| && specs[i].name == name {
      assert put[i].Open? && put[i].spec.name == name;
    }
  }

  /** Of this name exactly one open is among them if the log leaves it on, and none if not; it carries what was said. */
  ghost predicate AsksFor(put: seq<Command>, log: seq<S.Handled>, name: string) {
    && (OpensName(put, name) <==> S.Configured(log, name) && S.LastSwitchedOn(log, name))
    && (forall i | 0 <= i < |put| && put[i].Open? && put[i].spec.name == name ::
          S.Configured(log, name) &&
          put[i].spec == Spec(name, S.LastPort(log, name), Http, S.LastAuth(log, name), S.LastDomain(log, name)))
  }

  lemma ListAsks(put: seq<Command>, specs: seq<Spec>, log: seq<S.Handled>, name: string)
    requires Opens(put, specs)
    requires (exists i :: 0 <= i < |specs| && specs[i].name == name) <==> S.Configured(log, name) && S.LastSwitchedOn(log, name)
    requires forall i :: 0 <= i < |specs| && specs[i].name == name ==>
      S.Configured(log, name) &&
      specs[i] == Spec(name, S.LastPort(log, name), Http, S.LastAuth(log, name), S.LastDomain(log, name))
    ensures AsksFor(put, log, name)
  {
    SameNames(put, specs, name);
  }

  /**
   * A new connection after any history, worked off: it is asked to open each tunnel the commands so far have left on,
   * once, in the order of the names, with its last port and the last password and domain given to it, and nothing
   * else.
   */
  lemma ReconnectAsks(
    cfg: Config, actions: seq<Action>, w0: World, sid: SessionId, specs: seq<Spec>, h: nat, rest: seq<Action>, w1: World,
    name: string)
    requires Possibly(cfg, Initially(map[]), actions) && w0 == Later(cfg, Initially(map[]), actions)
    requires Possible(w0, Attach(sid, specs, h)) && w1 == Acted(cfg, w0, Attach(sid, specs, h))
    requires WorkedOff(cfg, w1, sid, rest)
    ensures var put := Outbox(cfg, sid, w1, rest);
      && (forall i :: 0 <= i < |put| ==> put[i].Open?)
      && (forall i, j :: 0 <= i < j < |put| ==> Precedes(put[i].spec.name, put[j].spec.name))
      && AsksFor(put, CommandLog(actions), name)
  {
    ReconnectReopens(cfg, actions, sid, specs, h, name);
    InitiallyOk(cfg);
    HonestyAlways(cfg, Initially(map[]), actions);
    ReconnectPuts(cfg, w0, sid, specs, h, rest, w1);
    ListAsks(Outbox(cfg, sid, w1, rest), specs, CommandLog(actions), name);
  }

  // ---- what commands and the timer do to the rows and the retries ----

  /** The rows of all other names are as they were. */
  ghost predicate RowsStay(rows: Rows, rows': Rows, changed: set<string>) {
    forall n: string | n !in changed :: (n in rows <==> n in rows') && (n in rows ==> rows'[n] == rows[n])
  }

  /** No session any more: no address is shown, nothing is awaited, and everything else is as it was. */
  ghost predicate LetGo(e: Engine, e': Engine) {
    && e'.session == None && e'.waiting == None && e'.jobs == []
    && e'.rows.Keys == e.rows.Keys && (forall n <- e.rows :: e'.rows[n] == e.rows[n].(url := None))
    && e'.tunnels == e.tunnels
  }

  /** While the session is up: whose row and whose retry a command touches at once, before any answer. */
  lemma CommandsShow(w: World, cmd: S.Command)
    requires Attached(w) && AtRest(w.eng)
    ensures var e, e' := w.eng, Handling(w, cmd).eng;
      match cmd
      case AddTunnel(_) => e'.rows == e.rows && e'.taken == e.taken && e'.session == e.session
      case RemoveTunnel(name) =>
        && name !in e'.rows && RowsStay(e.rows, e'.rows, {name}) && e'.session == e.session
        && e'.taken.pending == e.taken.pending - {name}
      case SetAuth(name, auth) =>
        && RowsStay(e.rows, e'.rows, {name}) && e'.taken == e.taken && e'.session == e.session
        && (name in e.rows <==> name in e'.rows)
        && (name in e.rows ==>
              e'.rows[name] == if name in e.tunnels && !e.tunnels[name].enabled
                               then e.rows[name].(guarded := auth.Some?) else e.rows[name])
        && (name in e.tunnels && e.tunnels[name].enabled ==> e'.waiting.Some? && e'.waiting.value.next == ShowGuard)
      case SetEnabled(name, enabled) =>
        && RowsStay(e.rows, e'.rows, {name}) && e'.session == e.session
        && (name in e.rows <==> name in e'.rows)
        && (name in e.rows ==> e'.rows[name] == if enabled then e.rows[name] else e.rows[name].(enabled := false, url := None))
        && e'.taken.pending == if enabled then e.taken.pending else e.taken.pending - {name}
      case _ => LetGo(e, e')
  {
  }

  /** Between sessions. */
  lemma OfflineCommandsShow(e: Engine, cmd: S.Command)
    ensures var e' := HandlingOffline(e, cmd);
      && e'.session == e.session && e'.taken == e.taken && e'.waiting == e.waiting && e'.jobs == e.jobs
      && match cmd
         case AddTunnel(spec) =>
           if Naming.ValidateName(spec.name) != None || spec.name in e.rows then e'.rows == e.rows
           else
             && spec.name in e'.rows && RowsStay(e.rows, e'.rows, {spec.name}) && spec.name in e'.tunnels
             && var row := e'.rows[spec.name];
                && row.name == spec.name && row.localPort == spec.localPort && row.enabled
                && row.url == None && row.error == None && row.guarded == e'.tunnels[spec.name].auth.Some?
         case RemoveTunnel(name) => name !in e'.rows && RowsStay(e.rows, e'.rows, {name})
         case SetAuth(name, auth) =>
           && RowsStay(e.rows, e'.rows, {name}) && (name in e.rows <==> name in e'.rows)
           && (name in e.rows ==>
                 e'.rows[name] == if name in e.tunnels then e.rows[name].(guarded := auth.Some?) else e.rows[name])
         case SetEnabled(name, enabled) =>
           && RowsStay(e.rows, e'.rows, {name}) && (name in e.rows <==> name in e'.rows)
           && (name in e.rows ==> e'.rows[name] == e.rows[name].(enabled := enabled))
         case _ => e' == e
  {
  }

  /** A connection found dead, by the timer or when its loop has ended, is let go of; the next one starts its own retries. */
  lemma SessionsComeAndGo(cfg: Config, w: World, a: Action)
    requires Possible(w, a)
    ensures a.LinkLost? ==> LetGo(w.eng, Acted(cfg, w, a).eng)
    ensures a.TimerTick? && !Line(w).loop.running ==> LetGo(w.eng, Acted(cfg, w, a).eng)
    ensures a.Attach? ==>
      var e' := Acted(cfg, w, a).eng;
      && e'.session == Some(a.sid) && e'.taken.pending == map[] && e'.rows == w.eng.rows && e'.tunnels == w.eng.tunnels
      && e'.taken.window == 6 * (1000 * if a.heartbeatSecs < 1 then 1 else a.heartbeatSecs)
      && e'.taken.every == (if a.heartbeatSecs < 1 then 1000 else if a.heartbeatSecs < 3 then 1000 * a.heartbeatSecs else 3000)
  {
  }
}
