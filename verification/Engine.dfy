/**
 * The client engine on top of its connection (crates/cy-core/src/engine.rs): desired tunnels, status rows,
 * retries of taken names, reconnects. The engine is one more actor of the whole system.
 */
module Engine {
  import opened Basics
  import opened Registry
  import opened ControlMessages
  import opened ControlLoop
  import opened ServerMachine
  import opened TunnelSystem
  import opened StatusBoard
  import S = TunnelState
  import R = TakenRetries
  import Naming

  datatype Job = Reopen(spec: Spec) | Retry(name: string)

  /** What follows the answer: nothing more, or the row's guard mark is brought up to date. */
  datatype Next = Nothing | ShowGuard

  /** An `open_tunnel` call the engine is waiting on, and what it does afterwards. */
  datatype Wait = Wait(ticket: nat, spec: Spec, next: Next)

  datatype Engine = Engine(
    tunnels: S.Entries,
    rows: Rows,
    session: Option<SessionId>,
    taken: R.Taken,
    waiting: Option<Wait>,
    jobs: seq<Job>)

  datatype World = World(sys: Sys, eng: Engine)

  function Initially(tunnels: S.Entries): World {
    World(START, Engine(tunnels, map[], None, R.Fresh(1), None, []))
  }

  datatype Action =
    | Background(turn: Turn)                              // anybody but the engine moves
    | Attach(sid: SessionId, specs: seq<Spec>, heartbeatSecs: nat)
    | Handle(cmd: S.Command)                              // a command while the session is up
    | HandleOffline(cmd: S.Command)                       // a command between sessions
    | NextJob
    | Resume(now: R.Time)                                 // the awaited answer has come
    | TimerTick(now: R.Time, due: seq<string>)
    | LinkLost                                            // the timer finds the connection's stream closed

  predicate AtRest(e: Engine) {
    e.waiting == None && e.jobs == []
  }

  ghost predicate Attached(w: World) {
    w.eng.session.Some? && w.eng.session.value in w.sys.conns
  }

  ghost function Line(w: World): Conn
    requires Attached(w)
  {
    w.sys.conns[w.eng.session.value]
  }

  /** Room for as many more commands as one engine step sends; the engine would wait for it. */
  predicate Room(c: Conn, n: nat) {
    c.loop.running ==> |c.calls.commands| + n <= COMMAND_QUEUE
  }

  ghost predicate Possible(w: World, a: Action) {
    match a
    case Background(turn) =>
      && Can(w.sys, turn.sid, turn.act)
      && (w.eng.session == Some(turn.sid) ==>
            !turn.act.Client? || (!turn.act.act.Call? && !turn.act.act.CallClose?))
    case Attach(sid, specs, _) =>
      w.eng.session == None && Can(w.sys, sid, Serve(Enter)) && S.ListsEnabled(w.eng.tunnels, specs)
    case Handle(_) => Attached(w) && AtRest(w.eng) && Room(Line(w), 2)
    case HandleOffline(_) => w.eng.session == None
    case NextJob => Attached(w) && w.eng.waiting == None && w.eng.jobs != [] && Room(Line(w), 1)
    case Resume(_) => Attached(w) && w.eng.waiting.Some? && w.eng.waiting.value.ticket in Line(w).calls.answers
    case TimerTick(now, due) => Attached(w) && AtRest(w.eng) && Ascending(due) && Elements(due) == R.Due(w.eng.taken, now)
    case LinkLost => Attached(w) && AtRest(w.eng) && !Line(w).loop.linkUp
  }

  // ---- talking to the connection ----

  ghost function WithLine(w: World, c: Conn): World
    requires Attached(w)
  {
    w.(sys := w.sys.(conns := w.sys.conns[w.eng.session.value := c]))
  }

  /** `open_tunnel`: put the call and wait. */
  ghost function Opening(w: World, spec: Spec, next: Next): World
    requires Attached(w)
  {
    var c := Line(w);
    WithLine(w.(eng := w.eng.(waiting := Some(Wait(c.calls.nextTicket, spec, next)))), Submitted(c, spec))
  }

  /** `close_tunnel`: put the command and go on. */
  ghost function ClosingName(w: World, name: string): World
    requires Attached(w)
  {
    WithLine(w, SubmittedClose(Line(w), name))
  }

  /** The session is over: no row shows an address any more. */
  function Detached(e: Engine): Engine {
    e.(session := None, rows := UrlsCleared(e.rows), waiting := None, jobs := [])
  }

  // ---- commands while the session is up ----

  function Showing(rows: Rows, name: string): bool {
    name in rows && rows[name].url.Some?
  }

  ghost function Adding(w: World, spec: Spec): World
    requires Attached(w)
  {
    if Naming.ValidateName(spec.name) != None then w
    else
      var e := w.eng.(tunnels := S.Upserted(w.eng.tunnels, spec, true));
      var effective := S.SpecOf(spec.name, e.tunnels[spec.name]);
      var up := Showing(e.rows, spec.name);
      var samePort := spec.name in e.rows && e.rows[spec.name].localPort == effective.localPort;
      var w' := w.(eng := e);
      if up && samePort then w'
      else Opening(if up then ClosingName(w', spec.name) else w', effective, Nothing)
  }

  ghost function Removing(w: World, name: string): World
    requires Attached(w)
  {
    ClosingName(w.(eng := w.eng.(taken := R.Forgotten(w.eng.taken, name),
                                 tunnels := S.Removed(w.eng.tunnels, name),
                                 rows := w.eng.rows - {name})), name)
  }

  ghost function Rekeying(w: World, name: string, auth: Option<string>): World
    requires Attached(w)
  {
    if name !in w.eng.tunnels then w
    else
      var e := w.eng.(tunnels := S.WithAuth(w.eng.tunnels, name, auth));
      if e.tunnels[name].enabled
      then Opening(ClosingName(w.(eng := e), name), S.SpecOf(name, e.tunnels[name]), ShowGuard)
      else w.(eng := e.(rows := WithGuard(e.rows, name, auth.Some?)))
  }

  ghost function Switching(w: World, name: string, enabled: bool): World
    requires Attached(w)
  {
    var e := w.eng.(tunnels := S.WithEnabled(w.eng.tunnels, name, enabled));
    if enabled then
      if name in e.tunnels then Opening(w.(eng := e), S.SpecOf(name, e.tunnels[name]), Nothing) else w.(eng := e)
    else
      ClosingName(w.(eng := e.(taken := R.Forgotten(e.taken, name), rows := SwitchedOff(e.rows, name))), name)
  }

  ghost function Handling(w: World, cmd: S.Command): World
    requires Attached(w)
  {
    match cmd
    case AddTunnel(spec) => Adding(w, spec)
    case RemoveTunnel(name) => Removing(w, name)
    case SetAuth(name, auth) => Rekeying(w, name, auth)
    case SetEnabled(name, enabled) => Switching(w, name, enabled)
    case Login(_, _, _) => w.(eng := Detached(w.eng))
    case Logout => w.(eng := Detached(w.eng))
    case Shutdown => w.(eng := Detached(w.eng))
  }

  // ---- commands between sessions ----

  function HandlingOffline(e: Engine, cmd: S.Command): Engine {
    match cmd
    case AddTunnel(spec) =>
      if Naming.ValidateName(spec.name) != None then e
      else
        var tunnels := S.Upserted(e.tunnels, spec, true);
        e.(tunnels := tunnels, rows := Listed(e.rows, S.SpecOf(spec.name, tunnels[spec.name])))
    case RemoveTunnel(name) => e.(tunnels := S.Removed(e.tunnels, name), rows := e.rows - {name})
    case SetEnabled(name, enabled) =>
      e.(tunnels := S.WithEnabled(e.tunnels, name, enabled), rows := Switched(e.rows, name, enabled))
    case SetAuth(name, auth) =>
      if name !in e.tunnels then e
      else e.(tunnels := S.WithAuth(e.tunnels, name, auth), rows := WithGuard(e.rows, name, auth.Some?))
    case Login(_, _, _) => e
    case Logout => e
    case Shutdown => e
  }

  // ---- jobs, answers, the timer ----

  ghost function Working(w: World): World
    requires Attached(w) && w.eng.jobs != []
  {
    var w' := w.(eng := w.eng.(jobs := w.eng.jobs[1..]));
    match w.eng.jobs[0]
    case Reopen(spec) => Opening(w', spec, Nothing)
    case Retry(name) =>
      if name in w.eng.tunnels && w.eng.tunnels[name].enabled
      then Opening(w', S.SpecOf(name, w.eng.tunnels[name]), Nothing)
      else w'.(eng := w'.eng.(taken := R.Forgotten(w'.eng.taken, name)))
  }

  function ResultOf(a: Answer): OpenResult {
    match a
    case Granted(public) => Ok(public)
    case Refusal(code) => Err(code)
  }

  function Bare(r: OpenResult): Result<(), Option<Code>> {
    match r
    case Ok(_) => Ok(())
    case Err(code) => Err(code)
  }

  function Resumed(e: Engine, answer: Answer, now: R.Time): Engine
    requires e.waiting.Some?
  {
    var wait := e.waiting.value;
    var name, result := wait.spec.name, ResultOf(answer);
    var noted := Noted(e.rows, wait.spec, result);
    var (taken, verdict) := R.Recorded(e.taken, name, Bare(result), now);
    var told := if verdict.GaveUp? then WithError(noted, name, NameTaken) else noted;
    var rows :=
      match wait.next
      case Nothing => told
      case ShowGuard => WithGuard(told, name, name in e.tunnels && e.tunnels[name].auth.Some?);
    e.(rows := rows, taken := taken, waiting := None)
  }

  ghost function Ticking(w: World, due: seq<string>): World
    requires Attached(w)
  {
    if !Line(w).loop.running then w.(eng := Detached(w.eng))
    else w.(eng := w.eng.(jobs := seq(|due|, i requires 0 <= i < |due| => Retry(due[i]))))
  }

  ghost function Acted(cfg: Config, w: World, a: Action): World
    requires Possible(w, a)
  {
    match a
    case Background(turn) => w.(sys := Do(cfg, w.sys, turn.sid, turn.act))
    case Attach(sid, specs, h) =>
      World(Do(cfg, w.sys, sid, Serve(Enter)),
            w.eng.(session := Some(sid), taken := R.Fresh(h),
                   jobs := seq(|specs|, i requires 0 <= i < |specs| => Reopen(specs[i]))))
    case Handle(cmd) => Handling(w, cmd)
    case HandleOffline(cmd) => w.(eng := HandlingOffline(w.eng, cmd))
    case NextJob => Working(w)
    case Resume(now) => w.(eng := Resumed(w.eng, Line(w).calls.answers[w.eng.waiting.value.ticket], now))
    case TimerTick(_, due) => Ticking(w, due)
    case LinkLost => w.(eng := Detached(w.eng))
  }

  ghost predicate Possibly(cfg: Config, w: World, actions: seq<Action>)
    decreases |actions|
  {
    actions == [] || (Possible(w, actions[0]) && Possibly(cfg, Acted(cfg, w, actions[0]), actions[1..]))
  }

  ghost function Later(cfg: Config, w: World, actions: seq<Action>): World
    requires Possibly(cfg, w, actions)
    decreases |actions|
  {
    if actions == [] then w else Later(cfg, Acted(cfg, w, actions[0]), actions[1..])
  }
}
