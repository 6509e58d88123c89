/**
 * The client's timer as `Reclaim` has it is what the engine does: tick by tick, name by name, each call answered
 * before the next (crates/cy-core/src/engine.rs:575-583).
 */
module EngineReclaim {
  import opened Basics
  import opened Registry
  import opened ControlMessages
  import opened ControlLoop
  import opened ServerMachine
  import opened ServerTheorems
  import opened Engine
  import opened EngineOutbox
  import opened EngineSwitching
  import opened Heartbeats
  import opened Reclaim
  import B = EngineRetries
  import P = EngineProofs
  import S = TunnelState
  import R = TakenRetries
  import Naming

  // ---- one due name ----

  ghost function OneRetry(sid: SessionId, check: DomainCheck, now: R.Time): seq<Action> {
    [NextJob] + Exchange(sid, check, now)
  }

  /** The next retry is made and answered: the name is asked for as stored, and its books follow the answer. */
  lemma RetryIsMade(cfg: Config, w: World, sid: SessionId, name: string, check: DomainCheck, now: R.Time)
    requires LineIdle(w, sid) && w.eng.jobs != [] && w.eng.jobs[0] == Retry(name) && S.IsEnabled(w.eng.tunnels, name)
    ensures Possibly(cfg, w, OneRetry(sid, check, now))
    ensures var w', result := Later(cfg, w, OneRetry(sid, check, now)),
                              Decided(cfg, w.sys.server, sid, Stored(w.eng.tunnels, name), check);
      && LineIdle(w', sid) && w'.eng.jobs == w.eng.jobs[1..] && w'.eng.tunnels == w.eng.tunnels
      && w'.eng.taken == R.Recorded(w.eng.taken, name, Bare(result), now).0
      && name in w'.eng.rows && w'.eng.rows[name].url == (if result.Ok? then Some(result.value) else None)
      && w'.eng.rows - {name} == w.eng.rows - {name}
  {
    var e := w.eng.(jobs := w.eng.jobs[1..]);
    var spec := Stored(w.eng.tunnels, name);
    assert Working(w) == Opening(w.(eng := e), spec, Nothing);
    CallIsSettled(cfg, w.(eng := e), sid, spec, Nothing, check, now);
    FirstThenRest(cfg, w, NextJob, Exchange(sid, check, now));
  }

  // ---- one tick ----

  /** The worlds of one tick: after the timer fired, and after each due name was asked for and answered. */
  ghost predicate Round(
    cfg: Config, w: World, sid: SessionId, check: DomainCheck, now: R.Time, due: seq<string>, ws: seq<World>)
  {
    && Possible(w, TimerTick(now, due))
    && |ws| == |due| + 1 && ws[0] == Acted(cfg, w, TimerTick(now, due))
    && forall i | 0 <= i < |due| ::
         Possibly(cfg, ws[i], OneRetry(sid, check, now)) && ws[i + 1] == Later(cfg, ws[i], OneRetry(sid, check, now))
  }

  function Retries(due: seq<string>): (jobs: seq<Job>)
    ensures |jobs| == |due| && forall i :: 0 <= i < |due| ==> jobs[i] == Retry(due[i])
  {
    seq(|due|, i requires 0 <= i < |due| => Retry(due[i]))
  }

  /** The answer is in the books and on the row of this name, and the other rows are as before. */
  ghost predicate Noted(w: World, name: string, result: Result<Endpoint, Option<Code>>, now: R.Time, w': World) {
    && w'.eng.taken == R.Recorded(w.eng.taken, name, Bare(result), now).0
    && name in w'.eng.rows && w'.eng.rows[name].url == (if result.Ok? then Some(result.value) else None)
    && w'.eng.rows - {name} == w.eng.rows - {name}
  }

  ghost predicate Midway(w: World, ws: World, sid: SessionId, due: seq<string>, i: nat) {
    i <= |due| && LineIdle(ws, sid) && ws.eng.jobs == Retries(due)[i..] && ws.eng.tunnels == w.eng.tunnels
  }

  lemma {:induction false} RoundGoesOn(
    cfg: Config, w: World, sid: SessionId, check: DomainCheck, now: R.Time, due: seq<string>, ws: seq<World>, i: nat)
    requires Idling(w, sid) && Round(cfg, w, sid, check, now, due, ws) && i <= |due|
    requires forall j | 0 <= j < |due| :: S.IsEnabled(w.eng.tunnels, due[j])
    ensures Midway(w, ws[i], sid, due, i)
    ensures i < |due| ==>
      S.IsEnabled(w.eng.tunnels, due[i]) &&
      Noted(ws[i], due[i], Decided(cfg, ws[i].sys.server, sid, Stored(w.eng.tunnels, due[i]), check), now, ws[i + 1])
    decreases i
  {
    if i == 0 {
      TimerStarts(cfg, w, now, due);
      assert ws[0].eng.jobs == Retries(due) == Retries(due)[0..];
    } else {
      RoundGoesOn(cfg, w, sid, check, now, due, ws, i - 1);
      RetryIsMade(cfg, ws[i - 1], sid, due[i - 1], check, now);
    }
    if i < |due| {
      RetryIsMade(cfg, ws[i], sid, due[i], check, now);
    }
  }

  // ---- what it comes to for one name ----

  /** The books agree about this name. */
  predicate SameBooks(a: R.Taken, b: R.Taken, name: string) {
    && a.window == b.window && a.every == b.every
    && (name in a.pending <==> name in b.pending)
    && (name in a.pending && name in b.pending ==> a.pending[name] == b.pending[name])
  }

  lemma OtherNoted(w: World, other: string, result: Result<Endpoint, Option<Code>>, now: R.Time, w': World, name: string)
    requires Noted(w, other, result, now, w') && name != other
    ensures SameBooks(w'.eng.taken, w.eng.taken, name)
    ensures Showing(w'.eng.rows, name) <==> Showing(w.eng.rows, name)
  {
    B.SameElsewhere(w.eng.rows, w'.eng.rows, other, name);
  }

  lemma {:induction false} UntilItsTurn(
    cfg: Config, w: World, sid: SessionId, check: DomainCheck, now: R.Time, due: seq<string>, ws: seq<World>, i: nat,
    name: string)
    requires Idling(w, sid) && Round(cfg, w, sid, check, now, due, ws) && i <= |due|
    requires forall j | 0 <= j < |due| :: S.IsEnabled(w.eng.tunnels, due[j])
    requires forall j | 0 <= j < i :: due[j] != name
    ensures SameBooks(ws[i].eng.taken, w.eng.taken, name)
    ensures Showing(ws[i].eng.rows, name) <==> Showing(w.eng.rows, name)
    decreases i
  {
    if i == 0 {
      TimerStarts(cfg, w, now, due);
    } else {
      UntilItsTurn(cfg, w, sid, check, now, due, ws, i - 1, name);
      RoundGoesOn(cfg, w, sid, check, now, due, ws, i - 1);
      OtherNoted(ws[i - 1], due[i - 1],
                 Decided(cfg, ws[i - 1].sys.server, sid, Stored(w.eng.tunnels, due[i - 1]), check), now, ws[i], name);
    }
  }

  lemma {:induction false} AfterItsTurn(
    cfg: Config, w: World, sid: SessionId, check: DomainCheck, now: R.Time, due: seq<string>, ws: seq<World>,
    from: nat, i: nat, name: string)
    requires Idling(w, sid) && Round(cfg, w, sid, check, now, due, ws) && from <= i <= |due|
    requires forall j | 0 <= j < |due| :: S.IsEnabled(w.eng.tunnels, due[j])
    requires forall j | from <= j < i :: due[j] != name
    ensures SameBooks(ws[i].eng.taken, ws[from].eng.taken, name)
    ensures Showing(ws[i].eng.rows, name) <==> Showing(ws[from].eng.rows, name)
    decreases i
  {
    if i > from {
      AfterItsTurn(cfg, w, sid, check, now, due, ws, from, i - 1, name);
      RoundGoesOn(cfg, w, sid, check, now, due, ws, i - 1);
      OtherNoted(ws[i - 1], due[i - 1],
                 Decided(cfg, ws[i - 1].sys.server, sid, Stored(w.eng.tunnels, due[i - 1]), check), now, ws[i], name);
    }
  }

  /** What a tick did about a name, given the answer its request would get. */
  ghost predicate TickDid(w: World, name: string, result: Result<Endpoint, Option<Code>>, now: R.Time, w': World) {
    if name in R.Due(w.eng.taken, now)
    then SameBooks(w'.eng.taken, R.Recorded(w.eng.taken, name, Bare(result), now).0, name)
      && (Showing(w'.eng.rows, name) <==> result.Ok?)
    else SameBooks(w'.eng.taken, w.eng.taken, name)
  }

  lemma RoundDid(
    cfg: Config, w: World, sid: SessionId, check: DomainCheck, now: R.Time, due: seq<string>, ws: seq<World>,
    name: string, asked: Server)
    requires Idling(w, sid) && Round(cfg, w, sid, check, now, due, ws)
    requires forall j | 0 <= j < |due| :: S.IsEnabled(w.eng.tunnels, due[j])
    requires forall p | 0 <= p < |due| && due[p] == name :: ws[p].sys.server == asked
    requires name in w.eng.tunnels && sid in asked.tasks
    ensures TickDid(w, name, Decided(cfg, asked, sid, Stored(w.eng.tunnels, name), check), now, ws[|due|])
  {
    AscendingIsDistinct(due);
    if name in R.Due(w.eng.taken, now) {
      assert name in Elements(due);
      var p :| 0 <= p < |due| && due[p] == name;
      UntilItsTurn(cfg, w, sid, check, now, due, ws, p, name);
      RoundGoesOn(cfg, w, sid, check, now, due, ws, p);
      AfterItsTurn(cfg, w, sid, check, now, due, ws, p + 1, |due|, name);
    } else {
      forall j | 0 <= j < |due|
        ensures due[j] != name
      {
        assert due[j] in Elements(due);
      }
      UntilItsTurn(cfg, w, sid, check, now, due, ws, |due|, name);
    }
  }

  // ---- from tick to tick ----

  /** Everybody but this session moves. */
  ghost predicate ByOthers(sid: SessionId, actions: seq<Action>) {
    forall a <- actions :: a.Background? && a.turn.sid != sid
  }

  lemma {:induction false} OthersLeaveLine(cfg: Config, w: World, actions: seq<Action>, sid: SessionId)
    requires Idling(w, sid) && ByOthers(sid, actions) && P.WorldInv(cfg, w) && Possibly(cfg, w, actions)
    ensures var w' := Later(cfg, w, actions);
      P.WorldInv(cfg, w') && Idling(w', sid) && w'.eng == w.eng
    decreases |actions|
  {
    if actions != [] {
      var a := actions[0];
      assert a in actions && forall b <- actions[1..] :: b in actions;
      P.ReadyForEvent(cfg, w.sys, a.turn);
      P.ShareKept(cfg, w.sys, a.turn, sid);
      P.HonestyLasts(cfg, w, a);
      OthersLeaveLine(cfg, Acted(cfg, w, a), actions[1..], sid);
    }
  }

  /**
   * From one tick to the next: the others move, the timer fires, each due name is asked for and answered. `asked` is
   * the server as it stands when this name's request is read, if it is due.
   */
  ghost predicate TickPasses(
    cfg: Config, w: World, sid: SessionId, check: DomainCheck, name: string, now: R.Time, asked: Server, w': World)
  {
    exists between, due, ws ::
      Passes(cfg, w, sid, check, name, now, asked, w', between, due, ws)
  }

  ghost predicate Passes(
    cfg: Config, w: World, sid: SessionId, check: DomainCheck, name: string, now: R.Time, asked: Server, w': World,
    between: seq<Action>, due: seq<string>, ws: seq<World>)
  {
    && ByOthers(sid, between) && Possibly(cfg, w, between)
    && Round(cfg, Later(cfg, w, between), sid, check, now, due, ws) && w' == ws[|due|]
    && forall p | 0 <= p < |due| && due[p] == name :: ws[p].sys.server == asked
  }

  /** What holds before and after a tick. */
  ghost predicate Steady(cfg: Config, w: World, sid: SessionId) {
    P.WorldInv(cfg, w) && B.Booked(w.eng) && Idling(w, sid)
  }

  lemma {:induction false} RoundIsSteady(
    cfg: Config, w: World, sid: SessionId, check: DomainCheck, now: R.Time, due: seq<string>, ws: seq<World>, i: nat)
    requires P.WorldInv(cfg, w) && B.Booked(w.eng) && Round(cfg, w, sid, check, now, due, ws) && i <= |due|
    ensures P.WorldInv(cfg, ws[i]) && B.Booked(ws[i].eng)
    decreases i
  {
    if i == 0 {
      P.HonestyLasts(cfg, w, TimerTick(now, due));
      B.BookedLasts(cfg, w, TimerTick(now, due));
    } else {
      RoundIsSteady(cfg, w, sid, check, now, due, ws, i - 1);
      P.HonestyAlways(cfg, ws[i - 1], OneRetry(sid, check, now));
      B.BookedAlways(cfg, ws[i - 1], OneRetry(sid, check, now));
    }
  }

  lemma DueAreOn(w: World, sid: SessionId, now: R.Time, due: seq<string>)
    requires B.Booked(w.eng) && Idling(w, sid) && Possible(w, TimerTick(now, due))
    ensures forall j | 0 <= j < |due| :: S.IsEnabled(w.eng.tunnels, due[j])
  {
    forall j | 0 <= j < |due|
      ensures S.IsEnabled(w.eng.tunnels, due[j])
    {
      assert due[j] in Elements(due);
      assert B.NameBooked(w.eng, due[j]);
    }
  }

  lemma TickIsSteady(
    cfg: Config, w: World, sid: SessionId, check: DomainCheck, name: string, now: R.Time, asked: Server, w': World)
    requires Steady(cfg, w, sid) && TickPasses(cfg, w, sid, check, name, now, asked, w')
    requires name in w.eng.tunnels && sid in asked.tasks
    ensures Steady(cfg, w', sid) && w'.eng.tunnels == w.eng.tunnels
    ensures TickDid(w, name, Decided(cfg, asked, sid, Stored(w.eng.tunnels, name), check), now, w')
  {
    var between, due, ws :| Passes(cfg, w, sid, check, name, now, asked, w', between, due, ws);
    OthersLeaveLine(cfg, w, between, sid);
    var w1 := Later(cfg, w, between);
    DueAreOn(w1, sid, now, due);
    RoundDid(cfg, w1, sid, check, now, due, ws, name, asked);
    RoundGoesOn(cfg, w1, sid, check, now, due, ws, |due|);
    RoundIsSteady(cfg, w1, sid, check, now, due, ws, |due|);
  }

  // ---- the timer of Reclaim is the engine's ----

  lemma AnswersAsDecided(q: Asking, spec: Spec, now: R.Time)
    requires Enabled(q.server(now), q.sid, Receive(q.msg, q.check)) && Carries(q.msg, spec) && spec.kind == Http
    ensures Reclaim.Answer(q, now) == Bare(Decided(q.cfg, q.server(now), q.sid, spec, q.check))
  {
    HttpOpenIsDecided(q.cfg, q.server(now), q.sid, q.msg, q.check);
  }

  /** A run of the engine over these ticks: one world before the first and one after each. */
  ghost predicate RunsOver(q: Asking, ticks: seq<R.Time>, worlds: seq<World>) {
    && q.msg.OpenTunnel? && |worlds| == |ticks| + 1
    && forall i | 0 <= i < |ticks| ::
         TickPasses(q.cfg, worlds[i], q.sid, q.check, q.msg.name, ticks[i], q.server(ticks[i]), worlds[i + 1])
  }

  /** How the run of the engine ended for the name. */
  ghost predicate EndsAs(e: Outlook, name: string, ticks: seq<R.Time>, worlds: seq<World>)
    requires |worlds| == |ticks| + 1
  {
    match e
    case StillWaiting => name in worlds[|ticks|].eng.taken.pending
    case Reclaimed(at) => exists k :: 0 <= k < |ticks| && ticks[k] == at && Showing(worlds[k + 1].eng.rows, name)
    case Lost(at) =>
      exists k :: 0 <= k < |ticks| && ticks[k] == at && !Showing(worlds[k + 1].eng.rows, name)
        && name !in worlds[k + 1].eng.taken.pending
  }

  lemma EarlierWorlds(e: Outlook, name: string, ticks: seq<R.Time>, worlds: seq<World>)
    requires ticks != [] && |worlds| == |ticks| + 1 && EndsAs(e, name, ticks[1..], worlds[1..])
    ensures EndsAs(e, name, ticks, worlds)
  {
    match e
    case StillWaiting =>
    case Reclaimed(at) =>
      var k :| 0 <= k < |ticks[1..]| && ticks[1..][k] == at && Showing(worlds[1..][k + 1].eng.rows, name);
      assert ticks[k + 1] == at && Showing(worlds[k + 2].eng.rows, name);
    case Lost(at) =>
      var k :| 0 <= k < |ticks[1..]| && ticks[1..][k] == at && !Showing(worlds[1..][k + 1].eng.rows, name)
        && name !in worlds[1..][k + 1].eng.taken.pending;
      assert ticks[k + 1] == at && worlds[k + 2] == worlds[1..][k + 1];
  }

  lemma SameTick(t: R.Taken, t': R.Taken, name: string, result: Result<(), Option<Code>>, now: R.Time)
    requires SameBooks(t, t', name)
    ensures name in R.Due(t, now) <==> name in R.Due(t', now)
    ensures R.Recorded(t, name, result, now).1 == R.Recorded(t', name, result, now).1
    ensures SameBooks(R.Recorded(t, name, result, now).0, R.Recorded(t', name, result, now).0, name)
  {
  }

  /** The books `Retried` goes on with, after a tick. */
  ghost function BooksAfter(t: R.Taken, q: Asking, now: R.Time): R.Taken
    requires Enabled(q.server(now), q.sid, Receive(q.msg, q.check)) && q.msg.OpenTunnel?
  {
    if q.msg.name in R.Due(t, now) then R.Recorded(t, q.msg.name, Reclaim.Answer(q, now), now).0 else t
  }

  /** The engine is in order, would ask for the name as `q` does, and keeps the same books on it. */
  ghost predicate Agreed(cfg: Config, q: Asking, w: World, t: R.Taken)
    requires q.msg.OpenTunnel?
  {
    && Steady(cfg, w, q.sid)
    && q.msg.name in w.eng.tunnels && Carries(q.msg, Stored(w.eng.tunnels, q.msg.name))
    && SameBooks(t, w.eng.taken, q.msg.name)
  }

  /** The first tick: the engine's books go the way of `Retried`, and the row shows how a due request was answered. */
  lemma FirstTick(cfg: Config, q: Asking, ticks: seq<R.Time>, worlds: seq<World>, t: R.Taken)
    requires ticks != [] && q.cfg == cfg && RunsOver(q, ticks, worlds) && Agreed(cfg, q, worlds[0], t)
    requires Enabled(q.server(ticks[0]), q.sid, Receive(q.msg, q.check))
    ensures Agreed(cfg, q, worlds[1], BooksAfter(t, q, ticks[0]))
    ensures q.msg.name in R.Due(t, ticks[0]) ==>
      (Showing(worlds[1].eng.rows, q.msg.name) <==> Reclaim.Answer(q, ticks[0]).Ok?)
  {
    var name, now, w, w' := q.msg.name, ticks[0], worlds[0], worlds[1];
    var spec := Stored(w.eng.tunnels, name);
    assert TickPasses(cfg, worlds[0], q.sid, q.check, name, ticks[0], q.server(ticks[0]), worlds[0 + 1]);
    TickIsSteady(cfg, w, q.sid, q.check, name, now, q.server(now), w');
    AnswersAsDecided(q, spec, now);
    SameTick(t, w.eng.taken, name, Reclaim.Answer(q, now), now);
  }

  lemma EndsNow(name: string, ticks: seq<R.Time>, worlds: seq<World>)
    requires ticks != [] && |worlds| == |ticks| + 1
    ensures Showing(worlds[1].eng.rows, name) ==> EndsAs(Reclaimed(ticks[0]), name, ticks, worlds)
    ensures !Showing(worlds[1].eng.rows, name) && name !in worlds[1].eng.taken.pending ==>
      EndsAs(Lost(ticks[0]), name, ticks, worlds)
  {
    assert worlds[0 + 1] == worlds[1];
  }

  /** `Retried` goes on with those books, or ends at this tick. */
  lemma RetriedOnce(t: R.Taken, q: Asking, ticks: seq<R.Time>)
    requires q.msg.OpenTunnel? && ticks != []
    requires forall now: R.Time :: Enabled(q.server(now), q.sid, Receive(q.msg, q.check))
    ensures var name, now, t' := q.msg.name, ticks[0], BooksAfter(t, q, ticks[0]);
      if name !in R.Due(t, now) || name in t'.pending then Retried(t, q, ticks) == Retried(t', q, ticks[1..])
      else Retried(t, q, ticks) == if Reclaim.Answer(q, now).Ok? then Reclaimed(now) else Lost(now)
  {
  }

  /** Either both go on with the same books, or both end here. */
  lemma OneTickOfBoth(cfg: Config, q: Asking, ticks: seq<R.Time>, worlds: seq<World>, t: R.Taken) returns (t': R.Taken)
    requires q.msg.OpenTunnel? && q.msg.name in t.pending && ticks != []
    requires forall now: R.Time :: Enabled(q.server(now), q.sid, Receive(q.msg, q.check))
    requires q.cfg == cfg && RunsOver(q, ticks, worlds) && Agreed(cfg, q, worlds[0], t)
    ensures RunsOver(q, ticks[1..], worlds[1..]) && Agreed(cfg, q, worlds[1..][0], t')
    ensures if q.msg.name in t'.pending then Retried(t, q, ticks) == Retried(t', q, ticks[1..])
      else EndsAs(Retried(t, q, ticks), q.msg.name, ticks, worlds)
  {
    t' := BooksAfter(t, q, ticks[0]);
    FirstTick(cfg, q, ticks, worlds, t);
    RetriedOnce(t, q, ticks);
    LaterRun(q, ticks, worlds);
    EndsNow(q.msg.name, ticks, worlds);
  }

  /**
   * Run over the ticks, the engine does about the name what `Retried` says: the asking times, the answers, the give-up
   * and the reclaim are the same, and the row shows an address exactly when the name is reclaimed.
   */
  lemma {:induction false} RetriedIsTheEngine(cfg: Config, q: Asking, ticks: seq<R.Time>, worlds: seq<World>, t: R.Taken)
    requires q.msg.OpenTunnel? && q.msg.name in t.pending
    requires forall now: R.Time :: Enabled(q.server(now), q.sid, Receive(q.msg, q.check))
    requires q.cfg == cfg && RunsOver(q, ticks, worlds) && Agreed(cfg, q, worlds[0], t)
    ensures EndsAs(Retried(t, q, ticks), q.msg.name, ticks, worlds)
    decreases |ticks|
  {
    if ticks == [] {
      assert Retried(t, q, ticks) == StillWaiting;
    } else {
      var t' := OneTickOfBoth(cfg, q, ticks, worlds, t);
      if q.msg.name in t'.pending {
        RetriedIsTheEngine(cfg, q, ticks[1..], worlds[1..], t');
        EarlierWorlds(Retried(t', q, ticks[1..]), q.msg.name, ticks, worlds);
      }
    }
  }

  lemma LaterRun(q: Asking, ticks: seq<R.Time>, worlds: seq<World>)
    requires RunsOver(q, ticks, worlds) && ticks != []
    ensures RunsOver(q, ticks[1..], worlds[1..])
  {
    forall i | 0 <= i < |ticks[1..]|
      ensures TickPasses(q.cfg, worlds[1..][i], q.sid, q.check, q.msg.name, ticks[1..][i], q.server(ticks[1..][i]), worlds[1..][i + 1])
    {
      assert ticks[1..][i] == ticks[i + 1] && worlds[1..][i] == worlds[i + 1] && worlds[1..][i + 1] == worlds[i + 2];
    }
  }

  /**
   * So the engine itself reclaims the name: found taken at `first` while its old holder is silent, its row shows an
   * address before six heartbeats are over, at a tick at which the server had already dropped the holder.
   */
  lemma EngineReclaimsTheName(
    heartbeatSecs: nat, q: Asking, s: Server, run: seq<Timed>, holder: Session,
    first: R.Time, unanswered: nat, nextBeat: R.Time, ticks: seq<R.Time>, worlds: seq<World>)
    requires heartbeatSecs >= 1 && unanswered <= MISSED_HEARTBEATS
    requires first < nextBeat <= first + R.Heartbeat(heartbeatSecs)
    requires Sound(q, holder.user)
    requires OnOneServer(q, s, run, holder, unanswered, nextBeat, R.Heartbeat(heartbeatSecs))
    requires EverySecond(first, ticks) && ticks != []
    requires ticks[|ticks| - 1] >= first + R.TAKEN_RETRY_HEARTBEATS * R.Heartbeat(heartbeatSecs)
    requires RunsOver(q, ticks, worlds)
    requires Agreed(q.cfg, q, worlds[0], R.Recorded(R.Fresh(heartbeatSecs), q.msg.name, Err(Some(CodeTaken)), first).0)
    ensures exists k ::
      && 0 <= k < |ticks| && Showing(worlds[k + 1].eng.rows, q.msg.name)
      && GiveUpAt(unanswered, nextBeat, R.Heartbeat(heartbeatSecs)) <= ticks[k] < first + 6 * R.Heartbeat(heartbeatSecs)
  {
    NameIsReclaimed(heartbeatSecs, q, s, run, holder, first, unanswered, nextBeat, ticks);
    var t := R.Recorded(R.Fresh(heartbeatSecs), q.msg.name, Err(Some(CodeTaken)), first).0;
    RetriedIsTheEngine(q.cfg, q, ticks, worlds, t);
  }
}
