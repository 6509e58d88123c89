/** What holds between every client and the server in every reachable state of the whole system. */
module ProtocolTheorems {
  import opened Basics
  import opened Registry
  import opened ControlMessages
  import opened ControlLoop
  import opened ServerMachine
  import opened ServerOwnership
  import opened TunnelProtocol
  import opened TunnelSystem
  import ServerTheorems

  ghost predicate Reached(cfg: Config, x: Sys) {
    exists turns :: History(cfg, START, turns) && Final(cfg, START, turns) == x
  }

  lemma ReachedInv(cfg: Config, x: Sys)
    requires Reached(cfg, x)
    ensures SysInv(cfg, x)
  {
    var turns :| History(cfg, START, turns) && Final(cfg, START, turns) == x;
    InitiallyOk(cfg);
    SysAlways(cfg, START, turns);
  }

  lemma ReachedInStep(cfg: Config, x: Sys, sid: SessionId)
    requires Reached(cfg, x) && sid in x.conns
    ensures sid in x.server.tasks && InStep(x, sid)
  {
    ReachedInv(cfg, x);
  }

  lemma ReachedActive(cfg: Config, x: Sys, sid: SessionId)
    requires Reached(cfg, x) && sid in x.conns
    ensures sid in x.server.tasks
    ensures sid in x.server.table.sessions <==> Active(x.server.tasks[sid].pc)
  {
    ReachedInv(cfg, x);
  }

  /** The server routes `id` to the session. */
  ghost predicate Routed(x: Sys, sid: SessionId, id: TunnelId) {
    exists h :: h in x.server.table.hosts
      && x.server.table.hosts[h].session.id == sid && x.server.table.hosts[h].tunnelId == id
  }

  lemma RoutedIsId(x: Sys, sid: SessionId, id: TunnelId)
    ensures Routed(x, sid, id) <==> id in Ids(RoutesOf(x.server.table, sid))
  {
    var routes := RoutesOf(x.server.table, sid);
    if Routed(x, sid, id) {
      var h :| h in x.server.table.hosts
        && x.server.table.hosts[h].session.id == sid && x.server.table.hosts[h].tunnelId == id;
      assert h in routes && routes[h].tunnelId == id;
    }
  }

  /**
   * Both route tables agree up to what is in flight. While the link is up, an id the server routes is being
   * opened or closed right now, or is in the client's port map, or its grant or its close is still queued.
   * Conversely every id in the client's port map is routed, as long as the session is registered.
   */
  lemma TablesAgree(cfg: Config, x: Sys, sid: SessionId, id: TunnelId)
    requires Reached(cfg, x) && sid in x.conns
    ensures sid in x.server.tasks
    ensures x.conns[sid].loop.linkUp && Routed(x, sid, id) ==>
      var l, pc := x.conns[sid].loop, x.server.tasks[sid].pc;
      || OpeningId(pc) == Some(id)
      || ClosingId(pc) == Some(id)
      || id in l.ports
      || GrantQueued(l.down, id)
      || CloseTunnel(id) in l.up
    ensures sid in x.server.table.sessions && id in x.conns[sid].loop.ports ==> Routed(x, sid, id)
  {
    ReachedInStep(cfg, x, sid);
    ReachedActive(cfg, x, sid);
    RoutedIsId(x, sid, id);
  }

  /** A grant the client has not read yet names a host, or a port, that the server routes for that very id. */
  lemma QueuedGrantsAreTrue(cfg: Config, x: Sys, sid: SessionId, id: TunnelId, public: Endpoint)
    requires Reached(cfg, x) && sid in x.conns && sid in x.server.table.sessions
    requires TunnelOpened(id, public) in x.conns[sid].loop.down
    ensures Backs(RoutesOf(x.server.table, sid), id, public)
  {
    ReachedInStep(cfg, x, sid);
    ReachedActive(cfg, x, sid);
  }

  /** A call is queued, waiting for the server, or answered: exactly one of them; once the loop is over, answered. */
  lemma EveryCallHasOnePlace(cfg: Config, x: Sys, sid: SessionId, ticket: nat)
    requires Reached(cfg, x) && sid in x.conns && ticket < x.conns[sid].calls.nextTicket
    ensures var c := x.conns[sid];
      var answered, waiting, queued :=
        ticket in c.calls.answers, ticket in PendingTickets(c.loop.pending), ticket in QueuedTickets(c.calls.commands);
      && (answered || waiting || queued)
      && !(answered && waiting) && !(answered && queued) && !(waiting && queued)
      && (!c.loop.running ==> answered)
  {
    ReachedInStep(cfg, x, sid);
    assert !x.conns[sid].loop.running ==> PendingTickets(x.conns[sid].loop.pending) == {};
    assert !x.conns[sid].loop.running ==> QueuedTickets(x.conns[sid].calls.commands) == {};
  }

  ghost predicate HasAnswer(x: Sys, sid: SessionId, ticket: nat, answer: Answer) {
    && sid in x.conns && ticket in x.conns[sid].calls.answers
    && x.conns[sid].calls.answers[ticket] == answer
  }

  /** An answer, once given, is never given again or changed, whatever anybody does from then on. */
  lemma AnswersAreFinal(cfg: Config, x: Sys, turns: seq<Turn>, sid: SessionId, ticket: nat, answer: Answer)
    requires Reached(cfg, x) && History(cfg, x, turns) && HasAnswer(x, sid, ticket, answer)
    ensures HasAnswer(Final(cfg, x, turns), sid, ticket, answer)
  {
    ReachedInv(cfg, x);
    AnswersStay(cfg, x, turns, sid, ticket, answer);
  }

  lemma {:induction false} AnswersStay(
    cfg: Config, x: Sys, turns: seq<Turn>, sid: SessionId, ticket: nat, answer: Answer)
    requires SysInv(cfg, x) && History(cfg, x, turns) && HasAnswer(x, sid, ticket, answer)
    ensures HasAnswer(Final(cfg, x, turns), sid, ticket, answer)
    decreases |turns|
  {
    if turns != [] {
      var t := turns[0];
      AnswerStays(cfg, x, t.sid, t.act, sid, ticket);
      SysStep(cfg, x, t.sid, t.act);
      AnswersStay(cfg, Do(cfg, x, t.sid, t.act), turns[1..], sid, ticket, answer);
    }
  }

  lemma AnswerStays(cfg: Config, x: Sys, sid: SessionId, a: Act, other: SessionId, ticket: nat)
    requires AllInStep(x) && Can(x, sid, a)
    requires other in x.conns && ticket in x.conns[other].calls.answers
    ensures HasAnswer(Do(cfg, x, sid, a), other, ticket, x.conns[other].calls.answers[ticket])
  {
    if a.Client? {
      if other == sid {
        assert InStep(x, sid);
        ClientKeepsAnswers(x.conns[sid], a.act, ticket);
      }
    } else {
      if sid in x.conns {
        EntersOnce(x, sid, a);
      }
      ServerLeavesCalls(cfg, x, sid, a, other);
    }
  }

  lemma ServerLeavesCalls(cfg: Config, x: Sys, sid: SessionId, a: Act, other: SessionId)
    requires Can(x, sid, a) && !a.Client? && other in x.conns
    requires EventOf(x, sid, a).Enter? ==> sid !in x.conns
    ensures other in Do(cfg, x, sid, a).conns
    ensures Do(cfg, x, sid, a).conns[other].calls == x.conns[other].calls
  {
  }

  lemma ClientKeepsAnswers(c: Conn, a: ClientAct, ticket: nat)
    requires Ticketed(c) && CanAct(c, a) && ticket in c.calls.answers
    ensures ticket in ClientDo(c, a).calls.answers
    ensures ClientDo(c, a).calls.answers[ticket] == c.calls.answers[ticket]
  {
    match a
    case Call(_) =>
    case CallClose(_) =>
    case TakeCommand =>
      var k := c.calls.commands[0];
      assert k in c.calls.commands;
      assert k.Open? ==> k.ticket in QueuedTickets(c.calls.commands);
      assert QueuedTickets(c.calls.commands[1..]) <= QueuedTickets(c.calls.commands) by {
        assert forall q <- c.calls.commands[1..] :: q in c.calls.commands;
      }
    case TakeMessage =>
      assert forall id <- c.loop.pending :: c.loop.pending[id].ticket in PendingTickets(c.loop.pending);
    case Stop =>
    case Break(_, _) =>
  }

  /** An error message always finds its request: the exit for connection-level errors is never taken. */
  lemma NoUnplacedError(cfg: Config, x: Sys, sid: SessionId)
    requires Reached(cfg, x) && sid in x.conns
    ensures !x.conns[sid].loop.rejected
    ensures var l := x.conns[sid].loop;
      l.running && l.down != [] && l.down[0].Failure? ==> l.down[0].subject.Some? && l.down[0].subject.value in l.pending
  {
    ReachedInStep(cfg, x, sid);
    var l := x.conns[sid].loop;
    if l.running && l.down != [] && l.down[0].Failure? {
      assert l.down[0] in l.down;
      RefusalAgrees(RoutesOf(x.server.table, sid), x.server.tasks[sid].pc, l, l.down[0].subject.value, l.down[0].code);
    }
  }

  /**
   * The server answers each request once and in order: while the link is up, its steps leave the sequence of
   * unanswered-or-unread request ids exactly as it is, and the client waits for precisely those.
   */
  lemma RepliesMatchRequests(cfg: Config, x: Sys, sid: SessionId, a: Act)
    requires Reached(cfg, x) && Can(x, sid, a) && !a.Client? && sid in x.conns && x.conns[sid].loop.linkUp
    requires !EventOf(x, sid, a).Login? && !EventOf(x, sid, a).Enter?
    ensures sid in x.server.tasks && sid in Do(cfg, x, sid, a).server.tasks
    ensures var f := InFlightIds(x.server.tasks[sid].pc, x.conns[sid].loop);
      && f == InFlightIds(Do(cfg, x, sid, a).server.tasks[sid].pc, Do(cfg, x, sid, a).conns[sid].loop)
      && Increasing(f)
      && forall id :: id in x.conns[sid].loop.pending <==> id in f
  {
    ReachedInStep(cfg, x, sid);
    ReachedReady(cfg, x, sid);
    var ev := EventOf(x, sid, a);
    FlightKept(cfg, x.server, sid, ev, x.conns[sid].loop);
    OwnTaskStays(cfg, x.server, sid, ev);
    assert Do(cfg, x, sid, a).conns[sid].loop == LoopAfter(cfg, x.server, sid, ev, x.conns[sid].loop);
  }

  lemma ReachedReady(cfg: Config, x: Sys, sid: SessionId)
    requires Reached(cfg, x) && sid in x.server.tasks
    ensures Ready(x.server, sid)
  {
    ReachedInv(cfg, x);
    InvReady(cfg, x.server, sid);
  }

  lemma OwnTaskStays(cfg: Config, s: Server, sid: SessionId, ev: Event)
    requires Enabled(s, sid, ev)
    ensures sid in Step(cfg, s, sid, ev).tasks
  {
  }

  lemma FlightKept(cfg: Config, s: Server, sid: SessionId, ev: Event, l: Loop)
    requires Ready(s, sid) && Enabled(s, sid, ev) && !ev.Login? && !ev.Enter? && l.linkUp
    requires ev.Receive? ==> l.up != [] && l.up[0] == ev.msg
    requires Agree(RoutesOf(s.table, sid), s.tasks[sid].pc, l)
    ensures sid in Step(cfg, s, sid, ev).tasks
    ensures InFlightIds(Step(cfg, s, sid, ev).tasks[sid].pc, LoopAfter(cfg, s, sid, ev, l)) == InFlightIds(s.tasks[sid].pc, l)
  {
    OwnTaskStays(cfg, s, sid, ev);
    EventMoves(cfg, s, sid, ev, l);
  }

  /** A server-side turn is a step of the server under a fresh id. */
  lemma TurnIsMove(cfg: Config, x: Sys, t: Turn)
    requires SysInv(cfg, x) && Can(x, t.sid, t.act) && !t.act.Client?
    ensures var ev := EventOf(x, t.sid, t.act);
      && Enabled(x.server, t.sid, ev) && FreshId(x.server, Move(t.sid, ev))
      && Do(cfg, x, t.sid, t.act).server == Step(cfg, x.server, t.sid, ev)
  {
    ClientsUseFreshIds(cfg, x, t.sid, t.act);
  }

  /** Seen from the server alone, every history of the system is a run of the server with fresh ids. */
  lemma {:induction false} HistoryIsServerRun(cfg: Config, x: Sys, turns: seq<Turn>) returns (moves: seq<Move>)
    requires SysInv(cfg, x) && History(cfg, x, turns)
    ensures Run(cfg, x.server, moves) && After(cfg, x.server, moves) == Final(cfg, x, turns).server
    decreases |turns|
  {
    if turns == [] {
      moves := [];
    } else {
      var t := turns[0];
      SysStep(cfg, x, t.sid, t.act);
      moves := HistoryIsServerRun(cfg, Do(cfg, x, t.sid, t.act), turns[1..]);
      if !t.act.Client? {
        TurnIsMove(cfg, x, t);
        var m := Move(t.sid, EventOf(x, t.sid, t.act));
        ServerTheorems.RunLonger(cfg, x.server, m, moves);
        moves := [m] + moves;
      }
    }
  }

  /** So everything proved about reachable servers holds here, with no assumption left about ids. */
  lemma ReachedServerIsReachable(cfg: Config, x: Sys)
    requires Reached(cfg, x)
    ensures ServerTheorems.Reachable(cfg, x.server)
  {
    var turns :| History(cfg, START, turns) && Final(cfg, START, turns) == x;
    InitiallyOk(cfg);
    var moves := HistoryIsServerRun(cfg, START, turns);
  }
}
