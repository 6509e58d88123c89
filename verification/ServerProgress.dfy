/** Every handling ends and clean-up always gets to its end, whatever the other sessions do meanwhile. */
module ServerProgress {
  import opened Basics
  import opened Registry
  import opened ServerMachine
  import opened ServerOwnership
  import opened ServerTheorems

  /** A bound on the lock sections a task still goes through before it is back in its message loop, or gone. */
  ghost function Work(s: Server, sid: SessionId): nat
    requires sid in s.tasks
  {
    match s.tasks[sid].pc
    case Fresh => 1
    case Placing(_, _, _, candidates) => 2 * |candidates| + 2
    case Binding(_, _, _, _, rest) => 2 * |rest| + 3
    case Bound(_, _, _) => 2
    case Leased(_, _, _) => 1
    case Refused(_, _, _) => 1
    case Closing(_) => 3
    case Freeing(_, _) => 2
    case Dropping(_) => 1
    case Leaving => |HostsWithPort(s.table, sid)| + 2
    case Returning(ports) => |ports| + 1
    case Idle => 0
    case Gone => 0
    case Crashed => 0
  }

  predicate CleaningUp(pc: Pc) {
    pc.Leaving? || pc.Returning? || pc.Gone?
  }

  lemma {:induction false} DistinctSize<T(!new)>(s: seq<T>)
    requires Distinct(s)
    ensures |Elements(s)| == |s|
    decreases |s|
  {
    if s == [] {
      assert Elements(s) == {};
    } else {
      var front, last := s[..|s| - 1], s[|s| - 1];
      DistinctSize(front);
      assert s == front + [last];
      assert Elements(s) == Elements(front) + {last};
      assert last !in front;
    }
  }

  /** A task outside its message loop gets nearer to the end of what it is doing with each step of its own. */
  lemma OwnStepsShrink(cfg: Config, s: Server, sid: SessionId, ev: Event)
    requires sid in s.tasks && Enabled(s, sid, ev) && !s.tasks[sid].pc.Idle? && !ev.Login?
    ensures var s' := Step(cfg, s, sid, ev);
      && sid in s'.tasks
      && Work(s', sid) < Work(s, sid)
      && (CleaningUp(s'.tasks[sid].pc) <==> CleaningUp(s.tasks[sid].pc))
  {
    if ev.ListPorts? {
      DistinctSize(ev.hosts);
    }
  }

  /** What the others do neither adds to it nor takes from it. */
  lemma OthersLeaveWork(s: Server, s': Server, other: SessionId, sid: SessionId)
    requires OthersKept(s, s', other) && sid != other && sid in s.tasks
    ensures sid in s'.tasks && Work(s', sid) == Work(s, sid) && s'.tasks[sid].pc == s.tasks[sid].pc
  {
    var routes := RoutesOf(s.table, sid);
    assert RoutesOf(s'.table, sid) == routes;
    assert HostsWithPort(s.table, sid) == set h | h in routes && routes[h].tcpPort.Some?;
    assert HostsWithPort(s'.table, sid) == set h | h in routes && routes[h].tcpPort.Some?;
  }

  lemma LoginLeavesWork(cfg: Config, s: Server, other: SessionId, user: User, sid: SessionId)
    requires sid in s.tasks && Enabled(s, other, Login(user))
    ensures var s' := Step(cfg, s, other, Login(user));
      sid in s'.tasks && Work(s', sid) == Work(s, sid) && s'.tasks[sid].pc == s.tasks[sid].pc
  {
  }

  function OwnMoves(sid: SessionId, moves: seq<Move>): nat {
    if moves == [] then 0 else (if moves[0].sid == sid then 1 else 0) + OwnMoves(sid, moves[1..])
  }

  /** All through the run, up to its last state, the task is outside its message loop. */
  ghost predicate Busy(cfg: Config, s: Server, sid: SessionId, moves: seq<Move>)
    requires Run(cfg, s, moves)
    decreases |moves|
  {
    moves == [] || (
      && sid in s.tasks && !s.tasks[sid].pc.Idle?
      && Busy(cfg, Step(cfg, s, moves[0].sid, moves[0].ev), sid, moves[1..]))
  }

  /**
   * However the tasks interleave, a handling, or the clean-up, is over after a number of the task's own steps
   * that is fixed when it begins; and the two never turn into each other.
   */
  lemma {:induction false} HandlingIsBounded(cfg: Config, s: Server, sid: SessionId, moves: seq<Move>)
    requires Inv(cfg, s) && sid in s.tasks && Run(cfg, s, moves) && Busy(cfg, s, sid, moves)
    ensures var s' := After(cfg, s, moves);
      && sid in s'.tasks
      && OwnMoves(sid, moves) + Work(s', sid) <= Work(s, sid)
      && (CleaningUp(s'.tasks[sid].pc) <==> CleaningUp(s.tasks[sid].pc))
    decreases |moves|
  {
    if moves != [] {
      var m := moves[0];
      var s' := Step(cfg, s, m.sid, m.ev);
      InvStep(cfg, s, m.sid, m.ev);
      if m.ev.Login? {
        LoginLeavesWork(cfg, s, m.sid, m.ev.user, sid);
      } else if m.sid == sid {
        OwnStepsShrink(cfg, s, sid, m.ev);
      } else {
        OthersLeaveWork(s, s', m.sid, sid);
      }
      HandlingIsBounded(cfg, s', sid, moves[1..]);
    }
  }

  /** The next step of a task that is not at rest. */
  lemma NextStep(cfg: Config, s: Server, sid: SessionId) returns (ev: Event)
    requires Inv(cfg, s) && sid in s.tasks && !s.tasks[sid].pc.Idle? && !s.tasks[sid].pc.Gone?
    ensures Enabled(s, sid, ev) && FreshId(s, Move(sid, ev)) && !ev.Login?
    ensures var s' := Step(cfg, s, sid, ev);
      && Inv(cfg, s') && sid in s'.tasks
      && Work(s', sid) < Work(s, sid)
      && (CleaningUp(s'.tasks[sid].pc) <==> CleaningUp(s.tasks[sid].pc))
  {
    ev := NextMove(s, sid);
    InvStep(cfg, s, sid, ev);
    OwnStepsShrink(cfg, s, sid, ev);
  }

  lemma OneMoreBy(sid: SessionId, ev: Event, rest: seq<Move>)
    requires !ev.Login? && OnlyBy(sid, rest)
    ensures OnlyBy(sid, [Move(sid, ev)] + rest)
  {
  }

  /** And it can always be brought to its end: the session is then back in its loop, or gone if it was cleaning up. */
  lemma {:induction false} HandlingCanFinish(cfg: Config, s: Server, sid: SessionId) returns (moves: seq<Move>)
    requires Inv(cfg, s) && sid in s.tasks
    ensures Run(cfg, s, moves) && OnlyBy(sid, moves) && |moves| <= Work(s, sid)
    ensures sid in After(cfg, s, moves).tasks
    ensures After(cfg, s, moves).tasks[sid].pc == if CleaningUp(s.tasks[sid].pc) then Gone else Idle
    decreases Work(s, sid)
  {
    if s.tasks[sid].pc.Idle? || s.tasks[sid].pc.Gone? {
      moves := [];
    } else {
      var ev := NextStep(cfg, s, sid);
      var s' := Step(cfg, s, sid, ev);
      var rest := HandlingCanFinish(cfg, s', sid);
      RunLonger(cfg, s, Move(sid, ev), rest);
      OneMoreBy(sid, ev, rest);
      moves := [Move(sid, ev)] + rest;
    }
  }
}
