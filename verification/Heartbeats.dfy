/**
 * Heartbeats at the server (crates/cy-server/src/control.rs, message_loop): the count of unanswered ones, and a
 * silent session on the server's clock, from the message loop through the clean-up.
 */
module Heartbeats {
  import opened Basics
  import opened ControlMessages
  import opened Registry
  import opened ServerMachine
  import opened ServerOwnership
  import opened ServerProgress
  import opened TakenRetries

  const MISSED_HEARTBEATS := 3

  // ---- the server's counter ----

  /** What reaches a session's message loop: its own heartbeat, or a message of its client. */
  datatype Signal = Tick | Heard(msg: ClientMsg)

  /** Any message that keeps the loop going, except a ping, shows that the client is there. */
  predicate SignOfLife(sig: Signal) {
    sig.Heard? && !sig.msg.ClientPing? && !sig.msg.Hello?
  }

  /** The counter after one signal; `None` once the session is given up, for silence or for a second hello. */
  function Counted(unanswered: nat, sig: Signal): Option<nat> {
    match sig
    case Tick => if unanswered >= MISSED_HEARTBEATS then None else Some(unanswered + 1)
    case Heard(msg) =>
      match msg
      case ClientPing(_) => Some(unanswered)
      case Hello => None
      case _ => Some(0)
  }

  /** Given up somewhere in this run of signals, starting from `unanswered`. */
  predicate GivenUp(unanswered: nat, signals: seq<Signal>)
    decreases |signals|
  {
    signals != [] &&
    match Counted(unanswered, signals[0])
    case None => true
    case Some(n) => GivenUp(n, signals[1..])
  }

  /** Beats at the end of a run since the last sign of life, on top of `start` when there was none. */
  function TrailingBeats(start: nat, signals: seq<Signal>): nat
    decreases |signals|
  {
    if signals == [] then start
    else
      var last, front := signals[|signals| - 1], signals[..|signals| - 1];
      if SignOfLife(last) then 0 else TrailingBeats(start, front) + if last == Tick then 1 else 0
  }

  /** A session is dropped exactly on a second hello or when four beats have come since the last sign of life. */
  lemma {:induction false} DroppedAfterFourSilentBeats(start: nat, signals: seq<Signal>)
    requires start <= MISSED_HEARTBEATS
    ensures GivenUp(start, signals) <==>
      || Heard(Hello) in signals
      || exists k :: 0 <= k <= |signals| && TrailingBeats(start, signals[..k]) > MISSED_HEARTBEATS
    decreases |signals|
  {
    if signals != [] {
      var rest := signals[1..];
      assert signals == [signals[0]] + rest;
      match Counted(start, signals[0])
      case None =>
        assert signals[..1] == [signals[0]] && signals[..1][..0] == [];
        assert signals[0] == Tick ==> TrailingBeats(start, signals[..1]) == start + 1;
      case Some(n) =>
        DroppedAfterFourSilentBeats(n, rest);
        forall k | 0 <= k <= |rest|
          ensures TrailingBeats(start, signals[..k + 1]) == TrailingBeats(n, rest[..k])
        {
          assert signals[..k + 1] == [signals[0]] + rest[..k];
          TrailingAfterHead(start, signals[0], n, rest[..k]);
        }
        if k :| 0 <= k <= |rest| && TrailingBeats(n, rest[..k]) > MISSED_HEARTBEATS {
          assert TrailingBeats(start, signals[..k + 1]) > MISSED_HEARTBEATS;
        }
        if k :| 0 <= k <= |signals| && TrailingBeats(start, signals[..k]) > MISSED_HEARTBEATS {
          assert k > 0;
          assert TrailingBeats(n, rest[..k - 1]) > MISSED_HEARTBEATS;
        }
    }
  }

  lemma {:induction false} TrailingAfterHead(start: nat, head: Signal, n: nat, rest: seq<Signal>)
    requires Counted(start, head) == Some(n)
    ensures TrailingBeats(start, [head] + rest) == TrailingBeats(n, rest)
    decreases |rest|
  {
    var all := [head] + rest;
    if rest == [] {
      assert all == [head] && all[..0] == [];
    } else {
      assert all[..|all| - 1] == [head] + rest[..|rest| - 1];
      TrailingAfterHead(start, head, n, rest[..|rest| - 1]);
    }
  }

  /** When a session that hears nothing any more is given up, if its next heartbeat is due at `at`. */
  function GiveUpAt(unanswered: nat, at: Time, period: Time): Time
    decreases MISSED_HEARTBEATS - unanswered
  {
    match Counted(unanswered, Tick)
    case None => at
    case Some(n) => GiveUpAt(n, at + period, period)
  }

  /** That is the beat at which the run of beats so far is first given up. */
  lemma {:induction false} GivenUpOnTime(unanswered: nat, at: Time, period: Time, beats: nat)
    requires period > 0
    ensures GivenUp(unanswered, seq(beats, _ => Tick)) <==>
      beats > 0 && GiveUpAt(unanswered, at, period) <= at + (beats - 1) * period
    decreases beats
  {
    var run := seq(beats, _ => Tick);
    if beats > 0 {
      MulMonotone(0, beats - 1, period);
      match Counted(unanswered, Tick)
      case None =>
      case Some(n) =>
        assert run[1..] == seq(beats - 1, _ => Tick);
        GivenUpOnTime(n, at + period, period, beats - 1);
        assert (beats - 1) * period == (beats - 2) * period + period;
        NotBefore(n, at + period, period);
    }
  }

  lemma {:induction false} NotBefore(unanswered: nat, at: Time, period: Time)
    ensures GiveUpAt(unanswered, at, period) >= at
    decreases MISSED_HEARTBEATS - unanswered
  {
    if Counted(unanswered, Tick).Some? {
      NotBefore(unanswered + 1, at + period, period);
    }
  }

  /** Three more beats for a session heard from, fewer for one that owes answers. */
  lemma {:induction false} GiveUpTime(unanswered: nat, at: Time, period: Time)
    requires unanswered <= 3
    ensures GiveUpAt(unanswered, at, period) == at + (3 - unanswered) * period
    decreases MISSED_HEARTBEATS - unanswered
  {
    if unanswered < MISSED_HEARTBEATS {
      GiveUpTime(unanswered + 1, at + period, period);
      var left := MISSED_HEARTBEATS - unanswered;
      assert left * period == (left - 1) * period + period;
    }
  }

  /** The heartbeat arm of the message loop while nothing is heard any more; returns when it gives up. */
  method WatchSilentPeer(start: nat, nextBeat: Time, period: Time) returns (dropAt: Time, pings: nat)
    ensures dropAt == GiveUpAt(start, nextBeat, period)
    ensures start <= MISSED_HEARTBEATS ==> pings == MISSED_HEARTBEATS - start
    ensures start > MISSED_HEARTBEATS ==> pings == 0
  {
    var unanswered := start;
    dropAt, pings := nextBeat, 0;
    while Counted(unanswered, Tick).Some?
      invariant GiveUpAt(unanswered, dropAt, period) == GiveUpAt(start, nextBeat, period)
      invariant unanswered == start + pings
      invariant pings > 0 ==> unanswered <= MISSED_HEARTBEATS
      decreases MISSED_HEARTBEATS - unanswered
    {
      unanswered := Counted(unanswered, Tick).value;
      pings := pings + 1;
      dropAt := dropAt + period;
    }
  }

  // ---- a silent session on the server's clock ----

  datatype Timed = Timed(at: Time, move: Move)

  /** A run of the server whose steps have times, in order. */
  ghost predicate TimedRun(cfg: Config, s: Server, run: seq<Timed>)
    decreases |run|
  {
    run == [] || (
      && Enabled(s, run[0].move.sid, run[0].move.ev) && FreshId(s, run[0].move)
      && (|run| > 1 ==> run[0].at <= run[1].at)
      && TimedRun(cfg, Step(cfg, s, run[0].move.sid, run[0].move.ev), run[1..]))
  }

  /** The server at a time: after everything up to then. */
  ghost function StateAt(cfg: Config, s: Server, run: seq<Timed>, now: Time): Server
    requires TimedRun(cfg, s, run)
    decreases |run|
  {
    if run == [] || run[0].at > now then s
    else StateAt(cfg, Step(cfg, s, run[0].move.sid, run[0].move.ev), run[1..], now)
  }

  /** Where a silent session stands: waiting for its next heartbeat, cleaning up, gone. */
  datatype Clock = Waiting(unanswered: nat, nextBeat: Time) | Ending(at: Time) | Over

  ghost function Turned(k: Clock, sid: SessionId, period: Time, m: Move): Clock {
    if m.sid != sid then k
    else match k
         case Waiting(unanswered, nextBeat) =>
           if Counted(unanswered, Tick).Some? then Waiting(Counted(unanswered, Tick).value, nextBeat + period)
           else Ending(nextBeat)
         case Ending(_) => if m.ev.Unregister? then Over else k
         case Over => k
  }

  /**
   * The session hears nothing and beats on time; at the beat the counter gives it up at it leaves, and cleaning up
   * takes no time. Others move as they like in between.
   */
  ghost predicate InTime(k: Clock, sid: SessionId, t: Timed) {
    match k
    case Waiting(unanswered, nextBeat) =>
      && t.at <= nextBeat
      && (t.move.sid == sid ==>
            t.at == nextBeat &&
            if Counted(unanswered, Tick).Some? then t.move.ev.Beat? else t.move.ev == Leave(false))
    case Ending(at) => t.at == at
    case Over => t.move.sid != sid
  }

  ghost predicate Silent(k: Clock, sid: SessionId, period: Time, run: seq<Timed>)
    decreases |run|
  {
    if run == [] then k.Over?
    else InTime(k, sid, run[0]) && Silent(Turned(k, sid, period, run[0].move), sid, period, run[1..])
  }

  /** When the session is gone. */
  function EndOf(k: Clock, period: Time): Time {
    match k
    case Waiting(unanswered, nextBeat) => GiveUpAt(unanswered, nextBeat, period)
    case Ending(at) => at
    case Over => 0
  }

  /** What the clock says about the task and about one host the session holds. */
  ghost predicate OnClock(k: Clock, s: Server, holder: Session, key: Host) {
    && holder.id in s.tasks && s.tasks[holder.id].session == holder
    && var pc := s.tasks[holder.id].pc;
       match k
       case Waiting(_, _) => pc.Idle? && key in s.table.hosts && s.table.hosts[key].session == holder
       case Ending(_) => (pc.Leaving? || pc.Returning?) && key in s.table.hosts && s.table.hosts[key].session == holder
       case Over => pc.Gone? && key !in s.table.hosts
  }

  /** The user's hosts stay among `owned`, and nobody takes `key`. */
  ghost predicate LeavesAlone(t: Table, t': Table, user: User, owned: set<Host>, key: Host) {
    HostsOfUser(t', user) <= owned && (key in t'.hosts ==> key in t.hosts)
  }

  ghost predicate Undisturbed(cfg: Config, s: Server, run: seq<Timed>, user: User, owned: set<Host>, key: Host)
    requires TimedRun(cfg, s, run)
    decreases |run|
  {
    run == [] ||
    var s' := Step(cfg, s, run[0].move.sid, run[0].move.ev);
    LeavesAlone(s.table, s'.table, user, owned, key) && Undisturbed(cfg, s', run[1..], user, owned, key)
  }

  // ---- one step ----

  lemma BeatsOn(cfg: Config, k: Clock, s: Server, holder: Session, period: Time, t: Timed, key: Host)
    requires OnClock(k, s, holder, key) && InTime(k, holder.id, t) && t.move.sid == holder.id && k.Waiting?
    requires Enabled(s, holder.id, t.move.ev)
    ensures OnClock(Turned(k, holder.id, period, t.move), Step(cfg, s, holder.id, t.move.ev), holder, key)
  {
  }

  lemma CleansUp(cfg: Config, at: Time, s: Server, holder: Session, period: Time, m: Move, key: Host)
    requires OnClock(Ending(at), s, holder, key) && m.sid == holder.id && holder.id in s.table.sessions
    requires Enabled(s, holder.id, m.ev)
    ensures OnClock(Turned(Ending(at), holder.id, period, m), Step(cfg, s, holder.id, m.ev), holder, key)
  {
    if m.ev.Unregister? {
      assert key !in Unregistered(s.table, holder.id).hosts;
    }
  }

  lemma OwnMoveOnClock(cfg: Config, k: Clock, s: Server, holder: Session, period: Time, t: Timed, key: Host)
    requires TasksOk(s) && OnClock(k, s, holder, key) && InTime(k, holder.id, t) && t.move.sid == holder.id
    requires Enabled(s, holder.id, t.move.ev)
    ensures OnClock(Turned(k, holder.id, period, t.move), Step(cfg, s, holder.id, t.move.ev), holder, key)
  {
    match k
    case Waiting(_, _) => BeatsOn(cfg, k, s, holder, period, t, key);
    case Ending(at) => CleansUp(cfg, at, s, holder, period, t.move, key);
  }

  lemma EndStays(k: Clock, sid: SessionId, period: Time, t: Timed)
    requires InTime(k, sid, t) && !k.Over?
    ensures t.at <= EndOf(k, period)
    ensures var k' := Turned(k, sid, period, t.move);
      (k'.Over? && t.at == EndOf(k, period)) || (!k'.Over? && EndOf(k', period) == EndOf(k, period))
    ensures Turned(k, sid, period, t.move).Ending? ==> t.at == Turned(k, sid, period, t.move).at
  {
    if k.Waiting? {
      NotBefore(k.unanswered, k.nextBeat, period);
    }
  }

  lemma KeptOnClock(k: Clock, s: Server, s': Server, holder: Session, other: SessionId, key: Host)
    requires OnClock(k, s, holder, key) && OthersKept(s, s', other) && other != holder.id
    requires key in s'.table.hosts ==> key in s.table.hosts
    ensures OnClock(k, s', holder, key)
  {
    var routes := RoutesOf(s.table, holder.id);
    assert RoutesOf(s'.table, holder.id) == routes;
    if !k.Over? {
      assert key in routes;
    }
  }

  lemma LoginOnClock(cfg: Config, k: Clock, s: Server, holder: Session, sid: SessionId, user: User, key: Host)
    requires OnClock(k, s, holder, key) && Enabled(s, sid, Login(user))
    ensures OnClock(k, Step(cfg, s, sid, Login(user)), holder, key)
  {
  }

  lemma OthersMoveOnClock(
    cfg: Config, k: Clock, s: Server, holder: Session, m: Move, key: Host, user: User, owned: set<Host>)
    requires Inv(cfg, s) && OnClock(k, s, holder, key) && m.sid != holder.id
    requires Enabled(s, m.sid, m.ev) && FreshId(s, m)
    requires LeavesAlone(s.table, Step(cfg, s, m.sid, m.ev).table, user, owned, key)
    ensures OnClock(k, Step(cfg, s, m.sid, m.ev), holder, key)
  {
    InvStep(cfg, s, m.sid, m.ev);
    if m.ev.Login? {
      LoginOnClock(cfg, k, s, holder, m.sid, m.ev.user, key);
    } else {
      KeptOnClock(k, s, Step(cfg, s, m.sid, m.ev), holder, m.sid, key);
    }
  }

  lemma MoveOnClock(
    cfg: Config, k: Clock, s: Server, holder: Session, period: Time, t: Timed, key: Host, owned: set<Host>)
    requires Inv(cfg, s) && OnClock(k, s, holder, key) && InTime(k, holder.id, t)
    requires Enabled(s, t.move.sid, t.move.ev) && FreshId(s, t.move)
    requires LeavesAlone(s.table, Step(cfg, s, t.move.sid, t.move.ev).table, holder.user, owned, key)
    ensures OnClock(Turned(k, holder.id, period, t.move), Step(cfg, s, t.move.sid, t.move.ev), holder, key)
    ensures Inv(cfg, Step(cfg, s, t.move.sid, t.move.ev))
  {
    InvStep(cfg, s, t.move.sid, t.move.ev);
    if t.move.sid == holder.id {
      OwnMoveOnClock(cfg, k, s, holder, period, t, key);
    } else {
      OthersMoveOnClock(cfg, k, s, holder, t.move, key, holder.user, owned);
    }
  }

  // ---- the whole run ----

  /** Whose the host is, before the silent session is given up and from then on. */
  ghost predicate HeldUntil(t: Table, holder: Session, key: Host, owned: set<Host>, gone: bool) {
    if gone then key !in t.hosts && HostsOfUser(t, holder.user) <= owned - {key}
    else key in t.hosts && t.hosts[key].session == holder
  }

  /**
   * However the others move, the host of a silent session stays its own up to the moment the count gives the
   * session up, and is free from that moment on.
   */
  lemma {:induction false} HeldUntilGivenUp(
    cfg: Config, k: Clock, s: Server, run: seq<Timed>, holder: Session, period: Time, key: Host, owned: set<Host>,
    now: Time)
    requires Inv(cfg, s) && TimedRun(cfg, s, run)
    requires OnClock(k, s, holder, key) && Silent(k, holder.id, period, run)
    requires HostsOfUser(s.table, holder.user) <= owned && Undisturbed(cfg, s, run, holder.user, owned, key)
    requires k.Ending? ==> now >= k.at
    ensures HeldUntil(StateAt(cfg, s, run, now).table, holder, key, owned, now >= EndOf(k, period))
    decreases |run|
  {
    if run != [] {
      var t := run[0];
      if !k.Over? {
        EndStays(k, holder.id, period, t);
      }
      if t.at <= now {
        MoveOnClock(cfg, k, s, holder, period, t, key, owned);
        HeldUntilGivenUp(cfg, Turned(k, holder.id, period, t.move), Step(cfg, s, t.move.sid, t.move.ev), run[1..],
                         holder, period, key, owned, now);
      }
    }
  }

  // ---- there is such a run ----

  lemma OwnMoveTakesNothing(cfg: Config, k: Clock, s: Server, holder: Session, t: Timed, key: Host)
    requires OnClock(k, s, holder, key) && InTime(k, holder.id, t) && t.move.sid == holder.id
    requires Enabled(s, holder.id, t.move.ev)
    ensures LeavesAlone(s.table, Step(cfg, s, holder.id, t.move.ev).table, holder.user, HostsOfUser(s.table, holder.user), key)
    ensures HostsOfUser(Step(cfg, s, holder.id, t.move.ev).table, holder.user) <= HostsOfUser(s.table, holder.user)
  {
  }

  function NextTime(k: Clock): Time {
    match k
    case Waiting(_, nextBeat) => nextBeat
    case Ending(at) => at
    case Over => 0
  }

  lemma OwnNextMove(cfg: Config, k: Clock, s: Server, holder: Session, key: Host) returns (m: Move)
    requires Inv(cfg, s) && OnClock(k, s, holder, key) && !k.Over?
    ensures m.sid == holder.id && Enabled(s, m.sid, m.ev) && FreshId(s, m) && InTime(k, holder.id, Timed(NextTime(k), m))
    ensures k.Ending? && !m.ev.Unregister? ==>
      var s' := Step(cfg, s, m.sid, m.ev);
      holder.id in s'.tasks && Work(s', holder.id) < Work(s, holder.id)
  {
    match k
    case Waiting(unanswered, _) =>
      m := Move(holder.id, if Counted(unanswered, Tick).Some? then Beat(0) else Leave(false));
    case Ending(_) =>
      var ev := NextStep(cfg, s, holder.id);
      m := Move(holder.id, ev);
  }

  lemma SmallerOwnedIsEnough(
    cfg: Config, s: Server, run: seq<Timed>, user: User, owned: set<Host>, more: set<Host>, key: Host)
    requires TimedRun(cfg, s, run) && Undisturbed(cfg, s, run, user, owned, key) && owned <= more
    ensures Undisturbed(cfg, s, run, user, more, key)
    decreases |run|
  {
    if run != [] {
      SmallerOwnedIsEnough(cfg, Step(cfg, s, run[0].move.sid, run[0].move.ev), run[1..], user, owned, more, key);
    }
  }

  function Stage(k: Clock): nat {
    match k
    case Waiting(_, _) => 2
    case Ending(_) => 1
    case Over => 0
  }

  /** Within a stage: the beats left, the clean-up steps left. */
  ghost function Left(k: Clock, s: Server, sid: SessionId): nat
    requires sid in s.tasks
  {
    match k
    case Waiting(unanswered, _) => if unanswered < MISSED_HEARTBEATS then MISSED_HEARTBEATS - unanswered else 0
    case Ending(_) => Work(s, sid)
    case Over => 0
  }

  /** The next step of a silent session left to itself. */
  lemma SilentStep(cfg: Config, k: Clock, s: Server, holder: Session, period: Time, key: Host)
    returns (t: Timed, k': Clock, s': Server)
    requires Inv(cfg, s) && OnClock(k, s, holder, key) && !k.Over?
    ensures t.at == NextTime(k) && t.move.sid == holder.id && InTime(k, holder.id, t)
    ensures Enabled(s, t.move.sid, t.move.ev) && FreshId(s, t.move)
    ensures s' == Step(cfg, s, t.move.sid, t.move.ev) && k' == Turned(k, holder.id, period, t.move)
    ensures Inv(cfg, s') && OnClock(k', s', holder, key)
    ensures LeavesAlone(s.table, s'.table, holder.user, HostsOfUser(s.table, holder.user), key)
    ensures Stage(k') < Stage(k) || (Stage(k') == Stage(k) && Left(k', s', holder.id) < Left(k, s, holder.id))
    ensures k'.Over? || NextTime(k) <= NextTime(k')
  {
    var m := OwnNextMove(cfg, k, s, holder, key);
    t := Timed(NextTime(k), m);
    s', k' := Step(cfg, s, m.sid, m.ev), Turned(k, holder.id, period, m);
    OwnMoveTakesNothing(cfg, k, s, holder, t, key);
    MoveOnClock(cfg, k, s, holder, period, t, key, HostsOfUser(s.table, holder.user));
  }

  lemma OneStepBefore(
    cfg: Config, k: Clock, s: Server, sid: SessionId, period: Time, t: Timed, rest: seq<Timed>, user: User,
    owned: set<Host>, key: Host)
    requires Enabled(s, t.move.sid, t.move.ev) && FreshId(s, t.move) && InTime(k, sid, t)
    requires var s' := Step(cfg, s, t.move.sid, t.move.ev);
      && LeavesAlone(s.table, s'.table, user, owned, key)
      && TimedRun(cfg, s', rest) && Undisturbed(cfg, s', rest, user, owned, key)
    requires Silent(Turned(k, sid, period, t.move), sid, period, rest)
    requires rest != [] ==> t.at <= rest[0].at
    ensures TimedRun(cfg, s, [t] + rest) && Silent(k, sid, period, [t] + rest)
    ensures Undisturbed(cfg, s, [t] + rest, user, owned, key)
  {
    assert ([t] + rest)[1..] == rest;
  }

  /** Left to itself, a silent session beats, is given up and cleans up. */
  lemma {:induction false} SilentSessionEnds(
    cfg: Config, k: Clock, s: Server, holder: Session, period: Time, key: Host) returns (run: seq<Timed>)
    requires Inv(cfg, s) && OnClock(k, s, holder, key)
    ensures TimedRun(cfg, s, run) && Silent(k, holder.id, period, run)
    ensures Undisturbed(cfg, s, run, holder.user, HostsOfUser(s.table, holder.user), key)
    ensures if k.Over? then run == [] else run != [] && run[0].at == NextTime(k)
    ensures forall t <- run :: t.move.sid == holder.id
    decreases Stage(k), Left(k, s, holder.id)
  {
    if k.Over? {
      run := [];
    } else {
      var t, k', s' := SilentStep(cfg, k, s, holder, period, key);
      var owned := HostsOfUser(s.table, holder.user);
      var rest := SilentSessionEnds(cfg, k', s', holder, period, key);
      SmallerOwnedIsEnough(cfg, s', rest, holder.user, HostsOfUser(s'.table, holder.user), owned, key);
      OneStepBefore(cfg, k, s, holder.id, period, t, rest, holder.user, owned, key);
      run := [t] + rest;
    }
  }

  /** Nobody else's task moves in a run of one session. */
  lemma {:induction false} OthersStandStill(
    cfg: Config, s: Server, run: seq<Timed>, sid: SessionId, other: SessionId, now: Time)
    requires TimedRun(cfg, s, run) && (forall t <- run :: t.move.sid == sid) && other != sid && other in s.tasks
    ensures other in StateAt(cfg, s, run, now).tasks && StateAt(cfg, s, run, now).tasks[other] == s.tasks[other]
    decreases |run|
  {
    if run != [] && run[0].at <= now {
      assert run[0] in run && forall t <- run[1..] :: t in run;
      OthersStandStill(cfg, Step(cfg, s, sid, run[0].move.ev), run[1..], sid, other, now);
    }
  }
}
