/**
 * Two clocks at work: the server drops a silent session by its count of heartbeats
 * (crates/cy-server/src/control.rs), and the client keeps retrying a taken name
 * (crates/cy-core/src/engine.rs, TakenRetries). The retries outlast the dead session.
 */
module Reclaim {
  import opened Basics
  import opened ControlMessages
  import opened Heartbeats
  import opened Registry
  import opened ServerMachine
  import opened ServerOwnership
  import opened ServerTheorems
  import opened TakenRetries
  import Naming
  import Retries = TakenRetries

  // ---- the old holder in the server's table ----

  /** The host is routed to the session, in a table as the server keeps it. */
  ghost predicate Holds(t: Table, limit: User -> nat, host: Host, holder: Session) {
    Consistent(t, limit) && Lower(host) in t.hosts && t.hosts[Lower(host)].session == holder
  }

  /** The host is taken while its holder is registered; once the holder is gone its user may open it again. */
  lemma FreedNameOpens(t: Table, limit: User -> nat, host: Host, holder: Session, tunnel: Tunnel)
    requires Holds(t, limit, host, holder) && tunnel.session.user == holder.user
    ensures OpenOutcome(t, host, tunnel, limit(holder.user)) == Outcome.Taken
    ensures OpenOutcome(Unregistered(t, holder.id), host, tunnel, limit(holder.user)) == Opened
  {
    var t' := Unregistered(t, holder.id);
    assert holder.id in t.sessions;
    var used, used' := HostsOfUser(t, holder.user), HostsOfUser(t', holder.user);
    assert Lower(host) in used;
    SubsetSize(used', used - {Lower(host)});
    assert |used| <= limit(holder.user);
  }

  // ---- the client's timer against it ----

  /** An HTTP tunnel somebody keeps asking for: the request, the session it is sent on, the server as time passes. */
  datatype Asking = Asking(cfg: Config, server: Time -> Server, sid: SessionId, msg: ClientMsg, check: DomainCheck)

  /** At any time the request may be sent and has nothing wrong with it. */
  ghost predicate Sound(q: Asking, user: User) {
    && q.msg.OpenTunnel? && q.msg.kind == Http
    && Naming.ValidateName(q.msg.name) == None && MayUse(q.msg, q.check)
    && forall now: Time ::
         Enabled(q.server(now), q.sid, Receive(q.msg, q.check)) && q.server(now).tasks[q.sid].session.user == user
  }

  /** What the open call returns to the engine when the request is read at `now`. */
  ghost function Answer(q: Asking, now: Time): Result<(), Option<Code>>
    requires Enabled(q.server(now), q.sid, Receive(q.msg, q.check))
  {
    var reply := Reply(q.cfg, q.server(now), q.sid, Receive(q.msg, q.check));
    if reply.Some? && reply.value.TunnelOpened? then Ok(())
    else if reply.Some? && reply.value.Failure? then Err(Some(reply.value.code))
    else Err(None)
  }

  /** The host asked for. */
  ghost function Wanted(q: Asking, user: User): Host
    requires q.msg.OpenTunnel?
  {
    Lower(AskedHost(q.cfg, user, q.msg))
  }

  /** As long as the holder has the host the request is refused as taken; later it finds host and room. */
  lemma AnswerFollowsTheHolder(q: Asking, holder: Session, owned: set<Host>, gone: bool, now: Time)
    requires Sound(q, holder.user)
    requires HeldUntil(q.server(now).table, holder, Wanted(q, holder.user), owned, gone)
    requires Wanted(q, holder.user) in owned && |owned| <= q.cfg.limit(holder.user)
    ensures Answer(q, now) == if gone then Ok(()) else Err(Some(CodeTaken))
  {
    var s := q.server(now);
    HttpOpenIsDecided(q.cfg, s, q.sid, q.msg, q.check);
    if gone {
      SubsetSize(HostsOfUser(s.table, holder.user), owned - {Wanted(q, holder.user)});
    }
  }

  /**
   * The asker and the silent holder on one server: a timed run from the moment the name is found taken, in which the
   * holder hears nothing, and nobody else takes the host or adds to its user's hosts.
   */
  ghost predicate OnOneServer(
    q: Asking, s: Server, run: seq<Timed>, holder: Session, unanswered: nat, nextBeat: Time, period: Time)
    requires q.msg.OpenTunnel?
  {
    var key, k := Wanted(q, holder.user), Waiting(unanswered, nextBeat);
    && Inv(q.cfg, s) && TimedRun(q.cfg, s, run)
    && OnClock(k, s, holder, key) && Silent(k, holder.id, period, run)
    && Undisturbed(q.cfg, s, run, holder.user, HostsOfUser(s.table, holder.user), key)
    && forall now: Time :: q.server(now) == StateAt(q.cfg, s, run, now)
  }

  lemma AnswerTurnsAtDrop(
    q: Asking, s: Server, run: seq<Timed>, holder: Session, unanswered: nat, nextBeat: Time, period: Time, now: Time)
    requires Sound(q, holder.user) && OnOneServer(q, s, run, holder, unanswered, nextBeat, period)
    ensures Answer(q, now) ==
      if now >= GiveUpAt(unanswered, nextBeat, period) then Ok(()) else Err(Some(CodeTaken))
  {
    var key, owned := Wanted(q, holder.user), HostsOfUser(s.table, holder.user);
    HeldUntilGivenUp(q.cfg, Waiting(unanswered, nextBeat), s, run, holder, period, key, owned, now);
    AnswerFollowsTheHolder(q, holder, owned, now >= GiveUpAt(unanswered, nextBeat, period), now);
  }

  datatype Outlook = StillWaiting | Reclaimed(at: Time) | Lost(at: Time)

  /** The engine looks at the clock at each tick and asks for the name when it is due. */
  ghost function Retried(t: Taken, q: Asking, ticks: seq<Time>): Outlook
    requires q.msg.OpenTunnel?
    requires forall now: Time :: Enabled(q.server(now), q.sid, Receive(q.msg, q.check))
    decreases |ticks|
  {
    if ticks == [] then StillWaiting
    else
      var now, name := ticks[0], q.msg.name;
      if name !in Due(t, now) then Retried(t, q, ticks[1..])
      else
        var answer := Answer(q, now);
        var (t', v) := Recorded(t, name, answer, now);
        match v
        case Done => if answer.Ok? then Reclaimed(now) else Lost(now)
        case GaveUp => Lost(now)
        case Retrying(_) => Retried(t', q, ticks[1..])
  }

  /** Ticks come at most a second apart, starting from `since`. */
  ghost predicate EverySecond(since: Time, ticks: seq<Time>) {
    && (ticks != [] ==> since < ticks[0] <= since + 1000)
    && forall i, j | 0 <= i && j == i + 1 < |ticks| :: ticks[i] < ticks[j] <= ticks[i] + 1000
  }

  lemma EverySecondTail(since: Time, ticks: seq<Time>)
    requires EverySecond(since, ticks) && ticks != []
    ensures EverySecond(ticks[0], ticks[1..])
  {
    assert forall i :: 0 <= i < |ticks| - 1 ==> ticks[1..][i] == ticks[i + 1];
    assert |ticks| > 1 ==> ticks[0] < ticks[1] <= ticks[0] + 1000;
  }

  /** The answers turn from taken to granted at `dropAt`. */
  ghost predicate TurnsAt(q: Asking, dropAt: Time) {
    && q.msg.OpenTunnel?
    && (forall now: Time :: Enabled(q.server(now), q.sid, Receive(q.msg, q.check)))
    && forall now: Time :: Answer(q, now) == if now >= dropAt then Ok(()) else Err(Some(CodeTaken))
  }

  lemma {:induction false} RetriesReachTheDrop(t: Taken, q: Asking, since: Time, ticks: seq<Time>, dropAt: Time)
    requires TurnsAt(q, dropAt)
    requires q.msg.name in t.pending && since < t.pending[q.msg.name].nextAt < dropAt + t.every && t.every > 0
    requires dropAt + t.every + 1000 <= t.pending[q.msg.name].giveUpAt
    requires EverySecond(since, ticks)
    requires ticks != [] ==> ticks[|ticks| - 1] >= t.pending[q.msg.name].giveUpAt
    requires ticks == [] ==> since >= t.pending[q.msg.name].giveUpAt
    ensures var e := Retried(t, q, ticks);
      e.Reclaimed? && dropAt <= e.at < dropAt + t.every + 1000
    decreases |ticks|
  {
    if ticks != [] {
      var now := ticks[0];
      EverySecondTail(since, ticks);
      if now < t.pending[q.msg.name].nextAt {
        RetriesReachTheDrop(t, q, now, ticks[1..], dropAt);
      } else if now < dropAt {
        RetriesReachTheDrop(Recorded(t, q.msg.name, Err(Some(CodeTaken)), now).0, q, now, ticks[1..], dropAt);
      }
    }
  }

  /** Such a run there is: from any state in order in which two sessions of a user wait for messages. */
  lemma OldHolderIsWaitedOut(
    cfg: Config, s: Server, holder: Session, sid: SessionId, msg: ClientMsg, check: DomainCheck,
    unanswered: nat, nextBeat: Time, period: Time) returns (q: Asking, run: seq<Timed>)
    requires Inv(cfg, s) && sid in s.tasks && s.tasks[sid].pc.Idle? && s.tasks[sid].session.user == holder.user
    requires msg.OpenTunnel? && msg.kind == Http && Naming.ValidateName(msg.name) == None && MayUse(msg, check)
    requires sid != holder.id
    requires OnClock(Waiting(unanswered, nextBeat), s, holder, Lower(AskedHost(cfg, holder.user, msg)))
    ensures q.cfg == cfg && q.sid == sid && q.msg == msg && q.check == check
    ensures Sound(q, holder.user) && OnOneServer(q, s, run, holder, unanswered, nextBeat, period)
  {
    run := SilentSessionEnds(cfg, Waiting(unanswered, nextBeat), s, holder, period,
                             Lower(AskedHost(cfg, holder.user, msg)));
    var seen := run;
    var server := (now: Time) => if TimedRun(cfg, s, seen) then StateAt(cfg, s, seen, now) else s;
    q := Asking(cfg, server, sid, msg, check);
    forall now: Time
      ensures Enabled(q.server(now), sid, Receive(msg, check))
      ensures q.server(now).tasks[sid].session.user == holder.user
    {
      OthersStandStill(cfg, s, seen, holder.id, sid, now);
    }
  }

  /**
   * A name found taken at `first`, whose old holder is silent from then on, is reclaimed: the server drops the
   * holder within four heartbeats and the client gets the name before its six are over.
   */
  lemma NameIsReclaimed(
    heartbeatSecs: nat, q: Asking, s: Server, run: seq<Timed>, holder: Session,
    first: Time, unanswered: nat, nextBeat: Time, ticks: seq<Time>)
    requires heartbeatSecs >= 1 && unanswered <= MISSED_HEARTBEATS
    requires first < nextBeat <= first + Heartbeat(heartbeatSecs)
    requires Sound(q, holder.user)
    requires OnOneServer(q, s, run, holder, unanswered, nextBeat, Heartbeat(heartbeatSecs))
    requires EverySecond(first, ticks) && ticks != []
    requires ticks[|ticks| - 1] >= first + TAKEN_RETRY_HEARTBEATS * Heartbeat(heartbeatSecs)
    ensures var h := Heartbeat(heartbeatSecs);
      var dropAt := GiveUpAt(unanswered, nextBeat, h);
      var e := Retried(Recorded(Retries.Fresh(heartbeatSecs), q.msg.name, Answer(q, first), first).0, q, ticks);
      && Answer(q, first) == Err(Some(CodeTaken))
      && dropAt <= first + 4 * h
      && e.Reclaimed? && dropAt <= e.at < first + 6 * h
  {
    var h := Heartbeat(heartbeatSecs);
    var dropAt := GiveUpAt(unanswered, nextBeat, h);
    GiveUpTime(unanswered, nextBeat, h);
    MulMonotone(0, MISSED_HEARTBEATS - unanswered, h);
    MulMonotone(MISSED_HEARTBEATS - unanswered, 3, h);
    forall now: Time
      ensures Answer(q, now) == if now >= dropAt then Ok(()) else Err(Some(CodeTaken))
    {
      AnswerTurnsAtDrop(q, s, run, holder, unanswered, nextBeat, h, now);
    }
    assert TurnsAt(q, dropAt);
    var t := Recorded(Retries.Fresh(heartbeatSecs), q.msg.name, Err(Some(CodeTaken)), first).0;
    RetriesReachTheDrop(t, q, first, ticks, dropAt);
  }
}
