/** A lease in the interleaved server, taken step by step, comes to what one uninterrupted call comes to. */
module ServerLeases {
  import opened Basics
  import opened Registry
  import opened PortPool
  import opened ControlMessages
  import opened ServerMachine
  import opened ServerHandlers

  predicate Leasing(pc: Pc) {
    pc.Placing? || pc.Binding? || pc.Bound?
  }

  /** The next step of a task in the middle of a lease, when the system lets it bind exactly the ports in `binds`. */
  function LeaseMove(pc: Pc, binds: set<Port>): Event
    requires Leasing(pc)
  {
    if pc.Placing? then TryNext else if pc.Binding? then Bind(pc.port in binds) else Spawn
  }

  function StepsLeft(pc: Pc): nat {
    match pc
    case Placing(_, _, _, candidates) => 2 * |candidates| + 4
    case Binding(_, _, _, _, rest) => 2 * |rest| + 5
    case Bound(_, _, _) => 3
    case _ => 0
  }

  /** The lease of one session, its steps taken with nobody in between. */
  ghost function AfterLease(cfg: Config, s: Server, sid: SessionId, binds: set<Port>): Server
    requires sid in s.tasks
    decreases StepsLeft(s.tasks[sid].pc)
  {
    var pc := s.tasks[sid].pc;
    if !Leasing(pc) then s else AfterLease(cfg, Step(cfg, s, sid, LeaseMove(pc, binds)), sid, binds)
  }

  /** The walk over the candidates of a request for any port: the first that is free and can be bound. */
  function Walk(candidates: seq<Port>, leased: map<Port, Lease>, binds: set<Port>): Option<Port> {
    if candidates == [] then None
    else if candidates[0] !in leased && candidates[0] in binds then Some(candidates[0])
    else Walk(candidates[1..], leased, binds)
  }

  lemma {:induction false} WalkIsFirstFree(lo: int, hi: int, leased: map<Port, Lease>, binds: set<Port>)
    requires 0 <= lo && hi < 0x1_0000
    ensures Walk(Span(lo, hi), leased, binds) == FirstFree(lo, hi, leased, binds)
    decreases hi - lo
  {
    if lo <= hi {
      WalkIsFirstFree(lo + 1, hi, leased, binds);
      assert Span(lo, hi)[1..] == Span(lo + 1, hi);
    }
  }

  /** Where the task stands after its lease. */
  ghost predicate EndsWith(
    cfg: Config, s: Server, sid: SessionId, binds: set<Port>, tid: TunnelId, host: Host,
    answer: Result<Port, LeaseError>)
    requires sid in s.tasks
  {
    var s' := AfterLease(cfg, s, sid, binds);
    && sid in s'.tasks
    && match answer
       case Ok(p) =>
         && s'.tasks[sid].pc == Pc.Leased(tid, host, p)
         && p in s'.pool.leased && s'.pool.leased == s.pool.leased[p := s'.pool.leased[p]]
       case Err(e) =>
         && s'.tasks[sid].pc == Refused(tid, host, LeaseCode(e))
         && s'.pool.leased == s.pool.leased
  }

  lemma OneStep(cfg: Config, s: Server, sid: SessionId, binds: set<Port>)
    requires sid in s.tasks && Leasing(s.tasks[sid].pc)
    ensures var s' := Step(cfg, s, sid, LeaseMove(s.tasks[sid].pc, binds));
      sid in s'.tasks && AfterLease(cfg, s, sid, binds) == AfterLease(cfg, s', sid, binds)
  {
  }

  lemma Onward(
    cfg: Config, s: Server, sid: SessionId, binds: set<Port>, tid: TunnelId, host: Host,
    answer: Result<Port, LeaseError>)
    requires sid in s.tasks && Leasing(s.tasks[sid].pc)
    requires var s' := Step(cfg, s, sid, LeaseMove(s.tasks[sid].pc, binds));
      sid in s'.tasks && s'.pool.leased == s.pool.leased && EndsWith(cfg, s', sid, binds, tid, host, answer)
    ensures EndsWith(cfg, s, sid, binds, tid, host, answer)
  {
    OneStep(cfg, s, sid, binds);
  }

  /** A port that is free is placed, and then granted or given up according to the bind. */
  lemma FreePort(cfg: Config, s: Server, sid: SessionId, binds: set<Port>)
    requires sid in s.tasks && s.tasks[sid].pc.Placing? && s.tasks[sid].pc.candidates != []
    requires s.tasks[sid].pc.candidates[0] !in s.pool.leased
    ensures var pc := s.tasks[sid].pc;
      var port, s1 := pc.candidates[0], Step(cfg, s, sid, TryNext);
      && s1.tasks[sid].pc == Binding(pc.tid, pc.host, pc.wanted, port, pc.candidates[1..])
      && (port in binds ==> EndsWith(cfg, s, sid, binds, pc.tid, pc.host, Ok(port)))
      && (port !in binds ==>
            var s2 := Step(cfg, s1, sid, Bind(false));
            && AfterLease(cfg, s, sid, binds) == AfterLease(cfg, s2, sid, binds)
            && s2.pool.leased == s.pool.leased
            && s2.tasks[sid].pc ==
                 if pc.wanted then Refused(pc.tid, pc.host, CodePortTaken)
                 else Placing(pc.tid, pc.host, false, pc.candidates[1..]))
  {
    var pc := s.tasks[sid].pc;
    var port, s1 := pc.candidates[0], Step(cfg, s, sid, TryNext);
    OneStep(cfg, s, sid, binds);
    OneStep(cfg, s1, sid, binds);
    if port in binds {
      var s2 := Step(cfg, s1, sid, Bind(true));
      OneStep(cfg, s2, sid, binds);
      var s3 := Step(cfg, s2, sid, Spawn);
      assert AfterLease(cfg, s3, sid, binds) == s3;
      assert s3.pool.leased == s.pool.leased[port := s3.pool.leased[port]];
    } else {
      assert s1.pool.leased - {port} == s.pool.leased;
    }
  }

  /** Any port: the session walks on past ports that are held or cannot be bound, and takes the first that is neither. */
  lemma {:induction false} WalksOn(cfg: Config, s: Server, sid: SessionId, binds: set<Port>)
    requires sid in s.tasks && s.tasks[sid].pc.Placing? && !s.tasks[sid].pc.wanted
    ensures var pc := s.tasks[sid].pc;
      EndsWith(cfg, s, sid, binds, pc.tid, pc.host,
               match Walk(pc.candidates, s.pool.leased, binds) case Some(p) => Ok(p) case None => Err(Exhausted))
    decreases |s.tasks[sid].pc.candidates|
  {
    var pc := s.tasks[sid].pc;
    var answer := match Walk(pc.candidates, s.pool.leased, binds) case Some(p) => Ok(p) case None => Err(Exhausted);
    if pc.candidates == [] {
      OneStep(cfg, s, sid, binds);
    } else if pc.candidates[0] in s.pool.leased {
      WalksOn(cfg, Step(cfg, s, sid, TryNext), sid, binds);
      Onward(cfg, s, sid, binds, pc.tid, pc.host, answer);
    } else {
      FreePort(cfg, s, sid, binds);
      if pc.candidates[0] !in binds {
        WalksOn(cfg, Step(cfg, Step(cfg, s, sid, TryNext), sid, Bind(false)), sid, binds);
      }
    }
  }

  lemma WantedOnly(cfg: Config, s: Server, sid: SessionId, binds: set<Port>, port: Port)
    requires sid in s.tasks && s.tasks[sid].pc.Placing? && s.tasks[sid].pc.wanted && s.tasks[sid].pc.candidates == [port]
    ensures var pc := s.tasks[sid].pc;
      EndsWith(cfg, s, sid, binds, pc.tid, pc.host,
               if port in s.pool.leased then Err(PortTaken) else if port !in binds then Err(BindFailed) else Ok(port))
  {
    if port in s.pool.leased {
      OneStep(cfg, s, sid, binds);
    } else {
      FreePort(cfg, s, sid, binds);
    }
  }

  /**
   * Right after a TCP request got its name: if nobody moves in between, the session's own steps come to exactly what
   * an uninterrupted lease call answers, with the port leased, or the code for its error.
   */
  lemma LeaseComesToItsAnswer(cfg: Config, s: Server, sid: SessionId, msg: ClientMsg, host: Host, binds: set<Port>)
    requires sid in s.tasks && msg.OpenTunnel? && msg.kind == Tcp && s.tasks[sid].pc == AfterRoute(cfg, msg, host)
    ensures EndsWith(cfg, s, sid, binds, msg.id, Lower(host),
                     LeaseAnswer(cfg.lo, cfg.hi, s.pool.leased, msg.remotePort, binds))
  {
    match msg.remotePort
    case None =>
      WalkIsFirstFree(cfg.lo, cfg.hi, s.pool.leased, binds);
      WalksOn(cfg, s, sid, binds);
    case Some(p) =>
      if InRange(cfg.lo, cfg.hi, p) {
        WantedOnly(cfg, s, sid, binds, p);
      }
  }

  /** The task's next step tells the client so: the port granted, or the code for the error. */
  lemma LeaseIsAnswered(
    cfg: Config, s: Server, sid: SessionId, tid: TunnelId, host: Host, answer: Result<Port, LeaseError>, ev: Event)
    requires sid in s.tasks && Enabled(s, sid, ev) && !ev.Login?
    requires s.tasks[sid].pc ==
      match answer case Ok(p) => Pc.Leased(tid, host, p) case Err(e) => Refused(tid, host, LeaseCode(e))
    ensures Reply(cfg, s, sid, ev) == Some(LeaseReply(answer, tid))
    ensures Step(cfg, s, sid, ev).tasks[sid].pc.Idle?
    ensures answer.Ok? ==> Step(cfg, s, sid, ev).table == WithPort(s.table, host, answer.value)
    ensures answer.Err? ==> exists found ::
      IsMatch(s.table, sid, tid, found) && Step(cfg, s, sid, ev).table == Closed(s.table, found)
  {
    if answer.Err? {
      assert IsMatch(s.table, sid, tid, ev.found);
    }
  }

  /** The codes, as the source gives them. */
  lemma LeaseCodes()
    ensures LeaseCode(Exhausted) == CodePoolExhausted
    ensures LeaseCode(PortTaken) == LeaseCode(BindFailed) == LeaseCode(OutOfRange) == CodePortTaken
  {
  }
}
