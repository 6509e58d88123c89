/**
 * Pings and pongs between every client and the server (crates/cy-core/src/client.rs:474-477 against
 * crates/cy-server/src/control.rs, message_loop): every heartbeat is answered, in order, and a client that keeps up
 * is never given up.
 */
module Pings {
  import opened Basics
  import opened Registry
  import opened ControlMessages
  import opened ControlLoop
  import opened ServerMachine
  import opened TunnelSystem
  import opened Heartbeats

  function PingNumber(m: ServerMsg): seq<nat> {
    if m.ServerPing? then [m.seqno] else []
  }

  function PingNumbers(q: seq<ServerMsg>): seq<nat> {
    if q == [] then [] else PingNumber(q[0]) + PingNumbers(q[1..])
  }

  function PongNumber(m: ClientMsg): seq<nat> {
    if m.ClientPong? then [m.seqno] else []
  }

  function PongNumbers(q: seq<ClientMsg>): seq<nat> {
    if q == [] then [] else PongNumber(q[0]) + PongNumbers(q[1..])
  }

  /** Heartbeats sent and not yet answered at the server, oldest first: the answers on their way, the pings unread. */
  function Unanswered(l: Loop): seq<nat> {
    PongNumbers(l.up) + PingNumbers(l.down)
  }

  /** The heartbeat a turn of this session sends, if it sends one. */
  function BeatIn(t: Turn, sid: SessionId): seq<nat> {
    if t.sid == sid && t.act.Serve? && t.act.ev.Beat? then [t.act.ev.seqno] else []
  }

  function Beats(turns: seq<Turn>, sid: SessionId): seq<nat> {
    if turns == [] then [] else BeatIn(turns[0], sid) + Beats(turns[1..], sid)
  }

  /** The pong the server reads in a turn of this session, if it reads one. */
  ghost function PongIn(x: Sys, t: Turn, sid: SessionId): seq<nat> {
    if t.sid == sid && t.act.Deliver? && sid in x.conns && x.conns[sid].loop.up != [] && x.conns[sid].loop.up[0].ClientPong?
    then [x.conns[sid].loop.up[0].seqno] else []
  }

  ghost function PongsRead(cfg: Config, x: Sys, turns: seq<Turn>, sid: SessionId): seq<nat>
    requires History(cfg, x, turns)
    decreases |turns|
  {
    if turns == [] then []
    else PongIn(x, turns[0], sid) + PongsRead(cfg, Do(cfg, x, turns[0].sid, turns[0].act), turns[1..], sid)
  }

  // ---- the queues ----

  lemma {:induction false} PingsAppend(q: seq<ServerMsg>, m: ServerMsg)
    ensures PingNumbers(q + [m]) == PingNumbers(q) + PingNumber(m)
  {
    if q == [] {
      assert q + [m] == [m];
    } else {
      var r := q + [m];
      assert r[0] == q[0] && r[1..] == q[1..] + [m];
      PingsAppend(q[1..], m);
      var x, y, z := PingNumber(q[0]), PingNumbers(q[1..]), PingNumber(m);
      assert PingNumbers(r) == x + (y + z) == x + y + z;
    }
  }

  lemma {:induction false} PongsAppend(q: seq<ClientMsg>, m: ClientMsg)
    ensures PongNumbers(q + [m]) == PongNumbers(q) + PongNumber(m)
  {
    if q == [] {
      assert q + [m] == [m];
    } else {
      var r := q + [m];
      assert r[0] == q[0] && r[1..] == q[1..] + [m];
      PongsAppend(q[1..], m);
      var x, y, z := PongNumber(q[0]), PongNumbers(q[1..]), PongNumber(m);
      assert PongNumbers(r) == x + (y + z) == x + y + z;
    }
  }

  // ---- one move ----

  lemma CommandKeepsPings(c: Conn)
    requires c.loop.running && c.calls.commands != [] && AfterCommand(c).loop.linkUp
    ensures c.loop.linkUp && Unanswered(AfterCommand(c).loop) == Unanswered(c.loop)
  {
    match c.calls.commands[0]
    case Open(spec, _) => PongsAppend(c.loop.up, OpenRequest(c.loop.nextId, spec));
    case Close(name) =>
      if name in c.loop.byName {
        PongsAppend(c.loop.up, CloseTunnel(c.loop.byName[name]));
      }
  }

  /** A ping read becomes a pong on its way. */
  lemma PingTurnsToPong(up: seq<ClientMsg>, down: seq<ServerMsg>)
    requires down != [] && down[0].ServerPing?
    ensures PongNumbers(up + [ClientPong(down[0].seqno)]) + PingNumbers(down[1..]) == PongNumbers(up) + PingNumbers(down)
  {
    var n := down[0].seqno;
    PongsAppend(up, ClientPong(n));
    var a, b := PongNumbers(up), PingNumbers(down[1..]);
    assert a + ([n] + b) == (a + [n]) + b;
  }

  lemma NoPingFirst(down: seq<ServerMsg>)
    requires down != [] && !down[0].ServerPing?
    ensures PingNumbers(down[1..]) == PingNumbers(down)
  {
    assert PingNumbers(down) == [] + PingNumbers(down[1..]);
  }

  /** Every other message leaves the pings and pongs. */
  lemma OtherMessage(c: Conn)
    requires c.loop.running && c.loop.down != [] && !c.loop.down[0].ServerPing? && AfterMessage(c).loop.linkUp
    ensures c.loop.linkUp
    ensures AfterMessage(c).loop.up == c.loop.up && AfterMessage(c).loop.down == c.loop.down[1..]
  {
  }

  lemma MessageKeepsPings(c: Conn)
    requires c.loop.running && c.loop.down != [] && AfterMessage(c).loop.linkUp
    ensures c.loop.linkUp && Unanswered(AfterMessage(c).loop) == Unanswered(c.loop)
  {
    if c.loop.down[0].ServerPing? {
      PingTurnsToPong(c.loop.up, c.loop.down);
    } else {
      OtherMessage(c);
      NoPingFirst(c.loop.down);
    }
  }

  lemma ClientKeepsPings(c: Conn, a: ClientAct)
    requires CanAct(c, a) && ClientDo(c, a).loop.linkUp
    ensures c.loop.linkUp && Unanswered(ClientDo(c, a).loop) == Unanswered(c.loop)
  {
    match a
    case Call(_) =>
    case CallClose(_) =>
    case TakeCommand => CommandKeepsPings(c);
    case TakeMessage => MessageKeepsPings(c);
    case Stop =>
    case Break(_, _) =>
  }

  /** The server puts a ping on the queue exactly when a heartbeat is due. */
  lemma OnlyBeatsPing(cfg: Config, s: Server, sid: SessionId, ev: Event)
    requires Enabled(s, sid, ev)
    ensures var r := Reply(cfg, s, sid, ev);
      if ev.Beat? then r == Some(ServerPing(ev.seqno)) else r.Some? ==> !r.value.ServerPing?
  {
  }

  lemma QueuesKeepPings(
    up: seq<ClientMsg>, up': seq<ClientMsg>, down: seq<ServerMsg>, down': seq<ServerMsg>, read: seq<nat>, sent: seq<nat>)
    requires PongNumbers(up) == read + PongNumbers(up') && PingNumbers(down') == PingNumbers(down) + sent
    ensures read + (PongNumbers(up') + PingNumbers(down')) == (PongNumbers(up) + PingNumbers(down)) + sent
  {
  }

  lemma ReplyQueued(cfg: Config, s: Server, sid: SessionId, ev: Event, l: Loop)
    requires Enabled(s, sid, ev) && (ev.Receive? ==> l.up != []) && l.linkUp
    ensures PingNumbers(LoopAfter(cfg, s, sid, ev, l).down) == PingNumbers(l.down) + if ev.Beat? then [ev.seqno] else []
    ensures LoopAfter(cfg, s, sid, ev, l).up == if ev.Receive? then l.up[1..] else l.up
  {
    OnlyBeatsPing(cfg, s, sid, ev);
    var r := Reply(cfg, s, sid, ev);
    if r.Some? {
      PingsAppend(l.down, r.value);
    }
  }

  lemma ServerKeepsPings(cfg: Config, s: Server, sid: SessionId, ev: Event, l: Loop)
    requires Enabled(s, sid, ev) && (ev.Receive? ==> l.up != [] && l.up[0] == ev.msg) && l.linkUp
    ensures var read := if ev.Receive? then PongNumber(ev.msg) else [];
      var sent := if ev.Beat? then [ev.seqno] else [];
      read + Unanswered(LoopAfter(cfg, s, sid, ev, l)) == Unanswered(l) + sent
  {
    ReplyQueued(cfg, s, sid, ev, l);
    var l' := LoopAfter(cfg, s, sid, ev, l);
    QueuesKeepPings(l.up, l'.up, l.down, l'.down, if ev.Receive? then PongNumber(ev.msg) else [],
                    if ev.Beat? then [ev.seqno] else []);
  }

  lemma OwnServerTurn(cfg: Config, x: Sys, t: Turn)
    requires Connected(x) && Can(x, t.sid, t.act) && !t.act.Client? && t.sid in x.conns
    ensures t.sid in Do(cfg, x, t.sid, t.act).conns
    ensures var l, l' := x.conns[t.sid].loop, Do(cfg, x, t.sid, t.act).conns[t.sid].loop;
      && l'.linkUp == l.linkUp
      && (l'.up == l.up || (l.up != [] && l'.up == l.up[1..]))
      && (l.linkUp ==> PongIn(x, t, t.sid) + Unanswered(l') == Unanswered(l) + BeatIn(t, t.sid))
  {
    EntersOnce(x, t.sid, t.act);
    var ev := EventOf(x, t.sid, t.act);
    if x.conns[t.sid].loop.linkUp {
      ServerKeepsPings(cfg, x.server, t.sid, ev, x.conns[t.sid].loop);
    }
  }

  lemma TurnKeepsPings(cfg: Config, x: Sys, t: Turn, sid: SessionId)
    requires Connected(x) && Can(x, t.sid, t.act) && sid in x.conns
    ensures sid in Do(cfg, x, t.sid, t.act).conns
    ensures var l, l' := x.conns[sid].loop, Do(cfg, x, t.sid, t.act).conns[sid].loop;
      l'.linkUp ==> l.linkUp && PongIn(x, t, sid) + Unanswered(l') == Unanswered(l) + BeatIn(t, sid)
  {
    if t.sid != sid {
      OthersKeepLine(cfg, x, t, sid);
    } else if t.act.Client? {
      if Do(cfg, x, sid, t.act).conns[sid].loop.linkUp {
        ClientKeepsPings(x.conns[sid], t.act.act);
      }
    } else {
      OwnServerTurn(cfg, x, t);
    }
  }

  // ---- every history ----

  /** A link that is up at the end was up all along. */
  lemma {:induction false} LinkWasUp(cfg: Config, x: Sys, turns: seq<Turn>, sid: SessionId)
    requires SysInv(cfg, x) && History(cfg, x, turns) && sid in x.conns
    ensures sid in Final(cfg, x, turns).conns
    ensures Final(cfg, x, turns).conns[sid].loop.linkUp ==> x.conns[sid].loop.linkUp
    decreases |turns|
  {
    if turns != [] {
      var t := turns[0];
      TurnKeepsPings(cfg, x, t, sid);
      SysStep(cfg, x, t.sid, t.act);
      LinkWasUp(cfg, Do(cfg, x, t.sid, t.act), turns[1..], sid);
    }
  }

  lemma Chained(a: seq<nat>, b: seq<nat>, c: seq<nat>, d: seq<nat>, e: seq<nat>, f: seq<nat>, g: seq<nat>)
    requires a + b == c + d && e + f == b + g
    ensures (a + e) + f == c + (d + g)
  {
    assert (a + e) + f == a + (e + f) == a + (b + g) == (a + b) + g == (c + d) + g;
  }

  ghost predicate Balanced(read: seq<nat>, after: seq<nat>, before: seq<nat>, sent: seq<nat>) {
    read + after == before + sent
  }

  lemma LineAfter(cfg: Config, x: Sys, t: Turn, sid: SessionId, x': Sys)
    requires sid in x.conns && Can(x, t.sid, t.act) && x' == Do(cfg, x, t.sid, t.act) && SysInv(cfg, x)
    ensures SysInv(cfg, x') && sid in x'.conns
    ensures var l, l' := x.conns[sid].loop, x'.conns[sid].loop;
      l'.linkUp ==> l.linkUp && Balanced(PongIn(x, t, sid), Unanswered(l'), Unanswered(l), BeatIn(t, sid))
  {
    TurnKeepsPings(cfg, x, t, sid);
    SysStep(cfg, x, t.sid, t.act);
  }

  lemma NothingYet(u: seq<nat>)
    ensures Balanced([], u, u, [])
  {
  }

  lemma BalanceGoesOn(
    cfg: Config, x: Sys, turns: seq<Turn>, sid: SessionId, x': Sys, before: seq<nat>, between: seq<nat>, after: seq<nat>)
    requires History(cfg, x, turns) && turns != [] && x' == Do(cfg, x, turns[0].sid, turns[0].act)
    requires Balanced(PongIn(x, turns[0], sid), between, before, BeatIn(turns[0], sid))
    requires Balanced(PongsRead(cfg, x', turns[1..], sid), after, between, Beats(turns[1..], sid))
    ensures Balanced(PongsRead(cfg, x, turns, sid), after, before, Beats(turns, sid))
  {
    Chained(PongIn(x, turns[0], sid), between, before, BeatIn(turns[0], sid),
            PongsRead(cfg, x', turns[1..], sid), after, Beats(turns[1..], sid));
  }

  /**
   * As long as the link is up every heartbeat the server sends is answered once and in order: the pongs it has read,
   * then the pongs on their way, then the pings not read yet are exactly the heartbeats sent.
   */
  lemma {:induction false} EveryBeatIsAnswered(cfg: Config, x: Sys, turns: seq<Turn>, sid: SessionId, end: Sys)
    requires sid in x.conns && History(cfg, x, turns) && end == Final(cfg, x, turns) && SysInv(cfg, x)
    ensures sid in end.conns
    ensures end.conns[sid].loop.linkUp ==>
      Balanced(PongsRead(cfg, x, turns, sid), Unanswered(end.conns[sid].loop),
               Unanswered(x.conns[sid].loop), Beats(turns, sid))
    decreases |turns|
  {
    if turns == [] {
      NothingYet(Unanswered(x.conns[sid].loop));
    } else {
      var t := turns[0];
      var x' := Do(cfg, x, t.sid, t.act);
      LineAfter(cfg, x, t, sid, x');
      EveryBeatIsAnswered(cfg, x', turns[1..], sid, end);
      LinkWasUp(cfg, x', turns[1..], sid);
      if end.conns[sid].loop.linkUp {
        BalanceGoesOn(cfg, x, turns, sid, x', Unanswered(x.conns[sid].loop), Unanswered(x'.conns[sid].loop),
                      Unanswered(end.conns[sid].loop));
      }
    }
  }

  // ---- a client that keeps up ----

  /** What the session's message loop at the server gets to see in a turn. */
  ghost function SignalIn(x: Sys, t: Turn, sid: SessionId): seq<Signal> {
    if t.sid != sid then []
    else if t.act.Serve? && t.act.ev.Beat? then [Tick]
    else if t.act.Deliver? && sid in x.conns && x.conns[sid].loop.up != [] then [Heard(x.conns[sid].loop.up[0])]
    else []
  }

  ghost function Signals(cfg: Config, x: Sys, turns: seq<Turn>, sid: SessionId): seq<Signal>
    requires History(cfg, x, turns)
    decreases |turns|
  {
    if turns == [] then []
    else SignalIn(x, turns[0], sid) + Signals(cfg, Do(cfg, x, turns[0].sid, turns[0].act), turns[1..], sid)
  }

  /** When a heartbeat is due at most the last two are unanswered: the answer to each comes before the third after it. */
  ghost predicate KeepsUp(cfg: Config, x: Sys, turns: seq<Turn>, sid: SessionId)
    requires History(cfg, x, turns)
    decreases |turns|
  {
    turns == [] || (
      && (BeatIn(turns[0], sid) != [] && sid in x.conns ==> |Unanswered(x.conns[sid].loop)| <= 2)
      && KeepsUp(cfg, Do(cfg, x, turns[0].sid, turns[0].act), turns[1..], sid))
  }

  lemma ClientSendsNoHello(c: Conn, a: ClientAct)
    requires CanAct(c, a) && Hello !in c.loop.up
    ensures Hello !in ClientDo(c, a).loop.up
  {
  }

  lemma NoHelloStays(cfg: Config, x: Sys, t: Turn, sid: SessionId)
    requires Connected(x) && Can(x, t.sid, t.act) && sid in x.conns && Hello !in x.conns[sid].loop.up
    ensures sid in Do(cfg, x, t.sid, t.act).conns && Hello !in Do(cfg, x, t.sid, t.act).conns[sid].loop.up
  {
    if t.sid != sid {
      OthersKeepLine(cfg, x, t, sid);
    } else if t.act.Client? {
      ClientSendsNoHello(x.conns[sid], t.act.act);
    } else {
      OwnServerTurn(cfg, x, t);
    }
  }

  /** What the loop sees in a turn, against the heartbeat sent and the pong read in it. */
  ghost predicate Fits(sig: seq<Signal>, pong: seq<nat>, beat: seq<nat>) {
    || (sig == [] && pong == [] && beat == [])
    || (sig == [Tick] && pong == [] && |beat| == 1)
    || (|sig| == 1 && sig[0].Heard? && !sig[0].msg.Hello? && pong == PongNumber(sig[0].msg) && beat == [])
  }

  lemma SignalFits(x: Sys, t: Turn, sid: SessionId)
    requires Can(x, t.sid, t.act) && sid in x.conns && Hello !in x.conns[sid].loop.up
    ensures Fits(SignalIn(x, t, sid), PongIn(x, t, sid), BeatIn(t, sid))
  {
    if t.sid == sid && t.act.Deliver? {
      assert x.conns[sid].loop.up[0] in x.conns[sid].loop.up;
    }
  }

  function CounterAfter(counter: nat, sig: seq<Signal>): Option<nat> {
    if sig == [] then Some(counter) else Counted(counter, sig[0])
  }

  /** The counter never exceeds the heartbeats unanswered. */
  lemma CountFollows(counter: nat, sig: seq<Signal>, pong: seq<nat>, beat: seq<nat>, before: seq<nat>, after: seq<nat>)
    requires Fits(sig, pong, beat) && pong + after == before + beat && counter <= |before|
    requires beat != [] ==> |before| <= 2
    ensures CounterAfter(counter, sig).Some? && CounterAfter(counter, sig).value <= |after|
  {
    assert |pong| + |after| == |before| + |beat|;
  }

  lemma OneSignalMore(counter: nat, sig: seq<Signal>, rest: seq<Signal>)
    requires |sig| <= 1 && CounterAfter(counter, sig).Some? && !GivenUp(CounterAfter(counter, sig).value, rest)
    ensures !GivenUp(counter, sig + rest)
  {
    if sig == [] {
      assert sig + rest == rest;
    } else {
      assert (sig + rest)[0] == sig[0] && (sig + rest)[1..] == rest;
    }
  }

  /** One turn on a link that stays up. */
  lemma OneTurn(cfg: Config, x: Sys, t: Turn, sid: SessionId, counter: nat, x': Sys)
    requires sid in x.conns && Hello !in x.conns[sid].loop.up && counter <= |Unanswered(x.conns[sid].loop)|
    requires BeatIn(t, sid) != [] ==> |Unanswered(x.conns[sid].loop)| <= 2
    requires Can(x, t.sid, t.act) && x' == Do(cfg, x, t.sid, t.act) && SysInv(cfg, x)
    ensures SysInv(cfg, x') && sid in x'.conns && Hello !in x'.conns[sid].loop.up
    ensures |SignalIn(x, t, sid)| <= 1
    ensures x'.conns[sid].loop.linkUp ==>
      var n := CounterAfter(counter, SignalIn(x, t, sid)); n.Some? && n.value <= |Unanswered(x'.conns[sid].loop)|
  {
    TurnKeepsPings(cfg, x, t, sid);
    NoHelloStays(cfg, x, t, sid);
    SignalFits(x, t, sid);
    if x'.conns[sid].loop.linkUp {
      CountFollows(counter, SignalIn(x, t, sid), PongIn(x, t, sid), BeatIn(t, sid),
                   Unanswered(x.conns[sid].loop), Unanswered(x'.conns[sid].loop));
    }
    SysStep(cfg, x, t.sid, t.act);
  }

  /**
   * Over any history of the whole system, as long as the link is up: a client that reads its pings, and whose answer
   * to each arrives before the third heartbeat after it, is never given up.
   */
  lemma {:induction false} AliveIsNeverGivenUp(cfg: Config, x: Sys, turns: seq<Turn>, sid: SessionId, counter: nat)
    requires sid in x.conns && Hello !in x.conns[sid].loop.up && counter <= |Unanswered(x.conns[sid].loop)|
    requires SysInv(cfg, x) && History(cfg, x, turns) && KeepsUp(cfg, x, turns, sid)
    requires sid in Final(cfg, x, turns).conns && Final(cfg, x, turns).conns[sid].loop.linkUp
    ensures !GivenUp(counter, Signals(cfg, x, turns, sid))
    decreases |turns|
  {
    if turns != [] {
      var t := turns[0];
      var x' := Do(cfg, x, t.sid, t.act);
      OneTurn(cfg, x, t, sid, counter, x');
      LinkWasUp(cfg, x', turns[1..], sid);
      var sig := SignalIn(x, t, sid);
      AliveIsNeverGivenUp(cfg, x', turns[1..], sid, CounterAfter(counter, sig).value);
      OneSignalMore(counter, sig, Signals(cfg, x', turns[1..], sid));
    }
  }

  // ---- what else a message does to the loop ----

  /**
   * A ping of the client's is answered with its number and is no sign of life; every other message is one, but for a
   * second hello, which ends the loop.
   */
  lemma MessagesAreHeard(cfg: Config, s: Server, sid: SessionId, msg: ClientMsg, check: DomainCheck, counter: nat)
    requires Enabled(s, sid, Receive(msg, check))
    ensures msg.ClientPing? ==> Reply(cfg, s, sid, Receive(msg, check)) == Some(ServerPong(msg.seqno))
    ensures msg.ClientPing? ==> Counted(counter, Heard(msg)) == Some(counter)
    ensures !msg.ClientPing? && !msg.Hello? ==> Counted(counter, Heard(msg)) == Some(0)
    ensures Counted(counter, Heard(msg)) == None <==> Step(cfg, s, sid, Receive(msg, check)).tasks[sid].pc.Leaving?
    ensures !msg.OpenTunnel? ==>
      Step(cfg, s, sid, Receive(msg, check)).table == s.table && Step(cfg, s, sid, Receive(msg, check)).pool == s.pool
    ensures msg.CloseTunnel? ==> Step(cfg, s, sid, Receive(msg, check)).tasks[sid].pc == Closing(msg.id)
  {
  }

  /** A session that is kicked is told so, and its client's loop ends with every call answered. */
  lemma KickEndsTheLoop(cfg: Config, s: Server, sid: SessionId, c: Conn)
    requires Enabled(s, sid, Leave(true)) && c.loop.linkUp && c.loop.running && c.loop.down == []
    ensures Step(cfg, s, sid, Leave(true)).tasks[sid].pc.Leaving?
    ensures var l := LoopAfter(cfg, s, sid, Leave(true), c.loop);
      l.down == [Kick] && !AfterMessage(c.(loop := l)).loop.running && !AfterMessage(c.(loop := l)).loop.linkUp
  {
  }
}
