/** The client's control loop and the queues around it (crates/cy-core/src/client.rs). */
module ControlLoop {
  import opened Basics
  import opened Registry
  import opened ControlMessages

  datatype Spec = Spec(name: string, localPort: Port, kind: Kind, auth: Option<string>, customDomain: Option<string>)

  /** What the caller of `open_tunnel` gets; a refusal without a code is a local one. */
  datatype Answer = Granted(public: Endpoint) | Refusal(code: Option<Code>)

  /** `ticket` names the reply channel of one open call. */
  datatype Command = Open(spec: Spec, ticket: nat) | Close(name: string)

  datatype Pending = Pending(name: string, localPort: Port, ticket: nat)

  datatype LocalRoute = LocalRoute(localPort: Port, name: string)

  /** How many commands the channel into the loop holds. */
  const COMMAND_QUEUE := 32

  /** The loop's variables and the wire: messages sent and not read yet, in both directions. */
  datatype Loop = Loop(
    running: bool,
    rejected: bool,                          // left through the connection-level error exit
    nextId: TunnelId,
    pending: map<TunnelId, Pending>,
    byName: map<string, TunnelId>,
    ports: map<TunnelId, LocalRoute>,
    up: seq<ClientMsg>,
    down: seq<ServerMsg>,
    linkUp: bool)

  /** The calls made on the connection: commands not taken yet, tickets handed out, answers given. */
  datatype Calls = Calls(commands: seq<Command>, nextTicket: nat, answers: map<nat, Answer>)

  datatype Conn = Conn(loop: Loop, calls: Calls)

  const NEW_LOOP := Loop(true, false, 1, map[], map[], map[], [], [], true)
  const NEW_CONN := Conn(NEW_LOOP, Calls([], 0, map[]))

  function PendingTickets(pending: map<TunnelId, Pending>): set<nat> {
    set id | id in pending :: pending[id].ticket
  }

  function QueuedTickets(commands: seq<Command>): set<nat> {
    set k | k in commands && k.Open? :: k.ticket
  }

  function RefuseAll(tickets: set<nat>): map<nat, Answer> {
    map t | t in tickets :: Refusal(None)
  }

  lemma RefuseInTurn(answers: map<nat, Answer>, first: set<nat>, second: set<nat>)
    ensures answers + RefuseAll(first) + RefuseAll(second) == answers + RefuseAll(first + second)
  {
  }

  /** Leaving the loop closes the link. */
  function Halted(l: Loop): Loop {
    l.(running := false, pending := map[], linkUp := false)
  }

  /** Leaving the loop: pending calls are told, queued ones see their channel dropped. */
  function Stopped(c: Conn): Conn {
    Conn(Halted(c.loop),
         c.calls.(commands := [],
                  answers := c.calls.answers + RefuseAll(PendingTickets(c.loop.pending) + QueuedTickets(c.calls.commands))))
  }

  /** A call to `open_tunnel`: queued while the loop runs, refused on the spot afterwards. */
  function Submitted(c: Conn, spec: Spec): Conn {
    var t := c.calls.nextTicket;
    c.(calls := if c.loop.running
                then Calls(c.calls.commands + [Open(spec, t)], t + 1, c.calls.answers)
                else Calls(c.calls.commands, t + 1, c.calls.answers[t := Refusal(None)]))
  }

  function SubmittedClose(c: Conn, name: string): Conn {
    if c.loop.running then c.(calls := c.calls.(commands := c.calls.commands + [Close(name)])) else c
  }

  function OpenRequest(id: TunnelId, spec: Spec): ClientMsg {
    OpenTunnel(id, spec.kind, spec.name, spec.customDomain, spec.auth, None)
  }

  function Requested(l: Loop, spec: Spec, ticket: nat): Loop {
    l.(nextId := l.nextId + 1, up := l.up + [OpenRequest(l.nextId, spec)],
       pending := l.pending[l.nextId := Pending(spec.name, spec.localPort, ticket)])
  }

  function Forgotten(l: Loop, name: string): Loop
    requires name in l.byName
  {
    var id := l.byName[name];
    l.(byName := l.byName - {name}, ports := l.ports - {id}, up := if l.linkUp then l.up + [CloseTunnel(id)] else l.up)
  }

  function Answered(calls: Calls, ticket: nat, answer: Answer): Calls {
    calls.(answers := calls.answers[ticket := answer])
  }

  function AfterCommand(c: Conn): Conn
    requires c.loop.running && c.calls.commands != []
  {
    var calls := c.calls.(commands := c.calls.commands[1..]);
    match c.calls.commands[0]
    case Open(spec, ticket) =>
      if c.loop.linkUp then Conn(Requested(c.loop, spec, ticket), calls)
      else Stopped(Conn(c.loop.(nextId := c.loop.nextId + 1), Answered(calls, ticket, Refusal(None))))
    case Close(name) => Conn(if name in c.loop.byName then Forgotten(c.loop, name) else c.loop, calls)
  }

  /** The request of `id` was granted: it leaves `pending` for the port map. */
  function Installed(l: Loop, id: TunnelId): Loop
    requires id in l.pending
  {
    var p := l.pending[id];
    l.(pending := l.pending - {id}, ports := l.ports[id := LocalRoute(p.localPort, p.name)], byName := l.byName[p.name := id])
  }

  function AfterMessage(c: Conn): Conn
    requires c.loop.running && c.loop.down != []
  {
    var l := c.loop.(down := c.loop.down[1..]);
    match c.loop.down[0]
    case ServerPing(n) =>
      if l.linkUp then c.(loop := l.(up := l.up + [ClientPong(n)])) else Stopped(c.(loop := l))
    case TunnelOpened(id, public) =>
      if id in l.pending then Conn(Installed(l, id), Answered(c.calls, l.pending[id].ticket, Granted(public)))
      else c.(loop := l)
    case Failure(code, subject) =>
      if subject.Some? && subject.value in l.pending
      then Conn(l.(pending := l.pending - {subject.value}),
                Answered(c.calls, l.pending[subject.value].ticket, Refusal(Some(code))))
      else
        var over := Stopped(c.(loop := l));
        over.(loop := over.loop.(rejected := true))
    case Kick => Stopped(c.(loop := l))
    case _ => c.(loop := l)
  }

  /** Messages still in flight when the link breaks may be lost from the back. */
  function Broken(l: Loop, keepUp: nat, keepDown: nat): Loop
    requires keepUp <= |l.up| && keepDown <= |l.down|
  {
    l.(linkUp := false, up := l.up[..keepUp], down := l.down[..keepDown])
  }

  /**
   * The loop's own state. `View` puts it together with the queues it reads from and writes to; the
   * methods are the arms of its select.
   */
  class ControlLoop {
    var running: bool
    var rejected: bool
    var nextId: TunnelId
    var pending: map<TunnelId, Pending>
    var byName: map<string, TunnelId>
    var ports: map<TunnelId, LocalRoute>
    var commands: seq<Command>
    var up: seq<ClientMsg>
    var down: seq<ServerMsg>
    var linkUp: bool
    var nextTicket: nat
    var answers: map<nat, Answer>

    ghost function View(): Conn
      reads this
    {
      Conn(Loop(running, rejected, nextId, pending, byName, ports, up, down, linkUp), Calls(commands, nextTicket, answers))
    }

    constructor ()
      ensures View() == NEW_CONN
    {
      running, rejected, nextId := true, false, 1;
      pending, byName, ports := map[], map[], map[];
      commands, up, down, linkUp := [], [], [], true;
      nextTicket, answers := 0, map[];
    }

    method RefuseEach(tickets: set<nat>)
      modifies this`answers
      ensures answers == old(answers) + RefuseAll(tickets)
    {
      var rest := tickets;
      while rest != {}
        invariant rest <= tickets
        invariant answers == old(answers) + RefuseAll(tickets - rest)
        decreases |rest|
      {
        var t :| t in rest;
        assert tickets - (rest - {t}) == (tickets - rest) + {t};
        answers := answers[t := Refusal(None)];
        rest := rest - {t};
      }
      assert tickets - rest == tickets;
    }

    /** After the loop: every call still waiting gets an answer. */
    method Stop()
      modifies this
      ensures View() == Stopped(old(View()))
    {
      running, linkUp := false, false;
      RefuseEach(PendingTickets(pending));
      // the receiver goes out of scope, and with it the reply channels of the queued calls
      RefuseEach(QueuedTickets(commands));
      RefuseInTurn(old(answers), PendingTickets(pending), QueuedTickets(commands));
      commands, pending := [], map[];
    }

    /**
     * An open is sent under a fresh number with everything its caller said; a close of an open tunnel is sent under
     * that tunnel's number.
     */
    method HandleCommand()
      requires running && commands != []
      modifies this
      ensures View() == AfterCommand(old(View()))
      ensures old(commands)[0].Open? && old(linkUp) ==>
        var spec, ticket := old(commands)[0].spec, old(commands)[0].ticket;
        && up == old(up) + [OpenTunnel(old(nextId), spec.kind, spec.name, spec.customDomain, spec.auth, None)]
        && pending == old(pending)[old(nextId) := Pending(spec.name, spec.localPort, ticket)]
        && nextId == old(nextId) + 1 && running
      ensures old(commands)[0].Open? && !old(linkUp) ==> !running && old(commands)[0].ticket in answers
      ensures old(commands)[0].Close? && old(commands)[0].name in old(byName) ==>
        var name, id := old(commands)[0].name, old(byName)[old(commands)[0].name];
        && name !in byName && id !in ports
        && up == (if old(linkUp) then old(up) + [CloseTunnel(id)] else old(up))
    {
      var cmd := commands[0];
      commands := commands[1..];
      match cmd
      case Open(spec, ticket) =>
        var id := nextId;
        nextId := nextId + 1;
        if !linkUp {
          answers := answers[ticket := Refusal(None)];
          Stop();
        } else {
          up := up + [OpenRequest(id, spec)];
          pending := pending[id := Pending(spec.name, spec.localPort, ticket)];
        }
      case Close(name) =>
        if name in byName {
          var id := byName[name];
          byName := byName - {name};
          ports := ports - {id};
          if linkUp {
            up := up + [CloseTunnel(id)];
          }
        }
    }

    /**
     * A ping is answered with its number; a grant opens the tunnel and a refusal does not, and both answer the caller.
     * An error about no request of this client, and the switch, end the loop: nobody is left waiting. Anything else is
     * read and passed over.
     */
    method HandleMessage()
      requires running && down != []
      modifies this
      ensures View() == AfterMessage(old(View()))
      ensures old(down)[0].ServerPing? && old(linkUp) ==> running && up == old(up) + [ClientPong(old(down)[0].seqno)]
      ensures old(down)[0].TunnelOpened? && old(down)[0].id in old(pending) ==>
        var id, p := old(down)[0].id, old(pending)[old(down)[0].id];
        && ports == old(ports)[id := LocalRoute(p.localPort, p.name)] && byName == old(byName)[p.name := id]
        && answers == old(answers)[p.ticket := Granted(old(down)[0].public)] && pending == old(pending) - {id}
      ensures old(down)[0].Failure? && old(down)[0].subject.Some? && old(down)[0].subject.value in old(pending) ==>
        var id, p := old(down)[0].subject.value, old(pending)[old(down)[0].subject.value];
        && ports == old(ports) && byName == old(byName)
        && answers == old(answers)[p.ticket := Refusal(Some(old(down)[0].code))] && pending == old(pending) - {id}
      ensures old(down)[0].Failure? && (old(down)[0].subject.Some? ==> old(down)[0].subject.value !in old(pending)) ==>
        !running && rejected && !linkUp && forall t <- PendingTickets(old(pending)) :: t in answers
      ensures old(down)[0].Kick? ==>
        !running && rejected == old(rejected) && !linkUp && forall t <- PendingTickets(old(pending)) :: t in answers
      ensures old(down)[0].Welcome? || old(down)[0].ServerPong? || old(down)[0].ServerUnknown?
              || (old(down)[0].TunnelOpened? && old(down)[0].id !in old(pending)) ==>
        && running && up == old(up) && pending == old(pending) && answers == old(answers)
        && ports == old(ports) && byName == old(byName) && linkUp == old(linkUp)
      ensures old(down)[1..] == down
    {
      var msg := down[0];
      down := down[1..];
      match msg
      case ServerPing(n) =>
        if linkUp {
          up := up + [ClientPong(n)];
        } else {
          Stop();
        }
      case TunnelOpened(id, public) =>
        if id in pending {
          var p := pending[id];
          pending := pending - {id};
          ports := ports[id := LocalRoute(p.localPort, p.name)];
          byName := byName[p.name := id];
          answers := answers[p.ticket := Granted(public)];
        }
      case Failure(code, subject) =>
        if subject.Some? && subject.value in pending {
          var p := pending[subject.value];
          pending := pending - {subject.value};
          answers := answers[p.ticket := Refusal(Some(code))];
        } else {
          Stop();
          rejected := true;
        }
      case Kick => Stop();
      case Welcome =>
      case ServerPong(_) =>
      case ServerUnknown =>
    }
  }
}
