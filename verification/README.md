# Verified model of the tunnel service

The repository lets developers reach local services through a public server. This project models, in Dafny 4.11,
how its server, its client and the client's engine keep their books, and proves that the books stay right.
`dafny verify dfyconfig.toml` checks the whole project.

## How it is laid out

* **Server.** `Registry` and `PortPool` are the two separately locked tables, as classes verified against
  functions on their contents. `ServerMachine` interleaves any number of sessions over them, one lock section a
  step, with a program counter for each session. `ServerOwnership` is the invariant: who owns a leased port at
  each step. `ServerEffects`, `ServerTheorems`, `ServerProgress`, `ServerRoutes` and `ServerLeases` draw the
  consequences; `ReusedIds` shows what goes wrong when a client uses an id twice; `Heartbeats` puts a silent session
  on the server's clock. `ServerHandlers` has the handling of one message as sequential code. `FailureTracker` is
  the lock-out of addresses.
* **Protocol.** `ControlLoop` is the client's control loop with its two queues, as a class and as functions.
  `TunnelProtocol` states the agreement of one client with its session, `TunnelSystem` puts all clients and the
  server together, `ProtocolTheorems` says what holds in every state the whole system can reach, `Pings` what
  becomes of heartbeats. No assumption about ids is left there: the client's counter provides what the server alone
  has to assume.
* **Engine.** `TunnelState` (the stored tunnels), `TakenRetries` (retries of names still held), `StatusBoard` (the
  status rows) and `Connects` (local ports mapped to other tunnels) are classes verified against functions.
  `Engine` is the session loop as one more actor of the whole system, waiting where the source awaits;
  `EngineProofs`, `EngineShown`, `EngineHistory` and `EngineRetries` have its results; `EngineOutbox` says what it asks
  of its connection and `EngineRoutes` what the server then routes; `EngineSwitching` is what becomes of a tunnel
  switched on while it is up. `Reclaim` sets the client's retries against the server's clock, and `EngineReclaim`
  shows that they are the engine's.
* **Streams and texts.** `MuxDriver` is the driver of the multiplexed connection, `Exchange` and `Inspector` the
  recognising, recording and replaying of requests, `HeadRewrite` the head sent upstream, `HttpText` what these
  share about lines, blank lines and UTF-8, and `Naming` the host names.

Where the source changes an object step by step the model has a class whose methods are proved to do what a
function on values says; the results about runs and histories are proved about those functions.

## How to read it

* Ids the source writes as `s1`, `t1` and so on are the numbers alone. A session id is never used twice.
* Addresses are hosts or ports; the constant scheme and the constant public host name are left away.
* Login yields a user; the tunnel limit is a fixed function of the user; who owns a custom domain, which ports
  the operating system lets the server bind, and what the multiplexed connection answers are inputs.
* Time is in milliseconds on a clock that never runs backwards.
* The stored tunnels and the booked retries are walked in the order of their names, as the source's ordered maps
  are. Its hash maps are walked in any order here, and a lookup that takes the first match may take any match.
* A lease in the model also records on whose behalf it was taken. The source stores the cancel token only; the
  rest is there to say who owns what.
* A broken link is modelled as cutting both queues anywhere: what was sent may be lost from the back.
* A ping from the client does not count as a sign of life at the server, exactly as in the source; a pong, an
  open, a close and an unknown message do.
* The message format (crates/cy-proto/src/control.rs:63) says that a requested port of 0 asks for any port. The
  code treats 0 as a port like any other; the model follows the code, and `PortPool.ZeroIsNotAnyPort` says exactly
  when a request for 0 is answered like no request for a port.
* A port is released before its route goes, so two routes can record the same port for a moment. Ownership is
  therefore stated with the position each session is at.
* Re-adding a tunnel that is up on the same port does not reopen it. Switching on a tunnel that is up asks the server
  again without closing first (crates/cy-core/src/engine.rs:688-695): the server refuses, and the address goes off
  the row of a tunnel that stays open. `EngineSwitching` has that history and says exactly when it happens;
  `EngineShown` proves that open tunnels are shown for a user who does not do this.
* An old connection is reclaimed in `Reclaim` as long as nobody else takes the host or adds to the hosts of its user.
  Clean-up takes no time on the clock of `Heartbeats`.
* With several Host lines in a request every one of them is rewritten, so the head sent has as many.

## Model

| member | source | states |
|---|---|---|
| `ServerTheorems.OneOwnerPerPort` | crates/cy-server/src/ingress_tcp.rs:68-117 | in every reachable interleaving a public port is leased exactly when some tunnel owns it (its lease call is under way, or its route holds it and is not past its release), and it has one owner only |
| `ServerTheorems.ReleaseFreesOwnPort` | crates/cy-server/src/control.rs:337-348 | every `release` frees a port that a route of the caller still owns, frees nothing else, and leaves no accept loop on it |
| `ServerTheorems.BindSeesItsOwnPlaceholder` | crates/cy-server/src/ingress_tcp.rs:68-103 | between reserving and recording, the placeholder in the table is the caller's own: a failed bind takes back only that one, and looking up the token just inserted never fails |
| `ServerTheorems.AcceptLoopServesItsTunnel` | crates/cy-server/src/ingress_tcp.rs:81-89 | a running accept loop sits on a leased port, alone, and its host key leads to the very tunnel the port was leased for |
| `ServerTheorems.GoneLeavesNothing` | crates/cy-server/src/control.rs:230-240 | after clean-up, however the message loop ended, no route, user-index entry, lease or accept loop belongs to the session |
| `ServerTheorems.AllGoneAllFree` | crates/cy-server/src/control.rs:235-240 | when all sessions have ended the pool and the routing table are empty and no accept loop runs |
| `ServerTheorems.OthersUntouched` | crates/cy-server/src/registry.rs:103-114 | any number of steps of one session leave every other session's routes, leases and position as they were |
| `ServerTheorems.NeverStuck` | crates/cy-server/src/control.rs:258-357 | until it is gone every session has an enabled next step: no handling is ever stuck |
| `ServerProgress.HandlingIsBounded` | crates/cy-server/src/control.rs:258-357 | however the sessions interleave, a handling or a clean-up is over after a number of the session's own steps that is fixed when it begins, and neither turns into the other |
| `ServerProgress.HandlingCanFinish` | crates/cy-server/src/control.rs:230-240 | from any reachable state a session's own steps alone bring it back to its message loop, or, once it is cleaning up, to its end |
| `ServerTheorems.CloseBalancesExactlyWhen` | crates/cy-server/src/control.rs:337-342 | a close looks its id up twice; the port books balance for every choice of matches if and only if no two different routes stand under the id with a port on either |
| `ServerTheorems.RefusalBalancesExactlyWhen` | crates/cy-server/src/control.rs:508-512 | a refused TCP request looks its id up once more to take its route back; the books balance for every match if and only if no route under the id holds a port |
| `ReusedIds.ReusedIdFreesAnothersPort` | crates/cy-server/src/control.rs:330-348 | the server does not check ids: a concrete run in which a session opens two tunnels under one id, closes it and leaves, and its clean-up frees a port that another session's open tunnel owns |
| `ReusedIds.ReusedIdLeaksItsPort` | crates/cy-server/src/control.rs:508-512 | a concrete run without any close: a second request under an id in use is refused and takes the first route back, and when the session has ended its port is still leased to it |
| `ServerTheorems.HttpOpenIsDecided` | crates/cy-server/src/control.rs:361-444 | an HTTP request is granted exactly when its name is valid, its domain the caller's, its host free and the user under the limit; then the host is routed to the session with the message's id, name and password; otherwise nothing changes and the code is that of the first check failed |
| `ServerRoutes.EveryRouteWasAskedFor` | crates/cy-server/src/control.rs:361-518 | in every reachable state every route is, field by field, what an open request of its session asked for: host, session, id, name, kind and password |
| `ServerRoutes.StandingRouteStays` | crates/cy-server/src/control.rs:361-518 | as long as a route stands, nothing anybody does changes it but for its port |
| `ServerRoutes.PortsAreForTcp` | crates/cy-server/src/registry.rs:152-157 | in every reachable state only TCP routes hold a port |
| `ServerRoutes.SessionsLoggedIn` | crates/cy-server/src/control.rs:98-242 | a session is the one who logged in as it, for good |
| `ServerLeases.LeaseComesToItsAnswer` | crates/cy-server/src/ingress_tcp.rs:53-105 | step by step with nobody in between, a session's lease walks on past ports that are held or cannot be bound and comes to exactly what one lease call answers, with the port leased or the code for the error |
| `ServerLeases.LeaseIsAnswered` | crates/cy-server/src/control.rs:484-518 | and its next step records the port or takes a route back, and tells the client so |
| `ServerOwnership.InvStep` | crates/cy-server/src/control.rs:258-357 | the whole invariant (registry consistent, one owner per port, tokens unique, accept loops where they belong) survives every lock section of every session |
| `ServerOwnership.InvAlways` | crates/cy-server/src/control.rs:98-242 | the invariant holds along every run of the server |
| `ServerOwnership.StepIsLocal` | crates/cy-server/src/control.rs:258-357 | a step of one session keeps that session's own ownership invariant and touches nobody else's share |
| `ServerOwnership.LocalListPorts` | crates/cy-server/src/control.rs:235-239 | the ports listed for clean-up are exactly the session's leases, each once |
| `ServerOwnership.ListenersStep` | crates/cy-server/src/ingress_tcp.rs:81-117 | accept loops run on exactly the leased ports whose bind is past, through every step |
| `ServerHandlers.Handler.OpenTcpTunnel` | crates/cy-server/src/control.rs:450-518 | all or nothing: a granted port was the first one free and bindable (or the one asked for), is leased for this route, and the route carries the message's id, name and password; a refusal leaves the leases as they were and takes back one route under the id, which is the new one if the id was unused; the code tells the reason |
| `ServerHandlers.Handler.CloseTunnel` | crates/cy-server/src/control.rs:337-348 | one route under the id goes and the port of one route under the id is freed; with ids unique in the session they are the same route |
| `ServerHandlers.Handler.CleanUp` | crates/cy-server/src/control.rs:230-240 | frees exactly the ports its routes record and unregisters the session; between messages of a session whose books are right those are its leases, and nobody else loses one |
| `ServerHandlers.ListedAreLeased` | crates/cy-server/src/registry.rs:169-175 | between messages the ports recorded on a session's routes are exactly the ports it leases, each once |
| `ServerHandlers.CloseUndoesOpen` | crates/cy-server/src/control.rs:450-518 | closing what was just opened puts both tables back and cancels that lease's token only |
| `Registry.Registry.Register` | crates/cy-server/src/registry.rs:89-100 | adds the session and its index entry, nothing else |
| `Registry.Registry.Unregister` | crates/cy-server/src/registry.rs:103-114 | removes the session, its index entry (dropping an empty group) and exactly its routes |
| `Registry.Registry.OpenTunnel` | crates/cy-server/src/registry.rs:117-136 | taken, limit reached or opened, decided in that order on the lower-cased host; only the last changes the table |
| `Registry.Registry.CloseTunnel` | crates/cy-server/src/registry.rs:139-149 | removes one matching route of this session, or nothing when there is none |
| `Registry.Registry.SetTcpPort` | crates/cy-server/src/registry.rs:152-157 | records the port on an existing route only |
| `Registry.Registry.TcpPortOf` | crates/cy-server/src/registry.rs:160-166 | the port of some matching route of this session |
| `Registry.Registry.TcpPortsOfSession` | crates/cy-server/src/registry.rs:169-175 | the ports of exactly the session's routes that hold one |
| `Registry.LookupsFollow` | crates/cy-server/src/registry.rs:178-182 | a lookup, in any spelling, leads to a live session; opening makes the tunnel the answer for its host alone; ending a session takes away exactly the answers that led to it |
| `Registry.Registry.KickUser` | crates/cy-server/src/registry.rs:185-198 | fires the cancel switch of exactly the user's live sessions and counts them |
| `Registry.RegisterKeepsConsistent` | crates/cy-server/src/registry.rs:89-100 | the user index stays exactly the grouping of live sessions, routes stay live and lower-case, every user stays within the limit |
| `Registry.UnregisterKeepsConsistent` | crates/cy-server/src/registry.rs:103-114 | the same, and nothing of the session is left while others keep their routes |
| `Registry.OpenKeepsConsistent` | crates/cy-server/src/registry.rs:117-136 | the same for opening, given the user's fixed limit |
| `Registry.CloseKeepsConsistent` | crates/cy-server/src/registry.rs:139-149 | the same for closing |
| `Registry.SetPortKeepsConsistent` | crates/cy-server/src/registry.rs:152-157 | the same for recording a port |
| `PortPool.PortPool.LeasePort` | crates/cy-server/src/ingress_tcp.rs:53-105 | the first free and bindable port of the range, or the one asked for; each error exactly under its condition; a failed call leaves the leases as they were |
| `PortPool.PortPool.Place` | crates/cy-server/src/ingress_tcp.rs:70-79 | reserves a port and its fresh token under the lock, unless it is held |
| `PortPool.PortPool.Release` | crates/cy-server/src/ingress_tcp.rs:108-117 | removes the lease and cancels its token; nothing for a free port |
| `PortPool.ZeroIsNotAnyPort` | crates/cy-server/src/ingress_tcp.rs:59-65 | a request for port 0 comes to what no request for a port comes to, as the message format promises, if and only if 0 is in the pool, free and bindable; for the usual pool it is turned away |
| `ServerHandlers.ZeroIsAnsweredAlike` | crates/cy-proto/src/control.rs:63-65 | the client is answered alike under exactly the same condition |
| `ProtocolTheorems.TablesAgree` | crates/cy-core/src/client.rs:435-502 | while the link is up every id the server routes is being opened or closed, or is in the client's port map, or has its grant or its close queued; and every id in the port map is routed while the session is registered |
| `ProtocolTheorems.QueuedGrantsAreTrue` | crates/cy-server/src/control.rs:328-336 | a grant not read yet names a host or port the server routes for that very id |
| `ProtocolTheorems.EveryCallHasOnePlace` | crates/cy-core/src/client.rs:222-231 | every open call is queued, pending or answered, exactly one of them; once the loop has ended, answered |
| `ProtocolTheorems.AnswersAreFinal` | crates/cy-core/src/client.rs:442-540 | over any history of the whole system an answer given is never given again or changed |
| `ProtocolTheorems.NoUnplacedError` | crates/cy-core/src/client.rs:503-523 | against this server an error message always finds its request: the exit for connection-level errors is never taken |
| `ProtocolTheorems.RepliesMatchRequests` | crates/cy-server/src/control.rs:328-336 | the server answers each request once and in order: its steps leave the sequence of ids in flight as it is, and the client waits for precisely those |
| `ProtocolTheorems.ReachedServerIsReachable` | crates/cy-core/src/client.rs:443 | the client's counter discharges the assumption that ids are unique within a session, so all server results hold for the whole system |
| `ProtocolTheorems.HistoryIsServerRun` | crates/cy-server/src/control.rs:258-357 | every history of the whole system, seen from the server, is a run of the server with unused ids |
| `Pings.EveryBeatIsAnswered` | crates/cy-core/src/client.rs:474-477 | over any history, as long as the link is up: the pongs the server has read, the pongs on their way and the pings not read yet are, in this order, exactly the heartbeats sent |
| `Pings.AliveIsNeverGivenUp` | crates/cy-server/src/control.rs:290-353 | a client that reads its pings, and whose answer to each arrives before the third heartbeat after it, is never given up |
| `Pings.MessagesAreHeard` | crates/cy-server/src/control.rs:323-353 | a client's ping is answered with its number and is no sign of life; every other message is one, but for a second hello, which ends the loop |
| `Pings.KickEndsTheLoop` | crates/cy-server/src/control.rs:295-301 | a kicked session is told so and its client's loop ends |
| `TunnelProtocol.ServerAgrees` | crates/cy-server/src/control.rs:321-348 | whatever a server step does to one session, the agreement of the two route tables survives it |
| `TunnelProtocol.InstallAgrees` | crates/cy-core/src/client.rs:487-502 | so does reading a grant, which always finds its pending request |
| `TunnelProtocol.GrantNamesExactlyWhen` | crates/cy-core/src/client.rs:487-502 | a name leads to every open tunnel of that name after a grant if and only if none was open under it before |
| `TunnelProtocol.RefusalAgrees` | crates/cy-core/src/client.rs:503-523 | so does reading a refusal, which always finds its pending request |
| `TunnelProtocol.RequestAgrees` | crates/cy-core/src/client.rs:442-457 | so does sending a request |
| `TunnelProtocol.ForgetAgrees` | crates/cy-core/src/client.rs:458-463 | so does a close |
| `TunnelProtocol.BreakAgrees` | crates/cy-core/src/client.rs:466-472 | so does losing the link with messages still in the queues |
| `TunnelProtocol.QueuedGrantsAreSettled` | crates/cy-server/src/control.rs:328-348 | an id with a grant queued is neither being opened nor being closed |
| `TunnelSystem.EventMoves` | crates/cy-server/src/control.rs:258-518 | each server step does to its session's routes and queues only what the agreement allows for |
| `TunnelSystem.SysStep` | crates/cy-core/src/client.rs:420-541 | the agreement of all clients with the server, and the books on all calls, survive every move of anybody |
| `TunnelSystem.ClientsUseFreshIds` | crates/cy-core/src/client.rs:443 | an id on the wire is never one the server still routes for the session |
| `TunnelSystem.ClientActTicketed` | crates/cy-core/src/client.rs:434-541 | no move of the loop loses a call or answers one twice |
| `ControlLoop.ControlLoop.HandleCommand` | crates/cy-core/src/client.rs:440-465 | the command arm of the loop, including the failed send |
| `ControlLoop.ControlLoop.HandleMessage` | crates/cy-core/src/client.rs:466-530 | a ping is answered with its number, a grant opens the tunnel and answers its caller, a refusal answers it and opens nothing; an error about no request and the switch end the loop and leave nobody waiting; anything else changes nothing |
| `ControlLoop.ControlLoop.Stop` | crates/cy-core/src/client.rs:535-540 | leaving the loop answers every pending and every queued call |
| `EngineProofs.ShownAddressesAreReal` | crates/cy-core/src/engine.rs:521-712 | a row showing an address, unless its open is awaited just now, names a configured and enabled tunnel; the client maps its id to exactly the port shown; and the server routes the address to it while the session is registered |
| `EngineProofs.NothingShownWhenDown` | crates/cy-core/src/engine.rs:430-435 | without a session no row shows an address |
| `EngineShown.OpenTunnelsAreShown` | crates/cy-core/src/engine.rs:521-712 | the converse, over any history in which the tunnel is never switched on while its row shows an address: as long as the client's loop runs a row not being waited for shows an address if and only if the client has the tunnel open and is not closing it, and no second tunnel of the name is open |
| `EngineShown.RoutesAreShown` | crates/cy-core/src/engine.rs:521-712 | for such a user, whenever all is quiet, the server's routes for the session are exactly the tunnels whose rows show an address |
| `EngineShown.ShownLasts` | crates/cy-core/src/engine.rs:521-712 | every action of anybody keeps it but that one: switching on what is shown to be up |
| `EngineSwitching.SwitchedOnIsShownExactlyWhen` | crates/cy-core/src/engine.rs:688-695 | switching a tunnel on, with nobody else moving, ends with an address on its row if and only if the host it asks for is free, the user under the limit, name and domain in order; otherwise the server and the client's tables are as before and the row shows nothing |
| `EngineSwitching.SwitchingOnHidesWhatIsUp` | crates/cy-core/src/engine.rs:688-695 | so a tunnel that is up where it is stored to be stays open and routed and its row shows no address any more |
| `EngineSwitching.AnOpenTunnelIsNotShown` | crates/cy-core/src/engine.rs:688-695 | a history of that kind from the very beginning: connect, add a tunnel, switch it on again |
| `EngineSwitching.SwitchingOnTwiceLosesTheFirst` | crates/cy-core/src/client.rs:487-502 | granted once more under another host, the name leads to the new tunnel only: the older one can no longer be closed |
| `EngineProofs.HonestyLasts` | crates/cy-core/src/engine.rs:521-712 | this survives every action of the engine and every move of the rest of the system |
| `EngineProofs.CommandsShowTheTruth` | crates/cy-core/src/engine.rs:609-709 | every command handled while the session is up leaves what is shown true: whatever is not reopened keeps its row, whatever is reopened waits for its answer, whatever is closed shows nothing |
| `EngineOutbox.CommandsPut` | crates/cy-core/src/engine.rs:609-709 | which opens and closes each command puts on the connection: those it is about, with what is stored by then, and nothing else |
| `EngineOutbox.CommandsShow` | crates/cy-core/src/engine.rs:586-709 | whose row, address, guard mark and retry each command touches at once |
| `EngineOutbox.OfflineCommandsShow` | crates/cy-core/src/engine.rs:906-1012 | the same between sessions |
| `EngineOutbox.SessionsComeAndGo` | crates/cy-core/src/engine.rs:430-435 | a connection found dead is let go of with every address; a new one starts with retries timed by its own heartbeat |
| `EngineOutbox.OpensCarryTheLog` | crates/cy-core/src/engine.rs:521-712 | over any history, whatever opens a tunnel, a command, a reconnect or a retry: the open carries the last port, password and domain the commands so far gave it, and the tunnel is one they left on |
| `EngineProofs.HandlingHonest` | crates/cy-core/src/engine.rs:609-709 | and keeps the system's own invariant |
| `EngineProofs.ResumesTruthfully` | crates/cy-core/src/engine.rs:857-893 | noting the awaited answer keeps it: a grant shown is a grant in force |
| `EngineProofs.AnswersAreShown` | crates/cy-core/src/engine.rs:818-893 | when an answer is noted the row and the retries say the same: granted with the address, waiting with a retry booked, lost for good with none, or the plain reason; no other row and no other retry changes |
| `EngineRetries.WaitingRowsAreRetried` | crates/cy-core/src/engine.rs:570-584 | over any history, while a session is up, a name not just being opened or reopened has a retry booked exactly when its row is switched on and says it waits for the name; its tunnel is then enabled and no address is shown |
| `EngineOutbox.EveryDueNameIsAskedFor` | crates/cy-core/src/engine.rs:575-583 | and a booked retry is made: after any history, a tick of the timer, worked off, opens each due name once, as stored, in the order of the names, and opens nothing else |
| `EngineOutbox.TickAsksForDueNames` | crates/cy-core/src/engine.rs:575-583 | the same from any world in order, where a due name may be off |
| `EngineOutbox.DueNameSwitchedOff` | crates/cy-core/src/engine.rs:581 | such a name is forgotten instead |
| `EngineRetries.BookedLasts` | crates/cy-core/src/engine.rs:521-712 | rows and booked retries stay in step through every action of the engine |
| `EngineProofs.LiveServed` | crates/cy-server/src/control.rs:321-348 | an address in force stays so through every server step |
| `EngineProofs.AnsweredIsQuiet` | crates/cy-core/src/client.rs:442-502 | when the awaited answer is there, nothing the engine asked for is still under way |
| `EngineHistory.StoredIsReplayed` | crates/cy-core/src/engine.rs:586-707 | over any history of commands, sessions and failures the stored tunnels are the commands replayed |
| `EngineHistory.ReconnectReopens` | crates/cy-core/src/engine.rs:534-536 | the list a new connection starts from is exactly the tunnels last switched on, each with its last port and the last password set since it was last deleted |
| `EngineOutbox.ReconnectAsks` | crates/cy-core/src/engine.rs:534-536 | and, worked off, the connection has been given exactly one open for each of them, in the order of their names, with that port, password and domain, and nothing else |
| `EngineRoutes.ReconnectedRoutesAreProtected` | crates/cy-core/src/engine.rs:534-536 | at any moment until the user's next command every route of the new session is of a tunnel the commands left on, under its last domain or its own host, with the last password given to it |
| `EngineRoutes.EveryRouteWasSaid` | crates/cy-server/src/control.rs:361-444 | over any history every route of the engine's session has the kind, password and host of what the commands, at some moment, had left on under its name |
| `TunnelState.OnlineOrOfflineIsTheSame` | crates/cy-core/src/engine.rs:586-1012 | where commands were handled, while connected or not, makes no difference to what is stored |
| `TunnelState.StoredIsWhatWasSaid` | crates/cy-core/src/state.rs:154-186 | each stored entry is what the log of commands says: configured, port, switch, password and domain |
| `TunnelState.CredentialsAreTheLast` | crates/cy-core/src/engine.rs:588-608 | the stored server, token and pin are those of the last login; a logout forgets the token only |
| `TunnelState.ReconnectReopensWhatWasOn` | crates/cy-core/src/state.rs:128-139 | the tunnels to reopen are exactly those last switched on, as last described |
| `TunnelState.StateStore.UpsertTunnel` | crates/cy-core/src/state.rs:154-165 | port and switch are replaced, password and domain only when given |
| `TunnelState.StateStore.EnabledTunnels` | crates/cy-core/src/state.rs:128-139 | lists exactly the enabled tunnels in the order of their names |
| `StatusBoard.StatusBoard.RecordResult` | crates/cy-core/src/engine.rs:862-891 | finds or adds the tunnel's one row and writes port, switch, address and error into it |
| `StatusBoard.StatusBoard.Remove` | crates/cy-core/src/engine.rs:652 | drops exactly the named row |
| `StatusBoard.StatusBoard.SwitchOff` | crates/cy-core/src/engine.rs:697-703 | switches the row off and takes its address away |
| `StatusBoard.StatusBoard.ClearUrls` | crates/cy-core/src/engine.rs:430-435 | takes every address away and changes nothing else |
| `TakenRetries.GiveUpTimeIsFixed` | crates/cy-core/src/engine.rs:779-800 | within one collision episode the give-up time never moves |
| `TakenRetries.AutomaticAttemptsAreSpaced` | crates/cy-core/src/engine.rs:779-811 | over any sequence of attempts an automatic one comes at least the retry interval after the one before it |
| `TakenRetries.AutomaticAttemptsAreFew` | crates/cy-core/src/engine.rs:731-811 | at most the window over the interval, rounded up, automatic attempts follow a first collision |
| `TakenRetries.SettledNamesStayQuiet` | crates/cy-core/src/engine.rs:803-815 | once done, given up or forgotten a name is never due until it collides again |
| `TakenRetries.TakenRetries.Record` | crates/cy-core/src/engine.rs:779-800 | the verdict and the new books for one result |
| `TakenRetries.TakenRetries.DueNames` | crates/cy-core/src/engine.rs:803-810 | exactly the names whose time has come, in their order |
| `Reclaim.NameIsReclaimed` | crates/cy-core/src/engine.rs:731-800 | on any timed run of the server in which the old holder of the host hears nothing from the first collision on and nobody else takes the host or adds to the user's hosts: the server drops the holder within four heartbeats, and the client is granted the name after that and before six heartbeats are over |
| `EngineReclaim.RetriedIsTheEngine` | crates/cy-core/src/engine.rs:575-583 | the timer that result is about is the engine's: tick by tick, with each call answered before the next, the engine asks at the same times, keeps the same books and ends the same way, its row showing an address exactly when the name is reclaimed |
| `EngineReclaim.EngineReclaimsTheName` | crates/cy-core/src/engine.rs:731-800 | so the engine's own row shows the address before six heartbeats are over |
| `Reclaim.OldHolderIsWaitedOut` | crates/cy-server/src/control.rs:230-311 | there is such a run from every state in order in which two sessions of a user wait for messages |
| `Heartbeats.HeldUntilGivenUp` | crates/cy-server/src/control.rs:230-311 | however the others move, a silent session's host is routed to it up to the beat at which the count gives it up, and free from then on |
| `Heartbeats.SilentSessionEnds` | crates/cy-server/src/control.rs:230-311 | left to itself a silent session beats on time, is given up at that beat and cleans up to the end |
| `Reclaim.FreedNameOpens` | crates/cy-server/src/registry.rs:103-136 | a host held by a session is refused as taken, and once that session is unregistered its user is granted it, limit included |
| `Heartbeats.DroppedAfterFourSilentBeats` | crates/cy-server/src/control.rs:290-353 | over any run of heartbeats and messages a session is given up exactly on a second hello or when four beats have come since the last message that is not a ping |
| `Heartbeats.GivenUpOnTime` | crates/cy-server/src/control.rs:303-311 | counting beat by beat, silence is given up at the very beat the recursion on the counter says |
| `Heartbeats.GiveUpTime` | crates/cy-server/src/control.rs:290-311 | which is three periods after the next beat for a session just heard from, one less for each answer it owes |
| `Heartbeats.WatchSilentPeer` | crates/cy-server/src/control.rs:303-311 | the heartbeat arm run on silence: when it gives up and after how many pings |
| `MuxDriver.EveryRequestIsAnsweredOnce` | crates/cy-proto/src/mux.rs:78-141 | on every run each accepted request is answered at most once, the k-th with the connection's k-th answer; once the driver has stopped all are answered; the queue never exceeds 256 |
| `MuxDriver.AlwaysOrderly` | crates/cy-proto/src/mux.rs:78-141 | queues and answers stay in arrival order on every run |
| `MuxDriver.RoundDoes` | crates/cy-proto/src/mux.rs:82-135 | a round takes in requests while there is room, answers as many as the connection answers, hands over a stream of the peer's, and ends the driver exactly when the connection fails or ends or nobody takes streams any more |
| `MuxDriver.RepliesAreFinal` | crates/cy-proto/src/mux.rs:96-110 | what was answered stays answered |
| `MuxDriver.MuxDriver.Fill` | crates/cy-proto/src/mux.rs:87-94 | takes requests while there is room, in order |
| `MuxDriver.MuxDriver.Serve` | crates/cy-proto/src/mux.rs:97-110 | answers waiting requests in order until the connection is pending or has failed |
| `MuxDriver.MuxDriver.Drain` | crates/cy-proto/src/mux.rs:137-140 | on any exit everything still queued fails |
| `MuxDriver.MuxDriver.Round` | crates/cy-proto/src/mux.rs:82-135 | one round of the driver loop, with its exits |
| `Exchange.ReplaySendsWhatWasSeen` | crates/cy-core/src/inspector.rs:229-256 | for every recognised request: reading the bytes a replay sends gives the same method, path and kept body, and the original headers in order less the hidden ones and Connection, plus the two appended; the head ends where it is meant to |
| `Exchange.ReplayLengthAgreesExactlyWhen` | crates/cy-core/src/inspector.rs:235-250 | what a replay sends gives the body one length, its own, if and only if no length was recorded; and no other length if and only if every recorded one is that of the kept body |
| `Exchange.AddedByReplay` | crates/cy-core/src/inspector.rs:235-250 | the request line ends in the version, and what is added is Connection: close and the length of the body in decimal |
| `Exchange.ReadPartsAreGood` | crates/cy-core/src/client.rs:748-769 | method and path are words without white space, and every header printed is one line that splits back into itself |
| `Exchange.HiddenAreNotResent` | crates/cy-core/src/inspector.rs:206-245 | hiding and leaving out together keep exactly the other headers, untouched and in order |
| `Exchange.RequestReadsBack` | crates/cy-core/src/client.rs:748-769 | reading undoes writing for any well-formed record |
| `Exchange.Serialise` | crates/cy-core/src/inspector.rs:235-256 | the bytes written, header by header |
| `Exchange.WordIsSolid` | crates/cy-core/src/client.rs:754-756 | a word found by splitting at white space contains none |
| `Exchange.Decimal` | crates/cy-core/src/inspector.rs:250 | the length is written in decimal digits that read back as the length |
| `HttpText.Find` | crates/cy-core/src/client.rs:781-783 | the first place of a mark, and none only when there is none |
| `HttpText.LinesOfPrinted` | crates/cy-core/src/client.rs:753 | splitting into lines undoes printing lines |
| `HttpText.HeadEndsHere` | crates/cy-core/src/client.rs:781-783 | a head of non-empty lines ends at its own first blank line |
| `HttpText.Utf8Cuts` | crates/cy-core/src/client.rs:750 | text may be cut wherever a character starts |
| `Inspector.LogShowsLastHundred` | crates/cy-core/src/inspector.rs:92-183 | for any sequence of records, responses and clears, the log shows of each tunnel exactly the last hundred of its own requests since its last clear |
| `Inspector.RecordsTell` | crates/cy-core/src/inspector.rs:92-150 | over any history a kept record tells of the request with its number, with secrets hidden and the body cut, and of the status and duration of the last response for that number since, if there was one |
| `Inspector.AlwaysNumbered` | crates/cy-core/src/inspector.rs:101 | ids stay distinct and growing, which filling in a response relies on |
| `Inspector.Inspector.RecordRequest` | crates/cy-core/src/inspector.rs:92-137 | appends the hidden and cut record and drops the tunnel's oldest beyond the limit |
| `Inspector.Inspector.RecordResponse` | crates/cy-core/src/inspector.rs:140-150 | writes status and duration into the one record with this id and leaves every other record |
| `Inspector.Inspector.List` | crates/cy-core/src/inspector.rs:153-161 | one tunnel's records, or all, newest first |
| `Inspector.Inspector.Get` | crates/cy-core/src/inspector.rs:163-171 | a record with this id, if there is one |
| `Inspector.Inspector.ClearTunnel` | crates/cy-core/src/inspector.rs:173-183 | drops one tunnel's records, or all |
| `HeadRewrite.ReadHead` | crates/cy-core/src/connect.rs:223-237 | consumes exactly the bytes through the first blank line; too long and cut off exactly under their conditions |
| `HeadRewrite.UpstreamHeaders` | crates/cy-core/src/connect.rs:276-314 | all other headers go through in order; every Host line names the target, and there are as many as came in but at least one; with a password exactly one Authorization line, at the end |
| `HeadRewrite.LinesWritten` | crates/cy-core/src/connect.rs:291-311 | the Host and Authorization lines written, byte by byte |
| `HeadRewrite.LinesToldApart` | crates/cy-core/src/connect.rs:291-298 | a line is rewritten exactly if it begins with the header's name, in any case, and a colon |
| `HeadRewrite.EndsAtItsFirstBlankLine` | crates/cy-core/src/connect.rs:276-314 | the head sent ends at its own first blank line if and only if the target name followed by a line end contains none |
| `HeadRewrite.RewritingSettlesExactlyWhen` | crates/cy-core/src/connect.rs:276-314 | rewriting every rewritten head changes nothing if and only if the target name stands on one line |
| `HeadRewrite.SentLinesReadBack` | crates/cy-core/src/connect.rs:276-314 | for any target name the bytes sent split into the lines meant, each broken where the name breaks it, and the closing blank line |
| `HeadRewrite.RewriteHead` | crates/cy-core/src/connect.rs:276-314 | the loop over the lines with its buffer and flag computes that head, or refuses bytes that are not text |
| `HeadRewrite.PasswordArrives` | crates/cy-core/src/connect.rs:309-311 | the base64 of the password decodes to the password |
| `FailureTracker.LockedByTheRule` | crates/cy-server/src/control.rs:541-568 | with a clock that never runs backwards an address is locked exactly when its last `limit` failures since its last success follow each other within the window and the last is recent; pruning has no say in it |
| `FailureTracker.FailureTracker.Record` | crates/cy-server/src/control.rs:541-554 | counts on within the window, starts over after it, and drops expired entries |
| `FailureTracker.EntriesTell` | crates/cy-server/src/control.rs:541-568 | each entry, or its absence, tells the length of the unbroken chain of failures |
| `Connects.EachPortTellsItsLast` | crates/cy-core/src/engine.rs:1015-1077 | after any mix of adding and removing, each local port shows at most one entry, the outcome of the last thing said about it, and a listener runs there exactly when that entry says so |
| `Connects.ListenersAreConserved` | crates/cy-core/src/engine.rs:1059-1077 | every listener that started is still active or was stopped, once |
| `Connects.Connects.RemoveConnect` | crates/cy-core/src/engine.rs:1059-1077 | the index-and-remove loop drops and stops exactly the connects on the port |
| `Connects.Connects.AddConnect` | crates/cy-core/src/engine.rs:1015-1057 | the later connect takes the earlier one's place, whether it starts or not |
| `Naming.HostCollisions` | crates/cy-proto/src/naming.rs:90-92 | two pairs of valid user and name share a host if and only if they are equal or one user is the other followed by a hyphen and more |
| `Naming.HyphenlessUsersNeverCollide` | crates/cy-proto/src/naming.rs:90-92 | users without hyphens never share a host, and neither do two names of one user |
| `Naming.HyphenatedUsersCanCollide` | crates/cy-proto/src/naming.rs:90-92 | hyphens in user names do make two users meet |
| `Naming.NamesAreLabels` | crates/cy-proto/src/naming.rs:60-84 | a tunnel name is allowed if and only if it is a well-formed label of at most 24 characters, a user's name if it is also none of the reserved words |
| `Naming.ComposedLabel` | crates/cy-proto/src/naming.rs:14-92 | the composed label is a well-formed DNS label of at most 49 bytes and never a reserved word |
| `Naming.HostForIsLower` | crates/cy-proto/src/naming.rs:90-92 | a composed host is in the registry's lower-case form |

## Left out

- TLS, certificates, pinning, tokens and the handshake before a session is registered: login only yields a user.
- The user and domain database and the audit log: reduced to a limit for each user and an owner check for each open.
- HTTP ingress, admin pages, the local API, access-password checks at the server and byte copying.
- Inside yamux, wake-ups and fairness: the driver's queue discipline only, and no promise that a request is ever served.
- The JSON text of control messages: messages are values in FIFO queues.
- Versions, download links and update hints in welcome and ping, and the client's settings.
- Duration until a name is reclaimed counts heartbeats and timer ticks; message latency and scheduling delay are not modelled.
- The connection attempts and the back-off between sessions: a session simply begins and ends.
- Reading and writing the state file: what is stored is modelled, how it reaches the disk is not.
- A heartbeat interval of zero seconds at the server; the client's own lower bound of one second is modelled.
- 32-bit counters (unanswered heartbeats, failures, limits) are unbounded numbers; wrap-around is not modelled.
- Engine: the loop is a machine over values, because it waits for answers while the rest of the system moves; the objects it updates are classes, and that the status rows are a list with one row per name is proved of `StatusBoard`.
- Engine: before each step the engine finds room in the command queue; that it would wait for room otherwise is not a step of its own.
- PortPool.PortPool.LeasePort: one call with nobody else between its lock sections; the interleavings are the subject of `ServerTheorems`.
- Reclaim.NameIsReclaimed: for HTTP tunnels; a TCP request gets its name back the same way (`FreedNameOpens`), and whether a port is free for it then is up to the pool.
- ServerHandlers.Handler.OpenTcpTunnel: proved with nobody else in between; what other sessions may do between its lock sections is the subject of `ServerTheorems`.
- Inspector.Inspector.RecordRequest: taking the id and appending the record are one step, so the order of ids under concurrent calls is not modelled.
- The limit on captured bytes before a request is recognised, and recognising responses.
