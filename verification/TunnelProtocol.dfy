/**
 * Agreement between a client's control loop and its session on the server, joined by two FIFO queues
 * (crates/cy-core/src/client.rs against crates/cy-server/src/control.rs).
 */
module TunnelProtocol {
  import opened Basics
  import opened Registry
  import opened ControlMessages
  import opened ControlLoop
  import opened ServerMachine
  import opened ServerOwnership

  // ---- ids in flight ----

  function OpenId(m: ClientMsg): seq<TunnelId> {
    if m.OpenTunnel? then [m.id] else []
  }

  function OpenIds(q: seq<ClientMsg>): seq<TunnelId> {
    if q == [] then [] else OpenId(q[0]) + OpenIds(q[1..])
  }

  function ReplyId(m: ServerMsg): seq<TunnelId> {
    match m
    case TunnelOpened(id, _) => [id]
    case Failure(_, Some(id)) => [id]
    case _ => []
  }

  function ReplyIds(q: seq<ServerMsg>): seq<TunnelId> {
    if q == [] then [] else ReplyId(q[0]) + ReplyIds(q[1..])
  }

  function OpeningSeq(pc: Pc): seq<TunnelId> {
    if OpeningId(pc).Some? then [OpeningId(pc).value] else []
  }

  /** Requests whose answer the client still waits for, oldest first: answered, in the server's hands, not yet read. */
  function InFlightIds(pc: Pc, l: Loop): seq<TunnelId> {
    ReplyIds(l.down) + OpeningSeq(pc) + OpenIds(l.up)
  }

  ghost predicate Increasing(s: seq<TunnelId>) {
    forall i, j :: 0 <= i < j < |s| ==> s[i] < s[j]
  }

  lemma {:induction false} OpenIdsAppend(q: seq<ClientMsg>, m: ClientMsg)
    ensures OpenIds(q + [m]) == OpenIds(q) + OpenId(m)
  {
    if q == [] {
      assert q + [m] == [m];
    } else {
      var r := q + [m];
      assert r[0] == q[0] && r[1..] == q[1..] + [m];
      OpenIdsAppend(q[1..], m);
      var x, y, z := OpenId(q[0]), OpenIds(q[1..]), OpenId(m);
      assert OpenIds(r) == x + (y + z) == x + y + z;
    }
  }

  lemma {:induction false} ReplyIdsAppend(q: seq<ServerMsg>, m: ServerMsg)
    ensures ReplyIds(q + [m]) == ReplyIds(q) + ReplyId(m)
  {
    if q == [] {
      assert q + [m] == [m];
    } else {
      var r := q + [m];
      assert r[0] == q[0] && r[1..] == q[1..] + [m];
      ReplyIdsAppend(q[1..], m);
      var x, y, z := ReplyId(q[0]), ReplyIds(q[1..]), ReplyId(m);
      assert ReplyIds(r) == x + (y + z) == x + y + z;
    }
  }

  lemma {:induction false} OpenIdsPrefix(q: seq<ClientMsg>, k: nat)
    requires k <= |q|
    ensures OpenIds(q[..k]) <= OpenIds(q)
  {
    if k > 0 {
      assert q[..k][1..] == q[1..][..k - 1];
      OpenIdsPrefix(q[1..], k - 1);
    }
  }

  lemma {:induction false} ReplyIdsPrefix(q: seq<ServerMsg>, k: nat)
    requires k <= |q|
    ensures ReplyIds(q[..k]) <= ReplyIds(q)
  {
    if k > 0 {
      assert q[..k][1..] == q[1..][..k - 1];
      ReplyIdsPrefix(q[1..], k - 1);
    }
  }

  lemma {:induction false} ReplyIdsMember(q: seq<ServerMsg>, m: ServerMsg)
    requires m in q && ReplyId(m) != []
    ensures ReplyId(m)[0] in ReplyIds(q)
  {
    if q[0] != m {
      ReplyIdsMember(q[1..], m);
    }
  }

  // ---- the agreement ----

  function ClosingId(pc: Pc): Option<TunnelId> {
    if pc.Closing? || pc.Freeing? || pc.Dropping? then Some(pc.tid) else None
  }

  function Ids(routes: Routes): set<TunnelId> {
    set h | h in routes :: routes[h].tunnelId
  }

  /** The address told to the client leads to the route opened under this id. */
  ghost predicate Backs(routes: Routes, id: TunnelId, public: Endpoint) {
    match public
    case Url(host) => Lower(host) in routes && routes[Lower(host)].tunnelId == id
    case Addr(port) => exists h :: h in routes && routes[h].tunnelId == id && routes[h].tcpPort == Some(port)
  }

  ghost predicate GrantQueued(down: seq<ServerMsg>, id: TunnelId) {
    exists public :: TunnelOpened(id, public) in down
  }

  /** Every request in flight is known to the client, in the order it was made. */
  ghost predicate Flow(f: seq<TunnelId>, l: Loop) {
    && Increasing(f)
    && (forall id <- f :: id < l.nextId)
    && (l.running ==> forall id <- f :: id in l.pending)
    && (l.linkUp ==> forall id <- l.pending :: id in f)
    && (forall m <- l.down :: m.Failure? ==> m.subject.Some?)
  }

  /** The client's bookkeeping on its own. */
  ghost predicate ClientOk(l: Loop) {
    && (forall n <- l.byName :: l.byName[n] in l.ports && l.ports[l.byName[n]].name == n)
    && (forall id <- l.ports :: id < l.nextId && id !in l.pending)
    && (forall id <- l.pending :: id < l.nextId)
    && !l.rejected
    && (l.linkUp ==> l.running)
    && (!l.running ==> l.pending == map[])
  }

  /** An id on its way out: the client has forgotten it and nothing else is in flight for it. */
  ghost predicate Retired(f: seq<TunnelId>, l: Loop, id: TunnelId) {
    id < l.nextId && id !in l.ports && id !in f
  }

  ghost predicate Ordered(routes: Routes, f: seq<TunnelId>, closing: Option<TunnelId>, l: Loop) {
    && (forall id <- Ids(routes) :: id < l.nextId && forall o <- OpenIds(l.up) :: id < o)
    && (forall id <- l.ports :: id !in f)
    && (forall id: TunnelId :: CloseTunnel(id) in l.up ==> Retired(f, l, id))
    && (closing.Some? ==> Retired(f, l, closing.value))
  }

  /** What the client believes to be open is routed, while its session is registered. */
  ghost predicate Believed(routes: Routes, l: Loop) {
    && (forall id <- l.ports :: id in Ids(routes))
    && (forall id: TunnelId, public :: TunnelOpened(id, public) in l.down ==> Backs(routes, id, public))
  }

  /** What the server routes is open at the client, or its opening or closing is under way. */
  ghost predicate Accounted(routes: Routes, opening: Option<TunnelId>, closing: Option<TunnelId>, l: Loop) {
    forall id <- Ids(routes) ::
      opening == Some(id) || closing == Some(id) || id in l.ports || GrantQueued(l.down, id) || CloseTunnel(id) in l.up
  }

  /** The agreement, given the requests in flight and where the server's task stands. */
  ghost predicate AgreeOn(
    routes: Routes, f: seq<TunnelId>, active: bool, opening: Option<TunnelId>, closing: Option<TunnelId>, l: Loop)
  {
    && Flow(f, l)
    && ClientOk(l)
    && Ordered(routes, f, closing, l)
    && (active ==> Believed(routes, l))
    && (l.linkUp ==> Accounted(routes, opening, closing, l))
  }

  ghost predicate Agree(routes: Routes, pc: Pc, l: Loop) {
    AgreeOn(routes, InFlightIds(pc, l), Active(pc), OpeningId(pc), ClosingId(pc), l)
  }

  lemma NewLoopAgrees(pc: Pc)
    requires pc.Idle?
    ensures Agree(map[], pc, NEW_LOOP)
  {
  }

  // ---- the client's own steps ----

  lemma HaltAgrees(routes: Routes, pc: Pc, l: Loop)
    requires Agree(routes, pc, l)
    ensures Agree(routes, pc, Halted(l))
  {
    assert InFlightIds(pc, Halted(l)) == InFlightIds(pc, l);
  }

  lemma PongOn(
    routes: Routes, f: seq<TunnelId>, active: bool, opening: Option<TunnelId>, closing: Option<TunnelId>, l: Loop,
    n: nat)
    requires AgreeOn(routes, f, active, opening, closing, l)
    ensures AgreeOn(routes, f, active, opening, closing, l.(up := l.up + [ClientPong(n)]))
  {
    OpenIdsAppend(l.up, ClientPong(n));
    assert OpenIds(l.up + [ClientPong(n)]) == OpenIds(l.up);
  }

  lemma PongAgrees(routes: Routes, pc: Pc, l: Loop, n: nat)
    requires Agree(routes, pc, l)
    ensures Agree(routes, pc, l.(up := l.up + [ClientPong(n)]))
  {
    var f := InFlightIds(pc, l);
    PongOn(routes, f, Active(pc), OpeningId(pc), ClosingId(pc), l, n);
    OpenIdsAppend(l.up, ClientPong(n));
    assert InFlightIds(pc, l.(up := l.up + [ClientPong(n)])) == f;
  }

  lemma IncreasingAppend(f: seq<TunnelId>, id: TunnelId)
    requires Increasing(f) && forall x <- f :: x < id
    ensures Increasing(f + [id])
  {
    forall i, j | 0 <= i < j < |f + [id]|
      ensures (f + [id])[i] < (f + [id])[j]
    {
      assert f[i] in f;
    }
  }

  lemma RequestOn(
    routes: Routes, f: seq<TunnelId>, active: bool, opening: Option<TunnelId>, closing: Option<TunnelId>, l: Loop,
    spec: Spec, ticket: nat)
    requires AgreeOn(routes, f, active, opening, closing, l) && l.running
    ensures AgreeOn(routes, f + [l.nextId], active, opening, closing, Requested(l, spec, ticket))
  {
    IncreasingAppend(f, l.nextId);
    OpenIdsAppend(l.up, OpenRequest(l.nextId, spec));
  }

  lemma RequestAgrees(routes: Routes, pc: Pc, l: Loop, spec: Spec, ticket: nat)
    requires Agree(routes, pc, l) && l.running
    ensures Agree(routes, pc, Requested(l, spec, ticket))
  {
    RequestOn(routes, InFlightIds(pc, l), Active(pc), OpeningId(pc), ClosingId(pc), l, spec, ticket);
    OpenIdsAppend(l.up, OpenRequest(l.nextId, spec));
    assert InFlightIds(pc, Requested(l, spec, ticket)) == InFlightIds(pc, l) + [l.nextId];
  }

  lemma ForgetOn(
    routes: Routes, f: seq<TunnelId>, active: bool, opening: Option<TunnelId>, closing: Option<TunnelId>, l: Loop,
    name: string)
    requires AgreeOn(routes, f, active, opening, closing, l) && name in l.byName
    ensures AgreeOn(routes, f, active, opening, closing, Forgotten(l, name))
  {
    var l', gone := Forgotten(l, name), l.byName[name];
    assert OpenIds(l'.up) == OpenIds(l.up) by {
      OpenIdsAppend(l.up, CloseTunnel(gone));
    }
    assert forall id: TunnelId :: CloseTunnel(id) in l'.up ==> CloseTunnel(id) in l.up || id == gone;
    assert forall id: TunnelId :: CloseTunnel(id) in l.up ==> CloseTunnel(id) in l'.up;
  }

  lemma ForgetAgrees(routes: Routes, pc: Pc, l: Loop, name: string)
    requires Agree(routes, pc, l) && name in l.byName
    ensures Agree(routes, pc, Forgotten(l, name))
  {
    ForgetOn(routes, InFlightIds(pc, l), Active(pc), OpeningId(pc), ClosingId(pc), l, name);
    OpenIdsAppend(l.up, CloseTunnel(l.byName[name]));
    assert InFlightIds(pc, Forgotten(l, name)) == InFlightIds(pc, l);
  }

  lemma SkipOn(
    routes: Routes, f: seq<TunnelId>, active: bool, opening: Option<TunnelId>, closing: Option<TunnelId>, l: Loop)
    requires AgreeOn(routes, f, active, opening, closing, l) && l.down != [] && !l.down[0].TunnelOpened?
    ensures AgreeOn(routes, f, active, opening, closing, l.(down := l.down[1..]))
  {
    assert forall m <- l.down :: m in l.down[1..] || m == l.down[0];
  }

  lemma SkipAgrees(routes: Routes, pc: Pc, l: Loop)
    requires Agree(routes, pc, l) && l.down != [] && ReplyId(l.down[0]) == []
    ensures Agree(routes, pc, l.(down := l.down[1..]))
  {
    SkipFlight(pc, l);
    SkipOn(routes, InFlightIds(pc, l), Active(pc), OpeningId(pc), ClosingId(pc), l);
  }

  lemma SkipFlight(pc: Pc, l: Loop)
    requires l.down != [] && ReplyId(l.down[0]) == []
    ensures InFlightIds(pc, l.(down := l.down[1..])) == InFlightIds(pc, l)
  {
    assert ReplyIds(l.down) == [] + ReplyIds(l.down[1..]) == ReplyIds(l.down[1..]);
  }

  lemma HeadInFlight(pc: Pc, l: Loop, id: TunnelId)
    requires l.down != [] && ReplyId(l.down[0]) == [id]
    ensures InFlightIds(pc, l) == [id] + InFlightIds(pc, l.(down := l.down[1..]))
  {
  }

  lemma InstallOn(
    routes: Routes, f: seq<TunnelId>, active: bool, opening: Option<TunnelId>, closing: Option<TunnelId>, l: Loop,
    id: TunnelId, public: Endpoint)
    requires AgreeOn(routes, [id] + f, active, opening, closing, l)
    requires l.running && l.down != [] && l.down[0] == TunnelOpened(id, public)
    ensures id in l.pending
    ensures AgreeOn(routes, f, active, opening, closing, Installed(l.(down := l.down[1..]), id))
  {
    HeadIsLeast(id, f);
    assert forall m <- l.down :: m in l.down[1..] || m == l.down[0];
  }

  lemma HeadIsLeast(id: TunnelId, f: seq<TunnelId>)
    requires Increasing([id] + f)
    ensures Increasing(f) && id !in f && id in [id] + f
    ensures forall x <- f :: x in [id] + f
  {
    var g := [id] + f;
    assert g[0] == id;
    forall i, j | 0 <= i < j < |f|
      ensures f[i] < f[j]
    {
      assert g[i + 1] == f[i] && g[j + 1] == f[j];
    }
    forall x <- f
      ensures id < x
    {
      var i :| 0 <= i < |f| && f[i] == x;
      assert g[i + 1] == x;
    }
  }

  lemma InstallAgrees(routes: Routes, pc: Pc, l: Loop, id: TunnelId, public: Endpoint)
    requires Agree(routes, pc, l) && l.running && l.down != [] && l.down[0] == TunnelOpened(id, public)
    ensures id in l.pending
    ensures Agree(routes, pc, Installed(l.(down := l.down[1..]), id))
  {
    HeadInFlight(pc, l, id);
    var f := InFlightIds(pc, l.(down := l.down[1..]));
    InstallOn(routes, f, Active(pc), OpeningId(pc), ClosingId(pc), l, id, public);
    assert InFlightIds(pc, Installed(l.(down := l.down[1..]), id)) == f;
  }

  lemma RefusalOn(
    routes: Routes, f: seq<TunnelId>, active: bool, opening: Option<TunnelId>, closing: Option<TunnelId>, l: Loop,
    id: TunnelId, code: Code)
    requires AgreeOn(routes, [id] + f, active, opening, closing, l)
    requires l.running && l.down != [] && l.down[0] == Failure(code, Some(id))
    ensures id in l.pending
    ensures AgreeOn(routes, f, active, opening, closing, l.(down := l.down[1..], pending := l.pending - {id}))
  {
    HeadIsLeast(id, f);
    assert forall m <- l.down :: m in l.down[1..] || m == l.down[0];
  }

  lemma RefusalAgrees(routes: Routes, pc: Pc, l: Loop, id: TunnelId, code: Code)
    requires Agree(routes, pc, l) && l.running && l.down != [] && l.down[0] == Failure(code, Some(id))
    ensures id in l.pending
    ensures Agree(routes, pc, l.(down := l.down[1..], pending := l.pending - {id}))
  {
    HeadInFlight(pc, l, id);
    var f := InFlightIds(pc, l.(down := l.down[1..]));
    RefusalOn(routes, f, Active(pc), OpeningId(pc), ClosingId(pc), l, id, code);
    assert InFlightIds(pc, l.(down := l.down[1..], pending := l.pending - {id})) == f;
  }

  lemma CutKeepsIncreasing(a: seq<TunnelId>, b: seq<TunnelId>, d: seq<TunnelId>, a': seq<TunnelId>, d': seq<TunnelId>)
    requires Increasing(a + b + d) && a' <= a && d' <= d
    ensures Increasing(a' + b + d')
    ensures forall x <- a' + b + d' :: x in a + b + d
  {
    var s, s' := a + b + d, a' + b + d';
    forall i, j | 0 <= i < j < |s'|
      ensures s'[i] < s'[j]
    {
      var k := if i < |a'| then i else i - |a'| + |a|;
      var l := if j < |a'| then j else j - |a'| + |a|;
      assert s[k] == s'[i] && s[l] == s'[j];
    }
    forall x <- s'
      ensures x in s
    {
      var i :| 0 <= i < |s'| && s'[i] == x;
      assert s[if i < |a'| then i else i - |a'| + |a|] == x;
    }
  }

  lemma BreakAgrees(routes: Routes, pc: Pc, l: Loop, keepUp: nat, keepDown: nat)
    requires Agree(routes, pc, l) && keepUp <= |l.up| && keepDown <= |l.down|
    ensures Agree(routes, pc, Broken(l, keepUp, keepDown))
  {
    var l' := Broken(l, keepUp, keepDown);
    OpenIdsPrefix(l.up, keepUp);
    ReplyIdsPrefix(l.down, keepDown);
    CutKeepsIncreasing(ReplyIds(l.down), OpeningSeq(pc), OpenIds(l.up), ReplyIds(l'.down), OpenIds(l'.up));
    assert forall o <- OpenIds(l'.up) :: o in OpenIds(l.up);
    assert forall m <- l'.up :: m in l.up;
    assert forall m <- l'.down :: m in l.down;
  }

  // ---- what the server may do to one session ----

  ghost predicate ReplyOk(routes: Routes, m: ServerMsg) {
    match m
    case TunnelOpened(id, public) => Backs(routes, id, public)
    case Failure(_, subject) => subject.Some?
    case _ => true
  }

  /** The queues: messages are taken from `up` and put on `down`, and a close taken is being carried out. */
  ghost predicate QueuesMoved(pc: Pc, l: Loop, routes': Routes, pc': Pc, l': Loop) {
    && l' == l.(up := l'.up, down := l'.down)
    && (forall m <- l'.up :: m in l.up)
    && (forall o <- OpenIds(l'.up) :: o in OpenIds(l.up))
    && (l.linkUp ==> forall id: TunnelId :: CloseTunnel(id) in l.up ==> CloseTunnel(id) in l'.up || ClosingId(pc') == Some(id))
    && (ClosingId(pc').Some? ==> ClosingId(pc') == ClosingId(pc) || CloseTunnel(ClosingId(pc').value) in l.up)
    && (forall m <- l.down :: m in l'.down)
    && (forall m <- l'.down :: m in l.down || ReplyOk(routes', m))
  }

  /** The routes: one may appear for the request being opened, one may go for the id opened in vain or closed. */
  ghost predicate RoutesMoved(routes: Routes, pc: Pc, f: seq<TunnelId>, l: Loop, routes': Routes, pc': Pc, l': Loop) {
    && (forall id <- Ids(routes') :: id !in Ids(routes) ==>
          && id in f
          && (forall o <- OpenIds(l'.up) :: id < o)
          && (l.linkUp ==> OpeningId(pc') == Some(id) || GrantQueued(l'.down, id)))
    && (Active(pc') ==>
          && Active(pc)
          && (forall id <- Ids(routes) :: id in Ids(routes') || OpeningId(pc) == Some(id) || ClosingId(pc) == Some(id))
          && (forall id: TunnelId, public | OpeningId(pc) != Some(id) && ClosingId(pc) != Some(id) ::
                Backs(routes, id, public) ==> Backs(routes', id, public)))
    && (OpeningId(pc).Some? && OpeningId(pc') != OpeningId(pc) && l.linkUp ==>
          OpeningId(pc).value !in Ids(routes') || GrantQueued(l'.down, OpeningId(pc).value))
    && (ClosingId(pc).Some? && ClosingId(pc') != ClosingId(pc) ==> ClosingId(pc).value !in Ids(routes'))
  }

  ghost predicate FlightMoved(f: seq<TunnelId>, linkUp: bool, f': seq<TunnelId>) {
    Increasing(f') && (forall id <- f' :: id in f) && (linkUp ==> f' == f)
  }

  ghost predicate ServerMoved(routes: Routes, pc: Pc, l: Loop, routes': Routes, pc': Pc, l': Loop) {
    && QueuesMoved(pc, l, routes', pc', l')
    && RoutesMoved(routes, pc, InFlightIds(pc, l), l, routes', pc', l')
    && FlightMoved(InFlightIds(pc, l), l.linkUp, InFlightIds(pc', l'))
  }

  lemma OrderedMoves(
    routes: Routes, pc: Pc, l: Loop, routes': Routes, pc': Pc, l': Loop, f: seq<TunnelId>, f': seq<TunnelId>)
    requires Flow(f, l) && Ordered(routes, f, ClosingId(pc), l)
    requires QueuesMoved(pc, l, routes', pc', l') && RoutesMoved(routes, pc, f, l, routes', pc', l')
    requires FlightMoved(f, l.linkUp, f')
    ensures Ordered(routes', f', ClosingId(pc'), l')
  {
  }

  lemma BelievedMoves(routes: Routes, pc: Pc, l: Loop, routes': Routes, pc': Pc, l': Loop, f: seq<TunnelId>)
    requires Ordered(routes, f, ClosingId(pc), l) && Believed(routes, l)
    requires QueuesMoved(pc, l, routes', pc', l') && RoutesMoved(routes, pc, f, l, routes', pc', l')
    requires Active(pc') && (OpeningId(pc).Some? ==> OpeningId(pc).value in f)
    requires forall id: TunnelId, public :: TunnelOpened(id, public) in l.down ==>
      OpeningId(pc) != Some(id) && ClosingId(pc) != Some(id)
    ensures Believed(routes', l')
  {
  }

  lemma QueuedGrantsAreSettled(routes: Routes, pc: Pc, l: Loop, id: TunnelId, public: Endpoint)
    requires Agree(routes, pc, l) && TunnelOpened(id, public) in l.down
    ensures OpeningId(pc) != Some(id) && ClosingId(pc) != Some(id)
  {
    var a := ReplyIds(l.down);
    ReplyIdsMember(l.down, TunnelOpened(id, public));
    var i :| 0 <= i < |a| && a[i] == id;
    assert InFlightIds(pc, l)[i] == id;
    if OpeningId(pc).Some? {
      assert InFlightIds(pc, l)[|a|] == OpeningId(pc).value;
    }
  }

  lemma AccountedMoves(routes: Routes, pc: Pc, l: Loop, routes': Routes, pc': Pc, l': Loop, f: seq<TunnelId>)
    requires Accounted(routes, OpeningId(pc), ClosingId(pc), l) && l.linkUp
    requires QueuesMoved(pc, l, routes', pc', l') && RoutesMoved(routes, pc, f, l, routes', pc', l')
    ensures Accounted(routes', OpeningId(pc'), ClosingId(pc'), l')
  {
    forall id <- Ids(routes')
      ensures OpeningId(pc') == Some(id) || ClosingId(pc') == Some(id) || id in l'.ports || GrantQueued(l'.down, id)
        || CloseTunnel(id) in l'.up
    {
      if id in Ids(routes) && GrantQueued(l.down, id) {
        var public :| TunnelOpened(id, public) in l.down;
        assert TunnelOpened(id, public) in l'.down;
      }
    }
  }

  lemma FlowMoves(pc: Pc, l: Loop, routes': Routes, pc': Pc, l': Loop, f: seq<TunnelId>, f': seq<TunnelId>)
    requires Flow(f, l) && QueuesMoved(pc, l, routes', pc', l') && FlightMoved(f, l.linkUp, f')
    ensures Flow(f', l')
  {
  }

  /** Whatever the server may do to one session, the agreement survives it. */
  lemma ServerAgrees(routes: Routes, pc: Pc, l: Loop, routes': Routes, pc': Pc, l': Loop)
    requires Agree(routes, pc, l) && ServerMoved(routes, pc, l, routes', pc', l')
    ensures Agree(routes', pc', l')
  {
    var f, f' := InFlightIds(pc, l), InFlightIds(pc', l');
    assert OpeningId(pc).Some? ==> OpeningId(pc).value in f by {
      if OpeningId(pc).Some? {
        assert f[|ReplyIds(l.down)|] == OpeningId(pc).value;
      }
    }
    FlowMoves(pc, l, routes', pc', l', f, f');
    OrderedMoves(routes, pc, l, routes', pc', l', f, f');
    if Active(pc') {
      forall id: TunnelId, public | TunnelOpened(id, public) in l.down
        ensures OpeningId(pc) != Some(id) && ClosingId(pc) != Some(id)
      {
        QueuedGrantsAreSettled(routes, pc, l, id, public);
      }
      BelievedMoves(routes, pc, l, routes', pc', l', f);
    }
    if l'.linkUp {
      AccountedMoves(routes, pc, l, routes', pc', l', f);
    }
  }

  // ---- the steps of the server's task, one session seen alone ----

  function Delivered(l: Loop, reply: Option<ServerMsg>): Loop {
    if reply.Some? && l.linkUp then l.(down := l.down + [reply.value]) else l
  }

  function Popped(l: Loop): Loop
    requires l.up != []
  {
    l.(up := l.up[1..])
  }

  lemma DeliveredFlight(pc: Pc, l: Loop, reply: Option<ServerMsg>)
    ensures ReplyIds(Delivered(l, reply).down) ==
      ReplyIds(l.down) + (if reply.Some? && l.linkUp then ReplyId(reply.value) else [])
    ensures forall m <- l.down :: m in Delivered(l, reply).down
    ensures forall m <- Delivered(l, reply).down :: m in l.down || reply == Some(m)
    ensures reply.Some? && l.linkUp ==> reply.value in Delivered(l, reply).down
  {
    if reply.Some? {
      ReplyIdsAppend(l.down, reply.value);
    }
  }

  lemma PoppedQueue(l: Loop)
    requires l.up != []
    ensures OpenIds(l.up) == OpenId(l.up[0]) + OpenIds(l.up[1..])
    ensures forall m <- l.up[1..] :: m in l.up
    ensures forall m <- l.up :: m in l.up[1..] || m == l.up[0]
    ensures forall o <- OpenIds(l.up[1..]) :: o in OpenIds(l.up)
  {
  }

  /** Dropping one element of an increasing sequence. */
  lemma WithoutMiddle(a: seq<TunnelId>, id: TunnelId, b: seq<TunnelId>)
    requires Increasing(a + [id] + b)
    ensures Increasing(a + b) && (forall x <- a + b :: x in a + [id] + b)
    ensures forall x <- b :: id < x
    ensures id !in a
  {
    var s := a + [id] + b;
    assert s[|a|] == id;
    forall i, j | 0 <= i < j < |a + b|
      ensures (a + b)[i] < (a + b)[j]
    {
      var k := if i < |a| then i else i + 1;
      var l := if j < |a| then j else j + 1;
      assert s[k] == (a + b)[i] && s[l] == (a + b)[j];
    }
    forall x <- b
      ensures id < x
    {
      var i :| 0 <= i < |b| && b[i] == x;
      assert s[|a| + 1 + i] == x;
    }
    forall x <- a
      ensures x < id
    {
      var i :| 0 <= i < |a| && a[i] == x;
      assert s[i] == x;
    }
    forall x <- a + b
      ensures x in s
    {
      var i :| 0 <= i < |a + b| && (a + b)[i] == x;
      assert s[if i < |a| then i else i + 1] == x;
    }
  }

  function Taken(l: Loop, popped: bool): Loop
    requires popped ==> l.up != []
  {
    if popped then Popped(l) else l
  }

  lemma QueuesStep(pc: Pc, l: Loop, popped: bool, routes': Routes, pc': Pc, reply: Option<ServerMsg>)
    requires popped ==> l.up != [] && !l.up[0].CloseTunnel?
    requires ClosingId(pc') == None || ClosingId(pc') == ClosingId(pc)
    requires reply.Some? ==> ReplyOk(routes', reply.value)
    ensures QueuesMoved(pc, l, routes', pc', Delivered(Taken(l, popped), reply))
  {
    if popped {
      PoppedQueue(l);
    }
    DeliveredFlight(pc, Taken(l, popped), reply);
  }

  lemma RoutesKept(routes: Routes, pc: Pc, f: seq<TunnelId>, l: Loop, pc': Pc, l': Loop)
    requires Active(pc') ==> Active(pc)
    requires OpeningId(pc) == None || OpeningId(pc') == OpeningId(pc) || OpeningId(pc).value !in Ids(routes)
    requires ClosingId(pc) == None || ClosingId(pc') == ClosingId(pc)
    ensures RoutesMoved(routes, pc, f, l, routes, pc', l')
  {
  }

  lemma ProgressFlight(pc: Pc, l: Loop, pc': Pc, reply: Option<ServerMsg>)
    requires OpeningId(pc') == OpeningId(pc)
    requires reply.Some? ==> ReplyId(reply.value) == []
    ensures InFlightIds(pc', Delivered(l, reply)) == InFlightIds(pc, l)
  {
    DeliveredFlight(pc, l, reply);
  }

  /** A step that leaves the routes alone and is neither the start nor the end of an open or a close. */
  lemma ProgressMoves(routes: Routes, pc: Pc, l: Loop, pc': Pc, reply: Option<ServerMsg>)
    requires Agree(routes, pc, l)
    requires OpeningId(pc') == OpeningId(pc) && ClosingId(pc') == ClosingId(pc) && (Active(pc') ==> Active(pc))
    requires reply.Some? ==> ReplyId(reply.value) == [] && !reply.value.TunnelOpened? && !reply.value.Failure?
    ensures ServerMoved(routes, pc, l, routes, pc', Delivered(l, reply))
  {
    QueuesStep(pc, l, false, routes, pc', reply);
    RoutesKept(routes, pc, InFlightIds(pc, l), l, pc', Delivered(l, reply));
    ProgressFlight(pc, l, pc', reply);
  }

  lemma SkippedFlight(pc: Pc, l: Loop, pc': Pc, reply: Option<ServerMsg>)
    requires l.up != [] && !l.up[0].OpenTunnel? && OpeningId(pc') == OpeningId(pc)
    requires reply.Some? ==> ReplyId(reply.value) == []
    ensures InFlightIds(pc', Delivered(Popped(l), reply)) == InFlightIds(pc, l)
  {
    PoppedQueue(l);
    DeliveredFlight(pc, Popped(l), reply);
  }

  /** A message other than an open or a close is read. */
  lemma SkippedMoves(routes: Routes, pc: Pc, l: Loop, pc': Pc, reply: Option<ServerMsg>)
    requires Agree(routes, pc, l) && l.up != [] && !l.up[0].OpenTunnel? && !l.up[0].CloseTunnel?
    requires pc.Idle? && (pc'.Idle? || pc'.Leaving?)
    requires reply.Some? ==> ReplyId(reply.value) == [] && !reply.value.TunnelOpened? && !reply.value.Failure?
    ensures ServerMoved(routes, pc, l, routes, pc', Delivered(Popped(l), reply))
  {
    QueuesStep(pc, l, true, routes, pc', reply);
    RoutesKept(routes, pc, InFlightIds(pc, l), l, pc', Delivered(Popped(l), reply));
    SkippedFlight(pc, l, pc', reply);
  }

  lemma CloseReadMoves(routes: Routes, pc: Pc, l: Loop, id: TunnelId)
    requires Agree(routes, pc, l) && l.up != [] && l.up[0] == CloseTunnel(id) && pc.Idle?
    ensures ServerMoved(routes, pc, l, routes, Closing(id), Popped(l))
  {
    PoppedQueue(l);
    assert InFlightIds(Closing(id), Popped(l)) == InFlightIds(pc, l);
  }

  lemma HeadOpenFresh(routes: Routes, pc: Pc, l: Loop)
    requires Agree(routes, pc, l) && pc.Idle? && l.up != [] && l.up[0].OpenTunnel?
    ensures l.up[0].id !in Ids(routes)
    ensures InFlightIds(pc, l) == ReplyIds(l.down) + [l.up[0].id] + OpenIds(l.up[1..])
  {
    PoppedQueue(l);
    assert l.up[0].id in OpenIds(l.up);
  }

  lemma AskedFlight(pc: Pc, l: Loop, id: TunnelId, rest: seq<TunnelId>)
    requires OpeningSeq(pc) + OpenIds(l.up) == [id] + rest
    ensures InFlightIds(pc, l) == ReplyIds(l.down) + [id] + rest
  {
    var a := ReplyIds(l.down);
    assert InFlightIds(pc, l) == a + (OpeningSeq(pc) + OpenIds(l.up));
    assert a + ([id] + rest) == a + [id] + rest;
  }

  lemma RepliedFlight(taken: Loop, id: TunnelId, reply: ServerMsg)
    requires ReplyId(reply) == [id]
    ensures InFlightIds(Idle, Delivered(taken, Some(reply))) ==
      if taken.linkUp then ReplyIds(taken.down) + [id] + OpenIds(taken.up) else ReplyIds(taken.down) + OpenIds(taken.up)
  {
    DeliveredFlight(Idle, taken, Some(reply));
  }

  /** Reading an open request and answering it moves its id from one queue to the other, or loses the answer. */
  lemma AnsweredFlight(pc: Pc, l: Loop, id: TunnelId, taken: Loop, reply: ServerMsg)
    requires Increasing(InFlightIds(pc, l)) && ReplyId(reply) == [id]
    requires taken.down == l.down && taken.linkUp == l.linkUp
    requires OpeningSeq(pc) + OpenIds(l.up) == [id] + OpenIds(taken.up)
    ensures FlightMoved(InFlightIds(pc, l), l.linkUp, InFlightIds(Idle, Delivered(taken, Some(reply))))
    ensures id in InFlightIds(pc, l) && id !in ReplyIds(l.down)
    ensures forall o <- OpenIds(taken.up) :: id < o
  {
    AskedFlight(pc, l, id, OpenIds(taken.up));
    WithoutMiddle(ReplyIds(l.down), id, OpenIds(taken.up));
    RepliedFlight(taken, id, reply);
    assert InFlightIds(pc, l)[|ReplyIds(l.down)|] == id;
  }

  /** An open request is read and turned down at once. */
  lemma RejectedMoves(routes: Routes, pc: Pc, l: Loop, code: Code)
    requires Agree(routes, pc, l) && pc.Idle? && l.up != [] && l.up[0].OpenTunnel?
    ensures ServerMoved(routes, pc, l, routes, pc, Delivered(Popped(l), Some(Failure(code, Some(l.up[0].id)))))
  {
    var reply := Failure(code, Some(l.up[0].id));
    QueuesStep(pc, l, true, routes, pc, Some(reply));
    RoutesKept(routes, pc, InFlightIds(pc, l), l, pc, Delivered(Popped(l), Some(reply)));
    PoppedQueue(l);
    AnsweredFlight(pc, l, l.up[0].id, Popped(l), reply);
  }

  lemma NewRouteIds(routes: Routes, h: Host, tunnel: Tunnel)
    requires h !in routes
    ensures Ids(routes[h := tunnel]) == Ids(routes) + {tunnel.tunnelId}
  {
    var routes' := routes[h := tunnel];
    assert forall x <- routes :: x in routes' && routes'[x] == routes[x];
    assert routes'[h] == tunnel;
    forall id
      ensures id in Ids(routes') <==> id in Ids(routes) + {tunnel.tunnelId}
    {
      if id in Ids(routes) {
        var x :| x in routes && routes[x].tunnelId == id;
        assert x in routes' && routes'[x].tunnelId == id;
      }
    }
  }

  lemma NewRouteBacks(routes: Routes, h: Host, tunnel: Tunnel, id: TunnelId, public: Endpoint)
    requires h !in routes && Backs(routes, id, public)
    ensures Backs(routes[h := tunnel], id, public)
  {
    if public.Addr? {
      var x :| x in routes && routes[x].tunnelId == id && routes[x].tcpPort == Some(public.port);
      assert routes[h := tunnel][x] == routes[x];
    }
  }

  lemma RouteAdded(
    routes: Routes, pc: Pc, f: seq<TunnelId>, l: Loop, h: Host, tunnel: Tunnel, pc': Pc, l': Loop)
    requires pc.Idle? && Active(pc') && h !in routes && tunnel.tunnelId !in Ids(routes)
    requires tunnel.tunnelId in f && forall o <- OpenIds(l'.up) :: tunnel.tunnelId < o
    requires l.linkUp ==> OpeningId(pc') == Some(tunnel.tunnelId) || GrantQueued(l'.down, tunnel.tunnelId)
    ensures RoutesMoved(routes, pc, f, l, routes[h := tunnel], pc', l')
  {
    NewRouteIds(routes, h, tunnel);
    forall id, public | Backs(routes, id, public)
      ensures Backs(routes[h := tunnel], id, public)
    {
      NewRouteBacks(routes, h, tunnel, id, public);
    }
  }

  /** An open request is read, granted and answered in one go. */
  lemma GrantedMoves(routes: Routes, pc: Pc, l: Loop, host: Host, tunnel: Tunnel)
    requires Agree(routes, pc, l) && pc.Idle? && l.up != [] && l.up[0].OpenTunnel?
    requires Lower(host) !in routes && tunnel.tunnelId == l.up[0].id
    ensures ServerMoved(routes, pc, l, routes[Lower(host) := tunnel], pc,
                        Delivered(Popped(l), Some(TunnelOpened(l.up[0].id, Url(host)))))
  {
    var id := l.up[0].id;
    var reply := TunnelOpened(id, Url(host));
    var l' := Delivered(Popped(l), Some(reply));
    HeadOpenFresh(routes, pc, l);
    PoppedQueue(l);
    AnsweredFlight(pc, l, id, Popped(l), reply);
    QueuesStep(pc, l, true, routes[Lower(host) := tunnel], pc, Some(reply));
    assert l.linkUp ==> reply in l'.down;
    RouteAdded(routes, pc, InFlightIds(pc, l), l, Lower(host), tunnel, pc, l');
  }

  /** An open request is read and its name taken; the answer comes later. */
  lemma BegunMoves(routes: Routes, pc: Pc, l: Loop, h: Host, tunnel: Tunnel, pc': Pc)
    requires Agree(routes, pc, l) && pc.Idle? && l.up != [] && l.up[0].OpenTunnel?
    requires h !in routes && tunnel.tunnelId == l.up[0].id && OpeningId(pc') == Some(l.up[0].id)
    ensures ServerMoved(routes, pc, l, routes[h := tunnel], pc', Popped(l))
  {
    var id := l.up[0].id;
    HeadOpenFresh(routes, pc, l);
    QueuesStep(pc, l, true, routes[h := tunnel], pc', None);
    WithoutMiddle(ReplyIds(l.down), id, OpenIds(l.up[1..]));
    assert InFlightIds(pc', Popped(l)) == InFlightIds(pc, l);
    assert InFlightIds(pc, l)[|ReplyIds(l.down)|] == id;
    RouteAdded(routes, pc, InFlightIds(pc, l), l, h, tunnel, pc', Popped(l));
  }

  /** The open in progress ends: a reply goes out and the routes keep or lose its id. */
  lemma FinishedMoves(routes: Routes, pc: Pc, l: Loop, routes': Routes, reply: ServerMsg)
    requires Agree(routes, pc, l) && OpeningId(pc).Some? && ReplyId(reply) == [OpeningId(pc).value]
    requires ReplyOk(routes', reply)
    requires Ids(routes') <= Ids(routes) && Ids(routes) <= Ids(routes') + {OpeningId(pc).value}
    requires reply.Failure? ==> OpeningId(pc).value !in Ids(routes')
    requires forall id, public | id != OpeningId(pc).value :: Backs(routes, id, public) ==> Backs(routes', id, public)
    ensures ServerMoved(routes, pc, l, routes', Idle, Delivered(l, Some(reply)))
  {
    var id := OpeningId(pc).value;
    var l' := Delivered(l, Some(reply));
    AnsweredFlight(pc, l, id, l, reply);
    QueuesStep(pc, l, false, routes', Idle, Some(reply));
    assert l.linkUp ==> reply in l'.down;
    FinishedRoutes(routes, pc, InFlightIds(pc, l), l, routes', reply, l');
  }

  lemma FinishedRoutes(
    routes: Routes, pc: Pc, f: seq<TunnelId>, l: Loop, routes': Routes, reply: ServerMsg, l': Loop)
    requires OpeningId(pc).Some? && ReplyId(reply) == [OpeningId(pc).value] && Active(pc)
    requires Ids(routes') <= Ids(routes) && Ids(routes) <= Ids(routes') + {OpeningId(pc).value}
    requires reply.Failure? ==> OpeningId(pc).value !in Ids(routes')
    requires forall id, public | id != OpeningId(pc).value :: Backs(routes, id, public) ==> Backs(routes', id, public)
    requires l.linkUp ==> reply in l'.down
    ensures RoutesMoved(routes, pc, f, l, routes', Idle, l')
  {
  }

  /** The close in progress ends: no route is left under its id. */
  lemma ClosedMoves(routes: Routes, pc: Pc, l: Loop, routes': Routes)
    requires Agree(routes, pc, l) && ClosingId(pc).Some?
    requires Ids(routes') == Ids(routes) - {ClosingId(pc).value}
    requires forall id, public | id != ClosingId(pc).value :: Backs(routes, id, public) ==> Backs(routes', id, public)
    ensures ServerMoved(routes, pc, l, routes', Idle, l)
  {
    assert InFlightIds(Idle, l) == InFlightIds(pc, l);
  }

  lemma UnregisteredMoves(routes: Routes, pc: Pc, l: Loop)
    requires Agree(routes, pc, l) && OpeningId(pc) == None && ClosingId(pc) == None
    ensures ServerMoved(routes, pc, l, map[], Gone, l)
  {
    assert InFlightIds(Gone, l) == InFlightIds(pc, l);
  }

  // ---- which open tunnels can still be closed by name ----

  /** Of this name at most one tunnel is open, the one the name leads to. */
  ghost predicate Named(l: Loop, name: string) {
    forall id <- l.ports | l.ports[id].name == name :: name in l.byName && l.byName[name] == id
  }

  /**
   * A grant leaves the name leading to all its open tunnels exactly when none was open under it yet; otherwise the
   * older one can no longer be closed. Other names are as before.
   */
  lemma GrantNamesExactlyWhen(l: Loop, id: TunnelId)
    requires ClientOk(l) && id in l.pending && Named(l, l.pending[id].name)
    ensures Named(Installed(l, id), l.pending[id].name) <==> l.pending[id].name !in l.byName
    ensures forall n: string | n != l.pending[id].name :: Named(Installed(l, id), n) <==> Named(l, n)
  {
    var l', name := Installed(l, id), l.pending[id].name;
    if name in l.byName {
      var older := l.byName[name];
      assert older in l'.ports && l'.ports[older].name == name && l'.byName[name] == id;
    }
    forall n: string | n != name
      ensures Named(l', n) <==> Named(l, n)
    {
      assert forall i | i in l.ports :: i != id && i in l'.ports && l'.ports[i] == l.ports[i];
    }
  }

  lemma ForgettingKeepsNames(l: Loop, gone: string, name: string)
    requires Named(l, name) && gone in l.byName && ClientOk(l)
    ensures Named(Forgotten(l, gone), name)
  {
  }
}
