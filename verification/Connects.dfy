/** Local ports mapped to other people's tunnels (crates/cy-core/src/engine.rs, add_connect and remove_connect). */
module Connects {
  import opened Basics

  datatype ConnectSpec = ConnectSpec(localPort: Port, from: string, auth: Option<string>)

  /** What starting a connect came to, and the upstream shown for it either way. */
  datatype Start = Up(upstream: string) | Down(upstream: string, error: string)

  datatype Active = Active(spec: ConnectSpec, upstream: string)

  datatype Shown = Shown(localPort: Port, from: string, upstream: string, running: bool, error: Option<string>)

  datatype View = View(active: seq<Active>, shown: seq<Shown>, stopped: seq<Active>)

  function ShownFor(spec: ConnectSpec, s: Start): Shown {
    match s
    case Up(upstream) => Shown(spec.localPort, spec.from, upstream, true, None)
    case Down(upstream, error) => Shown(spec.localPort, spec.from, upstream, false, Some(error))
  }

  function ActiveOn(active: seq<Active>, port: Port): seq<Active> {
    if active == [] then []
    else if active[0].spec.localPort == port then [active[0]] + ActiveOn(active[1..], port)
    else ActiveOn(active[1..], port)
  }

  function ActiveElsewhere(active: seq<Active>, port: Port): seq<Active> {
    if active == [] then []
    else if active[0].spec.localPort == port then ActiveElsewhere(active[1..], port)
    else [active[0]] + ActiveElsewhere(active[1..], port)
  }

  function ShownOn(shown: seq<Shown>, port: Port): seq<Shown> {
    if shown == [] then []
    else if shown[0].localPort == port then [shown[0]] + ShownOn(shown[1..], port)
    else ShownOn(shown[1..], port)
  }

  function ShownElsewhere(shown: seq<Shown>, port: Port): seq<Shown> {
    if shown == [] then []
    else if shown[0].localPort == port then ShownElsewhere(shown[1..], port)
    else [shown[0]] + ShownElsewhere(shown[1..], port)
  }

  function Removed(v: View, port: Port): View {
    View(ActiveElsewhere(v.active, port), ShownElsewhere(v.shown, port), v.stopped + ActiveOn(v.active, port))
  }

  function Added(v: View, spec: ConnectSpec, s: Start): View {
    var r := Removed(v, spec.localPort);
    r.(active := r.active + (if s.Up? then [Active(spec, s.upstream)] else []), shown := r.shown + [ShownFor(spec, s)])
  }

  class Connects {
    var active: seq<Active>
    var shown: seq<Shown>
    /** Connects whose listener was told to stop and has let go of its port. */
    var stopped: seq<Active>

    ghost function Contents(): View
      reads this
    {
      View(active, shown, stopped)
    }

    constructor ()
      ensures Contents() == View([], [], [])
    {
      active, shown, stopped := [], [], [];
    }

    /** Stops and drops the connects on a port, one at a time, then clears the status of that port. */
    method RemoveConnect(port: Port)
      modifies this
      ensures Contents() == Removed(old(Contents()), port)
    {
      var i := 0;
      while i < |active|
        invariant i <= |active|
        invariant active[..i] + ActiveElsewhere(active[i..], port) == ActiveElsewhere(old(active), port)
        invariant stopped + ActiveOn(active[i..], port) == old(stopped) + ActiveOn(old(active), port)
        invariant shown == old(shown)
        decreases |active| - i
      {
        ghost var rest := active[i..];
        if active[i].spec.localPort == port {
          stopped := stopped + [active[i]];
          active := active[..i] + active[i + 1..];
          assert active[i..] == rest[1..];
        } else {
          i := i + 1;
          assert active[i..] == rest[1..];
        }
      }
      assert active[..i] == active;
      RetainShown(port);
    }

    method RetainShown(port: Port)
      modifies this`shown
      ensures shown == ShownElsewhere(old(shown), port)
    {
      var kept, i := [], |shown|;
      while i > 0
        invariant 0 <= i <= |shown| && kept == ShownElsewhere(shown[i..], port)
      {
        i := i - 1;
        assert shown[i..][1..] == shown[i + 1..];
        if shown[i].localPort != port {
          kept := [shown[i]] + kept;
        }
      }
      assert shown[0..] == shown;
      shown := kept;
    }

    /** A later connect on the same port takes the place of the earlier one, whether it starts or not. */
    method AddConnect(spec: ConnectSpec, s: Start) returns (r: Result<string, string>)
      modifies this
      ensures Contents() == Added(old(Contents()), spec, s)
      ensures r == if s.Up? then Ok(s.upstream) else Err(s.error)
    {
      RemoveConnect(spec.localPort);
      match s
      case Up(upstream) =>
        active := active + [Active(spec, upstream)];
        shown := shown + [Shown(spec.localPort, spec.from, upstream, true, None)];
        r := Ok(upstream);
      case Down(upstream, error) =>
        shown := shown + [Shown(spec.localPort, spec.from, upstream, false, Some(error))];
        r := Err(error);
    }
  }

  // ---- against the history ----

  datatype History =
    | Nothing
    | Adding(before: History, spec: ConnectSpec, outcome: Start)
    | Removing(before: History, port: Port)

  function After(h: History): View {
    match h
    case Nothing => View([], [], [])
    case Adding(before, spec, s) => Added(After(before), spec, s)
    case Removing(before, port) => Removed(After(before), port)
  }

  datatype Attempt = Attempt(spec: ConnectSpec, outcome: Start)

  /** The last thing said about a port: nothing, removed, or added with this outcome. */
  function LastOn(h: History, port: Port): Option<Attempt> {
    match h
    case Nothing => None
    case Adding(before, spec, s) => if spec.localPort == port then Some(Attempt(spec, s)) else LastOn(before, port)
    case Removing(before, p) => if p == port then None else LastOn(before, port)
  }

  /** Every listener that ever started, in order. */
  function Started(h: History): multiset<Active> {
    match h
    case Nothing => multiset{}
    case Adding(before, spec, s) => Started(before) + if s.Up? then multiset{Active(spec, s.upstream)} else multiset{}
    case Removing(before, _) => Started(before)
  }

  lemma {:induction false} ActiveAppend(a: seq<Active>, x: Active, port: Port)
    ensures ActiveOn(a + [x], port) == ActiveOn(a, port) + if x.spec.localPort == port then [x] else []
  {
    if a == [] {
      assert a + [x] == [x];
      assert ActiveOn([x][1..], port) == [];
    } else {
      assert (a + [x])[1..] == a[1..] + [x];
      ActiveAppend(a[1..], x, port);
    }
  }

  lemma {:induction false} ShownAppend(a: seq<Shown>, x: Shown, port: Port)
    ensures ShownOn(a + [x], port) == ShownOn(a, port) + if x.localPort == port then [x] else []
  {
    if a == [] {
      assert a + [x] == [x];
      assert ShownOn([x][1..], port) == [];
    } else {
      assert (a + [x])[1..] == a[1..] + [x];
      ShownAppend(a[1..], x, port);
    }
  }

  lemma {:induction false} ActiveSplit(a: seq<Active>, port: Port, other: Port)
    ensures ActiveOn(ActiveElsewhere(a, port), other) == if other == port then [] else ActiveOn(a, other)
    ensures multiset(ActiveOn(a, port)) + multiset(ActiveElsewhere(a, port)) == multiset(a)
  {
    if a != [] {
      ActiveSplit(a[1..], port, other);
      assert a == [a[0]] + a[1..];
      var rest := ActiveElsewhere(a[1..], port);
      assert ([a[0]] + rest)[1..] == rest;
    }
  }

  lemma {:induction false} ShownSplit(a: seq<Shown>, port: Port, other: Port)
    ensures ShownOn(ShownElsewhere(a, port), other) == if other == port then [] else ShownOn(a, other)
  {
    if a != [] {
      ShownSplit(a[1..], port, other);
      var rest := ShownElsewhere(a[1..], port);
      assert ([a[0]] + rest)[1..] == rest;
    }
  }

  /** What is shown and what runs on one port, given the last thing said about it. */
  ghost predicate PortTells(v: View, port: Port, last: Option<Attempt>) {
    match last
    case None => ShownOn(v.shown, port) == [] && ActiveOn(v.active, port) == []
    case Some(a) =>
      && ShownOn(v.shown, port) ==
           [Shown(a.spec.localPort, a.spec.from, a.outcome.upstream, a.outcome.Up?,
                  if a.outcome.Up? then None else Some(a.outcome.error))]
      && ActiveOn(v.active, port) == if a.outcome.Up? then [Active(a.spec, a.outcome.upstream)] else []
  }

  lemma RemovedTells(v: View, port: Port, other: Port, last: Option<Attempt>)
    requires PortTells(v, other, last)
    ensures PortTells(Removed(v, port), other, if other == port then None else last)
  {
    ActiveSplit(v.active, port, other);
    ShownSplit(v.shown, port, other);
  }

  lemma AddedTells(v: View, spec: ConnectSpec, s: Start, other: Port, last: Option<Attempt>)
    requires PortTells(v, other, last)
    ensures PortTells(Added(v, spec, s), other, if other == spec.localPort then Some(Attempt(spec, s)) else last)
  {
    RemovedTells(v, spec.localPort, other, last);
    var r := Removed(v, spec.localPort);
    ShownAppend(r.shown, ShownFor(spec, s), other);
    if s.Up? {
      ActiveAppend(r.active, Active(spec, s.upstream), other);
    } else {
      assert r.active + [] == r.active;
    }
  }

  /**
   * After any mix of adding and removing, each local port shows at most one entry, namely the outcome of the
   * last thing said about it, and a listener runs there exactly when that entry says it does.
   */
  lemma {:induction false} EachPortTellsItsLast(h: History, port: Port)
    ensures PortTells(After(h), port, LastOn(h, port))
  {
    match h
    case Nothing =>
    case Adding(before, spec, s) =>
      EachPortTellsItsLast(before, port);
      AddedTells(After(before), spec, s, port, LastOn(before, port));
    case Removing(before, p) =>
      EachPortTellsItsLast(before, port);
      RemovedTells(After(before), p, port, LastOn(before, port));
  }

  /** No listener is lost: every one that started is still active or was stopped, and only once. */
  lemma {:induction false} ListenersAreConserved(h: History)
    ensures multiset(After(h).active) + multiset(After(h).stopped) == Started(h)
  {
    match h
    case Nothing =>
    case Adding(before, spec, s) =>
      ListenersAreConserved(before);
      ActiveSplit(After(before).active, spec.localPort, spec.localPort);
    case Removing(before, p) =>
      ListenersAreConserved(before);
      ActiveSplit(After(before).active, p, p);
  }
}
