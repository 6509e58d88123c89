/** The stored tunnel list (crates/cy-core/src/state.rs) and the commands that change it (engine.rs). */
module TunnelState {
  import opened Basics
  import opened Registry
  import opened ControlLoop
  import Naming

  datatype Entry = Entry(localPort: Port, enabled: bool, note: string, auth: Option<string>, customDomain: Option<string>)

  type Entries = map<string, Entry>

  const DEFAULT_ENTRY := Entry(0, true, "", None, None)

  function SpecOf(name: string, e: Entry): Spec {
    Spec(name, e.localPort, Http, e.auth, e.customDomain)
  }

  function Merged(e: Entry, spec: Spec, enabled: bool): Entry {
    Entry(spec.localPort, enabled, e.note,
          if spec.auth.Some? then spec.auth else e.auth,
          if spec.customDomain.Some? then spec.customDomain else e.customDomain)
  }

  function Upserted(t: Entries, spec: Spec, enabled: bool): Entries {
    t[spec.name := Merged(if spec.name in t then t[spec.name] else DEFAULT_ENTRY, spec, enabled)]
  }

  function WithEnabled(t: Entries, name: string, enabled: bool): Entries {
    if name in t then t[name := t[name].(enabled := enabled)] else t
  }

  function WithAuth(t: Entries, name: string, auth: Option<string>): Entries {
    if name in t then t[name := t[name].(auth := auth)] else t
  }

  function Removed(t: Entries, name: string): Entries {
    t - {name}
  }

  ghost predicate IsEnabled(t: Entries, name: string) {
    name in t && t[name].enabled
  }

  /** The specs a fresh connection reopens, by name. */
  function Reopened(t: Entries): map<string, Spec> {
    map name | name in t && t[name].enabled :: SpecOf(name, t[name])
  }

  /** `specs` lists exactly the enabled tunnels, in the order of their names. */
  ghost predicate ListsEnabled(t: Entries, specs: seq<Spec>) {
    && (forall i :: 0 <= i < |specs| ==> specs[i].name in Reopened(t) && Reopened(t)[specs[i].name] == specs[i])
    && (forall name <- Reopened(t) :: exists i :: 0 <= i < |specs| && specs[i].name == name)
    && (forall i, j :: 0 <= i < j < |specs| ==> Precedes(specs[i].name, specs[j].name))
  }

  /** `specs` lists the enabled tunnels outside `rest`, and `rest` comes after them. */
  ghost predicate ListedSoFar(t: Entries, specs: seq<Spec>, rest: set<string>) {
    && rest <= t.Keys
    && ListsEnabled(t - rest, specs)
    && forall i, n | 0 <= i < |specs| && n in rest :: Precedes(specs[i].name, n)
  }

  lemma ListsNext(t: Entries, specs: seq<Spec>, rest: set<string>, name: string)
    requires ListedSoFar(t, specs, rest) && IsLeast(rest, name)
    ensures ListedSoFar(t, if t[name].enabled then specs + [SpecOf(name, t[name])] else specs, rest - {name})
  {
    var specs' := if t[name].enabled then specs + [SpecOf(name, t[name])] else specs;
    var t' := t - (rest - {name});
    assert t' == (t - rest)[name := t[name]];
    forall other <- Reopened(t')
      ensures exists i :: 0 <= i < |specs'| && specs'[i].name == other
    {
      if other == name {
        assert specs'[|specs|].name == name;
      } else {
        assert other in Reopened(t - rest);
        var i :| 0 <= i < |specs| && specs[i].name == other;
        assert specs'[i] == specs[i];
      }
    }
  }

  class StateStore {
    var tunnels: Entries

    constructor ()
      ensures tunnels == map[]
    {
      tunnels := map[];
    }

    method UpsertTunnel(spec: Spec, enabled: bool) returns (effective: Spec)
      modifies this
      ensures tunnels == Upserted(old(tunnels), spec, enabled)
      ensures effective == SpecOf(spec.name, tunnels[spec.name])
      ensures tunnels - {spec.name} == old(tunnels) - {spec.name}
      ensures var before := if spec.name in old(tunnels) then old(tunnels)[spec.name] else Entry(0, true, "", None, None);
        tunnels[spec.name] == Entry(spec.localPort, enabled, before.note,
                                    if spec.auth.Some? then spec.auth else before.auth,
                                    if spec.customDomain.Some? then spec.customDomain else before.customDomain)
    {
      var entry := if spec.name in tunnels then tunnels[spec.name] else DEFAULT_ENTRY;
      entry := entry.(localPort := spec.localPort, enabled := enabled);
      if spec.auth.Some? {
        entry := entry.(auth := spec.auth);
      }
      if spec.customDomain.Some? {
        entry := entry.(customDomain := spec.customDomain);
      }
      tunnels := tunnels[spec.name := entry];
      effective := SpecOf(spec.name, entry);
    }

    method SetEnabled(name: string, enabled: bool)
      modifies this
      ensures tunnels == WithEnabled(old(tunnels), name, enabled)
    {
      if name in tunnels {
        tunnels := tunnels[name := tunnels[name].(enabled := enabled)];
      }
    }

    method SetAuth(name: string, auth: Option<string>) returns (known: bool)
      modifies this
      ensures known == (name in old(tunnels))
      ensures tunnels == WithAuth(old(tunnels), name, auth)
    {
      known := name in tunnels;
      if known {
        tunnels := tunnels[name := tunnels[name].(auth := auth)];
      }
    }

    method RemoveTunnel(name: string)
      modifies this
      ensures tunnels == Removed(old(tunnels), name)
    {
      tunnels := tunnels - {name};
    }

    method EnabledTunnels() returns (specs: seq<Spec>)
      ensures ListsEnabled(tunnels, specs)
    {
      specs := [];
      var rest := tunnels.Keys;
      while rest != {}
        invariant ListedSoFar(tunnels, specs, rest)
        decreases |rest|
      {
        ghost var least := LeastExists(rest);
        var name :| name in rest && forall n <- rest :: n == name || Precedes(name, n);
        ListsNext(tunnels, specs, rest, name);
        if tunnels[name].enabled {
          specs := specs + [SpecOf(name, tunnels[name])];
        }
        rest := rest - {name};
      }
      assert tunnels - rest == tunnels;
    }
  }

  // ---- commands ----

  datatype Command =
    | Login(server: string, token: string, pin: string)
    | Logout
    | AddTunnel(spec: Spec)
    | RemoveTunnel(name: string)
    | SetEnabled(name: string, enabled: bool)
    | SetAuth(name: string, auth: Option<string>)
    | Shutdown

  /** What is stored: where to connect, as whom, and the tunnels. */
  datatype Stored = Stored(server: string, token: string, pin: string, tunnels: Entries)

  /** The command handled while a session is up (engine.rs, session). */
  function HandledOnline(s: Stored, cmd: Command): Stored {
    match cmd
    case Shutdown => s
    case Logout => s.(token := "")
    case Login(server, token, pin) => s.(server := server).(token := token).(pin := pin)
    case AddTunnel(spec) =>
      if Naming.ValidateName(spec.name) != None then s
      else s.(tunnels := Upserted(s.tunnels, spec, true))
    case RemoveTunnel(name) => s.(tunnels := Removed(s.tunnels, name))
    case SetAuth(name, auth) => if name !in s.tunnels then s else s.(tunnels := WithAuth(s.tunnels, name, auth))
    case SetEnabled(name, enabled) => s.(tunnels := WithEnabled(s.tunnels, name, enabled))
  }

  /** The command handled between sessions (engine.rs, handle_offline_cmd). */
  function HandledOffline(s: Stored, cmd: Command): Stored {
    match cmd
    case Shutdown => s
    case Login(server, token, pin) => s.(server := server, token := token, pin := pin)
    case Logout => s.(token := "")
    case AddTunnel(spec) =>
      (match Naming.ValidateName(spec.name)
       case None => s.(tunnels := Upserted(s.tunnels, spec, true))
       case Some(_) => s)
    case RemoveTunnel(name) => s.(tunnels := Removed(s.tunnels, name))
    case SetEnabled(name, enabled) => s.(tunnels := WithEnabled(s.tunnels, name, enabled))
    case SetAuth(name, auth) => if name in s.tunnels then s.(tunnels := WithAuth(s.tunnels, name, auth)) else s
  }

  /** A command and whether a session was up when it was handled. */
  datatype Handled = Handled(cmd: Command, online: bool)

  function Replayed(s: Stored, log: seq<Handled>): Stored
    decreases |log|
  {
    if log == [] then s
    else
      var before := Replayed(s, log[..|log| - 1]);
      var h := log[|log| - 1];
      if h.online then HandledOnline(before, h.cmd) else HandledOffline(before, h.cmd)
  }

  function AllOffline(log: seq<Handled>): seq<Handled> {
    seq(|log|, i requires 0 <= i < |log| => log[i].(online := false))
  }

  /** Where the commands were handled makes no difference to what is stored. */
  lemma {:induction false} OnlineOrOfflineIsTheSame(s: Stored, log: seq<Handled>)
    ensures Replayed(s, log) == Replayed(s, AllOffline(log))
    decreases |log|
  {
    if log != [] {
      var n := |log| - 1;
      OnlineOrOfflineIsTheSame(s, log[..n]);
      assert AllOffline(log)[..n] == AllOffline(log[..n]);
    }
  }

  // ---- what the stored tunnels are, read off the log directly ----

  predicate Adds(cmd: Command, name: string) {
    cmd.AddTunnel? && cmd.spec.name == name && Naming.ValidateName(name) == None
  }

  function Last(log: seq<Handled>): Command
    requires log != []
  {
    log[|log| - 1].cmd
  }

  function Before(log: seq<Handled>): seq<Handled>
    requires log != []
  {
    log[..|log| - 1]
  }

  /** Added, and not deleted since. */
  predicate Configured(log: seq<Handled>, name: string)
    decreases |log|
  {
    log != [] &&
    if Last(log) == RemoveTunnel(name) then false
    else Adds(Last(log), name) || Configured(Before(log), name)
  }

  /** The port given by the last addition. */
  function LastPort(log: seq<Handled>, name: string): Port
    requires Configured(log, name)
    decreases |log|
  {
    if Adds(Last(log), name) then Last(log).spec.localPort else LastPort(Before(log), name)
  }

  /** Switched on by the last addition or switch. */
  predicate LastSwitchedOn(log: seq<Handled>, name: string)
    requires Configured(log, name)
    decreases |log|
  {
    if Adds(Last(log), name) then true
    else if Last(log).SetEnabled? && Last(log).name == name then Last(log).enabled
    else LastSwitchedOn(Before(log), name)
  }

  /** The last password given or taken away since the tunnel was last deleted. */
  function LastAuth(log: seq<Handled>, name: string): Option<string>
    decreases |log|
  {
    if !Configured(log, name) then None
    else if Adds(Last(log), name) && Last(log).spec.auth.Some? then Last(log).spec.auth
    else if Last(log).SetAuth? && Last(log).name == name then Last(log).auth
    else LastAuth(Before(log), name)
  }

  function LastDomain(log: seq<Handled>, name: string): Option<string>
    decreases |log|
  {
    if !Configured(log, name) then None
    else if Adds(Last(log), name) && Last(log).spec.customDomain.Some? then Last(log).spec.customDomain
    else LastDomain(Before(log), name)
  }

  /** The stored entry of a name is exactly what the log says about it. */
  lemma {:induction false} StoredIsWhatWasSaid(s: Stored, log: seq<Handled>, name: string)
    requires s.tunnels == map[]
    ensures name in Replayed(s, log).tunnels <==> Configured(log, name)
    ensures Configured(log, name) ==>
      var e := Replayed(s, log).tunnels[name];
      && e.localPort == LastPort(log, name)
      && e.enabled == LastSwitchedOn(log, name)
      && e.auth == LastAuth(log, name)
      && e.customDomain == LastDomain(log, name)
    decreases |log|
  {
    if log != [] {
      StoredIsWhatWasSaid(s, Before(log), name);
    }
  }

  /** What the last login gave and no later logout took away. */
  function LastLogin(s: Stored, log: seq<Handled>): (string, string, string)
    decreases |log|
  {
    if log == [] then (s.server, s.token, s.pin)
    else
      var (server, token, pin) := LastLogin(s, Before(log));
      match Last(log)
      case Login(server', token', pin') => (server', token', pin')
      case Logout => (server, "", pin)
      case _ => (server, token, pin)
  }

  /** The stored credentials are those of the last login; a logout forgets the token and nothing else. */
  lemma {:induction false} CredentialsAreTheLast(s: Stored, log: seq<Handled>)
    ensures var r := Replayed(s, log); (r.server, r.token, r.pin) == LastLogin(s, log)
    decreases |log|
  {
    if log != [] {
      CredentialsAreTheLast(s, Before(log));
    }
  }

  /** A reconnect reopens exactly the tunnels last switched on, each as last described. */
  lemma ReconnectReopensWhatWasOn(s: Stored, log: seq<Handled>, name: string)
    requires s.tunnels == map[]
    ensures name in Reopened(Replayed(s, log).tunnels) <==> Configured(log, name) && LastSwitchedOn(log, name)
    ensures name in Reopened(Replayed(s, log).tunnels) ==>
      Reopened(Replayed(s, log).tunnels)[name] ==
      Spec(name, LastPort(log, name), Http, LastAuth(log, name), LastDomain(log, name))
  {
    StoredIsWhatWasSaid(s, log, name);
  }
}
