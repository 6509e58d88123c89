/** What the engine keeps, over whole histories: the stored tunnels are the commands given, and nothing else. */
module EngineHistory {
  import opened ControlLoop
  import opened ServerMachine
  import opened Engine
  import opened Registry
  import S = TunnelState

  function LogOf(a: Action): seq<S.Handled> {
    match a
    case Handle(cmd) => [S.Handled(cmd, true)]
    case HandleOffline(cmd) => [S.Handled(cmd, false)]
    case _ => []
  }

  /** The commands among the actions, with where each was handled. */
  function CommandLog(actions: seq<Action>): seq<S.Handled> {
    if actions == [] then [] else LogOf(actions[0]) + CommandLog(actions[1..])
  }

  function OneHandled(s: S.Stored, h: S.Handled): S.Stored {
    if h.online then S.HandledOnline(s, h.cmd) else S.HandledOffline(s, h.cmd)
  }

  lemma {:induction false} ReplayedFromFront(s: S.Stored, h: S.Handled, log: seq<S.Handled>)
    ensures S.Replayed(s, [h] + log) == S.Replayed(OneHandled(s, h), log)
    decreases |log|
  {
    var all := [h] + log;
    if log == [] {
      assert all[..0] == [];
    } else {
      assert all[..|all| - 1] == [h] + log[..|log| - 1];
      ReplayedFromFront(s, h, log[..|log| - 1]);
    }
  }

  /** The engine's handling of a command, up or down, changes the stored tunnels as the state file's rules say. */
  lemma CommandsStoreByTheRules(w: World, cmd: S.Command, s: S.Stored)
    requires s.tunnels == w.eng.tunnels
    ensures Attached(w) ==> Handling(w, cmd).eng.tunnels == S.HandledOnline(s, cmd).tunnels
    ensures HandlingOffline(w.eng, cmd).tunnels == S.HandledOffline(s, cmd).tunnels
  {
  }

  /** No other action touches them. */
  lemma OnlyCommandsStore(cfg: Config, w: World, a: Action)
    requires Possible(w, a) && !a.Handle? && !a.HandleOffline?
    ensures Acted(cfg, w, a).eng.tunnels == w.eng.tunnels
  {
  }

  /** The log's first action, replayed. */
  lemma OneActionStored(cfg: Config, w: World, a: Action, s: S.Stored, rest: seq<S.Handled>) returns (s': S.Stored)
    requires Possible(w, a) && s.tunnels == w.eng.tunnels
    ensures s'.tunnels == Acted(cfg, w, a).eng.tunnels
    ensures S.Replayed(s, LogOf(a) + rest) == S.Replayed(s', rest)
  {
    match a
    case Handle(cmd) =>
      CommandsStoreByTheRules(w, cmd, s);
      s' := S.HandledOnline(s, cmd);
      ReplayedFromFront(s, S.Handled(cmd, true), rest);
    case HandleOffline(cmd) =>
      CommandsStoreByTheRules(w, cmd, s);
      s' := S.HandledOffline(s, cmd);
      ReplayedFromFront(s, S.Handled(cmd, false), rest);
    case _ =>
      OnlyCommandsStore(cfg, w, a);
      s' := s;
      assert [] + rest == rest;
  }

  /** On every history, whatever the network and the server did, the stored tunnels are the replayed commands. */
  lemma {:induction false} StoredIsReplayed(cfg: Config, w: World, actions: seq<Action>, s: S.Stored)
    requires Possibly(cfg, w, actions) && s.tunnels == w.eng.tunnels
    ensures Later(cfg, w, actions).eng.tunnels == S.Replayed(s, CommandLog(actions)).tunnels
    decreases |actions|
  {
    if actions != [] {
      var s' := OneActionStored(cfg, w, actions[0], s, CommandLog(actions[1..]));
      StoredIsReplayed(cfg, Acted(cfg, w, actions[0]), actions[1..], s');
    }
  }

  /**
   * What a new connection reopens, after any history of commands, sessions and failures: exactly the tunnels
   * last switched on, each with its last port and the last password set since it was last deleted.
   */
  lemma ReconnectReopens(
    cfg: Config, actions: seq<Action>, sid: SessionId, specs: seq<Spec>, heartbeatSecs: nat, name: string)
    requires Possibly(cfg, Initially(map[]), actions)
    requires Possible(Later(cfg, Initially(map[]), actions), Attach(sid, specs, heartbeatSecs))
    ensures var log := CommandLog(actions);
      && ((exists i :: 0 <= i < |specs| && specs[i].name == name) <==> S.Configured(log, name) && S.LastSwitchedOn(log, name))
      && (forall i :: 0 <= i < |specs| && specs[i].name == name ==>
            S.Configured(log, name) &&
            specs[i] == Spec(name, S.LastPort(log, name), Http, S.LastAuth(log, name), S.LastDomain(log, name)))
  {
    var s := S.Stored("", "", "", map[]);
    StoredIsReplayed(cfg, Initially(map[]), actions, s);
    S.ReconnectReopensWhatWasOn(s, CommandLog(actions), name);
  }
}
