/** A row says that it is waiting for its name exactly when a retry is booked (crates/cy-core/src/engine.rs). */
module EngineRetries {
  import opened Basics
  import opened Registry
  import opened ControlLoop
  import opened ServerMachine
  import opened StatusBoard
  import opened Engine
  import P = EngineProofs
  import S = TunnelState
  import R = TakenRetries
  import Naming

  ghost predicate ToReopen(jobs: seq<Job>, name: string) {
    exists j <- jobs :: j.Reopen? && j.spec.name == name
  }

  /** The row tells the user that the name is taken and will be tried again on its own. */
  predicate SaysWaiting(rows: Rows, name: string) {
    name in rows && rows[name].enabled && rows[name].error == Some(WaitingForName)
  }

  ghost predicate NameBooked(e: Engine, name: string) {
    name in e.taken.pending <==> SaysWaiting(e.rows, name)
  }

  /** Rows are of tunnels, switched on only with them; an error leaves no address; work is for enabled tunnels. */
  ghost predicate RowsFollow(e: Engine) {
    && e.rows.Keys <= e.tunnels.Keys
    && (forall n <- e.rows | e.rows[n].enabled :: S.IsEnabled(e.tunnels, n))
    && (forall n <- e.rows | e.rows[n].error.Some? :: e.rows[n].url == None)
    && (e.session == None ==> AtRest(e))
    && P.WorkWanted(e)
  }

  ghost predicate BookedBut(e: Engine, but: set<string>) {
    forall n: string | n !in but && !P.Awaits(e.waiting, n) && !ToReopen(e.jobs, n) :: NameBooked(e, n)
  }

  ghost predicate Booked(e: Engine) {
    RowsFollow(e) && (e.session.Some? ==> BookedBut(e, {}))
  }

  // ---- the engine's steps, as far as rows and retries go ----

  /** An open call for a name: the rest is as it was in `e`, and only that name's books may be out of step there. */
  lemma OpenKeepsBooked(e: Engine, wait: Wait)
    requires RowsFollow(e) && e.session.Some? && BookedBut(e, {wait.spec.name}) && e.waiting == None
    requires S.IsEnabled(e.tunnels, wait.spec.name)
    ensures Booked(e.(waiting := Some(wait)))
  {
  }

  lemma DetachKeepsBooked(e: Engine)
    requires Booked(e)
    ensures Booked(Detached(e))
  {
  }

  lemma ResumeKeepsBooked(e: Engine, answer: Answer, now: R.Time)
    requires Booked(e) && e.session.Some? && e.waiting.Some?
    ensures Booked(Resumed(e, answer, now))
  {
    var name, e' := e.waiting.value.spec.name, Resumed(e, answer, now);
    P.AnswersAreShown(e, answer, now);
    forall n <- e'.rows
      ensures e'.rows[n].enabled ==> S.IsEnabled(e'.tunnels, n)
      ensures e'.rows[n].error.Some? ==> e'.rows[n].url == None
    {
      if n != name {
        SameElsewhere(e.rows, e'.rows, name, n);
      }
    }
    forall n: string | !P.Awaits(e'.waiting, n) && !ToReopen(e'.jobs, n)
      ensures NameBooked(e', n)
    {
      if n != name {
        SameElsewhere(e.rows, e'.rows, name, n);
        SameElsewhere(e.taken.pending, e'.taken.pending, name, n);
        assert NameBooked(e, n);
      }
    }
  }

  lemma SameElsewhere<V>(a: map<string, V>, b: map<string, V>, name: string, n: string)
    requires a - {name} == b - {name} && n != name
    ensures n in a <==> n in b
    ensures n in a ==> a[n] == b[n]
  {
    assert n in a <==> n in a - {name};
    assert n in b <==> n in b - {name};
  }

  lemma OfflineKeepsBooked(e: Engine, cmd: S.Command)
    requires Booked(e) && e.session == None
    ensures Booked(HandlingOffline(e, cmd))
  {
  }

  lemma AttachKeepsBooked(e: Engine, sid: SessionId, specs: seq<Spec>, h: nat)
    requires Booked(e) && e.session == None && S.ListsEnabled(e.tunnels, specs)
    ensures var jobs := seq(|specs|, i requires 0 <= i < |specs| => Reopen(specs[i]));
      Booked(e.(session := Some(sid), taken := R.Fresh(h), jobs := jobs))
  {
    var jobs := seq(|specs|, i requires 0 <= i < |specs| => Reopen(specs[i]));
    var e' := e.(session := Some(sid), taken := R.Fresh(h), jobs := jobs);
    forall n: string | !P.Awaits(e'.waiting, n) && !ToReopen(jobs, n)
      ensures NameBooked(e', n)
    {
      if S.IsEnabled(e.tunnels, n) {
        EnabledAreQueued(e.tunnels, specs, n);
        assert false;
      }
    }
  }

  lemma EnabledAreQueued(t: S.Entries, specs: seq<Spec>, name: string)
    requires S.ListsEnabled(t, specs) && S.IsEnabled(t, name)
    ensures ToReopen(seq(|specs|, i requires 0 <= i < |specs| => Reopen(specs[i])), name)
  {
    var jobs := seq(|specs|, i requires 0 <= i < |specs| => Reopen(specs[i]));
    assert name in S.Reopened(t);
    var i :| 0 <= i < |specs| && specs[i].name == name;
    assert jobs[i] in jobs;
  }

  lemma TickKeepsBooked(e: Engine, jobs: seq<Job>)
    requires Booked(e) && AtRest(e) && e.session.Some? && forall j <- jobs :: j.Retry?
    ensures Booked(e.(jobs := jobs))
  {
    forall n: string
      ensures !ToReopen(jobs, n) && !ToReopen(e.jobs, n)
    {
    }
  }

  lemma WorkKeepsBooked(w: World)
    requires Attached(w) && Booked(w.eng) && w.eng.waiting == None && w.eng.jobs != []
    ensures Booked(Working(w).eng)
  {
    var job := w.eng.jobs[0];
    var e := w.eng.(jobs := w.eng.jobs[1..]);
    var name := if job.Reopen? then job.spec.name else job.name;
    assert job in w.eng.jobs && forall j <- e.jobs :: j in w.eng.jobs;
    forall n: string | n != name && !ToReopen(e.jobs, n)
      ensures NameBooked(e, n)
    {
      assert forall j <- w.eng.jobs :: j == job || j in e.jobs;
      assert !ToReopen(w.eng.jobs, n);
      assert NameBooked(w.eng, n);
    }
    match job
    case Reopen(spec) =>
      OpenKeepsBooked(e, Working(w).eng.waiting.value);
    case Retry(_) =>
      if S.IsEnabled(e.tunnels, name) {
        OpenKeepsBooked(e, Working(w).eng.waiting.value);
      } else {
        ForgetKeepsBooked(e, name);
      }
  }

  lemma ForgetKeepsBooked(e: Engine, name: string)
    requires RowsFollow(e) && e.session.Some? && BookedBut(e, {name}) && e.waiting == None
    requires !SaysWaiting(e.rows, name)
    ensures Booked(e.(taken := R.Forgotten(e.taken, name)))
  {
    var e' := e.(taken := R.Forgotten(e.taken, name));
    forall n: string | !ToReopen(e'.jobs, n)
      ensures NameBooked(e', n)
    {
      assert n != name ==> NameBooked(e, n);
    }
  }

  // ---- commands while the session is up ----

  lemma AddKeepsBooked(w: World, spec: Spec)
    requires Attached(w) && Booked(w.eng) && AtRest(w.eng)
    ensures Booked(Adding(w, spec).eng)
  {
    if Naming.ValidateName(spec.name) == None {
      var e := w.eng.(tunnels := S.Upserted(w.eng.tunnels, spec, true));
      assert forall n: string :: NameBooked(w.eng, n) <==> NameBooked(e, n);
      assert Booked(e);
      if Adding(w, spec).eng.waiting.Some? {
        OpenKeepsBooked(e, Adding(w, spec).eng.waiting.value);
      }
    }
  }

  lemma RemoveKeepsBooked(w: World, name: string)
    requires Attached(w) && Booked(w.eng) && AtRest(w.eng)
    ensures Booked(Removing(w, name).eng)
  {
    var e := Removing(w, name).eng;
    forall n: string
      ensures NameBooked(e, n)
    {
      assert NameBooked(w.eng, n);
    }
  }

  lemma RekeyKeepsBooked(w: World, name: string, auth: Option<string>)
    requires Attached(w) && Booked(w.eng) && AtRest(w.eng)
    ensures Booked(Rekeying(w, name, auth).eng)
  {
    if name in w.eng.tunnels {
      var e := w.eng.(tunnels := S.WithAuth(w.eng.tunnels, name, auth));
      assert forall n: string :: NameBooked(w.eng, n) <==> NameBooked(e, n);
      assert Booked(e);
      if e.tunnels[name].enabled {
        OpenKeepsBooked(e, Rekeying(w, name, auth).eng.waiting.value);
      } else {
        var e' := e.(rows := WithGuard(e.rows, name, auth.Some?));
        assert forall n: string :: NameBooked(e', n) <==> NameBooked(e, n);
      }
    }
  }

  lemma SwitchKeepsBooked(w: World, name: string, enabled: bool)
    requires Attached(w) && Booked(w.eng) && AtRest(w.eng)
    ensures Booked(Switching(w, name, enabled).eng)
  {
    var e := w.eng.(tunnels := S.WithEnabled(w.eng.tunnels, name, enabled));
    assert forall n: string :: NameBooked(w.eng, n) <==> NameBooked(e, n);
    if enabled {
      assert Booked(e);
      if name in e.tunnels {
        OpenKeepsBooked(e, Switching(w, name, enabled).eng.waiting.value);
      }
    } else {
      var e' := e.(rows := SwitchedOff(e.rows, name));
      assert RowsFollow(e');
      assert forall n: string | n != name :: NameBooked(e', n) <==> NameBooked(e, n);
      ForgetKeepsBooked(e', name);
    }
  }

  lemma CommandKeepsBooked(w: World, cmd: S.Command)
    requires Attached(w) && Booked(w.eng) && AtRest(w.eng)
    ensures Booked(Handling(w, cmd).eng)
  {
    match cmd
    case AddTunnel(spec) => AddKeepsBooked(w, spec);
    case RemoveTunnel(name) => RemoveKeepsBooked(w, name);
    case SetAuth(name, auth) => RekeyKeepsBooked(w, name, auth);
    case SetEnabled(name, enabled) => SwitchKeepsBooked(w, name, enabled);
    case Login(_, _, _) => DetachKeepsBooked(w.eng);
    case Logout => DetachKeepsBooked(w.eng);
    case Shutdown => DetachKeepsBooked(w.eng);
  }

  // ---- every action, every history ----

  lemma BookedLasts(cfg: Config, w: World, a: Action)
    requires Booked(w.eng) && Possible(w, a)
    ensures Booked(Acted(cfg, w, a).eng)
  {
    match a
    case Background(_) =>
    case Attach(sid, specs, h) => AttachKeepsBooked(w.eng, sid, specs, h);
    case Handle(cmd) => CommandKeepsBooked(w, cmd);
    case HandleOffline(cmd) => OfflineKeepsBooked(w.eng, cmd);
    case NextJob => WorkKeepsBooked(w);
    case Resume(now) => ResumeKeepsBooked(w.eng, Line(w).calls.answers[w.eng.waiting.value.ticket], now);
    case TimerTick(_, due) =>
      if Line(w).loop.running {
        TickKeepsBooked(w.eng, Ticking(w, due).eng.jobs);
      } else {
        DetachKeepsBooked(w.eng);
      }
    case LinkLost => DetachKeepsBooked(w.eng);
  }

  lemma {:induction false} BookedAlways(cfg: Config, w: World, actions: seq<Action>)
    requires Booked(w.eng) && Possibly(cfg, w, actions)
    ensures Booked(Later(cfg, w, actions).eng)
    decreases |actions|
  {
    if actions != [] {
      BookedLasts(cfg, w, actions[0]);
      BookedAlways(cfg, Acted(cfg, w, actions[0]), actions[1..]);
    }
  }

  /**
   * After any history, while a session is up: a name that is not being opened and not queued to be reopened has
   * a retry booked exactly when its row is switched on and says that it waits for the name; and then its tunnel
   * is configured and switched on and the row shows no address.
   */
  lemma WaitingRowsAreRetried(cfg: Config, w: World, name: string)
    requires P.Lived(cfg, w) && w.eng.session.Some?
    requires !P.Awaits(w.eng.waiting, name) && !ToReopen(w.eng.jobs, name)
    ensures name in w.eng.taken.pending <==> SaysWaiting(w.eng.rows, name)
    ensures name in w.eng.taken.pending ==> S.IsEnabled(w.eng.tunnels, name) && w.eng.rows[name].url == None
  {
    var tunnels, actions :|
      Possibly(cfg, Initially(tunnels), actions) && Later(cfg, Initially(tunnels), actions) == w;
    assert Booked(Initially(tunnels).eng);
    BookedAlways(cfg, Initially(tunnels), actions);
    assert NameBooked(w.eng, name);
  }
}
