/** Retrying names that are still held by an earlier connection (crates/cy-core/src/engine.rs, TakenRetries). */
module TakenRetries {
  import opened Basics
  import opened ControlMessages

  /** Milliseconds on the client's monotone clock. */
  type Time = nat

  const TAKEN_RETRY_EVERY: Time := 3000
  const TAKEN_RETRY_HEARTBEATS: nat := 6

  datatype Retry = Retry(giveUpAt: Time, nextAt: Time)

  datatype Verdict = Done | Retrying(first: bool) | GaveUp

  datatype Taken = Taken(window: Time, every: Time, pending: map<string, Retry>)

  function Heartbeat(secs: nat): Time {
    1000 * (if secs < 1 then 1 else secs)
  }

  function Fresh(heartbeatSecs: nat): Taken {
    var h := Heartbeat(heartbeatSecs);
    Taken(TAKEN_RETRY_HEARTBEATS * h, if TAKEN_RETRY_EVERY < h then TAKEN_RETRY_EVERY else h, map[])
  }

  /** The result of an open: none, or the server's code, or a local failure without one. */
  predicate IsTaken(result: Result<(), Option<Code>>) {
    result == Err(Some(CodeTaken))
  }

  function Recorded(t: Taken, name: string, result: Result<(), Option<Code>>, now: Time): (Taken, Verdict) {
    if !IsTaken(result) then (t.(pending := t.pending - {name}), Done)
    else
      var giveUpAt := if name in t.pending then t.pending[name].giveUpAt else now + t.window;
      if now >= giveUpAt then (t.(pending := t.pending - {name}), GaveUp)
      else (t.(pending := t.pending[name := Retry(giveUpAt, now + t.every)]), Retrying(name !in t.pending))
  }

  function Due(t: Taken, now: Time): set<string> {
    set name | name in t.pending && t.pending[name].nextAt <= now
  }

  function Forgotten(t: Taken, name: string): Taken {
    t.(pending := t.pending - {name})
  }

  class TakenRetries {
    const window: Time
    const every: Time
    var pending: map<string, Retry>

    ghost function View(): Taken
      reads this
    {
      Taken(window, every, pending)
    }

    constructor (heartbeatSecs: nat)
      ensures View() == Fresh(heartbeatSecs)
      ensures pending == map[]
      ensures heartbeatSecs >= 1 ==> window == 6 * 1000 * heartbeatSecs
      ensures heartbeatSecs >= 3 ==> every == 3000
      ensures 1 <= heartbeatSecs < 3 ==> every == 1000 * heartbeatSecs
      ensures heartbeatSecs == 0 ==> window == 6000 && every == 1000
    {
      var h := 1000 * (if heartbeatSecs < 1 then 1 else heartbeatSecs);
      window := h * TAKEN_RETRY_HEARTBEATS;
      every := if TAKEN_RETRY_EVERY < h then TAKEN_RETRY_EVERY else h;
      pending := map[];
    }

    method Record(name: string, result: Result<(), Option<Code>>, now: Time) returns (v: Verdict)
      modifies this`pending
      ensures (View(), v) == Recorded(old(View()), name, result, now)
      ensures pending - {name} == old(pending) - {name}
      ensures v.Done? <==> !IsTaken(result)
      ensures v.GaveUp? <==> IsTaken(result) && now >= (if name in old(pending) then old(pending)[name].giveUpAt else now + window)
      ensures v.Retrying? <==> name in pending
      ensures v.Retrying? ==> pending[name].nextAt == now + every && v.first == (name !in old(pending))
    {
      if !IsTaken(result) {
        pending := pending - {name};
        return Done;
      }
      ghost var before := pending;
      var first := name !in pending;
      var retry := if first then Retry(now + window, now) else pending[name];
      pending := pending[name := retry];
      if now >= retry.giveUpAt {
        pending := pending - {name};
        assert pending == before - {name};
        v := GaveUp;
      } else {
        pending := pending[name := retry.(nextAt := now + every)];
        assert pending == before[name := Retry(retry.giveUpAt, now + every)];
        v := Retrying(first);
      }
    }

    /** The names due, in the order of the map's keys. */
    method DueNames(now: Time) returns (names: seq<string>)
      ensures Ascending(names) && Elements(names) == Due(View(), now)
    {
      names := [];
      var rest := set name | name in pending && pending[name].nextAt <= now;
      while rest != {}
        invariant ListedBefore(names, Due(View(), now), rest)
        decreases |rest|
      {
        ghost var least := LeastExists(rest);
        var name :| name in rest && forall n <- rest :: n == name || Precedes(name, n);
        ListNext(names, Due(View(), now), rest, name);
        names, rest := names + [name], rest - {name};
      }
    }

    method Forget(name: string)
      modifies this`pending
      ensures View() == Forgotten(old(View()), name)
    {
      pending := pending - {name};
    }
  }

  // ---- one collision episode ----

  /** One attempt at a name: when, whether the timer asked for it, and how it went. */
  datatype Attempt = Attempt(at: Time, automatic: bool, result: Result<(), Option<Code>>)

  /** Attempts as the engine makes them: in time order, the automatic ones only when due. */
  ghost predicate Plays(t: Taken, name: string, since: Time, attempts: seq<Attempt>)
    decreases |attempts|
  {
    attempts == [] || (
      && since <= attempts[0].at
      && (attempts[0].automatic ==> name in Due(t, attempts[0].at))
      && Plays(Recorded(t, name, attempts[0].result, attempts[0].at).0, name, attempts[0].at, attempts[1..]))
  }

  ghost function Played(t: Taken, name: string, since: Time, attempts: seq<Attempt>): Taken
    requires Plays(t, name, since, attempts)
    decreases |attempts|
  {
    if attempts == [] then t
    else Played(Recorded(t, name, attempts[0].result, attempts[0].at).0, name, attempts[0].at, attempts[1..])
  }

  function Automatic(attempts: seq<Attempt>): nat {
    if attempts == [] then 0 else (if attempts[0].automatic then 1 else 0) + Automatic(attempts[1..])
  }

  /** Every attempt but the last came back taken with time left: the episode was still open. */
  ghost predicate OneEpisode(t: Taken, name: string, since: Time, attempts: seq<Attempt>)
    requires Plays(t, name, since, attempts)
    decreases |attempts|
  {
    |attempts| <= 1 ||
    var r := Recorded(t, name, attempts[0].result, attempts[0].at);
    r.1.Retrying? && OneEpisode(r.0, name, attempts[0].at, attempts[1..])
  }

  /** Within an episode the give-up time never moves. */
  lemma {:induction false} GiveUpTimeIsFixed(t: Taken, name: string, since: Time, attempts: seq<Attempt>)
    requires name in t.pending && Plays(t, name, since, attempts) && OneEpisode(t, name, since, attempts)
    ensures name in Played(t, name, since, attempts).pending ==>
      Played(t, name, since, attempts).pending[name].giveUpAt == t.pending[name].giveUpAt
    decreases |attempts|
  {
    if attempts != [] {
      var t' := Recorded(t, name, attempts[0].result, attempts[0].at).0;
      if |attempts| == 1 {
        assert Played(t', name, attempts[0].at, attempts[1..]) == t';
      } else {
        GiveUpTimeIsFixed(t', name, attempts[0].at, attempts[1..]);
      }
    }
  }

  /** After a record that leaves the name pending, the next automatic attempt is at least `every` away. */
  lemma AttemptsAreSpaced(t: Taken, name: string, result: Result<(), Option<Code>>, at: Time, later: Time)
    requires name in Due(Recorded(t, name, result, at).0, later)
    ensures later >= at + t.every
  {
  }

  /** So however the attempts go, an automatic one comes at least `every` after the one before it. */
  lemma {:induction false} AutomaticAttemptsAreSpaced(
    t: Taken, name: string, since: Time, attempts: seq<Attempt>, i: nat)
    requires Plays(t, name, since, attempts) && 0 < i < |attempts| && attempts[i].automatic
    ensures attempts[i].at >= attempts[i - 1].at + t.every
    decreases i
  {
    var a := attempts[0];
    var t' := Recorded(t, name, a.result, a.at).0;
    if i == 1 {
      AttemptsAreSpaced(t, name, a.result, a.at, attempts[1].at);
    } else {
      AutomaticAttemptsAreSpaced(t', name, a.at, attempts[1..], i - 1);
    }
  }

  /** Times `every` the automatic attempts fit before the give-up time, counted from the last attempt. */
  lemma {:induction false} AutomaticAttemptsFit(t: Taken, name: string, since: Time, attempts: seq<Attempt>)
    requires name in t.pending && Plays(t, name, since, attempts) && OneEpisode(t, name, since, attempts)
    requires t.pending[name].nextAt >= since + t.every && since < t.pending[name].giveUpAt && t.every > 0
    ensures Automatic(attempts) > 0 ==> (Automatic(attempts) - 1) * t.every < t.pending[name].giveUpAt - since
    decreases |attempts|
  {
    if |attempts| == 1 {
      assert Automatic(attempts[1..]) == 0;
    } else if attempts != [] {
      var a := attempts[0];
      var t' := Recorded(t, name, a.result, a.at).0;
      AutomaticAttemptsFit(t', name, a.at, attempts[1..]);
      var n := Automatic(attempts[1..]);
      if a.automatic && n > 0 {
        assert (n - 1) * t.every + t.every == n * t.every;
        assert a.at >= since + t.every;
      }
    }
  }

  /** At most ceil(6h / min(3s, h)) automatic attempts follow a first collision. */
  lemma AutomaticAttemptsAreFew(heartbeatSecs: nat, t: Taken, name: string, first: Time, attempts: seq<Attempt>)
    requires t.window == Fresh(heartbeatSecs).window && t.every == Fresh(heartbeatSecs).every && name !in t.pending
    requires var t' := Recorded(t, name, Err(Some(CodeTaken)), first).0;
      Plays(t', name, first, attempts) && OneEpisode(t', name, first, attempts)
    ensures Automatic(attempts) <= (t.window + t.every - 1) / t.every
  {
    var t' := Recorded(t, name, Err(Some(CodeTaken)), first).0;
    assert name in t'.pending && t'.pending[name] == Retry(first + t.window, first + t.every);
    AutomaticAttemptsFit(t', name, first, attempts);
    var n := Automatic(attempts);
    if n > 0 {
      CeilingBound(n, t.window, t.every);
    }
  }

  lemma MulMonotone(a: int, b: int, e: int)
    requires a <= b && e >= 0
    ensures a * e <= b * e
  {
    assert (b - a) * e >= 0;
  }

  lemma CeilingBound(n: nat, w: nat, e: nat)
    requires n > 0 && e > 0 && (n - 1) * e < w
    ensures n <= (w + e - 1) / e
  {
    var q := (w + e - 1) / e;
    assert w + e - 1 < q * e + e == (q + 1) * e;
    assert n * e == (n - 1) * e + e;
    if n >= q + 1 {
      MulMonotone(q + 1, n, e);
    }
  }

  /** Once done, given up or forgotten, the name is never due until it collides again. */
  lemma {:induction false} SettledNamesStayQuiet(t: Taken, name: string, since: Time, attempts: seq<Attempt>, now: Time)
    requires name !in t.pending && Plays(t, name, since, attempts)
    requires forall i :: 0 <= i < |attempts| ==> !IsTaken(attempts[i].result)
    ensures name !in Due(Played(t, name, since, attempts), now)
    ensures Automatic(attempts) == 0
    decreases |attempts|
  {
    if attempts != [] {
      var a := attempts[0];
      assert !a.automatic;
      forall i | 0 <= i < |attempts[1..]|
        ensures !IsTaken(attempts[1..][i].result)
      {
        assert attempts[1..][i] == attempts[i + 1];
      }
      SettledNamesStayQuiet(Recorded(t, name, a.result, a.at).0, name, a.at, attempts[1..], now);
    }
  }

  lemma VerdictsSettle(t: Taken, name: string, result: Result<(), Option<Code>>, now: Time)
    ensures Recorded(t, name, result, now).1.Retrying? <==> name in Recorded(t, name, result, now).0.pending
    ensures name !in Forgotten(t, name).pending
  {
  }
}
