/** Locking out addresses after repeated failed handshakes (crates/cy-server/src/control.rs, FailureTracker). */
module FailureTracker {
  type Ip = string

  /** Milliseconds on the server's monotone clock. */
  type Time = nat

  datatype Entry = Entry(count: nat, at: Time)

  type Entries = map<Ip, Entry>

  function Counted(entries: Entries, window: Time, ip: Ip, now: Time): Entry {
    if ip in entries && now - entries[ip].at <= window then Entry(entries[ip].count + 1, now) else Entry(1, now)
  }

  /** Entries past the window are dropped whenever a failure is recorded. */
  function Pruned(entries: Entries, window: Time, now: Time): Entries {
    map ip | ip in entries && now - entries[ip].at <= window :: entries[ip]
  }

  function Recorded(entries: Entries, window: Time, ip: Ip, now: Time): Entries {
    Pruned(entries[ip := Counted(entries, window, ip, now)], window, now)
  }

  predicate Locked(entries: Entries, limit: nat, window: Time, ip: Ip, now: Time) {
    ip in entries && entries[ip].count >= limit && now - entries[ip].at <= window
  }

  class FailureTracker {
    const limit: nat
    const window: Time
    var entries: Entries

    constructor (limit: nat, window: Time)
      ensures this.limit == limit && this.window == window && entries == map[]
    {
      this.limit, this.window := limit, window;
      entries := map[];
    }

    method Record(ip: Ip, now: Time)
      modifies this
      ensures entries == Recorded(old(entries), window, ip, now)
    {
      var entry := if ip in entries then entries[ip] else Entry(0, now);
      if now - entry.at > window {
        entry := Entry(0, now);
      }
      entry := Entry(entry.count + 1, now);
      entries := entries[ip := entry];
      var all := entries.Keys;
      ghost var before := entries;
      while all != {}
        invariant all <= before.Keys
        invariant entries == map i | i in before && (i in all || now - before[i].at <= window) :: before[i]
        decreases |all|
      {
        var i :| i in all;
        all := all - {i};
        if now - entries[i].at > window {
          entries := entries - {i};
        }
      }
    }

    method IsLocked(ip: Ip, now: Time) returns (locked: bool)
      ensures locked == Locked(entries, limit, window, ip, now)
    {
      locked := ip in entries && entries[ip].count >= limit && now - entries[ip].at <= window;
    }

    method Clear(ip: Ip)
      modifies this
      ensures entries == old(entries) - {ip}
    {
      entries := entries - {ip};
    }
  }

  // ---- against the history of handshakes ----

  datatype History =
    | Nothing
    | Failed(before: History, ip: Ip, at: Time)
    | Succeeded(before: History, ip: Ip)

  function After(h: History, window: Time): Entries {
    match h
    case Nothing => map[]
    case Failed(before, ip, at) => Recorded(After(before, window), window, ip, at)
    case Succeeded(before, ip) => After(before, window) - {ip}
  }

  /** The time of the latest recorded failure of anybody. */
  function Latest(h: History): Time {
    match h
    case Nothing => 0
    case Failed(_, _, at) => at
    case Succeeded(before, _) => Latest(before)
  }

  /** The clock never runs backwards. */
  predicate InOrder(h: History) {
    match h
    case Nothing => true
    case Failed(before, _, at) => Latest(before) <= at && InOrder(before)
    case Succeeded(before, _) => InOrder(before)
  }

  /** When this address failed since its last success, in order. */
  function Failures(h: History, ip: Ip): seq<Time> {
    match h
    case Nothing => []
    case Failed(before, i, at) => if i == ip then Failures(before, ip) + [at] else Failures(before, ip)
    case Succeeded(before, i) => if i == ip then [] else Failures(before, ip)
  }

  /** The last `n` failures follow each other within the window. */
  ghost predicate Chained(f: seq<Time>, window: Time, n: nat) {
    n <= |f| && forall i {:trigger f[i]} :: 0 < i < |f| && |f| - n < i ==> f[i] - f[i - 1] <= window
  }

  /** The rule: the last `limit` failures in a row, no two further apart than the window, the last of them recent. */
  ghost predicate ShouldBeLocked(f: seq<Time>, limit: nat, window: Time, now: Time) {
    f != [] && now - f[|f| - 1] <= window && Chained(f, window, limit)
  }

  /** What the entry of an address, or its absence, says about the address's failures. */
  ghost predicate Tells(entries: Entries, ip: Ip, f: seq<Time>, window: Time, latest: Time) {
    if ip in entries then
      var n := entries[ip].count;
      && f != [] && entries[ip].at == f[|f| - 1]
      && 0 < n && Chained(f, window, n)
      && (n < |f| ==> f[|f| - n] - f[|f| - n - 1] > window)
    else f == [] || latest - f[|f| - 1] > window
  }

  lemma {:induction false} FailuresArePast(h: History, ip: Ip)
    requires InOrder(h)
    ensures forall i :: 0 <= i < |Failures(h, ip)| ==> Failures(h, ip)[i] <= Latest(h)
  {
    match h
    case Nothing =>
    case Failed(before, _, _) => FailuresArePast(before, ip);
    case Succeeded(before, _) => FailuresArePast(before, ip);
  }

  lemma ChainGrows(f: seq<Time>, window: Time, n: nat, at: Time)
    requires f != [] && Chained(f, window, n) && at - f[|f| - 1] <= window
    ensures Chained(f + [at], window, n + 1)
  {
    var g := f + [at];
    assert forall i :: 0 <= i < |f| ==> g[i] == f[i];
  }

  lemma OneFailureMore(entries: Entries, ip: Ip, f: seq<Time>, window: Time, latest: Time, at: Time)
    requires Tells(entries, ip, f, window, latest) && latest <= at
    requires forall i :: 0 <= i < |f| ==> f[i] <= latest
    ensures Tells(Recorded(entries, window, ip, at), ip, f + [at], window, at)
  {
    if ip in entries && at - entries[ip].at <= window {
      ChainGrows(f, window, entries[ip].count, at);
    } else {
      assert Chained(f + [at], window, 1);
    }
  }

  lemma SomebodyElseFails(entries: Entries, ip: Ip, f: seq<Time>, window: Time, latest: Time, other: Ip, at: Time)
    requires Tells(entries, ip, f, window, latest) && latest <= at && other != ip
    ensures Tells(Recorded(entries, window, other, at), ip, f, window, at)
  {
  }

  lemma {:induction false} EntriesTell(h: History, ip: Ip, window: Time)
    requires InOrder(h)
    ensures Tells(After(h, window), ip, Failures(h, ip), window, Latest(h))
  {
    match h
    case Nothing =>
    case Failed(before, i, at) =>
      EntriesTell(before, ip, window);
      FailuresArePast(before, ip);
      if i == ip {
        OneFailureMore(After(before, window), ip, Failures(before, ip), window, Latest(before), at);
      } else {
        SomebodyElseFails(After(before, window), ip, Failures(before, ip), window, Latest(before), i, at);
      }
    case Succeeded(before, _) => EntriesTell(before, ip, window);
  }

  /** A longer chain contains the shorter ones, and a broken one cannot be longer than its break allows. */
  lemma ChainReaches(f: seq<Time>, window: Time, n: nat, limit: nat)
    requires 0 < n && Chained(f, window, n) && (n < |f| ==> f[|f| - n] - f[|f| - n - 1] > window)
    ensures Chained(f, window, limit) <==> limit <= n
  {
    if limit > n && n < |f| {
      var i := |f| - n;
      assert f[i] - f[i - 1] > window;
    }
  }

  /**
   * An address is locked out exactly when the rule says so. The rule knows nothing of pruning, so dropping
   * expired entries never changes an answer.
   */
  lemma LockedByTheRule(h: History, ip: Ip, limit: nat, window: Time, now: Time)
    requires InOrder(h) && Latest(h) <= now
    ensures Locked(After(h, window), limit, window, ip, now) <==> ShouldBeLocked(Failures(h, ip), limit, window, now)
  {
    EntriesTell(h, ip, window);
    var entries, f := After(h, window), Failures(h, ip);
    if ip in entries {
      ChainReaches(f, window, entries[ip].count, limit);
    }
  }
}
