/** The log of requests seen on each tunnel (crates/cy-core/src/inspector.rs). */
module Inspector {
  import opened Basics
  import opened HttpText
  import opened Exchange

  const PER_TUNNEL_LIMIT := 100

  datatype Record = Record(
    id: nat,
    tunnel: string,
    at: nat,
    seen: Exchange,                // headers hidden and body cut as kept
    cut: nat,                      // how many bytes of the body were not kept
    status: Option<nat>,
    duration: Option<nat>,
    peer: Option<Bytes>)

  function NewRecord(id: nat, tunnel: string, at: nat, x: Exchange, peer: Option<Bytes>): Record {
    Record(id, tunnel, at, Recorded(x), |x.body| - |Recorded(x).body|, None, None, peer)
  }

  /** The header is the one seen, with its value hidden if its key is one of those that carry secrets. */
  ghost predicate ShowsHeader(kept: Header, seen: Header) {
    && kept.key == seen.key
    && kept.value == if LowerBytes(seen.key) in SECRETS then REDACTED else seen.value
  }

  /** The record tells of this request: who, when, what, with secrets hidden and the body cut at the limit. */
  ghost predicate Describes(r: Record, id: nat, tunnel: string, at: nat, x: Exchange, peer: Option<Bytes>) {
    && r.id == id && r.tunnel == tunnel && r.at == at && r.peer == peer
    && r.seen.verb == x.verb && r.seen.path == x.path
    && |r.seen.headers| == |x.headers|
    && (forall i :: 0 <= i < |x.headers| ==> ShowsHeader(r.seen.headers[i], x.headers[i]))
    && r.seen.body <= x.body && |r.seen.body| + r.cut == |x.body|
    && (r.cut > 0 ==> |r.seen.body| == 262144)
    && |r.seen.body| <= 262144
  }

  lemma NewRecordDescribes(id: nat, tunnel: string, at: nat, x: Exchange, peer: Option<Bytes>)
    ensures Describes(NewRecord(id, tunnel, at, x, peer), id, tunnel, at, x, peer)
  {
    forall i | 0 <= i < |x.headers|
      ensures ShowsHeader(NewRecord(id, tunnel, at, x, peer).seen.headers[i], x.headers[i])
    {
      SecretKeys(x.headers[i].key);
    }
  }

  datatype Log = Log(records: seq<Record>, nextId: nat)

  // ---- the log's operations on values ----

  /** The records of one tunnel, oldest first. */
  function Of(records: seq<Record>, tunnel: string): (r: seq<Record>)
    ensures |r| <= |records|
  {
    if records == [] then []
    else if records[0].tunnel == tunnel then [records[0]] + Of(records[1..], tunnel)
    else Of(records[1..], tunnel)
  }

  function FirstOf(records: seq<Record>, tunnel: string): (p: nat)
    requires Of(records, tunnel) != []
    ensures p < |records| && records[p].tunnel == tunnel
    ensures forall i :: 0 <= i < p ==> records[i].tunnel != tunnel
  {
    if records[0].tunnel == tunnel then 0 else 1 + FirstOf(records[1..], tunnel)
  }

  function WithoutFirst(records: seq<Record>, tunnel: string): (r: seq<Record>)
    requires Of(records, tunnel) != []
    ensures |r| == |records| - 1
  {
    records[..FirstOf(records, tunnel)] + records[FirstOf(records, tunnel) + 1..]
  }

  function Trimmed(records: seq<Record>, tunnel: string): seq<Record>
    decreases |records|
  {
    if |Of(records, tunnel)| > PER_TUNNEL_LIMIT then Trimmed(WithoutFirst(records, tunnel), tunnel) else records
  }

  function Fill(r: Record, id: nat, status: nat, duration: nat): Record {
    if r.id == id then r.(status := Some(status), duration := Some(duration)) else r
  }

  function Filled(records: seq<Record>, id: nat, status: nat, duration: nat): (r: seq<Record>)
    ensures |r| == |records| && forall i :: 0 <= i < |r| ==> r[i] == Fill(records[i], id, status, duration)
  {
    seq(|records|, i requires 0 <= i < |records| => Fill(records[i], id, status, duration))
  }

  function WithoutTunnel(records: seq<Record>, tunnel: string): seq<Record> {
    if records == [] then []
    else if records[0].tunnel != tunnel then [records[0]] + WithoutTunnel(records[1..], tunnel)
    else WithoutTunnel(records[1..], tunnel)
  }

  function Reversed<T>(s: seq<T>): (r: seq<T>)
    ensures |r| == |s| && forall i :: 0 <= i < |r| ==> r[i] == s[|s| - 1 - i]
  {
    seq(|s|, i requires 0 <= i < |s| => s[|s| - 1 - i])
  }

  datatype Op =
    | Request(tunnel: string, at: nat, exchange: Exchange, peer: Option<Bytes>)
    | Response(id: nat, status: nat, duration: nat)
    | Clear(which: Option<string>)

  function Applied(log: Log, op: Op): Log {
    match op
    case Request(tunnel, at, x, peer) =>
      Log(Trimmed(log.records + [NewRecord(log.nextId + 1, tunnel, at, x, peer)], tunnel), log.nextId + 1)
    case Response(id, status, duration) => log.(records := Filled(log.records, id, status, duration))
    case Clear(Some(tunnel)) => log.(records := WithoutTunnel(log.records, tunnel))
    case Clear(None) => log.(records := [])
  }

  ghost predicate Ascending(records: seq<Record>) {
    forall i, j :: 0 <= i < j < |records| ==> records[i].id < records[j].id
  }

  /** Ids grow along the log, so no two records share one. */
  ghost predicate Numbered(log: Log) {
    && Ascending(log.records)
    && (forall i :: 0 <= i < |log.records| ==> log.records[i].id <= log.nextId)
  }

  class Inspector {
    var records: seq<Record>
    var nextId: nat

    ghost function View(): Log
      reads this
    {
      Log(records, nextId)
    }

    constructor ()
      ensures View() == Log([], 0)
    {
      records, nextId := [], 0;
    }

    method Position(tunnel: string) returns (at: nat)
      requires Of(records, tunnel) != []
      ensures at == FirstOf(records, tunnel)
    {
      at := 0;
      while records[at].tunnel != tunnel
        invariant at <= FirstOf(records, tunnel)
        decreases FirstOf(records, tunnel) - at
      {
        at := at + 1;
      }
    }

    /** A tunnel over its limit loses its oldest records; the others keep theirs. */
    method Trim(tunnel: string)
      modifies this`records
      ensures records == Trimmed(old(records), tunnel)
    {
      while |Of(records, tunnel)| > PER_TUNNEL_LIMIT
        invariant Trimmed(records, tunnel) == Trimmed(old(records), tunnel)
        decreases |records|
      {
        var pos := Position(tunnel);
        records := records[..pos] + records[pos + 1..];
      }
    }

    method RecordRequest(tunnel: string, at: nat, x: Exchange, peer: Option<Bytes>) returns (id: nat)
      modifies this
      ensures id == nextId == old(nextId) + 1
      ensures exists r ::
        && Describes(r, id, tunnel, at, x, peer) && r.status == None && r.duration == None
        && records == Trimmed(old(records) + [r], tunnel)
      ensures View() == Applied(old(View()), Request(tunnel, at, x, peer))
    {
      nextId := nextId + 1;
      id := nextId;
      NewRecordDescribes(id, tunnel, at, x, peer);
      records := records + [NewRecord(id, tunnel, at, x, peer)];
      Trim(tunnel);
    }

    method RecordResponse(id: nat, status: nat, duration: nat)
      requires Numbered(View())
      modifies this`records
      ensures |records| == |old(records)|
      ensures forall i | 0 <= i < |records| && old(records)[i].id == id ::
        records[i] == old(records)[i].(status := Some(status), duration := Some(duration))
      ensures forall i | 0 <= i < |records| && old(records)[i].id != id :: records[i] == old(records)[i]
      ensures View() == Applied(old(View()), Response(id, status, duration))
    {
      var at := 0;
      while at < |records| && records[at].id != id
        invariant at <= |records| && forall i :: 0 <= i < at ==> records[i].id != id
      {
        at := at + 1;
      }
      ghost var before := records;
      if at < |records| {
        records := records[at := records[at].(status := Some(status), duration := Some(duration))];
        assert forall i :: at < i < |before| ==> before[i].id != id;
      }
      assert records == Filled(before, id, status, duration);
    }

    /** One tunnel's records, or all of them, the newest first. */
    method List(tunnel: Option<string>) returns (r: seq<Record>)
      ensures r == Reversed(if tunnel.Some? then Of(records, tunnel.value) else records)
    {
      r := [];
      var i := |records|;
      while i > 0
        invariant 0 <= i <= |records|
        invariant r == Reversed(if tunnel.Some? then Of(records[i..], tunnel.value) else records[i..])
      {
        i := i - 1;
        assert records[i..][1..] == records[i + 1..];
        if tunnel == None || records[i].tunnel == tunnel.value {
          r := r + [records[i]];
        }
      }
      assert records[0..] == records;
    }

    method Get(id: nat) returns (r: Option<Record>)
      ensures r.Some? ==> r.value in records && r.value.id == id
      ensures r.None? ==> forall x <- records :: x.id != id
    {
      var at := 0;
      while at < |records|
        invariant at <= |records| && forall i :: 0 <= i < at ==> records[i].id != id
      {
        if records[at].id == id {
          return Some(records[at]);
        }
        at := at + 1;
      }
      return None;
    }

    method ClearTunnel(which: Option<string>)
      modifies this`records
      ensures View() == Applied(old(View()), Clear(which))
    {
      if which == None {
        records := [];
        return;
      }
      var kept, i := [], |records|;
      while i > 0
        invariant 0 <= i <= |records|
        invariant kept == WithoutTunnel(records[i..], which.value)
      {
        i := i - 1;
        assert records[i..][1..] == records[i + 1..];
        if records[i].tunnel != which.value {
          kept := [records[i]] + kept;
        }
      }
      assert records[0..] == records;
      records := kept;
    }
  }

  // ---- against the full history ----

  /** What happened to the log so far, the latest last. */
  datatype History = Nothing | Then(before: History, last: Op)

  function Requests(h: History): nat {
    match h
    case Nothing => 0
    case Then(before, op) => Requests(before) + if op.Request? then 1 else 0
  }

  /** What one operation adds to a tunnel's story: its own requests, answers to them, and clears. */
  function Continued(story: seq<Record>, id: nat, op: Op, tunnel: string): seq<Record> {
    match op
    case Request(t, at, x, peer) => if t == tunnel then story + [NewRecord(id, t, at, x, peer)] else story
    case Response(id, status, duration) => Filled(story, id, status, duration)
    case Clear(which) => if which == None || which == Some(tunnel) then [] else story
  }

  /** Everything that ever happened to one tunnel since it was last cleared; requests are numbered as they come. */
  function Story(h: History, tunnel: string): seq<Record> {
    match h
    case Nothing => []
    case Then(before, op) => Continued(Story(before, tunnel), Requests(before) + 1, op, tunnel)
  }

  function LastOnes(s: seq<Record>): seq<Record> {
    if |s| > 100 then s[|s| - 100..] else s
  }

  function After(h: History): Log {
    match h
    case Nothing => Log([], 0)
    case Then(before, op) => Applied(After(before), op)
  }

  lemma {:induction false} OfAppend(a: seq<Record>, b: seq<Record>, tunnel: string)
    ensures Of(a + b, tunnel) == Of(a, tunnel) + Of(b, tunnel)
  {
    if a == [] {
      assert a + b == b;
    } else {
      assert (a + b)[1..] == a[1..] + b;
      OfAppend(a[1..], b, tunnel);
    }
  }

  lemma {:induction false} OfNone(records: seq<Record>, tunnel: string)
    requires forall i :: 0 <= i < |records| ==> records[i].tunnel != tunnel
    ensures Of(records, tunnel) == []
  {
    if records != [] {
      OfNone(records[1..], tunnel);
    }
  }

  lemma OfOne(r: Record, tunnel: string)
    ensures Of([r], tunnel) == if r.tunnel == tunnel then [r] else []
  {
    assert Of([r][1..], tunnel) == [];
  }

  lemma OfWithoutFirst(records: seq<Record>, tunnel: string, other: string)
    requires Of(records, tunnel) != []
    ensures Of(WithoutFirst(records, tunnel), other) ==
      if other == tunnel then Of(records, tunnel)[1..] else Of(records, other)
  {
    var p := FirstOf(records, tunnel);
    var front, first, back := records[..p], [records[p]], records[p + 1..];
    assert records == front + first + back;
    OfAppend(front, first, other);
    OfAppend(front + first, back, other);
    OfAppend(front, back, other);
    OfOne(records[p], other);
    if other == tunnel {
      OfNone(front, tunnel);
    }
  }

  lemma {:induction false} OfTrimmed(records: seq<Record>, tunnel: string, other: string)
    ensures Of(Trimmed(records, tunnel), other) == if other == tunnel then LastOnes(Of(records, tunnel)) else Of(records, other)
    decreases |records|
  {
    if |Of(records, tunnel)| > PER_TUNNEL_LIMIT {
      OfWithoutFirst(records, tunnel, tunnel);
      OfWithoutFirst(records, tunnel, other);
      OfTrimmed(WithoutFirst(records, tunnel), tunnel, other);
    }
  }

  lemma {:induction false} OfFilled(records: seq<Record>, id: nat, status: nat, duration: nat, tunnel: string)
    ensures Of(Filled(records, id, status, duration), tunnel) == Filled(Of(records, tunnel), id, status, duration)
  {
    if records != [] {
      assert Filled(records, id, status, duration)[1..] == Filled(records[1..], id, status, duration);
      OfFilled(records[1..], id, status, duration, tunnel);
    }
  }

  lemma {:induction false} OfWithoutTunnel(records: seq<Record>, tunnel: string, other: string)
    ensures Of(WithoutTunnel(records, tunnel), other) == if other == tunnel then [] else Of(records, other)
  {
    if records != [] {
      OfWithoutTunnel(records[1..], tunnel, other);
      var rest := WithoutTunnel(records[1..], tunnel);
      assert ([records[0]] + rest)[1..] == rest;
    }
  }

  lemma LastOfLast(s: seq<Record>, r: Record)
    ensures LastOnes(LastOnes(s) + [r]) == LastOnes(s + [r])
  {
  }

  lemma OneRequestMore(records: seq<Record>, story: seq<Record>, r: Record, tunnel: string)
    requires Of(records, tunnel) == LastOnes(story)
    ensures Of(Trimmed(records + [r], r.tunnel), tunnel) ==
      if r.tunnel == tunnel then LastOnes(story + [r]) else LastOnes(story)
  {
    OfAppend(records, [r], tunnel);
    OfTrimmed(records + [r], r.tunnel, tunnel);
    LastOfLast(story, r);
    OfOne(r, tunnel);
  }

  lemma LastOfFilled(s: seq<Record>, id: nat, status: nat, duration: nat)
    ensures LastOnes(Filled(s, id, status, duration)) == Filled(LastOnes(s), id, status, duration)
  {
  }

  lemma OneResponseMore(
    records: seq<Record>, story: seq<Record>, id: nat, status: nat, duration: nat, tunnel: string)
    requires Of(records, tunnel) == LastOnes(story)
    ensures Of(Filled(records, id, status, duration), tunnel) == LastOnes(Filled(story, id, status, duration))
  {
    OfFilled(records, id, status, duration, tunnel);
    LastOfFilled(story, id, status, duration);
  }

  lemma RequestContinues(log: Log, story: seq<Record>, op: Op, tunnel: string)
    requires op.Request? && Of(log.records, tunnel) == LastOnes(story)
    ensures Of(Applied(log, op).records, tunnel) == LastOnes(Continued(story, log.nextId + 1, op, tunnel))
  {
    var r := NewRecord(log.nextId + 1, op.tunnel, op.at, op.exchange, op.peer);
    OneRequestMore(log.records, story, r, tunnel);
    assert Applied(log, op).records == Trimmed(log.records + [r], r.tunnel);
  }

  lemma ClearContinues(log: Log, story: seq<Record>, op: Op, tunnel: string)
    requires op.Clear? && Of(log.records, tunnel) == LastOnes(story)
    ensures Of(Applied(log, op).records, tunnel) == LastOnes(Continued(story, log.nextId + 1, op, tunnel))
  {
    if op.which.Some? {
      OfWithoutTunnel(log.records, op.which.value, tunnel);
    }
  }

  /** One more operation does to what is shown of a tunnel what it does to the tunnel's whole story. */
  lemma OneOpMore(log: Log, story: seq<Record>, op: Op, tunnel: string)
    requires Of(log.records, tunnel) == LastOnes(story)
    ensures Of(Applied(log, op).records, tunnel) == LastOnes(Continued(story, log.nextId + 1, op, tunnel))
  {
    if op.Request? {
      RequestContinues(log, story, op, tunnel);
    } else if op.Response? {
      OneResponseMore(log.records, story, op.id, op.status, op.duration, tunnel);
    } else {
      ClearContinues(log, story, op, tunnel);
    }
  }

  lemma {:induction false} NumberedAsTheyCome(h: History)
    ensures After(h).nextId == Requests(h)
  {
    if h.Then? {
      NumberedAsTheyCome(h.before);
    }
  }

  /**
   * Whatever was recorded, answered and cleared: the log shows of each tunnel exactly the last hundred of its
   * own requests since its last clear, with the answers filled in. Other tunnels have no part in it.
   */
  lemma {:induction false} LogShowsLastHundred(h: History, tunnel: string)
    ensures Of(After(h).records, tunnel) == LastOnes(Story(h, tunnel))
  {
    if h.Then? {
      LogShowsLastHundred(h.before, tunnel);
      NumberedAsTheyCome(h.before);
      var log, story := After(h.before), Story(h.before, tunnel);
      OneOpMore(log, story, h.last, tunnel);
      assert After(h) == Applied(log, h.last) && Story(h, tunnel) == Continued(story, log.nextId + 1, h.last, tunnel);
    }
  }

  lemma {:induction false} TrimmedKeepsOrder(records: seq<Record>, tunnel: string)
    requires Ascending(records)
    ensures Ascending(Trimmed(records, tunnel))
    ensures forall x <- Trimmed(records, tunnel) :: x in records
    decreases |records|
  {
    if |Of(records, tunnel)| > PER_TUNNEL_LIMIT {
      DropKeepsOrder(records, tunnel);
      TrimmedKeepsOrder(WithoutFirst(records, tunnel), tunnel);
    }
  }

  lemma DropKeepsOrder(records: seq<Record>, tunnel: string)
    requires Of(records, tunnel) != [] && Ascending(records)
    ensures Ascending(WithoutFirst(records, tunnel))
    ensures forall x <- WithoutFirst(records, tunnel) :: x in records
  {
  }

  lemma {:induction false} ClearKeepsOrder(records: seq<Record>, tunnel: string)
    requires Ascending(records)
    ensures Ascending(WithoutTunnel(records, tunnel))
    ensures forall x <- WithoutTunnel(records, tunnel) :: x in records
  {
    if records != [] {
      ClearKeepsOrder(records[1..], tunnel);
      var rest := WithoutTunnel(records[1..], tunnel);
      forall k | 0 <= k < |rest|
        ensures records[0].id < rest[k].id
      {
        assert rest[k] in records[1..];
        var i :| 0 <= i < |records[1..]| && records[1..][i] == rest[k];
      }
    }
  }

  lemma PushedNumbered(log: Log, r: Record)
    requires Numbered(log) && r.id == log.nextId + 1
    ensures Numbered(Log(log.records + [r], log.nextId + 1))
  {
  }

  lemma FewerNumbered(log: Log, kept: seq<Record>)
    requires Numbered(log) && Ascending(kept) && forall x <- kept :: x in log.records
    ensures Numbered(log.(records := kept))
  {
    forall i | 0 <= i < |kept|
      ensures kept[i].id <= log.nextId
    {
      assert kept[i] in log.records;
      var j :| 0 <= j < |log.records| && log.records[j] == kept[i];
    }
  }

  /** What filling in an answer relies on: ids stay distinct. */
  lemma AlwaysNumbered(log: Log, op: Op)
    requires Numbered(log)
    ensures Numbered(Applied(log, op))
  {
    match op
    case Request(tunnel, at, x, peer) =>
      var pushed := Log(log.records + [NewRecord(log.nextId + 1, tunnel, at, x, peer)], log.nextId + 1);
      PushedNumbered(log, NewRecord(log.nextId + 1, tunnel, at, x, peer));
      TrimmedKeepsOrder(pushed.records, tunnel);
      FewerNumbered(pushed, Trimmed(pushed.records, tunnel));
    case Response(_, _, _) =>
    case Clear(Some(tunnel)) =>
      ClearKeepsOrder(log.records, tunnel);
      FewerNumbered(log, WithoutTunnel(log.records, tunnel));
    case Clear(None) =>
  }

  lemma {:induction false} ReachedLogIsNumbered(h: History)
    ensures Numbered(After(h))
  {
    if h.Then? {
      ReachedLogIsNumbered(h.before);
      AlwaysNumbered(After(h.before), h.last);
    }
  }

  // ---- what a record says ----

  /** The request that was given this number. */
  function NumberedRequest(h: History, id: nat): (op: Op)
    requires 1 <= id <= Requests(h)
    ensures op.Request?
  {
    if h.last.Request? && Requests(h) == id then h.last else NumberedRequest(h.before, id)
  }

  datatype Reply = Reply(status: nat, duration: nat)

  /** The last response given for this number since it was handed out. */
  function LastReply(h: History, id: nat): Option<Reply> {
    if Requests(h) < id then None
    else match h
         case Nothing => None
         case Then(before, op) =>
           if op.Response? && op.id == id then Some(Reply(op.status, op.duration)) else LastReply(before, id)
  }

  ghost predicate Tells(r: Record, h: History) {
    && 1 <= r.id <= Requests(h)
    && var op, reply := NumberedRequest(h, r.id), LastReply(h, r.id);
       && Describes(r, r.id, op.tunnel, op.at, op.exchange, op.peer)
       && r.status == (if reply.Some? then Some(reply.value.status) else None)
       && r.duration == (if reply.Some? then Some(reply.value.duration) else None)
  }

  lemma TellsOn(r: Record, h: History, op: Op)
    requires Tells(r, h) && (op.Response? ==> op.id != r.id)
    ensures Tells(r, Then(h, op))
  {
  }

  lemma TellsReply(r: Record, h: History, status: nat, duration: nat)
    requires Tells(r, h)
    ensures Tells(r.(status := Some(status), duration := Some(duration)), Then(h, Response(r.id, status, duration)))
  {
  }

  lemma TellsNew(r: Record, h: History, op: Op)
    requires op.Request? && Describes(r, Requests(h) + 1, op.tunnel, op.at, op.exchange, op.peer)
    requires r.status == None && r.duration == None
    ensures Tells(r, Then(h, op))
  {
    NoReplyYet(h, Requests(h) + 1);
  }

  lemma {:induction false} NoReplyYet(h: History, id: nat)
    requires id > Requests(h)
    ensures LastReply(h, id) == None
  {
  }

  lemma KeptAfterRequest(h: History, op: Op, r: Record)
    requires op.Request? && r in After(Then(h, op)).records
    ensures r in After(h).records || Tells(r, Then(h, op))
  {
    var log := After(h);
    var added := NewRecord(log.nextId + 1, op.tunnel, op.at, op.exchange, op.peer);
    NumberedAsTheyCome(h);
    ReachedLogIsNumbered(h);
    PushedNumbered(log, added);
    TrimmedKeepsOrder(log.records + [added], op.tunnel);
    NewRecordDescribes(log.nextId + 1, op.tunnel, op.at, op.exchange, op.peer);
    TellsNew(added, h, op);
  }

  lemma KeptAfterClear(h: History, op: Op, r: Record)
    requires op.Clear? && r in After(Then(h, op)).records
    ensures r in After(h).records
  {
    ReachedLogIsNumbered(h);
    if op.which.Some? {
      ClearKeepsOrder(After(h).records, op.which.value);
    }
  }

  /**
   * Over any history a record still kept tells of the request with its number, and of the last response given for
   * that number since; a response for another number leaves it alone.
   */
  lemma {:induction false} RecordsTell(h: History, r: Record)
    requires r in After(h).records
    ensures Tells(r, h)
  {
    match h.last
    case Request(_, _, _, _) =>
      KeptAfterRequest(h.before, h.last, r);
      if r in After(h.before).records {
        RecordsTell(h.before, r);
        TellsOn(r, h.before, h.last);
      }
    case Response(id, status, duration) =>
      var records := After(h.before).records;
      var i :| 0 <= i < |records| && r == Filled(records, id, status, duration)[i];
      RecordsTell(h.before, records[i]);
      if records[i].id == id {
        TellsReply(records[i], h.before, status, duration);
      } else {
        TellsOn(r, h.before, h.last);
      }
    case Clear(_) =>
      KeptAfterClear(h.before, h.last, r);
      RecordsTell(h.before, r);
      TellsOn(r, h.before, h.last);
  }
}
