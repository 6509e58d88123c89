/** The driver that alone owns a multiplexed connection and answers requests for new streams (crates/cy-proto/src/mux.rs). */
module MuxDriver {
  /** How many open requests queue inside the driver, and how many more in the channel before it. */
  const OPEN_QUEUE := 256

  type Stream = nat

  /** Requests are numbered in the order the channel accepts them. */
  type Request = nat

  /** The outcome of asking for a stream: the connection's own answer, or how the driver's end shows to the caller. */
  datatype Outcome = Opened(stream: Stream) | Broken(error: nat) | ConnectionClosed | ChannelClosed

  datatype Reply = Reply(to: Request, outcome: Outcome)

  /** One look at the connection for a stream opened by the peer. */
  datatype Inbound = Arrived(stream: Stream) | InboundError | InboundEnd | InboundPending

  datatype Driver = Driver(
    running: bool,
    accepted: nat,                 // requests the channel took so far
    channel: seq<Request>,
    pending: seq<Request>,
    results: seq<Outcome>,         // what the connection said, every time it was ready
    replies: seq<Reply>,           // what was sent back, in order
    delivered: seq<Stream>)        // the peer's streams handed over, in order

  const START := Driver(true, 0, [], [], [], [], [])

  predicate Failed(o: Outcome) {
    !o.Opened?
  }

  function Min(a: nat, b: nat): nat {
    if a < b then a else b
  }

  /** How many of the connection's answers one round uses up: one per waiting request, and none after a failure. */
  function Used(outs: seq<Outcome>, waiting: nat): (k: nat)
    ensures k <= |outs| && k <= waiting
    decreases waiting
  {
    if waiting == 0 || outs == [] then 0
    else if Failed(outs[0]) then 1
    else 1 + Used(outs[1..], waiting - 1)
  }

  function Paired(to: seq<Request>, outs: seq<Outcome>): seq<Reply>
    requires |to| == |outs|
  {
    seq(|to|, i requires 0 <= i < |to| => Reply(to[i], outs[i]))
  }

  function AllGet(to: seq<Request>, o: Outcome): seq<Reply> {
    seq(|to|, i requires 0 <= i < |to| => Reply(to[i], o))
  }

  function Drained(d: Driver): Driver {
    d.(running := false, channel := [], pending := [],
       replies := d.replies + AllGet(d.pending, ConnectionClosed) + AllGet(d.channel, ChannelClosed))
  }

  function Asked(d: Driver): Driver {
    d.(accepted := d.accepted + 1, channel := d.channel + [d.accepted])
  }

  function Filled(d: Driver): Driver
    requires |d.pending| <= OPEN_QUEUE
  {
    var n := Min(OPEN_QUEUE - |d.pending|, |d.channel|);
    d.(channel := d.channel[n..], pending := d.pending + d.channel[..n])
  }

  function Served(d: Driver, outs: seq<Outcome>): Driver {
    var k := Used(outs, |d.pending|);
    d.(pending := d.pending[k..], results := d.results + outs[..k], replies := d.replies + Paired(d.pending[..k], outs[..k]))
  }

  /**
   * One round: `outs` are the outbound answers the connection has ready before it says it is pending;
   * `received` tells whether anybody still takes the peer's streams.
   */
  function Rounded(d: Driver, outs: seq<Outcome>, inbound: Inbound, received: bool): Driver
    requires |d.pending| <= OPEN_QUEUE
  {
    var filled := Filled(d);
    var served := Served(filled, outs);
    var k := Used(outs, |filled.pending|);
    if k > 0 && Failed(outs[k - 1]) then Drained(served)
    else match inbound
         case Arrived(stream) =>
           if received then served.(delivered := served.delivered + [stream]) else Drained(served)
         case InboundError => Drained(served)
         case InboundEnd => Drained(served)
         case InboundPending => served
  }

  class MuxDriver {
    var running: bool
    var accepted: nat
    var channel: seq<Request>
    var pending: seq<Request>
    var delivered: seq<Stream>
    ghost var results: seq<Outcome>
    var replies: seq<Reply>

    ghost function View(): Driver
      reads this
    {
      Driver(running, accepted, channel, pending, results, replies, delivered)
    }

    constructor ()
      ensures View() == START
    {
      running, accepted, channel, pending := true, 0, [], [];
      results, replies, delivered := [], [], [];
    }

    /** A request enters the channel; one refused learns at once that the driver is gone. */
    method Ask() returns (ok: bool)
      requires running ==> |channel| < OPEN_QUEUE
      modifies this
      ensures ok == old(running)
      ensures View() == if ok then Asked(old(View())) else old(View())
    {
      if !running {
        return false;
      }
      channel := channel + [accepted];
      accepted := accepted + 1;
      ok := true;
    }

    method Fill()
      requires |pending| <= OPEN_QUEUE
      modifies this`channel, this`pending
      ensures View() == Filled(old(View()))
    {
      ghost var n := 0;
      while |pending| < OPEN_QUEUE && channel != []
        invariant n <= |old(channel)| && |pending| <= OPEN_QUEUE
        invariant channel == old(channel)[n..] && pending == old(pending) + old(channel)[..n]
      {
        pending := pending + [channel[0]];
        channel := channel[1..];
        n := n + 1;
      }
    }

    method Serve(outs: seq<Outcome>) returns (failed: bool)
      modifies this`pending, this`results, this`replies
      ensures View() == Served(old(View()), outs)
      ensures failed == var k := Used(outs, |old(pending)|); k > 0 && Failed(outs[k - 1])
    {
      failed := false;
      var k := 0;
      while pending != [] && !failed && k < |outs|
        invariant 0 <= k <= |outs| && k <= |old(pending)|
        invariant pending == old(pending)[k..]
        invariant results == old(results) + outs[..k]
        invariant replies == old(replies) + Paired(old(pending)[..k], outs[..k])
        invariant failed ==> k > 0 && Failed(outs[k - 1]) && Used(outs, |old(pending)|) == k
        invariant !failed ==> Used(outs, |old(pending)|) == k + Used(outs[k..], |pending|)
        invariant !failed && k > 0 ==> !Failed(outs[k - 1])
      {
        var req := pending[0];
        var result := outs[k];
        assert outs[k..][1..] == outs[k + 1..];
        assert outs[..k + 1] == outs[..k] + [result];
        assert old(pending)[..k + 1] == old(pending)[..k] + [req];
        pending := pending[1..];
        results := results + [result];
        replies := replies + [Reply(req, result)];
        failed := Failed(result);
        k := k + 1;
      }
    }

    /** On the way out every request still queued is told, and the channel is dropped. */
    method Drain()
      modifies this`running, this`channel, this`pending, this`replies
      ensures View() == Drained(old(View()))
    {
      running := false;
      var queue := pending;
      for i := 0 to |queue|
        invariant replies == old(replies) + AllGet(queue[..i], ConnectionClosed)
        modifies this`replies
      {
        assert queue[..i + 1] == queue[..i] + [queue[i]];
        replies := replies + [Reply(queue[i], ConnectionClosed)];
      }
      assert queue[..|queue|] == queue;
      replies := replies + AllGet(channel, ChannelClosed);
      pending, channel := [], [];
    }

    method Round(outs: seq<Outcome>, inbound: Inbound, received: bool)
      requires running && |pending| <= OPEN_QUEUE
      modifies this
      ensures View() == Rounded(old(View()), outs, inbound, received)
    {
      Fill();
      var failed := Serve(outs);
      if failed {
        Drain();
        return;
      }
      match inbound
      case Arrived(stream) =>
        if received {
          delivered := delivered + [stream];
        } else {
          Drain();
        }
      case InboundError => Drain();
      case InboundEnd => Drain();
      case InboundPending =>
    }
  }

  // ---- whole runs ----

  datatype Event = Ask | Round(outs: seq<Outcome>, inbound: Inbound, received: bool)

  /** A caller gets its request in only while there is room in the channel; a stopped driver does nothing. */
  predicate CanHappen(d: Driver, e: Event) {
    d.running && |d.pending| <= OPEN_QUEUE && (e.Ask? ==> |d.channel| < OPEN_QUEUE)
  }

  function Next(d: Driver, e: Event): Driver
    requires CanHappen(d, e)
  {
    match e
    case Ask => Asked(d)
    case Round(outs, inbound, received) => Rounded(d, outs, inbound, received)
  }

  predicate Run(d: Driver, events: seq<Event>)
    decreases |events|
  {
    events == [] || (CanHappen(d, events[0]) && Run(Next(d, events[0]), events[1..]))
  }

  function After(d: Driver, events: seq<Event>): Driver
    requires Run(d, events)
    decreases |events|
  {
    if events == [] then d else After(Next(d, events[0]), events[1..])
  }

  /** The requests from `from` on, in order. */
  ghost predicate CountsUp(s: seq<Request>, from: nat) {
    forall i :: 0 <= i < |s| ==> s[i] == from + i
  }

  /** What request k was told: the connection's k-th answer, or, past those, that all is over. */
  ghost predicate AnsweredInOrder(d: Driver) {
    && |d.results| <= |d.replies|
    && (forall k :: 0 <= k < |d.replies| ==>
          && d.replies[k].to == k
          && (if k < |d.results| then d.replies[k].outcome == d.results[k]
              else !d.running && (d.replies[k].outcome == ConnectionClosed || d.replies[k].outcome == ChannelClosed)))
    && (d.running ==> |d.replies| == |d.results| && forall k :: 0 <= k < |d.results| ==> !Failed(d.results[k]))
  }

  ghost predicate Queued(d: Driver) {
    && |d.pending| <= OPEN_QUEUE && |d.channel| <= OPEN_QUEUE
    && CountsUp(d.pending, |d.replies|)
    && CountsUp(d.channel, |d.replies| + |d.pending|)
    && d.accepted == |d.replies| + |d.pending| + |d.channel|
    && (!d.running ==> d.pending == [] && d.channel == [])
  }

  ghost predicate Orderly(d: Driver) {
    AnsweredInOrder(d) && Queued(d)
  }

  lemma {:induction false} UsedAreGood(outs: seq<Outcome>, waiting: nat)
    ensures var k := Used(outs, waiting);
      && (forall i :: 0 <= i < k - 1 ==> !Failed(outs[i]))
      && (k < waiting && k < |outs| ==> k > 0 && Failed(outs[k - 1]))
    decreases waiting
  {
    if waiting > 0 && outs != [] && !Failed(outs[0]) {
      UsedAreGood(outs[1..], waiting - 1);
      var k := Used(outs, waiting);
      forall i | 0 <= i < k - 1
        ensures !Failed(outs[i])
      {
        assert i > 0 ==> outs[i] == outs[1..][i - 1];
      }
    }
  }

  lemma DrainedIsOrderly(d: Driver)
    requires AnsweredInOrder(d.(running := false)) && Queued(d.(running := true))
    ensures Orderly(Drained(d))
  {
  }

  lemma ServedIsOrderly(d: Driver, outs: seq<Outcome>)
    requires Orderly(d) && d.running
    ensures var k := Used(outs, |d.pending|);
      && AnsweredInOrder(Served(d, outs).(running := false)) && Queued(Served(d, outs))
      && (!(k > 0 && Failed(outs[k - 1])) ==> Orderly(Served(d, outs)))
  {
    UsedAreGood(outs, |d.pending|);
  }

  lemma NextIsOrderly(d: Driver, e: Event)
    requires Orderly(d) && CanHappen(d, e)
    ensures Orderly(Next(d, e))
  {
    if e.Round? {
      var filled := Filled(d);
      var served := Served(filled, e.outs);
      ServedIsOrderly(filled, e.outs);
      DrainedIsOrderly(served);
    }
  }

  /**
   * On every run, the k-th accepted request gets the connection's k-th answer, each gets one answer only, the
   * queue stays within its bound, and once the driver has stopped everything accepted has been answered.
   */
  lemma {:induction false} AlwaysOrderly(d: Driver, events: seq<Event>)
    requires Orderly(d) && Run(d, events)
    ensures Orderly(After(d, events))
    decreases |events|
  {
    if events != [] {
      NextIsOrderly(d, events[0]);
      AlwaysOrderly(Next(d, events[0]), events[1..]);
    }
  }

  /** Request r is told once, at its own place in the order; after the end at the latest. */
  ghost predicate ToldOnce(d: Driver, r: Request) {
    && (!d.running ==> r < |d.replies|)
    && (forall k :: 0 <= k < |d.replies| ==> (d.replies[k].to == r <==> k == r))
    && (r < |d.replies| ==>
          if r < |d.results| then d.replies[r].outcome == d.results[r] else Failed(d.replies[r].outcome))
  }

  lemma EveryRequestIsAnsweredOnce(events: seq<Event>, r: Request)
    requires Run(START, events) && r < After(START, events).accepted
    ensures ToldOnce(After(START, events), r)
    ensures |After(START, events).pending| <= OPEN_QUEUE
  {
    AlwaysOrderly(START, events);
  }

  lemma {:induction false} RoundedReplies(d: Driver, outs: seq<Outcome>, inbound: Inbound, received: bool)
    requires |d.pending| <= OPEN_QUEUE
    ensures d.replies <= Rounded(d, outs, inbound, received).replies
    ensures d.results <= Rounded(d, outs, inbound, received).results
  {
  }

  /** What was answered stays answered. */
  lemma {:induction false} RepliesAreFinal(d: Driver, events: seq<Event>)
    requires Run(d, events)
    ensures d.replies <= After(d, events).replies && d.results <= After(d, events).results
    decreases |events|
  {
    if events != [] {
      if events[0].Round? {
        RoundedReplies(d, events[0].outs, events[0].inbound, events[0].received);
      }
      RepliesAreFinal(Next(d, events[0]), events[1..]);
    }
  }

  // ---- one round, said directly ----

  /** The connection has been asked as long as it could be: to its last answer, to the last request, or to a failure. */
  ghost predicate AskedUp(outs: seq<Outcome>, waiting: nat, k: nat) {
    && k <= |outs| && k <= waiting
    && (forall i :: 0 <= i < k - 1 ==> outs[i].Opened?)
    && (k == |outs| || k == waiting || (k > 0 && !outs[k - 1].Opened?))
    && (k < |outs| && k < waiting ==> k > 0 && !outs[k - 1].Opened?)
  }

  /** The replies of a round so far: those before it, then one for each request of the queue's front. */
  ghost predicate AnswersFront(before: seq<Reply>, after: seq<Reply>, queue: seq<Request>, outs: seq<Outcome>, k: nat) {
    && k <= |outs| && k <= |queue| && |after| >= |before| + k && after[..|before|] == before
    && forall i :: 0 <= i < k ==> after[|before| + i] == Reply(queue[i], outs[i])
  }

  lemma FillDoes(d: Driver) returns (n: nat)
    requires |d.pending| <= OPEN_QUEUE
    ensures var queue, f := d.pending + d.channel, Filled(d);
      && |d.pending| <= n <= |queue| && n <= 256 && (n == |queue| || n == 256)
      && f == d.(pending := queue[..n], channel := queue[n..])
  {
    n := |Filled(d).pending|;
    var queue := d.pending + d.channel;
    assert Filled(d).pending == queue[..n] && Filled(d).channel == queue[n..];
  }

  lemma ServeDoes(d: Driver, outs: seq<Outcome>) returns (k: nat)
    ensures AskedUp(outs, |d.pending|, k) && k == Used(outs, |d.pending|)
    ensures var s := Served(d, outs);
      && AnswersFront(d.replies, s.replies, d.pending, outs, k) && |s.replies| == |d.replies| + k
      && s == d.(pending := d.pending[k..], results := d.results + outs[..k], replies := s.replies)
  {
    k := Used(outs, |d.pending|);
    UsedAreGood(outs, |d.pending|);
  }

  lemma DrainDoes(d: Driver)
    ensures var e := Drained(d);
      && !e.running && e.pending == [] && e.channel == [] && e.results == d.results && e.accepted == d.accepted
      && e.delivered == d.delivered && d.replies <= e.replies
  {
  }

  lemma FrontOfFront(before: seq<Reply>, after: seq<Reply>, queue: seq<Request>, n: nat, outs: seq<Outcome>, k: nat)
    requires n <= |queue| && AnswersFront(before, after, queue[..n], outs, k)
    ensures AnswersFront(before, after, queue, outs, k) && k <= n && queue[..n][k..] == queue[k..n]
  {
  }

  lemma FrontStays(
    before: seq<Reply>, after: seq<Reply>, longer: seq<Reply>, queue: seq<Request>, outs: seq<Outcome>, k: nat)
    requires AnswersFront(before, after, queue, outs, k) && after <= longer
    ensures AnswersFront(before, longer, queue, outs, k)
  {
  }

  /** The queue was filled up to n of the requests, and k of them were answered. */
  ghost predicate ServedFront(d: Driver, outs: seq<Outcome>, n: nat, k: nat, served: Driver) {
    var queue := d.pending + d.channel;
    && |d.pending| <= n <= |queue| && n <= 256 && (n == |queue| || n == 256)
    && AskedUp(outs, n, k) && AnswersFront(d.replies, served.replies, queue, outs, k)
    && |served.replies| == |d.replies| + k
    && served == d.(pending := queue[k..n], channel := queue[n..], results := d.results + outs[..k],
                    replies := served.replies)
  }

  lemma FillAndServe(d: Driver, outs: seq<Outcome>) returns (n: nat, k: nat)
    requires |d.pending| <= OPEN_QUEUE
    ensures ServedFront(d, outs, n, k, Served(Filled(d), outs)) && k == Used(outs, |Filled(d).pending|)
  {
    n := FillDoes(d);
    k := ServeDoes(Filled(d), outs);
    FrontOfFront(d.replies, Served(Filled(d), outs).replies, d.pending + d.channel, n, outs, k);
  }

  /** What a round comes to: n requests moved up, k of them answered, and what became of the peer and the driver. */
  ghost predicate RoundSays(
    d: Driver, outs: seq<Outcome>, inbound: Inbound, received: bool, n: nat, k: nat, d': Driver)
  {
    var queue := d.pending + d.channel;
    && |d.pending| <= n <= |queue| && n <= 256 && (n == |queue| || n == 256)
    && AskedUp(outs, n, k)
    && var failed := k > 0 && !outs[k - 1].Opened?;
       && d'.results == d.results + outs[..k] && d'.accepted == d.accepted
       && AnswersFront(d.replies, d'.replies, queue, outs, k)
       && (d'.running <==> !failed && (inbound.InboundPending? || (inbound.Arrived? && received)))
       && d'.delivered ==
            (if !failed && inbound.Arrived? && received then d.delivered + [inbound.stream] else d.delivered)
       && (d'.running ==> d'.pending == queue[k..n] && d'.channel == queue[n..] && |d'.replies| == |d.replies| + k)
  }

  lemma RoundEnds(
    d: Driver, outs: seq<Outcome>, inbound: Inbound, received: bool, n: nat, k: nat, served: Driver, d': Driver)
    requires d.running && ServedFront(d, outs, n, k, served)
    requires d' ==
      if k > 0 && Failed(outs[k - 1]) then Drained(served)
      else if inbound.InboundPending? then served
      else if inbound.Arrived? && received then served.(delivered := served.delivered + [inbound.stream])
      else Drained(served)
    ensures RoundSays(d, outs, inbound, received, n, k, d')
  {
    DrainDoes(served);
    FrontStays(d.replies, served.replies, d'.replies, d.pending + d.channel, outs, k);
  }

  /**
   * A round moves requests into the queue while there is room, gives each waiting request the connection's next
   * answer until the connection has no more or fails, hands over a stream of the peer's, and ends the driver exactly
   * when the connection fails or ends or nobody takes the peer's streams any more.
   */
  lemma RoundDoes(d: Driver, outs: seq<Outcome>, inbound: Inbound, received: bool) returns (n: nat, k: nat)
    requires d.running && |d.pending| <= OPEN_QUEUE
    ensures RoundSays(d, outs, inbound, received, n, k, Rounded(d, outs, inbound, received))
  {
    n, k := FillAndServe(d, outs);
    RoundEnds(d, outs, inbound, received, n, k, Served(Filled(d), outs), Rounded(d, outs, inbound, received));
  }
}
