/** Public ports for TCP tunnels (crates/cy-server/src/ingress_tcp.rs). */
module PortPool {
  import opened Basics
  import opened Registry

  type Token = nat

  /**
   * What a leased port maps to. The source stores only the cancel token; the rest records on whose
   * behalf `lease` was called, so that ownership can be stated.
   */
  datatype Lease = Lease(token: Token, session: SessionId, tunnelId: TunnelId, host: Host)

  datatype LeaseError = Exhausted | PortTaken | OutOfRange | BindFailed

  /** The pool at one moment: leased ports, the next unused token, and the tokens already cancelled. */
  datatype Pool = Pool(leased: map<Port, Lease>, nextToken: Token, cancelled: set<Token>)

  // ---- the lock sections ----

  function Placed(p: Pool, port: Port, session: SessionId, tunnelId: TunnelId, host: Host): Pool {
    p.(leased := p.leased[port := Lease(p.nextToken, session, tunnelId, host)], nextToken := p.nextToken + 1)
  }

  function Abandoned(p: Pool, port: Port): Pool {
    p.(leased := p.leased - {port})
  }

  function Released(p: Pool, port: Port): Pool {
    if port in p.leased
    then p.(leased := p.leased - {port}, cancelled := p.cancelled + {p.leased[port].token})
    else p
  }

  function InRange(lo: Port, hi: Port, wanted: Port): bool {
    lo <= wanted <= hi
  }

  function Span(lo: int, hi: int): (r: seq<Port>)
    requires 0 <= lo && hi < 0x1_0000
    ensures |r| == if lo <= hi then hi - lo + 1 else 0
    ensures forall i :: 0 <= i < |r| ==> r[i] == lo + i
    decreases hi - lo
  {
    if lo <= hi then [lo] + Span(lo + 1, hi) else []
  }

  /** The ports a lease call tries, in order. */
  function Candidates(lo: Port, hi: Port, wanted: Option<Port>): Result<seq<Port>, LeaseError> {
    match wanted
    case Some(p) => if InRange(lo, hi, p) then Ok([p]) else Err(OutOfRange)
    case None => Ok(Span(lo, hi))
  }

  /** The first port of the range that is free and that the operating system grants. */
  function FirstFree(lo: int, hi: int, leased: map<Port, Lease>, binds: set<Port>): (r: Option<Port>)
    requires 0 <= lo && hi < 0x1_0000
    ensures r.Some? ==>
      && lo <= r.value <= hi && r.value !in leased && r.value in binds
      && forall q: Port | lo <= q < r.value :: q in leased || q !in binds
    ensures r == None ==> forall q: Port | lo <= q <= hi :: q in leased || q !in binds
    decreases hi - lo
  {
    if lo > hi then None
    else if lo !in leased && lo in binds then Some(lo)
    else FirstFree(lo + 1, hi, leased, binds)
  }

  /** What a lease call with nobody else in between comes to. */
  function LeaseAnswer(lo: Port, hi: Port, leased: map<Port, Lease>, wanted: Option<Port>, binds: set<Port>):
    Result<Port, LeaseError>
  {
    match wanted
    case Some(p) =>
      if !InRange(lo, hi, p) then Err(OutOfRange)
      else if p in leased then Err(PortTaken)
      else if p !in binds then Err(BindFailed)
      else Ok(p)
    case None =>
      match FirstFree(lo, hi, leased, binds)
      case Some(p) => Ok(p)
      case None => Err(Exhausted)
  }

  /**
   * The message format says that a requested port of 0 asks for any port, as no request does. The pool treats 0
   * as a port like any other, so the two are answered alike exactly when 0 is in the pool, free and bindable.
   * Of the usual pools, 10000 to 10100 say, a request for 0 is turned away while any port would be granted.
   */
  lemma ZeroIsNotAnyPort(lo: Port, hi: Port, leased: map<Port, Lease>, binds: set<Port>)
    ensures LeaseAnswer(lo, hi, leased, Some(0), binds) == LeaseAnswer(lo, hi, leased, None, binds) <==>
      lo == 0 && 0 !in leased && 0 in binds
    ensures LeaseAnswer(10000, 10100, map[], Some(0), {10000}) == Err(OutOfRange)
    ensures LeaseAnswer(10000, 10100, map[], None, {10000}) == Ok(10000)
  {
  }

  class PortPool {
    const lo: Port
    const hi: Port
    var leased: map<Port, Lease>
    var nextToken: Token
    var cancelled: set<Token>

    ghost function View(): Pool
      reads this
    {
      Pool(leased, nextToken, cancelled)
    }

    constructor (lo: Port, hi: Port)
      ensures this.lo == lo && this.hi == hi
      ensures View() == Pool(map[], 0, {})
    {
      this.lo, this.hi := lo, hi;
      leased, nextToken, cancelled := map[], 0, {};
    }

    /** Reserves a port under the lock; false when somebody holds it. */
    method Place(port: Port, session: SessionId, tunnelId: TunnelId, host: Host) returns (ok: bool)
      modifies this`leased, this`nextToken
      ensures ok == (port !in old(leased))
      ensures View() == if ok then Placed(old(View()), port, session, tunnelId, host) else old(View())
    {
      if port in leased {
        return false;
      }
      leased := leased[port := Lease(nextToken, session, tunnelId, host)];
      nextToken := nextToken + 1;
      ok := true;
    }

    method Abandon(port: Port)
      modifies this`leased
      ensures View() == Abandoned(old(View()), port)
    {
      leased := leased - {port};
    }

    method Release(port: Port)
      modifies this`leased, this`cancelled
      ensures View() == Released(old(View()), port)
    {
      if port in leased {
        cancelled := cancelled + {leased[port].token};
        leased := leased - {port};
      }
    }

    /**
     * A whole lease call with nobody else in between; `binds` says which ports the operating system grants.
     * The answer is the first port that is both free and bindable; a failed call leaves the pool as it was.
     */
    method LeasePort(wanted: Option<Port>, session: SessionId, tunnelId: TunnelId, host: Host, binds: set<Port>)
      returns (r: Result<Port, LeaseError>)
      modifies this`leased, this`nextToken
      ensures r == LeaseAnswer(lo, hi, old(leased), wanted, binds)
      ensures r.Ok? ==>
        && InRange(lo, hi, r.value) && r.value !in old(leased) && r.value in binds
        && (wanted.Some? ==> wanted.value == r.value)
        && (wanted.None? ==> forall q: Port | lo <= q < r.value :: q in old(leased) || q !in binds)
        && r.value in leased && leased[r.value].token >= old(nextToken)
        && leased == old(leased)[r.value := Lease(leased[r.value].token, session, tunnelId, host)]
      ensures r.Err? ==> leased == old(leased)
      ensures r == Err(OutOfRange) <==> wanted.Some? && !InRange(lo, hi, wanted.value)
      ensures r == Err(PortTaken) <==> wanted.Some? && InRange(lo, hi, wanted.value) && wanted.value in old(leased)
      ensures r == Err(BindFailed) <==>
        wanted.Some? && InRange(lo, hi, wanted.value) && wanted.value !in old(leased) && wanted.value !in binds
      ensures r == Err(Exhausted) <==>
        wanted.None? && forall q: Port | InRange(lo, hi, q) :: q in old(leased) || q !in binds
      ensures nextToken >= old(nextToken) && (r.Ok? ==> nextToken > leased[r.value].token)
    {
      var tried := Candidates(lo, hi, wanted);
      if tried.Err? {
        return Err(tried.error);
      }
      var candidates := tried.value;
      for i := 0 to |candidates|
        invariant leased == old(leased) && nextToken >= old(nextToken)
        invariant wanted.Some? ==> i == 0
        invariant forall k :: 0 <= k < i ==> candidates[k] in old(leased) || candidates[k] !in binds
      {
        var port := candidates[i];
        var free := Place(port, session, tunnelId, host);
        if !free {
          if wanted.Some? {
            return Err(PortTaken);
          }
          continue;
        }
        if port in binds {
          if wanted.None? {
            forall q: Port | lo <= q < port
              ensures q in old(leased) || q !in binds
            {
              assert candidates[q - lo] == q;
            }
          }
          return Ok(port);
        }
        Abandon(port);
        assert leased == old(leased);
        if wanted.Some? {
          return Err(BindFailed);
        }
      }
      forall q: Port | InRange(lo, hi, q)
        ensures q in old(leased) || q !in binds
      {
        assert candidates[q - lo] == q;
      }
      r := Err(Exhausted);
    }
  }
}
