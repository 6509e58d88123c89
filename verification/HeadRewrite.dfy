/** Forwarding a local request upstream: reading its head and rewriting it (crates/cy-core/src/connect.rs). */
module HeadRewrite {
  import opened Basics
  import opened HttpText

  // ---- reading the head, byte by byte ----

  const HEAD_LIMIT := 64 * 1024

  datatype HeadError = ClosedEarly | TooLong

  predicate EndsWithBlankLine(s: Bytes) {
    At(BlankLine, s, |s| - 4)
  }

  /** Exactly the bytes through the first blank line are taken from the stream. */
  method ReadHead(input: Bytes) returns (r: Result<Bytes, HeadError>, rest: Bytes)
    ensures match Find(BlankLine, input)
            case Some(p) =>
              if p + 4 <= 65536 then r == Ok(input[..p + 4]) && rest == input[p + 4..] else r == Err(TooLong)
            case None => r == Err(if |input| > 65536 then TooLong else ClosedEarly)
  {
    var head: Bytes := [];
    var n := 0;
    while !EndsWithBlankLine(head)
      invariant n <= |input| && n <= HEAD_LIMIT && head == input[..n]
      invariant forall i :: 0 <= i && i + 4 < n ==> !At(BlankLine, input, i)
      decreases |input| - n
    {
      assert !At(BlankLine, input, n - 4);
      if n == |input| {
        return Err(ClosedEarly), [];
      }
      head := head + [input[n]];
      n := n + 1;
      if |head| > HEAD_LIMIT {
        return Err(TooLong), input[n..];
      }
    }
    assert At(BlankLine, input, n - 4);
    FindIs(BlankLine, input, n - 4);
    return Ok(head), input[n..];
  }

  // ---- base64 (section 4 of RFC 4648) ----

  type Digit = d: int | 0 <= d < 64

  function Symbol(d: Digit): (b: Byte)
    ensures b != CR && b != LF && b < 0x80 && b != 61
  {
    if d < 26 then 65 + d else if d < 52 then 97 + d - 26 else if d < 62 then 48 + d - 52 else if d == 62 then 43 else 47
  }

  function Value(b: Byte): Digit {
    if 65 <= b <= 90 then b - 65
    else if 97 <= b <= 122 then b - 97 + 26
    else if 48 <= b <= 57 then b - 48 + 52
    else if b == 43 then 62
    else 63
  }

  const PAD: Byte := 61

  function Digits(s: Bytes): (r: seq<Digit>)
    ensures |r| % 4 != 1
    decreases |s|
  {
    if s == [] then []
    else if |s| == 1 then [s[0] / 4, s[0] % 4 * 16]
    else if |s| == 2 then [s[0] / 4, s[0] % 4 * 16 + s[1] / 16, s[1] % 16 * 4]
    else [s[0] / 4, s[0] % 4 * 16 + s[1] / 16, s[1] % 16 * 4 + s[2] / 64, s[2] % 64] + Digits(s[3..])
  }

  function FromDigits(d: seq<Digit>): Bytes
    decreases |d|
  {
    if |d| < 2 then []
    else
      var first: Byte := d[0] as int * 4 + d[1] / 16;
      if |d| == 2 then [first]
      else
        var second: Byte := d[1] as int % 16 * 16 + d[2] / 4;
        if |d| == 3 then [first, second]
        else [first, second, d[2] as int % 4 * 64 + d[3]] + FromDigits(d[4..])
  }

  lemma {:induction false} DigitsReadBack(s: Bytes)
    ensures FromDigits(Digits(s)) == s
    decreases |s|
  {
    if |s| == 1 {
      assert s == [s[0]];
    } else if |s| == 2 {
      assert s == [s[0], s[1]];
    } else if |s| >= 3 {
      assert Digits(s)[4..] == Digits(s[3..]);
      DigitsReadBack(s[3..]);
      assert s[0] as int / 4 * 4 + (s[0] % 4 * 16 + s[1] / 16) / 16 == s[0];
      assert s == [s[0], s[1], s[2]] + s[3..];
    }
  }

  /** The standard alphabet: A to Z, a to z, 0 to 9, and the plus and the slash. */
  lemma SymbolsAreTheAlphabet(d: Digit)
    ensures Symbol(0) == 'A' as int && Symbol(26) == 'a' as int && Symbol(52) == '0' as int
    ensures d !in {25, 51} && d < 61 ==> Symbol(d + 1) == Symbol(d) as int + 1
    ensures Symbol(62) == '+' as int && Symbol(63) == '/' as int
  {
  }

  function Sextets(a: int, b: int, c: int, d: int): int {
    ((a * 64 + b) * 64 + c) * 64 + d
  }

  function Octets(a: int, b: int, c: int): int {
    (a * 256 + b) * 256 + c
  }

  /** Three bytes are four groups of six bits, the same number; one or two bytes at the end are filled up with zeros. */
  lemma DigitsAreSixBits(s: Bytes)
    ensures var d := Digits(s);
      match |s|
      case 0 => d == []
      case 1 => |d| == 2 && Sextets(d[0], d[1], 0, 0) == Octets(s[0], 0, 0)
      case 2 => |d| == 3 && Sextets(d[0], d[1], d[2], 0) == Octets(s[0], s[1], 0)
      case _ => |d| >= 4 && d[4..] == Digits(s[3..]) && Sextets(d[0], d[1], d[2], d[3]) == Octets(s[0], s[1], s[2])
  {
  }

  function Symbols(d: seq<Digit>): (r: Bytes)
    ensures |r| == |d| && forall i :: 0 <= i < |r| ==> r[i] == Symbol(d[i])
  {
    seq(|d|, i requires 0 <= i < |d| => Symbol(d[i]))
  }

  function Padding(n: nat): (r: Bytes)
    ensures (n + |r|) % 4 == 0 && forall i :: 0 <= i < |r| ==> r[i] == PAD
  {
    if n % 4 == 0 then [] else if n % 4 == 1 then [PAD, PAD, PAD] else if n % 4 == 2 then [PAD, PAD] else [PAD]
  }

  function Base64(s: Bytes): (r: Bytes)
    ensures |r| % 4 == 0 && CR !in r && AllAscii(r)
  {
    Symbols(Digits(s)) + Padding(|Digits(s)|)
  }

  function Unpadded(t: Bytes): (r: Bytes)
    ensures r <= t
  {
    if t == [] || t[|t| - 1] != PAD then t else Unpadded(t[..|t| - 1])
  }

  function FromBase64(t: Bytes): Bytes {
    var symbols := Unpadded(t);
    FromDigits(seq(|symbols|, i requires 0 <= i < |symbols| => Value(symbols[i])))
  }

  lemma {:induction false} PaddingComesOff(t: Bytes, pads: Bytes)
    requires (t == [] || t[|t| - 1] != PAD) && forall i :: 0 <= i < |pads| ==> pads[i] == PAD
    ensures Unpadded(t + pads) == t
    decreases |pads|
  {
    if pads == [] {
      assert t + pads == t;
    } else {
      var n := |pads| - 1;
      assert (t + pads)[..|t + pads| - 1] == t + pads[..n];
      PaddingComesOff(t, pads[..n]);
    }
  }

  lemma SymbolValue(d: Digit)
    ensures Value(Symbol(d)) == d
  {
  }

  /** What the server decodes is the password that was given. */
  lemma PasswordArrives(s: Bytes)
    ensures FromBase64(Base64(s)) == s
  {
    var digits := Digits(s);
    var symbols := Symbols(digits);
    PaddingComesOff(symbols, Padding(|digits|));
    forall i | 0 <= i < |digits|
      ensures Value(symbols[i]) == digits[i]
    {
      SymbolValue(digits[i]);
    }
    assert seq(|symbols|, i requires 0 <= i < |symbols| => Value(symbols[i])) == digits;
    DigitsReadBack(s);
  }

  // ---- rewriting ----

  const HOST: Bytes := Ascii("host:")
  const AUTHORIZATION: Bytes := Ascii("authorization:")

  predicate Named(line: Bytes, name: Bytes) {
    |line| >= |name| && LowerBytes(line)[..|name|] == name
  }

  predicate IsHost(line: Bytes) {
    Named(line, HOST)
  }

  predicate IsAuthorization(line: Bytes) {
    Named(line, AUTHORIZATION)
  }

  function HostLine(host: Bytes): Bytes {
    Ascii("Host: ") + host
  }

  function AuthorizationLine(auth: Bytes): Bytes {
    Ascii("Authorization: Basic ") + Base64(auth)
  }

  /** Which lines are rewritten: those that begin with the header's name and a colon, in any case. */
  lemma LinesToldApart(line: Bytes)
    ensures IsHost(line) <==> |line| >= 5 && LowerBytes(line[..5]) == Ascii("host") + [58]
    ensures IsAuthorization(line) <==> |line| >= 14 && LowerBytes(line[..14]) == Ascii("authorization") + [58]
  {
    assert Ascii("host:") == Ascii("host") + [58] && Ascii("authorization:") == Ascii("authorization") + [58];
    assert |line| >= 5 ==> LowerBytes(line)[..5] == LowerBytes(line[..5]);
    assert |line| >= 14 ==> LowerBytes(line)[..14] == LowerBytes(line[..14]);
  }

  /** The lines written, byte by byte: the header's name, a colon and a space, and what it says. */
  lemma LinesWritten(host: Bytes, auth: Bytes)
    ensures HostLine(host) == Ascii("Host") + [58, 32] + host
    ensures AuthorizationLine(auth) == Ascii("Authorization") + [58, 32] + Ascii("Basic") + [32] + Base64(auth)
  {
    assert Ascii("Host: ") == Ascii("Host") + [58, 32];
    assert Ascii("Authorization: Basic ") == Ascii("Authorization") + [58, 32] + Ascii("Basic") + [32];
  }

  /** The header lines: what stands before the first empty line. */
  function Upto(lines: seq<Bytes>): (r: seq<Bytes>)
    ensures r <= lines && forall i :: 0 <= i < |r| ==> r[i] != []
    ensures |r| < |lines| ==> lines[|r|] == []
  {
    if lines == [] || lines[0] == [] then [] else [lines[0]] + Upto(lines[1..])
  }

  /** What becomes of one header line. */
  function Passed(line: Bytes, host: Bytes, auth: Option<Bytes>): seq<Bytes> {
    if IsHost(line) then [HostLine(host)]
    else if auth.Some? && IsAuthorization(line) then []
    else [line]
  }

  function Replaced(lines: seq<Bytes>, host: Bytes, auth: Option<Bytes>): seq<Bytes> {
    if lines == [] then [] else Passed(lines[0], host, auth) + Replaced(lines[1..], host, auth)
  }

  predicate SomeHost(lines: seq<Bytes>) {
    exists i :: 0 <= i < |lines| && IsHost(lines[i])
  }

  function Added(lines: seq<Bytes>, host: Bytes, auth: Option<Bytes>): seq<Bytes> {
    (if SomeHost(lines) then [] else [HostLine(host)]) + (if auth.Some? then [AuthorizationLine(auth.value)] else [])
  }

  /** The header lines sent upstream for the header lines received. */
  function NewHeaders(lines: seq<Bytes>, host: Bytes, auth: Option<Bytes>): seq<Bytes> {
    Replaced(lines, host, auth) + Added(lines, host, auth)
  }

  function Rewritten(head: Bytes, host: Bytes, auth: Option<Bytes>): Option<Bytes> {
    if !Utf8(head) then None
    else
      var lines := Lines(head);
      Some(Printed([lines[0]] + NewHeaders(Upto(lines[1..]), host, auth)) + CRLF)
  }

  lemma {:induction false} ReplacedOneMore(lines: seq<Bytes>, line: Bytes, host: Bytes, auth: Option<Bytes>)
    ensures Replaced(lines + [line], host, auth) == Replaced(lines, host, auth) + Passed(line, host, auth)
  {
    if lines == [] {
      assert lines + [line] == [line];
      assert Replaced([line][1..], host, auth) == [];
    } else {
      assert (lines + [line])[1..] == lines[1..] + [line];
      ReplacedOneMore(lines[1..], line, host, auth);
    }
  }

  lemma {:induction false} UptoIs(lines: seq<Bytes>, n: nat)
    requires n <= |lines| && (forall i :: 0 <= i < n ==> lines[i] != []) && (n < |lines| ==> lines[n] == [])
    ensures Upto(lines) == lines[..n]
  {
    if n > 0 {
      UptoIs(lines[1..], n - 1);
      assert lines[..n] == [lines[0]] + lines[1..][..n - 1];
    }
  }

  function Line(l: Bytes): Bytes {
    l + CRLF
  }

  lemma PrintedLine(lines: seq<Bytes>, l: Bytes)
    ensures Printed(lines + [l]) == Printed(lines) + Line(l)
  {
    PrintedAppend(lines, l);
    assert Printed(lines) + l + CRLF == Printed(lines) + Line(l);
  }

  lemma PrintedOneMore(first: Bytes, done: seq<Bytes>, line: Bytes, host: Bytes, auth: Option<Bytes>)
    ensures Printed([first] + Replaced(done + [line], host, auth)) ==
      Printed([first] + Replaced(done, host, auth))
      + if IsHost(line) then Line(HostLine(host)) else if auth.Some? && IsAuthorization(line) then [] else Line(line)
  {
    ReplacedOneMore(done, line, host, auth);
    var before := [first] + Replaced(done, host, auth);
    assert [first] + Replaced(done + [line], host, auth) == before + Passed(line, host, auth);
    PrintedLine(before, HostLine(host));
    PrintedLine(before, line);
    assert before + [] == before;
  }

  lemma HostOneMore(lines: seq<Bytes>, line: Bytes)
    ensures SomeHost(lines + [line]) <==> SomeHost(lines) || IsHost(line)
  {
    var all := lines + [line];
    assert all[|lines|] == line;
    assert forall i :: 0 <= i < |lines| ==> all[i] == lines[i];
  }

  lemma PassesOne(first: Bytes, headers: seq<Bytes>, n: nat, host: Bytes, auth: Option<Bytes>)
    requires n < |headers|
    ensures SomeHost(headers[..n + 1]) <==> SomeHost(headers[..n]) || IsHost(headers[n])
    ensures
      var before := Printed([first] + Replaced(headers[..n], host, auth));
      var after := Printed([first] + Replaced(headers[..n + 1], host, auth));
      var line := headers[n];
      && (IsHost(line) ==> after == before + Line(HostLine(host)))
      && (!IsHost(line) && auth.Some? && IsAuthorization(line) ==> after == before)
      && (!IsHost(line) && !(auth.Some? && IsAuthorization(line)) ==> after == before + Line(line))
  {
    assert headers[..n + 1] == headers[..n] + [headers[n]];
    PrintedOneMore(first, headers[..n], headers[n], host, auth);
    HostOneMore(headers[..n], headers[n]);
  }

  lemma PrintedAll(first: Bytes, lines: seq<Bytes>, host: Bytes, auth: Option<Bytes>)
    ensures var all := Printed([first] + NewHeaders(lines, host, auth));
      var passed := Printed([first] + Replaced(lines, host, auth));
      && (SomeHost(lines) && auth == None ==> all == passed)
      && (SomeHost(lines) && auth.Some? ==> all == passed + Line(AuthorizationLine(auth.value)))
      && (!SomeHost(lines) && auth == None ==> all == passed + Line(HostLine(host)))
      && (!SomeHost(lines) && auth.Some? ==> all == passed + Line(HostLine(host)) + Line(AuthorizationLine(auth.value)))
  {
    var before := [first] + Replaced(lines, host, auth);
    var withHost := before + (if SomeHost(lines) then [] else [HostLine(host)]);
    PrintedLine(before, HostLine(host));
    assert SomeHost(lines) ==> withHost == before;
    if auth.Some? {
      PrintedLine(withHost, AuthorizationLine(auth.value));
      assert [first] + NewHeaders(lines, host, auth) == withHost + [AuthorizationLine(auth.value)];
    } else {
      assert [first] + NewHeaders(lines, host, auth) == withHost;
    }
  }

  /** The loop over the header lines: everything up to the first empty line is passed on or replaced. */
  method PassLines(first: Bytes, lines: seq<Bytes>, host: Bytes, auth: Option<Bytes>)
    returns (out: Bytes, hostWritten: bool)
    ensures hostWritten == SomeHost(Upto(lines))
    ensures out == Printed([first] + Replaced(Upto(lines), host, auth))
  {
    out := Line(first);
    PrintedLine([], first);
    hostWritten := false;
    var i := 0;
    while i < |lines| && lines[i] != []
      invariant i <= |lines|
      invariant forall k :: 0 <= k < i ==> lines[k] != []
      invariant hostWritten == SomeHost(lines[..i])
      invariant out == Printed([first] + Replaced(lines[..i], host, auth))
    {
      PassesOne(first, lines, i, host, auth);
      if IsHost(lines[i]) {
        out := out + Line(HostLine(host));
        hostWritten := true;
      } else if auth.Some? && IsAuthorization(lines[i]) {
        // makes way for the one added below
      } else {
        out := out + Line(lines[i]);
      }
      i := i + 1;
    }
    UptoIs(lines, i);
  }

  /** The rewriting as the source does it, appending to one buffer. */
  method RewriteHead(head: Bytes, host: Bytes, auth: Option<Bytes>) returns (r: Option<Bytes>)
    ensures r == Rewritten(head, host, auth)
  {
    if !Utf8(head) {
      return None;
    }
    var lines := Lines(head);
    var out, hostWritten := PassLines(lines[0], lines[1..], host, auth);
    PrintedAll(lines[0], Upto(lines[1..]), host, auth);
    if !hostWritten {
      out := out + Line(HostLine(host));
    }
    if auth.Some? {
      out := out + Line(AuthorizationLine(auth.value));
    }
    return Some(out + CRLF);
  }

  // ---- what the upstream gets ----

  predicate Untouched(line: Bytes, auth: Option<Bytes>) {
    !IsHost(line) && !(auth.Some? && IsAuthorization(line))
  }

  /** The headers the rewriting has no business with. */
  function Others(lines: seq<Bytes>, auth: Option<Bytes>): seq<Bytes> {
    if lines == [] then []
    else if Untouched(lines[0], auth) then [lines[0]] + Others(lines[1..], auth)
    else Others(lines[1..], auth)
  }

  lemma HostLineIsHost(host: Bytes)
    ensures IsHost(HostLine(host)) && !IsAuthorization(HostLine(host))
  {
    var line := HostLine(host);
    assert LowerBytes(line)[..5] == HOST;
    assert LowerBytes(line)[0] == 104;
    assert AUTHORIZATION[0] == 97;
  }

  lemma AuthorizationLineIsOne(auth: Bytes)
    ensures IsAuthorization(AuthorizationLine(auth)) && !IsHost(AuthorizationLine(auth))
  {
    var line := AuthorizationLine(auth);
    assert LowerBytes(line)[..14] == AUTHORIZATION;
    assert LowerBytes(line)[0] == 97;
    assert HOST[0] == 104;
  }

  lemma {:induction false} OthersAppend(a: seq<Bytes>, b: seq<Bytes>, auth: Option<Bytes>)
    ensures Others(a + b, auth) == Others(a, auth) + Others(b, auth)
  {
    if a == [] {
      assert a + b == b;
    } else {
      assert (a + b)[1..] == a[1..] + b;
      OthersAppend(a[1..], b, auth);
    }
  }

  lemma {:induction false} ReplacedKeepsOthers(lines: seq<Bytes>, host: Bytes, auth: Option<Bytes>)
    ensures Others(Replaced(lines, host, auth), auth) == Others(lines, auth)
    ensures forall l <- Replaced(lines, host, auth) :: IsHost(l) ==> l == HostLine(host)
    ensures SomeHost(lines) ==> HostLine(host) in Replaced(lines, host, auth)
    ensures auth.Some? ==> forall l <- Replaced(lines, host, auth) :: !IsAuthorization(l)
  {
    if lines != [] {
      ReplacedKeepsOthers(lines[1..], host, auth);
      HostLineIsHost(host);
      OthersAppend(Passed(lines[0], host, auth), Replaced(lines[1..], host, auth), auth);
      assert SomeHost(lines) ==> IsHost(lines[0]) || SomeHost(lines[1..]) by {
        assert lines == [lines[0]] + lines[1..];
      }
    }
  }

  lemma OthersOfOne(line: Bytes, auth: Option<Bytes>)
    ensures Others([line], auth) == if Untouched(line, auth) then [line] else []
  {
    assert Others([line][1..], auth) == [];
  }

  lemma AddedHasNoOthers(lines: seq<Bytes>, host: Bytes, auth: Option<Bytes>)
    ensures Others(Added(lines, host, auth), auth) == []
  {
    HostLineIsHost(host);
    OthersOfOne(HostLine(host), auth);
    var hosts := if SomeHost(lines) then [] else [HostLine(host)];
    var ours := if auth.Some? then [AuthorizationLine(auth.value)] else [];
    OthersAppend(hosts, ours, auth);
    if auth.Some? {
      AuthorizationLineIsOne(auth.value);
      OthersOfOne(AuthorizationLine(auth.value), auth);
    }
  }

  function HostCount(lines: seq<Bytes>): nat {
    if lines == [] then 0 else (if IsHost(lines[0]) then 1 else 0) + HostCount(lines[1..])
  }

  lemma {:induction false} HostsAppend(a: seq<Bytes>, b: seq<Bytes>)
    ensures HostCount(a + b) == HostCount(a) + HostCount(b)
  {
    if a == [] {
      assert a + b == b;
    } else {
      assert (a + b)[1..] == a[1..] + b;
      HostsAppend(a[1..], b);
    }
  }

  lemma HostsOfOne(line: Bytes)
    ensures HostCount([line]) == if IsHost(line) then 1 else 0
  {
    assert HostCount([line][1..]) == 0;
  }

  /** Host lines are replaced one for one. */
  lemma {:induction false} HostsReplaced(lines: seq<Bytes>, host: Bytes, auth: Option<Bytes>)
    ensures HostCount(Replaced(lines, host, auth)) == HostCount(lines)
    ensures SomeHost(lines) <==> HostCount(lines) > 0
  {
    if lines != [] {
      HostsReplaced(lines[1..], host, auth);
      HostLineIsHost(host);
      HostsAppend(Passed(lines[0], host, auth), Replaced(lines[1..], host, auth));
      HostsOfOne(HostLine(host));
      HostsOfOne(lines[0]);
      assert SomeHost(lines) <==> IsHost(lines[0]) || SomeHost(lines[1..]) by {
        assert lines == [lines[0]] + lines[1..];
      }
    }
  }

  lemma HostsSent(lines: seq<Bytes>, host: Bytes, auth: Option<Bytes>)
    ensures HostCount(NewHeaders(lines, host, auth)) == if HostCount(lines) > 1 then HostCount(lines) else 1
  {
    HostsReplaced(lines, host, auth);
    HostsAppend(Replaced(lines, host, auth), Added(lines, host, auth));
    var hosts := if SomeHost(lines) then [] else [HostLine(host)];
    var ours := if auth.Some? then [AuthorizationLine(auth.value)] else [];
    HostsAppend(hosts, ours);
    HostLineIsHost(host);
    HostsOfOne(HostLine(host));
    if auth.Some? {
      AuthorizationLineIsOne(auth.value);
      HostsOfOne(AuthorizationLine(auth.value));
    }
  }

  /**
   * Every other header goes through untouched and in order; every Host line names the target, and there are as
   * many as came in but at least one, so exactly one if at most one came in; with a password there is exactly
   * one Authorization line, ours, at the end; without one the caller's own go through.
   */
  lemma UpstreamHeaders(lines: seq<Bytes>, host: Bytes, auth: Option<Bytes>)
    ensures var sent := NewHeaders(lines, host, auth);
      && Others(sent, auth) == Others(lines, auth)
      && (forall l <- sent :: IsHost(l) ==> l == HostLine(host))
      && HostLine(host) in sent
      && HostCount(sent) == (if HostCount(lines) > 1 then HostCount(lines) else 1)
      && (auth.Some? ==>
            && sent != [] && sent[|sent| - 1] == AuthorizationLine(auth.value)
            && forall l <- sent[..|sent| - 1] :: !IsAuthorization(l))
  {
    var replaced, added := Replaced(lines, host, auth), Added(lines, host, auth);
    ReplacedKeepsOthers(lines, host, auth);
    AddedHasNoOthers(lines, host, auth);
    OthersAppend(replaced, added, auth);
    HostIsThere(lines, host, auth);
    HostsSent(lines, host, auth);
    if auth.Some? {
      AuthorizationLineIsOne(auth.value);
      OneAuthorization(lines, host, auth.value);
    }
  }

  lemma HostIsThere(lines: seq<Bytes>, host: Bytes, auth: Option<Bytes>)
    ensures HostLine(host) in NewHeaders(lines, host, auth)
  {
    ReplacedKeepsOthers(lines, host, auth);
    if !SomeHost(lines) {
      assert Added(lines, host, auth)[0] == HostLine(host);
    }
  }

  lemma OneAuthorization(lines: seq<Bytes>, host: Bytes, auth: Bytes)
    ensures var sent := NewHeaders(lines, host, Some(auth));
      && sent != [] && sent[|sent| - 1] == AuthorizationLine(auth)
      && forall l <- sent[..|sent| - 1] :: !IsAuthorization(l)
  {
    ReplacedKeepsOthers(lines, host, Some(auth));
    HostLineIsHost(host);
    var sent := NewHeaders(lines, host, Some(auth));
    var front := Replaced(lines, host, Some(auth)) + (if SomeHost(lines) then [] else [HostLine(host)]);
    assert sent == front + [AuthorizationLine(auth)];
    assert sent[..|sent| - 1] == front;
  }

  // ---- the bytes sent ----

  lemma AddedLinesAreOneLine(auth: Bytes)
    ensures OneLine(AuthorizationLine(auth)) && AuthorizationLine(auth) != [] && Utf8(AuthorizationLine(auth))
  {
    assert CR !in Ascii("Authorization: Basic ");
    NoReturnIsOneLine(AuthorizationLine(auth));
    AsciiIsUtf8(AuthorizationLine(auth));
  }

  /** Nothing in front of a name takes part in a line end. */
  lemma PlainFront(m: Mark, front: Bytes, s: Bytes)
    requires CR !in front && !m.Separator?
    ensures Absent(m, front + s) <==> Absent(m, s)
  {
    forall i
      ensures At(m, front + s, i) <==> At(m, s, i - |front|)
    {
      if i >= |front| {
        Shifted(m, front, s, i);
      } else if 0 <= i < |front| {
        assert (front + s)[i] == front[i] && front[i] in front;
      }
    }
    forall j
      ensures At(m, s, j) ==> At(m, front + s, j + |front|)
    {
      if j >= 0 {
        Shifted(m, front, s, j + |front|);
      }
    }
  }

  lemma HostPrefixIsPlain()
    ensures CR !in Ascii("Host: ") && AllAscii(Ascii("Host: ")) && Ascii("Host: ") != []
  {
  }

  lemma HostLineBlanks(host: Bytes)
    ensures Absent(BlankLine, HostLine(host) + CRLF) <==> Absent(BlankLine, host + CRLF)
  {
    HostPrefixIsPlain();
    PlainFront(BlankLine, Ascii("Host: "), host + CRLF);
    assert HostLine(host) + CRLF == Ascii("Host: ") + (host + CRLF);
  }

  lemma HostLineBreaks(host: Bytes)
    ensures OneLine(host) ==> OneLine(HostLine(host))
    ensures HostLine(host) != [] && !At(LineEnd, HostLine(host), 0)
  {
    HostPrefixIsPlain();
    PlainFront(LineEnd, Ascii("Host: "), host);
    assert HostLine(host)[0] == Ascii("Host: ")[0];
  }

  lemma HostLineIsText(host: Bytes)
    ensures OneLine(host) ==> OneLine(HostLine(host))
    ensures Utf8(host) ==> Utf8(HostLine(host))
    ensures HostLine(host) != [] && !At(LineEnd, HostLine(host), 0)
    ensures Absent(BlankLine, HostLine(host) + CRLF) <==> Absent(BlankLine, host + CRLF)
  {
    HostPrefixIsPlain();
    HostLineBlanks(host);
    HostLineBreaks(host);
    AsciiIsUtf8(Ascii("Host: "));
    if Utf8(host) {
      Utf8Joins(Ascii("Host: "), host);
    }
  }

  /** The header lines sent are lines of the head or one of the two made here. */
  lemma {:induction false} WhereLinesComeFrom(lines: seq<Bytes>, host: Bytes, auth: Option<Bytes>)
    ensures forall l <- Replaced(lines, host, auth) :: l in lines || l == HostLine(host)
  {
    if lines != [] {
      WhereLinesComeFrom(lines[1..], host, auth);
    }
  }

  lemma SentLinesAreSmooth(lines: seq<Bytes>, host: Bytes, auth: Option<Bytes>)
    requires AllOneLine(lines) && (forall i :: 0 <= i < |lines| ==> lines[i] != []) && Absent(BlankLine, host + CRLF)
    ensures var sent := NewHeaders(lines, host, auth); forall i :: 0 <= i < |sent| ==> Smooth(sent[i])
  {
    var sent := NewHeaders(lines, host, auth);
    WhereLinesComeFrom(lines, host, auth);
    HostLineIsText(host);
    forall i | 0 <= i < |sent|
      ensures Smooth(sent[i])
    {
      if sent[i] in lines {
        OneLineIsSmooth(sent[i]);
      } else if auth.Some? && sent[i] == AuthorizationLine(auth.value) {
        AddedLinesAreOneLine(auth.value);
        OneLineIsSmooth(sent[i]);
      } else {
        assert sent[i] == HostLine(host);
      }
    }
  }

  /** A blank line inside a line comes before the end of the head. */
  lemma BlankInsideComesFirst(lines: seq<Bytes>, k: nat, j: int)
    requires k < |lines| && At(BlankLine, lines[k] + CRLF, j)
    ensures |Printed(lines)| >= 2
    ensures exists i :: 0 <= i < |Printed(lines)| - 2 && At(BlankLine, Printed(lines) + CRLF, i)
  {
    assert lines == lines[..k] + ([lines[k]] + lines[k + 1..]);
    PrintedParts(lines[..k], [lines[k]] + lines[k + 1..]);
    var front, line, back := Printed(lines[..k]), lines[k] + CRLF, Printed(lines[k + 1..]);
    assert Printed(lines) + CRLF == front + line + (back + CRLF);
    Shifted(BlankLine, front, line + (back + CRLF), |front| + j);
    assert front + line + (back + CRLF) == front + (line + (back + CRLF));
    assert At(BlankLine, line + (back + CRLF), j);
    assert At(BlankLine, Printed(lines) + CRLF, |front| + j);
  }

  lemma HeadLinesAreGood(head: Bytes)
    ensures var headers := Upto(Lines(head)[1..]);
      OneLine(Lines(head)[0]) && AllOneLine(headers) && forall i :: 0 <= i < |headers| ==> headers[i] != []
  {
    LinesAreOneLine(head);
    var lines := Lines(head);
    var headers := Upto(lines[1..]);
    assert forall i :: 0 <= i < |headers| ==> headers[i] == lines[i + 1];
  }

  lemma SmoothHeadEnds(first: Bytes, sent: seq<Bytes>)
    requires OneLine(first) && forall i :: 0 <= i < |sent| ==> Smooth(sent[i])
    ensures var out := Printed([first] + sent) + CRLF; |out| >= 4 && Find(BlankLine, out) == Some(|out| - 4)
  {
    var head := Printed([first] + sent);
    OneLineIsSmooth(first);
    HeadEndsHere(first, sent, []);
    assert head + CRLF + [] == head + CRLF;
    FindIs(BlankLine, head + CRLF, |head| - 2);
  }

  lemma RoughHeadEndsEarly(sent: seq<Bytes>, host: Bytes)
    requires HostLine(host) in sent && !Absent(BlankLine, host + CRLF)
    ensures var out := Printed(sent) + CRLF; |out| >= 4 && Find(BlankLine, out) != Some(|out| - 4)
  {
    HostLineIsText(host);
    var k :| 0 <= k < |sent| && sent[k] == HostLine(host);
    var j :| At(BlankLine, HostLine(host) + CRLF, j);
    BlankInsideComesFirst(sent, k, j);
  }

  lemma EndsWhereMeant(first: Bytes, headers: seq<Bytes>, host: Bytes, auth: Option<Bytes>)
    requires OneLine(first) && AllOneLine(headers) && forall i :: 0 <= i < |headers| ==> headers[i] != []
    ensures var out := Printed([first] + NewHeaders(headers, host, auth)) + CRLF;
      |out| >= 4 && (Find(BlankLine, out) == Some(|out| - 4) <==> Absent(BlankLine, host + CRLF))
  {
    var sent := NewHeaders(headers, host, auth);
    if Absent(BlankLine, host + CRLF) {
      SentLinesAreSmooth(headers, host, auth);
      SmoothHeadEnds(first, sent);
    } else {
      UpstreamHeaders(headers, host, auth);
      assert HostLine(host) in [first] + sent;
      RoughHeadEndsEarly([first] + sent, host);
    }
  }

  /**
   * The head sent ends at its own first blank line exactly when the target's name, followed by a line end,
   * contains none.
   */
  lemma EndsAtItsFirstBlankLine(head: Bytes, host: Bytes, auth: Option<Bytes>)
    requires Rewritten(head, host, auth).Some?
    ensures var out := Rewritten(head, host, auth).value;
      |out| >= 4 && (Find(BlankLine, out) == Some(|out| - 4) <==> Absent(BlankLine, host + CRLF))
  {
    HeadLinesAreGood(head);
    EndsWhereMeant(Lines(head)[0], Upto(Lines(head)[1..]), host, auth);
  }

  // ---- rewriting again ----

  lemma {:induction false} ReplacedParts(a: seq<Bytes>, b: seq<Bytes>, host: Bytes, auth: Option<Bytes>)
    ensures Replaced(a + b, host, auth) == Replaced(a, host, auth) + Replaced(b, host, auth)
  {
    if a == [] {
      assert a + b == b;
    } else {
      assert (a + b)[1..] == a[1..] + b;
      ReplacedParts(a[1..], b, host, auth);
    }
  }

  lemma PassedAgain(line: Bytes, host: Bytes, auth: Option<Bytes>)
    ensures Replaced(Passed(line, host, auth), host, auth) == Passed(line, host, auth)
  {
    HostLineIsHost(host);
  }

  lemma {:induction false} ReplacedAgain(lines: seq<Bytes>, host: Bytes, auth: Option<Bytes>)
    ensures Replaced(Replaced(lines, host, auth), host, auth) == Replaced(lines, host, auth)
  {
    if lines != [] {
      PassedAgain(lines[0], host, auth);
      ReplacedAgain(lines[1..], host, auth);
      ReplacedParts(Passed(lines[0], host, auth), Replaced(lines[1..], host, auth), host, auth);
    }
  }

  lemma AddedIsReplacedBy(lines: seq<Bytes>, host: Bytes, auth: Option<Bytes>)
    ensures Replaced(Added(lines, host, auth), host, auth) == if SomeHost(lines) then [] else [HostLine(host)]
  {
    var hosts := if SomeHost(lines) then [] else [HostLine(host)];
    var ours := if auth.Some? then [AuthorizationLine(auth.value)] else [];
    HostLineIsHost(host);
    ReplacedParts(hosts, ours, host, auth);
    ReplacedOneMore([], HostLine(host), host, auth);
    assert [] + [HostLine(host)] == [HostLine(host)];
    if auth.Some? {
      AuthorizationLineIsOne(auth.value);
      ReplacedOneMore([], AuthorizationLine(auth.value), host, auth);
      assert [] + ours == ours;
    }
  }

  lemma HostKnown(lines: seq<Bytes>, host: Bytes, auth: Option<Bytes>)
    ensures SomeHost(NewHeaders(lines, host, auth))
  {
    var sent := NewHeaders(lines, host, auth);
    HostIsThere(lines, host, auth);
    HostLineIsHost(host);
    var k :| 0 <= k < |sent| && sent[k] == HostLine(host);
  }

  lemma NewHeadersAgain(lines: seq<Bytes>, host: Bytes, auth: Option<Bytes>)
    ensures NewHeaders(NewHeaders(lines, host, auth), host, auth) == NewHeaders(lines, host, auth)
  {
    HostKnown(lines, host, auth);
    ReplacedAgain(lines, host, auth);
    ReplacedParts(Replaced(lines, host, auth), Added(lines, host, auth), host, auth);
    AddedIsReplacedBy(lines, host, auth);
  }

  lemma SentLinesAreText(headers: seq<Bytes>, host: Bytes, auth: Option<Bytes>)
    requires AllOneLine(headers) && (forall i :: 0 <= i < |headers| ==> headers[i] != [] && Utf8(headers[i]))
    ensures var sent := NewHeaders(headers, host, auth);
      && (forall i :: 0 <= i < |sent| ==> sent[i] != [])
      && (OneLine(host) ==> AllOneLine(sent))
      && (Utf8(host) ==> forall i :: 0 <= i < |sent| ==> Utf8(sent[i]))
  {
    var sent := NewHeaders(headers, host, auth);
    WhereLinesComeFrom(headers, host, auth);
    HostLineIsText(host);
    forall i | 0 <= i < |sent|
      ensures sent[i] != [] && (Utf8(host) ==> Utf8(sent[i])) && (OneLine(host) ==> OneLine(sent[i]))
    {
      if auth.Some? && sent[i] == AuthorizationLine(auth.value) {
        AddedLinesAreOneLine(auth.value);
      } else if sent[i] != HostLine(host) {
        assert sent[i] in Replaced(headers, host, auth);
        assert sent[i] in headers;
      }
    }
  }

  lemma HeadLinesAreText(head: Bytes)
    requires Utf8(head)
    ensures Utf8(Lines(head)[0])
    ensures var headers := Upto(Lines(head)[1..]); forall i :: 0 <= i < |headers| ==> Utf8(headers[i])
  {
    LinesAreUtf8(head);
    var lines := Lines(head);
    assert lines[0] in lines;
    var headers := Upto(lines[1..]);
    assert forall i :: 0 <= i < |headers| ==> headers[i] == lines[i + 1] && lines[i + 1] in lines;
  }

  lemma ClosedByEmptyLine(lines: seq<Bytes>)
    ensures Printed(lines + [[]]) == Printed(lines) + CRLF
  {
    PrintedLine(lines, []);
    assert Line([]) == CRLF;
  }

  lemma EmptyTextIsOneLine()
    ensures Flattened([[]]) == [[]]
  {
    OneLineIsItsLines([]);
  }

  /** Texts printed and closed by an empty line read back as their lines and the blank line. */
  lemma ClosedHeadReadsBack(texts: seq<Bytes>)
    ensures Lines(Printed(texts) + CRLF) == Flattened(texts) + [[]] + [[]]
  {
    ClosedByEmptyLine(texts);
    FlattenedParts(texts, [[]]);
    EmptyTextIsOneLine();
    LinesOfTexts(texts + [[]]);
  }

  lemma ClosedHeadIsUtf8(lines: seq<Bytes>)
    requires forall i :: 0 <= i < |lines| ==> Utf8(lines[i])
    ensures Utf8(Printed(lines) + CRLF)
  {
    ClosedByEmptyLine(lines);
    PrintedIsUtf8(lines + [[]]);
  }

  /**
   * The head sent, read back from its bytes: the lines of what was meant, then the blank line. For a target
   * name on one line these are the very lines meant.
   */
  lemma SentLinesReadBack(head: Bytes, host: Bytes, auth: Option<Bytes>)
    requires Rewritten(head, host, auth).Some?
    ensures var texts := [Lines(head)[0]] + NewHeaders(Upto(Lines(head)[1..]), host, auth);
      && Lines(Rewritten(head, host, auth).value) == Flattened(texts) + [[]] + [[]]
      && (OneLine(host) ==> Flattened(texts) == texts)
      && (forall i :: 0 < i < |texts| ==> texts[i] != [])
      && (Utf8(host) ==> Utf8(Rewritten(head, host, auth).value))
  {
    var lines := Lines(head);
    var headers := Upto(lines[1..]);
    var texts := [lines[0]] + NewHeaders(headers, host, auth);
    HeadLinesAreGood(head);
    HeadLinesAreText(head);
    SentLinesAreText(headers, host, auth);
    ClosedHeadReadsBack(texts);
    if OneLine(host) {
      FlattenedLines(texts);
    }
    if Utf8(host) {
      ClosedHeadIsUtf8(texts);
    }
  }

  lemma RewrittenAs(head: Bytes, first: Bytes, headers: seq<Bytes>, rest: seq<Bytes>, host: Bytes, auth: Option<Bytes>)
    requires Utf8(head) && Lines(head) == [first] + headers + [[]] + rest
    requires forall i :: 0 <= i < |headers| ==> headers[i] != []
    ensures Rewritten(head, host, auth) == Some(Printed([first] + NewHeaders(headers, host, auth)) + CRLF)
  {
    var after := headers + [[]] + rest;
    assert Lines(head)[1..] == after;
    UptoIs(after, |headers|);
    assert after[..|headers|] == headers;
  }

  lemma PlainSentLines(head: Bytes, sent: seq<Bytes>, host: Bytes, auth: Option<Bytes>)
    requires Rewritten(head, host, auth).Some? && OneLine(host) && Utf8(host)
    requires sent == NewHeaders(Upto(Lines(head)[1..]), host, auth)
    ensures Lines(Rewritten(head, host, auth).value) == [Lines(head)[0]] + sent + [[]] + [[]]
    ensures Utf8(Rewritten(head, host, auth).value) && forall i :: 0 <= i < |sent| ==> sent[i] != []
  {
    SentLinesReadBack(head, host, auth);
    var texts := [Lines(head)[0]] + sent;
    assert forall i :: 0 <= i < |sent| ==> sent[i] == texts[i + 1];
  }

  /** Rewriting a rewritten head changes nothing, for a target name on one line. */
  lemma RewritingTwiceIsOnce(head: Bytes, host: Bytes, auth: Option<Bytes>)
    requires Rewritten(head, host, auth).Some? && OneLine(host) && Utf8(host)
    ensures var out := Rewritten(head, host, auth).value; Rewritten(out, host, auth) == Some(out)
  {
    var headers := Upto(Lines(head)[1..]);
    var sent := NewHeaders(headers, host, auth);
    PlainSentLines(head, sent, host, auth);
    NewHeadersAgain(headers, host, auth);
    RewrittenAs(Rewritten(head, host, auth).value, Lines(head)[0], sent, [[]], host, auth);
  }

  // ---- for exactly which names ----

  /** Rewriting every head twice comes to rewriting it once. */
  ghost predicate Settles(host: Bytes) {
    forall head, auth | Rewritten(head, host, auth).Some? ::
      Rewritten(Rewritten(head, host, auth).value, host, auth) == Rewritten(head, host, auth)
  }

  lemma {:induction false} EachLineStays(lines: seq<Bytes>, host: Bytes)
    ensures |Replaced(lines, host, None)| == |lines|
  {
    if lines != [] {
      EachLineStays(lines[1..], host);
    }
  }

  lemma PrintedIsLonger(lines: seq<Bytes>)
    ensures lines != [] ==> |Printed(lines)| >= 2
  {
  }

  /** The header lines found behind a Host line. */
  lemma BehindHostLine(a: Bytes, lines: seq<Bytes>, host: Bytes)
    ensures NewHeaders([HostLine(a)] + lines, host, None) == [HostLine(host)] + Replaced(lines, host, None)
  {
    var all := [HostLine(a)] + lines;
    HostLineIsHost(a);
    ReplacedParts([HostLine(a)], lines, host, None);
    ReplacedOneMore([], HostLine(a), host, None);
    assert [] + [HostLine(a)] == [HostLine(a)];
    assert IsHost(all[0]);
    assert Added(all, host, None) == [];
  }

  /** A line that is no header of ours. */
  const OTHER: Bytes := [88]

  lemma OtherIsPlain()
    ensures !IsHost(OTHER) && OneLine(OTHER) && Utf8(OTHER)
  {
    AsciiIsUtf8(OTHER);
  }

  /** The Host line of a name on several lines reads back as that many lines. */
  lemma HostLineLines(host: Bytes)
    ensures Lines(HostLine(host)) == [HostLine(Lines(host)[0])] + Lines(host)[1..]
  {
    var front := Ascii("Host: ");
    HostPrefixIsPlain();
    LinesBehindFront(front, host);
  }

  lemma LinesBehindFront(front: Bytes, s: Bytes)
    requires CR !in front
    ensures Lines(front + s) == [front + Lines(s)[0]] + Lines(s)[1..]
  {
    var end := Find(LineEnd, s);
    PlainFront(LineEnd, front, s);
    if end == None {
      OneLineIsItsLines(front + s);
    } else {
      var p := end.value;
      assert front + s == (front + s[..p]) + CRLF + s[p + 2..];
      LinesAreOneLine(s);
      assert Lines(s)[0] == s[..p];
      PlainFront(LineEnd, front, s[..p]);
      LinesStep(front + s[..p], s[p + 2..]);
    }
  }

  lemma FlattenedHost(host: Bytes)
    ensures Flattened([HostLine(host)]) == [HostLine(Lines(host)[0])] + Lines(host)[1..]
  {
    HostLineLines(host);
    assert Flattened([HostLine(host)]) == Lines(HostLine(host)) + Flattened([]);
  }

  lemma Grouped(a: seq<Bytes>, b: seq<Bytes>, c: seq<Bytes>)
    ensures a + b + c == a + (b + c)
  {
  }

  lemma HostLineAndMore(host: Bytes, more: seq<Bytes>)
    requires AllOneLine(more)
    ensures Flattened([HostLine(host)] + more) == [HostLine(Lines(host)[0])] + (Lines(host)[1..] + more)
  {
    FlattenedParts([HostLine(host)], more);
    FlattenedLines(more);
    FlattenedHost(host);
    Grouped([HostLine(Lines(host)[0])], Lines(host)[1..], more);
  }

  /** What a rewritten head reads back as, when the Host line just written is its first header. */
  lemma AfterHostLine(host: Bytes, more: seq<Bytes>)
    requires AllOneLine(more)
    ensures Flattened([[]] + ([HostLine(host)] + more)) ==
      [[]] + ([HostLine(Lines(host)[0])] + (Lines(host)[1..] + more))
  {
    FlattenedParts([[]], [HostLine(host)] + more);
    EmptyTextIsOneLine();
    HostLineAndMore(host, more);
  }

  /** The head sent for an empty first line and header lines `more`, the Host line first. */
  function Sent(host: Bytes, more: seq<Bytes>): Bytes {
    Printed([[]] + ([HostLine(host)] + more)) + CRLF
  }

  lemma SentIsUtf8(host: Bytes, more: seq<Bytes>)
    requires Utf8(host) && forall i :: 0 <= i < |more| ==> Utf8(more[i])
    ensures Utf8(Sent(host, more))
  {
    HostLineIsText(host);
    ClosedHeadIsUtf8([[]] + ([HostLine(host)] + more));
  }

  lemma SentLines(host: Bytes, more: seq<Bytes>, behind: seq<Bytes>, n: nat, rest: seq<Bytes>)
    requires AllOneLine(more) && behind == Lines(host)[1..] + more
    requires n <= |behind| && (n < |behind| ==> behind[n] == [])
    requires rest == if n < |behind| then behind[n + 1..] + [[]] + [[]] else [[]]
    ensures Lines(Sent(host, more)) == [[]] + ([HostLine(Lines(host)[0])] + behind[..n]) + [[]] + rest
  {
    ClosedHeadReadsBack([[]] + ([HostLine(host)] + more));
    AfterHostLine(host, more);
    CutAt(HostLine(Lines(host)[0]), behind, n, rest);
  }

  lemma NotEmptyBehind(line: Bytes, lines: seq<Bytes>)
    requires line != [] && forall i :: 0 <= i < |lines| ==> lines[i] != []
    ensures var all := [line] + lines; forall i :: 0 <= i < |all| ==> all[i] != []
  {
  }

  /** Rewriting such a head, for the same name or another: the lines up to the first empty one are what counts. */
  lemma SentAgain(written: Bytes, more: seq<Bytes>, behind: seq<Bytes>, n: nat, host: Bytes)
    requires Utf8(written) && AllOneLine(more) && forall i :: 0 <= i < |more| ==> Utf8(more[i])
    requires behind == Lines(written)[1..] + more
    requires n <= |behind| && (forall i :: 0 <= i < n ==> behind[i] != []) && (n < |behind| ==> behind[n] == [])
    ensures Rewritten(Sent(written, more), host, None) == Some(Sent(host, Replaced(behind[..n], host, None)))
  {
    var a := Lines(written)[0];
    var rest := if n < |behind| then behind[n + 1..] + [[]] + [[]] else [[]];
    SentIsUtf8(written, more);
    SentLines(written, more, behind, n, rest);
    HostLineIsText(a);
    NotEmptyBehind(HostLine(a), behind[..n]);
    RewrittenAs(Sent(written, more), [], [HostLine(a)] + behind[..n], rest, host, None);
    BehindHostLine(a, behind[..n], host);
  }

  lemma CutAt(line: Bytes, behind: seq<Bytes>, n: nat, rest: seq<Bytes>)
    requires n <= |behind| && (n < |behind| ==> behind[n] == [])
    requires rest == if n < |behind| then behind[n + 1..] + [[]] + [[]] else [[]]
    ensures [[]] + ([line] + behind) + [[]] + [[]] == [[]] + ([line] + behind[..n]) + [[]] + rest
  {
    if n < |behind| {
      assert behind == behind[..n] + [[]] + behind[n + 1..];
    } else {
      assert behind[..n] == behind;
    }
  }

  lemma SentLength(host: Bytes, more: seq<Bytes>)
    ensures |Sent(host, more)| == |Sent(host, [])| + |Printed(more)|
  {
    assert [[]] + ([HostLine(host)] + more) == [[]] + ([HostLine(host)] + []) + more;
    PrintedParts([[]] + ([HostLine(host)] + []), more);
  }

  /** The head with an empty first line and no headers, rewritten. */
  lemma BareHead(host: Bytes)
    ensures Rewritten(Printed([[]]) + CRLF, host, None) == Some(Sent(host, []))
  {
    ClosedHeadReadsBack([[]]);
    EmptyTextIsOneLine();
    ClosedHeadIsUtf8([[]]);
    RewrittenAs(Printed([[]]) + CRLF, [], [], [[]], host, None);
    var empty: seq<Bytes> := [[]];
    assert empty + [] + empty + empty == empty + empty + empty;
    assert NewHeaders([], host, None) == [HostLine(host)] + [];
  }

  /** The head with an empty first line, an empty Host and one more header, rewritten. */
  lemma HeadWithOther(host: Bytes)
    ensures Rewritten(Sent([], [OTHER]), host, None) == Some(Sent(host, [OTHER]))
  {
    OtherIsPlain();
    OneLineIsItsLines([]);
    SentAgain([], [OTHER], [OTHER], 1, host);
    EachLineStays([OTHER], host);
    ReplacedOneMore([], OTHER, host, None);
    assert [OTHER][..1] == [OTHER] && [] + [OTHER] == [OTHER];
  }

  /** With text behind its line break, the name brings another line each time. */
  lemma BrokenNameGrows(host: Bytes)
    requires Utf8(host) && |Lines(host)| > 1 && Lines(host)[1] != []
    ensures !Settles(host)
  {
    var behind := Lines(host)[1..];
    var kept := Upto(behind);
    BareHead(host);
    assert behind + [] == behind && behind[..|kept|] == kept;
    SentAgain(host, [], behind, |kept|, host);
    EachLineStays(kept, host);
    SentLength(host, Replaced(kept, host, None));
    PrintedIsLonger(Replaced(kept, host, None));
    assert Rewritten(Printed([[]]) + CRLF, host, None).Some?;
  }

  /** With nothing behind its line break, the name cuts off the headers that follow it. */
  lemma BrokenNameCuts(host: Bytes)
    requires Utf8(host) && |Lines(host)| > 1 && Lines(host)[1] == []
    ensures !Settles(host)
  {
    var behind := Lines(host)[1..] + [OTHER];
    OtherIsPlain();
    HeadWithOther(host);
    SentAgain(host, [OTHER], behind, 0, host);
    assert behind[..0] == [];
    SentLength(host, [OTHER]);
    PrintedIsLonger([OTHER]);
    assert Rewritten(Sent([], [OTHER]), host, None).Some?;
  }

  /**
   * Rewriting settles after the first time, whatever the head and the password, exactly for the target names
   * that stand on one line.
   */
  lemma RewritingSettlesExactlyWhen(host: Bytes)
    requires Utf8(host)
    ensures Settles(host) <==> OneLine(host)
  {
    OneLineIsItsLines(host);
    if OneLine(host) {
      forall head, auth | Rewritten(head, host, auth).Some?
        ensures Rewritten(Rewritten(head, host, auth).value, host, auth) == Rewritten(head, host, auth)
      {
        RewritingTwiceIsOnce(head, host, auth);
      }
    } else if Lines(host)[1] != [] {
      BrokenNameGrows(host);
    } else {
      BrokenNameCuts(host);
    }
  }
}
