/**
 * Recognising a request in captured bytes (crates/cy-core/src/client.rs, parse_exchange) and sending a
 * recorded one again (crates/cy-core/src/inspector.rs, redact and replay).
 */
module Exchange {
  import opened Basics
  import opened HttpText

  datatype Header = Header(key: Bytes, value: Bytes)

  datatype Exchange = Exchange(verb: Bytes, path: Bytes, headers: seq<Header>, body: Bytes)

  // ---- words between white space ----

  /** The length of the white-space character at the front, if there is one (the Unicode White_Space property). */
  function SpaceWidth(s: Bytes): (w: nat)
    ensures w <= |s|
    ensures w > 0 ==> !Follows(s[0])
    ensures w > 0 && Utf8(s) ==> Utf8(s[w..])
  {
    if s == [] then 0
    else if 9 <= s[0] <= 13 || s[0] == 32 then 1
    else if |s| >= 2 && s[0] == 0xC2 && (s[1] == 0x85 || s[1] == 0xA0) then 2
    else if |s| >= 3 && s[0] == 0xE1 && s[1] == 0x9A && s[2] == 0x80 then 3
    else if |s| >= 3 && s[0] == 0xE2 && s[1] == 0x80
            && (0x80 <= s[2] <= 0x8A || s[2] == 0xA8 || s[2] == 0xA9 || s[2] == 0xAF) then 3
    else if |s| >= 3 && s[0] == 0xE2 && s[1] == 0x81 && s[2] == 0x9F then 3
    else if |s| >= 3 && s[0] == 0xE3 && s[1] == 0x80 && s[2] == 0x80 then 3
    else 0
  }

  /** The code points with the property White_Space. */
  predicate WhiteSpace(c: int) {
    || 9 <= c <= 13 || c == 0x20 || c == 0x85 || c == 0xA0 || c == 0x1680 || 0x2000 <= c <= 0x200A
    || c == 0x2028 || c == 0x2029 || c == 0x202F || c == 0x205F || c == 0x3000
  }

  lemma SpacesAreWhiteSpace(s: Bytes)
    ensures CharWidth(s) > 0 && WhiteSpace(CodePoint(s, CharWidth(s))) ==> SpaceWidth(s) == CharWidth(s)
    ensures CharWidth(s) > 0 && !WhiteSpace(CodePoint(s, CharWidth(s))) ==> SpaceWidth(s) == 0
    ensures CharWidth(s) == 0 ==> SpaceWidth(s) == 0
  {
  }

  function SkipSpace(s: Bytes): (r: Bytes)
    ensures SpaceWidth(r) == 0
    ensures Utf8(s) ==> Utf8(r)
    decreases |s|
  {
    if SpaceWidth(s) > 0 then SkipSpace(s[SpaceWidth(s)..]) else s
  }

  /** How far the word at the front reaches. */
  function WordLength(s: Bytes): (n: nat)
    ensures n <= |s|
    ensures n < |s| ==> SpaceWidth(s[n..]) > 0
    ensures forall i :: 0 <= i < n ==> SpaceWidth(s[i..]) == 0
    decreases |s|
  {
    if s == [] || SpaceWidth(s) > 0 then 0
    else
      var n := 1 + WordLength(s[1..]);
      assert forall i :: 0 < i <= |s| ==> s[1..][i - 1..] == s[i..];
      n
  }

  datatype Word = Word(text: Bytes, rest: Bytes)

  function NextWord(s: Bytes): Option<Word> {
    var t := SkipSpace(s);
    if t == [] then None else Some(Word(t[..WordLength(t)], t[WordLength(t)..]))
  }

  /** A word: no white space anywhere in it. */
  ghost predicate Solid(w: Bytes) {
    w != [] && Utf8(w) && forall i :: 0 <= i < |w| ==> SpaceWidth(w[i..]) == 0
  }

  lemma NoSpaceInPart(a: Bytes, b: Bytes)
    requires SpaceWidth(a + b) == 0
    ensures SpaceWidth(a) == 0
  {
  }

  lemma WordIsSolid(s: Bytes)
    requires Utf8(s) && NextWord(s).Some?
    ensures Solid(NextWord(s).value.text) && Utf8(NextWord(s).value.rest)
  {
    var t := SkipSpace(s);
    WordIsText(t);
    FrontIsSolid(t, WordLength(t));
    assert t != [] && SpaceWidth(t) == 0;
  }

  lemma WordIsText(t: Bytes)
    requires Utf8(t)
    ensures Utf8(t[..WordLength(t)]) && Utf8(t[WordLength(t)..])
  {
    var word, rest := t[..WordLength(t)], t[WordLength(t)..];
    assert t == word + rest;
    assert rest != [] ==> !Follows(rest[0]);
    Utf8Cuts(word, rest);
  }

  lemma FrontIsSolid(t: Bytes, n: nat)
    requires n <= |t| && forall i :: 0 <= i < n ==> SpaceWidth(t[i..]) == 0
    ensures forall i :: 0 <= i < n ==> SpaceWidth(t[..n][i..]) == 0
  {
    forall i | 0 <= i < n
      ensures SpaceWidth(t[..n][i..]) == 0
    {
      assert t[i..] == t[..n][i..] + t[n..];
      NoSpaceInPart(t[..n][i..], t[n..]);
    }
  }

  lemma {:induction false} WordBeforeSpace(w: Bytes, rest: Bytes)
    requires forall i :: 0 <= i < |w| ==> SpaceWidth(w[i..]) == 0
    ensures WordLength(w + [SPACE] + rest) == |w|
    decreases |w|
  {
    var s := w + [SPACE] + rest;
    if w == [] {
      assert s[0] == SPACE;
    } else {
      assert w[0..] == w;
      assert s[1..] == w[1..] + [SPACE] + rest;
      assert forall i :: 0 <= i < |w| - 1 ==> w[1..][i..] == w[i + 1..];
      WordBeforeSpace(w[1..], rest);
      NoSpaceAcross(w, rest);
    }
  }

  lemma NoSpaceAcross(w: Bytes, rest: Bytes)
    requires w != [] && SpaceWidth(w) == 0
    ensures SpaceWidth(w + [SPACE] + rest) == 0
  {
    var s := w + [SPACE] + rest;
    assert s[0] == w[0] && s[|w|] == SPACE;
    assert |w| > 1 ==> s[1] == w[1];
    assert |w| > 2 ==> s[2] == w[2];
  }

  /** Two words and a single space between read back as they are. */
  lemma WordReadsBack(w: Bytes, rest: Bytes)
    requires Solid(w)
    ensures NextWord(w + [SPACE] + rest) == Some(Word(w, [SPACE] + rest))
    ensures NextWord([SPACE] + (w + [SPACE] + rest)) == Some(Word(w, [SPACE] + rest))
  {
    var s := w + [SPACE] + rest;
    assert w[0..] == w;
    NoSpaceAcross(w, rest);
    WordBeforeSpace(w, rest);
    assert s[..|w|] == w && s[|w|..] == [SPACE] + rest;
    assert ([SPACE] + s)[1..] == s;
    assert SpaceWidth([SPACE] + s) == 1;
  }

  lemma SolidIsOneLine(w: Bytes)
    requires Solid(w)
    ensures CR !in w
  {
    forall i | 0 <= i < |w|
      ensures w[i] != CR
    {
      assert SpaceWidth(w[i..]) == 0;
      assert w[i..][0] == w[i];
    }
  }

  // ---- reading a request ----

  function SplitHeader(line: Bytes): Option<Header> {
    match Find(Separator, line)
    case Some(p) => Some(Header(line[..p], line[p + 2..]))
    case None => None
  }

  /** Lines without a colon and a space are passed over. */
  function HeadersOf(lines: seq<Bytes>): seq<Header> {
    if lines == [] then []
    else
      match SplitHeader(lines[0])
      case Some(h) => [h] + HeadersOf(lines[1..])
      case None => HeadersOf(lines[1..])
  }

  function ParseExchange(raw: Bytes): Option<Exchange> {
    match Find(BlankLine, raw)
    case None => None
    case Some(split) =>
      var head := raw[..split];
      if !Utf8(head) then None
      else
        var lines := Lines(head);
        match NextWord(lines[0])
        case None => None
        case Some(verb) =>
          match NextWord(verb.rest)
          case None => None
          case Some(path) => Some(Exchange(verb.text, path.text, HeadersOf(lines[1..]), raw[split + 4..]))
  }

  // ---- recording and sending again ----

  /** The text a hidden value is replaced by, in UTF-8. */
  const REDACTED: Bytes :=
    [0xEF, 0xBC, 0x88, 0xE5, 0xB7, 0xB2, 0xE9, 0x9A, 0x90, 0xE5, 0x8E, 0xBB, 0xEF, 0xBC, 0x89]

  const BODY_LIMIT := 256 * 1024

  predicate Sensitive(key: Bytes) {
    || SameIgnoringCase(key, Ascii("authorization"))
    || SameIgnoringCase(key, Ascii("cookie"))
    || SameIgnoringCase(key, Ascii("set-cookie"))
    || SameIgnoringCase(key, Ascii("proxy-authorization"))
  }

  /** The keys, in lower case, whose values are secret. */
  const SECRETS: set<Bytes> :=
    {Ascii("authorization"), Ascii("cookie"), Ascii("set-cookie"), Ascii("proxy-authorization")}

  lemma SecretKeys(key: Bytes)
    ensures Sensitive(key) <==> LowerBytes(key) in SECRETS
  {
    assert LowerBytes(Ascii("authorization")) == Ascii("authorization");
    assert LowerBytes(Ascii("cookie")) == Ascii("cookie");
    assert LowerBytes(Ascii("set-cookie")) == Ascii("set-cookie");
    assert LowerBytes(Ascii("proxy-authorization")) == Ascii("proxy-authorization");
  }

  function Redact(headers: seq<Header>): seq<Header> {
    seq(|headers|, i requires 0 <= i < |headers| =>
      if Sensitive(headers[i].key) then Header(headers[i].key, REDACTED) else headers[i])
  }

  /** What the inspector keeps of a request. */
  function Recorded(x: Exchange): Exchange {
    x.(headers := Redact(x.headers), body := if |x.body| > BODY_LIMIT then x.body[..BODY_LIMIT] else x.body)
  }

  predicate LeftOut(h: Header) {
    h.value == REDACTED || SameIgnoringCase(h.key, Ascii("connection"))
  }

  function Resent(headers: seq<Header>): seq<Header> {
    if headers == [] then []
    else if LeftOut(headers[0]) then Resent(headers[1..])
    else [headers[0]] + Resent(headers[1..])
  }

  function HeaderLine(h: Header): Bytes {
    h.key + [COLON, SPACE] + h.value
  }

  function HeaderLines(headers: seq<Header>): (r: seq<Bytes>)
    ensures |r| == |headers| && forall i :: 0 <= i < |r| ==> r[i] == HeaderLine(headers[i])
  {
    seq(|headers|, i requires 0 <= i < |headers| => HeaderLine(headers[i]))
  }

  function Decimal(n: nat): (r: Bytes)
    ensures forall i :: 0 <= i < |r| ==> 48 <= r[i] <= 57
    ensures Number(r) == n
  {
    if n < 10 then [48 + n] else Decimal(n / 10) + [48 + n % 10]
  }

  function Number(s: Bytes): int {
    if s == [] then 0 else 10 * Number(s[..|s| - 1]) + (s[|s| - 1] as int - 48)
  }

  const VERSION: Bytes := Ascii(" HTTP/1.1")

  function RequestLine(x: Exchange): Bytes {
    x.verb + [SPACE] + x.path + VERSION
  }

  function Appended(n: nat): seq<Header> {
    [Header(Ascii("Connection"), Ascii("close")), Header(Ascii("Content-Length"), Decimal(n))]
  }

  function RequestLines(x: Exchange): seq<Bytes> {
    [RequestLine(x)] + HeaderLines(Resent(x.headers) + Appended(|x.body|))
  }

  /** The bytes a replay sends. */
  function Request(x: Exchange): Bytes {
    Printed(RequestLines(x)) + CRLF + x.body
  }

  lemma ResentOneMore(headers: seq<Header>, i: nat)
    requires i < |headers|
    ensures Resent(headers[..i + 1]) == Resent(headers[..i]) + if LeftOut(headers[i]) then [] else [headers[i]]
    decreases i
  {
    if i > 0 {
      ResentOneMore(headers[1..], i - 1);
      assert headers[1..][..i - 1] == headers[..i][1..] && headers[1..][..i] == headers[..i + 1][1..];
    } else {
      assert headers[..1][1..] == headers[..0];
    }
  }

  lemma PrintedHeader(lines: seq<Bytes>, h: Header)
    ensures Printed(lines + [HeaderLine(h)]) == Printed(lines) + h.key + [COLON, SPACE] + h.value + CRLF
  {
    PrintedAppend(lines, HeaderLine(h));
  }

  lemma PrintedAll(lines: seq<Bytes>, x: Exchange)
    requires lines == [RequestLine(x)] + HeaderLines(Resent(x.headers))
    ensures var added := Appended(|x.body|);
      Request(x) == Printed(lines) + HeaderLine(added[0]) + CRLF + HeaderLine(added[1]) + CRLF + CRLF + x.body
  {
    var added := Appended(|x.body|);
    PrintedAppend(lines, HeaderLine(added[0]));
    PrintedAppend(lines + [HeaderLine(added[0])], HeaderLine(added[1]));
    assert lines + [HeaderLine(added[0])] + [HeaderLine(added[1])] == RequestLines(x);
  }

  /** The request is printed header by header. */
  method Serialise(x: Exchange) returns (raw: Bytes)
    ensures raw == Request(x)
  {
    raw := RequestLine(x) + CRLF;
    ghost var lines := [RequestLine(x)];
    PrintedAppend([], RequestLine(x));
    for i := 0 to |x.headers|
      invariant lines == [RequestLine(x)] + HeaderLines(Resent(x.headers[..i])) && raw == Printed(lines)
    {
      var h := x.headers[i];
      ResentOneMore(x.headers, i);
      if h.value == REDACTED {
        continue;
      }
      if SameIgnoringCase(h.key, Ascii("connection")) {
        continue;
      }
      PrintedHeader(lines, h);
      lines := lines + [HeaderLine(h)];
      raw := raw + h.key + [COLON, SPACE] + h.value + CRLF;
    }
    assert x.headers[..|x.headers|] == x.headers;
    PrintedAll(lines, x);
    var added := Appended(|x.body|);
    raw := raw + HeaderLine(added[0]) + CRLF + HeaderLine(added[1]) + CRLF + CRLF + x.body;
  }

  // ---- the round trip ----

  /** A header a request line was split into: printed, it is that line again. */
  ghost predicate Splits(h: Header) {
    OneLine(HeaderLine(h)) && Utf8(HeaderLine(h)) && SplitHeader(HeaderLine(h)) == Some(h)
  }

  lemma SplitPrintsBack(line: Bytes)
    requires OneLine(line) && Utf8(line) && SplitHeader(line).Some?
    ensures Splits(SplitHeader(line).value)
  {
    var h := SplitHeader(line).value;
    assert HeaderLine(h) == line;
  }

  lemma {:induction false} ReadHeadersSplit(lines: seq<Bytes>)
    requires AllOneLine(lines) && forall l <- lines :: Utf8(l)
    ensures forall h <- HeadersOf(lines) :: Splits(h)
  {
    if lines != [] {
      assert forall l <- lines[1..] :: l in lines;
      ReadHeadersSplit(lines[1..]);
      if SplitHeader(lines[0]).Some? {
        SplitPrintsBack(lines[0]);
      }
    }
  }

  lemma {:induction false} PrintedHeadersReadBack(headers: seq<Header>)
    requires forall h <- headers :: Splits(h)
    ensures HeadersOf(HeaderLines(headers)) == headers
  {
    if headers != [] {
      assert headers[0] in headers;
      assert HeaderLines(headers)[1..] == HeaderLines(headers[1..]);
      PrintedHeadersReadBack(headers[1..]);
    }
  }

  /** Not secret, not hidden already, and not about the connection it came on. */
  predicate SentOn(h: Header) {
    && LowerBytes(h.key) !in SECRETS && h.value != REDACTED
    && LowerBytes(h.key) != Ascii("connection")
  }

  lemma SentOnTells(h: Header)
    ensures SentOn(h) <==> !Sensitive(h.key) && !LeftOut(h)
  {
    SecretKeys(h.key);
    assert LowerBytes(Ascii("connection")) == Ascii("connection");
  }

  function Kept(headers: seq<Header>): seq<Header> {
    if headers == [] then []
    else if SentOn(headers[0]) then [headers[0]] + Kept(headers[1..])
    else Kept(headers[1..])
  }

  /** What survives hiding and sending: the headers that are neither sensitive nor left out, untouched and in order. */
  lemma {:induction false} HiddenAreNotResent(headers: seq<Header>)
    ensures Resent(Redact(headers)) == Kept(headers)
    ensures forall h <- Kept(headers) :: h in headers && SentOn(h)
  {
    if headers != [] {
      SentOnTells(headers[0]);
      assert Redact(headers)[1..] == Redact(headers[1..]);
      HiddenAreNotResent(headers[1..]);
    }
  }

  /** A plain header without line breaks, white space or colons in its key splits back. */
  lemma PlainSplits(key: Bytes, value: Bytes)
    requires AllAscii(key) && AllAscii(value) && COLON !in key && CR !in key && CR !in value
    ensures Splits(Header(key, value))
  {
    var line := HeaderLine(Header(key, value));
    AsciiIsUtf8(line);
    assert line[|key|] == COLON && line[|key| + 1] == SPACE;
    assert forall i :: 0 <= i < |key| ==> line[i] == key[i] && key[i] in key;
    FindIs(Separator, line, |key|);
    assert line[..|key|] == key && line[|key| + 2..] == value;
    forall i
      ensures !At(LineEnd, line, i)
    {
      assert CR !in line;
    }
  }

  lemma ConnectionSplits()
    ensures Splits(Header(Ascii("Connection"), Ascii("close")))
  {
    PlainSplits(Ascii("Connection"), Ascii("close"));
  }

  lemma LengthSplits(n: nat)
    ensures Splits(Header(Ascii("Content-Length"), Decimal(n)))
  {
    PlainSplits(Ascii("Content-Length"), Decimal(n));
  }

  lemma AppendedSplit(n: nat)
    ensures forall h <- Appended(n) :: Splits(h)
  {
    ConnectionSplits();
    LengthSplits(n);
  }

  lemma VersionIsPlain()
    ensures VERSION == [SPACE] + VERSION[1..] && AllAscii(VERSION) && CR !in VERSION
  {
  }

  lemma TwoWords(a: Bytes, b: Bytes, rest: Bytes)
    requires Solid(a) && Solid(b)
    ensures NextWord(a + [SPACE] + b + ([SPACE] + rest)) == Some(Word(a, [SPACE] + (b + [SPACE] + rest)))
    ensures NextWord([SPACE] + (b + [SPACE] + rest)) == Some(Word(b, [SPACE] + rest))
  {
    Regrouped(a, b, rest);
    WordReadsBack(a, b + [SPACE] + rest);
    WordReadsBack(b, rest);
  }

  lemma Regrouped(a: Bytes, b: Bytes, c: Bytes)
    ensures a + [SPACE] + b + ([SPACE] + c) == a + [SPACE] + (b + [SPACE] + c)
  {
  }

  lemma RequestLineWords(x: Exchange)
    requires Solid(x.verb) && Solid(x.path)
    ensures NextWord(RequestLine(x)).Some? && NextWord(RequestLine(x)).value.text == x.verb
    ensures var rest := NextWord(RequestLine(x)).value.rest;
      NextWord(rest).Some? && NextWord(rest).value.text == x.path
  {
    VersionIsPlain();
    TwoWords(x.verb, x.path, VERSION[1..]);
  }

  lemma RequestLineIsText(x: Exchange)
    requires Solid(x.verb) && Solid(x.path)
    ensures OneLine(RequestLine(x)) && Utf8(RequestLine(x)) && RequestLine(x) != []
  {
    VersionIsPlain();
    SolidIsOneLine(x.verb);
    SolidIsOneLine(x.path);
    NoReturnIsOneLine(RequestLine(x));
    AsciiIsUtf8([SPACE]);
    AsciiIsUtf8(VERSION);
    Utf8Joins(x.verb, [SPACE]);
    Utf8Joins(x.verb + [SPACE], x.path);
    Utf8Joins(x.verb + [SPACE] + x.path, VERSION);
  }

  ghost predicate TextLines(lines: seq<Bytes>) {
    lines != [] && AllOneLine(lines) && forall i :: 0 <= i < |lines| ==> lines[i] != [] && Utf8(lines[i])
  }

  lemma HeadIsFound(lines: seq<Bytes>, body: Bytes)
    requires TextLines(lines)
    ensures |Printed(lines)| >= 2
    ensures Find(BlankLine, Printed(lines) + CRLF + body) == Some(|Printed(lines)| - 2)
  {
    forall i | 0 <= i < |lines|
      ensures Smooth(lines[i]) && Absent(BlankLine, lines[i] + CRLF)
    {
      OneLineIsSmooth(lines[i]);
    }
    assert lines == [lines[0]] + lines[1..];
    HeadEndsHere(lines[0], lines[1..], body);
    FindIs(BlankLine, Printed(lines) + CRLF + body, |Printed(lines)| - 2);
  }

  lemma HeadReadsBack(lines: seq<Bytes>)
    requires TextLines(lines)
    ensures |Printed(lines)| >= 2
    ensures var head := Printed(lines)[..|Printed(lines)| - 2]; Lines(head) == lines && Utf8(head)
  {
    var n := |lines| - 1;
    assert lines == lines[..n] + [lines[n]];
    PrintedAppend(lines[..n], lines[n]);
    var head := Printed(lines[..n]) + lines[n];
    assert Printed(lines) == head + CRLF;
    assert Printed(lines)[..|Printed(lines)| - 2] == head;
    LinesOfPrinted(lines[..n], lines[n]);
    PrintedIsUtf8(lines[..n]);
    Utf8Joins(Printed(lines[..n]), lines[n]);
  }

  /** The bytes are these lines, a blank line and this body. */
  ghost predicate ReadsAs(raw: Bytes, split: nat, lines: seq<Bytes>, body: Bytes) {
    && split + 4 + |body| == |raw|
    && Find(BlankLine, raw) == Some(split)
    && Lines(raw[..split]) == lines && Utf8(raw[..split])
    && raw[split + 4..] == body
  }

  /** Printed lines and a body are found and read back as those lines and that body. */
  lemma PrintedReadsBack(raw: Bytes, lines: seq<Bytes>, body: Bytes) returns (split: nat)
    requires TextLines(lines) && raw == Printed(lines) + CRLF + body
    ensures ReadsAs(raw, split, lines, body)
  {
    split := |raw| - |body| - 4;
    HeadIsFound(lines, body);
    HeadReadsBack(lines);
    assert raw[..|raw| - |body| - 4] == Printed(lines)[..|Printed(lines)| - 2];
  }

  lemma ReadPartsAreGood(raw: Bytes)
    requires ParseExchange(raw).Some?
    ensures var x := ParseExchange(raw).value;
      Solid(x.verb) && Solid(x.path) && forall h <- x.headers :: Splits(h)
  {
    var head := raw[..Find(BlankLine, raw).value];
    var lines := Lines(head);
    LinesAreOneLine(head);
    LinesAreUtf8(head);
    assert lines[0] in lines;
    WordIsSolid(lines[0]);
    WordIsSolid(NextWord(lines[0]).value.rest);
    assert forall l <- lines[1..] :: l in lines;
    ReadHeadersSplit(lines[1..]);
  }

  lemma RequestLinesAreText(x: Exchange)
    requires Solid(x.verb) && Solid(x.path) && forall h <- Resent(x.headers) :: Splits(h)
    ensures TextLines(RequestLines(x))
    ensures HeadersOf(RequestLines(x)[1..]) == Resent(x.headers) + Appended(|x.body|)
  {
    var headers := Resent(x.headers) + Appended(|x.body|);
    var lines := RequestLines(x);
    AppendedSplit(|x.body|);
    RequestLineIsText(x);
    assert lines[0] == RequestLine(x) && lines[1..] == HeaderLines(headers);
    PrintedHeadersReadBack(headers);
    forall i | 0 <= i < |lines|
      ensures lines[i] != [] && Utf8(lines[i]) && OneLine(lines[i])
    {
      if i > 0 {
        assert headers[i - 1] in headers;
        assert lines[i] == HeaderLine(headers[i - 1]);
      }
    }
  }

  lemma RequestReadsBack(x: Exchange)
    requires Solid(x.verb) && Solid(x.path) && forall h <- Resent(x.headers) :: Splits(h)
    ensures ParsesTo(Request(x), x.(headers := Resent(x.headers) + Appended(|x.body|)))
  {
    RequestLinesAreText(x);
    RequestLineWords(x);
    var verb := NextWord(RequestLine(x)).value;
    PrintedParses(Request(x), RequestLines(x), x.body, verb, NextWord(verb.rest).value);
  }

  /** The bytes are read as this request, and the head ends right before its body. */
  ghost predicate ParsesTo(raw: Bytes, x: Exchange) {
    && ParseExchange(raw) == Some(x)
    && |raw| >= |x.body| + 4 && Find(BlankLine, raw) == Some(|raw| - |x.body| - 4)
  }

  /** Lines printed before a body are read as a request whose first line they begin with. */
  lemma PrintedParses(raw: Bytes, lines: seq<Bytes>, body: Bytes, verb: Word, path: Word)
    requires TextLines(lines) && raw == Printed(lines) + CRLF + body
    requires NextWord(lines[0]) == Some(verb) && NextWord(verb.rest) == Some(path)
    ensures ParsesTo(raw, Exchange(verb.text, path.text, HeadersOf(lines[1..]), body))
  {
    var split := PrintedReadsBack(raw, lines, body);
    ParsedAs(raw, split, lines, body, verb, path);
  }

  /** What a parse comes to, given where the head ends and its lines. */
  lemma ParsedAs(raw: Bytes, split: nat, lines: seq<Bytes>, body: Bytes, verb: Word, path: Word)
    requires ReadsAs(raw, split, lines, body) && lines != []
    requires NextWord(lines[0]) == Some(verb) && NextWord(verb.rest) == Some(path)
    ensures ParsesTo(raw, Exchange(verb.text, path.text, HeadersOf(lines[1..]), body))
  {
  }

  /**
   * Sending a recorded request again and reading what is sent gives back the same method, path and kept body,
   * and the original headers in order, less the hidden ones and Connection, plus the two a replay adds. The
   * head ends where it is meant to.
   */
  lemma ReplaySendsWhatWasSeen(raw: Bytes)
    requires ParseExchange(raw).Some?
    ensures var x := ParseExchange(raw).value;
      var r := Recorded(x);
      && Find(BlankLine, Request(r)) == Some(|Request(r)| - |r.body| - 4)
      && ParseExchange(Request(r)) ==
           Some(Exchange(x.verb, x.path, Kept(x.headers) + Appended(|r.body|), r.body))
      && r.body <= x.body && (|x.body| <= 262144 ==> r.body == x.body) && |r.body| <= 262144
  {
    var x := ParseExchange(raw).value;
    ReadPartsAreGood(raw);
    HiddenAreNotResent(x.headers);
    RequestReadsBack(Recorded(x));
  }

  /** What is added: that the connection closes, and how long the body is. The request line ends in the version. */
  lemma AddedByReplay(x: Exchange)
    ensures RequestLine(x) == x.verb + [32] + x.path + [32] + Ascii("HTTP/1.1")
    ensures var a := Appended(|x.body|);
      && |a| == 2
      && a[0] == Header(Ascii("Connection"), Ascii("close"))
      && a[1].key == Ascii("Content-Length") && Number(a[1].value) == |x.body|
      && forall i :: 0 <= i < |a[1].value| ==> 48 <= a[1].value[i] <= 57
  {
    assert Ascii(" HTTP/1.1") == [32] + Ascii("HTTP/1.1");
  }

  // ---- how long the body sent is said to be ----

  predicate GivesLength(h: Header) {
    SameIgnoringCase(h.key, Ascii("content-length"))
  }

  /** The lengths a head gives its body, in order. */
  function LengthsIn(headers: seq<Header>): seq<Bytes> {
    if headers == [] then []
    else (if GivesLength(headers[0]) then [headers[0].value] else []) + LengthsIn(headers[1..])
  }

  lemma {:induction false} LengthsJoin(a: seq<Header>, b: seq<Header>)
    ensures LengthsIn(a + b) == LengthsIn(a) + LengthsIn(b)
  {
    if a == [] {
      assert a + b == b;
    } else {
      assert (a + b)[1..] == a[1..] + b;
      LengthsJoin(a[1..], b);
    }
  }

  /** A recorded length is sent on, unless its value is the text that stands for a hidden one. */
  lemma {:induction false} LengthsKept(headers: seq<Header>)
    ensures forall v :: v in LengthsIn(Kept(headers)) <==>
      exists h <- headers :: GivesLength(h) && h.value == v && v != REDACTED
  {
    if headers != [] {
      var h, rest := headers[0], headers[1..];
      assert forall x :: x in headers <==> x == h || x in rest;
      LengthsKept(rest);
      if GivesLength(h) {
        LengthIsNoSecret(h);
      }
      assert SentOn(h) ==> Kept(headers)[1..] == Kept(rest);
    }
  }

  lemma LengthIsNoSecret(h: Header)
    requires GivesLength(h)
    ensures SentOn(h) <==> h.value != REDACTED
  {
    SentOnTells(h);
  }

  lemma AppendedLength(n: nat)
    ensures LengthsIn(Appended(n)) == [Decimal(n)]
  {
    var a := Appended(n);
    assert !GivesLength(a[0]) && GivesLength(a[1]);
    assert a == [a[0]] + [a[1]];
    LengthsJoin([a[0]], [a[1]]);
  }

  /**
   * A replay keeps a recorded Content-Length and adds its own. What it sends says one length, that of the body,
   * exactly when none was recorded; and every length it says is that one exactly when the recorded ones were,
   * which a body cut short by the recording is not.
   */
  lemma ReplayLengthAgreesExactlyWhen(raw: Bytes)
    requires ParseExchange(raw).Some?
    ensures var x := ParseExchange(raw).value;
      var r := Recorded(x);
      var own := Decimal(|r.body|);
      && ParseExchange(Request(r)).Some?
      && var said := LengthsIn(ParseExchange(Request(r)).value.headers);
         && (said == [own] <==> forall h <- x.headers | GivesLength(h) :: h.value == REDACTED)
         && ((forall v <- said :: v == own) <==>
               forall h <- x.headers | GivesLength(h) :: h.value == REDACTED || h.value == own)
  {
    var x := ParseExchange(raw).value;
    var own := Decimal(|Recorded(x).body|);
    ReplaySendsWhatWasSeen(raw);
    LengthsJoin(Kept(x.headers), Appended(|Recorded(x).body|));
    AppendedLength(|Recorded(x).body|);
    SaidLengths(x.headers, own);
  }

  lemma SaidLengths(headers: seq<Header>, own: Bytes)
    ensures var said := LengthsIn(Kept(headers)) + [own];
      && (said == [own] <==> forall h <- headers | GivesLength(h) :: h.value == REDACTED)
      && ((forall v <- said :: v == own) <==>
            forall h <- headers | GivesLength(h) :: h.value == REDACTED || h.value == own)
  {
    var kept := LengthsIn(Kept(headers));
    LengthsKept(headers);
    assert kept + [own] == [own] <==> kept == [] by {
      assert |kept + [own]| == |kept| + 1;
    }
    if kept != [] {
      assert kept[0] in kept;
    }
    var said := kept + [own];
    assert forall v :: v in said <==> v in kept || v == own;
    if forall v <- said :: v == own {
      forall h <- headers | GivesLength(h)
        ensures h.value == REDACTED || h.value == own
      {
        assert h.value != REDACTED ==> h.value in kept;
      }
    }
  }
}
