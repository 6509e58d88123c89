/**
 * HTTP message heads as bytes: lines, blank lines, UTF-8. Strings are kept as their UTF-8 bytes, as the
 * source's own string type keeps them.
 */
module HttpText {
  import opened Basics

  type Byte = b: int | 0 <= b < 0x100

  type Bytes = seq<Byte>

  const CR: Byte := 13
  const LF: Byte := 10
  const CRLF: Bytes := [CR, LF]
  const SPACE: Byte := 32
  const COLON: Byte := 58

  predicate IsAscii(s: string) {
    forall i :: 0 <= i < |s| ==> s[i] < 128 as char
  }

  function Ascii(s: string): (r: Bytes)
    requires IsAscii(s)
    ensures |r| == |s| && forall i :: 0 <= i < |s| ==> r[i] == s[i] as int < 128
  {
    seq(|s|, i requires 0 <= i < |s| => s[i] as int)
  }

  function LowerByte(b: Byte): Byte {
    if 65 <= b <= 90 then b + 32 else b
  }

  lemma BytesAreLoweredAsLetters(b: Byte)
    ensures LowerByte(b) == if b < 0x80 then LowerChar(b as char) as int else b
  {
  }

  function LowerBytes(s: Bytes): (r: Bytes)
    ensures |r| == |s| && forall i :: 0 <= i < |s| ==> r[i] == LowerByte(s[i])
  {
    seq(|s|, i requires 0 <= i < |s| => LowerByte(s[i]))
  }

  predicate SameIgnoringCase(a: Bytes, b: Bytes) {
    LowerBytes(a) == LowerBytes(b)
  }

  // ---- marks in a text ----

  datatype Mark = LineEnd | BlankLine | Separator

  predicate At(m: Mark, s: Bytes, i: int) {
    match m
    case LineEnd => 0 <= i < |s| - 1 && s[i] == CR && s[i + 1] == LF
    case BlankLine => 0 <= i < |s| - 3 && s[i] == CR && s[i + 1] == LF && s[i + 2] == CR && s[i + 3] == LF
    case Separator => 0 <= i < |s| - 1 && s[i] == COLON && s[i + 1] == SPACE
  }

  /** The first place the mark stands at. */
  function Find(m: Mark, s: Bytes): (r: Option<nat>)
    ensures r.Some? ==> At(m, s, r.value)
    ensures forall i :: At(m, s, i) ==> r.Some? && r.value <= i
    decreases |s|
  {
    if At(m, s, 0) then Some(0)
    else if s == [] then None
    else
      assert forall i :: At(m, s, i) ==> At(m, s[1..], i - 1);
      match Find(m, s[1..])
      case Some(p) => assert At(m, s[1..], p); Some(p + 1)
      case None => None
  }

  ghost predicate Absent(m: Mark, s: Bytes) {
    forall i :: !At(m, s, i)
  }

  ghost predicate FirstAt(m: Mark, s: Bytes, p: int) {
    At(m, s, p) && forall i :: 0 <= i < p ==> !At(m, s, i)
  }

  lemma FindIs(m: Mark, s: Bytes, p: nat)
    requires FirstAt(m, s, p)
    ensures Find(m, s) == Some(p)
  {
    var q := Find(m, s);
    assert At(m, s, q.value);
  }

  // ---- lines ----

  /** The text between line ends. */
  function Lines(s: Bytes): (r: seq<Bytes>)
    ensures r != []
    decreases |s|
  {
    match Find(LineEnd, s)
    case None => [s]
    case Some(p) => [s[..p]] + Lines(s[p + 2..])
  }

  /** Each line followed by a line end. */
  function Printed(lines: seq<Bytes>): Bytes {
    if lines == [] then [] else lines[0] + CRLF + Printed(lines[1..])
  }

  ghost predicate OneLine(s: Bytes) {
    Absent(LineEnd, s)
  }

  ghost predicate AllOneLine(lines: seq<Bytes>) {
    forall i :: 0 <= i < |lines| ==> OneLine(lines[i])
  }

  lemma NoReturnIsOneLine(s: Bytes)
    requires CR !in s
    ensures OneLine(s)
  {
  }

  /** A line end after a line is found right behind it. */
  lemma LineEndsHere(s: Bytes, rest: Bytes)
    requires OneLine(s)
    ensures Find(LineEnd, s + CRLF + rest) == Some(|s|)
  {
    var x := s + CRLF + rest;
    assert x[|s|] == CR && x[|s| + 1] == LF;
    forall i | 0 <= i < |s|
      ensures !At(LineEnd, x, i)
    {
      assert !At(LineEnd, s, i);
    }
    FindIs(LineEnd, x, |s|);
  }

  lemma {:induction false} LinesAreOneLine(s: Bytes)
    ensures AllOneLine(Lines(s))
    decreases |s|
  {
    if Find(LineEnd, s).Some? {
      var p := Find(LineEnd, s).value;
      forall i
        ensures !At(LineEnd, s[..p], i)
      {
        assert At(LineEnd, s[..p], i) ==> At(LineEnd, s, i);
      }
      LinesAreOneLine(s[p + 2..]);
    }
  }

  /** Splitting undoes printing: every line comes back, then whatever follows. */
  lemma {:induction false} LinesOfPrinted(lines: seq<Bytes>, last: Bytes)
    requires AllOneLine(lines) && OneLine(last)
    ensures Lines(Printed(lines) + last) == lines + [last]
    decreases |lines|
  {
    if lines == [] {
      assert Printed(lines) + last == last;
    } else {
      var first, others := lines[0], lines[1..];
      LinesOfPrinted(others, last);
      LinesStep(first, Printed(others) + last);
      FrontStays(lines, last);
      assert lines + [last] == [first] + (others + [last]);
    }
  }

  lemma FrontStays(lines: seq<Bytes>, last: Bytes)
    requires lines != []
    ensures Printed(lines) + last == lines[0] + CRLF + (Printed(lines[1..]) + last)
  {
  }

  lemma {:induction false} LinesOfClosed(lines: seq<Bytes>)
    requires AllOneLine(lines)
    ensures Lines(Printed(lines)) == lines + [[]]
    decreases |lines|
  {
    if lines != [] {
      var first, others := lines[0], lines[1..];
      LinesOfClosed(others);
      LinesStep(first, Printed(others));
      assert lines + [[]] == [first] + (others + [[]]);
    }
  }

  lemma LinesStep(line: Bytes, rest: Bytes)
    requires OneLine(line)
    ensures Lines(line + CRLF + rest) == [line] + Lines(rest)
  {
    var x := line + CRLF + rest;
    LineEndsHere(line, rest);
    assert x[..|line|] == line && x[|line| + 2..] == rest;
  }

  lemma {:induction false} PrintedAppend(a: seq<Bytes>, line: Bytes)
    ensures Printed(a + [line]) == Printed(a) + line + CRLF
    decreases |a|
  {
    if a == [] {
      assert Printed([line]) == line + CRLF + Printed([]);
      assert a + [line] == [line];
    } else {
      assert (a + [line])[1..] == a[1..] + [line];
      PrintedAppend(a[1..], line);
      var x, y := a[0] + CRLF, Printed(a[1..]);
      assert x + (y + line + CRLF) == x + y + line + CRLF;
    }
  }

  lemma PrintedFront(line: Bytes, lines: seq<Bytes>)
    ensures Printed([line] + lines) == line + CRLF + Printed(lines)
  {
    assert ([line] + lines)[1..] == lines;
  }

  /** Printing undoes splitting. */
  lemma {:induction false} PrintedOfLines(s: Bytes)
    ensures Printed(Lines(s)) == s + CRLF
    decreases |s|
  {
    var end := Find(LineEnd, s);
    if end == None {
      assert Printed([s]) == s + CRLF + Printed([]);
    } else {
      var p := end.value;
      PrintedOfLines(s[p + 2..]);
      PrintedFront(s[..p], Lines(s[p + 2..]));
      assert s == s[..p] + CRLF + s[p + 2..];
      assert s[..p] + CRLF + s[p + 2..] + CRLF == s[..p] + CRLF + (s[p + 2..] + CRLF);
    }
  }

  /** Every text split into its lines. */
  function Flattened(texts: seq<Bytes>): seq<Bytes> {
    if texts == [] then [] else Lines(texts[0]) + Flattened(texts[1..])
  }

  lemma {:induction false} PrintedParts(a: seq<Bytes>, b: seq<Bytes>)
    ensures Printed(a + b) == Printed(a) + Printed(b)
    decreases |b|
  {
    if b == [] {
      assert a + b == a;
    } else {
      PrintedAppend(a, b[0]);
      PrintedParts(a + [b[0]], b[1..]);
      assert a + [b[0]] + b[1..] == a + b;
      assert Printed(a) + b[0] + CRLF + Printed(b[1..]) == Printed(a) + (b[0] + CRLF + Printed(b[1..]));
    }
  }

  lemma {:induction false} FlattenedPrintsAlike(texts: seq<Bytes>)
    ensures Printed(Flattened(texts)) == Printed(texts)
  {
    if texts != [] {
      FlattenedPrintsAlike(texts[1..]);
      PrintedParts(Lines(texts[0]), Flattened(texts[1..]));
      PrintedOfLines(texts[0]);
    }
  }

  lemma {:induction false} FlattenedIsOneLine(texts: seq<Bytes>)
    ensures AllOneLine(Flattened(texts))
  {
    if texts != [] {
      FlattenedIsOneLine(texts[1..]);
      LinesAreOneLine(texts[0]);
    }
  }

  /** Whatever is printed reads back as the lines of its texts. */
  lemma LinesOfTexts(texts: seq<Bytes>)
    ensures Lines(Printed(texts)) == Flattened(texts) + [[]]
  {
    FlattenedPrintsAlike(texts);
    FlattenedIsOneLine(texts);
    LinesOfClosed(Flattened(texts));
  }

  lemma OneLineIsItsLines(s: Bytes)
    ensures OneLine(s) <==> |Lines(s)| == 1
    ensures OneLine(s) ==> Lines(s) == [s]
  {
    var end := Find(LineEnd, s);
    if end.Some? {
      assert At(LineEnd, s, end.value);
    }
  }

  lemma {:induction false} FlattenedLines(lines: seq<Bytes>)
    requires AllOneLine(lines)
    ensures Flattened(lines) == lines
  {
    if lines != [] {
      OneLineIsItsLines(lines[0]);
      FlattenedLines(lines[1..]);
      assert lines == [lines[0]] + lines[1..];
    }
  }

  lemma {:induction false} FlattenedParts(a: seq<Bytes>, b: seq<Bytes>)
    ensures Flattened(a + b) == Flattened(a) + Flattened(b)
  {
    if a == [] {
      assert a + b == b;
    } else {
      assert (a + b)[1..] == a[1..] + b;
      FlattenedParts(a[1..], b);
    }
  }

  // ---- where a head ends ----

  /** A line that cannot take part in a blank line, whatever stands around it. */
  ghost predicate Smooth(s: Bytes) {
    s != [] && !At(LineEnd, s, 0) && Absent(BlankLine, s + CRLF)
  }

  lemma OneLineIsSmooth(s: Bytes)
    requires OneLine(s)
    ensures Absent(BlankLine, s + CRLF)
    ensures s != [] ==> Smooth(s)
  {
    forall i
      ensures !At(BlankLine, s + CRLF, i)
    {
      assert !At(LineEnd, s, i);
    }
  }

  /** No blank line starts in a line that has none itself and is followed by something that is no line end. */
  lemma NoBlankHere(s: Bytes, rest: Bytes, i: int)
    requires Absent(BlankLine, s + CRLF) && 0 <= i < |s| + 2
    requires i < |s| || !At(LineEnd, rest, 0)
    ensures !At(BlankLine, s + CRLF + rest, i)
  {
    var x := s + CRLF + rest;
    assert x[|s|] == CR && x[|s| + 1] == LF;
    assert !At(BlankLine, s + CRLF, i);
    if |rest| >= 2 {
      assert x[|s| + 2] == rest[0] && x[|s| + 3] == rest[1];
    }
  }

  lemma PrintedStart(lines: seq<Bytes>, tail: Bytes)
    requires lines != [] && Smooth(lines[0])
    ensures !At(LineEnd, Printed(lines) + tail, 0)
  {
    var x := Printed(lines) + tail;
    assert x[0] == lines[0][0];
    if |lines[0]| == 1 {
      assert x[1] == CR;
    } else {
      assert x[1] == lines[0][1];
    }
  }

  /** A head of smooth lines, of which only the first may be empty, ends at its own first blank line. */
  lemma {:induction false} HeadEndsHere(first: Bytes, lines: seq<Bytes>, body: Bytes)
    requires Absent(BlankLine, first + CRLF) && forall i :: 0 <= i < |lines| ==> Smooth(lines[i])
    ensures var head := Printed([first] + lines);
      |head| >= 2 && FirstAt(BlankLine, head + CRLF + body, |head| - 2)
    decreases |lines|
  {
    var head := Printed([first] + lines);
    assert ([first] + lines)[1..] == lines;
    if lines == [] {
      HeadIsOneLine(first, body);
      assert Printed(lines) == [];
      assert head == first + CRLF;
    } else {
      var rest := Printed(lines) + CRLF + body;
      assert [lines[0]] + lines[1..] == lines;
      HeadEndsHere(lines[0], lines[1..], body);
      PrintedStart(lines, CRLF + body);
      assert Printed(lines) + (CRLF + body) == rest;
      HeadOneLonger(first, rest, |Printed(lines)| - 2);
      Regroup(first + CRLF, Printed(lines), CRLF, body);
    }
  }

  lemma Regroup(a: Bytes, b: Bytes, c: Bytes, d: Bytes)
    ensures a + b + c + d == a + (b + c + d)
  {
  }

  lemma HeadIsOneLine(first: Bytes, body: Bytes)
    requires Absent(BlankLine, first + CRLF)
    ensures FirstAt(BlankLine, first + CRLF + CRLF + body, |first|)
  {
    var x := first + CRLF + CRLF + body;
    assert x == first + CRLF + (CRLF + body);
    assert x[|first|] == CR && x[|first| + 1] == LF && x[|first| + 2] == CR && x[|first| + 3] == LF;
    forall i | 0 <= i < |first|
      ensures !At(BlankLine, x, i)
    {
      NoBlankHere(first, CRLF + body, i);
    }
  }

  /** What stands behind a front part stands there in the whole. */
  lemma Shifted(m: Mark, front: Bytes, s: Bytes, i: int)
    requires |front| <= i
    ensures At(m, front + s, i) <==> At(m, s, i - |front|)
  {
  }

  lemma NoBlankBefore(first: Bytes, rest: Bytes, i: int)
    requires Absent(BlankLine, first + CRLF) && !At(LineEnd, rest, 0) && 0 <= i
    requires i >= |first| + 2 ==> !At(BlankLine, rest, i - |first| - 2)
    ensures !At(BlankLine, first + CRLF + rest, i)
  {
    if i < |first| + 2 {
      NoBlankHere(first, rest, i);
    } else {
      Shifted(BlankLine, first + CRLF, rest, i);
    }
  }

  lemma HeadOneLonger(first: Bytes, rest: Bytes, p: nat)
    requires Absent(BlankLine, first + CRLF) && !At(LineEnd, rest, 0) && FirstAt(BlankLine, rest, p)
    ensures FirstAt(BlankLine, first + CRLF + rest, |first| + 2 + p)
  {
    Shifted(BlankLine, first + CRLF, rest, |first| + 2 + p);
    forall i | 0 <= i < |first| + 2 + p
      ensures !At(BlankLine, first + CRLF + rest, i)
    {
      NoBlankBefore(first, rest, i);
    }
  }

  // ---- UTF-8 (section 4 of RFC 3629) ----

  predicate Follows(b: Byte) {
    0x80 <= b < 0xC0
  }

  /** The length of the well-formed character at the front; 0 if there is none. */
  function CharWidth(s: Bytes): (w: nat)
    ensures w <= |s| && w <= 4
    ensures w > 0 ==> !Follows(s[0]) && forall i :: 0 < i < w ==> Follows(s[i])
  {
    if s == [] then 0
    else
      var b := s[0];
      if b < 0x80 then 1
      else if |s| >= 2 && 0xC2 <= b <= 0xDF && Follows(s[1]) then 2
      else if |s| >= 3 && 0xE0 <= b <= 0xEF && Follows(s[1]) && Follows(s[2])
              && (b == 0xE0 ==> s[1] >= 0xA0) && (b == 0xED ==> s[1] < 0xA0) then 3
      else if |s| >= 4 && 0xF0 <= b <= 0xF4 && Follows(s[1]) && Follows(s[2]) && Follows(s[3])
              && (b == 0xF0 ==> s[1] >= 0x90) && (b == 0xF4 ==> s[1] < 0x90) then 4
      else 0
  }

  function Bits(b: Byte): int {
    b as int - 0x80
  }

  /** The code point a character of this width stands for. */
  function CodePoint(s: Bytes, w: nat): int
    requires 1 <= w <= 4 && w <= |s|
  {
    match w
    case 1 => s[0]
    case 2 => (s[0] as int - 0xC0) * 0x40 + Bits(s[1])
    case 3 => (s[0] as int - 0xE0) * 0x1000 + Bits(s[1]) * 0x40 + Bits(s[2])
    case 4 => (s[0] as int - 0xF0) * 0x40000 + Bits(s[1]) * 0x1000 + Bits(s[2]) * 0x40 + Bits(s[3])
  }

  /** The well-formed characters are the Unicode scalar values, each in its shortest form. */
  lemma CharactersAreScalars(s: Bytes)
    ensures CharWidth(s) == 1 <==> |s| >= 1 && s[0] < 0x80
    ensures CharWidth(s) == 2 <==>
      |s| >= 2 && 0xC0 <= s[0] < 0xE0 && Follows(s[1]) && 0x80 <= CodePoint(s, 2) < 0x800
    ensures CharWidth(s) == 3 <==>
      && |s| >= 3 && 0xE0 <= s[0] < 0xF0 && Follows(s[1]) && Follows(s[2])
      && 0x800 <= CodePoint(s, 3) < 0x1_0000 && !(0xD800 <= CodePoint(s, 3) < 0xE000)
    ensures CharWidth(s) == 4 <==>
      && |s| >= 4 && 0xF0 <= s[0] && Follows(s[1]) && Follows(s[2]) && Follows(s[3])
      && 0x1_0000 <= CodePoint(s, 4) < 0x11_0000
  {
  }

  predicate Utf8(s: Bytes)
    decreases |s|
  {
    s == [] || (CharWidth(s) > 0 && Utf8(s[CharWidth(s)..]))
  }

  lemma {:induction false} Utf8Joins(a: Bytes, b: Bytes)
    requires Utf8(a) && Utf8(b)
    ensures Utf8(a + b)
    decreases |a|
  {
    if a == [] {
      assert a + b == b;
    } else {
      var w := CharWidth(a);
      assert CharWidth(a + b) == w;
      assert (a + b)[w..] == a[w..] + b;
      Utf8Joins(a[w..], b);
    }
  }

  lemma WidthOfPrefix(a: Bytes, b: Bytes)
    requires a != [] && CharWidth(a + b) > 0 && (b != [] ==> !Follows(b[0]))
    ensures CharWidth(a) == CharWidth(a + b)
  {
    var x, w := a + b, CharWidth(a + b);
    assert b != [] ==> x[|a|] == b[0];
    assert w <= |a|;
    assert forall i :: 0 <= i < w ==> a[i] == x[i];
  }

  /** Text may be cut wherever a character starts. */
  lemma {:induction false} Utf8Cuts(a: Bytes, b: Bytes)
    requires Utf8(a + b) && (b != [] ==> !Follows(b[0]))
    ensures Utf8(a) && Utf8(b)
    decreases |a|
  {
    if a == [] {
      assert a + b == b;
    } else {
      var w := CharWidth(a + b);
      WidthOfPrefix(a, b);
      assert (a + b)[w..] == a[w..] + b;
      Utf8Cuts(a[w..], b);
    }
  }

  ghost predicate AllAscii(s: Bytes) {
    forall i :: 0 <= i < |s| ==> s[i] < 0x80
  }

  lemma {:induction false} AsciiIsUtf8(s: Bytes)
    requires AllAscii(s)
    ensures Utf8(s)
  {
    if s != [] {
      AsciiIsUtf8(s[1..]);
    }
  }

  lemma {:induction false} AfterAscii(a: Bytes, b: Bytes)
    requires Utf8(a + b) && AllAscii(a)
    ensures Utf8(b)
    decreases |a|
  {
    if a == [] {
      assert a + b == b;
    } else {
      assert (a + b)[0] == a[0];
      assert (a + b)[1..] == a[1..] + b;
      AfterAscii(a[1..], b);
    }
  }

  lemma LineEndCuts(s: Bytes, p: nat)
    requires Utf8(s) && At(LineEnd, s, p)
    ensures Utf8(s[..p]) && Utf8(s[p + 2..])
  {
    assert s == s[..p] + s[p..] && s[p..] == CRLF + s[p + 2..];
    Utf8Cuts(s[..p], s[p..]);
    AfterAscii(CRLF, s[p + 2..]);
  }

  lemma {:induction false} LinesAreUtf8(s: Bytes)
    requires Utf8(s)
    ensures forall l <- Lines(s) :: Utf8(l)
    decreases |s|
  {
    var end := Find(LineEnd, s);
    if end.Some? {
      LineEndCuts(s, end.value);
      LinesAreUtf8(s[end.value + 2..]);
    }
  }

  lemma {:induction false} PrintedIsUtf8(lines: seq<Bytes>)
    requires forall i :: 0 <= i < |lines| ==> Utf8(lines[i])
    ensures Utf8(Printed(lines))
  {
    if lines != [] {
      PrintedIsUtf8(lines[1..]);
      AsciiIsUtf8(CRLF);
      Utf8Joins(lines[0], CRLF);
      Utf8Joins(lines[0] + CRLF, Printed(lines[1..]));
    }
  }
}
