/** Small shared vocabulary: optional values, results and ASCII case folding. */
module Basics {
  datatype Option<+T> = None | Some(value: T)

  datatype Result<+R, +E> = Ok(value: R) | Err(error: E)

  /** A 16-bit port number. */
  type Port = p: int | 0 <= p < 0x1_0000

  function LowerChar(c: char): char {
    if 'A' <= c <= 'Z' then c + 32 as char else c
  }

  /** ASCII lower-casing, character by character. */
  function Lower(s: string): (r: string)
    ensures |r| == |s|
  {
    seq(|s|, i requires 0 <= i < |s| => LowerChar(s[i]))
  }

  /** Exactly the capital letters change, each to its small one. */
  lemma CapitalsAreLowered(c: char)
    ensures Lower("ABCDEFGHIJKLMNOPQRSTUVWXYZ") == "abcdefghijklmnopqrstuvwxyz"
    ensures LowerChar(c) != c <==> 'A' <= c <= 'Z'
  {
  }

  lemma LowerTwice(s: string)
    ensures Lower(Lower(s)) == Lower(s)
  {
    assert forall c: char :: LowerChar(LowerChar(c)) == LowerChar(c);
  }

  ghost predicate Distinct<T(!new)>(s: seq<T>) {
    forall i, j :: 0 <= i < j < |s| ==> s[i] != s[j]
  }

  ghost function Elements<T(!new)>(s: seq<T>): set<T> {
    set x | x in s
  }

  // ---- the order of an ordered map's keys ----

  /** Strictly earlier by character codes, the first difference deciding. */
  predicate Precedes(a: string, b: string) {
    b != [] && (a == [] || a[0] < b[0] || (a[0] == b[0] && Precedes(a[1..], b[1..])))
  }

  ghost predicate Ascending(names: seq<string>) {
    forall i, j :: 0 <= i < j < |names| ==> Precedes(names[i], names[j])
  }

  ghost predicate IsLeast(names: set<string>, least: string) {
    least in names && forall n <- names :: n == least || Precedes(least, n)
  }

  lemma {:induction false} NeverBeforeItself(a: string)
    ensures !Precedes(a, a)
  {
    if a != [] {
      NeverBeforeItself(a[1..]);
    }
  }

  lemma {:induction false} PrecedesChains(a: string, b: string, c: string)
    requires Precedes(a, b) && Precedes(b, c)
    ensures Precedes(a, c)
  {
    if a != [] && a[0] == b[0] == c[0] {
      PrecedesChains(a[1..], b[1..], c[1..]);
    }
  }

  lemma {:induction false} OnePrecedes(a: string, b: string)
    ensures a == b || Precedes(a, b) || Precedes(b, a)
  {
    if a != [] && b != [] && a[0] == b[0] {
      OnePrecedes(a[1..], b[1..]);
      assert a == [a[0]] + a[1..] && b == [b[0]] + b[1..];
    }
  }

  /** The first place where two names differ decides; a name that goes on comes after one that ends there. */
  lemma {:induction false} FirstDifferenceDecides(p: string, a: char, b: char, s: string, t: string)
    requires a != b
    ensures Precedes(p + [a] + s, p + [b] + t) <==> a < b
    ensures Precedes(p, p + [a] + s)
  {
    var x, y := p + [a] + s, p + [b] + t;
    if p == [] {
      assert x[0] == a && y[0] == b;
    } else {
      assert x[0] == y[0] == p[0];
      assert x[1..] == p[1..] + [a] + s && y[1..] == p[1..] + [b] + t;
      FirstDifferenceDecides(p[1..], a, b, s, t);
    }
  }

  lemma {:induction false} LeastExists(names: set<string>) returns (least: string)
    requires names != {}
    ensures IsLeast(names, least)
    decreases |names|
  {
    var some :| some in names;
    least := some;
    var rest := names - {some};
    if rest != {} {
      var other := LeastExists(rest);
      OnePrecedes(some, other);
      if Precedes(other, some) {
        least := other;
      } else {
        forall n <- names | n != some
          ensures Precedes(some, n)
        {
          if n != other {
            PrecedesChains(some, other, n);
          }
        }
      }
    }
  }

  lemma AscendingIsDistinct(names: seq<string>)
    requires Ascending(names)
    ensures Distinct(names)
  {
    forall i, j | 0 <= i < j < |names|
      ensures names[i] != names[j]
    {
      NeverBeforeItself(names[i]);
    }
  }

  lemma FirstIsLeast(names: seq<string>, least: string)
    requires names != [] && Ascending(names) && IsLeast(Elements(names), least)
    ensures names[0] == least
  {
    var i :| 0 <= i < |names| && names[i] == least;
    if i > 0 {
      assert names[0] in Elements(names);
      PrecedesChains(least, names[0], least);
      NeverBeforeItself(least);
    }
  }

  lemma NoElements(names: seq<string>)
    ensures Elements(names) == {} <==> names == []
  {
    if names != [] {
      assert names[0] in Elements(names);
    }
  }

  /** A set has one ascending listing. */
  lemma {:induction false} OneListing(a: seq<string>, b: seq<string>)
    requires Ascending(a) && Ascending(b) && Elements(a) == Elements(b)
    ensures a == b
    decreases |a|
  {
    NoElements(a);
    NoElements(b);
    if a != [] {
      var least := LeastExists(Elements(a));
      FirstIsLeast(a, least);
      FirstIsLeast(b, least);
      AscendingIsDistinct(a);
      AscendingIsDistinct(b);
      assert a == [least] + a[1..] && b == [least] + b[1..];
      assert Elements(a[1..]) == Elements(a) - {least};
      assert Elements(b[1..]) == Elements(b) - {least};
      OneListing(a[1..], b[1..]);
    }
  }

  /** `names` lists what is not in `rest`, and all of it comes before what is. */
  ghost predicate ListedBefore(names: seq<string>, all: set<string>, rest: set<string>) {
    && rest <= all
    && Ascending(names) && Elements(names) == all - rest
    && forall i, n | 0 <= i < |names| && n in rest :: Precedes(names[i], n)
  }

  lemma ListNext(names: seq<string>, all: set<string>, rest: set<string>, name: string)
    requires ListedBefore(names, all, rest) && IsLeast(rest, name)
    ensures ListedBefore(names + [name], all, rest - {name})
  {
    assert Elements(names + [name]) == Elements(names) + {name};
  }
}
