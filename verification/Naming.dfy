/** Tunnel naming and host composition (crates/cy-proto/src/naming.rs). */
module Naming {
  import opened Basics

  datatype NameError = NameInvalid | NameReserved

  const MAX_LEN := 24

  const RESERVED_MAIL: seq<string> := ["admin", "api", "www", "mail", "ftp", "ns", "ns1", "ns2"]
  const RESERVED_FILES: seq<string> := ["smtp", "pop", "imap", "webmail", "cdn", "static", "assets", "img"]
  const RESERVED_STAGES: seq<string> := ["test", "stage", "staging", "prod", "production", "dev", "console", "dashboard"]
  const RESERVED_PAGES: seq<string> := ["status", "health", "download", "downloads", "docs", "help", "support", "login"]
  const RESERVED_ACCOUNTS: seq<string> := ["auth", "sso", "root", "system", "chuanyun", "cy"]

  /** Names the infrastructure keeps for itself; only user names are checked against them. */
  const RESERVED: seq<string> := RESERVED_MAIL + RESERVED_FILES + RESERVED_STAGES + RESERVED_PAGES + RESERVED_ACCOUNTS

  predicate NameChar(c: char) {
    'a' <= c <= 'z' || '0' <= c <= '9' || c == '-'
  }

  function ValidateName(name: string): (r: Option<NameError>) {
    if |name| == 0 || |name| > MAX_LEN then Some(NameInvalid)
    else if name[0] == '-' || name[|name| - 1] == '-' then Some(NameInvalid)
    else if exists i :: 0 <= i < |name| && !NameChar(name[i]) then Some(NameInvalid)
    else None
  }

  function ValidateUser(user: string): (r: Option<NameError>) {
    match ValidateName(user)
    case Some(e) => Some(e)
    case None => if user in RESERVED then Some(NameReserved) else None
  }

  /** The first label of a tunnel's host name. */
  function LabelFor(user: string, name: string): string {
    user + "-" + name
  }

  function HostFor(user: string, name: string, suffix: string): string {
    LabelFor(user, name) + "." + suffix
  }

  predicate ValidName(name: string) {
    ValidateName(name) == None
  }

  predicate Hyphenless(s: string) {
    forall i :: 0 <= i < |s| ==> s[i] != '-'
  }

  /** A DNS label (section 2.3.1 of RFC 1035, lower-cased, digits allowed first as in RFC 1123). */
  predicate WellFormedLabel(s: string) {
    && 0 < |s| <= 63
    && s[0] != '-' && s[|s| - 1] != '-'
    && forall i :: 0 <= i < |s| ==> 'a' <= s[i] <= 'z' || '0' <= s[i] <= '9' || s[i] == '-'
  }

  /** A tunnel name is a label of at most 24 characters; a user's name is one that is not kept for anything else. */
  lemma NamesAreLabels(name: string)
    ensures ValidateName(name) == None <==> WellFormedLabel(name) && |name| <= 24
    ensures ValidateUser(name) == None <==> WellFormedLabel(name) && |name| <= 24 && name !in RESERVED
    ensures ValidateName(name).Some? ==> ValidateUser(name) == ValidateName(name) == Some(NameInvalid)
  {
  }

  /** `longer` is `shorter` followed by a hyphen and a middle part that the other name carries instead. */
  ghost predicate Overlaps(longer: string, name1: string, shorter: string, name2: string) {
    exists middle: string :: longer == shorter + "-" + middle && name2 == middle + "-" + name1
  }

  /** Labels contain no dot, so equal hosts under one suffix have equal labels. */
  lemma HostsEqualLabelsEqual(a: string, b: string, suffix: string)
    requires forall i :: 0 <= i < |a| ==> a[i] != '.'
    requires forall i :: 0 <= i < |b| ==> b[i] != '.'
    requires a + "." + suffix == b + "." + suffix
    ensures a == b
  {
    var x, y := a + "." + suffix, b + "." + suffix;
    assert |x| == |a| + 1 + |suffix| && |y| == |b| + 1 + |suffix|;
    assert a == x[..|a|] && b == y[..|b|];
  }

  /** The longer of two users whose labels coincide extends the shorter one at a hyphen. */
  lemma LabelsOverlap(u1: string, n1: string, u2: string, n2: string)
    requires LabelFor(u1, n1) == LabelFor(u2, n2)
    requires |u1| > |u2|
    requires |n1| > 0
    ensures Overlaps(u1, n1, u2, n2)
  {
    var l := LabelFor(u1, n1);
    var k := |u2|;
    assert l[..|u1|] == u1 && l[|u1|] == '-' && l[|u1| + 1..] == n1;
    assert l[..k] == u2 && l[k] == '-' && l[k + 1..] == n2;
    var middle := l[k + 1..|u1|];
    assert u1 == u2 + "-" + middle;
    assert n2 == middle + "-" + n1;
  }

  /** Exactly which pairs of (user, name) share one host. */
  lemma HostCollisions(u1: string, n1: string, u2: string, n2: string, suffix: string)
    requires ValidName(u1) && ValidName(n1) && ValidName(u2) && ValidName(n2)
    ensures HostFor(u1, n1, suffix) == HostFor(u2, n2, suffix) <==>
      (u1 == u2 && n1 == n2) || Overlaps(u1, n1, u2, n2) || Overlaps(u2, n2, u1, n1)
  {
    if HostFor(u1, n1, suffix) == HostFor(u2, n2, suffix) {
      HostsEqualLabelsEqual(LabelFor(u1, n1), LabelFor(u2, n2), suffix);
      var l := LabelFor(u1, n1);
      if |u1| == |u2| {
        assert l[..|u1|] == u1 == u2 && l[|u1| + 1..] == n1 == n2;
      } else if |u1| > |u2| {
        LabelsOverlap(u1, n1, u2, n2);
      } else {
        LabelsOverlap(u2, n2, u1, n1);
      }
    }
    if Overlaps(u1, n1, u2, n2) {
      var middle: string :| u1 == u2 + "-" + middle && n2 == middle + "-" + n1;
      assert LabelFor(u1, n1) == LabelFor(u2, n2);
    }
    if Overlaps(u2, n2, u1, n1) {
      var middle: string :| u2 == u1 + "-" + middle && n1 == middle + "-" + n2;
      assert LabelFor(u1, n1) == LabelFor(u2, n2);
    }
  }

  lemma LongerUserHasHyphen(longer: string, name1: string, shorter: string, name2: string)
    requires Overlaps(longer, name1, shorter, name2)
    ensures |shorter| < |longer| && !Hyphenless(longer)
  {
    var middle: string :| longer == shorter + "-" + middle && name2 == middle + "-" + name1;
    assert longer[|shorter|] == '-';
  }

  /** Users without hyphens never meet, and one user's names never do. */
  lemma HyphenlessUsersNeverCollide(u1: string, n1: string, u2: string, n2: string, suffix: string)
    requires ValidName(u1) && ValidName(n1) && ValidName(u2) && ValidName(n2)
    requires HostFor(u1, n1, suffix) == HostFor(u2, n2, suffix)
    requires u1 == u2 || (Hyphenless(u1) && Hyphenless(u2))
    ensures u1 == u2 && n1 == n2
  {
    HostCollisions(u1, n1, u2, n2, suffix);
    if Overlaps(u1, n1, u2, n2) {
      LongerUserHasHyphen(u1, n1, u2, n2);
    } else if Overlaps(u2, n2, u1, n1) {
      LongerUserHasHyphen(u2, n2, u1, n1);
    }
  }

  /** Hyphens in user names do make two users meet: the hypothesis above is needed. */
  lemma HyphenatedUsersCanCollide(suffix: string)
    ensures ValidName("li") && ValidName("li-wei") && ValidName("wei-api") && ValidName("api")
    ensures HostFor("li", "wei-api", suffix) == HostFor("li-wei", "api", suffix)
  {
    assert LabelFor("li", "wei-api") == LabelFor("li-wei", "api");
  }

  ghost predicate AllHyphenless(words: seq<string>) {
    forall i :: 0 <= i < |words| ==> Hyphenless(words[i])
  }

  lemma MailAndFilesHyphenless()
    ensures AllHyphenless(RESERVED_MAIL) && AllHyphenless(RESERVED_FILES)
  {
  }

  lemma StagesHyphenless()
    ensures AllHyphenless(RESERVED_STAGES)
  {
  }

  lemma PagesAndAccountsHyphenless()
    ensures AllHyphenless(RESERVED_PAGES) && AllHyphenless(RESERVED_ACCOUNTS)
  {
  }

  lemma ReservedWordsHaveNoHyphen(word: string)
    requires word in RESERVED
    ensures Hyphenless(word)
  {
    MailAndFilesHyphenless();
    StagesHyphenless();
    PagesAndAccountsHyphenless();
  }

  /** The composed label is a DNS label of at most 49 bytes and never a reserved word. */
  lemma ComposedLabel(user: string, name: string)
    requires ValidateUser(user) == None && ValidName(name)
    ensures WellFormedLabel(LabelFor(user, name))
    ensures |LabelFor(user, name)| <= 2 * MAX_LEN + 1 == 49
    ensures LabelFor(user, name) !in RESERVED
  {
    var l := LabelFor(user, name);
    assert l[|user|] == '-';
    if l in RESERVED {
      ReservedWordsHaveNoHyphen(l);
    }
  }

  /** A composed host is already in the registry's lower-case form when its suffix is. */
  lemma HostForIsLower(user: string, name: string, suffix: string)
    requires ValidName(user) && ValidName(name)
    requires Lower(suffix) == suffix
    ensures Lower(HostFor(user, name, suffix)) == HostFor(user, name, suffix)
  {
    var h := HostFor(user, name, suffix);
    var n := |user| + 1 + |name| + 1;
    forall i | 0 <= i < |h|
      ensures LowerChar(h[i]) == h[i]
    {
      if i < |user| {
        assert h[i] == user[i];
      } else if |user| < i < n - 1 {
        assert h[i] == name[i - |user| - 1];
      } else if n <= i {
        assert h[i] == suffix[i - n] && Lower(suffix)[i - n] == LowerChar(suffix[i - n]);
      }
    }
  }
}
