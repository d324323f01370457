/**
  The hostname recogniser and the bundle hostname template.
  Sources: api/internal/validate/validate.go, substituteHostnameTemplate in api/internal/apps/bundle.go and the
  choice check in api/internal/apps/handlers.go. A string is a sequence of characters: the recogniser accepts
  ASCII only, so counting characters or bytes makes no difference to what is accepted.
 */
module Hostname {
  // ---------- regular expressions ----------

  datatype Regex = Empty | One(allowed: set<char>) | Cat(first: Regex, second: Regex) | Alt(left: Regex, right: Regex)
                 | Star(body: Regex)

  ghost predicate Matches(r: Regex, s: string)
    decreases r, |s|
  {
    match r
    case Empty => s == ""
    case One(allowed) => |s| == 1 && s[0] in allowed
    case Cat(a, b) => exists k | 0 <= k <= |s| :: Matches(a, s[..k]) && Matches(b, s[k..])
    case Alt(a, b) => Matches(a, s) || Matches(b, s)
    case Star(a) => s == "" || exists k | 0 < k <= |s| :: Matches(a, s[..k]) && Matches(r, s[k..])
  }

  const ALNUM: set<char> := set c | 'a' <= c <= 'z' || '0' <= c <= '9'
  const LDH: set<char> := ALNUM + {'-'}

  const INNER := Cat(Star(One(LDH)), One(ALNUM))
  const LABEL := Cat(One(ALNUM), Alt(Empty, INNER))
  const MORE := Star(Cat(One({'.'}), LABEL))
  const HOSTNAME_RE := Cat(LABEL, MORE)

  const MAX_LENGTH := 253

  ghost predicate Hostname(s: string) {
    |s| <= MAX_LENGTH && Matches(HOSTNAME_RE, s)
  }

  // ---------- labels ----------

  predicate Over(s: string, allowed: set<char>) {
    forall i {:trigger s[i]} :: 0 <= i < |s| ==> s[i] in allowed
  }

  predicate Ldh(c: char) { 'a' <= c <= 'z' || '0' <= c <= '9' || c == '-' }

  predicate GoodLabel(l: string) {
    |l| > 0 && (forall i {:trigger l[i]} :: 0 <= i < |l| ==> Ldh(l[i])) && l[0] != '-' && l[|l| - 1] != '-'
  }

  function FirstDot(s: string): (i: nat)
    ensures i <= |s|
    ensures '.' !in s[..i]
    ensures i < |s| ==> s[i] == '.'
  {
    if s == "" || s[0] == '.' then 0
    else
      var i := FirstDot(s[1..]);
      assert s[..1 + i] == [s[0]] + s[1..][..i];
      1 + i
  }

  // The string split at its dots.
  function Labels(s: string): (ls: seq<string>)
    ensures |ls| > 0
  {
    var i := FirstDot(s);
    if i == |s| then [s] else [s[..i]] + Labels(s[i + 1..])
  }

  function Join(ls: seq<string>): string
    requires |ls| > 0
  {
    if |ls| == 1 then ls[0] else ls[0] + "." + Join(ls[1..])
  }

  predicate AllGood(ls: seq<string>) {
    forall i {:trigger ls[i]} :: 0 <= i < |ls| ==> GoodLabel(ls[i])
  }

  /** Splitting loses nothing and leaves no dot inside a label. */
  lemma {:induction false} LabelsRoundTrip(s: string)
    ensures Join(Labels(s)) == s
    ensures forall i {:trigger Labels(s)[i]} :: 0 <= i < |Labels(s)| ==> '.' !in Labels(s)[i]
    decreases |s|
  {
    var i := FirstDot(s);
    if i < |s| {
      LabelsRoundTrip(s[i + 1..]);
      assert Labels(s)[1..] == Labels(s[i + 1..]);
      assert s == s[..i] + "." + s[i + 1..];
    } else {
      assert s[..i] == s;
    }
  }

  lemma {:induction false} DotAt(s: string, i: nat)
    requires i <= |s| && '.' !in s[..i] && (i < |s| ==> s[i] == '.')
    ensures FirstDot(s) == i
  {
    if i > 0 {
      assert s[..i] == [s[0]] + s[1..][..i - 1];
      DotAt(s[1..], i - 1);
    }
  }

  lemma LabelsCons(l: string, rest: string)
    requires '.' !in l
    ensures Labels(l) == [l]
    ensures Labels(l + "." + rest) == [l] + Labels(rest)
  {
    assert l[..|l|] == l;
    DotAt(l, |l|);
    var s := l + "." + rest;
    assert s[..|l|] == l && s[|l| + 1..] == rest;
    DotAt(s, |l|);
  }

  // ---------- what the expression matches ----------

  lemma CatIntro(a: Regex, b: Regex, s: string, k: nat)
    requires k <= |s| && Matches(a, s[..k]) && Matches(b, s[k..])
    ensures Matches(Cat(a, b), s)
  {}

  lemma CatElim(a: Regex, b: Regex, s: string) returns (k: nat)
    requires Matches(Cat(a, b), s)
    ensures k <= |s| && Matches(a, s[..k]) && Matches(b, s[k..])
  {
    k :| 0 <= k <= |s| && Matches(a, s[..k]) && Matches(b, s[k..]);
  }

  lemma StarElim(a: Regex, s: string) returns (k: nat)
    requires Matches(Star(a), s) && s != ""
    ensures 0 < k <= |s| && Matches(a, s[..k]) && Matches(Star(a), s[k..])
  {
    k :| 0 < k <= |s| && Matches(a, s[..k]) && Matches(Star(a), s[k..]);
  }

  lemma {:induction false} StarOne(allowed: set<char>, s: string)
    ensures Matches(Star(One(allowed)), s) <==> Over(s, allowed)
    decreases |s|
  {
    if s != "" {
      if Matches(Star(One(allowed)), s) {
        var k := StarElim(One(allowed), s);
        assert k == 1;
        StarOne(allowed, s[1..]);
        assert s == s[..1] + s[1..];
      }
      if Over(s, allowed) {
        StarOne(allowed, s[1..]);
        assert Matches(One(allowed), s[..1]) && Matches(Star(One(allowed)), s[1..]);
      }
    }
  }

  lemma InnerMatches(s: string)
    ensures Matches(INNER, s) <==> |s| > 0 && Over(s, LDH) && s[|s| - 1] != '-'
  {
    if Matches(INNER, s) {
      var j := CatElim(Star(One(LDH)), One(ALNUM), s);
      StarOne(LDH, s[..j]);
      assert s == s[..j] + s[j..];
    }
    if |s| > 0 && Over(s, LDH) && s[|s| - 1] != '-' {
      StarOne(LDH, s[..|s| - 1]);
      CatIntro(Star(One(LDH)), One(ALNUM), s, |s| - 1);
    }
  }

  lemma LabelMatches(s: string)
    ensures Matches(LABEL, s) <==> GoodLabel(s)
  {
    if Matches(LABEL, s) {
      var k := CatElim(One(ALNUM), Alt(Empty, INNER), s);
      assert k == 1;
      InnerMatches(s[1..]);
      assert s == [s[0]] + s[1..];
    }
    if GoodLabel(s) {
      InnerMatches(s[1..]);
      CatIntro(One(ALNUM), Alt(Empty, INNER), s, 1);
    }
  }

  lemma GoodHasNoDot(l: string)
    requires GoodLabel(l)
    ensures '.' !in l
  {}

  // The repeated group matches nothing, or a dot and then good labels.
  lemma {:induction false} MoreMatches(s: string)
    ensures Matches(MORE, s) <==> s == "" || (s[0] == '.' && AllGood(Labels(s[1..])))
    decreases |s|
  {
    if s != "" {
      if Matches(MORE, s) { MoreForward(s); }
      if s[0] == '.' && AllGood(Labels(s[1..])) { MoreBackward(s); }
    }
  }

  lemma {:induction false} MoreForward(s: string)
    requires s != "" && Matches(MORE, s)
    ensures s[0] == '.' && AllGood(Labels(s[1..]))
    decreases |s|, 0
  {
    var k := StarElim(Cat(One({'.'}), LABEL), s);
    var j := CatElim(One({'.'}), LABEL, s[..k]);
    assert j == 1;
    var l := s[..k][1..];
    LabelMatches(l);
    GoodHasNoDot(l);
    LabelsCons(l, "");
    if s[k..] == "" {
      assert s[1..] == l;
    } else {
      MoreForward(s[k..]);
      assert s[1..] == l + "." + s[k..][1..];
      LabelsCons(l, s[k..][1..]);
    }
  }

  lemma {:induction false} MoreBackward(s: string)
    requires s != "" && s[0] == '.' && AllGood(Labels(s[1..]))
    ensures Matches(MORE, s)
    decreases |s|, 0
  {
    var i := FirstDot(s[1..]);
    var l := s[1..][..i];
    assert Labels(s[1..])[0] == l;
    LabelMatches(l);
    assert s[..i + 1][1..] == l;
    CatIntro(One({'.'}), LABEL, s[..i + 1], 1);
    if i + 1 < |s| {
      assert s[i + 1..][1..] == s[1..][i + 1..];
      assert Labels(s[1..])[1..] == Labels(s[i + 1..][1..]);
      MoreBackward(s[i + 1..]);
    }
    assert Matches(Cat(One({'.'}), LABEL), s[..i + 1]) && Matches(MORE, s[i + 1..]);
  }

  lemma ConsIsGood(l: string, rest: string)
    requires GoodLabel(l) && AllGood(Labels(rest))
    ensures AllGood(Labels(l + "." + rest))
  {
    GoodHasNoDot(l);
    LabelsCons(l, rest);
  }

  lemma OneLabel(l: string)
    requires GoodLabel(l)
    ensures AllGood(Labels(l))
  {
    GoodHasNoDot(l);
    LabelsCons(l, "");
  }

  lemma MatchIsGood(s: string)
    requires Matches(HOSTNAME_RE, s)
    ensures AllGood(Labels(s))
  {
    var k := CatElim(LABEL, MORE, s);
    var l, rest := s[..k], s[k..];
    LabelMatches(l);
    MoreMatches(rest);
    if rest != "" {
      assert s == l + "." + rest[1..];
      ConsIsGood(l, rest[1..]);
    } else {
      assert s == l;
      OneLabel(l);
    }
  }

  lemma GoodIsMatch(s: string)
    requires AllGood(Labels(s))
    ensures Matches(HOSTNAME_RE, s)
  {
    var i := FirstDot(s);
    assert Matches(LABEL, s[..i]) by {
      assert s[..|s|] == s;
      assert Labels(s)[0] == s[..i];
      LabelMatches(s[..i]);
    }
    assert Matches(MORE, s[i..]) by {
      if i < |s| {
        assert s[i..][1..] == s[i + 1..];
        assert Labels(s)[1..] == Labels(s[i + 1..]);
      }
      MoreMatches(s[i..]);
    }
    CatIntro(LABEL, MORE, s, i);
  }

  /** A hostname is a string of at most 253 characters whose dot-separated labels are non-empty, over lower-case
      letters, digits and hyphens, and neither start nor end with a hyphen (section 2.1 of RFC 1123, without its
      63-octet bound on a label). */
  lemma HostnameMeans(s: string)
    ensures Hostname(s) <==> |s| <= 253 && AllGood(Labels(s))
  {
    if Matches(HOSTNAME_RE, s) { MatchIsGood(s); }
    if AllGood(Labels(s)) { GoodIsMatch(s); }
  }

  // ---------- the bundle hostname template ----------

  // Every occurrence of a non-empty target, left to right, without overlap.
  function ReplaceAll(s: string, target: string, value: string): string
    requires target != ""
  {
    if |s| < |target| then s
    else if target <= s then value + ReplaceAll(s[|target|..], target, value)
    else [s[0]] + ReplaceAll(s[1..], target, value)
  }

  function Substitute(tmpl: string, release: string, fqdn: string): string {
    if tmpl == "" then ""
    else ReplaceAll(ReplaceAll(tmpl, "{release}", release), "{fqdn}", fqdn)
  }

  lemma {:induction false} ReplaceNothing(s: string, target: string, value: string)
    requires target != "" && target[0] !in s
    ensures ReplaceAll(s, target, value) == s
  {
    if |s| >= |target| {
      assert s[0] != target[0];
      ReplaceNothing(s[1..], target, value);
    }
  }

  lemma ReplaceStep(c: char, s: string, target: string, value: string)
    requires target != "" && c != target[0]
    ensures ReplaceAll([c] + s, target, value) == [c] + ReplaceAll(s, target, value)
  {
    var t := [c] + s;
    assert t[0] == c && t[1..] == s;
    assert !(target <= t);
  }

  lemma {:induction false} ReplaceSkips(a: string, s: string, target: string, value: string)
    requires target != "" && target[0] !in a
    ensures ReplaceAll(a + s, target, value) == a + ReplaceAll(s, target, value)
  {
    if a == "" {
      assert a + s == s;
    } else {
      var rest := ReplaceAll(s, target, value);
      assert a + s == [a[0]] + (a[1..] + s);
      ReplaceStep(a[0], a[1..] + s, target, value);
      ReplaceSkips(a[1..], s, target, value);
      assert [a[0]] + (a[1..] + rest) == a + rest;
    }
  }

  lemma ReplaceHits(s: string, target: string, value: string)
    requires target != ""
    ensures ReplaceAll(target + s, target, value) == value + ReplaceAll(s, target, value)
  {
    assert (target + s)[|target|..] == s;
  }

  lemma ReplaceOne(a: string, b: string, target: string, value: string)
    requires target != "" && target[0] !in a
    ensures ReplaceAll(a + (target + b), target, value) == a + (value + ReplaceAll(b, target, value))
  {
    ReplaceSkips(a, target + b, target, value);
    ReplaceHits(b, target, value);
  }

  // Looking for the release placeholder, the other one is passed over.
  lemma FqdnStays(b: string, c: string, release: string)
    requires '{' !in b && '{' !in c
    ensures ReplaceAll(b + ("{fqdn}" + c), "{release}", release) == b + ("{fqdn}" + c)
  {
    var s := "{fqdn}" + c;
    ReplaceSkips(b, s, "{release}", release);
    assert s[1..] == "fqdn}" + c && s[1] == 'f' && "{release}"[1] == 'r';
    ReplaceNothing(s[1..], "{release}", release);
    assert s == [s[0]] + s[1..];
  }

  // Only the fqdn placeholder is left.
  lemma FillFqdn(a: string, c: string, fqdn: string)
    requires '{' !in a && '{' !in c
    ensures ReplaceAll(a + ("{fqdn}" + c), "{fqdn}", fqdn) == a + (fqdn + c)
  {
    ReplaceOne(a, c, "{fqdn}", fqdn);
    ReplaceNothing(c, "{fqdn}", fqdn);
  }

  lemma Regroup(a: string, b: string, c: string, d: string)
    ensures a + (b + (c + d)) == (a + b + c) + d
  {}

  /** What the placeholders stand for: the release's name and the cluster's domain, the text around them kept. */
  lemma SubstituteFills(a: string, b: string, c: string, release: string, fqdn: string)
    requires '{' !in a && '{' !in b && '{' !in c && '{' !in release
    ensures Substitute(a + ("{release}" + (b + ("{fqdn}" + c))), release, fqdn) == a + (release + (b + (fqdn + c)))
  {
    ReplaceOne(a, b + ("{fqdn}" + c), "{release}", release);
    FqdnStays(b, c, release);
    Regroup(a, release, b, "{fqdn}" + c);
    FillFqdn(a + release + b, c, fqdn);
    Regroup(a, release, b, fqdn + c);
  }

  lemma {:induction false} GoodHasNoBrace(s: string)
    requires AllGood(Labels(s))
    ensures '{' !in s
    decreases |s|
  {
    var i := FirstDot(s);
    assert Labels(s)[0] == s[..i] by { assert s[..|s|] == s; }
    if i < |s| {
      assert Labels(s)[1..] == Labels(s[i + 1..]);
      GoodHasNoBrace(s[i + 1..]);
      assert s == s[..i] + "." + s[i + 1..];
    } else {
      assert s == s[..i];
    }
  }

  // What the bundle handler lets through for a choice's hostname.
  ghost predicate Accepted(hostname: string) { hostname == "" || Hostname(hostname) }

  /** No accepted hostname contains a placeholder: substitution leaves every one of them as it is. */
  lemma SubstituteIsIdentity(hostname: string, release: string, fqdn: string)
    requires Accepted(hostname)
    ensures Substitute(hostname, release, fqdn) == hostname
  {
    if hostname != "" {
      HostnameMeans(hostname);
      GoodHasNoBrace(hostname);
      ReplaceNothing(hostname, "{release}", release);
      ReplaceNothing(hostname, "{fqdn}", fqdn);
    }
  }

  /** A template that uses a placeholder is refused before it can be substituted. */
  lemma TemplatesAreRefused(tmpl: string)
    requires '{' in tmpl
    ensures !Accepted(tmpl)
  {
    if Hostname(tmpl) {
      HostnameMeans(tmpl);
      GoodHasNoBrace(tmpl);
    }
  }
}
