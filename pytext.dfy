/** The few Python string operations the tool relies on: `str.strip()` with no
    arguments, `startswith`, `endswith` and `lower()`. */
module PyText {

  /** Python's `str.isspace` on one character: the characters that `strip()`
      without arguments removes from both ends. */
  predicate IsSpace(c: char) {
    c == ' ' || '\t' <= c <= '\r' || '\U{1c}' <= c <= '\U{1f}' ||
    c == '\U{85}' || c == '\U{a0}' || c == '\U{1680}' || '\U{2000}' <= c <= '\U{200a}' ||
    c == '\U{2028}' || c == '\U{2029}' || c == '\U{202f}' || c == '\U{205f}' || c == '\U{3000}'
  }

  predicate AllSpace(s: string) {
    forall i :: 0 <= i < |s| ==> IsSpace(s[i])
  }

  /** A string that `strip()` leaves unchanged. */
  predicate IsStripped(s: string) {
    s == [] || (!IsSpace(s[0]) && !IsSpace(s[|s| - 1]))
  }

  predicate StartsWith(s: string, prefix: string) {
    |prefix| <= |s| && s[..|prefix|] == prefix
  }

  predicate EndsWith(s: string, suffix: string) {
    |suffix| <= |s| && s[|s| - |suffix|..] == suffix
  }

  /** A string starts with each of its prefixes. */
  lemma PrefixOfAppend(a: string, b: string)
    ensures StartsWith(a + b, a)
  {
    assert (a + b)[..|a|] == a;
  }

  /** A text does not start with a prefix it differs from at some position. */
  lemma NotPrefixAt(s: string, prefix: string, i: nat)
    requires i < |s| && i < |prefix| && s[i] != prefix[i]
    ensures !StartsWith(s, prefix)
  {
    if |prefix| <= |s| {
      assert s[..|prefix|][i] == s[i];
    }
  }

  /** A text does not end with a suffix whose last character differs from its own. */
  lemma NotSuffixAtEnd(s: string, suffix: string)
    requires s != [] && suffix != [] && s[|s| - 1] != suffix[|suffix| - 1]
    ensures !EndsWith(s, suffix)
  {
    if |suffix| <= |s| {
      assert s[|s| - |suffix|..][|suffix| - 1] == s[|s| - 1];
    }
  }

  /** A string ends with each of its suffixes, and what comes before is the rest. */
  lemma SuffixOfAppend(a: string, b: string)
    ensures EndsWith(a + b, b) && (a + b)[..|a|] == a
  {
    assert (a + b)[|a|..] == b;
  }

  lemma EmptyLeft(s: string)
    ensures "" + s == s
  {
  }

  lemma EmptyRight(s: string)
    ensures s + "" == s
  {
  }

  lemma AppendAssoc(a: string, b: string, c: string)
    ensures (a + b) + c == a + (b + c)
  {
  }

  /** A text made of `a` and then `b + rest` starts with `a`, and what follows
      `a` starts with `b`. */
  lemma StartsThen(s: string, a: string, b: string, rest: string)
    requires s == a + (b + rest)
    ensures StartsWith(s, a) && s[|a|..] == b + rest && StartsWith(s[|a|..], b)
  {
    PrefixOfAppend(a, b + rest);
    assert s[|a|..] == b + rest;
    PrefixOfAppend(b, rest);
  }

  /** `s.lstrip()`: drops white space from the front (LStripSpec says what is left). */
  function LStrip(s: string): string {
    if s != [] && IsSpace(s[0]) then LStrip(s[1..]) else s
  }

  /** `s.rstrip()`: drops white space from the back (RStripSpec says what is left). */
  function RStrip(s: string): string {
    if s != [] && IsSpace(s[|s| - 1]) then RStrip(s[..|s| - 1]) else s
  }

  /** `lstrip()` leaves the longest suffix that does not start with white space. */
  lemma {:induction false} LStripSpec(s: string)
    ensures var r := LStrip(s);
      && |r| <= |s| && r == s[|s| - |r|..]
      && AllSpace(s[..|s| - |r|])
      && (r == [] || !IsSpace(r[0]))
  {
    if s != [] && IsSpace(s[0]) {
      LStripSpec(s[1..]);
      var r := LStrip(s);
      assert s[..|s| - |r|] == [s[0]] + s[1..][..|s[1..]| - |r|];
    }
  }

  /** `rstrip()` leaves the longest prefix that does not end with white space. */
  lemma {:induction false} RStripSpec(s: string)
    ensures var r := RStrip(s);
      && |r| <= |s| && r == s[..|r|]
      && AllSpace(s[|r|..])
      && (r == [] || !IsSpace(r[|r| - 1]))
  {
    if s != [] && IsSpace(s[|s| - 1]) {
      RStripSpec(s[..|s| - 1]);
      var r := RStrip(s);
      assert s[|r|..] == s[..|s| - 1][|r|..] + [s[|s| - 1]];
    }
  }

  /** `s.strip()`. */
  function Strip(s: string): (r: string)
    ensures IsStripped(r)
    ensures |r| <= |s|
  {
    LStripSpec(s);
    RStripSpec(LStrip(s));
    RStrip(LStrip(s))
  }

  lemma {:induction false} LStripPadded(lead: string, u: string)
    requires AllSpace(lead)
    requires u == [] || !IsSpace(u[0])
    ensures LStrip(lead + u) == u
  {
    if lead == [] {
      assert lead + u == u;
    } else {
      assert (lead + u)[0] == lead[0];
      assert (lead + u)[1..] == lead[1..] + u;
      LStripPadded(lead[1..], u);
    }
  }

  lemma {:induction false} RStripPadded(u: string, trail: string)
    requires AllSpace(trail)
    requires u == [] || !IsSpace(u[|u| - 1])
    ensures RStrip(u + trail) == u
  {
    if trail == [] {
      assert u + trail == u;
    } else {
      var s := u + trail;
      assert s[|s| - 1] == trail[|trail| - 1];
      assert s[..|s| - 1] == u + trail[..|trail| - 1];
      RStripPadded(u, trail[..|trail| - 1]);
    }
  }

  /** `strip()` removes exactly the white space around a stripped core. */
  lemma StripPadded(lead: string, t: string, trail: string)
    requires AllSpace(lead) && AllSpace(trail) && IsStripped(t)
    ensures Strip(lead + t + trail) == t
  {
    if t == [] {
      assert lead + t + trail == lead + trail;
      assert AllSpace(lead + trail);
      LStripPadded(lead + trail, []);
      assert lead + trail + [] == lead + trail;
    } else {
      assert lead + t + trail == lead + (t + trail);
      LStripPadded(lead, t + trail);
      RStripPadded(t, trail);
    }
  }

  /** Every string is its `strip()` surrounded by white space. */
  lemma StripSplit(s: string) returns (lead: string, trail: string)
    ensures AllSpace(lead) && AllSpace(trail)
    ensures s == lead + Strip(s) + trail
  {
    var l := LStrip(s);
    LStripSpec(s);
    lead := s[..|s| - |l|];
    assert s == lead + l;
    var r := RStrip(l);
    RStripSpec(l);
    trail := l[|r|..];
    assert l == r + trail;
    AppendAssoc(lead, r, trail);
  }

  /** `c.lower()` on the ASCII capitals; every other character is left as it is. */
  function LowerChar(c: char): char {
    if 'A' <= c <= 'Z' then (c as int - 'A' as int + 'a' as int) as char else c
  }

  /** `s.lower()`, character by character. */
  function Lower(s: string): (r: string)
    ensures |r| == |s|
    ensures forall i :: 0 <= i < |s| ==> r[i] == LowerChar(s[i])
  {
    if s == [] then [] else [LowerChar(s[0])] + Lower(s[1..])
  }
}
