/**
  The Python `str` operations the services rely on, over `seq<char>`:
  `strip`/`lstrip`/`rstrip` (with and without a character set), `lower`/`upper`,
  `in`, `startswith`, `split('\n')`, `split(':', 1)`, `split(maxsplit=1)`,
  `replace` and `sep.join(...)`.
 */
module Text {

  /** CPython's `str.isspace` for one character: the characters `strip()` and `split()` treat as whitespace. */
  predicate IsSpace(c: char)
  {
    || '\t' <= c <= '\r'
    || '\U{1C}' <= c <= '\U{1F}'
    || c == ' ' || c == '\U{85}' || c == '\U{A0}' || c == '\U{1680}'
    || '\U{2000}' <= c <= '\U{200A}'
    || c == '\U{2028}' || c == '\U{2029}' || c == '\U{202F}' || c == '\U{205F}' || c == '\U{3000}'
  }

  /** The whitespace set, as used by the set-parameterised strip functions below. */
  const Whitespace: set<char> := set c: char | IsSpace(c)

  // ---------------------------------------------------------------------------
  // Stripping

  /** `s.lstrip(cs)`: drop the longest prefix made of characters of `cs`. */
  function LStripSet(s: string, cs: set<char>): (r: string)
    ensures |r| <= |s| && r == s[|s| - |r|..]
    ensures forall i :: 0 <= i < |s| - |r| ==> s[i] in cs
    ensures r != [] ==> r[0] !in cs
    decreases |s|
  {
    if |s| > 0 && s[0] in cs then LStripSet(s[1..], cs) else s
  }

  /** `s.rstrip(cs)`: drop the longest suffix made of characters of `cs`. */
  function RStripSet(s: string, cs: set<char>): (r: string)
    ensures |r| <= |s| && r == s[..|r|]
    ensures forall i :: |r| <= i < |s| ==> s[i] in cs
    ensures r != [] ==> r[|r| - 1] !in cs
    decreases |s|
  {
    if |s| > 0 && s[|s| - 1] in cs then RStripSet(s[..|s| - 1], cs) else s
  }

  /** `s.strip(cs)`. */
  function StripSet(s: string, cs: set<char>): string
  {
    RStripSet(LStripSet(s, cs), cs)
  }

  /** `s.lstrip()`. */
  function LStrip(s: string): string
  {
    LStripSet(s, Whitespace)
  }

  /** `s.strip()`. */
  function Strip(s: string): string
  {
    StripSet(s, Whitespace)
  }

  /** A string is stripped when it neither starts nor ends with a character of `cs`. */
  predicate IsStrippedOf(s: string, cs: set<char>)
  {
    s == [] || (s[0] !in cs && s[|s| - 1] !in cs)
  }

  lemma StripSetShape(s: string, cs: set<char>)
    ensures IsStrippedOf(StripSet(s, cs), cs)
  {
    var l := LStripSet(s, cs);
    var r := RStripSet(l, cs);
    if r != [] {
      assert r[0] == l[0];
    }
  }

  lemma StripSetOfStripped(s: string, cs: set<char>)
    requires IsStrippedOf(s, cs)
    ensures LStripSet(s, cs) == s && RStripSet(s, cs) == s && StripSet(s, cs) == s
  {
  }

  /** Leading characters of `cs` in front of `s` are all removed by `lstrip`. */
  lemma {:induction false} LStripSetPrefix(p: string, s: string, cs: set<char>)
    requires forall i :: 0 <= i < |p| ==> p[i] in cs
    ensures LStripSet(p + s, cs) == LStripSet(s, cs)
    decreases |p|
  {
    if p != [] {
      assert (p + s)[0] == p[0] && p[0] in cs;
      assert (p + s)[1..] == p[1..] + s;
      LStripSetPrefix(p[1..], s, cs);
    } else {
      assert p + s == s;
    }
  }

  /** Stripping the front of a string behind a run of characters of `cs` gives the string. */
  lemma LStripSetBehind(p: string, s: string, cs: set<char>)
    requires forall i :: 0 <= i < |p| ==> p[i] in cs
    requires s != [] && s[0] !in cs
    ensures LStripSet(p + s, cs) == s
  {
    LStripSetPrefix(p, s, cs);
    assert s == s + [];
    LStripSetStops(s, [], cs);
  }

  /** Stripping a stripped string behind a run of characters of `cs` gives the string. */
  lemma StripSetBehind(p: string, d: string, cs: set<char>)
    requires forall i :: 0 <= i < |p| ==> p[i] in cs
    requires IsStrippedOf(d, cs)
    ensures StripSet(p + d, cs) == d
  {
    LStripSetPrefix(p, d, cs);
    StripSetOfStripped(d, cs);
  }

  /** `(" " + d).strip()` is `d` for a stripped `d`. */
  lemma StripSpaceBehind(d: string)
    requires IsStrippedOf(d, Whitespace)
    ensures Strip(" " + d) == d
  {
    assert IsSpace(' ');
    StripSetBehind(" ", d, Whitespace);
  }

  /** `lstrip` stops at the first character not in `cs`, whatever follows. */
  lemma LStripSetStops(s: string, t: string, cs: set<char>)
    requires s != [] && s[0] !in cs
    ensures LStripSet(s + t, cs) == s + t
  {
  }

  /** `rstrip` stops at the last character not in `cs`, whatever precedes. */
  lemma RStripSetStops(t: string, s: string, cs: set<char>)
    requires s != [] && s[|s| - 1] !in cs
    ensures RStripSet(t + s, cs) == t + s
  {
  }

  /** Trailing characters of `cs` after `s` are all removed by `rstrip`. */
  lemma {:induction false} RStripSetSuffix(s: string, p: string, cs: set<char>)
    requires forall i :: 0 <= i < |p| ==> p[i] in cs
    ensures RStripSet(s + p, cs) == RStripSet(s, cs)
    decreases |p|
  {
    if p != [] {
      assert (s + p)[|s + p| - 1] == p[|p| - 1] && p[|p| - 1] in cs;
      assert (s + p)[..|s + p| - 1] == s + p[..|p| - 1];
      RStripSetSuffix(s, p[..|p| - 1], cs);
    } else {
      assert s + p == s;
    }
  }

  // ---------------------------------------------------------------------------
  // Case mapping (ASCII letters only)

  function LowerChar(c: char): char
  {
    if 'A' <= c <= 'Z' then (c as int + 32) as char else c
  }

  function UpperChar(c: char): char
  {
    if 'a' <= c <= 'z' then (c as int - 32) as char else c
  }

  /** `s.lower()`, restricted to ASCII letters. */
  function Lower(s: string): (r: string)
    ensures |r| == |s|
    ensures forall i :: 0 <= i < |s| ==> r[i] == LowerChar(s[i])
  {
    seq(|s|, i requires 0 <= i < |s| => LowerChar(s[i]))
  }

  /** `s.upper()`, restricted to ASCII letters. */
  function Upper(s: string): (r: string)
    ensures |r| == |s|
    ensures forall i :: 0 <= i < |s| ==> r[i] == UpperChar(s[i])
  {
    seq(|s|, i requires 0 <= i < |s| => UpperChar(s[i]))
  }

  // ---------------------------------------------------------------------------
  // Searching

  /** Python's `sub in s`. */
  predicate Contains(s: string, sub: string)
    decreases |s|
  {
    sub <= s || (|s| > 0 && Contains(s[1..], sub))
  }

  /** `Contains` holds exactly when `sub` occurs at some index of `s`. */
  lemma {:induction false} ContainsAt(s: string, sub: string, k: nat)
    requires k + |sub| <= |s| && s[k..k + |sub|] == sub
    ensures Contains(s, sub)
    decreases k
  {
    if k > 0 {
      assert s[1..][k - 1..k - 1 + |sub|] == s[k..k + |sub|];
      ContainsAt(s[1..], sub, k - 1);
    }
  }

  lemma {:induction false} ContainsGivesIndex(s: string, sub: string) returns (k: nat)
    requires Contains(s, sub)
    ensures k + |sub| <= |s| && s[k..k + |sub|] == sub
    decreases |s|
  {
    if sub <= s {
      k := 0;
    } else {
      var k' := ContainsGivesIndex(s[1..], sub);
      k := k' + 1;
      assert s[1..][k'..k' + |sub|] == s[k..k + |sub|];
    }
  }

  /** Occurrence is transitive. */
  lemma ContainsTrans(a: string, b: string, c: string)
    requires Contains(a, b) && Contains(b, c)
    ensures Contains(a, c)
  {
    var i := ContainsGivesIndex(a, b);
    var j := ContainsGivesIndex(b, c);
    assert forall k :: 0 <= k < |c| ==> a[i + j + k] == b[j + k] == c[k];
    assert a[i + j..i + j + |c|] == c;
    ContainsAt(a, c, i + j);
  }

  /** What `strip(cs)` leaves is a piece of the string. */
  lemma StripSetContained(s: string, cs: set<char>)
    ensures Contains(s, StripSet(s, cs))
  {
    var l := LStripSet(s, cs);
    var r := RStripSet(l, cs);
    SliceContained(s, r, |s| - |l|);
  }

  /** What `lstrip(cs)` leaves is a piece of the string. */
  lemma LStripSetContained(s: string, cs: set<char>)
    ensures Contains(s, LStripSet(s, cs))
  {
    var l := LStripSet(s, cs);
    SliceContained(s, l, |s| - |l|);
  }

  /** A slice of a string occurs in it. */
  lemma SliceContained(s: string, r: string, k: nat)
    requires k + |r| <= |s| && r == s[k..k + |r|]
    ensures Contains(s, r)
  {
    ContainsAt(s, r, k);
  }

  /** Of two strings of one length, one occurs in the other only when they are equal. */
  lemma ContainsSameLength(s: string, sub: string)
    requires |s| == |sub| && s != sub
    ensures !Contains(s, sub)
  {
    if Contains(s, sub) {
      var k := ContainsGivesIndex(s, sub);
    }
  }

  /** Nothing longer than `s` occurs in `s`. */
  lemma ContainsNotLonger(s: string, sub: string)
    requires |s| < |sub|
    ensures !Contains(s, sub)
  {
    if Contains(s, sub) {
      var k := ContainsGivesIndex(s, sub);
    }
  }

  /** Index of the first `c` in `s`, or `|s|` when there is none. */
  function IndexOf(s: string, c: char): (k: nat)
    ensures k <= |s|
    ensures c !in s[..k]
    ensures k < |s| ==> s[k] == c
    ensures k == |s| <==> c !in s
  {
    if |s| == 0 then 0
    else if s[0] == c then 0
    else assert s[1..] == s[1..]; 1 + IndexOf(s[1..], c)
  }

  // ---------------------------------------------------------------------------
  // Splitting and joining

  /** `s.split(c)` for a one-character separator: never empty, pieces free of `c`. */
  function Split(s: string, c: char): (r: seq<string>)
    ensures |r| >= 1
    ensures forall i :: 0 <= i < |r| ==> c !in r[i]
    decreases |s|
  {
    var k := IndexOf(s, c);
    if k == |s| then [s] else [s[..k]] + Split(s[k + 1..], c)
  }

  /** Splitting at the first separator peels off the piece in front of it. */
  lemma SplitFirst(p: string, t: string, c: char)
    requires c !in p
    ensures Split(p + [c] + t, c) == [p] + Split(t, c)
  {
    var s := p + [c] + t;
    IndexOfPrefix(p, [c] + t, c);
    assert s == p + ([c] + t);
    assert s[..|p|] == p;
    assert s[|p| + 1..] == t;
  }

  /** `sep.join(parts)`. */
  function Join(parts: seq<string>, sep: string): string
  {
    if |parts| == 0 then ""
    else if |parts| == 1 then parts[0]
    else parts[0] + sep + Join(parts[1..], sep)
  }

  /** Joining the pieces of a split with the separator gives the string back. */
  lemma {:induction false} JoinSplit(s: string, c: char)
    ensures Join(Split(s, c), [c]) == s
    decreases |s|
  {
    var k := IndexOf(s, c);
    if k < |s| {
      var rest := Split(s[k + 1..], c);
      JoinSplit(s[k + 1..], c);
      assert Split(s, c) == [s[..k]] + rest;
      assert s == s[..k] + [c] + s[k + 1..];
    }
  }

  /** Splitting a join of separator-free pieces gives the pieces back. */
  lemma {:induction false} SplitJoin(parts: seq<string>, c: char)
    requires |parts| >= 1
    requires forall i :: 0 <= i < |parts| ==> c !in parts[i]
    ensures Split(Join(parts, [c]), c) == parts
    decreases |parts|
  {
    var p := parts[0];
    if |parts| == 1 {
      assert IndexOf(p, c) == |p|;
    } else {
      var tail := Join(parts[1..], [c]);
      var s := p + [c] + tail;
      assert Join(parts, [c]) == s;
      IndexOfPrefix(p, [c] + tail, c);
      assert s == p + ([c] + tail);
      assert IndexOf(s, c) == |p|;
      assert s[..|p|] == p;
      assert s[|p| + 1..] == tail;
      SplitJoin(parts[1..], c);
    }
  }

  lemma {:induction false} IndexOfPrefix(p: string, t: string, c: char)
    requires c !in p && t != [] && t[0] == c
    ensures IndexOf(p + t, c) == |p|
    decreases |p|
  {
    if p != [] {
      assert (p + t)[1..] == p[1..] + t;
      IndexOfPrefix(p[1..], t, c);
    }
  }

  /** Appending a piece adds one separator. */
  lemma {:induction false} JoinAppend(parts: seq<string>, p: string, sep: string)
    ensures Join(parts + [p], sep) == if parts == [] then p else Join(parts, sep) + sep + p
    decreases |parts|
  {
    if |parts| > 1 {
      assert (parts + [p])[1..] == parts[1..] + [p];
      JoinAppend(parts[1..], p, sep);
    } else if |parts| == 1 {
      assert (parts + [p])[1..] == [p];
    }
  }

  /** Python's `s.split(c, 1)[-1]`: what follows the first `c`, or all of `s` without one. */
  function AfterFirst(s: string, c: char): (r: string)
    ensures c in s ==> exists k :: 0 <= k < |s| && s[k] == c && c !in s[..k] && r == s[k + 1..]
    ensures c !in s ==> r == s
  {
    var k := IndexOf(s, c);
    if k < |s| then s[k + 1..] else s
  }

  lemma AfterFirstOfPrefix(p: string, t: string, c: char)
    requires c !in p
    ensures AfterFirst(p + [c] + t, c) == t
  {
    IndexOfPrefix(p, [c] + t, c);
    assert p + [c] + t == p + ([c] + t);
    assert (p + [c] + t)[|p| + 1..] == t;
  }

  /**
    Python's `s.split(maxsplit=1)`: no piece for a blank string, else the first
    whitespace-delimited word and, when anything is left, the rest with its
    leading whitespace removed (trailing whitespace kept).
   */
  function SplitFirstWord(s: string): (r: seq<string>)
  {
    SplitFirstWordBy(s, Whitespace)
  }

  /** The longest prefix of `t` without a character of `cs`. */
  function WordOf(t: string, cs: set<char>): (r: string)
    ensures |r| <= |t| && r == t[..|r|]
    ensures |r| < |t| ==> t[|r|] in cs
    ensures t != [] && t[0] !in cs ==> r != []
    decreases |t|
  {
    if t == [] || t[0] in cs then [] else [t[0]] + WordOf(t[1..], cs)
  }

  /** `SplitFirstWord` for an arbitrary set of separator characters `cs`. */
  function SplitFirstWordBy(s: string, cs: set<char>): (r: seq<string>)
    ensures |r| <= 2
    ensures r == [] <==> LStripSet(s, cs) == []
    ensures |r| > 0 ==> r[0] != [] && r[0][0] !in cs
    ensures |r| > 1 ==> r[1] != [] && r[1][0] !in cs && |r[1]| < |s|
  {
    var t := LStripSet(s, cs);
    if t == [] then []
    else
      var word := WordOf(t, cs);
      var rest := LStripSet(t[|word|..], cs);
      if rest == [] then [word] else [word, rest]
  }

  /** Replace every occurrence of character `a` by `b` (`s.replace(a, b)` for one-character strings). */
  function ReplaceChar(s: string, a: char, b: char): (r: string)
    ensures |r| == |s|
    ensures forall i :: 0 <= i < |s| ==> r[i] == if s[i] == a then b else s[i]
  {
    seq(|s|, i requires 0 <= i < |s| => if s[i] == a then b else s[i])
  }

  /** `s.replace(pat, rep)`: left-to-right, non-overlapping. */
  function Replace(s: string, pat: string, rep: string): string
    requires |pat| > 0
    decreases |s|
  {
    if |s| < |pat| then s
    else if pat <= s then rep + Replace(s[|pat|..], pat, rep)
    else [s[0]] + Replace(s[1..], pat, rep)
  }

  /** A string without the pattern is left as it is. */
  lemma {:induction false} ReplaceAbsent(s: string, pat: string, rep: string)
    requires |pat| > 0 && !Contains(s, pat)
    ensures Replace(s, pat, rep) == s
    decreases |s|
  {
    if |s| >= |pat| {
      assert !(pat <= s);
      ReplaceAbsent(s[1..], pat, rep);
      assert s == [s[0]] + s[1..];
    }
  }

  /** `replace` introduces no character that neither the string nor the replacement holds. */
  lemma {:induction false} ReplaceKeepsOut(s: string, pat: string, rep: string, c: char)
    requires |pat| > 0 && c !in s && c !in rep
    ensures c !in Replace(s, pat, rep)
    decreases |s|
  {
    if |s| >= |pat| {
      if pat <= s {
        ReplaceKeepsOut(s[|pat|..], pat, rep, c);
      } else {
        ReplaceKeepsOut(s[1..], pat, rep, c);
      }
    }
  }

  // ---------------------------------------------------------------------------
  // Decimal numerals

  predicate IsDigit(c: char)
  {
    '0' <= c <= '9'
  }

  function DigitChar(d: nat): (c: char)
    requires d < 10
    ensures IsDigit(c)
  {
    ('0' as int + d) as char
  }

  /** `str(n)` for a natural number: its decimal digits, most significant first, without leading zeros. */
  function NatToString(n: nat): (s: string)
    ensures |s| > 0 && forall i :: 0 <= i < |s| ==> IsDigit(s[i])
    ensures |s| > 1 ==> s[0] != '0'
  {
    if n < 10 then [DigitChar(n)] else NatToString(n / 10) + [DigitChar(n % 10)]
  }

  /** The value of a string of decimal digits (`int(s)`). */
  function ParseNat(s: string): nat
    requires forall i :: 0 <= i < |s| ==> IsDigit(s[i])
  {
    if s == [] then 0
    else
      var d := s[|s| - 1] as int - '0' as int;
      assert IsDigit(s[|s| - 1]);
      10 * ParseNat(s[..|s| - 1]) + d
  }

  /** Reading back a rendered number gives the number. */
  lemma {:induction false} ParseNatToString(n: nat)
    ensures ParseNat(NatToString(n)) == n
  {
    if n >= 10 {
      ParseNatToString(n / 10);
      var s := NatToString(n);
      assert s[..|s| - 1] == NatToString(n / 10);
    }
  }
}
