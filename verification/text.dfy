/**
 * The handful of Python `str` operations the Gardener scripts use, over `seq<char>`:
 * `isspace`, `strip()` and `strip(chars)`, `split(sep)`, `splitlines()`, `join`,
 * `startswith`, the substring test `in`, and `str(int)`.
 */
module Text {

  /** Python's `str.isspace()` for a single character (the Unicode whitespace set). */
  predicate IsSpace(c: char) {
    ('\t' <= c <= '\r') || ('\U{1c}' <= c <= '\U{1f}') || c == ' ' || c == '\U{85}' || c == '\U{a0}'
    || c == '\U{1680}' || ('\U{2000}' <= c <= '\U{200a}') || c == '\U{2028}' || c == '\U{2029}'
    || c == '\U{202f}' || c == '\U{205f}' || c == '\U{3000}'
  }

  /** The characters at which Python's `str.splitlines()` ends a line. */
  predicate IsLineBreak(c: char) {
    c == '\n' || c == '\r' || c == '\U{b}' || c == '\U{c}' || ('\U{1c}' <= c <= '\U{1e}')
    || c == '\U{85}' || c == '\U{2028}' || c == '\U{2029}'
  }

  predicate AllSpace(s: string) {
    forall i :: 0 <= i < |s| ==> IsSpace(s[i])
  }

  predicate NoLineBreak(s: string) {
    forall i :: 0 <= i < |s| ==> !IsLineBreak(s[i])
  }

  lemma NoLineBreakConcat(a: string, b: string)
    requires NoLineBreak(a) && NoLineBreak(b)
    ensures NoLineBreak(a + b)
  {
    forall i | 0 <= i < |a + b|
      ensures !IsLineBreak((a + b)[i])
    {
      if i < |a| { assert (a + b)[i] == a[i]; } else { assert (a + b)[i] == b[i - |a|]; }
    }
  }

  lemma LineBreakIsSpace(c: char)
    ensures IsLineBreak(c) ==> IsSpace(c)
  {
  }

  // ----- strip -------------------------------------------------------------

  /** The number of leading whitespace characters of `s`. */
  function LeadingSpaces(s: string): (k: nat)
    ensures k <= |s| && AllSpace(s[..k])
    ensures k == |s| || !IsSpace(s[k])
  {
    if s != [] && IsSpace(s[0]) then 1 + LeadingSpaces(s[1..]) else 0
  }

  /** `s.lstrip()`: drops the leading whitespace and nothing else. */
  function LStrip(s: string): (r: string)
    ensures |r| <= |s|
    ensures r == [] || !IsSpace(r[0])
  {
    s[LeadingSpaces(s)..]
  }

  /** `s.rstrip()`: drops the trailing whitespace and nothing else. */
  function RStrip(s: string): (r: string)
    ensures |r| <= |s|
    ensures r == [] || !IsSpace(r[|r| - 1])
  {
    if s != [] && IsSpace(s[|s| - 1]) then RStrip(s[..|s| - 1]) else s
  }

  /** `rstrip()` removes a suffix made only of whitespace. */
  lemma {:induction false} RStripSuffix(s: string)
    ensures RStrip(s) == s[..|RStrip(s)|]
    ensures AllSpace(s[|RStrip(s)|..])
  {
    if s != [] && IsSpace(s[|s| - 1]) {
      var t := s[..|s| - 1];
      RStripSuffix(t);
      assert s[|RStrip(s)|..] == t[|RStrip(t)|..] + [s[|s| - 1]];
    }
  }

  /** `s.strip()`. */
  function Strip(s: string): (r: string)
    ensures |r| <= |s|
    ensures r == [] || (!IsSpace(r[0]) && !IsSpace(r[|r| - 1]))
  {
    LStrip(RStrip(s))
  }

  lemma {:induction false} LStripSpaces(x: string, y: string)
    requires AllSpace(x)
    ensures LStrip(x + y) == LStrip(y)
  {
    if x != [] {
      assert (x + y)[1..] == x[1..] + y;
      LStripSpaces(x[1..], y);
    } else {
      assert x + y == y;
    }
  }

  lemma {:induction false} RStripSpaces(x: string, y: string)
    requires AllSpace(y)
    ensures RStrip(x + y) == RStrip(x)
  {
    if y != [] {
      assert (x + y)[..|x + y| - 1] == x + y[..|y| - 1];
      RStripSpaces(x, y[..|y| - 1]);
    } else {
      assert x + y == x;
    }
  }

  /** Trailing whitespace of `y` is all that `rstrip` removes from `x + y` once `y` has a non-space. */
  lemma {:induction false} RStripKeepsPrefix(x: string, y: string)
    requires RStrip(y) != [] || (x != [] && !IsSpace(x[|x| - 1]))
    ensures RStrip(x + y) == x + RStrip(y)
  {
    if y == [] {
      assert x + y == x;
    } else if IsSpace(y[|y| - 1]) {
      assert (x + y)[..|x + y| - 1] == x + y[..|y| - 1];
      RStripKeepsPrefix(x, y[..|y| - 1]);
    }
  }

  /** Padding with whitespace on either side does not change `strip()`. */
  lemma StripPadded(pre: string, s: string, post: string)
    requires AllSpace(pre) && AllSpace(post)
    ensures Strip(pre + s + post) == Strip(s)
  {
    RStripSpaces(pre + s, post);
    if RStrip(s) != [] {
      RStripKeepsPrefix(pre, s);
      LStripSpaces(pre, RStrip(s));
    } else {
      assert AllSpace(s) by {
        RStripSuffix(s);
        assert s[|RStrip(s)|..] == s;
      }
      AllSpaceStripsAway(pre + s);
    }
  }

  lemma {:induction false} AllSpaceStripsAway(s: string)
    requires AllSpace(s)
    ensures RStrip(s) == []
  {
    if s != [] {
      AllSpaceStripsAway(s[..|s| - 1]);
    }
  }

  /** A string that starts and ends with a non-space keeps itself and the stripped tail: `(q + t).strip() == q + t.rstrip()`. */
  lemma StripAfterSolidPrefix(q: string, t: string)
    requires q != [] && !IsSpace(q[0]) && !IsSpace(q[|q| - 1])
    ensures Strip(q + t) == q + RStrip(t)
  {
    RStripKeepsPrefix(q, t);
  }

  /** A string that starts and ends with a non-space is its own `strip()`. */
  lemma StripSolid(s: string)
    requires s != [] && !IsSpace(s[0]) && !IsSpace(s[|s| - 1])
    ensures Strip(s) == s
  {
    assert RStrip(s) == s;
    assert LeadingSpaces(s) == 0;
  }

  /** `rstrip()` is idempotent, so `s.rstrip().strip() == s.strip()`. */
  lemma StripOfRStrip(s: string)
    ensures RStrip(RStrip(s)) == RStrip(s)
    ensures Strip(RStrip(s)) == Strip(s)
  {
    var r := RStrip(s);
    if r != [] {
      assert !IsSpace(r[|r| - 1]);
    }
  }

  // ----- strip(chars) ------------------------------------------------------

  function LStripChars(s: string, cs: set<char>): (r: string)
    ensures |r| <= |s| && r == s[|s| - |r|..]
    ensures r == [] || r[0] !in cs
  {
    if s != [] && s[0] in cs then LStripChars(s[1..], cs) else s
  }

  function RStripChars(s: string, cs: set<char>): (r: string)
    ensures |r| <= |s| && r == s[..|r|]
    ensures r == [] || r[|r| - 1] !in cs
  {
    if s != [] && s[|s| - 1] in cs then RStripChars(s[..|s| - 1], cs) else s
  }

  /** Python's `s.strip(chars)`. */
  function StripChars(s: string, cs: set<char>): (r: string)
    ensures |r| <= |s|
    ensures r == [] || (r[0] !in cs && r[|r| - 1] !in cs)
  {
    LStripChars(RStripChars(s, cs), cs)
  }

  /** Bracketing characters around a core that starts and ends outside `cs` are all `strip(cs)` removes. */
  lemma StripCharsBracketed(open: char, core: string, close: char, cs: set<char>)
    requires open in cs && close in cs
    requires core != [] && core[0] !in cs && core[|core| - 1] !in cs
    ensures StripChars([open] + core + [close], cs) == core
  {
    var s := [open] + core + [close];
    assert s[..|s| - 1] == [open] + core;
    assert RStripChars([open] + core, cs) == [open] + core;
    assert RStripChars(s, cs) == [open] + core;
    assert ([open] + core)[1..] == core;
    assert LStripChars(core, cs) == core;
  }

  // ----- find / split / join -----------------------------------------------

  /** Index of the first `c` in `s`, or `|s|` when there is none. */
  function Find(s: string, c: char): (i: nat)
    ensures i <= |s|
    ensures forall k :: 0 <= k < i ==> s[k] != c
    ensures i < |s| ==> s[i] == c
  {
    if s == [] then 0 else if s[0] == c then 0 else 1 + Find(s[1..], c)
  }

  /** Python's `s.split(sep)` for a one-character separator. */
  function Split(s: string, sep: char): (parts: seq<string>)
    ensures |parts| >= 1
    ensures forall p :: p in parts ==> sep !in p
    decreases |s|
  {
    var i := Find(s, sep);
    if i == |s| then [s] else [s[..i]] + Split(s[i + 1..], sep)
  }

  /** Python's `sep.join(parts)`. */
  function Join(parts: seq<string>, sep: string): string
  {
    if parts == [] then "" else if |parts| == 1 then parts[0] else parts[0] + sep + Join(parts[1..], sep)
  }

  /** Splitting at the first separator peels off the text before it. */
  lemma SplitAt(a: string, sep: char, b: string)
    requires sep !in a
    ensures Split(a + [sep] + b, sep) == [a] + Split(b, sep)
  {
    var s := a + [sep] + b;
    assert s[|a|] == sep;
    assert Find(s, sep) == |a|;
    assert s[..|a|] == a;
    assert s[|a| + 1..] == b;
  }

  /** Joining pieces that do not contain the separator and splitting again gives the pieces back. */
  lemma {:induction false} SplitJoin(parts: seq<string>, sep: char)
    requires |parts| >= 1
    requires forall p :: p in parts ==> sep !in p
    ensures Split(Join(parts, [sep]), sep) == parts
  {
    if |parts| == 1 {
      assert parts[0] in parts;
      assert Find(parts[0], sep) == |parts[0]|;
    } else {
      SplitJoin(parts[1..], sep);
      assert parts[0] in parts;
      SplitAt(parts[0], sep, Join(parts[1..], [sep]));
    }
  }

  /** Each field followed by `sep`: `"".join(f + sep for f in fields)`. */
  function Terminated(fields: seq<string>, sep: char): string
  {
    if fields == [] then "" else fields[0] + [sep] + Terminated(fields[1..], sep)
  }

  /** Four fields, each followed by the separator, grouped around the third. */
  lemma TerminatedFour(a: string, b: string, c: string, d: string, sep: char)
    ensures Terminated([a, b, c, d], sep) == (a + [sep] + b + [sep]) + c + ([sep] + d + [sep])
  {
    var fields := [a, b, c, d];
    assert fields[1..] == [b, c, d] && fields[1..][1..] == [c, d] && fields[1..][1..][1..] == [d];
    assert Terminated([d], sep) == d + [sep];
    assert Terminated([c, d], sep) == c + [sep] + (d + [sep]);
    assert Terminated([b, c, d], sep) == b + [sep] + (c + [sep] + (d + [sep]));
  }

  lemma {:induction false} TerminatedEnds(fields: seq<string>, sep: char)
    requires fields != []
    ensures Terminated(fields, sep) != [] && Terminated(fields, sep)[|Terminated(fields, sep)| - 1] == sep
  {
    if |fields| > 1 {
      TerminatedEnds(fields[1..], sep);
    }
  }

  /** Fields that do not contain the separator come back out of `split`, whatever follows them. */
  lemma {:induction false} SplitTerminated(fields: seq<string>, sep: char, tail: string)
    requires forall f :: f in fields ==> sep !in f
    ensures Split(Terminated(fields, sep) + tail, sep) == fields + Split(tail, sep)
  {
    if fields == [] {
      assert Terminated(fields, sep) + tail == tail;
    } else {
      var first := fields[0];
      var rest := Terminated(fields[1..], sep);
      assert first in fields;
      calc {
        Split(Terminated(fields, sep) + tail, sep);
        { assert Terminated(fields, sep) + tail == first + [sep] + (rest + tail); }
        Split(first + [sep] + (rest + tail), sep);
        { SplitAt(first, sep, rest + tail); }
        [first] + Split(rest + tail, sep);
        { SplitTerminated(fields[1..], sep, tail); }
        [first] + (fields[1..] + Split(tail, sep));
        { AppendAssoc([first], fields[1..], Split(tail, sep)); assert [first] + fields[1..] == fields; }
        fields + Split(tail, sep);
      }
    }
  }

  // ----- splitlines --------------------------------------------------------

  /** Index of the first line-break character, or `|s|`. */
  function LineEnd(s: string): (i: nat)
    ensures i <= |s|
    ensures NoLineBreak(s[..i])
    ensures i < |s| ==> IsLineBreak(s[i])
  {
    if s == [] then 0 else if IsLineBreak(s[0]) then 0 else 1 + LineEnd(s[1..])
  }

  /** Where the next line starts after the break at `i`; `\r\n` is one break. */
  function NextLine(s: string, i: nat): nat
    requires i < |s|
  {
    if s[i] == '\r' && i + 1 < |s| && s[i + 1] == '\n' then i + 2 else i + 1
  }

  /** Python's `s.splitlines()`: the lines without their terminators; no empty last line for a trailing break. */
  function SplitLines(s: string): (lines: seq<string>)
    ensures forall l :: l in lines ==> NoLineBreak(l)
    decreases |s|
  {
    if s == [] then []
    else
      var i := LineEnd(s);
      if i == |s| then [s] else [s[..i]] + SplitLines(s[NextLine(s, i)..])
  }

  /** A text that ends with a complete line can be extended without disturbing its lines. */
  predicate EndsWithBreak(s: string, next: string) {
    s == [] || (IsLineBreak(s[|s| - 1]) && !(s[|s| - 1] == '\r' && next != [] && next[0] == '\n'))
  }

  lemma {:induction false} SplitLinesAppend(a: string, b: string)
    requires EndsWithBreak(a, b)
    ensures SplitLines(a + b) == SplitLines(a) + SplitLines(b)
    decreases |a|
  {
    if a == [] {
      assert a + b == b;
    } else {
      var i := LineEnd(a);
      var s := a + b;
      FirstLineOfAppend(a, b);
      var n := NextLine(a, i);
      calc {
        SplitLines(s);
        { SplitLinesStep(s); }
        [s[..i]] + SplitLines(s[n..]);
        [a[..i]] + SplitLines(a[n..] + b);
        { SplitLinesAppend(a[n..], b); }
        [a[..i]] + (SplitLines(a[n..]) + SplitLines(b));
        { AppendAssoc([a[..i]], SplitLines(a[n..]), SplitLines(b)); }
        ([a[..i]] + SplitLines(a[n..])) + SplitLines(b);
        { SplitLinesStep(a); }
        SplitLines(a) + SplitLines(b);
      }
    }
  }

  /** When `a` ends with a complete line, the first line of `a + b` and the break after it lie inside `a`. */
  lemma FirstLineOfAppend(a: string, b: string)
    requires a != [] && EndsWithBreak(a, b)
    ensures LineEnd(a) < |a| && LineEnd(a + b) == LineEnd(a)
    ensures NextLine(a + b, LineEnd(a)) == NextLine(a, LineEnd(a))
    ensures (a + b)[..LineEnd(a)] == a[..LineEnd(a)]
    ensures (a + b)[NextLine(a, LineEnd(a))..] == a[NextLine(a, LineEnd(a))..] + b
    ensures EndsWithBreak(a[NextLine(a, LineEnd(a))..], b)
  {
    var i := LineEnd(a);
    LineEndBeforeLast(a, b);
    LineEndPrefix(a, b);
    var n := NextLine(a, i);
    assert NextLine(a + b, i) == n by {
      if a[i] == '\r' && i + 1 == |a| {
        assert b == [] || b[0] != '\n';
        assert (a + b)[i] == '\r';
      }
    }
    assert (a + b)[n..] == a[n..] + b;
  }

  /** A text ending with a line break has a line break before its end. */
  lemma LineEndBeforeLast(a: string, b: string)
    requires a != [] && EndsWithBreak(a, b)
    ensures LineEnd(a) < |a|
  {
    assert IsLineBreak(a[|a| - 1]);
  }
  lemma AppendAssoc<T>(x: seq<T>, y: seq<T>, z: seq<T>)
    ensures x + (y + z) == (x + y) + z
  {
  }

  /** A text with a line break in it splits into the line before the break and the lines after it. */
  lemma SplitLinesStep(s: string)
    requires LineEnd(s) < |s|
    ensures SplitLines(s) == [s[..LineEnd(s)]] + SplitLines(s[NextLine(s, LineEnd(s))..])
  {
  }

  lemma {:induction false} LineEndPrefix(a: string, b: string)
    requires LineEnd(a) < |a|
    ensures LineEnd(a + b) == LineEnd(a)
  {
    if !IsLineBreak(a[0]) {
      assert (a + b)[1..] == a[1..] + b;
      LineEndPrefix(a[1..], b);
    }
  }

  /** A line without breaks followed by `\n` is one line. */
  lemma SplitLinesOneLine(l: string)
    requires NoLineBreak(l)
    ensures SplitLines(l + "\n") == [l]
  {
    var s := l + "\n";
    assert LineEnd(s) == |l| by { LineEndAt(s, |l|); }
    assert s[..|l|] == l;
    assert s[|l| + 1..] == [];
  }

  lemma {:induction false} LineEndAt(s: string, k: nat)
    requires k < |s| && NoLineBreak(s[..k]) && IsLineBreak(s[k])
    ensures LineEnd(s) == k
  {
    if k > 0 {
      assert s[..k][0] == s[0];
      assert s[1..][..k - 1] == s[..k][1..];
      LineEndAt(s[1..], k - 1);
    }
  }

  /** The first line of a text that starts with a break-free `l` continues at least through `l`. */
  lemma FirstLineStartsWith(l: string, rest: string)
    requires NoLineBreak(l) && rest != [] && IsLineBreak(rest[|rest| - 1])
    ensures SplitLines(l + rest) != []
    ensures SplitLines(l + rest)[0] == l + rest[..LineEnd(rest)]
  {
    var s := l + rest;
    var j := LineEnd(rest);
    assert j < |rest|;
    assert NoLineBreak(s[..|l| + j]) by {
      assert s[..|l| + j] == l + rest[..j];
    }
    LineEndAt(s, |l| + j);
    assert s[..|l| + j] == l + rest[..j];
  }

  // ----- prefixes and substrings ------------------------------------------

  /** Python's `s.startswith(p)`. */
  predicate StartsWith(s: string, p: string) {
    |p| <= |s| && s[..|p|] == p
  }

  predicate OccursAt(s: string, sub: string, i: int) {
    0 <= i && i + |sub| <= |s| && s[i..i + |sub|] == sub
  }

  /** Python's `sub in s`. */
  predicate Contains(s: string, sub: string) {
    exists i | 0 <= i <= |s| :: OccursAt(s, sub, i)
  }

  lemma ContainsInside(a: string, sub: string, b: string)
    ensures Contains(a + sub + b, sub)
  {
    var s := a + sub + b;
    assert s[|a|..|a| + |sub|] == sub;
    assert OccursAt(s, sub, |a|);
  }

  lemma ContainsPadded(x: string, sub: string, y: string, z: string)
    ensures Contains(x + (" " + sub + " ") + y + z, sub)
  {
    assert x + (" " + sub + " ") + y + z == (x + " ") + sub + (" " + y + z);
    ContainsInside(x + " ", sub, " " + y + z);
  }

  /** Python's `s.split(c, 1)[1]`: the text after the first `c`. */
  function AfterFirst(s: string, c: char): (r: string)
    requires c in s
    ensures |r| < |s| && r == s[|s| - |r|..]
  {
    s[Find(s, c) + 1..]
  }

  // ----- integers ----------------------------------------------------------

  function DigitChar(d: int): char
    requires 0 <= d < 10
  {
    (('0' as int) + d) as char
  }

  predicate IsDigit(c: char) {
    '0' <= c <= '9'
  }

  function DigitValue(c: char): (d: int)
    requires IsDigit(c)
    ensures 0 <= d < 10 && DigitChar(d) == c
  {
    (c as int) - ('0' as int)
  }

  function NatToString(n: nat): (r: string)
    ensures r != [] && forall i :: 0 <= i < |r| ==> IsDigit(r[i])
  {
    if n < 10 then [DigitChar(n)] else NatToString(n / 10) + [DigitChar(n % 10)]
  }

  /** Python's `str(n)` (and `f"{n}"`) for an `int`. */
  function IntToString(n: int): (r: string)
    ensures r != [] && forall i :: 0 <= i < |r| ==> IsDigit(r[i]) || r[i] == '-'
  {
    if n < 0 then "-" + NatToString(-n) else NatToString(n)
  }
}
