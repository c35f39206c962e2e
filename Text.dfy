/**
 * The pieces of Python's string handling that the client relies on:
 * `str.strip`, `str.lower`, `str.split(sep)`, `str.split()`, `str.splitlines`,
 * `" ".join`, the `in` substring test and `int(...)` on text.
 *
 * Whitespace (`str.isspace`, regex `\s`) and line boundaries (`str.splitlines`)
 * are the exact Python sets; digits, word characters and case mapping are the
 * ASCII ones.
 */
module Text {
  import opened Wrappers

  predicate IsDigit(c: char) { '0' <= c <= '9' }

  predicate IsUpper(c: char) { 'A' <= c <= 'Z' }

  predicate IsLetter(c: char) { 'a' <= c <= 'z' || 'A' <= c <= 'Z' }

  /** Regex `\w`, ASCII part. */
  predicate IsWordChar(c: char) { IsLetter(c) || IsDigit(c) || c == '_' }

  /** `str.isspace()` for one character (also what regex `\s` matches). */
  predicate IsSpace(c: char) {
    || c == ' '
    || ('\U{9}' <= c <= '\U{D}')
    || ('\U{1C}' <= c <= '\U{1F}')
    || c == '\U{85}' || c == '\U{A0}' || c == '\U{1680}'
    || ('\U{2000}' <= c <= '\U{200A}')
    || c == '\U{2028}' || c == '\U{2029}' || c == '\U{202F}' || c == '\U{205F}' || c == '\U{3000}'
  }

  /** The characters at which `str.splitlines()` ends a line. */
  predicate IsLineBreak(c: char) {
    || ('\U{A}' <= c <= '\U{D}')
    || ('\U{1C}' <= c <= '\U{1E}')
    || c == '\U{85}' || c == '\U{2028}' || c == '\U{2029}'
  }

  predicate AllSpace(s: string) { forall i :: 0 <= i < |s| ==> IsSpace(s[i]) }

  /** A non-empty run of digits: what `^\d+$` accepts. */
  predicate IsDigits(s: string) { |s| > 0 && forall i :: 0 <= i < |s| ==> IsDigit(s[i]) }

  predicate NoChar(s: string, c: char) { forall i :: 0 <= i < |s| ==> s[i] != c }

  // ---------------------------------------------------------------------------
  // strip / lower
  // ---------------------------------------------------------------------------

  /** The number of whitespace characters `s` starts with. */
  function LeadingSpaces(s: string): (k: nat)
    ensures k <= |s|
    ensures forall i :: 0 <= i < k ==> IsSpace(s[i])
    ensures k < |s| ==> !IsSpace(s[k])
    decreases |s|
  {
    if s != [] && IsSpace(s[0]) then 1 + LeadingSpaces(s[1..]) else 0
  }

  /** The number of whitespace characters `s` ends with. */
  function TrailingSpaces(s: string): (k: nat)
    ensures k <= |s|
    ensures forall i :: |s| - k <= i < |s| ==> IsSpace(s[i])
    ensures k < |s| ==> !IsSpace(s[|s| - 1 - k])
    decreases |s|
  {
    if s != [] && IsSpace(s[|s| - 1]) then 1 + TrailingSpaces(s[..|s| - 1]) else 0
  }

  /** A leading run is determined by where it stops. */
  lemma LeadingUnique(s: string, j: nat)
    requires j <= |s| && (forall i :: 0 <= i < j ==> IsSpace(s[i])) && (j < |s| ==> !IsSpace(s[j]))
    ensures LeadingSpaces(s) == j
  {
  }

  lemma TrailingUnique(s: string, j: nat)
    requires j <= |s| && (forall i :: |s| - j <= i < |s| ==> IsSpace(s[i])) && (j < |s| ==> !IsSpace(s[|s| - 1 - j]))
    ensures TrailingSpaces(s) == j
  {
  }

  /** `str.lstrip()`. */
  function LStrip(s: string): string { s[LeadingSpaces(s)..] }

  /** `str.rstrip()`. */
  function RStrip(s: string): string { s[..|s| - TrailingSpaces(s)] }

  /** `str.strip()`: no whitespace is left at either end. */
  function Strip(s: string): (r: string)
    ensures |r| <= |s|
    ensures r == [] || (!IsSpace(r[0]) && !IsSpace(r[|r| - 1]))
  {
    RStrip(LStrip(s))
  }

  lemma StripNoEdges(s: string)
    requires s == [] || (!IsSpace(s[0]) && !IsSpace(s[|s| - 1]))
    ensures Strip(s) == s
  {
    if s != [] {
      LeadingUnique(s, 0);
      assert LStrip(s) == s;
      TrailingUnique(s, 0);
    }
  }

  lemma StripIdempotent(s: string)
    ensures Strip(Strip(s)) == Strip(s)
  {
    StripNoEdges(Strip(s));
  }

  lemma LStripSpaces(w: string, s: string)
    requires AllSpace(w)
    ensures LStrip(w + s) == LStrip(s)
  {
    var k := LeadingSpaces(s);
    LeadingUnique(w + s, |w| + k);
    assert (w + s)[|w| + k..] == s[k..];
  }

  lemma RStripSpaces(s: string, w: string)
    requires AllSpace(w)
    ensures RStrip(s + w) == RStrip(s)
  {
    var k := TrailingSpaces(s);
    TrailingUnique(s + w, |w| + k);
    assert (s + w)[..|s + w| - (|w| + k)] == s[..|s| - k];
  }

  lemma LStripAppend(a: string, b: string)
    ensures LStrip(a) != [] ==> LStrip(a + b) == LStrip(a) + b
    ensures LStrip(a) == [] && AllSpace(b) ==> LStrip(a + b) == []
  {
    var k := LeadingSpaces(a);
    if k < |a| {
      LeadingUnique(a + b, k);
      assert (a + b)[k..] == a[k..] + b;
    } else if AllSpace(b) {
      LeadingUnique(a + b, |a + b|);
    }
  }

  /** Surrounding whitespace never changes what `strip()` returns. */
  lemma StripPadding(w1: string, s: string, w2: string)
    requires AllSpace(w1) && AllSpace(w2)
    ensures Strip(w1 + s + w2) == Strip(s)
  {
    assert w1 + s + w2 == w1 + (s + w2);
    LStripSpaces(w1, s + w2);
    LStripAppend(s, w2);
    if LStrip(s) != [] {
      RStripSpaces(LStrip(s), w2);
    }
  }

  function LowerChar(c: char): char {
    if IsUpper(c) then (c as int + 32) as char else c
  }

  /** `str.lower()` on the ASCII letters. */
  function Lower(s: string): (r: string)
    ensures |r| == |s|
    ensures forall i :: 0 <= i < |s| ==> r[i] == LowerChar(s[i])
  {
    seq(|s|, i requires 0 <= i < |s| => LowerChar(s[i]))
  }

  lemma LowerNoUpper(s: string)
    requires forall i :: 0 <= i < |s| ==> !IsUpper(s[i])
    ensures Lower(s) == s
  {
  }

  // ---------------------------------------------------------------------------
  // Numbers
  // ---------------------------------------------------------------------------

  function DigitValue(c: char): nat { if IsDigit(c) then c as int - '0' as int else 0 }

  function DigitChar(d: nat): char
    requires d < 10
  {
    ('0' as int + d) as char
  }

  /** The value of a digit string, read most significant digit first. */
  function DigitsValue(s: string): nat
    decreases |s|
  {
    if s == [] then 0 else DigitsValue(s[..|s| - 1]) * 10 + DigitValue(s[|s| - 1])
  }

  /** Decimal rendering of a natural number, as `str(n)` / `f"{n}"`. */
  function NatToString(n: nat): (r: string)
    ensures IsDigits(r)
    ensures r[0] == '0' ==> n == 0
    decreases n
  {
    if n < 10 then [DigitChar(n)] else NatToString(n / 10) + [DigitChar(n % 10)]
  }

  /** `f"{i}"` for any integer. */
  function IntToString(i: int): string {
    if i < 0 then "-" + NatToString(-i) else NatToString(i)
  }

  lemma {:induction false} NatToStringValue(n: nat)
    ensures DigitsValue(NatToString(n)) == n
    decreases n
  {
    if n >= 10 {
      var a := NatToString(n / 10);
      assert (a + [DigitChar(n % 10)])[..|a|] == a;
      NatToStringValue(n / 10);
    }
  }

  lemma {:induction false} DigitsValueBound(s: string)
    ensures |s| <= 2 ==> DigitsValue(s) < 100
    ensures |s| <= 1 ==> DigitsValue(s) < 10
  {
    if |s| == 1 {
      assert DigitsValue(s) == DigitsValue([]) * 10 + DigitValue(s[0]);
    } else if |s| == 2 {
      assert DigitsValue(s[..1]) == DigitsValue([]) * 10 + DigitValue(s[0]);
      assert DigitsValue(s) == DigitsValue(s[..1]) * 10 + DigitValue(s[1]);
    }
  }

  /** Digits with single underscores between them, as `int()` accepts. */
  predicate IsPyDigits(s: string) {
    && |s| > 0 && IsDigit(s[0]) && IsDigit(s[|s| - 1])
    && forall i :: 0 <= i < |s| ==> IsDigit(s[i]) || (s[i] == '_' && i + 1 < |s| && IsDigit(s[i + 1]))
  }

  function DropUnderscores(s: string): (r: string)
    ensures |r| <= |s|
    decreases |s|
  {
    if s == [] then [] else (if s[0] == '_' then [] else [s[0]]) + DropUnderscores(s[1..])
  }

  /** `int(s)` for a `str` argument: `None` where Python raises `ValueError`. */
  function PyInt(s: string): Option<int> {
    var t := Strip(s);
    if t != [] && (t[0] == '+' || t[0] == '-') then
      if IsPyDigits(t[1..]) then
        var v: int := DigitsValue(DropUnderscores(t[1..]));
        Some(if t[0] == '-' then -v else v)
      else None
    else if IsPyDigits(t) then Some(DigitsValue(DropUnderscores(t)))
    else None
  }

  lemma {:induction false} DropUnderscoresNone(s: string)
    requires NoChar(s, '_')
    ensures DropUnderscores(s) == s
    decreases |s|
  {
    if s != [] {
      DropUnderscoresNone(s[1..]);
    }
  }

  lemma PyIntOfDigits(s: string)
    requires IsDigits(s)
    ensures PyInt(s) == Some(DigitsValue(s))
  {
    StripNoEdges(s);
    assert !(s[0] == '+' || s[0] == '-');
    assert IsPyDigits(s);
    DropUnderscoresNone(s);
  }

  // ---------------------------------------------------------------------------
  // Searching and splitting
  // ---------------------------------------------------------------------------

  /** The `in` operator on strings: `sub` occurs somewhere in `s`. */
  predicate Contains(s: string, sub: string)
    decreases |s|
  {
    sub <= s || (s != [] && Contains(s[1..], sub))
  }

  /** A text contains every slice of it. */
  lemma {:induction false} ContainsAt(s: string, sub: string, i: nat)
    requires i + |sub| <= |s| && s[i..i + |sub|] == sub
    ensures Contains(s, sub)
    decreases i
  {
    if i == 0 {
      assert s[..|sub|] == sub;
    } else {
      assert s[1..][i - 1..i - 1 + |sub|] == s[i..i + |sub|];
      ContainsAt(s[1..], sub, i - 1);
    }
  }

  /** First index of `c` in `s`, or `|s|` when it does not occur. */
  function IndexOf(s: string, c: char): (i: nat)
    ensures i <= |s|
    ensures forall j :: 0 <= j < i ==> s[j] != c
    ensures i < |s| ==> s[i] == c
    decreases |s|
  {
    if s == [] then 0 else if s[0] == c then 0 else 1 + IndexOf(s[1..], c)
  }

  /** Number of leading digits. */
  function DigitRun(s: string): (n: nat)
    ensures n <= |s|
    ensures forall i :: 0 <= i < n ==> IsDigit(s[i])
    ensures n < |s| ==> !IsDigit(s[n])
    decreases |s|
  {
    if s != [] && IsDigit(s[0]) then 1 + DigitRun(s[1..]) else 0
  }

  /** First index at or after `i` holding `c`, or `|s|` when there is none. */
  function IndexFrom(s: string, i: nat, c: char): (n: nat)
    requires i <= |s|
    ensures i <= n <= |s|
    ensures forall m :: i <= m < n ==> s[m] != c
    ensures n < |s| ==> s[n] == c
    decreases |s| - i
  {
    if i < |s| && s[i] != c then IndexFrom(s, i + 1, c) else i
  }

  /** Where the whitespace starting at index `i` ends. */
  function SpaceEnd(s: string, i: nat): (n: nat)
    requires i <= |s|
    ensures i <= n <= |s|
    ensures forall m :: i <= m < n ==> IsSpace(s[m])
    ensures n < |s| ==> !IsSpace(s[n])
    decreases |s| - i
  {
    if i < |s| && IsSpace(s[i]) then SpaceEnd(s, i + 1) else i
  }

  /** Number of leading `\w` characters. */
  function WordRun(s: string): (n: nat)
    ensures n <= |s|
    ensures forall i :: 0 <= i < n ==> IsWordChar(s[i])
    ensures n < |s| ==> !IsWordChar(s[n])
    decreases |s|
  {
    if s != [] && IsWordChar(s[0]) then 1 + WordRun(s[1..]) else 0
  }

  /** A digit run is determined by where it stops. */
  lemma DigitRunAt(s: string, j: nat)
    requires j < |s| && !IsDigit(s[j]) && forall i :: 0 <= i < j ==> IsDigit(s[i])
    ensures DigitRun(s) == j
  {
  }

  lemma WordRunAt(s: string, j: nat)
    requires j <= |s| && (j == |s| || !IsWordChar(s[j])) && forall i :: 0 <= i < j ==> IsWordChar(s[i])
    ensures WordRun(s) == j
  {
  }

  lemma {:induction false} IndexFromAt(s: string, i: nat, c: char, n: nat)
    requires i <= n < |s| && s[n] == c && forall m :: i <= m < n ==> s[m] != c
    ensures IndexFrom(s, i, c) == n
    decreases n - i
  {
    if i < n {
      IndexFromAt(s, i + 1, c, n);
    }
  }

  lemma {:induction false} SpaceEndAt(s: string, i: nat, n: nat)
    requires i <= n <= |s| && (n == |s| || !IsSpace(s[n])) && forall m :: i <= m < n ==> IsSpace(s[m])
    ensures SpaceEnd(s, i) == n
    decreases n - i
  {
    if i < n {
      SpaceEndAt(s, i + 1, n);
    }
  }

  lemma {:induction false} DigitRunConcat(a: string, b: string)
    requires forall i :: 0 <= i < |a| ==> IsDigit(a[i])
    requires b == [] || !IsDigit(b[0])
    ensures DigitRun(a + b) == |a|
    decreases |a|
  {
    if a == [] {
      assert a + b == b;
    } else {
      assert (a + b)[1..] == a[1..] + b;
      DigitRunConcat(a[1..], b);
    }
  }

  /** `s.split(sep)` with a one-character separator: never an empty list. */
  function Split(s: string, sep: char): (r: seq<string>)
    ensures |r| >= 1
    decreases |s|
  {
    var i := IndexOf(s, sep);
    if i == |s| then [s] else [s[..i]] + Split(s[i + 1..], sep)
  }

  function Join(parts: seq<string>, sep: string): string
    decreases |parts|
  {
    if parts == [] then [] else if |parts| == 1 then parts[0] else parts[0] + sep + Join(parts[1..], sep)
  }

  lemma {:induction false} SplitJoin(parts: seq<string>, sep: char)
    requires |parts| >= 1
    requires forall k :: 0 <= k < |parts| ==> NoChar(parts[k], sep)
    ensures Split(Join(parts, [sep]), sep) == parts
    decreases |parts|
  {
    var p := parts[0];
    if |parts| == 1 {
      assert IndexOf(p, sep) == |p|;
    } else {
      var rest := Join(parts[1..], [sep]);
      var s := p + [sep] + rest;
      assert IndexOf(s, sep) == |p| by {
        assert s[|p|] == sep;
        assert forall j :: 0 <= j < |p| ==> s[j] == p[j];
      }
      assert s[..|p|] == p;
      assert s[|p| + 1..] == rest;
      SplitJoin(parts[1..], sep);
    }
  }

  /** Joining the fields of a split gives the text back. */
  lemma {:induction false} JoinSplit(s: string, sep: char)
    ensures Join(Split(s, sep), [sep]) == s
    decreases |s|
  {
    var i := IndexOf(s, sep);
    if i < |s| {
      var tail := s[i + 1..];
      var rest := Split(tail, sep);
      var parts := [s[..i]] + rest;
      JoinSplit(tail, sep);
      assert Split(s, sep) == parts;
      assert |parts| > 1 && parts[0] == s[..i] && parts[1..] == rest;
      assert Join(parts, [sep]) == s[..i] + [sep] + Join(rest, [sep]);
      assert s == s[..i] + [sep] + tail;
    }
  }

  lemma JoinTwo(a: string, b: string, sep: string)
    ensures Join([a, b], sep) == a + sep + b
  {
    assert [a, b][1..] == [b];
  }

  lemma JoinThree(a: string, b: string, c: string, sep: string)
    ensures Join([a, b, c], sep) == a + sep + b + sep + c
  {
    assert [a, b, c][1..] == [b, c];
    JoinTwo(b, c, sep);
  }

  /** A text without the separator splits into itself alone. */
  lemma SplitAbsent(s: string, sep: char)
    requires NoChar(s, sep)
    ensures Split(s, sep) == [s]
  {
    assert IndexOf(s, sep) == |s|;
  }

  /** First index of a line boundary, or `|s|`. */
  function IndexOfBreak(s: string): (i: nat)
    ensures i <= |s|
    ensures forall j :: 0 <= j < i ==> !IsLineBreak(s[j])
    ensures i < |s| ==> IsLineBreak(s[i])
    decreases |s|
  {
    if s == [] then 0 else if IsLineBreak(s[0]) then 0 else 1 + IndexOfBreak(s[1..])
  }

  /**
   * `s.splitlines()`: lines without their terminators; `\r\n` is one
   * terminator; a final terminator does not start an empty last line.
   */
  function SplitLines(s: string): seq<string>
    decreases |s|
  {
    if s == [] then []
    else
      var i := IndexOfBreak(s);
      if i == |s| then [s]
      else
        var next := if s[i] == '\r' && i + 1 < |s| && s[i + 1] == '\n' then i + 2 else i + 1;
        [s[..i]] + SplitLines(s[next..])
  }

  predicate NoLineBreak(s: string) { forall i :: 0 <= i < |s| ==> !IsLineBreak(s[i]) }

  lemma {:induction false} SplitLinesJoin(lines: seq<string>)
    requires forall k :: 0 <= k < |lines| ==> lines[k] != [] && NoLineBreak(lines[k])
    ensures SplitLines(Join(lines, "\n")) == lines
    decreases |lines|
  {
    if |lines| == 1 {
      assert IndexOfBreak(lines[0]) == |lines[0]|;
    } else if |lines| > 1 {
      var p := lines[0];
      var rest := Join(lines[1..], "\n");
      var s := p + "\n" + rest;
      assert IndexOfBreak(s) == |p| by {
        assert s[|p|] == '\n';
        assert forall j :: 0 <= j < |p| ==> s[j] == p[j];
      }
      assert s[..|p|] == p;
      assert s[|p| + 1..] == rest;
      SplitLinesJoin(lines[1..]);
    }
  }

  /** First index of a whitespace character, or `|s|`. */
  function IndexOfSpace(s: string): (i: nat)
    ensures i <= |s|
    ensures forall j :: 0 <= j < i ==> !IsSpace(s[j])
    ensures i < |s| ==> IsSpace(s[i])
    decreases |s|
  {
    if s == [] then 0 else if IsSpace(s[0]) then 0 else 1 + IndexOfSpace(s[1..])
  }

  /** `s.split()`: the maximal runs of non-whitespace, in order. */
  function SplitWs(s: string): (r: seq<string>)
    decreases |s|
  {
    var t := LStrip(s);
    if t == [] then []
    else
      var i := IndexOfSpace(t);
      [t[..i]] + SplitWs(t[i..])
  }

  predicate NoSpace(s: string) { forall i :: 0 <= i < |s| ==> !IsSpace(s[i]) }

  lemma SplitWsLeadingSpace(rest: string)
    ensures SplitWs(" " + rest) == SplitWs(rest)
  {
    assert (" " + rest)[1..] == rest;
    assert LStrip(" " + rest) == LStrip(rest);
  }

  lemma SplitWsCons(f: string, rest: string)
    requires f != [] && NoSpace(f)
    requires rest == [] || IsSpace(rest[0])
    ensures SplitWs(f + rest) == [f] + SplitWs(rest)
  {
    var s := f + rest;
    assert LStrip(s) == s;
    assert IndexOfSpace(s) == |f| by {
      assert forall j :: 0 <= j < |f| ==> s[j] == f[j];
      assert |f| < |s| ==> s[|f|] == rest[0];
    }
    assert s[..|f|] == f;
    assert s[|f|..] == rest;
  }

  lemma SplitWsStep(f: string, rest: string)
    requires f != [] && NoSpace(f)
    ensures SplitWs(f + " " + rest) == [f] + SplitWs(rest)
  {
    assert f + " " + rest == f + (" " + rest);
    SplitWsCons(f, " " + rest);
    SplitWsLeadingSpace(rest);
  }

  lemma {:induction false} SplitWsJoin(fields: seq<string>)
    requires forall k :: 0 <= k < |fields| ==> fields[k] != [] && NoSpace(fields[k])
    ensures SplitWs(Join(fields, " ")) == fields
    decreases |fields|
  {
    if |fields| == 1 {
      SplitWsCons(fields[0], []);
      assert fields[0] + [] == fields[0];
    } else if |fields| > 1 {
      SplitWsJoin(fields[1..]);
      SplitWsStep(fields[0], Join(fields[1..], " "));
      assert [fields[0]] + fields[1..] == fields;
    }
  }

  /** `s[:n]`: the first `n` characters, or all of `s` when it is shorter. */
  function Truncate(s: string, n: nat): (r: string)
    ensures |r| <= n && r <= s
    ensures |s| <= n ==> r == s
  {
    if |s| <= n then s else s[..n]
  }
}
