/**
 * The input checks of lip6tui/validators.py. Each one strips its argument
 * and then asks that the whole remaining text match one pattern; the client
 * runs them before any value is put into a remote command line.
 */
module Validators {
  import opened Wrappers
  import opened Text
  import opened Duration
  import opened DurationFacts

  /** The class `[a-zA-Z0-9_.-]`. */
  predicate IsNameChar(c: char) { IsLetter(c) || IsDigit(c) || c == '_' || c == '.' || c == '-' }

  /** The class `[a-zA-Z0-9_.~/ -]`. */
  predicate IsPathChar(c: char) { IsNameChar(c) || c == '~' || c == '/' || c == ' ' }

  /** `is_int`: `^\d+$` on the stripped value. */
  predicate IsInt(v: string) { IsDigits(Strip(v)) }

  /** `is_name`: `^[a-zA-Z0-9_.-]+$` on the stripped value. */
  predicate IsName(v: string) {
    var t := Strip(v);
    |t| > 0 && forall i :: 0 <= i < |t| ==> IsNameChar(t[i])
  }

  /** `is_path`: `^[a-zA-Z0-9_.~/ -]+$` on the stripped value. */
  predicate IsPath(v: string) {
    var t := Strip(v);
    |t| > 0 && forall i :: 0 <= i < |t| ==> IsPathChar(t[i])
  }

  /** `is_walltime`: `^\d+:\d+:\d+$` on the stripped value. */
  predicate IsWalltime(v: string) { IsClock(Strip(v)) }

  /**
   * The characters this model counts as special to a POSIX shell in an
   * unquoted word: operators, quotes, escapes, expansions, glob and comment
   * characters, the blanks that split words, and `~`, which is expanded at
   * the start of a word.
   */
  predicate IsShellMeta(c: char) {
    c == ';' || c == '&' || c == '|' || c == '$' || c == '`' || c == '\'' || c == '"'
    || c == '\\' || c == '<' || c == '>' || c == '(' || c == ')' || c == '*' || c == '?'
    || c == '[' || c == ']' || c == '{' || c == '}' || c == '!' || c == '#' || c == '\n'
    || c == ' ' || c == '\t' || c == '~'
  }

  /** The classes are nested: every integer is a name and every name a path. */
  lemma IntIsName(v: string)
    requires IsInt(v)
    ensures IsName(v) && IsPath(v)
  {
  }

  lemma NameIsPath(v: string)
    requires IsName(v)
    ensures IsPath(v)
  {
  }

  /**
   * A name carries none of the characters `IsShellMeta` lists. A path may
   * carry two of them, the blank and `~`, and no other.
   */
  lemma AcceptedIsInert(v: string)
    requires IsName(v) || IsPath(v)
    ensures IsName(v) ==> forall i :: 0 <= i < |Strip(v)| ==> !IsShellMeta(Strip(v)[i])
    ensures forall i :: 0 <= i < |Strip(v)| && IsShellMeta(Strip(v)[i]) ==> Strip(v)[i] == ' ' || Strip(v)[i] == '~'
  {
  }

  /** `is_path` does let a blank and a `~` through, as in `~/my job.sh`. */
  lemma PathMayHoldBlankAndTilde()
    ensures IsPath("~/my job.sh") && IsShellMeta(' ') && IsShellMeta('~')
  {
    var t := "~/my job.sh";
    assert !IsSpace(t[0]) && !IsSpace(t[|t| - 1]);
    StripNoEdges(t);
  }

  /** A name has no blank inside it either, so it is one shell word. */
  lemma NameIsOneWord(v: string)
    requires IsName(v)
    ensures NoSpace(Strip(v))
  {
  }

  /** Surrounding whitespace never changes a verdict. */
  lemma ChecksIgnorePadding(w1: string, v: string, w2: string)
    requires AllSpace(w1) && AllSpace(w2)
    ensures IsInt(w1 + v + w2) == IsInt(v)
    ensures IsName(w1 + v + w2) == IsName(v)
    ensures IsPath(w1 + v + w2) == IsPath(v)
    ensures IsWalltime(w1 + v + w2) == IsWalltime(v)
  {
    StripPadding(w1, v, w2);
  }

  /** Blank input fails every check. */
  lemma BlankFailsAll(w: string)
    requires AllSpace(w)
    ensures !IsInt(w) && !IsName(w) && !IsPath(w) && !IsWalltime(w)
  {
    StripPadding(w, [], []);
    assert w + [] + [] == w;
  }

  /** A value `is_int` accepts is read by `int()` as its digits. */
  lemma IntValue(v: string)
    requires IsInt(v)
    ensures PyInt(v) == Some(DigitsValue(Strip(v)))
  {
    var t := Strip(v);
    PyIntOfDigits(t);
    StripIdempotent(v);
  }

  /** A value `is_int` accepts is read by the duration parser as hours. */
  lemma IntReadsAsHours(v: string)
    requires IsInt(v)
    ensures DurationMinutes(v) == Some(DigitsValue(Strip(v)) * MinutesPerHour)
  {
    var t := Strip(v);
    DigitsClean(t);
    StripFirst(v);
    HoursRead(t, DigitsValue(t) * MinutesPerHour);
  }

  /** A value `is_walltime` accepts is read by the duration parser as its clock. */
  lemma WalltimeParses(v: string)
    requires IsWalltime(v)
    ensures DurationMinutes(v) == Some(ClockMinutes(Strip(v)))
  {
    StripFirst(v);
    ClockReadsBack(Strip(v));
  }

  /** Every OAR walltime the client renders passes `is_walltime`. */
  lemma HmsIsWalltime(n: nat)
    ensures IsWalltime(MinutesToHms(n))
    ensures ClockMinutes(Strip(MinutesToHms(n))) == n
  {
    var a := NatToString(n / 60);
    var b := NatToString(n % 60);
    NatToStringValue(n / 60);
    NatToStringValue(n % 60);
    assert MinutesToHms(n) == ClockText(a, b, "0");
    ClockShape(a, b, "0");
    StripNoEdges(ClockText(a, b, "0"));
  }
}
