/**
 * Properties of the duration codec: what each rendering looks like, and that
 * every rendering reads back as the minutes it was made from.
 */
module DurationFacts {
  import opened Wrappers
  import opened Text
  import opened Duration

  // ---------------------------------------------------------------------------
  // Normal form of the text the parser works on
  // ---------------------------------------------------------------------------

  predicate NoUpper(s: string) { forall i :: 0 <= i < |s| ==> !IsUpper(s[i]) }

  lemma NoUpperAppend(a: string, b: string)
    requires NoUpper(a) && NoUpper(b)
    ensures NoUpper(a + b)
  {
  }

  /** Digits contain no upper-case letter and none of the separators. */
  lemma DigitsClean(s: string)
    requires IsDigits(s)
    ensures NoUpper(s) && NoChar(s, ':') && NoChar(s, '-') && NoSpace(s)
  {
  }

  /** Text that `strip()` and `lower()` leave as it is. */
  predicate Normal(t: string) {
    t != [] && !IsSpace(t[0]) && !IsSpace(t[|t| - 1]) && NoUpper(t)
  }

  lemma Normalised(t: string)
    requires Normal(t)
    ensures Strip(t) == t && Lower(t) == t
  {
    StripNoEdges(t);
    LowerNoUpper(t);
  }

  /** The four outcomes of the parser on text in normal form. */
  lemma ClockRead(t: string, v: nat)
    requires Normal(t) && IsClock(t) && ClockMinutes(t) == v
    ensures DurationMinutes(t) == Some(v)
  {
    Normalised(t);
    InterpretClock(t, v);
  }

  lemma TokensRead(t: string, v: nat)
    requires Normal(t) && NoChar(t, ':') && UnitTokens(t) != [] && TotalMinutes(UnitTokens(t)) == v
    ensures DurationMinutes(t) == Some(v)
  {
    Normalised(t);
    SplitAbsent(t, ':');
    InterpretTokens(t, v);
  }

  lemma HoursRead(t: string, v: nat)
    requires Normal(t) && IsDigits(t) && DigitsValue(t) * MinutesPerHour == v
    ensures DurationMinutes(t) == Some(v)
  {
    Normalised(t);
    DigitsClean(t);
    SplitAbsent(t, ':');
    NoUnitTokens(t);
    InterpretHours(t, v);
  }

  lemma RejectRead(t: string)
    requires Normal(t) && !IsClock(t) && UnitTokens(t) == [] && !IsDigits(t)
    ensures DurationMinutes(t) == None
  {
    Normalised(t);
  }

  /** Text without a unit letter holds no unit token. */
  lemma {:induction false} NoUnitTokens(t: string)
    requires forall i :: 0 <= i < |t| ==> !IsUnit(t[i])
    ensures UnitTokens(t) == []
    decreases |t|
  {
    if t != [] {
      NoUnitTokens(t[1..]);
    }
  }

  // ---------------------------------------------------------------------------
  // The scanner on rendered text
  // ---------------------------------------------------------------------------

  function Render(t: UnitToken): string { t.digits + [t.unit] }

  predicate Canonical(ts: seq<UnitToken>) {
    forall k :: 0 <= k < |ts| ==> IsDigits(ts[k].digits) && IsUnit(ts[k].unit)
  }

  function RenderAll(ts: seq<UnitToken>): (r: seq<string>)
    ensures |r| == |ts|
    ensures forall k :: 0 <= k < |ts| ==> r[k] == Render(ts[k])
  {
    if ts == [] then [] else [Render(ts[0])] + RenderAll(ts[1..])
  }

  lemma UnitTokensCons(t: UnitToken, rest: string)
    requires IsDigits(t.digits) && IsUnit(t.unit)
    ensures UnitTokens(Render(t) + rest) == [t] + UnitTokens(rest)
  {
    var s := Render(t) + rest;
    var j := |t.digits|;
    assert s[j] == t.unit;
    assert forall i :: 0 <= i < j ==> s[i] == t.digits[i];
    UnitTokensAt(s, j);
    assert s[..j] == t.digits;
    assert s[j + 1..] == rest;
  }

  lemma UnitTokensSpace(rest: string)
    ensures UnitTokens(" " + rest) == UnitTokens(rest)
  {
    assert (" " + rest)[1..] == rest;
    assert DigitRun(" " + rest) == 0;
  }

  lemma {:induction false} UnitTokensOfRendering(ts: seq<UnitToken>)
    requires |ts| >= 1 && Canonical(ts)
    ensures UnitTokens(Join(RenderAll(ts), " ")) == ts
    decreases |ts|
  {
    var r := RenderAll(ts);
    if |ts| == 1 {
      UnitTokensCons(ts[0], []);
      assert Render(ts[0]) + [] == Render(ts[0]);
    } else {
      var rest := Join(RenderAll(ts[1..]), " ");
      assert r[1..] == RenderAll(ts[1..]);
      assert Join(r, " ") == Render(ts[0]) + (" " + rest);
      UnitTokensCons(ts[0], " " + rest);
      UnitTokensSpace(rest);
      UnitTokensOfRendering(ts[1..]);
      assert [ts[0]] + ts[1..] == ts;
    }
  }

  /** Rendered tokens start with a digit, end with a unit and hold only digits, units and blanks. */
  predicate HumanText(s: string) {
    forall i :: 0 <= i < |s| ==> IsDigit(s[i]) || IsUnit(s[i]) || s[i] == ' '
  }

  lemma {:induction false} JoinShape(ts: seq<UnitToken>)
    requires |ts| >= 1 && Canonical(ts)
    ensures |Join(RenderAll(ts), " ")| > 0
    ensures IsDigit(Join(RenderAll(ts), " ")[0])
    ensures IsUnit(Join(RenderAll(ts), " ")[|Join(RenderAll(ts), " ")| - 1])
    ensures HumanText(Join(RenderAll(ts), " "))
    decreases |ts|
  {
    var r := RenderAll(ts);
    var head := Render(ts[0]);
    assert HumanText(head);
    if |ts| > 1 {
      JoinShape(ts[1..]);
      assert r[1..] == RenderAll(ts[1..]);
      var rest := Join(RenderAll(ts[1..]), " ");
      assert Join(r, " ") == head + (" " + rest);
      assert HumanText(" " + rest);
    }
  }

  lemma HumanTextNormal(s: string)
    requires |s| > 0 && IsDigit(s[0]) && IsUnit(s[|s| - 1]) && HumanText(s)
    ensures Normal(s) && NoChar(s, ':')
  {
  }

  lemma {:induction false} TotalMinutesAppend(ts: seq<UnitToken>, t: UnitToken)
    ensures TotalMinutes(ts + [t]) == TotalMinutes(ts) + TokenMinutes(t)
  {
    assert (ts + [t])[..|ts|] == ts;
  }

  lemma RenderingReads(ts: seq<UnitToken>, v: nat)
    requires |ts| >= 1 && Canonical(ts) && TotalMinutes(ts) == v
    ensures DurationMinutes(Join(RenderAll(ts), " ")) == Some(v)
  {
    JoinShape(ts);
    HumanTextNormal(Join(RenderAll(ts), " "));
    UnitTokensOfRendering(ts);
    TokensRead(Join(RenderAll(ts), " "), v);
  }

  /** A text written as unit tokens parses back to the sum of its tokens. */
  lemma DurationOfRendering(ts: seq<UnitToken>)
    requires |ts| >= 1 && Canonical(ts)
    ensures DurationMinutes(Join(RenderAll(ts), " ")) == Some(TotalMinutes(ts))
  {
    RenderingReads(ts, TotalMinutes(ts));
  }

  // ---------------------------------------------------------------------------
  // Properties of the codec
  // ---------------------------------------------------------------------------

  /** Empty or whitespace-only text is rejected. */
  lemma BlankIsInvalid(w: string)
    requires AllSpace(w)
    ensures DurationMinutes(w) == None
  {
    StripPadding(w, [], []);
    assert w + [] + [] == w;
  }

  /** Surrounding whitespace does not change what a duration text means. */
  lemma PaddingIsIgnored(w1: string, text: string, w2: string)
    requires AllSpace(w1) && AllSpace(w2)
    ensures DurationMinutes(w1 + text + w2) == DurationMinutes(text)
  {
    StripPadding(w1, text, w2);
  }

  function ClockText(a: string, b: string, c: string): string { a + ":" + b + ":" + c }

  /** Three colon-free fields joined by colons split back into those fields. */
  lemma ClockSplit(a: string, b: string, c: string)
    requires NoChar(a, ':') && NoChar(b, ':') && NoChar(c, ':')
    ensures Split(ClockText(a, b, c), ':') == [a, b, c]
  {
    JoinThree(a, b, c, ":");
    assert forall k :: 0 <= k < 3 ==> NoChar([a, b, c][k], ':');
    SplitJoin([a, b, c], ':');
  }

  lemma ClockShape(a: string, b: string, c: string)
    requires IsDigits(a) && IsDigits(b) && IsDigits(c)
    ensures Normal(ClockText(a, b, c)) && IsClock(ClockText(a, b, c))
    ensures ClockMinutes(ClockText(a, b, c)) == DigitsValue(a) * 60 + DigitsValue(b)
  {
    var t := a + ":" + b + ":" + c;
    DigitsClean(a);
    DigitsClean(b);
    DigitsClean(c);
    ClockSplit(a, b, c);
    NoUpperAppend(a, ":");
    NoUpperAppend(a + ":", b);
    NoUpperAppend(a + ":" + b, ":");
    NoUpperAppend(a + ":" + b + ":", c);
    assert t[0] == a[0];
    assert t[|t| - 1] == c[|c| - 1];
  }

  /**
   * The clock form `H:M:S` counts hours and minutes and ignores the seconds
   * field; leading zeros are allowed in every field.
   */
  lemma ClockDigits(a: string, b: string, c: string, v: nat)
    requires IsDigits(a) && IsDigits(b) && IsDigits(c) && v == DigitsValue(a) * 60 + DigitsValue(b)
    ensures DurationMinutes(ClockText(a, b, c)) == Some(v)
  {
    ClockShape(a, b, c);
    ClockRead(ClockText(a, b, c), v);
  }

  /** A clock text is its three fields joined by colons. */
  lemma ClockIsText(t: string)
    requires IsClock(t)
    ensures t == ClockText(Split(t, ':')[0], Split(t, ':')[1], Split(t, ':')[2])
  {
    var p := Split(t, ':');
    JoinSplit(t, ':');
    JoinThree(p[0], p[1], p[2], ":");
    assert p == [p[0], p[1], p[2]];
  }

  /** Every text of the clock form reads as its hours and minutes. */
  lemma ClockReadsBack(t: string)
    requires IsClock(t)
    ensures DurationMinutes(t) == Some(ClockMinutes(t))
  {
    var p := Split(t, ':');
    ClockIsText(t);
    ClockDigits(p[0], p[1], p[2], ClockMinutes(t));
  }

  /** The parser strips its input first. */
  lemma StripFirst(text: string)
    ensures DurationMinutes(Strip(text)) == DurationMinutes(text)
  {
    StripIdempotent(text);
  }

  /** Round trip of the OAR walltime: `parse_to_minutes(minutes_to_hms(n)) == n`. */
  lemma HmsRoundTrip(n: nat)
    ensures DurationMinutes(MinutesToHms(n)) == Some(n)
  {
    NatToStringValue(n / 60);
    NatToStringValue(n % 60);
    assert MinutesToHms(n) == ClockText(NatToString(n / 60), NatToString(n % 60), "0");
    ClockDigits(NatToString(n / 60), NatToString(n % 60), "0", n);
  }

  /**
   * The rendered walltime is an `H:M:S` text whose fields are the hours
   * `n div 60`, the minutes `n mod 60` (below 60) and a zero seconds field,
   * so that together they stand for exactly `n` minutes.
   */
  lemma HmsIsClock(n: nat)
    ensures Split(MinutesToHms(n), ':') == [NatToString(n / 60), NatToString(n % 60), "0"]
    ensures DigitsValue(Split(MinutesToHms(n), ':')[0]) == n / 60
    ensures DigitsValue(Split(MinutesToHms(n), ':')[1]) == n % 60 < 60
    ensures IsClock(MinutesToHms(n)) && ClockMinutes(MinutesToHms(n)) == n
  {
    var a := NatToString(n / 60);
    var b := NatToString(n % 60);
    NatToStringValue(n / 60);
    NatToStringValue(n % 60);
    assert MinutesToHms(n) == ClockText(a, b, "0");
    ClockShape(a, b, "0");
    DigitsClean(a);
    DigitsClean(b);
    ClockSplit(a, b, "0");
  }

  /** A strict SLURM `HH:MM:00`: two-digit fields, hours below 24, zero seconds. */
  predicate IsSlurmClock(s: string) {
    var p := Split(s, ':');
    && |p| == 3 && |p[0]| == 2 && |p[1]| == 2 && IsDigits(p[0]) && IsDigits(p[1]) && p[2] == "00"
    && DigitsValue(p[0]) < 24 && DigitsValue(p[1]) < 60
  }

  function SlurmClockMinutes(s: string): nat
    requires IsSlurmClock(s)
  {
    var p := Split(s, ':');
    DigitsValue(p[0]) * MinutesPerHour + DigitsValue(p[1])
  }

  /** SLURM's `[D-]HH:MM:SS` time limit, read strictly, with a day count of at least one when present. */
  predicate IsSlurmTime(s: string) {
    var q := Split(s, '-');
    || (|q| == 1 && IsSlurmClock(s))
    || (|q| == 2 && IsDigits(q[0]) && DigitsValue(q[0]) >= 1 && IsSlurmClock(q[1]))
  }

  function SlurmTimeMinutes(s: string): nat
    requires IsSlurmTime(s)
  {
    var q := Split(s, '-');
    if |q| == 1 then SlurmClockMinutes(s) else DigitsValue(q[0]) * MinutesPerDay + SlurmClockMinutes(q[1])
  }

  lemma Pad2Digits(x: nat)
    requires x < 100
    ensures |Pad2(x)| == 2 && IsDigits(Pad2(x)) && DigitsValue(Pad2(x)) == x
  {
    NatToStringValue(x);
    if x < 10 {
      assert NatToString(x) == [DigitChar(x)];
      assert Pad2(x) == ['0', DigitChar(x)];
      assert Pad2(x)[..1] == ['0'];
    } else {
      assert NatToString(x) == NatToString(x / 10) + [DigitChar(x % 10)];
      assert NatToString(x / 10) == [DigitChar(x / 10)];
    }
  }

  lemma SlurmClockText(a: string, b: string)
    requires |a| == 2 && |b| == 2 && IsDigits(a) && IsDigits(b)
    requires DigitsValue(a) < 24 && DigitsValue(b) < 60
    ensures IsSlurmClock(ClockText(a, b, "00"))
    ensures SlurmClockMinutes(ClockText(a, b, "00")) == DigitsValue(a) * 60 + DigitsValue(b)
    ensures NoChar(ClockText(a, b, "00"), '-')
  {
    DigitsClean(a);
    DigitsClean(b);
    ClockSplit(a, b, "00");
    ClockNoDash(a, b);
  }

  lemma ClockNoDash(a: string, b: string)
    requires NoChar(a, '-') && NoChar(b, '-')
    ensures NoChar(ClockText(a, b, "00"), '-')
  {
    var t := ClockText(a, b, "00");
    forall i | 0 <= i < |t|
      ensures t[i] != '-'
    {
      if i < |a| {
        assert t[i] == a[i];
      } else if |a| + 1 <= i < |a| + 1 + |b| {
        assert t[i] == b[i - |a| - 1];
      }
    }
  }

  lemma SlurmShortForm(n: nat)
    requires n < MinutesPerDay
    ensures IsSlurmTime(MinutesToSlurm(n)) && SlurmTimeMinutes(MinutesToSlurm(n)) == n
    ensures NoChar(MinutesToSlurm(n), '-')
  {
    Pad2Digits(n / 60);
    Pad2Digits(n % 60);
    assert MinutesToSlurm(n) == ClockText(Pad2(n / 60), Pad2(n % 60), "00");
    SlurmClockText(Pad2(n / 60), Pad2(n % 60));
    SplitAbsent(MinutesToSlurm(n), '-');
  }

  lemma DayClock(ds: string, clock: string)
    requires IsDigits(ds) && DigitsValue(ds) >= 1
    requires NoChar(clock, '-') && IsSlurmClock(clock)
    ensures IsSlurmTime(ds + "-" + clock)
    ensures SlurmTimeMinutes(ds + "-" + clock) == DigitsValue(ds) * MinutesPerDay + SlurmClockMinutes(clock)
    ensures !NoChar(ds + "-" + clock, '-')
  {
    JoinTwo(ds, clock, "-");
    DigitsClean(ds);
    assert forall k :: 0 <= k < 2 ==> NoChar([ds, clock][k], '-');
    SplitJoin([ds, clock], '-');
    assert (ds + "-" + clock)[|ds|] == '-';
  }

  lemma DaySplit(n: nat)
    requires n >= MinutesPerDay
    ensures n == (n / 60 / 24) * 1440 + ((n / 60) % 24) * 60 + n % 60
    ensures n / 60 / 24 >= 1 && (n / 60) % 24 < 24
  {
  }

  lemma DayText(d: nat, hh: nat, m: nat)
    requires d >= 1 && hh < 24 && m < 60
    ensures IsSlurmTime(NatToString(d) + "-" + ClockText(Pad2(hh), Pad2(m), "00"))
    ensures SlurmTimeMinutes(NatToString(d) + "-" + ClockText(Pad2(hh), Pad2(m), "00")) == d * 1440 + hh * 60 + m
    ensures !NoChar(NatToString(d) + "-" + ClockText(Pad2(hh), Pad2(m), "00"), '-')
  {
    Pad2Digits(hh);
    Pad2Digits(m);
    SlurmClockText(Pad2(hh), Pad2(m));
    NatToStringValue(d);
    DayClock(NatToString(d), ClockText(Pad2(hh), Pad2(m), "00"));
  }

  lemma SlurmDayForm(n: nat)
    requires n >= MinutesPerDay
    ensures IsSlurmTime(MinutesToSlurm(n)) && SlurmTimeMinutes(MinutesToSlurm(n)) == n
    ensures !NoChar(MinutesToSlurm(n), '-')
  {
    DaySplit(n);
    DayText(n / 60 / 24, (n / 60) % 24, n % 60);
    SlurmDayText(n);
  }

  lemma SlurmDayText(n: nat)
    requires n >= MinutesPerDay
    ensures MinutesToSlurm(n) == NatToString(n / 60 / 24) + "-" + ClockText(Pad2((n / 60) % 24), Pad2(n % 60), "00")
  {
  }

  /**
   * Round trip of the SLURM time limit: the rendering is in SLURM's strict
   * format (two-digit hours below 24, two-digit minutes, a day prefix exactly
   * when there is a whole day) and reads back as `n`.
   */
  lemma SlurmRoundTrip(n: nat)
    ensures IsSlurmTime(MinutesToSlurm(n)) && SlurmTimeMinutes(MinutesToSlurm(n)) == n
    ensures n < MinutesPerDay <==> NoChar(MinutesToSlurm(n), '-')
  {
    if n < MinutesPerDay {
      SlurmShortForm(n);
    } else {
      SlurmDayForm(n);
    }
  }

  /** One token of the human summary, present only when its value is not zero. */
  function Part(v: nat, unit: char): seq<UnitToken> {
    if v != 0 then [UnitToken(NatToString(v), unit)] else []
  }

  /** The tokens of the human summary: days, hours, minutes. */
  function HumanTokens(n: nat): seq<UnitToken> {
    Part(n / 1440, 'd') + Part((n % 1440) / 60, 'h') + Part(n % 60, 'm')
  }

  function Units(ts: seq<UnitToken>): (r: string)
    ensures |r| == |ts|
    ensures forall k :: 0 <= k < |ts| ==> r[k] == ts[k].unit
  {
    if ts == [] then [] else [ts[0].unit] + Units(ts[1..])
  }

  lemma HumanPartsAreTokens(n: nat)
    ensures HumanParts(n) == RenderAll(HumanTokens(n))
    ensures Canonical(HumanTokens(n))
  {
  }

  lemma DayHourMinute(n: nat)
    ensures n == (n / 1440) * 1440 + ((n % 1440) / 60) * 60 + n % 60
    ensures (n % 1440) / 60 < 24
  {
    var h := (n % 1440) / 60;
    assert n % 1440 == h * 60 + (n % 1440) % 60;
    assert (n % 1440) % 60 == n % 60 by {
      assert n == (n / 1440) * 1440 + n % 1440;
      assert n == ((n / 1440) * 24 + h) * 60 + (n % 1440) % 60;
    }
  }

  lemma PartTotal(ts: seq<UnitToken>, v: nat, unit: char, w: nat)
    requires w == Weight(unit)
    ensures TotalMinutes(ts + Part(v, unit)) == TotalMinutes(ts) + v * w
  {
    if v != 0 {
      NatToStringValue(v);
      TotalMinutesAppend(ts, UnitToken(NatToString(v), unit));
    } else {
      assert ts + [] == ts;
    }
  }

  lemma {:induction false} HumanTokensTotal(n: nat)
    ensures TotalMinutes(HumanTokens(n)) == n
  {
    var d, h, m := n / 1440, (n % 1440) / 60, n % 60;
    DayHourMinute(n);
    var a, b, c := Part(d, 'd'), Part(h, 'h'), Part(m, 'm');
    PartTotal([], d, 'd', 1440);
    assert [] + a == a;
    PartTotal(a, h, 'h', 60);
    PartTotal(a + b, m, 'm', 1);
    assert HumanTokens(n) == a + b + c;
  }

  /**
   * The human summary of a positive count reads back as the day, hour and
   * minute tokens, which add up to the count.
   */
  lemma HumanShape(n: nat)
    requires n > 0
    ensures |HumanTokens(n)| >= 1
    ensures UnitTokens(MinutesToHuman(n)) == HumanTokens(n)
    ensures TotalMinutes(HumanTokens(n)) == n
  {
    DayHourMinute(n);
    HumanPartsAreTokens(n);
    HumanTokensTotal(n);
    UnitTokensOfRendering(HumanTokens(n));
  }

  lemma PartFacts(v: nat, unit: char)
    ensures |Part(v, unit)| <= 1
    ensures |Part(v, unit)| == 1 <==> v != 0
    ensures forall k :: 0 <= k < |Part(v, unit)| ==>
      Part(v, unit)[k].unit == unit && DigitsValue(Part(v, unit)[k].digits) == v
  {
    NatToStringValue(v);
  }

  /**
   * The tokens are canonical: units strictly largest first (so each at most
   * once), every value non-zero, hours below 24 and minutes below 60.
   */
  lemma HumanCanonical(n: nat)
    ensures forall i, j :: 0 <= i < j < |HumanTokens(n)| ==>
      Weight(HumanTokens(n)[i].unit) > Weight(HumanTokens(n)[j].unit)
    ensures forall k :: 0 <= k < |HumanTokens(n)| ==> DigitsValue(HumanTokens(n)[k].digits) > 0
    ensures forall k :: 0 <= k < |HumanTokens(n)| && HumanTokens(n)[k].unit == 'h' ==>
      DigitsValue(HumanTokens(n)[k].digits) < 24
    ensures forall k :: 0 <= k < |HumanTokens(n)| && HumanTokens(n)[k].unit == 'm' ==>
      DigitsValue(HumanTokens(n)[k].digits) < 60
  {
    DayHourMinute(n);
    PartFacts(n / 1440, 'd');
    PartFacts((n % 1440) / 60, 'h');
    PartFacts(n % 60, 'm');
    PartsCanonical(Part(n / 1440, 'd'), Part((n % 1440) / 60, 'h'), Part(n % 60, 'm'));
  }

  /** Canonical order and values of a day part, an hour part and a minute part, each of at most one token. */
  lemma PartsCanonical(a: seq<UnitToken>, b: seq<UnitToken>, c: seq<UnitToken>)
    requires |a| <= 1 && |b| <= 1 && |c| <= 1
    requires forall k :: 0 <= k < |a| ==> a[k].unit == 'd' && DigitsValue(a[k].digits) > 0
    requires forall k :: 0 <= k < |b| ==> b[k].unit == 'h' && 0 < DigitsValue(b[k].digits) < 24
    requires forall k :: 0 <= k < |c| ==> c[k].unit == 'm' && 0 < DigitsValue(c[k].digits) < 60
    ensures forall i, j :: 0 <= i < j < |a + b + c| ==> Weight((a + b + c)[i].unit) > Weight((a + b + c)[j].unit)
    ensures forall k :: 0 <= k < |a + b + c| ==> DigitsValue((a + b + c)[k].digits) > 0
    ensures forall k :: 0 <= k < |a + b + c| && (a + b + c)[k].unit == 'h' ==> DigitsValue((a + b + c)[k].digits) < 24
    ensures forall k :: 0 <= k < |a + b + c| && (a + b + c)[k].unit == 'm' ==> DigitsValue((a + b + c)[k].digits) < 60
  {
    var ts := a + b + c;
    forall k | 0 <= k < |ts|
      ensures (k < |a| ==> ts[k] == a[k])
        && (|a| <= k < |a| + |b| ==> ts[k] == b[k - |a|])
        && (|a| + |b| <= k ==> ts[k] == c[k - |a| - |b|])
    {
    }
  }

  /** Round trip of the human summary: `parse_to_minutes(minutes_to_human(n)) == n`. */
  lemma HumanRoundTrip(n: nat)
    ensures DurationMinutes(MinutesToHuman(n)) == Some(n)
  {
    if n == 0 {
      ZeroMinutes();
    } else {
      DayHourMinute(n);
      HumanPartsAreTokens(n);
      HumanTokensTotal(n);
      DurationOfRendering(HumanTokens(n));
    }
  }

  lemma ZeroMinutes()
    ensures DurationMinutes("0m") == Some(0)
  {
    var ts := [UnitToken("0", 'm')];
    assert Join(RenderAll(ts), " ") == "0m";
    assert TotalMinutes(ts) == TotalMinutes([]) + TokenMinutes(ts[0]);
    RenderingReads(ts, 0);
  }

  /** A bare number is a count of hours. */
  lemma ExampleHours()
    ensures DurationMinutes("90") == Some(5400)
  {
    assert DigitsValue("90") == 90 by {
      assert "90"[..1] == "9";
    }
    HoursRead("90", 5400);
  }

  lemma RenderAllThree(x: UnitToken, y: UnitToken, z: UnitToken)
    ensures RenderAll([x, y, z]) == [Render(x), Render(y), Render(z)]
  {
    assert [x, y, z][1..] == [y, z];
    assert [y, z][1..] == [z];
  }

  lemma TotalThree(x: UnitToken, y: UnitToken, z: UnitToken)
    ensures TotalMinutes([x, y, z]) == TokenMinutes(x) + TokenMinutes(y) + TokenMinutes(z)
  {
    assert TotalMinutes([x]) == TokenMinutes(x) by {
      assert [x][..0] == [];
    }
    assert TotalMinutes([x, y]) == TotalMinutes([x]) + TokenMinutes(y) by {
      assert [x, y][..1] == [x];
    }
    assert [x, y, z][..2] == [x, y];
  }

  /** Unit tokens add up; "1d 6h 30m" is 1440 + 360 + 30 minutes. */
  lemma ExampleUnits()
    ensures DurationMinutes("1d 6h 30m") == Some(1830)
  {
    var x, y, z := UnitToken("1", 'd'), UnitToken("6", 'h'), UnitToken("30", 'm');
    RenderAllThree(x, y, z);
    assert Render(x) == "1d" && Render(y) == "6h" && Render(z) == "30m";
    JoinThree("1d", "6h", "30m", " ");
    assert Join(RenderAll([x, y, z]), " ") == "1d 6h 30m";
    assert DigitsValue("30") == 30 by {
      assert "30"[..1] == "3";
    }
    TotalThree(x, y, z);
    RenderingReads([x, y, z], 1830);
  }

  lemma ExampleSlurm()
    ensures MinutesToSlurm(1500) == "1-01:00:00"
  {
  }

  lemma ExampleHms()
    ensures MinutesToHms(90) == "1:30:0"
  {
    assert NatToString(30) == "30" by {
      assert NatToString(3) == "3";
    }
  }

  /** Text with no digit at all is rejected. */
  lemma WordRejected(t: string)
    requires Normal(t) && forall i :: 0 <= i < |t| ==> !IsDigit(t[i])
    ensures DurationMinutes(t) == None
  {
    NoDigitTokens(t);
    SplitHead(t, ':');
    RejectRead(t);
  }

  /** The first field of a split is a prefix of the text. */
  lemma SplitHead(s: string, sep: char)
    ensures Split(s, sep)[0] <= s
  {
  }

  lemma {:induction false} NoDigitTokens(t: string)
    requires forall i :: 0 <= i < |t| ==> !IsDigit(t[i])
    ensures UnitTokens(t) == []
    decreases |t|
  {
    if t != [] {
      NoDigitTokens(t[1..]);
    }
  }

  /** Two clock fields are not the clock form, and `H:M` holds no unit token. */
  lemma ShortClockRejected(a: string, b: string)
    requires IsDigits(a) && IsDigits(b)
    ensures DurationMinutes(a + ":" + b) == None
  {
    JoinTwo(a, b, ":");
    DigitsClean(a);
    DigitsClean(b);
    assert forall k :: 0 <= k < 2 ==> NoChar([a, b][k], ':');
    SplitJoin([a, b], ':');
    NoUpperAppend(a, ":");
    NoUpperAppend(a + ":", b);
    assert (a + ":" + b)[|a|] == ':';
    NoUnitTokens(a + ":" + b);
    RejectRead(a + ":" + b);
  }

  /**
   * `format_elapsed` shows `N/A` exactly for a negative count, and otherwise
   * a summary that reads back as the whole minutes of the count.
   */
  lemma FormatElapsedReadsBack(seconds: int)
    ensures seconds < 0 <==> FormatElapsed(seconds) == "N/A"
    ensures seconds >= 0 ==> DurationMinutes(FormatElapsed(seconds)) == Some(seconds / 60)
  {
    if seconds >= 0 {
      HumanRoundTrip(seconds / 60);
      HumanNotNA(seconds / 60);
    }
  }

  lemma HumanNotNA(n: nat)
    ensures MinutesToHuman(n) != "N/A"
  {
    if n > 0 {
      HumanPartsAreTokens(n);
      DayHourMinute(n);
      JoinShape(HumanTokens(n));
    }
  }
}
