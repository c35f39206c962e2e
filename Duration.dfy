/**
 * The duration codec of lip6tui/duration.py: human duration text in, whole
 * minutes in the middle, and three renderings out (the OAR walltime `H:M:0`,
 * the SLURM time `HH:MM:00` / `D-HH:MM:00`, and a human summary `2d 5h 30m`).
 */
module Duration {
  import opened Wrappers
  import opened Text

  const MinutesPerHour := 60
  const MinutesPerDay := 1440

  /** One match of `(\d+)\s*(d|h|m)`: its digit group and its unit letter. */
  datatype UnitToken = UnitToken(digits: string, unit: char)

  predicate IsUnit(c: char) { c == 'd' || c == 'h' || c == 'm' }

  /**
   * The match of `(\d+)\s*(d|h|m)` at the start of `s`, if any, with the
   * position just past its unit letter.
   */
  function TokenAt(s: string): (r: Option<(UnitToken, nat)>)
    ensures r.Some? ==> 0 < r.value.1 <= |s|
  {
    var j := DigitRun(s);
    var k := j + LeadingSpaces(s[j..]);
    if 0 < j && k < |s| && IsUnit(s[k]) then Some((UnitToken(s[..j], s[k]), k + 1)) else None
  }

  /**
   * The list `re.findall(r"(\d+)\s*(d|h|m)", s)` returns: the scan tries each
   * position from the left, and after a match resumes just past the unit.
   */
  function UnitTokens(s: string): (ts: seq<UnitToken>)
    ensures forall k :: 0 <= k < |ts| ==> IsDigits(ts[k].digits) && IsUnit(ts[k].unit)
    decreases |s|
  {
    if s == [] then []
    else
      match TokenAt(s)
      case Some((t, e)) => [t] + UnitTokens(s[e..])
      case None => UnitTokens(s[1..])
  }

  /** A unit letter right after a run of digits starts a token there. */
  lemma UnitTokensAt(s: string, j: nat)
    requires 0 < j < |s| && IsUnit(s[j])
    requires forall i :: 0 <= i < j ==> IsDigit(s[i])
    ensures UnitTokens(s) == [UnitToken(s[..j], s[j])] + UnitTokens(s[j + 1..])
  {
    TokenAtDigits(s, j);
  }

  lemma TokenAtDigits(s: string, j: nat)
    requires 0 < j < |s| && IsUnit(s[j])
    requires forall i :: 0 <= i < j ==> IsDigit(s[i])
    ensures TokenAt(s) == Some((UnitToken(s[..j], s[j]), j + 1))
  {
    DigitRunAt(s, j);
    assert s[j..][0] == s[j];
    LeadingUnique(s[j..], 0);
  }

  function Weight(unit: char): nat {
    if unit == 'd' then MinutesPerDay else if unit == 'h' then MinutesPerHour else 1
  }

  function TokenMinutes(t: UnitToken): nat { DigitsValue(t.digits) * Weight(t.unit) }

  /** The running `total` after the first tokens of the loop. */
  function TotalMinutes(ts: seq<UnitToken>): nat
    decreases |ts|
  {
    if ts == [] then 0 else TotalMinutes(ts[..|ts| - 1]) + TokenMinutes(ts[|ts| - 1])
  }

  /** What `^(\d+):(\d+):(\d+)$` accepts. */
  predicate IsClock(t: string) {
    var p := Split(t, ':');
    |p| == 3 && IsDigits(p[0]) && IsDigits(p[1]) && IsDigits(p[2])
  }

  /** The minutes an H:M:S text stands for; the seconds group is dropped. */
  function ClockMinutes(t: string): nat
    requires IsClock(t)
  {
    var p := Split(t, ':');
    DigitsValue(p[0]) * MinutesPerHour + DigitsValue(p[1])
  }

  /**
   * What `parse_to_minutes` makes of text that is already stripped and in
   * lower case: the legacy clock form first, then the sum of every unit token,
   * then a bare number of hours, else nothing.
   */
  function Interpret(t: string): Option<nat> {
    if t == [] then None
    else if IsClock(t) then Some(ClockMinutes(t))
    else
      var ts := UnitTokens(t);
      if ts != [] then Some(TotalMinutes(ts))
      else if IsDigits(t) then Some(DigitsValue(t) * MinutesPerHour)
      else None
  }

  /** The value `parse_to_minutes` returns. */
  function DurationMinutes(text: string): Option<nat> {
    Interpret(Lower(Strip(text)))
  }

  lemma InterpretClock(t: string, v: nat)
    requires t != [] && IsClock(t) && ClockMinutes(t) == v
    ensures Interpret(t) == Some(v)
  {
  }

  lemma InterpretTokens(t: string, v: nat)
    requires t != [] && !IsClock(t) && UnitTokens(t) != [] && TotalMinutes(UnitTokens(t)) == v
    ensures Interpret(t) == Some(v)
  {
  }

  lemma InterpretHours(t: string, v: nat)
    requires t != [] && !IsClock(t) && UnitTokens(t) == [] && IsDigits(t) && DigitsValue(t) * MinutesPerHour == v
    ensures Interpret(t) == Some(v)
  {
  }

  /** The loop of `parse_to_minutes` over the regex matches. */
  method SumTokens(ts: seq<UnitToken>) returns (total: nat, matched: bool)
    ensures total == TotalMinutes(ts)
    ensures matched <==> ts != []
  {
    total := 0;
    matched := false;
    var i := 0;
    while i < |ts|
      invariant 0 <= i <= |ts|
      invariant matched <==> i > 0
      invariant total == TotalMinutes(ts[..i])
    {
      matched := true;
      var v := DigitsValue(ts[i].digits);
      if ts[i].unit == 'd' {
        total := total + v * 1440;
      } else if ts[i].unit == 'h' {
        total := total + v * 60;
      } else {
        total := total + v;
      }
      assert ts[..i + 1][..i] == ts[..i];
      i := i + 1;
    }
    assert ts[..|ts|] == ts;
  }

  /** `parse_to_minutes`. */
  method ParseToMinutes(text: string) returns (r: Option<nat>)
    ensures r == DurationMinutes(text)
  {
    var t := Lower(Strip(text));
    if t == [] {
      return None;
    }
    if IsClock(t) {
      var p := Split(t, ':');
      var v := DigitsValue(p[0]) * 60 + DigitsValue(p[1]);
      InterpretClock(t, v);
      return Some(v);
    }
    var total, matched := SumTokens(UnitTokens(t));
    if matched {
      InterpretTokens(t, total);
      return Some(total);
    }
    if IsDigits(t) {
      var v := DigitsValue(t) * 60;
      InterpretHours(t, v);
      return Some(v);
    }
    return None;
  }

  // ---------------------------------------------------------------------------
  // Renderings
  // ---------------------------------------------------------------------------

  /** `minutes_to_hms`: the OAR walltime `f"{n // 60}:{n % 60}:0"`. */
  function MinutesToHms(n: int): string {
    IntToString(n / 60) + ":" + IntToString(n % 60) + ":0"
  }

  /** `f"{x:02d}"`: at least two characters, zero-filled after any sign. */
  function Pad2(x: int): string {
    if 0 <= x < 10 then "0" + IntToString(x) else IntToString(x)
  }

  /** `minutes_to_slurm`: `D-HH:MM:00` from 24 hours on, else `HH:MM:00`. */
  function MinutesToSlurm(n: int): string {
    var totalH := n / 60;
    var m := n % 60;
    if totalH >= 24 then IntToString(totalH / 24) + "-" + Pad2(totalH % 24) + ":" + Pad2(m) + ":00"
    else Pad2(totalH) + ":" + Pad2(m) + ":00"
  }

  /** The `parts` list of `minutes_to_human`, for a positive count. */
  function HumanParts(n: nat): seq<string> {
    var d := n / 1440;
    var h := (n % 1440) / 60;
    var m := n % 60;
    (if d != 0 then [NatToString(d) + "d"] else [])
    + (if h != 0 then [NatToString(h) + "h"] else [])
    + (if m != 0 then [NatToString(m) + "m"] else [])
  }

  /** `minutes_to_human`. */
  function MinutesToHuman(n: int): string {
    if n <= 0 then "0m"
    else
      var parts := HumanParts(n);
      if parts != [] then Join(parts, " ") else "0m"
  }

  /** `format_elapsed`: seconds shown as minutes, or `N/A` when negative. */
  function FormatElapsed(seconds: int): string {
    if seconds < 0 then "N/A" else MinutesToHuman(seconds / 60)
  }

  // ---------------------------------------------------------------------------
  // The scanner on rendered text
  // ---------------------------------------------------------------------------
}
