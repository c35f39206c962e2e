/**
 * The OAR side of lip6tui/hpc/commands.py: the job record with its clock
 * arithmetic, and the reader of the block-structured `oarstat -f` listing.
 */
module OarCommands {
  import opened Wrappers
  import opened Seqs
  import opened Text
  import opened Remote
  import opened Duration
  import opened DurationFacts

  /** `OARJob`, every field a text as the listing gives it. */
  datatype OarJob = OarJob(
    jobId: string, name: string, state: string, walltime: string,
    startTime: string, node: string, cores: string)

  /** A record as a header line opens it. */
  function Fresh(id: string): OarJob { OarJob(id, [], [], [], [], [], []) }

  function Max0(x: int): nat { if x < 0 then 0 else x }

  // ---------------------------------------------------------------------------
  // Clock arithmetic (`now` stands for `int(time.time())`)
  // ---------------------------------------------------------------------------

  /**
   * `elapsed_minutes`: whole minutes since the start stamp. Division by the
   * positive 60 is the same floor division in Dafny as in Python.
   */
  function ElapsedMinutes(job: OarJob, now: int): Option<nat> {
    if job.startTime == [] then None
    else
      match PyInt(job.startTime)
      case None => None
      case Some(ts) => if ts <= 0 then None else Some(Max0((now - ts) / 60))
  }

  /** `wall_minutes`: the first two `:` fields as hours and minutes. */
  function WallMinutes(job: OarJob): Option<int> {
    if job.walltime == [] then None
    else
      var parts := Split(job.walltime, ':');
      if |parts| < 2 then None
      else
        match (PyInt(parts[0]), PyInt(parts[1]))
        case (Some(h), Some(m)) => Some(h * 60 + m)
        case _ => None
  }

  /** `remaining_minutes`. */
  function RemainingMinutes(job: OarJob, now: int): Option<nat> {
    match (ElapsedMinutes(job, now), WallMinutes(job))
    case (Some(e), Some(w)) => Some(Max0(w - e))
    case _ => None
  }

  /** The elapsed minutes are the whole minutes between the stamp and `now`, or 0 before it. */
  lemma ElapsedBounds(job: OarJob, now: int, ts: int)
    requires PyInt(job.startTime) == Some(ts) && ts > 0
    ensures ElapsedMinutes(job, now).Some?
    ensures now >= ts ==> ElapsedMinutes(job, now).value * 60 <= now - ts < ElapsedMinutes(job, now).value * 60 + 60
    ensures now < ts + 60 ==> ElapsedMinutes(job, now).value == 0
  {
  }

  /** There is no elapsed time without a positive integer start stamp. */
  lemma ElapsedNone(job: OarJob, now: int)
    ensures ElapsedMinutes(job, now).None? <==>
      (PyInt(job.startTime).None? || PyInt(job.startTime).value <= 0)
  {
    if job.startTime == [] {
      assert Strip(job.startTime) == [];
    }
  }

  /** A walltime of the `H:M:S` form stands for its hours and minutes. */
  lemma WallOfClock(job: OarJob)
    requires IsClock(job.walltime)
    ensures WallMinutes(job) == Some(ClockMinutes(job.walltime))
  {
    var p := Split(job.walltime, ':');
    assert job.walltime != [] by {
      if job.walltime == [] {
        SplitAbsent(job.walltime, ':');
      }
    }
    PyIntOfDigits(p[0]);
    PyIntOfDigits(p[1]);
  }

  /** On such a walltime, OAR's reading and the duration parser's agree. */
  lemma WallAgreesWithParser(job: OarJob)
    requires IsClock(job.walltime)
    ensures DurationMinutes(job.walltime) == WallMinutes(job)
  {
    WallOfClock(job);
    ClockReadsBack(job.walltime);
  }

  /** The walltime the client submits, `minutes_to_hms(n)`, reads back as `n` minutes. */
  lemma WallOfHms(job: OarJob, n: nat)
    requires job.walltime == MinutesToHms(n)
    ensures WallMinutes(job) == Some(n)
  {
    HmsIsClock(n);
    WallOfClock(job);
  }

  /** A walltime with no `:` has no minutes. */
  lemma WallNeedsTwoFields(job: OarJob)
    requires NoChar(job.walltime, ':')
    ensures WallMinutes(job) == None
  {
    SplitAbsent(job.walltime, ':');
  }

  /** The remaining time exists exactly when both parts do, and is the walltime left, never below 0. */
  lemma RemainingFacts(job: OarJob, now: int)
    ensures RemainingMinutes(job, now).Some? <==> ElapsedMinutes(job, now).Some? && WallMinutes(job).Some?
    ensures RemainingMinutes(job, now).Some? ==>
      var e := ElapsedMinutes(job, now).value;
      var w := WallMinutes(job).value;
      RemainingMinutes(job, now).value >= w - e
      && (w >= e ==> RemainingMinutes(job, now).value + e == w)
      && (w < e ==> RemainingMinutes(job, now).value == 0)
  {
  }

  // ---------------------------------------------------------------------------
  // The `oarstat -f` listing
  // ---------------------------------------------------------------------------

  /** `re.match(r"Job_Id\s*:\s*(\d+)", line)`: the job number a header line starts with. */
  function HeaderId(line: string): (r: Option<string>)
    ensures r.Some? ==> IsDigits(r.value)
  {
    if !("Job_Id" <= line) then None
    else
      var i := 6 + LeadingSpaces(line[6..]);
      if i < |line| && line[i] == ':' then NumberAfter(line[i + 1..]) else None
  }

  /** The `\s*(\d+)` after the colon: blanks, then at least one digit. */
  function NumberAfter(s: string): (r: Option<string>)
    ensures r.Some? ==> IsDigits(r.value)
  {
    var j := LeadingSpaces(s);
    var d := DigitRun(s[j..]);
    if d > 0 then Some(s[j..j + d]) else None
  }

  /** The record fields a key line can set. */
  datatype Field = NameF | StateF | WalltimeF | StartF | NodeF | CoresF

  /** `re.search(r"core=(\d+)", line)`: the digits after the first `core=` that has any. */
  function CoreCount(line: string): (r: Option<string>)
    ensures r.Some? ==> IsDigits(r.value) && Contains(line, "core=" + r.value)
    decreases |line|
  {
    if line == [] then None
    else if "core=" <= line && DigitRun(line[5..]) > 0 then
      var n := DigitRun(line[5..]);
      var d := line[5..5 + n];
      assert "core=" + d == line[..5 + n];
      Some(d)
    else
      var r := CoreCount(line[1..]);
      if r.Some? then
        assert Contains(line[1..], "core=" + r.value);
        Some(r.value)
      else None
  }

  /** The field a line sets, tested in the source's order. */
  function LineField(line: string): Option<Field> {
    if Contains(line, "name =") then Some(NameF)
    else if Contains(line, "state =") then Some(StateF)
    else if Contains(line, "walltime =") then Some(WalltimeF)
    else if Contains(line, "startTime =") then Some(StartF)
    else if Contains(line, "assigned_hostnames =") then Some(NodeF)
    else if Contains(line, "wanted_resources =") && CoreCount(line).Some? then Some(CoresF)
    else None
  }

  /** `line.split("=", 1)[1].strip()`: the text after the first `=`. */
  function AfterEq(line: string): string {
    var i := IndexOf(line, '=');
    if i < |line| then Strip(line[i + 1..]) else []
  }

  /** The value a line gives its field. */
  function LineValue(line: string): string {
    if LineField(line) == Some(CoresF) then CoreCount(line).value else AfterEq(line)
  }

  function FieldValue(job: OarJob, f: Field): string {
    match f
    case NameF => job.name
    case StateF => job.state
    case WalltimeF => job.walltime
    case StartF => job.startTime
    case NodeF => job.node
    case CoresF => job.cores
  }

  function SetField(job: OarJob, f: Field, v: string): OarJob {
    match f
    case NameF => job.(name := v)
    case StateF => job.(state := v)
    case WalltimeF => job.(walltime := v)
    case StartF => job.(startTime := v)
    case NodeF => job.(node := v)
    case CoresF => job.(cores := v)
  }

  /** What a line other than a header does to the current record. */
  function Apply(job: OarJob, line: string): OarJob {
    match LineField(line)
    case None => job
    case Some(f) => SetField(job, f, LineValue(line))
  }

  /** The record a header opens, after the lines that follow it. */
  function Fill(job: OarJob, body: seq<string>): OarJob {
    FoldLeft(Apply, job, body)
  }

  /** The loop state: the records flushed so far and the one being filled. */
  datatype Scan = Scan(jobs: seq<OarJob>, current: Option<OarJob>)

  const Start := Scan([], None)

  /** The open record is kept only when it has a job number. */
  function Flush(current: Option<OarJob>): seq<OarJob> {
    if current.Some? && current.value.jobId != [] then [current.value] else []
  }

  /** One turn of the loop. */
  function Step(st: Scan, line: string): Scan {
    match HeaderId(line)
    case Some(id) => Scan(st.jobs + Flush(st.current), Some(Fresh(id)))
    case None =>
      if st.current.None? then st else Scan(st.jobs, Some(Apply(st.current.value, line)))
  }

  function Finish(st: Scan): seq<OarJob> { st.jobs + Flush(st.current) }

  /** `parse_oarstat_full`, on the lines of the listing. */
  function ParseLines(lines: seq<string>): seq<OarJob> {
    Finish(FoldLeft(Step, Start, lines))
  }

  function ParseOarstat(text: string): seq<OarJob> {
    ParseLines(SplitLines(text))
  }

  /** What `fetch_jobs` returns for the reply of its `oarstat` call. */
  function OarstatReply(r: Reply): seq<OarJob> {
    if !HasOutput(r) then [] else ParseOarstat(r.stdout)
  }

  /** The if/elif chain of the loop, on the current record. */
  method ApplyLine(job: OarJob, line: string) returns (next: OarJob)
    ensures next == Apply(job, line)
  {
    next := job;
    if Contains(line, "name =") {
      next := next.(name := AfterEq(line));
    } else if Contains(line, "state =") {
      next := next.(state := AfterEq(line));
    } else if Contains(line, "walltime =") {
      next := next.(walltime := AfterEq(line));
    } else if Contains(line, "startTime =") {
      next := next.(startTime := AfterEq(line));
    } else if Contains(line, "assigned_hostnames =") {
      next := next.(node := AfterEq(line));
    } else if Contains(line, "wanted_resources =") {
      var m2 := CoreCount(line);
      if m2.Some? {
        next := next.(cores := m2.value);
      }
    }
  }

  /** The loop of `parse_oarstat_full`. */
  method ParseOarstatLines(lines: seq<string>) returns (jobs: seq<OarJob>)
    ensures jobs == ParseLines(lines)
  {
    jobs := [];
    var current: Option<OarJob> := None;
    for i := 0 to |lines|
      invariant Scan(jobs, current) == FoldLeft(Step, Start, lines[..i])
    {
      FoldSnoc(Step, Start, lines[..i], lines[i]);
      TakeSnoc(lines, i);
      jobs, current := ScanLine(jobs, current, lines[i]);
    }
    assert lines[..|lines|] == lines;
    if current.Some? && current.value.jobId != [] {
      jobs := jobs + [current.value];
    }
  }

  /** The body of the loop: a header closes the job being read and opens a new one. */
  method ScanLine(jobs: seq<OarJob>, current: Option<OarJob>, line: string)
    returns (jobs': seq<OarJob>, current': Option<OarJob>)
    ensures Scan(jobs', current') == Step(Scan(jobs, current), line)
  {
    jobs', current' := jobs, current;
    var m := HeaderId(line);
    if m.Some? {
      if current.Some? && current.value.jobId != [] {
        jobs' := jobs + [current.value];
      }
      current' := Some(Fresh(m.value));
    } else if current.Some? {
      var next := ApplyLine(current.value, line);
      current' := Some(next);
    }
  }

  /** `parse_oarstat_full`. */
  method ParseOarstatFull(text: string) returns (jobs: seq<OarJob>)
    ensures jobs == ParseOarstat(text)
  {
    jobs := ParseOarstatLines(SplitLines(text));
  }

  /** `fetch_jobs`, given the reply of its `oarstat` call. */
  method FetchJobs(r: Reply) returns (jobs: seq<OarJob>)
    ensures jobs == OarstatReply(r)
  {
    if r.rc != 0 || Strip(r.stdout) == [] {
      return [];
    }
    jobs := ParseOarstatFull(r.stdout);
  }

  // ---------------------------------------------------------------------------
  // What the listing reader promises
  // ---------------------------------------------------------------------------

  function JobId(job: OarJob): string { job.jobId }

  /** The job numbers of a list of records, in order. */
  function Ids(jobs: seq<OarJob>): seq<string> { Map(JobId, jobs) }

  /** The job numbers of the header lines, in order. */
  function HeaderIds(lines: seq<string>): seq<string> {
    FilterMap(HeaderId, lines)
  }

  /** Key lines never touch the job number. */
  lemma ApplyKeepsId(job: OarJob, line: string)
    ensures Apply(job, line).jobId == job.jobId
  {
    var f := LineField(line);
    if f.Some? {
      SetFieldKeepsId(job, f.value, LineValue(line));
    }
  }

  lemma SetFieldKeepsId(job: OarJob, f: Field, v: string)
    ensures SetField(job, f, v).jobId == job.jobId
  {
  }

  /** The state is the jobs so far and the open record, whose number is never empty. */
  lemma {:induction false} ScanIds(lines: seq<string>)
    ensures var st := FoldLeft(Step, Start, lines);
      (st.current.Some? ==> st.current.value.jobId != [])
      && Ids(Finish(st)) == HeaderIds(lines)
    decreases |lines|
  {
    if lines != [] {
      var pre, l := lines[..|lines| - 1], lines[|lines| - 1];
      assert lines == pre + [l];
      ScanIds(pre);
      FoldSnoc(Step, Start, pre, l);
      FilterMapSnoc(HeaderId, pre, l);
      StepIds(FoldLeft(Step, Start, pre), l);
    }
  }

  /** One turn adds the line's job number, if it has one, to the numbers read. */
  lemma StepIds(st: Scan, l: string)
    requires st.current.Some? ==> st.current.value.jobId != []
    ensures Step(st, l).current.Some? ==> Step(st, l).current.value.jobId != []
    ensures Ids(Finish(Step(st, l))) == Ids(Finish(st)) + ToSeq(HeaderId(l))
  {
    match HeaderId(l)
    case Some(id) =>
      MapAppend(JobId, st.jobs + Flush(st.current), [Fresh(id)]);
    case None =>
      if st.current.Some? {
        ApplyKeepsId(st.current.value, l);
        MapAppend(JobId, st.jobs, [st.current.value]);
        MapAppend(JobId, st.jobs, [Apply(st.current.value, l)]);
      }
  }

  /** One job per header line, in the order of the headers, numbered as they are. */
  lemma OneJobPerHeader(lines: seq<string>)
    ensures Ids(ParseLines(lines)) == HeaderIds(lines)
    ensures |ParseLines(lines)| == |HeaderIds(lines)|
  {
    ScanIds(lines);
  }

  predicate NoHeaders(lines: seq<string>) {
    forall k :: 0 <= k < |lines| ==> HeaderId(lines[k]).None?
  }

  /** Nothing before the first header counts. */
  lemma {:induction false} PreambleStays(pre: seq<string>)
    requires NoHeaders(pre)
    ensures FoldLeft(Step, Start, pre) == Start
    decreases |pre|
  {
    if pre != [] {
      PreambleStays(pre[..|pre| - 1]);
    }
  }

  lemma PreambleIgnored(pre: seq<string>, rest: seq<string>)
    requires NoHeaders(pre)
    ensures ParseLines(pre + rest) == ParseLines(rest)
  {
    FoldAppend(Step, Start, pre, rest);
    PreambleStays(pre);
  }

  /** Inside a record, the lines only fill it. */
  lemma {:induction false} BodyFills(st: Scan, job: OarJob, body: seq<string>)
    requires NoHeaders(body)
    ensures FoldLeft(Step, Scan(st.jobs, Some(job)), body) == Scan(st.jobs, Some(Fill(job, body)))
    decreases |body|
  {
    if body != [] {
      var b' := body[..|body| - 1];
      BodyFills(st, job, b');
    }
  }

  /**
   * A header and the lines up to the next header make one record: the
   * earlier record is flushed and the new one is what the lines set.
   */
  lemma Block(st: Scan, h: string, body: seq<string>)
    requires HeaderId(h).Some? && NoHeaders(body)
    ensures FoldLeft(Step, st, [h] + body)
      == Scan(st.jobs + Flush(st.current), Some(Fill(Fresh(HeaderId(h).value), body)))
  {
    FoldAppend(Step, st, [h], body);
    FoldSnoc(Step, st, [], h);
    assert [] + [h] == [h];
    var s1 := Scan(st.jobs + Flush(st.current), Some(Fresh(HeaderId(h).value)));
    BodyFills(s1, Fresh(HeaderId(h).value), body);
  }

  /** The last record is flushed at the end of the listing. */
  lemma LastBlockFlushed(h: string, body: seq<string>)
    requires HeaderId(h).Some? && NoHeaders(body)
    ensures ParseLines([h] + body) == [Fill(Fresh(HeaderId(h).value), body)]
  {
    Block(Start, h, body);
    var job := Fill(Fresh(HeaderId(h).value), body);
    assert job.jobId == HeaderId(h).value by {
      FillKeepsId(Fresh(HeaderId(h).value), body);
    }
    assert Finish(Scan([], Some(job))) == [job];
  }

  lemma {:induction false} FillKeepsId(job: OarJob, body: seq<string>)
    ensures Fill(job, body).jobId == job.jobId
    decreases |body|
  {
    if body != [] {
      FillKeepsId(job, body[..|body| - 1]);
      ApplyKeepsId(Fill(job, body[..|body| - 1]), body[|body| - 1]);
    }
  }

  /** Setting one field leaves the others as they were. */
  lemma SetFieldGet(job: OarJob, f: Field, g: Field, v: string)
    ensures FieldValue(SetField(job, f, v), g) == (if f == g then v else FieldValue(job, g))
  {
  }

  lemma ApplyField(job: OarJob, line: string, f: Field)
    ensures FieldValue(Apply(job, line), f) == (if LineField(line) == Some(f) then LineValue(line) else FieldValue(job, f))
  {
    var lf := LineField(line);
    if lf.Some? {
      SetFieldGet(job, lf.value, f, LineValue(line));
    }
  }

  predicate NoneSets(lines: seq<string>, f: Field) {
    forall k :: 0 <= k < |lines| ==> LineField(lines[k]) != Some(f)
  }

  /** A field no line sets keeps its value; in particular `cores` stays empty without a `core=` count. */
  lemma {:induction false} FieldUntouched(job: OarJob, body: seq<string>, f: Field)
    requires NoneSets(body, f)
    ensures FieldValue(Fill(job, body), f) == FieldValue(job, f)
    decreases |body|
  {
    if body != [] {
      FieldUntouched(job, body[..|body| - 1], f);
      ApplyField(Fill(job, body[..|body| - 1]), body[|body| - 1], f);
    }
  }

  /** The last line that sets a field decides its value. */
  lemma LastSetterWins(job: OarJob, a: seq<string>, l: string, b: seq<string>, f: Field)
    requires LineField(l) == Some(f) && NoneSets(b, f)
    ensures FieldValue(Fill(job, a + [l] + b), f) == LineValue(l)
  {
    FoldAppend(Apply, job, a + [l], b);
    FoldSnoc(Apply, job, a, l);
    ApplyField(Fill(job, a), l, f);
    FieldUntouched(FoldLeft(Apply, job, a + [l]), b, f);
  }

  /** The number a well-formed header line gives. */
  lemma HeaderLine(line: string, pad1: string, pad2: string, id: string, rest: string)
    requires line == "Job_Id" + pad1 + ":" + pad2 + id + rest
    requires AllSpace(pad1) && AllSpace(pad2) && IsDigits(id) && (rest == [] || !IsDigit(rest[0]))
    ensures HeaderId(line) == Some(id)
  {
    var after := pad2 + id + rest;
    assert line == "Job_Id" + pad1 + ([':'] + after);
    HeaderPrefix(line, pad1, after);
    HeaderNumber(after, pad2, id, rest);
  }

  /** The `Job_Id`, the blanks and the colon of a header line. */
  lemma HeaderPrefix(line: string, pad: string, after: string)
    requires line == "Job_Id" + pad + ([':'] + after) && AllSpace(pad)
    ensures HeaderId(line) == NumberAfter(after)
  {
    assert line[..6] == "Job_Id";
    HeaderRun(line[6..], pad, [':'] + after);
    assert line[7 + |pad|..] == after;
  }

  /** The blanks and the digits after the colon. */
  lemma HeaderNumber(s: string, pad: string, id: string, rest: string)
    requires s == pad + id + rest && AllSpace(pad) && IsDigits(id) && (rest == [] || !IsDigit(rest[0]))
    ensures NumberAfter(s) == Some(id)
  {
    assert s == pad + (id + rest);
    HeaderRun(s, pad, id + rest);
    assert s[|pad|..] == id + rest;
    DigitRunConcat(id, rest);
    assert s[|pad|..|pad| + |id|] == id;
  }

  /** Blanks in front of a text that does not start with one. */
  lemma HeaderRun(s: string, pad: string, rest: string)
    requires s == pad + rest && AllSpace(pad) && rest != [] && !IsSpace(rest[0])
    ensures LeadingSpaces(s) == |pad|
  {
    LeadingUnique(s, |pad|);
  }

  /** A `name =` line sets the name to the stripped text after its first `=`. */
  lemma NameLine(pad: string, v: string)
    requires NoChar(pad, '=')
    ensures LineField(pad + "name =" + v) == Some(NameF)
    ensures LineValue(pad + "name =" + v) == Strip(v)
  {
    var line := pad + "name =" + v;
    assert line[|pad|..|pad| + 6] == "name =";
    ContainsAt(line, "name =", |pad|);
    assert IndexOf(line, '=') == |pad| + 5 by {
      assert line[|pad| + 5] == '=';
      assert forall k :: 0 <= k < |pad| + 5 ==> line[k] != '=';
    }
    assert line[|pad| + 6..] == v;
  }
}
