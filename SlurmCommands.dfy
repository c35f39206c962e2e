/**
 * The SLURM side of lip6tui/conv/commands.py: the `squeue` and `sinfo` line
 * readers, and the job-state query with its `sacct` fallback.
 */
module SlurmCommands {
  import opened Wrappers
  import opened Text
  import opened Remote
  import opened Seqs

  /** One `squeue` row, `%i|%j|%T|%N|%M|%l|%L|%R`. */
  datatype SlurmJob = SlurmJob(
    jobId: string, name: string, state: string, node: string,
    elapsed: string, timeLimit: string, timeLeft: string, reason: string)

  /** One `sinfo` node row. */
  datatype NodeInfo = NodeInfo(
    node: string, cpusState: string, memory: string, allocMem: string,
    gres: string, gresUsed: string, state: string)

  /**
   * The record a line gives: all eight fields from eight fields on, the
   * first four from four fields on, and nothing below that.
   */
  function SqueueRecord(line: string): Option<SlurmJob> {
    var p := Split(Strip(line), '|');
    if |p| >= 8 then Some(SlurmJob(p[0], p[1], p[2], p[3], p[4], p[5], p[6], p[7]))
    else if |p| >= 4 then Some(SlurmJob(p[0], p[1], p[2], p[3], [], [], [], []))
    else None
  }

  /** The records of the lines, in line order. */
  function SqueueJobs(lines: seq<string>): seq<SlurmJob>
    decreases |lines|
  {
    FilterMap(SqueueRecord, lines)
  }

  /** What `fetch_jobs` returns for the reply of its `squeue` call. */
  function SqueueReply(r: Reply): seq<SlurmJob> {
    if !HasOutput(r) then [] else SqueueJobs(SplitLines(Strip(r.stdout)))
  }

  /** The body of the `fetch_jobs` loop: the field count decides. */
  method ReadSqueueLine(line: string) returns (rec: Option<SlurmJob>)
    ensures rec == SqueueRecord(line)
  {
    var parts := Split(Strip(line), '|');
    if |parts| >= 8 {
      rec := Some(SlurmJob(parts[0], parts[1], parts[2], parts[3], parts[4], parts[5], parts[6], parts[7]));
    } else if |parts| >= 4 {
      rec := Some(SlurmJob(parts[0], parts[1], parts[2], parts[3], [], [], [], []));
    } else {
      rec := None;
    }
  }

  /** `fetch_jobs`, given the reply of its `squeue` call. */
  method FetchJobs(r: Reply) returns (jobs: seq<SlurmJob>)
    ensures jobs == SqueueReply(r)
  {
    if r.rc != 0 || Strip(r.stdout) == [] {
      return [];
    }
    jobs := ReadSqueueLines(SplitLines(Strip(r.stdout)));
  }

  /** The loop of `fetch_jobs`. */
  method ReadSqueueLines(lines: seq<string>) returns (jobs: seq<SlurmJob>)
    ensures jobs == SqueueJobs(lines)
  {
    jobs := [];
    for i := 0 to |lines|
      invariant jobs == SqueueJobs(lines[..i])
    {
      FilterMapSnoc(SqueueRecord, lines[..i], lines[i]);
      TakeSnoc(lines, i);
      var rec := ReadSqueueLine(lines[i]);
      if rec.Some? {
        jobs := jobs + [rec.value];
      }
    }
    assert lines[..|lines|] == lines;
  }

  /** Reading lines one stretch after another: nothing is reordered or lost across the seam. */
  lemma SqueueJobsAppend(a: seq<string>, b: seq<string>)
    ensures SqueueJobs(a + b) == SqueueJobs(a) + SqueueJobs(b)
  {
    FilterMapAppend(SqueueRecord, a, b);
  }

  /** At most one record per line. */
  lemma SqueueJobsBound(lines: seq<string>)
    ensures |SqueueJobs(lines)| <= |lines|
  {
    FilterMapBound(SqueueRecord, lines);
  }

  /** A line the SLURM format string prints is read back field for field; extra fields are ignored. */
  lemma FullLine(fields: seq<string>)
    requires |fields| >= 8
    requires forall k :: 0 <= k < |fields| ==> NoChar(fields[k], '|')
    requires Strip(Join(fields, "|")) == Join(fields, "|")
    ensures SqueueRecord(Join(fields, "|")) == Some(SlurmJob(
      fields[0], fields[1], fields[2], fields[3], fields[4], fields[5], fields[6], fields[7]))
  {
    SplitJoin(fields, '|');
  }

  /** Four to seven fields give the id, name, state and node only. */
  lemma PartialLine(fields: seq<string>)
    requires 4 <= |fields| < 8
    requires forall k :: 0 <= k < |fields| ==> NoChar(fields[k], '|')
    requires Strip(Join(fields, "|")) == Join(fields, "|")
    ensures SqueueRecord(Join(fields, "|")) == Some(SlurmJob(fields[0], fields[1], fields[2], fields[3], [], [], [], []))
  {
    SplitJoin(fields, '|');
  }

  /** Fewer than four fields: the line is dropped. */
  lemma ShortLine(fields: seq<string>)
    requires 1 <= |fields| < 4
    requires forall k :: 0 <= k < |fields| ==> NoChar(fields[k], '|')
    requires Strip(Join(fields, "|")) == Join(fields, "|")
    ensures SqueueRecord(Join(fields, "|")) == None
  {
    SplitJoin(fields, '|');
  }

  /** A failed or silent `squeue` call gives no jobs. */
  lemma NoOutputNoJobs(r: Reply)
    requires r.rc != 0 || AllSpace(r.stdout)
    ensures SqueueReply(r) == []
  {
    if r.rc == 0 {
      StripPadding(r.stdout, [], []);
      assert r.stdout + [] + [] == r.stdout;
    }
  }

  // ---------------------------------------------------------------------------
  // Node status
  // ---------------------------------------------------------------------------

  /** A node row: its first seven blank-separated tokens, when it has that many. */
  function NodeRow(line: string): Option<NodeInfo> {
    var p := SplitWs(line);
    if |p| >= 7 then Some(NodeInfo(p[0], p[1], p[2], p[3], p[4], p[5], p[6])) else None
  }

  function NodeRows(lines: seq<string>): seq<NodeInfo>
    decreases |lines|
  {
    FilterMap(NodeRow, lines)
  }

  /** The lines after the header line. */
  function Body(lines: seq<string>): seq<string> {
    if lines == [] then [] else lines[1..]
  }

  /** What `fetch_cluster_status` returns for the reply of its `sinfo` call. */
  function SinfoReply(r: Reply): seq<NodeInfo> {
    if !HasOutput(r) then [] else NodeRows(Body(SplitLines(Strip(r.stdout))))
  }

  /** The body of the `fetch_cluster_status` loop. */
  method ReadNodeLine(line: string) returns (row: Option<NodeInfo>)
    ensures row == NodeRow(line)
  {
    var parts := SplitWs(line);
    if |parts| >= 7 {
      row := Some(NodeInfo(parts[0], parts[1], parts[2], parts[3], parts[4], parts[5], parts[6]));
    } else {
      row := None;
    }
  }

  /** `fetch_cluster_status`, given the reply of its `sinfo` call. */
  method FetchClusterStatus(r: Reply) returns (nodes: seq<NodeInfo>)
    ensures nodes == SinfoReply(r)
  {
    if r.rc != 0 || Strip(r.stdout) == [] {
      return [];
    }
    nodes := ReadNodeLines(Body(SplitLines(Strip(r.stdout))));
  }

  /** The loop of `fetch_cluster_status`, over the lines after the header. */
  method ReadNodeLines(body: seq<string>) returns (nodes: seq<NodeInfo>)
    ensures nodes == NodeRows(body)
  {
    nodes := [];
    for i := 0 to |body|
      invariant nodes == NodeRows(body[..i])
    {
      FilterMapSnoc(NodeRow, body[..i], body[i]);
      TakeSnoc(body, i);
      var row := ReadNodeLine(body[i]);
      if row.Some? {
        nodes := nodes + [row.value];
      }
    }
    assert body[..|body|] == body;
  }

  /** The first line is never read as a node, whatever it holds. */
  lemma HeaderDiscarded(h1: string, h2: string, rest: seq<string>)
    ensures NodeRows(Body([h1] + rest)) == NodeRows(Body([h2] + rest))
    ensures NodeRows(Body([h1] + rest)) == NodeRows(rest)
  {
    assert ([h1] + rest)[1..] == rest;
    assert ([h2] + rest)[1..] == rest;
  }

  /** A row of seven or more blank-free tokens is read as its first seven. */
  lemma NodeLine(fields: seq<string>)
    requires |fields| >= 7
    requires forall k :: 0 <= k < |fields| ==> fields[k] != [] && NoSpace(fields[k])
    ensures NodeRow(Join(fields, " ")) == Some(NodeInfo(fields[0], fields[1], fields[2], fields[3], fields[4], fields[5], fields[6]))
  {
    SplitWsJoin(fields);
  }

  /** At most one node per line after the header. */
  lemma NodeRowsBound(lines: seq<string>)
    ensures |NodeRows(lines)| <= |lines|
  {
    FilterMapBound(NodeRow, lines);
  }

  lemma NodeRowsAppend(a: seq<string>, b: seq<string>)
    ensures NodeRows(a + b) == NodeRows(a) + NodeRows(b)
  {
    FilterMapAppend(NodeRow, a, b);
  }

  // ---------------------------------------------------------------------------
  // Job state
  // ---------------------------------------------------------------------------

  /** The `sacct` query is made only when `squeue` printed nothing. */
  predicate NeedsSacct(squeue: Reply) { Output(squeue) == [] }

  /** `get_job_state`: the `squeue` answer, or else the `sacct` one. */
  function JobState(squeue: Reply, sacct: Reply): string {
    if NeedsSacct(squeue) then Output(sacct) else Output(squeue)
  }

  /** When `squeue` answers, the `sacct` reply plays no part. */
  lemma SqueueAnswerWins(squeue: Reply, sacct1: Reply, sacct2: Reply)
    requires !NeedsSacct(squeue)
    ensures JobState(squeue, sacct1) == JobState(squeue, sacct2) == Output(squeue)
  {
  }

  /** A blank state means both queries came back blank. */
  lemma BlankState(squeue: Reply, sacct: Reply)
    ensures JobState(squeue, sacct) == [] <==> Output(squeue) == [] && Output(sacct) == []
  {
  }
}
