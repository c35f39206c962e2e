/**
 * The decisions of the OAR dashboard (lip6tui/hpc/app.py): the launch
 * form's checks and mode choice, the custom-script path check, the split
 * and rendering of the job tables, the connect action's dispatch, and the
 * waiting screen's poll on the `oarstat` answer.
 */
module HpcApp {
  import opened Wrappers
  import opened Seqs
  import opened Text
  import opened Remote
  import opened Duration
  import opened DurationFacts
  import opened Validators
  import opened OarCommands
  import opened Tracker
  import opened Endpoint
  import opened JobList

  /** The port forwarded when the Jupyter URL names none. */
  const DefaultPort := 8888

  // ---------------------------------------------------------------------------
  // Launch form
  // ---------------------------------------------------------------------------

  datatype Mode = Jupyter | Terminal | Custom

  /** The radio buttons, in their order on the form. */
  const Modes := [Jupyter, Terminal, Custom]

  /** The pressed button's mode; no button pressed (index -1) means Jupyter. */
  function ModeAt(idx: int): Mode
    requires idx < |Modes|
  {
    if idx >= 0 then Modes[idx] else Jupyter
  }

  /** Where the form's submit button leads. */
  datatype LaunchOutcome =
    | BadCores
    | BadDuration
    | ScriptForm(cores: nat, walltime: string)
    | Launch(cores: nat, walltime: string, mode: Mode)

  /** `_submit`: the cores are checked before the duration is read. */
  function SubmitForm(coresText: string, durationText: string, idx: int): LaunchOutcome
    requires idx < |Modes|
  {
    var cores := Strip(coresText);
    var duration := Strip(durationText);
    if !IsInt(cores) then BadCores
    else
      match DurationMinutes(duration)
      case None => BadDuration
      case Some(minutes) =>
        var n := DigitsValue(Strip(cores));
        if ModeAt(idx) == Custom then ScriptForm(n, MinutesToHms(minutes))
        else Launch(n, MinutesToHms(minutes), ModeAt(idx))
  }

  /** A cores field that is not a number is refused whatever the duration says. */
  lemma CoresCheckedFirst(coresText: string, d1: string, d2: string, idx: int)
    requires idx < |Modes| && !IsInt(coresText)
    ensures SubmitForm(coresText, d1, idx) == SubmitForm(coresText, d2, idx) == BadCores
  {
    StripIdempotent(coresText);
  }

  /** Only a refused duration gives `BadDuration`, once the cores are a number. */
  lemma DurationChecked(coresText: string, durationText: string, idx: int)
    requires idx < |Modes| && IsInt(coresText)
    ensures SubmitForm(coresText, durationText, idx) == BadDuration <==> DurationMinutes(durationText) == None
  {
    StripIdempotent(coresText);
    StripFirst(durationText);
  }

  /**
   * A form whose two checks pass is accepted, and it asks for the cores
   * `int()` reads from the field and for a walltime that passes
   * `is_walltime` and stands for the requested duration.
   */
  lemma AcceptedForm(coresText: string, durationText: string, idx: int)
    requires idx < |Modes| && IsInt(coresText) && DurationMinutes(durationText).Some?
    ensures SubmitForm(coresText, durationText, idx).ScriptForm? || SubmitForm(coresText, durationText, idx).Launch?
    ensures var o := SubmitForm(coresText, durationText, idx);
      PyInt(coresText) == Some(o.cores)
      && IsWalltime(o.walltime)
      && DurationMinutes(o.walltime) == DurationMinutes(durationText)
  {
    StripIdempotent(coresText);
    IntValue(coresText);
    StripFirst(durationText);
    var m := DurationMinutes(durationText).value;
    HmsIsWalltime(m);
    HmsRoundTrip(m);
  }

  /**
   * Custom goes to the script form; Jupyter and Terminal are launched in
   * their own mode, and no pressed button launches Jupyter.
   */
  lemma ModeChoice(coresText: string, durationText: string, idx: int)
    requires idx < |Modes| && IsInt(coresText) && DurationMinutes(durationText).Some?
    ensures SubmitForm(coresText, durationText, idx).ScriptForm? <==> idx == 2
    ensures idx < 0 ==>
      (SubmitForm(coresText, durationText, idx).Launch? && SubmitForm(coresText, durationText, idx).mode == Jupyter)
    ensures idx == 0 ==>
      (SubmitForm(coresText, durationText, idx).Launch? && SubmitForm(coresText, durationText, idx).mode == Jupyter)
    ensures idx == 1 ==>
      (SubmitForm(coresText, durationText, idx).Launch? && SubmitForm(coresText, durationText, idx).mode == Terminal)
  {
    StripIdempotent(coresText);
    StripFirst(durationText);
  }

  /** The custom-script form: a path is taken only when `is_path` accepts it. */
  function ScriptPath(pathText: string): Option<string> {
    var path := Strip(pathText);
    if path == [] || !IsPath(path) then None else Some(path)
  }

  /**
   * A taken path is the stripped field and a path-class text: of the
   * characters `IsShellMeta` lists it can hold only the blank and `~`.
   */
  lemma ScriptPathSafe(pathText: string)
    ensures ScriptPath(pathText).Some? <==> IsPath(pathText)
    ensures ScriptPath(pathText).Some? ==>
      (ScriptPath(pathText).value == Strip(pathText)
       && forall i :: 0 <= i < |ScriptPath(pathText).value| && IsShellMeta(ScriptPath(pathText).value[i]) ==>
            ScriptPath(pathText).value[i] == ' ' || ScriptPath(pathText).value[i] == '~')
  {
    StripIdempotent(pathText);
    if IsPath(pathText) {
      AcceptedIsInert(pathText);
    }
  }

  // ---------------------------------------------------------------------------
  // Job tables
  // ---------------------------------------------------------------------------

  predicate IsRunning(j: OarJob) { j.state == OarStates.running }

  predicate IsPending(j: OarJob) { !IsRunning(j) }

  function RunningJobs(jobs: seq<OarJob>): seq<OarJob> { Filter(IsRunning, jobs) }

  function PendingJobs(jobs: seq<OarJob>): seq<OarJob> { Filter(IsPending, jobs) }

  /** The two tables partition the job list; only `Running` jobs are in the running table. */
  lemma TablesPartition(jobs: seq<OarJob>, j: OarJob)
    ensures multiset(RunningJobs(jobs)) + multiset(PendingJobs(jobs)) == multiset(jobs)
    ensures j in RunningJobs(jobs) <==> j in jobs && j.state == "Running"
    ensures j in PendingJobs(jobs) <==> j in jobs && j.state != "Running"
  {
    FilterPartition(IsRunning, IsPending, jobs);
    FilterMembers(IsRunning, jobs, j);
    FilterMembers(IsPending, jobs, j);
  }

  /** A time cell: the human form of the minutes, or `N/A`. */
  function TimeCell(m: Option<nat>): string {
    if m.None? then "N/A" else MinutesToHuman(m.value)
  }

  /** A running-table row at time `now`. */
  function RunningRow(now: int, j: OarJob): seq<string> {
    [j.jobId, Truncate(j.name, 20), Truncate(j.node, 12), if j.cores == [] then "-" else j.cores,
     TimeCell(ElapsedMinutes(j, now)), TimeCell(RemainingMinutes(j, now))]
  }

  /** A pending-table row: id, name cut to 20, requested walltime or `N/A`. */
  function PendingRow(j: OarJob): seq<string> {
    [j.jobId, Truncate(j.name, 20), if j.walltime == [] then "N/A" else j.walltime]
  }

  /** A time cell says `N/A` exactly when there is no time, and otherwise reads back as its minutes. */
  lemma TimeCellReadsBack(m: Option<nat>)
    ensures TimeCell(m) == "N/A" <==> m.None?
    ensures m.Some? ==> DurationMinutes(TimeCell(m)) == m
  {
    if m.Some? {
      HumanNotNA(m.value);
      HumanRoundTrip(m.value);
    }
  }

  /** A running row: `-` for no cores, `N/A` exactly for a missing time, and a remaining time that reads back as the walltime left. */
  lemma RunningRowFacts(now: int, j: OarJob)
    ensures |RunningRow(now, j)| == 6
    ensures RunningRow(now, j)[3] == "-" <==> j.cores == [] || j.cores == "-"
    ensures (RunningRow(now, j)[4] == "N/A") == ElapsedMinutes(j, now).None?
    ensures (RunningRow(now, j)[5] == "N/A") == RemainingMinutes(j, now).None?
    ensures RemainingMinutes(j, now).Some? ==>
      DurationMinutes(RunningRow(now, j)[5]) == Some(Max0(WallMinutes(j).value - ElapsedMinutes(j, now).value))
  {
    TimeCellReadsBack(ElapsedMinutes(j, now));
    TimeCellReadsBack(RemainingMinutes(j, now));
  }

  /** What the connect key does. */
  datatype Dispatch = NothingRunning | ConnectJob(jobId: string) | PickJob(running: seq<OarJob>)

  function ConnectDispatch(jobs: seq<OarJob>): Dispatch {
    var running := RunningJobs(jobs);
    if running == [] then NothingRunning
    else if |running| == 1 then ConnectJob(running[0].jobId)
    else PickJob(running)
  }

  /**
   * No running job warns; exactly one connects to that job at once; more
   * open the picker on the running jobs, all of them and no other.
   */
  lemma DispatchCases(jobs: seq<OarJob>)
    ensures ConnectDispatch(jobs) == NothingRunning <==> forall k :: 0 <= k < |jobs| ==> jobs[k].state != "Running"
    ensures ConnectDispatch(jobs).ConnectJob? <==> |RunningJobs(jobs)| == 1
    ensures ConnectDispatch(jobs).ConnectJob? ==>
      ConnectDispatch(jobs).jobId == RunningJobs(jobs)[0].jobId
      && exists k :: 0 <= k < |jobs| && jobs[k].state == "Running" && ConnectDispatch(jobs).jobId == jobs[k].jobId
    ensures ConnectDispatch(jobs).PickJob? <==> |RunningJobs(jobs)| >= 2
    ensures ConnectDispatch(jobs).PickJob? ==>
      ConnectDispatch(jobs).running == RunningJobs(jobs)
      && forall j :: j in ConnectDispatch(jobs).running <==> j in jobs && j.state == "Running"
  {
    var running := RunningJobs(jobs);
    forall j
      ensures j in running <==> j in jobs && j.state == "Running"
    {
      FilterMembers(IsRunning, jobs, j);
    }
    if running == [] {
      forall k | 0 <= k < |jobs|
        ensures jobs[k].state != "Running"
      {
        FilterMembers(IsRunning, jobs, jobs[k]);
      }
    } else {
      assert running[0] in running;
      FilterMembers(IsRunning, jobs, running[0]);
      var k :| 0 <= k < |jobs| && jobs[k] == running[0];
    }
  }

  /** The waiting screen's poll on the `oarstat` answer. */
  function PollDecision(r: Reply): Decision {
    Decide(OarStates, Output(r))
  }

  /** The dashboard: the last job list and the two tables drawn from it. */
  class Dashboard {
    var jobs: seq<OarJob>
    var runningRows: seq<seq<string>>
    var pendingRows: seq<seq<string>>
    var status: string

    constructor ()
      ensures jobs == [] && runningRows == [] && pendingRows == [] && status == []
    {
      jobs := [];
      runningRows := [];
      pendingRows := [];
      status := [];
    }

    /** `_update_tables` at time `now`. */
    method UpdateTables(now: int)
      modifies this
      ensures jobs == old(jobs) && status == old(status)
      ensures runningRows == Map((j: OarJob) => RunningRow(now, j), RunningJobs(jobs))
      ensures pendingRows == Map(PendingRow, PendingJobs(jobs))
    {
      var running := RunningJobs(jobs);
      var pending := PendingJobs(jobs);
      runningRows := [];
      for i := 0 to |running|
        invariant jobs == old(jobs) && status == old(status)
        invariant runningRows == Map((j: OarJob) => RunningRow(now, j), running[..i])
      {
        MapSnoc((j: OarJob) => RunningRow(now, j), running, i);
        runningRows := runningRows + [RunningRow(now, running[i])];
      }
      assert running[..|running|] == running;
      pendingRows := [];
      for i := 0 to |pending|
        invariant jobs == old(jobs) && status == old(status)
        invariant runningRows == Map((j: OarJob) => RunningRow(now, j), running)
        invariant pendingRows == Map(PendingRow, pending[..i])
      {
        MapSnoc(PendingRow, pending, i);
        pendingRows := pendingRows + [PendingRow(pending[i])];
      }
      assert pending[..|pending|] == pending;
    }

    /** `refresh_jobs` at time `now`, given the reply of the `oarstat` call. */
    method Refresh(r: Reply, now: int)
      modifies this
      ensures jobs == OarstatReply(r)
      ensures runningRows == Map((j: OarJob) => RunningRow(now, j), RunningJobs(jobs))
      ensures pendingRows == Map(PendingRow, PendingJobs(jobs))
      ensures status == StatusText(jobs)
    {
      jobs := OarCommands.FetchJobs(r);
      UpdateTables(now);
      if jobs != [] {
        status := NatToString(|jobs|) + " job(s) found";
      } else {
        status := "No jobs found";
      }
    }

    /** `action_connect`. */
    method ConnectChoice() returns (d: Dispatch)
      ensures d == ConnectDispatch(jobs)
    {
      var running := RunningJobs(jobs);
      if running == [] {
        return NothingRunning;
      }
      if |running| == 1 {
        return ConnectJob(running[0].jobId);
      }
      d := PickJob(running);
    }
  }

  /** `_connect_to` with this app's default port. */
  method Connect(node: string, answers: seq<string>) returns (outcome: Connection, attempts: nat)
    ensures outcome == ConnectOutcome(node, answers, DefaultPort)
    ensures !NodeUsable(node) ==> attempts == 0
    ensures NodeUsable(node) ==> attempts == Attempts(answers, 0)
  {
    outcome, attempts := ConnectTo(node, answers, DefaultPort);
  }
}
