/**
 * The decisions of the SLURM dashboard (lip6tui/conv/app.py): the split of
 * the job list into the running and pending tables, the connect action's
 * dispatch, the node summary of the cluster status screen, and the waiting
 * screen's poll on the `squeue`/`sacct` answers.
 */
module ConvApp {
  import opened Wrappers
  import opened Seqs
  import opened Text
  import opened Remote
  import opened SlurmCommands
  import opened Tracker
  import opened Endpoint
  import opened JobList

  /** The port forwarded when the Jupyter URL names none. */
  const DefaultPort := 9888

  predicate IsRunning(j: SlurmJob) { j.state == SlurmStates.running }

  predicate IsPending(j: SlurmJob) { !IsRunning(j) }

  function RunningJobs(jobs: seq<SlurmJob>): seq<SlurmJob> { Filter(IsRunning, jobs) }

  function PendingJobs(jobs: seq<SlurmJob>): seq<SlurmJob> { Filter(IsPending, jobs) }

  /**
   * The two tables partition the job list: every job is in exactly one of
   * them, nothing is added, and each table keeps the listing's order.
   */
  lemma TablesPartition(jobs: seq<SlurmJob>, j: SlurmJob)
    ensures multiset(RunningJobs(jobs)) + multiset(PendingJobs(jobs)) == multiset(jobs)
    ensures |RunningJobs(jobs)| + |PendingJobs(jobs)| == |jobs|
    ensures j in RunningJobs(jobs) <==> j in jobs && j.state == "RUNNING"
    ensures j in PendingJobs(jobs) <==> j in jobs && j.state != "RUNNING"
  {
    FilterPartition(IsRunning, IsPending, jobs);
    FilterMembers(IsRunning, jobs, j);
    FilterMembers(IsPending, jobs, j);
  }

  /** Splitting a longer listing splits each stretch of it in turn. */
  lemma TablesKeepOrder(a: seq<SlurmJob>, b: seq<SlurmJob>)
    ensures RunningJobs(a + b) == RunningJobs(a) + RunningJobs(b)
    ensures PendingJobs(a + b) == PendingJobs(a) + PendingJobs(b)
  {
    FilterAppend(IsRunning, a, b);
    FilterAppend(IsPending, a, b);
  }

  /** A running-table row: id, name cut to 20, node cut to 12, and the three times. */
  function RunningRow(j: SlurmJob): seq<string> {
    [j.jobId, Truncate(j.name, 20), Truncate(j.node, 12), j.elapsed, j.timeLimit, j.timeLeft]
  }

  /** A pending-table row: id, name cut to 20, time limit, reason cut to 20. */
  function PendingRow(j: SlurmJob): seq<string> {
    [j.jobId, Truncate(j.name, 20), j.timeLimit, Truncate(j.reason, 20)]
  }

  /** What the connect key does. */
  datatype Dispatch = NothingRunning | ConnectJob(jobId: string, name: string) | PickJob(running: seq<SlurmJob>)

  function ConnectDispatch(jobs: seq<SlurmJob>): Dispatch {
    var running := RunningJobs(jobs);
    if running == [] then NothingRunning
    else if |running| == 1 then ConnectJob(running[0].jobId, running[0].name)
    else PickJob(running)
  }

  /**
   * No running job warns; exactly one connects to that job at once; more
   * open the picker on the running jobs, all of them and no other.
   */
  lemma DispatchCases(jobs: seq<SlurmJob>)
    ensures ConnectDispatch(jobs) == NothingRunning <==> forall k :: 0 <= k < |jobs| ==> jobs[k].state != "RUNNING"
    ensures ConnectDispatch(jobs).ConnectJob? <==> |RunningJobs(jobs)| == 1
    ensures ConnectDispatch(jobs).ConnectJob? ==>
      ConnectDispatch(jobs).jobId == RunningJobs(jobs)[0].jobId
      && ConnectDispatch(jobs).name == RunningJobs(jobs)[0].name
      && exists k :: 0 <= k < |jobs| && jobs[k].state == "RUNNING" && ConnectDispatch(jobs).jobId == jobs[k].jobId
    ensures ConnectDispatch(jobs).PickJob? <==> |RunningJobs(jobs)| >= 2
    ensures ConnectDispatch(jobs).PickJob? ==>
      ConnectDispatch(jobs).running == RunningJobs(jobs)
      && forall j :: j in ConnectDispatch(jobs).running <==> j in jobs && j.state == "RUNNING"
  {
    var running := RunningJobs(jobs);
    forall j
      ensures j in running <==> j in jobs && j.state == "RUNNING"
    {
      FilterMembers(IsRunning, jobs, j);
    }
    if running == [] {
      forall k | 0 <= k < |jobs|
        ensures jobs[k].state != "RUNNING"
      {
        FilterMembers(IsRunning, jobs, jobs[k]);
      }
    } else {
      assert running[0] in running;
      var k :| 0 <= k < |jobs| && jobs[k] == running[0];
    }
  }

  /** The counts under the node table. */
  datatype NodeSummary = NodeSummary(total: nat, idle: nat, mixed: nat, alloc: nat, down: nat)

  function StateOf(n: NodeInfo): string { Lower(n.state) }

  predicate IsIdle(n: NodeInfo) { Contains(StateOf(n), "idle") }

  predicate IsMixed(n: NodeInfo) { Contains(StateOf(n), "mix") }

  /** Allocated, but not partly: `mix` states are counted as mixed only. */
  predicate IsAllocated(n: NodeInfo) { Contains(StateOf(n), "alloc") && !Contains(StateOf(n), "mix") }

  predicate IsDown(n: NodeInfo) { Contains(StateOf(n), "down") || Contains(StateOf(n), "drain") }

  predicate IsBusy(n: NodeInfo) { IsMixed(n) || IsAllocated(n) }


  function Summarize(nodes: seq<NodeInfo>): NodeSummary {
    NodeSummary(|nodes|, Count(IsIdle, nodes), Count(IsMixed, nodes), Count(IsAllocated, nodes), Count(IsDown, nodes))
  }

  function SummaryText(s: NodeSummary): string {
    NatToString(s.total) + " nodes: " + NatToString(s.idle) + " idle, " + NatToString(s.mixed) + " mixed, "
    + NatToString(s.alloc) + " allocated, " + NatToString(s.down) + " down/drain"
  }

  /**
   * No count exceeds the number of nodes, and a node is never counted both
   * as mixed and as allocated, so those two together fit in the total.
   */
  lemma SummaryBounds(nodes: seq<NodeInfo>)
    ensures var s := Summarize(nodes);
      s.idle <= s.total && s.mixed <= s.total && s.alloc <= s.total && s.down <= s.total
      && s.mixed + s.alloc == Count(IsBusy, nodes) <= s.total
  {
    CountDisjoint(IsMixed, IsAllocated, IsBusy, nodes);
  }

  /** A node whose state says both `idle` and `mix` counts twice: the counts need not add up to the total. */
  lemma CountsOverlap(n: NodeInfo)
    requires n.state == "idle+mix"
    ensures Summarize([n]).idle == Summarize([n]).mixed == Summarize([n]).total == 1
  {
    var t := Lower(n.state);
    assert t == "idle+mix";
    assert t[..4] == "idle";
    ContainsAt(t, "idle", 0);
    assert t[5..8] == "mix";
    ContainsAt(t, "mix", 5);
    assert [n][..0] == [];
  }

  /** The waiting screen's poll on the two state queries. */
  function PollDecision(squeue: Reply, sacct: Reply): Decision {
    Decide(SlurmStates, JobState(squeue, sacct))
  }

  /** Once `squeue` names the job's state, the finished-job query cannot change the decision. */
  lemma SqueueDecides(squeue: Reply, sacct1: Reply, sacct2: Reply)
    requires !NeedsSacct(squeue)
    ensures PollDecision(squeue, sacct1) == PollDecision(squeue, sacct2)
  {
    SqueueAnswerWins(squeue, sacct1, sacct2);
  }

  /** A job both queries are silent about is still waited for. */
  lemma SilentJobWaits(squeue: Reply, sacct: Reply)
    requires Output(squeue) == [] && Output(sacct) == []
    ensures PollDecision(squeue, sacct) == KeepWaiting
  {
  }

  /** The dashboard: the last job list and the two tables drawn from it. */
  class Dashboard {
    var jobs: seq<SlurmJob>
    var runningRows: seq<seq<string>>
    var pendingRows: seq<seq<string>>
    var status: string

    constructor ()
      ensures jobs == [] && runningRows == [] && pendingRows == [] && status == []
    {
      jobs := [];
      runningRows := [];
      pendingRows := [];
      status := [];
    }

    /** `_update_tables`: redraw both tables from the job list. */
    method UpdateTables()
      modifies this
      ensures jobs == old(jobs) && status == old(status)
      ensures runningRows == Map(RunningRow, RunningJobs(jobs))
      ensures pendingRows == Map(PendingRow, PendingJobs(jobs))
    {
      var running := RunningJobs(jobs);
      var pending := PendingJobs(jobs);
      runningRows := [];
      for i := 0 to |running|
        invariant jobs == old(jobs) && status == old(status)
        invariant runningRows == Map(RunningRow, running[..i])
      {
        runningRows := runningRows + [RunningRow(running[i])];
      }
      assert running[..|running|] == running;
      pendingRows := [];
      for i := 0 to |pending|
        invariant jobs == old(jobs) && status == old(status)
        invariant runningRows == Map(RunningRow, running)
        invariant pendingRows == Map(PendingRow, pending[..i])
      {
        pendingRows := pendingRows + [PendingRow(pending[i])];
      }
      assert pending[..|pending|] == pending;
    }

    /** `refresh_jobs`, given the reply of the `squeue` call. */
    method Refresh(r: Reply)
      modifies this
      ensures jobs == SqueueReply(r)
      ensures runningRows == Map(RunningRow, RunningJobs(jobs))
      ensures pendingRows == Map(PendingRow, PendingJobs(jobs))
      ensures status == StatusText(jobs)
    {
      jobs := FetchJobs(r);
      UpdateTables();
      if jobs != [] {
        status := NatToString(|jobs|) + " job(s) found";
      } else {
        status := "No jobs found";
      }
    }

    /** `action_connect`. */
    method ConnectChoice() returns (d: Dispatch)
      ensures d == ConnectDispatch(jobs)
    {
      var running := RunningJobs(jobs);
      if running == [] {
        return NothingRunning;
      }
      if |running| == 1 {
        return ConnectJob(running[0].jobId, running[0].name);
      }
      d := PickJob(running);
    }
  }

  /** `_connect_to` with this app's default port. */
  method Connect(node: string, answers: seq<string>) returns (outcome: Connection, attempts: nat)
    ensures outcome == ConnectOutcome(node, answers, DefaultPort)
    ensures !NodeUsable(node) ==> attempts == 0
    ensures NodeUsable(node) ==> attempts == Attempts(answers, 0)
  {
    outcome, attempts := ConnectTo(node, answers, DefaultPort);
  }
}
