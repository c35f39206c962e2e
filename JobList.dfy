/**
 * The status line both dashboards show under their job tables once a job
 * list has been fetched (lip6tui/conv/app.py and lip6tui/hpc/app.py,
 * `refresh_jobs`).
 */
module JobList {
  import opened Text

  /** `No jobs found`, or the number of jobs followed by ` job(s) found`. */
  function StatusText<J>(jobs: seq<J>): string {
    if jobs == [] then "No jobs found" else NatToString(|jobs|) + " job(s) found"
  }

  /** The status line says no jobs exactly when there are none, and otherwise leads with their number. */
  lemma StatusCounts<J>(jobs: seq<J>)
    ensures StatusText(jobs) == "No jobs found" <==> jobs == []
    ensures jobs != [] ==>
      exists d :: IsDigits(d) && DigitsValue(d) == |jobs| && StatusText(jobs) == d + " job(s) found"
  {
    if jobs != [] {
      var d := NatToString(|jobs|);
      NatToStringValue(|jobs|);
      assert StatusText(jobs)[0] == d[0];
      assert "No jobs found"[0] == 'N';
    }
  }
}
