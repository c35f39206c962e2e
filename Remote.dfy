/**
 * What the command wrappers of both schedulers make of a remote call's
 * reply. A call is not run here: its reply is given as the triple
 * `(stdout, stderr, rc)` the SSH layer returns.
 */
module Remote {
  import opened Text

  datatype Reply = Reply(stdout: string, stderr: string, rc: int)

  /** The `(job_id, error_msg)` pair the submit functions return. */
  datatype Submission = Submission(jobId: string, error: string)

  const SubmitFailed := "Failed to submit job"

  /**
   * The result of a submission: the stripped output when it is a job number
   * (`^\d+$`), else the stripped error text or a fixed message.
   */
  function SubmitOutcome(r: Reply): Submission {
    var id := Strip(r.stdout);
    if id == [] || !IsDigits(id) then
      var e := Strip(r.stderr);
      Submission([], if e != [] then e else SubmitFailed)
    else Submission(id, [])
  }

  /** The error string the cancel functions return: empty on success. */
  function CancelOutcome(r: Reply): string {
    if r.rc != 0 then Strip(r.stderr) else []
  }

  /** The guard of the fetch functions: a zero status and some output. */
  predicate HasOutput(r: Reply) {
    r.rc == 0 && Strip(r.stdout) != []
  }

  /** The value of the single-value queries (node, URL, state): the stripped output. */
  function Output(r: Reply): string {
    Strip(r.stdout)
  }

  /** A submission has a job number or an error, never both and never neither. */
  lemma SubmitExactlyOne(r: Reply)
    ensures (SubmitOutcome(r).jobId != []) != (SubmitOutcome(r).error != [])
  {
  }

  /** It has a job number exactly when the output is a run of digits, and then it is that run. */
  lemma SubmitAccepts(r: Reply)
    ensures SubmitOutcome(r).jobId != [] <==> IsDigits(Strip(r.stdout))
    ensures SubmitOutcome(r).jobId != [] ==> SubmitOutcome(r).jobId == Strip(r.stdout)
    ensures SubmitOutcome(r).jobId != [] ==> IsDigits(SubmitOutcome(r).jobId)
  {
  }

  /** A refused submission carries the remote error text, or the fixed message when there is none. */
  lemma SubmitRefuses(r: Reply)
    requires !IsDigits(Strip(r.stdout))
    ensures SubmitOutcome(r).error == (if Strip(r.stderr) != [] then Strip(r.stderr) else SubmitFailed)
  {
  }

  /** The status decides: a zero status is success whatever was printed. */
  lemma CancelSucceeds(r: Reply)
    ensures r.rc == 0 ==> CancelOutcome(r) == []
    ensures r.rc != 0 ==> CancelOutcome(r) == Strip(r.stderr)
  {
  }

  /**
   * A cancel reports an error exactly when the status is non-zero and the
   * error stream holds some non-blank text; the error comes without its
   * surrounding blanks, and what the command printed on `stdout` never
   * matters.
   */
  lemma CancelReported(r: Reply, out: string)
    ensures CancelOutcome(r) != [] <==> r.rc != 0 && Strip(r.stderr) != []
    ensures CancelOutcome(r) != [] ==> !IsSpace(CancelOutcome(r)[0]) && !IsSpace(CancelOutcome(r)[|CancelOutcome(r)| - 1])
    ensures CancelOutcome(r.(stdout := out)) == CancelOutcome(r)
  {
  }

  /**
   * A failed cancel whose error stream is empty reads as a success. The
   * SLURM cancel commands send their error stream to `/dev/null`, so only
   * the SSH layer's own messages can reach the caller.
   */
  lemma SilentCancelFailure(stdout: string)
    ensures CancelOutcome(Reply(stdout, [], 1)) == CancelOutcome(Reply(stdout, [], 0))
  {
  }
}
