/**
 * The waiting screen both apps push after a submission: every poll reads
 * the job's state and decides to keep waiting, to hand over to the
 * connection step, or to report a failure. The two schedulers name their
 * states differently; the decision is the same.
 */
module Tracker {
  /** The states a scheduler reports for "started" and for "will never start". */
  datatype Vocabulary = Vocabulary(running: string, failed: seq<string>)

  /** SLURM's `squeue`/`sacct` state names. */
  const SlurmStates := Vocabulary("RUNNING", ["FAILED", "CANCELLED", "TIMEOUT"])

  /** OAR's `oarstat` state names. */
  const OarStates := Vocabulary("Running", ["Error", "Terminated"])

  datatype Decision = KeepWaiting | Connect | Fail

  /** What one poll decides on the state it read; the running state is tested first. */
  function Decide(v: Vocabulary, state: string): Decision {
    if state == v.running then Connect
    else if state in v.failed then Fail
    else KeepWaiting
  }

  /** The state label: the raw state, or `PENDING` while the scheduler prints nothing. */
  function Shown(state: string): string {
    if state == [] then "PENDING" else state
  }

  /** A vocabulary whose "started" name is not also a failure name, and which names no blank state. */
  predicate WellFormed(v: Vocabulary) {
    v.running != [] && v.running !in v.failed && [] !in v.failed
  }

  lemma VocabulariesWellFormed()
    ensures WellFormed(SlurmStates) && WellFormed(OarStates)
  {
  }

  /** Each decision happens on exactly the states the vocabulary gives it. */
  lemma DecideCases(v: Vocabulary, state: string)
    requires WellFormed(v)
    ensures Decide(v, state) == Connect <==> state == v.running
    ensures Decide(v, state) == Fail <==> state in v.failed
    ensures Decide(v, state) == KeepWaiting <==> state != v.running && state !in v.failed
  {
  }

  /** A blank answer, as when the job is not yet known to the scheduler, keeps the screen waiting. */
  lemma BlankKeepsWaiting(v: Vocabulary)
    requires WellFormed(v)
    ensures Decide(v, []) == KeepWaiting && Shown([]) == "PENDING"
  {
  }

  /** The caption is never blank, and it is the state itself whenever there is one. */
  lemma ShownFacts(state: string)
    ensures Shown(state) != []
    ensures state != [] ==> Shown(state) == state
  {
  }

  /** A state one scheduler connects on is not a failure for the other; SLURM's names are upper case. */
  lemma VocabulariesApart(state: string)
    ensures Decide(SlurmStates, state) == Connect ==> Decide(OarStates, state) == KeepWaiting
    ensures Decide(OarStates, state) == Connect ==> Decide(SlurmStates, state) == KeepWaiting
  {
  }

  /** What a poll or the escape key asks of the app. */
  datatype Effect =
    | Stay
    | StartConnect(jobId: string)
    | ReportFailure(message: string)
    | StillQueued(message: string)

  /** The effect of a poll on the decision it made. */
  function PollEffect(jobId: string, state: string, d: Decision): Effect {
    match d
    case KeepWaiting => Stay
    case Connect => StartConnect(jobId)
    case Fail => ReportFailure("Job " + jobId + " failed: " + state)
  }

  /** The waiting screen: its job, its vocabulary and whether it is still on screen. */
  class WaitingScreen {
    const jobId: string
    const vocab: Vocabulary
    var active: bool
    var caption: string

    /** A fresh screen shows `PENDING` until the first poll. */
    constructor (jobId: string, vocab: Vocabulary)
      ensures this.jobId == jobId && this.vocab == vocab
      ensures active && caption == "PENDING"
    {
      this.jobId := jobId;
      this.vocab := vocab;
      active := true;
      caption := "PENDING";
    }

    /**
     * `_poll`: show the state, then leave the screen and connect, leave it
     * and report, or stay. Polls run only while the screen is mounted.
     */
    method Poll(state: string) returns (effect: Effect)
      requires active
      modifies this
      ensures caption == Shown(state)
      ensures active == (Decide(vocab, state) == KeepWaiting)
      ensures effect == PollEffect(jobId, state, Decide(vocab, state))
    {
      caption := if state == [] then "PENDING" else state;
      if state == vocab.running {
        active := false;
        effect := StartConnect(jobId);
      } else if state in vocab.failed {
        active := false;
        effect := ReportFailure("Job " + jobId + " failed: " + state);
      } else {
        effect := Stay;
      }
    }

    /** `stop_waiting`: leave with a warning; the job is left queued, nothing is cancelled. */
    method StopWaiting() returns (effect: Effect)
      modifies this
      ensures !active && caption == old(caption)
      ensures effect == StillQueued("Job " + jobId + " still queued. Reconnect later.")
    {
      active := false;
      effect := StillQueued("Job " + jobId + " still queued. Reconnect later.");
    }
  }

  /** Stopping the wait is never a connection attempt and never a failure report. */
  lemma StopIsNotPoll(jobId: string, state: string, d: Decision)
    ensures !PollEffect(jobId, state, d).StillQueued?
    ensures PollEffect(jobId, state, d) == Stay <==> d == KeepWaiting
  {
  }
}
