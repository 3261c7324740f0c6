/** What an execution or a cancellation leaves behind, exception by exception and
    field by field. */
module WorkflowOutcomes {
  import opened Common
  import opened RunStateMachine
  import opened Failures
  import opened Workflow
  import opened WorkflowQueue
  import R = Runs
  import C = Candidates
  import J = Jobs

  // ---- exceptions ----

  /** The failure kind a run that ends on this exception carries. */
  ghost function NamedKind(exc: Exception): FailureKind {
    match exc
    case StructuredOutputError => InvalidStructuredOutput
    case LLMTimeoutError | InferenceError => Inference
    case ToolExecutionError => Tool
    case NoCompatibleWorkerError | WorkspaceError | OtherError => Infrastructure
  }

  /** How many attempts the policy allows a job that keeps raising it. */
  ghost function AttemptBudget(cfg: Config, exc: Exception): int {
    match exc
    case StructuredOutputError => cfg.retry.maxStructuredOutputRepairs
    case LLMTimeoutError | InferenceError | ToolExecutionError => cfg.retry.maxAttempts
    case NoCompatibleWorkerError | WorkspaceError | OtherError => cfg.retry.maxAttempts
  }

  /** The job is on offer again with one more attempt and the run as it was, if
      and only if that attempt is below the budget of the exception; its row is
      queued while its own budget lasts and dead after that. Otherwise the job is
      off offer, its row dead, and the run FAILED with the named kind. */
  lemma ExceptionDecides(cfg: Config, s: State, k: nat, exc: Exception)
    requires cfg.Valid() && Tracked(cfg, s) && Running(s) && k in s.offered
    ensures k < |s.jobs|
    ensures var t := Step(cfg, s, Execute(k, Threw(exc)));
      var n := s.jobs[k].attempt + 1;
      var again := n < AttemptBudget(cfg, exc);
      && t.candidates == s.candidates && |t.jobs| == |s.jobs|
      && (forall l :: 0 <= l < |s.jobs| && l != k ==> t.jobs[l] == s.jobs[l])
      && t.jobs[k].attempt == n && t.jobs[k].failureKind == Some(NamedKind(exc))
      && t.jobs[k].status == (if again && n < cfg.jobMaxAttempts then J.Queued else J.Dead)
      && (k in t.offered <==> again)
      && (forall l :: l != k ==> (l in t.offered <==> l in s.offered) && (l in s.offered ==> t.offered[l] == s.offered[l]))
      && (again ==> t.run == s.run && t.offered[k].attempt == n && t.offered[k].status == J.Queued)
      && (!again ==> t.run == s.run.(status := Failed, failureKind := Some(NamedKind(exc))))
  {
    hide HandleFailure, Tracked, Classify;
    RowAndCopy(cfg, s, k);
    BudgetDecides(cfg, exc, s.jobs[k].attempt + 1);
    FailureLeaves(cfg, s, k, Classify(exc));
  }

  lemma RowAndCopy(cfg: Config, s: State, k: nat)
    requires Tracked(cfg, s) && k in s.offered
    ensures k < |s.jobs| && Copies(cfg, s.offered[k], s.jobs[k]) && RowSound(cfg, s.jobs[k])
  {
  }

  lemma BudgetDecides(cfg: Config, exc: Exception, n: nat)
    ensures Classify(exc) == NamedKind(exc)
    ensures cfg.retry.Decide(Classify(exc), n).ShouldRetryJob() <==> n < AttemptBudget(cfg, exc)
  {
  }

  lemma FailureLeaves(cfg: Config, s: State, k: nat, kind: FailureKind)
    requires k < |s.jobs| && k in s.offered && Copies(cfg, s.offered[k], s.jobs[k]) && RowSound(cfg, s.jobs[k])
    requires Running(s) && kind in {Infrastructure, Inference, InvalidStructuredOutput, Tool}
    ensures var t := HandleFailure(cfg, Claim(s, k), k, kind);
      var n := s.jobs[k].attempt + 1;
      var again := cfg.retry.Decide(kind, n).ShouldRetryJob();
      && t.candidates == s.candidates && t.jobs == s.jobs[k := t.jobs[k]]
      && t.jobs[k].attempt == n && t.jobs[k].failureKind == Some(kind)
      && t.jobs[k].status == (if again && n < cfg.jobMaxAttempts then J.Queued else J.Dead)
      && (if again then k in t.offered && t.offered == s.offered[k := t.offered[k]] else t.offered == s.offered - {k})
      && (again ==> t.run == s.run && t.offered[k].attempt == n && t.offered[k].status == J.Queued)
      && (!again ==> t.run == s.run.(status := Failed, failureKind := Some(kind)))
  {
    hide RetryPolicy.Decide;
    var t := HandleFailure(cfg, Claim(s, k), k, kind);
    assert s.jobs[k := Claimed(s.offered[k])][k := t.jobs[k]] == s.jobs[k := t.jobs[k]];
  }

  /** A handler that finds its candidate or its run in another state raises, which
      counts as an infrastructure failure of the attempt. */
  lemma StrayWorkIsAFailure(cfg: Config, s: State, k: nat, work: Work)
    requires cfg.Valid() && Tracked(cfg, s) && Running(s) && k in s.offered && work.Answered?
    requires Stray(s, k)
    ensures Step(cfg, s, Execute(k, work)) == Step(cfg, s, Execute(k, Threw(OtherError)))
  {
    assert Copies(cfg, s.offered[k], s.jobs[k]) && RowSound(cfg, s.jobs[k]);
  }

  /** Coders work on coding candidates, stages on validating ones, planners while
      the run is planning; a reviewer takes any candidate there is. */
  ghost predicate Stray(s: State, k: nat) {
    && k < |s.jobs|
    && var j := s.jobs[k];
       if j.kind.Plan? then !s.run.status.Planning?
       else
         || j.candidate.None? || j.candidate.value >= |s.candidates|
         || (j.kind.Code? && !s.candidates[j.candidate.value].status.Coding?)
         || (j.kind.Validate? && !s.candidates[j.candidate.value].status.Validating?)
         || j.kind.LlmInference? || j.kind.PatchApply?
  }

  /** A claim on a run that has ended is turned down: the row is CANCELLED, the
      copy dropped, and nothing else moves. */
  lemma LateClaimIsDropped(cfg: Config, s: State, k: nat, work: Work)
    requires cfg.Valid() && Tracked(cfg, s) && k in s.offered && s.run.status in {Completed, Failed, Cancelled}
    ensures k < |s.jobs|
    ensures var t := Step(cfg, s, Execute(k, work));
      && t.run == s.run && t.candidates == s.candidates && |t.jobs| == |s.jobs|
      && (forall l :: 0 <= l < |s.jobs| && l != k ==> t.jobs[l] == s.jobs[l])
      && t.jobs[k].status == J.Cancelled && t.jobs[k].attempt == s.jobs[k].attempt + 1
      && t.offered == s.offered - {k}
  {
    assert Copies(cfg, s.offered[k], s.jobs[k]) && RowSound(cfg, s.jobs[k]);
  }

  // ---- cancellation ----

  predicate JobIsOver(j: J.JobRecord) { j.status.Succeeded? || j.status.Dead? || j.status.Cancelled? }

  predicate CandidateIsOver(c: C.CandidateRecord) {
    c.status.Rejected? || c.status.Selected? || c.status.Failed? || c.status.Cancelled?
  }

  /** Cancelling a live run stops it and everything of it that is not over, takes
      every job off offer, and leaves what is over as it is. */
  lemma CancelStopsEverything(cfg: Config, s: State)
    requires Running(s)
    ensures var t := Step(cfg, s, Cancel);
      && t.run == s.run.(status := Cancelled, failureKind := Some(CancelledByRun))
      && t.offered == map[]
      && |t.candidates| == |s.candidates|
      && (forall i :: 0 <= i < |s.candidates| ==>
            t.candidates[i] == if CandidateIsOver(s.candidates[i]) then s.candidates[i] else s.candidates[i].(status := C.Cancelled))
      && |t.jobs| == |s.jobs|
      && (forall k :: 0 <= k < |s.jobs| ==>
            if JobIsOver(s.jobs[k]) then t.jobs[k] == s.jobs[k]
            else t.jobs[k].status == J.Cancelled && t.jobs[k].lease == None && t.jobs[k].failureKind == Some(CancelledByRun)
                 && t.jobs[k].attempt == s.jobs[k].attempt)
  {
  }

  /** A run that has ended, or is being cancelled already, is left alone. */
  lemma CancelOnce(cfg: Config, s: State)
    requires s.run.status in {Completed, Failed, Cancelled, Cancelling}
    ensures Step(cfg, s, Cancel) == s
  {
  }
}
