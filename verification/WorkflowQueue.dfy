/** What holds of rows and offers in every history, whatever the configuration:
    decisions publish new jobs, and one execution spends one attempt. */
module WorkflowQueue {
  import opened Common
  import opened RunStateMachine
  import opened Failures
  import opened Workflow
  import R = Runs
  import C = Candidates
  import J = Jobs
  import S = Selection

  // ---- decisions only publish new jobs ----

  ghost predicate NewJob(cfg: Config, j: J.JobRecord) {
    && j.status == J.Queued && j.lease == None && j.completedAt == None
    && j.attempt == 0 && j.maxAttempts == cfg.jobMaxAttempts
    && (j.kind == J.Plan || j.candidate.Some?)
    && (j.kind.Validate? ==> j.kind.stage in cfg.configured && j.priority == J.High)
  }

  ghost predicate NewJobs(cfg: Config, added: seq<J.JobRecord>) {
    forall i :: 0 <= i < |added| ==> NewJob(cfg, added[i])
  }

  /** `t` has the rows and offers of `s`, and those of some new jobs. */
  ghost predicate Publishes(cfg: Config, s: State, t: State) {
    exists added :: NewJobs(cfg, added) && t.jobs == s.jobs + added && t.offered == Publish(s, added).offered
  }

  lemma PublishingNew(cfg: Config, s: State, u: State, added: seq<J.JobRecord>)
    requires u.jobs == s.jobs && u.offered == s.offered && NewJobs(cfg, added)
    ensures Publishes(cfg, s, Publish(u, added))
  {
    assert Publish(u, added).offered == Publish(s, added).offered;
  }

  lemma PublishingNothing(cfg: Config, s: State, u: State)
    requires u.jobs == s.jobs && u.offered == s.offered
    ensures Publishes(cfg, s, u)
  {
    assert u.jobs == s.jobs + [] && u.offered == Publish(s, []).offered;
  }

  lemma CandidatesPublish(cfg: Config, s: State, u: State)
    requires u.jobs == s.jobs && u.offered == s.offered
    ensures Publishes(cfg, s, OpenCandidates(cfg, u))
  {
    PublishingNew(cfg, s, u.(candidates := u.candidates + NewCandidates(cfg.candidateCount)),
                  CodeJobs(cfg, |s.jobs|, cfg.candidateCount));
  }

  lemma OneJobPublishes(cfg: Config, s: State, u: State, kind: J.JobType, candidate: Option<nat>, priority: J.Priority)
    requires u.jobs == s.jobs && u.offered == s.offered && !kind.Validate? && (kind == J.Plan || candidate.Some?)
    ensures Publishes(cfg, s, Publish(u, [OpenJob(cfg, |s.jobs|, kind, candidate, priority)]))
  {
    PublishingNew(cfg, s, u, [OpenJob(cfg, |s.jobs|, kind, candidate, priority)]);
  }

  lemma {:induction false} StageJobsAreNew(cfg: Config, s: seq<C.CandidateRecord>, base: nat)
    ensures NewJobs(cfg, StageJobs(cfg, s, base))
  {
    if s != [] {
      StageJobsAreNew(cfg, s[..|s| - 1], base);
      NextStageIsConfigured(cfg, s[|s| - 1].validation);
    }
  }

  lemma NextStageIsConfigured(cfg: Config, v: C.ValidationReport)
    ensures C.NextStage(cfg.configured, v).Some? ==> C.NextStage(cfg.configured, v).value in cfg.configured
  {
  }

  lemma RepairPublishes(cfg: Config, s: State, u: State, target: Option<nat>)
    requires u.jobs == s.jobs && u.offered == s.offered && RepairOrFail(cfg, u, target).Ok?
    ensures Publishes(cfg, s, RepairOrFail(cfg, u, target).value)
  {
    hide Publish, OpenJob, Publishes;
    var t := RepairOrFail(cfg, u, target).value;
    if target.None? || !u.run.CanRepair() {
      PublishingNothing(cfg, s, t);
    } else {
      var run := R.StartCoding(R.RequestRepair(u.run).value).value;
      var c := C.StartRepair(u.candidates[target.value]).value;
      OneJobPublishes(cfg, s, u.(run := run, candidates := u.candidates[target.value := c]), J.Code, target, J.High);
    }
  }

  lemma CandidateDecisionPublishes(cfg: Config, s: State)
    requires AdvanceCandidates(cfg, s).Ok?
    ensures Publishes(cfg, s, AdvanceCandidates(cfg, s).value)
  {
    hide Publish, OpenJob, Publishes, RepairOrFail, StageJobs, Pick;
    var t := AdvanceCandidates(cfg, s).value;
    var u := s.(candidates := SettleAll(cfg, s.candidates));
    var followUps := StageJobs(cfg, s.candidates, |s.jobs|);
    if followUps != [] {
      StageJobsAreNew(cfg, s.candidates, |s.jobs|);
      PublishingNew(cfg, s, u.(run := t.run), followUps);
    } else {
      var settled := Settled(u.candidates);
      var viable := S.Viable(settled);
      if settled == [] {
        PublishingNothing(cfg, s, u);
      } else if viable != [] {
        OneJobPublishes(cfg, s, u.(run := t.run), J.ReviewCode, Some(Pick(viable).index), J.Normal);
      } else {
        RepairPublishes(cfg, s, u, Some(settled[0].index));
      }
    }
  }

  lemma ReviewDecisionPublishes(cfg: Config, s: State)
    requires AdvanceReview(cfg, s).Ok?
    ensures Publishes(cfg, s, AdvanceReview(cfg, s).value)
  {
    hide Publishes, RepairOrFail, Pick, WithVerdict;
    var passed, failing := WithVerdict(s.candidates, C.Pass), WithVerdict(s.candidates, C.Fail);
    if passed != [] {
      PublishingNothing(cfg, s, AdvanceReview(cfg, s).value);
    } else if failing != [] {
      RepairPublishes(cfg, s, s, Some(failing[0].index));
    } else {
      RepairPublishes(cfg, s, s, if s.candidates != [] then Some(s.candidates[0].index) else None);
    }
  }

  lemma FirstDecisionPublishes(cfg: Config, s: State)
    requires OpenFirstStage(cfg, s).Ok?
    ensures Publishes(cfg, s, OpenFirstStage(cfg, s).value)
  {
    hide Publishes, Publish, OpenJob, OpenCandidates;
    if cfg.requiresPlan {
      OneJobPublishes(cfg, s, s.(run := R.StartPlanning(s.run).value), J.Plan, None, J.Normal);
    } else {
      CandidatesPublish(cfg, s, s.(run := R.StartCoding(s.run).value));
    }
  }

  /** Whatever is decided, earlier rows and offers stay and the new ones are new. */
  lemma DecisionsPublish(cfg: Config, s: State)
    requires AdvanceRun(cfg, s).Ok?
    ensures Publishes(cfg, s, AdvanceRun(cfg, s).value)
  {
    hide Publishes, AdvanceCandidates, AdvanceReview, OpenFirstStage, OpenCandidates, HasUnfinished;
    if s.run.status.IsTerminal() || s.run.status.IsStopping() || HasUnfinished(s.jobs)
       || s.run.status in {Planning, Cancelling} {
      PublishingNothing(cfg, s, s);
    } else if s.run.status == Created {
      FirstDecisionPublishes(cfg, s);
    } else if s.run.status == PlanReady {
      CandidatesPublish(cfg, s, s.(run := R.StartCoding(s.run).value));
    } else if s.run.status == Reviewing {
      ReviewDecisionPublishes(cfg, s);
    } else {
      CandidateDecisionPublishes(cfg, s);
    }
  }

  // ---- rows and copies ----

  /** The most attempts the policy ever asks of one job. */
  function PolicyCap(cfg: Config): nat {
    if cfg.retry.maxStructuredOutputRepairs > cfg.retry.maxAttempts
    then cfg.retry.maxStructuredOutputRepairs else cfg.retry.maxAttempts
  }

  ghost predicate RowSound(cfg: Config, j: J.JobRecord) {
    && j.maxAttempts == cfg.jobMaxAttempts && j.attempt <= PolicyCap(cfg)
    && (j.status == J.Queued || j.status.IsTerminal())
    && (j.kind == J.Plan || j.candidate.Some?)
    && (j.kind.Validate? ==> j.kind.stage in cfg.configured && j.priority == J.High)
  }

  /** A copy on offer asks for what its row asked for, with the attempts spent so far. */
  ghost predicate Copies(cfg: Config, copy: J.JobRecord, row: J.JobRecord) {
    && copy.status == J.Queued && copy.lease == None && copy.completedAt == None && copy.attempt < PolicyCap(cfg)
    && copy.kind == row.kind && copy.candidate == row.candidate && copy.priority == row.priority
    && copy.attempt == row.attempt && copy.maxAttempts == row.maxAttempts
    && (row.status == J.Queued ==> copy == row)
  }

  ghost predicate Tracked(cfg: Config, s: State) {
    && (forall k :: 0 <= k < |s.jobs| ==> RowSound(cfg, s.jobs[k]))
    && (forall k :: 0 <= k < |s.jobs| && s.jobs[k].status == J.Queued ==> k in s.offered)
    && (forall k :: k in s.offered ==> k < |s.jobs| && Copies(cfg, s.offered[k], s.jobs[k]))
  }

  lemma PublishingKeepsTracked(cfg: Config, s: State, t: State)
    requires cfg.Valid() && Tracked(cfg, s) && Publishes(cfg, s, t)
    ensures Tracked(cfg, t)
    ensures forall k :: 0 <= k < |s.jobs| ==> k < |t.jobs| && t.jobs[k] == s.jobs[k]
  {
    var added :| NewJobs(cfg, added) && t.jobs == s.jobs + added && t.offered == Publish(s, added).offered;
    hide Publishes, RowSound, Copies;
    forall k | 0 <= k < |t.jobs|
      ensures RowSound(cfg, t.jobs[k]) && (t.jobs[k].status == J.Queued ==> k in t.offered)
      ensures k in t.offered ==> Copies(cfg, t.offered[k], t.jobs[k])
    {
      if k < |s.jobs| {
        assert t.jobs[k] == s.jobs[k];
      } else {
        assert t.jobs[k] == added[k - |s.jobs|] && NewJob(cfg, added[k - |s.jobs|]);
        NewIsSound(cfg, t.jobs[k]);
      }
    }
  }

  lemma NewIsSound(cfg: Config, j: J.JobRecord)
    requires cfg.Valid() && NewJob(cfg, j)
    ensures RowSound(cfg, j) && Copies(cfg, j, j)
  {
  }

  // ---- claims in line ----

  /** Higher priority first, then the older job; jobs are numbered as they are created. */
  ghost predicate Ahead(s: State, k: nat, l: nat)
    requires k in s.offered && l in s.offered
  {
    var a, b := s.offered[k].priority, s.offered[l].priority;
    a.Above(b) || (a == b && k < l)
  }

  ghost predicate FirstInLine(s: State, k: nat) {
    k in s.offered && forall l :: l in s.offered && l != k ==> Ahead(s, k, l)
  }

  /** A claim that takes nothing but the first job in line. */
  ghost predicate InLine(s: State, e: Event) { e.Execute? && e.job in s.offered ==> FirstInLine(s, e.job) }

  /** One claim at a time, each taking the first job in line. */
  ghost predicate InLineRun(cfg: Config, s: State, events: seq<Event>) {
    events != [] ==>
      && InLineRun(cfg, s, events[..|events| - 1])
      && InLine(Exec(cfg, s, events[..|events| - 1]), events[|events| - 1])
  }

  // ---- one execution ----

  /** What a handler that does not raise does to the run or its candidate. */
  ghost predicate Handled(cfg: Config, s: State, t: State, j: J.JobRecord, work: Work)
    requires work.Answered?
  {
    if j.kind == J.Plan then
      s.run.status == Planning && t.run == s.run.(status := PlanReady) && t.candidates == s.candidates
    else
      && j.candidate.Some? && j.candidate.value < |s.candidates| && t.run == s.run
      && var i := j.candidate.value;
         var c := s.candidates[i];
         && |t.candidates| == |s.candidates| && t.candidates == s.candidates[i := t.candidates[i]]
         && match j.kind
            case Code => c.status == C.Coding && t.candidates[i] == c.(patch := Some(work.patch), status := C.Validating)
            case ReviewCode => t.candidates[i] == C.RecordReview(c, work.verdict)
            case Validate(stage) =>
              && c.status == C.Validating
              && t.candidates[i] == if stage in cfg.available
                   then c.(validation := c.validation.ExtendedWith([C.ToolResult(stage, work.exitCode, c.repairIterations)]))
                   else c
            case _ => false
  }

  /** The only outcomes of claiming a job of a live run: handled and off offer,
      failed and on offer again, or failed and the run ended. */
  ghost predicate Outcome(cfg: Config, s: State, t: State, k: nat, work: Work)
    requires k < |s.jobs| && |t.jobs| == |s.jobs|
  {
    || (work.Answered? && Handled(cfg, s, t, s.jobs[k], work) && t.offered == s.offered - {k} && t.jobs[k].status == J.Succeeded)
    || (&& t.candidates == s.candidates
        && (|| (t.run == s.run && k in t.offered && t.offered == s.offered[k := t.offered[k]])
            || (t.run.status == Failed && t.run == s.run.(status := Failed, failureKind := t.run.failureKind)
                && t.offered == s.offered - {k})))
  }

  /** Only the claimed job's row changes, by one attempt. */
  ghost predicate OneRow(s: State, t: State, k: nat)
    requires k < |s.jobs|
  {
    && |t.jobs| == |s.jobs| && t.jobs == s.jobs[k := t.jobs[k]]
    && t.jobs[k].attempt == s.jobs[k].attempt + 1
    && t.jobs[k].kind == s.jobs[k].kind && t.jobs[k].candidate == s.jobs[k].candidate && t.jobs[k].priority == s.jobs[k].priority
  }

  ghost predicate Running(s: State) {
    s.run.status in {Created, Planning, PlanReady, Coding, Validating, Reviewing}
  }

  lemma FailureOutcome(cfg: Config, s: State, k: nat, kind: FailureKind)
    requires cfg.Valid() && Running(s) && k < |s.jobs| && k in s.offered
    requires Copies(cfg, s.offered[k], s.jobs[k]) && RowSound(cfg, s.jobs[k])
    requires !kind.IsCodeDefect() && kind != CancelledByRun
    ensures var t := HandleFailure(cfg, Claim(s, k), k, kind);
      && OneRow(s, t, k) && t.candidates == s.candidates && RowSound(cfg, t.jobs[k])
      && (t.jobs[k].status == J.Queued ==> k in t.offered)
      && (|| (t.run == s.run && k in t.offered && t.offered == s.offered[k := t.offered[k]] && Copies(cfg, t.offered[k], t.jobs[k]))
          || (t.run.status == Failed && t.run == s.run.(status := Failed, failureKind := t.run.failureKind)
              && t.offered == s.offered - {k}))
  {
    var t := HandleFailure(cfg, Claim(s, k), k, kind);
    assert s.jobs[k := Claimed(s.offered[k])][k := t.jobs[k]] == s.jobs[k := t.jobs[k]];
  }

  lemma HandlerOutcome(cfg: Config, s: State, k: nat, work: Work)
    requires cfg.Valid() && Running(s) && k < |s.jobs| && k in s.offered && work.Answered?
    requires Copies(cfg, s.offered[k], s.jobs[k]) && RowSound(cfg, s.jobs[k])
    requires Dispatch(cfg, Claim(s, k), k, work.patch, work.exitCode, work.verdict).Ok?
    ensures var t := Dispatch(cfg, Claim(s, k), k, work.patch, work.exitCode, work.verdict).value;
      && OneRow(s, t, k) && RowSound(cfg, t.jobs[k]) && t.jobs[k].status == J.Succeeded
      && t.offered == s.offered - {k} && Handled(cfg, s, t, s.jobs[k], work)
  {
    var s1 := Claim(s, k);
    assert s1.jobs[k].HasLease(TOKEN, NOW);
    var done := J.Complete(s1.jobs[k], Some(TOKEN), NOW).job;
    assert s1.jobs[k := done] == s.jobs[k := done];
    if s.jobs[k].kind.Validate? && s.jobs[k].candidate.value < |s.candidates| {
      var c := s.candidates[s.jobs[k].candidate.value];
      assert c.validation.ExtendedWith([]) == c.validation;
    }
  }

  lemma ExecuteOutcome(cfg: Config, s: State, k: nat, work: Work)
    requires cfg.Valid() && Tracked(cfg, s) && Running(s) && k in s.offered
    ensures var t := ExecuteJob(cfg, s, k, work);
      OneRow(s, t, k) && Outcome(cfg, s, t, k, work) && Tracked(cfg, t)
  {
    var t := ExecuteJob(cfg, s, k, work);
    hide Copies, RowSound, HandleFailure, Dispatch, Handled;
    if work.Answered? && Dispatch(cfg, Claim(s, k), k, work.patch, work.exitCode, work.verdict).Ok? {
      HandlerOutcome(cfg, s, k, work);
    } else {
      FailureOutcome(cfg, s, k, Classify(if work.Threw? then work.exc else OtherError));
    }
    RowKeepsTracked(cfg, s, t, k);
  }

  lemma RowKeepsTracked(cfg: Config, s: State, t: State, k: nat)
    requires Tracked(cfg, s) && k < |s.jobs| && OneRow(s, t, k) && RowSound(cfg, t.jobs[k])
    requires t.jobs[k].status == J.Queued ==> k in t.offered
    requires t.offered == s.offered - {k}
      || (k in t.offered && t.offered == s.offered[k := t.offered[k]] && Copies(cfg, t.offered[k], t.jobs[k]))
    ensures Tracked(cfg, t)
  {
    hide Copies, RowSound;
  }

  /** On a run that has ended the claim is turned down and the copy dropped. */
  lemma LateExecution(cfg: Config, s: State, k: nat, work: Work)
    requires cfg.Valid() && Tracked(cfg, s) && k in s.offered && s.run.status.IsTerminal()
    ensures var t := ExecuteJob(cfg, s, k, work);
      && OneRow(s, t, k) && t.run == s.run && t.candidates == s.candidates
      && t.offered == s.offered - {k} && Tracked(cfg, t)
  {
    var t := ExecuteJob(cfg, s, k, work);
    assert s.jobs[k := Claimed(s.offered[k])][k := t.jobs[k]] == s.jobs[k := t.jobs[k]];
    RowKeepsTracked(cfg, s, t, k);
  }

  lemma CancellingKeepsTracked(cfg: Config, s: State)
    requires Tracked(cfg, s)
    ensures Tracked(cfg, CancelAll(s)) && |CancelAll(s).jobs| == |s.jobs|
    ensures forall k :: 0 <= k < |s.jobs| ==> CancelAll(s).jobs[k].attempt == s.jobs[k].attempt
  {
  }


  // ---- every history ----

  /** Between steps a run is live or ended, and its repairs are within their budget. */
  ghost predicate Steady(cfg: Config, s: State) {
    && (Running(s) || s.run.status.IsTerminal())
    && s.run.maxRepairIterations == cfg.maxRepairIterations && s.run.repairIterations <= cfg.maxRepairIterations
    && (s.run.status in {Created, Planning, PlanReady} ==> s.run.repairIterations == 0)
  }

  lemma RepairKeepsSteady(cfg: Config, s: State, target: Option<nat>)
    requires Steady(cfg, s) && Running(s) && RepairOrFail(cfg, s, target).Ok?
    ensures Steady(cfg, RepairOrFail(cfg, s, target).value)
  {
  }

  lemma DecisionKeepsSteady(cfg: Config, s: State)
    requires Steady(cfg, s) && AdvanceRun(cfg, s).Ok?
    ensures Steady(cfg, AdvanceRun(cfg, s).value)
  {
    hide RepairOrFail, Publish, StageJobs, SettleAll, Settled, WithVerdict, Pick, HasUnfinished;
    if s.run.status in {Coding, Validating} {
      var u := s.(candidates := SettleAll(cfg, s.candidates));
      var settled := Settled(u.candidates);
      if settled != [] && RepairOrFail(cfg, u, Some(settled[0].index)).Ok? {
        RepairKeepsSteady(cfg, u, Some(settled[0].index));
      }
    } else if s.run.status == Reviewing {
      var failing := WithVerdict(s.candidates, C.Fail);
      var target := if failing != [] then Some(failing[0].index)
                    else if s.candidates != [] then Some(s.candidates[0].index) else None;
      if RepairOrFail(cfg, s, target).Ok? {
        RepairKeepsSteady(cfg, s, target);
      }
    }
  }

  lemma StepKeepsTracked(cfg: Config, s: State, e: Event)
    requires cfg.Valid() && Tracked(cfg, s) && Steady(cfg, s)
    ensures Tracked(cfg, Step(cfg, s, e)) && Steady(cfg, Step(cfg, s, e))
  {
    hide Tracked, AdvanceRun, ExecuteJob, Outcome, OneRow;
    match e
    case Advance =>
      if AdvanceRun(cfg, s).Ok? {
        DecisionsPublish(cfg, s);
        PublishingKeepsTracked(cfg, s, AdvanceRun(cfg, s).value);
        DecisionKeepsSteady(cfg, s);
      }
    case Cancel => CancellingKeepsTracked(cfg, s);
    case Execute(k, work) =>
      if k < |s.jobs| && k in s.offered {
        ExecutionKeepsTracked(cfg, s, k, work);
      }
  }

  lemma ExecutionKeepsTracked(cfg: Config, s: State, k: nat, work: Work)
    requires cfg.Valid() && Tracked(cfg, s) && Steady(cfg, s) && k in s.offered
    ensures var t := ExecuteJob(cfg, s, k, work);
      OneRow(s, t, k) && Tracked(cfg, t) && Steady(cfg, t)
  {
    hide ExecuteJob;
    if s.run.status.IsTerminal() {
      LateExecution(cfg, s, k, work);
    } else {
      ExecuteOutcome(cfg, s, k, work);
    }
  }

  /** In every history, whatever the configuration, rows and copies keep step and
      no job is attempted more often than the retry policy allows. */
  lemma {:induction false} TrackedAlways(cfg: Config, events: seq<Event>)
    requires cfg.Valid()
    ensures Tracked(cfg, Exec(cfg, Init(cfg), events)) && Steady(cfg, Exec(cfg, Init(cfg), events))
  {
    if events != [] {
      TrackedAlways(cfg, events[..|events| - 1]);
      hide Tracked, Steady, Step;
      StepKeepsTracked(cfg, Exec(cfg, Init(cfg), events[..|events| - 1]), events[|events| - 1]);
    }
  }
}
