/** What every reachable state of the workflow satisfies, and what a completed run proves. */
module WorkflowSafety {
  import opened Common
  import opened RunStateMachine
  import opened Failures
  import opened Ordering
  import opened Workflow
  import opened WorkflowQueue
  import R = Runs
  import C = Candidates
  import J = Jobs
  import S = Selection

  /** Between steps a job is either claimable with an attempt left, or finished. */
  ghost predicate JobSound(cfg: Config, j: J.JobRecord) {
    && j.maxAttempts == cfg.jobMaxAttempts
    && j.attempt <= j.maxAttempts
    && (j.status == J.Queued || j.status.IsTerminal())
    && (j.status == J.Queued ==> j.lease == None && j.attempt < j.maxAttempts)
  }

  ghost predicate CandidateSound(cfg: Config, c: C.CandidateRecord) {
    && c.status in {C.Coding, C.Validating, C.Validated}
    && C.EvidenceIsCurrent(c)
    && (c.status == C.Coding ==> c.validation.results == [])
    && (c.status == C.Validated ==>
          && C.NextStage(cfg.configured, c.validation) == None
          && c.validation.staticAnalysisIsBlocking == cfg.staticAnalysisIsBlocking)
  }

  /** A queued job asks for exactly what the run and its candidate are waiting for. */
  ghost predicate Fits(cfg: Config, s: State, j: J.JobRecord) {
    match j.kind
    case Plan => s.run.status == Planning && j.candidate == None
    case Code =>
      && s.run.status == Coding && j.candidate.Some? && j.candidate.value < |s.candidates|
      && s.candidates[j.candidate.value].status == C.Coding
    case Validate(stage) =>
      && s.run.status == Validating && j.candidate.Some? && j.candidate.value < |s.candidates|
      && s.candidates[j.candidate.value].status == C.Validating
      && C.NextStage(cfg.configured, s.candidates[j.candidate.value].validation) == Some(stage)
    case ReviewCode =>
      && s.run.status == Reviewing && j.candidate.Some? && j.candidate.value < |s.candidates|
      && s.candidates[j.candidate.value].status == C.Validated
      && s.candidates[j.candidate.value].IsViable()
    case _ => false
  }

  ghost predicate NoneQueued(jobs: seq<J.JobRecord>) {
    forall k :: 0 <= k < |jobs| ==> jobs[k].status != J.Queued
  }

  /** No candidate is named by two queued jobs, and a review stands alone. */
  ghost predicate OneJobEach(s: State) {
    forall k, l :: 0 <= k < l < |s.jobs| && s.jobs[k].status == J.Queued && s.jobs[l].status == J.Queued ==>
      s.jobs[k].candidate != s.jobs[l].candidate && s.run.status != Reviewing
  }

  ghost predicate Approved(c: C.CandidateRecord) { c.verdict == Some(C.Pass) }

  /** A PASS exists only between the review and the decision it causes, and only
      on viable, settled code that has not been repaired since. */
  ghost predicate ApprovalsSound(s: State) {
    && (forall i :: 0 <= i < |s.candidates| && Approved(s.candidates[i]) ==>
          && s.run.status == Reviewing && NoneQueued(s.jobs)
          && s.candidates[i].status == C.Validated && s.candidates[i].IsViable()
          && s.candidates[i].reviewedRepair == s.candidates[i].repairIterations)
    && (forall i, j :: 0 <= i < j < |s.candidates| ==> !(Approved(s.candidates[i]) && Approved(s.candidates[j])))
  }

  ghost predicate CandidatesSound(cfg: Config, s: State) {
    if s.run.status in {Created, Planning, PlanReady} then s.candidates == []
    else
      && |s.candidates| == cfg.candidateCount
      && forall i :: 0 <= i < |s.candidates| ==> s.candidates[i].index == i && CandidateSound(cfg, s.candidates[i])
  }

  ghost predicate JobsFit(cfg: Config, s: State) {
    forall k :: 0 <= k < |s.jobs| && s.jobs[k].status == J.Queued ==> Fits(cfg, s, s.jobs[k])
  }

  ghost predicate Live(cfg: Config, s: State) {
    && Running(s)
    && CandidatesSound(cfg, s)
    && JobsFit(cfg, s)
    && OneJobEach(s)
    && ApprovalsSound(s)
  }

  /** What it takes to win: a PASS and tool results, all on the code as last repaired. */
  ghost predicate Winner(cfg: Config, c: C.CandidateRecord) {
    && c.verdict == Some(C.Pass)
    && c.reviewedRepair == c.repairIterations
    && c.HasPatch()
    && C.EvidenceIsCurrent(c)
    && (forall stage :: stage in cfg.configured ==> c.validation.Ran(stage))
    && (forall r :: r in c.validation.results && r.kind in {Build, Test} ==> r.exitCode == 0)
    && (cfg.staticAnalysisIsBlocking ==> forall r :: r in c.validation.results ==> r.exitCode == 0)
  }

  ghost predicate Earned(cfg: Config, s: State) {
    && s.run.selected.Some? && s.run.selected.value < |s.candidates| == cfg.candidateCount
    && s.candidates[s.run.selected.value].status == C.Selected
    && Winner(cfg, s.candidates[s.run.selected.value])
    && forall i :: 0 <= i < |s.candidates| && i != s.run.selected.value ==> s.candidates[i].status == C.Rejected
  }

  ghost predicate Inv(cfg: Config, s: State) {
    && s.run.maxRepairIterations == cfg.maxRepairIterations
    && s.run.repairIterations <= cfg.maxRepairIterations
    && (forall k :: 0 <= k < |s.jobs| ==> JobSound(cfg, s.jobs[k]))
    && QueueAgrees(s)
    && (s.run.status.IsTerminal() || Live(cfg, s))
    && (s.run.status == Completed ==> Earned(cfg, s))
  }

  lemma StillLive(cfg: Config, s: State)
    requires Inv(cfg, s) && !s.run.status.IsTerminal()
    ensures Live(cfg, s)
  {
  }

  /** A queued row is on offer as it stands. A row that is not may still be. */
  ghost predicate QueueAgrees(s: State) {
    && (forall k :: k in s.offered ==> k < |s.jobs|)
    && (forall k :: 0 <= k < |s.jobs| && s.jobs[k].status == J.Queued ==> Claimable(s, k))
  }

  ghost predicate Claimable(s: State, k: nat) {
    k < |s.jobs| && s.jobs[k].status == J.Queued && k in s.offered && s.offered[k] == s.jobs[k]
  }

  /** Nothing is on offer whose row is finished. */
  ghost predicate NoneSpent(s: State) {
    forall k :: k in s.offered ==> k < |s.jobs| && s.jobs[k].status == J.Queued
  }

  // ---- opening jobs ----

  lemma {:induction false} StageJobsShape(cfg: Config, candidates: seq<C.CandidateRecord>, base: nat)
    requires cfg.Valid()
    requires forall i :: 0 <= i < |candidates| ==> candidates[i].index == i
    ensures var jobs := StageJobs(cfg, candidates, base);
            && (forall k :: 0 <= k < |jobs| ==>
                  && JobSound(cfg, jobs[k]) && jobs[k].status == J.Queued
                  && jobs[k].candidate.Some? && jobs[k].candidate.value < |candidates|
                  && AwaitsStage(cfg, candidates[jobs[k].candidate.value])
                  && jobs[k].kind == J.Validate(
                       C.NextStage(cfg.configured, candidates[jobs[k].candidate.value].validation).value))
            && (forall k, l :: 0 <= k < l < |jobs| ==> jobs[k].candidate.value < jobs[l].candidate.value)
            && (jobs == [] <==> forall i :: 0 <= i < |candidates| ==> !AwaitsStage(cfg, candidates[i]))
  {
    if candidates != [] {
      StageJobsShape(cfg, candidates[..|candidates| - 1], base);
    }
  }

  lemma UnfinishedMeansQueued(cfg: Config, jobs: seq<J.JobRecord>)
    requires forall k :: 0 <= k < |jobs| ==> JobSound(cfg, jobs[k])
    ensures HasUnfinished(jobs) <==> !NoneQueued(jobs)
  {
    if HasUnfinished(jobs) {
      var j :| j in jobs && !j.status.IsTerminal();
      var k :| 0 <= k < |jobs| && jobs[k] == j;
      assert jobs[k].status == J.Queued;
    }
    if !NoneQueued(jobs) {
      var k :| 0 <= k < |jobs| && jobs[k].status == J.Queued;
      assert jobs[k] in jobs;
    }
  }

  // ---- what executing a job changes ----

  /** A failed execution touches its own job and its offer and, when it is not
      retried, ends the run. A retried job is on offer again; its row is queued
      exactly when it has an attempt left, and otherwise dead. */
  lemma FailureShape(cfg: Config, s: State, k: nat, kind: FailureKind)
    requires cfg.Valid() && Running(s) && Claimable(s, k) && JobSound(cfg, s.jobs[k])
    requires !kind.IsCodeDefect() && kind != CancelledByRun
    ensures var t := HandleFailure(cfg, Claim(s, k), k, kind);
            var retry := cfg.retry.Decide(kind, s.jobs[k].attempt + 1).ShouldRetryJob();
            && t.candidates == s.candidates
            && t.jobs == s.jobs[k := t.jobs[k]]
            && t.jobs[k].kind == s.jobs[k].kind && t.jobs[k].candidate == s.jobs[k].candidate
            && t.jobs[k].attempt == s.jobs[k].attempt + 1
            && JobSound(cfg, t.jobs[k])
            && t.run == (if retry then s.run else s.run.(status := Failed, failureKind := Some(kind)))
            && t.jobs[k].status == (if retry && s.jobs[k].attempt + 1 < cfg.jobMaxAttempts then J.Queued else J.Dead)
            && (if retry then k in t.offered && t.offered == s.offered[k := t.offered[k]] else t.offered == s.offered - {k})
            && (t.jobs[k].status == J.Queued ==> t.offered[k] == t.jobs[k])
            && (cfg.retry.Within(cfg.jobMaxAttempts) && retry ==> t.jobs[k].status == J.Queued)
  {
  }

  /** What a successful code, stage or review job does to its candidate. */
  function Effect(cfg: Config, c: C.CandidateRecord, kind: J.JobType, work: Work): C.CandidateRecord
    requires work.Answered?
  {
    match kind
    case Code => c.(patch := Some(work.patch), status := C.Validating)
    case ReviewCode => C.RecordReview(c, work.verdict)
    case Validate(stage) =>
      if stage in cfg.available
      then c.(validation := c.validation.ExtendedWith([C.ToolResult(stage, work.exitCode, c.repairIterations)]))
      else c
    case _ => c
  }

  /** No handler raises on a job that fits: it finishes, and moves either the run
      to PLAN_READY or one candidate. */
  lemma AnswerShape(cfg: Config, s: State, k: nat, work: Work)
    requires cfg.Valid() && Running(s) && work.Answered?
    requires Claimable(s, k) && JobSound(cfg, s.jobs[k]) && Fits(cfg, s, s.jobs[k])
    ensures Dispatch(cfg, Claim(s, k), k, work.patch, work.exitCode, work.verdict).Ok?
    ensures var t := ExecuteJob(cfg, s, k, work);
            && t.jobs == s.jobs[k := t.jobs[k]]
            && t.offered == s.offered - {k}
            && t.jobs[k].status == J.Succeeded && JobSound(cfg, t.jobs[k])
            && t.jobs[k].attempt == s.jobs[k].attempt + 1
            && if s.jobs[k].kind == J.Plan
               then t.candidates == s.candidates && t.run == s.run.(status := PlanReady)
               else
                 var c := s.jobs[k].candidate.value;
                 && t.run == s.run
                 && t.candidates == s.candidates[c := Effect(cfg, s.candidates[c], s.jobs[k].kind, work)]
  {
    var j := s.jobs[k];
    var s1 := Claim(s, k);
    assert s1.jobs[k].HasLease(TOKEN, NOW);
    var done := J.Complete(s1.jobs[k], Some(TOKEN), NOW).job;
    assert s1.jobs[k := done] == s.jobs[k := done];
    if j.kind.Validate? {
      var c := s.candidates[j.candidate.value];
      assert c.validation.ExtendedWith([]) == c.validation;
    }
  }

  // ---- executing a job keeps the invariant ----

  lemma FailureKeepsInv(cfg: Config, s: State, k: nat, kind: FailureKind)
    requires cfg.Valid() && Inv(cfg, s) && Live(cfg, s)
    requires k < |s.jobs| && s.jobs[k].status == J.Queued && !kind.IsCodeDefect() && kind != CancelledByRun
    ensures Inv(cfg, HandleFailure(cfg, Claim(s, k), k, kind))
  {
    FailureShape(cfg, s, k, kind);
    var t := HandleFailure(cfg, Claim(s, k), k, kind);
    if t.run == s.run {
      assert OneJobEach(t);
    }
  }

  /** One candidate changes, its job finishes, and nothing else moves. */
  ghost predicate Served(s: State, t: State, k: nat, c: nat) {
    && k < |s.jobs| && c < |s.candidates|
    && t.run == s.run
    && |t.jobs| == |s.jobs| && |t.candidates| == |s.candidates|
    && t.jobs[k].status == J.Succeeded && t.offered == s.offered - {k}
    && (forall l :: 0 <= l < |s.jobs| && l != k ==> t.jobs[l] == s.jobs[l])
    && (forall i :: 0 <= i < |s.candidates| && i != c ==> t.candidates[i] == s.candidates[i])
  }

  lemma ServedKeepsJobs(cfg: Config, s: State, t: State, k: nat, c: nat)
    requires QueueAgrees(s) && JobsFit(cfg, s) && OneJobEach(s) && Served(s, t, k, c)
    requires s.jobs[k].status == J.Queued && s.jobs[k].candidate == Some(c)
    ensures JobsFit(cfg, t) && OneJobEach(t) && QueueAgrees(t)
    ensures s.run.status == Reviewing ==> NoneQueued(t.jobs)
  {
    forall l | 0 <= l < |t.jobs| && t.jobs[l].status == J.Queued
      ensures Fits(cfg, t, t.jobs[l]) && Claimable(t, l) && s.run.status != Reviewing
    {
      assert l < k || k < l;
      assert t.jobs[l] == s.jobs[l] && Fits(cfg, s, s.jobs[l]) && Claimable(s, l);
      assert s.jobs[l].candidate != Some(c);
    }
    hide Fits, JobsFit;
  }

  lemma ServedKeepsLive(cfg: Config, s: State, t: State, k: nat, c: nat)
    requires Inv(cfg, s) && Live(cfg, s) && s.run.status in {Coding, Validating, Reviewing}
    requires Served(s, t, k, c)
    requires s.jobs[k].status == J.Queued && s.jobs[k].candidate == Some(c)
    requires t.candidates[c].index == c && CandidateSound(cfg, t.candidates[c])
    requires Approved(t.candidates[c]) ==>
               && s.run.status == Reviewing && t.candidates[c].status == C.Validated && t.candidates[c].IsViable()
               && t.candidates[c].reviewedRepair == t.candidates[c].repairIterations
    ensures Live(cfg, t) && QueueAgrees(t)
  {
    ServedKeepsJobs(cfg, s, t, k, c);
    hide Fits, JobsFit, OneJobEach, QueueAgrees, CandidateSound;
    assert forall i :: 0 <= i < |s.candidates| ==> !Approved(s.candidates[i]);
  }

  lemma EffectIsSound(cfg: Config, s: State, j: J.JobRecord, work: Work)
    requires work.Answered? && Fits(cfg, s, j) && j.kind != J.Plan
    requires CandidateSound(cfg, s.candidates[j.candidate.value])
    ensures CandidateSound(cfg, Effect(cfg, s.candidates[j.candidate.value], j.kind, work))
  {
  }

  lemma AnswerKeepsInv(cfg: Config, s: State, k: nat, work: Work)
    requires cfg.Valid() && Inv(cfg, s) && Live(cfg, s) && work.Answered?
    requires k < |s.jobs| && s.jobs[k].status == J.Queued
    ensures Inv(cfg, ExecuteJob(cfg, s, k, work))
  {
    var j := s.jobs[k];
    AnswerShape(cfg, s, k, work);
    var t := ExecuteJob(cfg, s, k, work);
    if j.kind == J.Plan {
      forall l | 0 <= l < |t.jobs|
        ensures t.jobs[l].status != J.Queued
      {
        if l != k {
          assert s.jobs[l].status == J.Queued ==> Fits(cfg, s, s.jobs[l]);
          assert l < k || k < l;
        }
      }
    } else {
      EffectIsSound(cfg, s, j, work);
      ServedKeepsLive(cfg, s, t, k, j.candidate.value);
    }
  }

  lemma ExecuteKeepsInv(cfg: Config, s: State, k: nat, work: Work)
    requires cfg.Valid() && Inv(cfg, s)
    requires k < |s.jobs| && s.jobs[k].status == J.Queued
    ensures Inv(cfg, ExecuteJob(cfg, s, k, work))
  {
    if s.run.status.IsTerminal() {
    } else if work.Threw? {
      FailureKeepsInv(cfg, s, k, Classify(work.exc));
    } else {
      AnswerKeepsInv(cfg, s, k, work);
    }
  }

  // ---- deciding the next step keeps the invariant ----

  /** When nothing was queued, the jobs added are all there is to look at. */
  lemma AddedJobsFit(cfg: Config, earlier: seq<J.JobRecord>, t: State, added: seq<J.JobRecord>)
    requires NoneQueued(earlier) && t.jobs == earlier + added && (t.run.status != Reviewing || |added| <= 1)
    requires forall k :: 0 <= k < |earlier| ==> JobSound(cfg, earlier[k])
    requires forall j :: 0 <= j < |added| ==> JobSound(cfg, added[j]) && Fits(cfg, t, added[j])
    requires forall k, l :: 0 <= k < l < |added| ==> added[k].candidate != added[l].candidate
    ensures JobsFit(cfg, t) && OneJobEach(t)
    ensures forall k :: 0 <= k < |t.jobs| ==> JobSound(cfg, t.jobs[k])
  {
    hide Fits, JobSound;
    var n := |earlier|;
    assert forall k :: 0 <= k < n ==> t.jobs[k] == earlier[k];
    assert forall k :: n <= k < |t.jobs| ==> t.jobs[k] == added[k - n];
  }

  lemma PublishingKeepsQueue(s: State, u: State, added: seq<J.JobRecord>)
    requires QueueAgrees(s) && u.jobs == s.jobs && u.offered == s.offered
    ensures QueueAgrees(Publish(u, added))
  {
    var t := Publish(u, added);
    assert forall k :: 0 <= k < |s.jobs| ==> t.jobs[k] == s.jobs[k];
    hide Publish;
  }

  lemma NewCodeJob(cfg: Config, id: nat, i: nat)
    requires cfg.Valid()
    ensures var j := OpenJob(cfg, id, J.Code, Some(i), J.Normal);
            JobSound(cfg, j) && j.status == J.Queued && j.kind == J.Code && j.candidate == Some(i)
  {
  }

  lemma NewCandidate(cfg: Config, i: nat)
    ensures var c := OpenCandidate(i);
            CandidateSound(cfg, c) && c.index == i && c.status == C.Coding && !Approved(c)
  {
  }

  lemma NewCandidatesSound(cfg: Config, n: nat)
    ensures forall i :: 0 <= i < n ==>
      var c := NewCandidates(n)[i];
      CandidateSound(cfg, c) && c.index == i && c.status == C.Coding && !Approved(c)
  {
    hide OpenCandidate, CandidateSound, Approved;
    forall i | 0 <= i < n
      ensures var c := NewCandidates(n)[i];
        CandidateSound(cfg, c) && c.index == i && c.status == C.Coding && !Approved(c)
    {
      NewCandidate(cfg, i);
    }
  }

  lemma CodeJobsFit(cfg: Config, base: nat, t: State)
    requires cfg.Valid() && t.run.status == Coding
    requires forall i :: 0 <= i < |t.candidates| ==> t.candidates[i].status == C.Coding
    ensures forall i :: 0 <= i < |t.candidates| ==>
      var j := CodeJobs(cfg, base, |t.candidates|)[i];
      JobSound(cfg, j) && Fits(cfg, t, j) && j.candidate == Some(i)
  {
    hide OpenJob, JobSound;
    forall i | 0 <= i < |t.candidates|
      ensures var j := CodeJobs(cfg, base, |t.candidates|)[i];
        JobSound(cfg, j) && Fits(cfg, t, j) && j.candidate == Some(i)
    {
      NewCodeJob(cfg, base + i, i);
    }
  }

  lemma OpeningKeepsLive(cfg: Config, s: State)
    requires cfg.Valid() && s.candidates == [] && NoneQueued(s.jobs) && s.run.status == Coding
    requires forall k :: 0 <= k < |s.jobs| ==> JobSound(cfg, s.jobs[k])
    ensures Live(cfg, OpenCandidates(cfg, s))
    ensures var t := OpenCandidates(cfg, s);
            forall k :: 0 <= k < |t.jobs| ==> JobSound(cfg, t.jobs[k])
  {
    hide NoneQueued, JobsFit, OneJobEach, Fits, JobSound, CandidateSound, Approved;
    hide NewCandidates, CodeJobs, OpenJob, OpenCandidate;
    var t := OpenCandidates(cfg, s);
    assert [] + NewCandidates(cfg.candidateCount) == NewCandidates(cfg.candidateCount);
    NewCandidatesSound(cfg, cfg.candidateCount);
    CodeJobsFit(cfg, |s.jobs|, t);
    AddedJobsFit(cfg, s.jobs, t, CodeJobs(cfg, |s.jobs|, cfg.candidateCount));
  }

  lemma PickIsMember(list: seq<C.CandidateRecord>)
    requires list != [] && S.DistinctIndices(list)
    ensures Pick(list) in list
  {
    var best := S.SelectionDecides(list);
    assert list[0] in list;
  }

  lemma RepairedIsSound(cfg: Config, c: C.CandidateRecord)
    requires CandidateSound(cfg, c) && !Approved(c)
    ensures C.StartRepair(c).Ok?
    ensures var d := C.StartRepair(c).value;
            CandidateSound(cfg, d) && !Approved(d) && d.status == C.Coding && d.index == c.index
  {
  }

  lemma NewJobFits(cfg: Config, t: State, id: nat, kind: J.JobType, candidate: Option<nat>, priority: J.Priority)
    requires cfg.Valid()
    requires candidate.Some? && candidate.value < |t.candidates|
    requires (kind == J.Code && t.run.status == Coding && t.candidates[candidate.value].status == C.Coding)
      || (kind == J.ReviewCode && t.run.status == Reviewing && t.candidates[candidate.value].status == C.Validated
          && t.candidates[candidate.value].IsViable())
    ensures JobSound(cfg, OpenJob(cfg, id, kind, candidate, priority))
    ensures Fits(cfg, t, OpenJob(cfg, id, kind, candidate, priority))
  {
  }

  /** One code job for one repaired candidate, when nothing else is queued. */
  lemma RepairKeepsInv(cfg: Config, s: State, target: Option<nat>)
    requires cfg.Valid() && Inv(cfg, s) && Live(cfg, s) && NoneQueued(s.jobs)
    requires target.Some? ==> target.value < |s.candidates|
    requires forall i :: 0 <= i < |s.candidates| ==> !Approved(s.candidates[i])
    requires s.run.status in {Coding, Validating, Reviewing}
    ensures RepairOrFail(cfg, s, target).Ok? ==> Inv(cfg, RepairOrFail(cfg, s, target).value)
  {
    var r := RepairOrFail(cfg, s, target);
    if r.Ok? && target.Some? && s.run.CanRepair() {
      hide JobsFit, OneJobEach, Fits, JobSound, CandidateSound, Approved, QueueAgrees, NoneQueued, OpenJob, C.StartRepair;
      var t, i := r.value, target.value;
      var added := [OpenJob(cfg, |s.jobs|, J.Code, target, J.High)];
      RepairedIsSound(cfg, s.candidates[i]);
      assert t == Publish(s.(run := t.run, candidates := t.candidates), added);
      PublishingKeepsQueue(s, s.(run := t.run, candidates := t.candidates), added);
      NewJobFits(cfg, t, |s.jobs|, J.Code, target, J.High);
      hide Publish;
      AddedJobsFit(cfg, s.jobs, t, added);
    }
  }

  lemma SettlingKeepsLive(cfg: Config, s: State)
    requires cfg.Valid() && Inv(cfg, s) && Live(cfg, s) && NoneQueued(s.jobs)
    requires s.run.status in {Coding, Validating}
    ensures var t := s.(candidates := SettleAll(cfg, s.candidates));
            Inv(cfg, t) && Live(cfg, t) && forall i :: 0 <= i < |t.candidates| ==> !Approved(t.candidates[i])
  {
    forall i | 0 <= i < |s.candidates|
      ensures CandidateSound(cfg, Settle(cfg, s.candidates[i])) && !Approved(Settle(cfg, s.candidates[i]))
    {
      var c := s.candidates[i];
      assert CandidateSound(cfg, c) && !Approved(c);
      if c.status == C.Validating && !AwaitsStage(cfg, c) {
        SameResultsSameStage(cfg, c, Settle(cfg, c));
      }
    }
  }

  lemma SameResultsSameStage(cfg: Config, c: C.CandidateRecord, d: C.CandidateRecord)
    requires c.validation.results == d.validation.results
    ensures C.NextStage(cfg.configured, c.validation) == C.NextStage(cfg.configured, d.validation)
  {
  }

  /** A stage job fits a candidate that settling leaves alone. */
  lemma StageJobFits(cfg: Config, s: State, t: State, j: J.JobRecord)
    requires t.run.status == Validating && t.candidates == SettleAll(cfg, s.candidates)
    requires j.candidate.Some? && j.candidate.value < |s.candidates| && AwaitsStage(cfg, s.candidates[j.candidate.value])
    requires j.kind == J.Validate(C.NextStage(cfg.configured, s.candidates[j.candidate.value].validation).value)
    ensures Fits(cfg, t, j)
  {
    var i := j.candidate.value;
    assert Settle(cfg, s.candidates[i]) == s.candidates[i];
  }

  lemma StagesKeepInv(cfg: Config, s: State, run: R.RunRecord)
    requires cfg.Valid() && Inv(cfg, s) && Live(cfg, s) && NoneQueued(s.jobs)
    requires s.run.status in {Coding, Validating} && run == s.run.(status := Validating)
    ensures Inv(cfg, Publish(s.(run := run, candidates := SettleAll(cfg, s.candidates)), StageJobs(cfg, s.candidates, |s.jobs|)))
  {
    SettlingKeepsLive(cfg, s);
    StageJobsShape(cfg, s.candidates, |s.jobs|);
    var added := StageJobs(cfg, s.candidates, |s.jobs|);
    var t := Publish(s.(run := run, candidates := SettleAll(cfg, s.candidates)), added);
    PublishingKeepsQueue(s, s.(run := run, candidates := SettleAll(cfg, s.candidates)), added);
    hide StageJobs, SettleAll, C.NextStage, CandidateSound, JobSound, Fits, AwaitsStage, Approved, JobsFit, OneJobEach;
    hide Publish, QueueAgrees;
    forall j | 0 <= j < |added|
      ensures Fits(cfg, t, added[j])
    {
      StageJobFits(cfg, s, t, added[j]);
    }
    AddedJobsFit(cfg, s.jobs, t, added);
  }

  lemma FiltersKeepIndices(s: seq<C.CandidateRecord>, keep: C.CandidateRecord -> bool)
    requires forall i :: 0 <= i < |s| ==> s[i].index == i
    ensures S.DistinctIndices(Filter(s, keep))
    ensures forall c :: c in Filter(s, keep) ==> c.index < |s| && s[c.index] == c
  {
    var f := Filter(s, keep);
    forall c | c in f
      ensures c.index < |s| && s[c.index] == c
    {
      assert c in s;
      var i :| 0 <= i < |s| && s[i] == c;
    }
  }

  lemma ViableKeepsIndices(s: seq<C.CandidateRecord>, t: seq<C.CandidateRecord>)
    requires S.DistinctIndices(t) && forall c :: c in t ==> c.index < |s| && s[c.index] == c
    ensures S.DistinctIndices(S.Viable(t))
    ensures forall c :: c in S.Viable(t) ==> c in t && c.IsViable() && c.index < |s| && s[c.index] == c
  {
    var v := S.Viable(t);
    forall c | c in v
      ensures c in t && c.IsViable() && c.index < |s| && s[c.index] == c
    {
    }
    forall i, j | 0 <= i < |v| && 0 <= j < |v| && v[i] != v[j]
      ensures v[i].index != v[j].index
    {
      assert v[i] in v && v[j] in v;
    }
  }

  /** A single review job for a viable, settled candidate, when nothing else is queued. */
  lemma ReviewKeepsInv(cfg: Config, s: State, viable: seq<C.CandidateRecord>)
    requires cfg.Valid() && Inv(cfg, s) && Live(cfg, s) && NoneQueued(s.jobs)
    requires s.run.status in {Coding, Validating}
    requires forall i :: 0 <= i < |s.candidates| ==> !Approved(s.candidates[i])
    requires viable != [] && S.DistinctIndices(viable)
    requires forall c :: c in viable ==>
               c.index < |s.candidates| && s.candidates[c.index] == c && c.status == C.Validated && c.IsViable()
    ensures ReviewBest(cfg, s, viable).Ok? && Inv(cfg, ReviewBest(cfg, s, viable).value)
  {
    hide Pick, S.DistinctIndices, JobsFit, OneJobEach, Fits, JobSound, CandidateSound, Approved, QueueAgrees, NoneQueued, OpenJob;
    PickIsMember(viable);
    var best := Pick(viable);
    var t := ReviewBest(cfg, s, viable).value;
    var added := [OpenJob(cfg, |s.jobs|, J.ReviewCode, Some(best.index), J.Normal)];
    PublishingKeepsQueue(s, s.(run := t.run), added);
    NewJobFits(cfg, t, |s.jobs|, J.ReviewCode, Some(best.index), J.Normal);
    hide Publish;
    AddedJobsFit(cfg, s.jobs, t, added);
  }

  /** The candidates a decision is taken from are the run's own, each at its index. */
  lemma SettledAreOwn(candidates: seq<C.CandidateRecord>)
    requires forall i :: 0 <= i < |candidates| ==> candidates[i].index == i
    ensures var settled := Settled(candidates);
            && (forall c :: c in settled ==>
                  c.index < |candidates| && candidates[c.index] == c && c.status == C.Validated)
            && (forall c :: c in S.Viable(settled) ==> c in settled && c.IsViable())
            && S.DistinctIndices(S.Viable(settled))
  {
    FiltersKeepIndices(candidates, (c: C.CandidateRecord) => c.status == C.Validated);
    ViableKeepsIndices(candidates, Settled(candidates));
  }

  lemma AdvanceCandidatesKeepsInv(cfg: Config, s: State)
    requires cfg.Valid() && Inv(cfg, s) && Live(cfg, s) && NoneQueued(s.jobs)
    requires s.run.status in {Coding, Validating}
    ensures AdvanceCandidates(cfg, s).Ok? ==> Inv(cfg, AdvanceCandidates(cfg, s).value)
  {
    var t := s.(candidates := SettleAll(cfg, s.candidates));
    if StageJobs(cfg, s.candidates, |s.jobs|) != [] {
      StagesKeepInv(cfg, s, s.run.(status := Validating));
    } else {
      SettlingKeepsLive(cfg, s);
      SettledAreOwn(t.candidates);
      var settled := Settled(t.candidates);
      var viable := S.Viable(settled);
      if settled == [] {
      } else if viable != [] {
        ReviewKeepsInv(cfg, t, viable);
      } else {
        assert settled[0] in settled;
        RepairKeepsInv(cfg, t, Some(settled[0].index));
      }
    }
  }

  lemma WinnerIsEarned(cfg: Config, c: C.CandidateRecord)
    requires CandidateSound(cfg, c) && c.status == C.Validated && Approved(c) && c.IsViable()
    requires c.reviewedRepair == c.repairIterations
    ensures Winner(cfg, c.(status := C.Selected))
  {
    var v := c.validation;
    assert v.Passed(Build) != Some(false) && v.Passed(Test) != Some(false);
    forall stage | stage in cfg.configured
      ensures v.Ran(stage)
    {
      match stage
      case Build => assert v.Passed(Build) != None;
      case Test => assert v.Passed(Test) != None;
      case StaticAnalysis => assert v.Passed(StaticAnalysis) != None;
    }
    forall r | r in v.results && r.kind in {Build, Test}
      ensures r.exitCode == 0
    {
      assert v.Ran(r.kind);
    }
    if cfg.staticAnalysisIsBlocking {
      forall r | r in v.results
        ensures r.exitCode == 0
      {
        assert v.Ran(r.kind);
        assert v.Passed(r.kind) != Some(false);
      }
    }
  }

  lemma CompletingKeepsInv(cfg: Config, s: State, w: nat)
    requires cfg.Valid() && Inv(cfg, s) && Live(cfg, s) && NoneQueued(s.jobs)
    requires s.run.status == Reviewing && w < |s.candidates| && Approved(s.candidates[w])
    ensures CompleteWith(s, w).Ok? && Inv(cfg, CompleteWith(s, w).value)
    ensures CompleteWith(s, w).value.run.status == Completed
  {
    WinnerIsEarned(cfg, s.candidates[w]);
    var rejected := RejectOthers(s.candidates, w);
    assert rejected[w] == s.candidates[w];
    assert forall i :: 0 <= i < |rejected| && i != w ==> rejected[i].status == C.Rejected;
  }

  lemma VerdictsAreOwn(candidates: seq<C.CandidateRecord>, verdict: C.Verdict)
    requires forall i :: 0 <= i < |candidates| ==> candidates[i].index == i
    ensures var list := WithVerdict(candidates, verdict);
            && S.DistinctIndices(list)
            && (forall c :: c in list ==>
                  c.index < |candidates| && candidates[c.index] == c && c.verdict == Some(verdict))
            && (list == [] ==> forall i :: 0 <= i < |candidates| ==> candidates[i].verdict != Some(verdict))
  {
    FiltersKeepIndices(candidates, (c: C.CandidateRecord) => c.verdict == Some(verdict));
    var list := WithVerdict(candidates, verdict);
    forall i | 0 <= i < |candidates| && candidates[i].verdict == Some(verdict)
      ensures list != []
    {
      assert candidates[i] in list;
    }
  }

  lemma AdvanceReviewKeepsInv(cfg: Config, s: State)
    requires cfg.Valid() && Inv(cfg, s) && Live(cfg, s) && NoneQueued(s.jobs)
    requires s.run.status == Reviewing
    ensures AdvanceReview(cfg, s).Ok? ==> Inv(cfg, AdvanceReview(cfg, s).value)
  {
    var passed := WithVerdict(s.candidates, C.Pass);
    var failing := WithVerdict(s.candidates, C.Fail);
    VerdictsAreOwn(s.candidates, C.Pass);
    VerdictsAreOwn(s.candidates, C.Fail);
    if passed != [] {
      PickIsMember(passed);
      CompletingKeepsInv(cfg, s, Pick(passed).index);
    } else if failing != [] {
      assert failing[0] in failing;
      RepairKeepsInv(cfg, s, Some(failing[0].index));
    } else {
      RepairKeepsInv(cfg, s, Some(0));
    }
  }

  lemma PlanKeepsInv(cfg: Config, s: State)
    requires cfg.Valid() && Inv(cfg, s) && NoneQueued(s.jobs) && s.run.status == Created && cfg.requiresPlan
    ensures OpenFirstStage(cfg, s).Ok? ==> Inv(cfg, OpenFirstStage(cfg, s).value)
  {
    var r := OpenFirstStage(cfg, s);
    if r.Ok? {
      var t, n := r.value, |s.jobs|;
      assert t.jobs[n] == OpenJob(cfg, n, J.Plan, None, J.Normal);
      assert forall k :: 0 <= k < n ==> t.jobs[k] == s.jobs[k];
    }
  }

  lemma CodingKeepsInv(cfg: Config, s: State)
    requires cfg.Valid() && Inv(cfg, s) && NoneQueued(s.jobs) && s.run.status in {Created, PlanReady}
    ensures R.StartCoding(s.run).Ok? ==> Inv(cfg, OpenCandidates(cfg, s.(run := R.StartCoding(s.run).value)))
  {
    hide Live, NoneQueued, JobSound, QueueAgrees, OpenCandidates, Publish, Earned;
    NobodyYet(cfg, s);
    if R.StartCoding(s.run).Ok? {
      var u := s.(run := R.StartCoding(s.run).value);
      OpeningKeepsLive(cfg, u);
      OpeningShows(cfg, s, u);
    }
  }

  lemma NobodyYet(cfg: Config, s: State)
    requires Inv(cfg, s) && s.run.status in {Created, PlanReady}
    ensures s.candidates == []
  {
  }

  lemma OpeningShows(cfg: Config, s: State, u: State)
    requires QueueAgrees(s) && u.jobs == s.jobs && u.offered == s.offered
    ensures OpenCandidates(cfg, u).run == u.run && QueueAgrees(OpenCandidates(cfg, u))
  {
    hide Publish, QueueAgrees;
    PublishingKeepsQueue(s, u.(candidates := u.candidates + NewCandidates(cfg.candidateCount)), CodeJobs(cfg, |u.jobs|, cfg.candidateCount));
  }

  lemma AdvanceKeepsInv(cfg: Config, s: State)
    requires cfg.Valid() && Inv(cfg, s)
    ensures AdvanceRun(cfg, s).Ok? ==> Inv(cfg, AdvanceRun(cfg, s).value)
  {
    hide AdvanceCandidates, AdvanceReview, HasUnfinished, OpenCandidates, NoneQueued, JobSound;
    UnfinishedMeansQueued(cfg, s.jobs);
    if s.run.status.IsTerminal() || HasUnfinished(s.jobs) {
    } else if s.run.status == Created && cfg.requiresPlan {
      PlanKeepsInv(cfg, s);
    } else if s.run.status in {Created, PlanReady} {
      CodingKeepsInv(cfg, s);
    } else if s.run.status in {Coding, Validating} {
      AdvanceCandidatesKeepsInv(cfg, s);
    } else if s.run.status == Reviewing {
      AdvanceReviewKeepsInv(cfg, s);
    }
  }

  /** The event does not claim a job whose row is finished. */
  ghost predicate Regular(s: State, e: Event) {
    e.Execute? && e.job in s.offered ==> e.job < |s.jobs| && s.jobs[e.job].status == J.Queued
  }

  lemma StepKeepsInv(cfg: Config, s: State, e: Event)
    requires cfg.Valid() && Inv(cfg, s) && Regular(s, e)
    ensures Inv(cfg, Step(cfg, s, e))
  {
    match e
    case Advance => AdvanceKeepsInv(cfg, s);
    case Execute(k, work) =>
      hide Live, Earned, ExecuteJob, JobSound;
      if k in s.offered {
        ExecuteKeepsInv(cfg, s, k, work);
      }
    case Cancel => CancelKeepsInv(cfg, s);
  }

  lemma CancelKeepsInv(cfg: Config, s: State)
    requires cfg.Valid() && Inv(cfg, s)
    ensures Inv(cfg, CancelAll(s))
  {
  }

  // ---- when the policy stays within the job's budget, nothing spent is on offer ----

  lemma PublishingIsFresh(cfg: Config, s: State, t: State)
    requires NoneSpent(s) && Publishes(cfg, s, t)
    ensures NoneSpent(t)
  {
    var added :| NewJobs(cfg, added) && t.jobs == s.jobs + added && t.offered == Publish(s, added).offered;
    forall k | k in t.offered
      ensures k < |t.jobs| && t.jobs[k].status == J.Queued
    {
      if k < |s.jobs| {
        assert t.jobs[k] == s.jobs[k];
      } else {
        assert t.jobs[k] == added[k - |s.jobs|] && NewJob(cfg, added[k - |s.jobs|]);
      }
    }
  }

  lemma ExecutionLeavesNoneSpent(cfg: Config, s: State, k: nat, work: Work)
    requires cfg.Valid() && Inv(cfg, s) && NoneSpent(s) && k in s.offered && cfg.retry.Within(cfg.jobMaxAttempts)
    ensures NoneSpent(ExecuteJob(cfg, s, k, work))
  {
    var t := ExecuteJob(cfg, s, k, work);
    assert Claimable(s, k) && JobSound(cfg, s.jobs[k]);
    if s.run.status.IsTerminal() {
      assert s.jobs[k := Claimed(s.offered[k])][k := t.jobs[k]] == s.jobs[k := t.jobs[k]];
    } else if work.Threw? {
      FailureShape(cfg, s, k, Classify(work.exc));
    } else {
      assert Fits(cfg, s, s.jobs[k]);
      AnswerShape(cfg, s, k, work);
    }
    hide ExecuteJob, Inv;
  }

  lemma StepLeavesNoneSpent(cfg: Config, s: State, e: Event)
    requires cfg.Valid() && Inv(cfg, s) && NoneSpent(s) && cfg.retry.Within(cfg.jobMaxAttempts)
    ensures NoneSpent(Step(cfg, s, e))
  {
    hide AdvanceRun, ExecuteJob, Inv;
    match e
    case Advance =>
      if AdvanceRun(cfg, s).Ok? {
        DecisionsPublish(cfg, s);
        PublishingIsFresh(cfg, s, AdvanceRun(cfg, s).value);
      }
    case Execute(k, work) =>
      if k in s.offered {
        ExecutionLeavesNoneSpent(cfg, s, k, work);
      }
    case Cancel =>
  }

  /** With retry budgets within the job's own, every history keeps the invariant
      and nothing is on offer whose row is finished. */
  lemma {:induction false} InvAlways(cfg: Config, events: seq<Event>)
    requires cfg.Valid() && cfg.retry.Within(cfg.jobMaxAttempts)
    ensures Inv(cfg, Exec(cfg, Init(cfg), events)) && NoneSpent(Exec(cfg, Init(cfg), events))
  {
    if events != [] {
      InvAlways(cfg, events[..|events| - 1]);
      hide Inv, Step;
      StepKeepsInv(cfg, Exec(cfg, Init(cfg), events[..|events| - 1]), events[|events| - 1]);
      StepLeavesNoneSpent(cfg, Exec(cfg, Init(cfg), events[..|events| - 1]), events[|events| - 1]);
    }
  }

  /** Completion is earned. Whatever models, tools and schedules do, a completed
      run has exactly one SELECTED candidate and only REJECTED others; the winner
      was passed by a reviewer and by every configured build and test command,
      all of it on the code as it stood after its latest repair. */
  lemma CompletionIsEarned(cfg: Config, events: seq<Event>)
    requires cfg.Valid() && cfg.retry.Within(cfg.jobMaxAttempts)
    ensures var s := Exec(cfg, Init(cfg), events);
            s.run.status == Completed ==> Earned(cfg, s)
  {
    InvAlways(cfg, events);
  }
}
