/** Every loop of the workflow is bounded, and exactly when. */
module WorkflowBounds {
  import opened Common
  import opened RunStateMachine
  import opened Failures
  import opened Workflow
  import opened WorkflowQueue
  import opened WorkflowSafety
  import R = Runs
  import C = Candidates
  import J = Jobs
  import S = Selection

  /** The most jobs a run may open: per candidate one code job and three stages;
      per repair one code job, three stages and a review; one first review; one
      plan when there is one. */
  function JobBudget(cfg: Config): nat {
    4 * cfg.candidateCount + 5 * cfg.maxRepairIterations + 1 + (if cfg.requiresPlan then 1 else 0)
  }

  /** No stage job can end without either a result or the end of the run. */
  ghost predicate StagesAlwaysReport(cfg: Config) {
    cfg.configured == {} || (cfg.configured <= cfg.available && cfg.retry.Within(cfg.jobMaxAttempts))
  }

  /** Stages this candidate may still be given in its current round. */
  function Missing(c: C.CandidateRecord): nat {
    if c.status !in {C.Coding, C.Validating} then 0
    else 3 - Bit(c.validation.Ran(Build)) - Bit(c.validation.Ran(Test)) - Bit(c.validation.Ran(StaticAnalysis))
  }

  function TotalMissing(candidates: seq<C.CandidateRecord>): nat {
    if candidates == [] then 0
    else TotalMissing(candidates[..|candidates| - 1]) + Missing(candidates[|candidates| - 1])
  }

  predicate QueuedStage(j: J.JobRecord) { j.status == J.Queued && j.kind.Validate? }

  function QueuedStages(jobs: seq<J.JobRecord>): nat {
    if jobs == [] then 0 else QueuedStages(jobs[..|jobs| - 1]) + Bit(QueuedStage(jobs[|jobs| - 1]))
  }

  /** What the run itself may still open: later repairs and the stages ahead of it. */
  function Reserve(cfg: Config, s: State): int {
    var repairs := 5 * (cfg.maxRepairIterations - s.run.repairIterations);
    match s.run.status
    case Created => JobBudget(cfg) - 5 * cfg.maxRepairIterations + repairs
    case Planning => 4 * cfg.candidateCount + 1 + repairs
    case PlanReady => 4 * cfg.candidateCount + 1 + repairs
    case Coding => 1 + repairs
    case Validating => 1 + repairs
    case _ => repairs
  }

  /** Jobs opened plus jobs still possible; a queued stage is not counted twice. */
  function Potential(cfg: Config, s: State): int {
    |s.jobs| + Reserve(cfg, s) + TotalMissing(s.candidates) - QueuedStages(s.jobs)
  }

  ghost predicate Bounded(cfg: Config, s: State) {
    && |s.jobs| <= JobBudget(cfg)
    && (!s.run.status.IsTerminal() ==> Potential(cfg, s) <= JobBudget(cfg))
  }

  // ---- counting lemmas ----

  lemma {:induction false} MissingUpdate(s: seq<C.CandidateRecord>, i: nat, c: C.CandidateRecord)
    requires i < |s|
    ensures TotalMissing(s[i := c]) == TotalMissing(s) - Missing(s[i]) + Missing(c)
  {
    var last := |s| - 1;
    if i < last {
      MissingUpdate(s[..last], i, c);
      assert s[i := c][..last] == s[..last][i := c];
    } else {
      assert s[i := c][..last] == s[..last];
    }
  }

  lemma {:induction false} QueuedUpdate(jobs: seq<J.JobRecord>, k: nat, j: J.JobRecord)
    requires k < |jobs|
    ensures QueuedStages(jobs[k := j]) == QueuedStages(jobs) - Bit(QueuedStage(jobs[k])) + Bit(QueuedStage(j))
  {
    var last := |jobs| - 1;
    if k < last {
      QueuedUpdate(jobs[..last], k, j);
      assert jobs[k := j][..last] == jobs[..last][k := j];
    } else {
      assert jobs[k := j][..last] == jobs[..last];
    }
  }

  lemma {:induction false} QueuedAppend(a: seq<J.JobRecord>, b: seq<J.JobRecord>)
    ensures QueuedStages(a + b) == QueuedStages(a) + QueuedStages(b)
  {
    if b == [] {
      assert a + b == a;
    } else {
      QueuedAppend(a, b[..|b| - 1]);
      assert (a + b)[..|a + b| - 1] == a + b[..|b| - 1];
    }
  }

  lemma {:induction false} NoneQueuedCountsZero(jobs: seq<J.JobRecord>)
    requires forall k :: 0 <= k < |jobs| ==> !QueuedStage(jobs[k])
    ensures QueuedStages(jobs) == 0
  {
    if jobs != [] {
      NoneQueuedCountsZero(jobs[..|jobs| - 1]);
    }
  }

  lemma {:induction false} OpenedCandidatesMiss(n: nat, candidates: seq<C.CandidateRecord>)
    requires |candidates| == n
    requires forall i :: 0 <= i < n ==> candidates[i] == OpenCandidate(i)
    ensures TotalMissing(candidates) == 3 * n
  {
    if n > 0 {
      OpenedCandidatesMiss(n - 1, candidates[..n - 1]);
    }
  }

  lemma {:induction false} SettlingMissesNoMore(cfg: Config, s: seq<C.CandidateRecord>)
    ensures TotalMissing(SettleAll(cfg, s)) <= TotalMissing(s)
  {
    if s != [] {
      var last := |s| - 1;
      SettlingMissesNoMore(cfg, s[..last]);
      assert SettleAll(cfg, s)[..last] == SettleAll(cfg, s[..last]);
    }
  }

  /** Every stage opened was still missing, and every job opened is a queued stage. */
  lemma {:induction false} StageJobsAreMissing(cfg: Config, s: seq<C.CandidateRecord>, base: nat)
    ensures |StageJobs(cfg, s, base)| <= TotalMissing(s)
    ensures QueuedStages(StageJobs(cfg, s, base)) == |StageJobs(cfg, s, base)|
  {
    if s != [] {
      StageJobsAreMissing(cfg, s[..|s| - 1], base);
      var before := StageJobs(cfg, s[..|s| - 1], base);
      var c := s[|s| - 1];
      if AwaitsStage(cfg, c) {
        assert Missing(c) >= 1;
        var jobs := StageJobs(cfg, s, base);
        assert jobs[..|jobs| - 1] == before;
      }
    }
  }

  // ---- each step keeps the bound ----

  lemma ResultFillsStage(c: C.CandidateRecord, stage: Stage, result: C.ToolResult)
    requires c.status == C.Validating && !c.validation.Ran(stage) && result.kind == stage
    ensures Missing(c.(validation := c.validation.ExtendedWith([result]))) == Missing(c) - 1
  {
    var d := c.validation.ExtendedWith([result]);
    assert d.Ran(stage) by {
      assert result in d.results;
    }
    forall other: Stage | other != stage
      ensures d.Ran(other) == c.validation.Ran(other)
    {
      assert forall r :: r in d.results <==> r in c.validation.results || r == result;
    }
  }

  lemma FailureKeepsBound(cfg: Config, s: State, k: nat, kind: FailureKind)
    requires cfg.Valid() && Running(s) && Bounded(cfg, s) && cfg.retry.Within(cfg.jobMaxAttempts)
    requires Claimable(s, k) && JobSound(cfg, s.jobs[k])
    requires !kind.IsCodeDefect() && kind != CancelledByRun
    ensures Bounded(cfg, HandleFailure(cfg, Claim(s, k), k, kind))
  {
    FailureShape(cfg, s, k, kind);
    var t := HandleFailure(cfg, Claim(s, k), k, kind);
    QueuedUpdate(s.jobs, k, t.jobs[k]);
  }

  lemma EffectOnMissing(cfg: Config, s: State, j: J.JobRecord, work: Work)
    requires work.Answered? && Fits(cfg, s, j) && j.kind != J.Plan && cfg.configured <= cfg.available
    requires CandidateSound(cfg, s.candidates[j.candidate.value])
    ensures var c := s.candidates[j.candidate.value];
            Missing(Effect(cfg, c, j.kind, work)) == Missing(c) - Bit(j.kind.Validate?)
    ensures j.kind.Validate? ==> cfg.configured != {}
  {
    var c := s.candidates[j.candidate.value];
    if j.kind.Validate? {
      ResultFillsStage(c, j.kind.stage, C.ToolResult(j.kind.stage, work.exitCode, c.repairIterations));
    }
  }

  lemma AnswerKeepsBound(cfg: Config, s: State, k: nat, work: Work)
    requires cfg.Valid() && Running(s) && Bounded(cfg, s) && cfg.configured <= cfg.available
    requires work.Answered? && Claimable(s, k)
    requires JobSound(cfg, s.jobs[k]) && Fits(cfg, s, s.jobs[k])
    requires s.jobs[k].kind != J.Plan ==> CandidateSound(cfg, s.candidates[s.jobs[k].candidate.value])
    ensures Bounded(cfg, ExecuteJob(cfg, s, k, work))
  {
    AnswerShape(cfg, s, k, work);
    var t := ExecuteJob(cfg, s, k, work);
    var j := s.jobs[k];
    QueuedUpdate(s.jobs, k, t.jobs[k]);
    if j.kind != J.Plan {
      EffectOnMissing(cfg, s, j, work);
      var c := j.candidate.value;
      MissingUpdate(s.candidates, c, t.candidates[c]);
    }
  }

  /** The first round, spelled out: one code job and three stages to come per candidate. */
  lemma OpeningShape(cfg: Config, s: State)
    requires s.candidates == [] && NoneQueued(s.jobs)
    ensures var t := OpenCandidates(cfg, s);
            && t.run == s.run && |t.jobs| == |s.jobs| + cfg.candidateCount
            && QueuedStages(t.jobs) == 0 && TotalMissing(t.candidates) == 3 * cfg.candidateCount
  {
    hide QueuedStages, TotalMissing, Missing, OpenJob;
    NoneQueuedCountsZero(s.jobs);
    CodeJobsAreNoStages(cfg, |s.jobs|, cfg.candidateCount);
    QueuedAppend(s.jobs, CodeJobs(cfg, |s.jobs|, cfg.candidateCount));
    assert s.candidates + NewCandidates(cfg.candidateCount) == NewCandidates(cfg.candidateCount);
    OpenedCandidatesMiss(cfg.candidateCount, NewCandidates(cfg.candidateCount));
  }

  lemma CodeJobsAreNoStages(cfg: Config, base: nat, n: nat)
    ensures QueuedStages(CodeJobs(cfg, base, n)) == 0
  {
    hide QueuedStages;
    forall k | 0 <= k < n
      ensures !QueuedStage(CodeJobs(cfg, base, n)[k])
    {
    }
    NoneQueuedCountsZero(CodeJobs(cfg, base, n));
  }

  lemma OpeningKeepsBound(cfg: Config, s: State)
    requires s.candidates == [] && NoneQueued(s.jobs) && s.run.status == Coding
    requires |s.jobs| + 4 * cfg.candidateCount + Reserve(cfg, s) <= JobBudget(cfg)
    requires s.run.repairIterations <= cfg.maxRepairIterations
    ensures Bounded(cfg, OpenCandidates(cfg, s))
  {
    hide OpenCandidates, NoneQueued, TotalMissing, QueuedStages;
    OpeningShape(cfg, s);
  }

  /** A repair, spelled out: one candidate back to coding, one job, one repair spent. */
  lemma RepairShape(cfg: Config, s: State, target: Option<nat>)
    requires s.run.status in {Coding, Validating, Reviewing}
    requires RepairOrFail(cfg, s, target).Ok? && !RepairOrFail(cfg, s, target).value.run.status.IsTerminal()
    ensures target.Some? && target.value < |s.candidates|
    ensures var t := RepairOrFail(cfg, s, target).value;
            && t.run.status == Coding && t.run.repairIterations == s.run.repairIterations + 1
            && |t.jobs| == |s.jobs| + 1 && t.jobs[..|s.jobs|] == s.jobs && !QueuedStage(t.jobs[|s.jobs|])
            && |t.candidates| == |s.candidates| && t.candidates == s.candidates[target.value := t.candidates[target.value]]
            && Missing(t.candidates[target.value]) == 3
  {
    var t := RepairOrFail(cfg, s, target).value;
    assert t.candidates[target.value].validation.results == [];
  }

  lemma RepairKeepsBound(cfg: Config, s: State, target: Option<nat>)
    requires NoneQueued(s.jobs) && Bounded(cfg, s)
    requires s.run.status in {Coding, Validating, Reviewing} && s.run.maxRepairIterations == cfg.maxRepairIterations
    requires s.run.repairIterations <= cfg.maxRepairIterations
    ensures RepairOrFail(cfg, s, target).Ok? ==> Bounded(cfg, RepairOrFail(cfg, s, target).value)
  {
    var r := RepairOrFail(cfg, s, target);
    if r.Ok? && !r.value.run.status.IsTerminal() {
      RepairShape(cfg, s, target);
      RepairIsPaid(cfg, s, r.value, target.value);
    } else if r.Ok? {
      assert r.value.jobs == s.jobs;
    }
  }

  lemma RepairIsPaid(cfg: Config, s: State, t: State, i: nat)
    requires NoneQueued(s.jobs) && Bounded(cfg, s) && s.run.status in {Coding, Validating, Reviewing}
    requires i < |s.candidates| == |t.candidates| && t.candidates == s.candidates[i := t.candidates[i]] && Missing(t.candidates[i]) == 3
    requires t.run.status == Coding && t.run.repairIterations == s.run.repairIterations + 1
    requires |t.jobs| == |s.jobs| + 1 && t.jobs[..|s.jobs|] == s.jobs && !QueuedStage(t.jobs[|s.jobs|])
    requires s.run.repairIterations < cfg.maxRepairIterations
    ensures Bounded(cfg, t)
  {
    NoneQueuedCountsZero(s.jobs);
    assert QueuedStages(t.jobs) == QueuedStages(s.jobs);
    MissingUpdate(s.candidates, i, t.candidates[i]);
    hide Missing, TotalMissing, NoneQueued, QueuedStages, QueuedStage;
  }

  lemma StagesKeepBound(cfg: Config, s: State, run: R.RunRecord)
    requires Bounded(cfg, s) && NoneQueued(s.jobs) && s.run.status in {Coding, Validating}
    requires s.run.repairIterations <= cfg.maxRepairIterations && run == s.run.(status := Validating)
    ensures Bounded(cfg, Publish(s.(run := run, candidates := SettleAll(cfg, s.candidates)), StageJobs(cfg, s.candidates, |s.jobs|)))
  {
    SettlingMissesNoMore(cfg, s.candidates);
    StageJobsAreMissing(cfg, s.candidates, |s.jobs|);
    NoneQueuedCountsZero(s.jobs);
    QueuedAppend(s.jobs, StageJobs(cfg, s.candidates, |s.jobs|));
    QueuedStagesArePaid(cfg, s, run, SettleAll(cfg, s.candidates), StageJobs(cfg, s.candidates, |s.jobs|));
  }

  lemma QueuedStagesArePaid(cfg: Config, s: State, run: R.RunRecord,
                            candidates: seq<C.CandidateRecord>, jobs: seq<J.JobRecord>)
    requires Bounded(cfg, s) && s.run.status in {Coding, Validating} && QueuedStages(s.jobs) == 0
    requires s.run.repairIterations <= cfg.maxRepairIterations && run == s.run.(status := Validating)
    requires TotalMissing(candidates) <= TotalMissing(s.candidates)
    requires |jobs| <= TotalMissing(s.candidates) && QueuedStages(s.jobs + jobs) == |jobs|
    ensures Bounded(cfg, Publish(s.(run := run, candidates := candidates), jobs))
  {
  }

  lemma ReviewShape(cfg: Config, s: State, viable: seq<C.CandidateRecord>)
    requires viable != [] && s.run.status in {Coding, Validating}
    ensures ReviewBest(cfg, s, viable).Ok?
    ensures var t := ReviewBest(cfg, s, viable).value;
            && t.run.status == Reviewing && t.run.repairIterations == s.run.repairIterations && t.candidates == s.candidates
            && |t.jobs| == |s.jobs| + 1 && t.jobs[..|s.jobs|] == s.jobs && !QueuedStage(t.jobs[|s.jobs|])
  {
    hide Pick;
  }

  lemma ReviewKeepsBound(cfg: Config, s: State, viable: seq<C.CandidateRecord>)
    requires viable != [] && Bounded(cfg, s) && NoneQueued(s.jobs) && s.run.status in {Coding, Validating}
    requires s.run.repairIterations <= cfg.maxRepairIterations
    ensures ReviewBest(cfg, s, viable).Ok? && Bounded(cfg, ReviewBest(cfg, s, viable).value)
  {
    hide ReviewBest, NoneQueued, TotalMissing, QueuedStage, QueuedStages;
    ReviewShape(cfg, s, viable);
    OneMoreNoStage(s.jobs, ReviewBest(cfg, s, viable).value.jobs);
  }

  lemma OneMoreNoStage(jobs: seq<J.JobRecord>, more: seq<J.JobRecord>)
    requires NoneQueued(jobs) && |more| == |jobs| + 1 && more[..|jobs|] == jobs && !QueuedStage(more[|jobs|])
    ensures QueuedStages(jobs) == 0 && QueuedStages(more) == 0
  {
    NoneQueuedCountsZero(jobs);
  }

  lemma AdvanceCandidatesKeepsBound(cfg: Config, s: State)
    requires cfg.Valid() && NoneQueued(s.jobs) && Bounded(cfg, s) && s.run.status in {Coding, Validating}
    requires s.run.maxRepairIterations == cfg.maxRepairIterations && s.run.repairIterations <= cfg.maxRepairIterations
    ensures AdvanceCandidates(cfg, s).Ok? ==> Bounded(cfg, AdvanceCandidates(cfg, s).value)
  {
    var t := s.(candidates := SettleAll(cfg, s.candidates));
    var settled := Settled(t.candidates);
    var viable := S.Viable(settled);
    SettlingMissesNoMore(cfg, s.candidates);
    assert Bounded(cfg, t);
    hide SettleAll, Settled, StageJobs, Bounded, NoneQueued, RepairOrFail, ReviewBest, Publish, S.Viable;
    if StageJobs(cfg, s.candidates, |s.jobs|) != [] {
      StagesKeepBound(cfg, s, s.run.(status := Validating));
    } else if viable != [] {
      ReviewKeepsBound(cfg, t, viable);
    } else if settled != [] {
      RepairKeepsBound(cfg, t, Some(settled[0].index));
    }
  }

  lemma PlanKeepsBound(cfg: Config, s: State)
    requires NoneQueued(s.jobs) && Bounded(cfg, s) && s.run.status == Created && cfg.requiresPlan && s.candidates == []
    requires s.run.repairIterations <= cfg.maxRepairIterations
    ensures OpenFirstStage(cfg, s).Ok? ==> Bounded(cfg, OpenFirstStage(cfg, s).value)
  {
    NoneQueuedCountsZero(s.jobs);
    var plan := OpenJob(cfg, |s.jobs|, J.Plan, None, J.Normal);
    QueuedAppend(s.jobs, [plan]);
    NoneQueuedCountsZero([plan]);
    hide QueuedStages, QueuedStage, NoneQueued, OpenJob;
  }

  lemma CodingKeepsBound(cfg: Config, s: State)
    requires NoneQueued(s.jobs) && Bounded(cfg, s) && s.candidates == []
    requires s.run.status == PlanReady || (s.run.status == Created && !cfg.requiresPlan)
    requires s.run.repairIterations <= cfg.maxRepairIterations
    ensures Bounded(cfg, OpenCandidates(cfg, s.(run := s.run.(status := Coding))))
  {
    NoneQueuedCountsZero(s.jobs);
    assert TotalMissing(s.candidates) == 0;
    hide QueuedStages, NoneQueued, OpenCandidates;
    OpeningKeepsBound(cfg, s.(run := s.run.(status := Coding)));
  }

  lemma InvParts(cfg: Config, s: State)
    requires Inv(cfg, s)
    ensures s.run.maxRepairIterations == cfg.maxRepairIterations && s.run.repairIterations <= cfg.maxRepairIterations
    ensures !HasUnfinished(s.jobs) ==> NoneQueued(s.jobs)
    ensures !s.run.status.IsTerminal() ==> Live(cfg, s) && Running(s)
    ensures s.run.status in {Created, PlanReady} ==> s.candidates == []
  {
    UnfinishedMeansQueued(cfg, s.jobs);
  }

  lemma AdvanceKeepsBound(cfg: Config, s: State)
    requires cfg.Valid() && Inv(cfg, s) && Bounded(cfg, s)
    ensures AdvanceRun(cfg, s).Ok? ==> Bounded(cfg, AdvanceRun(cfg, s).value)
  {
    hide AdvanceCandidates, AdvanceReview, OpenCandidates, HasUnfinished, Bounded, NoneQueued, Live, Inv, Publish, OpenJob;
    InvParts(cfg, s);
    if s.run.status.IsTerminal() || HasUnfinished(s.jobs) {
    } else if s.run.status == Created && cfg.requiresPlan {
      PlanKeepsBound(cfg, s);
    } else if s.run.status in {Created, PlanReady} {
      CodingKeepsBound(cfg, s);
    } else if s.run.status in {Coding, Validating} {
      AdvanceCandidatesKeepsBound(cfg, s);
    } else if s.run.status == Reviewing {
      AdvanceReviewKeepsBound(cfg, s);
    }
  }

  lemma AdvanceReviewKeepsBound(cfg: Config, s: State)
    requires cfg.Valid() && Inv(cfg, s) && Live(cfg, s) && NoneQueued(s.jobs) && Bounded(cfg, s)
    requires s.run.status == Reviewing
    ensures AdvanceReview(cfg, s).Ok? ==> Bounded(cfg, AdvanceReview(cfg, s).value)
  {
    hide RepairOrFail, WithVerdict, Pick;
    var failing := WithVerdict(s.candidates, C.Fail);
    if failing != [] {
      RepairKeepsBound(cfg, s, Some(failing[0].index));
    } else {
      RepairKeepsBound(cfg, s, Some(0));
    }
  }

  lemma ExecutionKeepsBound(cfg: Config, s: State, k: nat, work: Work)
    requires cfg.Valid() && Inv(cfg, s) && NoneSpent(s) && Bounded(cfg, s) && k in s.offered && !s.run.status.IsTerminal()
    requires cfg.retry.Within(cfg.jobMaxAttempts) && cfg.configured <= cfg.available
    ensures Bounded(cfg, ExecuteJob(cfg, s, k, work))
  {
    assert Live(cfg, s) && Claimable(s, k) && Fits(cfg, s, s.jobs[k]);
    hide Bounded;
    if work.Threw? {
      FailureKeepsBound(cfg, s, k, Classify(work.exc));
    } else {
      AnswerKeepsBound(cfg, s, k, work);
    }
  }

  lemma LateExecutionKeepsBound(cfg: Config, s: State, k: nat, work: Work)
    requires Bounded(cfg, s) && s.run.status.IsTerminal() && k < |s.jobs| && k in s.offered
    ensures Bounded(cfg, ExecuteJob(cfg, s, k, work))
  {
  }

  lemma StepKeepsBound(cfg: Config, s: State, e: Event)
    requires cfg.Valid() && Inv(cfg, s) && NoneSpent(s) && Bounded(cfg, s)
    requires cfg.retry.Within(cfg.jobMaxAttempts) && cfg.configured <= cfg.available
    ensures Bounded(cfg, Step(cfg, s, e))
  {
    match e
    case Advance =>
      hide Inv, Bounded, AdvanceRun;
      AdvanceKeepsBound(cfg, s);
    case Cancel => hide Inv;
    case Execute(k, work) =>
      hide Inv, Bounded, ExecuteJob;
      if k < |s.jobs| && k in s.offered {
        if s.run.status.IsTerminal() {
          LateExecutionKeepsBound(cfg, s, k, work);
        } else {
          ExecutionKeepsBound(cfg, s, k, work);
        }
      }
  }

  lemma {:induction false} BoundedWithin(cfg: Config, events: seq<Event>)
    requires cfg.Valid() && cfg.retry.Within(cfg.jobMaxAttempts) && cfg.configured <= cfg.available
    ensures Bounded(cfg, Exec(cfg, Init(cfg), events))
  {
    if events != [] {
      var before := events[..|events| - 1];
      BoundedWithin(cfg, before);
      InvAlways(cfg, before);
      hide Inv, Step, Bounded;
      StepKeepsBound(cfg, Exec(cfg, Init(cfg), before), events[|events| - 1]);
    }
  }

  // ---- without commands the run status alone is a measure ----

  /** Jobs a run without commands may still open: its first round, and one review
      and one repair for each repair left. */
  function BareReserve(cfg: Config, run: R.RunRecord): int {
    var repairs := 2 * (cfg.maxRepairIterations - run.repairIterations);
    match run.status
    case Created => cfg.candidateCount + 1 + repairs + (if cfg.requiresPlan then 1 else 0)
    case Planning => cfg.candidateCount + 1 + repairs
    case PlanReady => cfg.candidateCount + 1 + repairs
    case Coding => 1 + repairs
    case Reviewing => repairs
    case _ => 0
  }

  ghost predicate BareBounded(cfg: Config, s: State) {
    && s.run.status != Validating
    && |s.jobs| + BareReserve(cfg, s.run) <= JobBudget(cfg)
  }

  lemma {:induction false} NoCommandNoStageJob(cfg: Config, candidates: seq<C.CandidateRecord>, base: nat)
    requires cfg.configured == {}
    ensures StageJobs(cfg, candidates, base) == []
  {
    if candidates != [] {
      NoCommandNoStageJob(cfg, candidates[..|candidates| - 1], base);
    }
  }

  lemma BareRepair(cfg: Config, s: State, target: Option<nat>)
    requires Steady(cfg, s) && s.run.status in {Coding, Reviewing} && BareBounded(cfg, s)
    requires RepairOrFail(cfg, s, target).Ok?
    ensures BareBounded(cfg, RepairOrFail(cfg, s, target).value)
  {
  }

  lemma BareDecision(cfg: Config, s: State)
    requires cfg.configured == {} && Steady(cfg, s) && BareBounded(cfg, s) && AdvanceRun(cfg, s).Ok?
    ensures BareBounded(cfg, AdvanceRun(cfg, s).value)
  {
    hide RepairOrFail, StageJobs, SettleAll, Settled, WithVerdict, Pick, HasUnfinished, OpenJob;
    if s.run.status == Coding {
      NoCommandNoStageJob(cfg, s.candidates, |s.jobs|);
      var u := s.(candidates := SettleAll(cfg, s.candidates));
      var settled := Settled(u.candidates);
      if settled != [] && RepairOrFail(cfg, u, Some(settled[0].index)).Ok? {
        BareRepair(cfg, u, Some(settled[0].index));
      }
    } else if s.run.status == Reviewing {
      var failing := WithVerdict(s.candidates, C.Fail);
      var target := if failing != [] then Some(failing[0].index)
                    else if s.candidates != [] then Some(s.candidates[0].index) else None;
      if RepairOrFail(cfg, s, target).Ok? {
        BareRepair(cfg, s, target);
      }
    }
  }

  lemma BareStep(cfg: Config, s: State, e: Event)
    requires cfg.Valid() && cfg.configured == {} && Tracked(cfg, s) && Steady(cfg, s) && BareBounded(cfg, s)
    ensures BareBounded(cfg, Step(cfg, s, e))
  {
    hide Tracked, AdvanceRun, ExecuteJob, Handled;
    match e
    case Advance =>
      if AdvanceRun(cfg, s).Ok? {
        BareDecision(cfg, s);
      }
    case Cancel =>
    case Execute(k, work) =>
      if k < |s.jobs| && k in s.offered {
        if s.run.status.IsTerminal() {
          LateExecution(cfg, s, k, work);
        } else {
          ExecuteOutcome(cfg, s, k, work);
          RunAfterExecution(cfg, s, ExecuteJob(cfg, s, k, work), k, work);
        }
      }
  }

  lemma RunAfterExecution(cfg: Config, s: State, t: State, k: nat, work: Work)
    requires k < |s.jobs| && |t.jobs| == |s.jobs| && Outcome(cfg, s, t, k, work)
    ensures t.run == s.run || t.run.status == Failed
      || (s.run.status == Planning && t.run == s.run.(status := PlanReady))
  {
  }

  lemma {:induction false} BareAlways(cfg: Config, events: seq<Event>)
    requires cfg.Valid() && cfg.configured == {}
    ensures BareBounded(cfg, Exec(cfg, Init(cfg), events))
  {
    if events != [] {
      var before := events[..|events| - 1];
      BareAlways(cfg, before);
      TrackedAlways(cfg, before);
      hide Tracked, Steady, BareBounded, Step;
      BareStep(cfg, Exec(cfg, Init(cfg), before), events[|events| - 1]);
    }
  }

  /** Bounded work: no sequence of answers, failures, redeliveries, decisions and
      cancellations makes a run open more jobs than its budget. */
  lemma WorkIsBounded(cfg: Config, events: seq<Event>)
    requires cfg.Valid() && StagesAlwaysReport(cfg)
    ensures |Exec(cfg, Init(cfg), events).jobs| <= JobBudget(cfg) <= 4 * cfg.candidateCount + 5 * cfg.maxRepairIterations + 2
  {
    var s := Exec(cfg, Init(cfg), events);
    if cfg.configured == {} {
      BareAlways(cfg, events);
      TrackedAlways(cfg, events);
    } else {
      BoundedWithin(cfg, events);
    }
    hide Exec, Init, Tracked;
  }

  // ---- executions are bounded too ----

  function Attempts(jobs: seq<J.JobRecord>): nat {
    if jobs == [] then 0 else Attempts(jobs[..|jobs| - 1]) + jobs[|jobs| - 1].attempt
  }

  ghost predicate Executes(s: State, e: Event, k: nat) {
    e.Execute? && e.job == k && k < |s.jobs| && k in s.offered
  }

  /** How many of the events actually executed a job. */
  ghost function Executions(cfg: Config, s: State, events: seq<Event>): nat {
    if events == [] then 0 else
    var before := Exec(cfg, s, events[..|events| - 1]);
    var e := events[|events| - 1];
    Executions(cfg, s, events[..|events| - 1]) + Bit(e.Execute? && Executes(before, e, e.job))
  }

  /** How many of them executed this one. */
  ghost function TimesExecuted(cfg: Config, s: State, events: seq<Event>, k: nat): nat {
    if events == [] then 0 else
    var before := Exec(cfg, s, events[..|events| - 1]);
    TimesExecuted(cfg, s, events[..|events| - 1], k) + Bit(Executes(before, events[|events| - 1], k))
  }

  lemma {:induction false} AttemptsUpdate(jobs: seq<J.JobRecord>, k: nat, j: J.JobRecord)
    requires k < |jobs|
    ensures Attempts(jobs[k := j]) == Attempts(jobs) - jobs[k].attempt + j.attempt
  {
    var last := |jobs| - 1;
    if k < last {
      AttemptsUpdate(jobs[..last], k, j);
      assert jobs[k := j][..last] == jobs[..last][k := j];
    } else {
      assert jobs[k := j][..last] == jobs[..last];
    }
  }

  lemma {:induction false} AttemptsOnly(a: seq<J.JobRecord>, b: seq<J.JobRecord>)
    requires |a| <= |b|
    requires forall k :: 0 <= k < |a| ==> b[k].attempt == a[k].attempt
    requires forall k :: |a| <= k < |b| ==> b[k].attempt == 0
    ensures Attempts(b) == Attempts(a)
  {
    if b != [] {
      if |a| == |b| {
        AttemptsOnly(a[..|a| - 1], b[..|b| - 1]);
      } else {
        AttemptsOnly(a, b[..|b| - 1]);
      }
    }
  }

  lemma {:induction false} AttemptsBelow(cfg: Config, jobs: seq<J.JobRecord>)
    requires forall k :: 0 <= k < |jobs| ==> RowSound(cfg, jobs[k])
    ensures Attempts(jobs) <= |jobs| * PolicyCap(cfg)
  {
    if jobs != [] {
      AttemptsBelow(cfg, jobs[..|jobs| - 1]);
      assert |jobs| * PolicyCap(cfg) == (|jobs| - 1) * PolicyCap(cfg) + PolicyCap(cfg);
    }
  }

  /** One event spends one attempt of the job it executes, and no other. */
  lemma StepSpends(cfg: Config, s: State, e: Event, k: nat)
    requires cfg.Valid() && Tracked(cfg, s) && Steady(cfg, s)
    ensures var t := Step(cfg, s, e);
      && |t.jobs| >= |s.jobs|
      && (k < |s.jobs| ==> t.jobs[k].attempt == s.jobs[k].attempt + Bit(Executes(s, e, k)))
      && (|s.jobs| <= k < |t.jobs| ==> t.jobs[k].attempt == 0 && !Executes(s, e, k))
  {
    hide AdvanceRun, ExecuteJob, Tracked;
    match e
    case Advance =>
      if AdvanceRun(cfg, s).Ok? {
        DecisionsPublish(cfg, s);
        NewJobsAreUnspent(cfg, s, AdvanceRun(cfg, s).value, k);
      }
    case Cancel => CancellingKeepsTracked(cfg, s);
    case Execute(l, work) =>
      if l < |s.jobs| && l in s.offered {
        ExecutionKeepsTracked(cfg, s, l, work);
      }
  }

  lemma NewJobsAreUnspent(cfg: Config, s: State, t: State, k: nat)
    requires Publishes(cfg, s, t)
    ensures |t.jobs| >= |s.jobs|
    ensures k < |s.jobs| ==> t.jobs[k] == s.jobs[k]
    ensures |s.jobs| <= k < |t.jobs| ==> t.jobs[k].attempt == 0
  {
    var added :| NewJobs(cfg, added) && t.jobs == s.jobs + added && t.offered == Publish(s, added).offered;
    if |s.jobs| <= k < |t.jobs| {
      assert NewJob(cfg, added[k - |s.jobs|]);
    }
  }

  /** The attempt counter of a row is the number of times its job was executed. */
  lemma {:induction false} AttemptsAreExecutions(cfg: Config, events: seq<Event>, k: nat)
    requires cfg.Valid()
    ensures var s := Exec(cfg, Init(cfg), events);
      TimesExecuted(cfg, Init(cfg), events, k) == if k < |s.jobs| then s.jobs[k].attempt else 0
  {
    if events != [] {
      var before := events[..|events| - 1];
      AttemptsAreExecutions(cfg, before, k);
      TrackedAlways(cfg, before);
      hide Tracked, Steady, Step;
      StepSpends(cfg, Exec(cfg, Init(cfg), before), events[|events| - 1], k);
    }
  }

  lemma StepSpendsInAll(cfg: Config, s: State, e: Event)
    requires cfg.Valid() && Tracked(cfg, s) && Steady(cfg, s)
    ensures var t := Step(cfg, s, e);
      |t.jobs| >= |s.jobs| && Attempts(t.jobs) == Attempts(s.jobs) + Bit(e.Execute? && Executes(s, e, e.job))
  {
    hide Tracked, Steady, Step;
    var t := Step(cfg, s, e);
    StepSpends(cfg, s, e, 0);
    forall k: nat
      ensures k < |s.jobs| ==> t.jobs[k].attempt == s.jobs[k].attempt + Bit(Executes(s, e, k))
      ensures |s.jobs| <= k < |t.jobs| ==> t.jobs[k].attempt == 0
    {
      StepSpends(cfg, s, e, k);
    }
    SpentInAll(s, t, e);
  }

  lemma {:induction false} ExecutionsAreAttempts(cfg: Config, events: seq<Event>)
    requires cfg.Valid()
    ensures Executions(cfg, Init(cfg), events) == Attempts(Exec(cfg, Init(cfg), events).jobs)
  {
    if events != [] {
      var before := events[..|events| - 1];
      ExecutionsAreAttempts(cfg, before);
      TrackedAlways(cfg, before);
      hide Tracked, Steady, Step;
      StepSpendsInAll(cfg, Exec(cfg, Init(cfg), before), events[|events| - 1]);
    }
  }

  lemma SpentInAll(s: State, t: State, e: Event)
    requires |t.jobs| >= |s.jobs|
    requires forall k: nat :: k < |s.jobs| ==> t.jobs[k].attempt == s.jobs[k].attempt + Bit(Executes(s, e, k))
    requires forall k: nat :: |s.jobs| <= k < |t.jobs| ==> t.jobs[k].attempt == 0
    ensures Attempts(t.jobs) == Attempts(s.jobs) + Bit(e.Execute? && Executes(s, e, e.job))
  {
    if e.Execute? && Executes(s, e, e.job) {
      var spent := s.jobs[e.job := t.jobs[e.job]];
      AttemptsUpdate(s.jobs, e.job, t.jobs[e.job]);
      AttemptsOnly(spent, t.jobs);
    } else {
      AttemptsOnly(s.jobs, t.jobs);
    }
  }

  lemma MultiplyMonotone(a: nat, b: nat, m: nat)
    requires a <= b
    ensures a * m <= b * m
  {
  }

  /** Executions stop: retries and redeliveries included, a run never executes
      anything more than its job budget times the policy's attempts for one job. */
  lemma ExecutionsAreBounded(cfg: Config, events: seq<Event>)
    requires cfg.Valid() && StagesAlwaysReport(cfg)
    ensures Executions(cfg, Init(cfg), events) <= JobBudget(cfg) * PolicyCap(cfg)
  {
    ExecutionsAreAttempts(cfg, events);
    TrackedAlways(cfg, events);
    WorkIsBounded(cfg, events);
    var jobs := Exec(cfg, Init(cfg), events).jobs;
    hide Exec, Init, JobBudget;
    AttemptsBelow(cfg, jobs);
    MultiplyMonotone(|jobs|, JobBudget(cfg), PolicyCap(cfg));
  }
}
