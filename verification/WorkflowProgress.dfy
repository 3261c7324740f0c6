/** A run never gets stuck: the exact condition on the configuration. */
module WorkflowProgress {
  import opened Common
  import opened RunStateMachine
  import opened Workflow
  import opened WorkflowQueue
  import opened WorkflowSafety
  import opened WorkflowBounds
  import opened WorkflowScripts
  import opened WorkflowExact
  import opened WorkflowGeneral
  import C = Candidates
  import J = Jobs
  import S = Selection

  /** The next decision of the run does not raise; and the queue has a job of the
      run to hand out, or the decision opens one or ends the run. */
  ghost predicate Progresses(cfg: Config, s: State) {
    && AdvanceRun(cfg, s).Ok?
    && (s.run.status.IsTerminal() || s.offered != map[]
        || |AdvanceRun(cfg, s).value.jobs| > |s.jobs|
        || AdvanceRun(cfg, s).value.run.status.IsTerminal())
  }

  /** With commands, stale results can reach a coding run only through spent jobs,
      and matter only if a second repair is allowed and results exist at all.
      Without commands any repair is asked for too early. */
  ghost predicate NeverStuck(cfg: Config) {
    if cfg.configured == {} then cfg.maxRepairIterations == 0
    else
      || cfg.retry.Within(cfg.jobMaxAttempts)
      || cfg.maxRepairIterations <= 1
      || FirstIsSilent(cfg)
  }

  /** The tool of the first configured command is missing. */
  ghost predicate FirstIsSilent(cfg: Config) {
    var first := FirstUndone(cfg.configured, {});
    first.Some? && first.value !in cfg.available
  }

  // ---- legal decisions ----

  /** The one decision the transition table refuses: a repair asked for while coding. */
  ghost predicate EarlyRepair(cfg: Config, s: State) {
    && s.run.status == Coding && s.run.CanRepair()
    && StageJobs(cfg, s.candidates, |s.jobs|) == []
    && Settled(SettleAll(cfg, s.candidates)) != []
    && S.Viable(Settled(SettleAll(cfg, s.candidates))) == []
  }

  lemma RepairIsLegal(cfg: Config, s: State, target: nat)
    requires target < |s.candidates| && !s.candidates[target].status.IsTerminal()
    requires s.run.status in {Coding, Validating, Reviewing}
    requires s.run.status == Coding ==> !s.run.CanRepair()
    ensures var r := RepairOrFail(cfg, s, Some(target));
            r.Ok? && (|r.value.jobs| > |s.jobs| || r.value.run.status.IsTerminal())
  {
  }

  lemma SettledHead(cfg: Config, s: State)
    requires CandidatesSound(cfg, s) && s.run.status in {Coding, Validating}
    requires Settled(SettleAll(cfg, s.candidates)) != []
    ensures var all := SettleAll(cfg, s.candidates);
      var i := Settled(all)[0].index;
      i < |all| && !all[i].status.IsTerminal()
  {
    var all := SettleAll(cfg, s.candidates);
    SettledAreOwn(all);
    HeadIsMember(Settled(all));
  }

  lemma HeadIsMember<T>(s: seq<T>)
    requires s != []
    ensures s[0] in s
  {
  }

  lemma SomethingIsOffered(cfg: Config, s: State)
    requires cfg.Valid() && General(cfg, s) && s.run.status in {Coding, Validating}
    requires StageJobs(cfg, s.candidates, |s.jobs|) == [] && Settled(SettleAll(cfg, s.candidates)) == []
    ensures s.offered != map[]
  {
    NothingSettled(cfg, s);
    assert CoderOffered(s, 0);
  }

  lemma CandidatesProgress(cfg: Config, s: State)
    requires cfg.Valid() && General(cfg, s) && s.run.status in {Coding, Validating} && !EarlyRepair(cfg, s)
    ensures var r := AdvanceCandidates(cfg, s);
            r.Ok? && (s.offered != map[] || |r.value.jobs| > |s.jobs| || r.value.run.status.IsTerminal())
  {
    hide General, StageJobs, SettleAll, Settled, RepairOrFail, S.Viable, Pick, CandidatesSound, CandidatesKept, Firsts, Tracked;
    GeneralParts(cfg, s);
    if StageJobs(cfg, s.candidates, |s.jobs|) == [] {
      if Settled(SettleAll(cfg, s.candidates)) == [] {
        SomethingIsOffered(cfg, s);
      } else {
        SettledHead(cfg, s);
        var t := s.(candidates := SettleAll(cfg, s.candidates));
        if S.Viable(Settled(t.candidates)) == [] {
          RepairIsLegal(cfg, t, Settled(t.candidates)[0].index);
        }
      }
    }
  }

  lemma ReviewProgress(cfg: Config, s: State)
    requires cfg.Valid() && CandidatesSound(cfg, s) && s.run.status == Reviewing
    ensures var r := AdvanceReview(cfg, s);
            r.Ok? && (|r.value.jobs| > |s.jobs| || r.value.run.status.IsTerminal())
  {
    var passed := WithVerdict(s.candidates, C.Pass);
    var failing := WithVerdict(s.candidates, C.Fail);
    VerdictsAreOwn(s.candidates, C.Pass);
    VerdictsAreOwn(s.candidates, C.Fail);
    assert forall i :: 0 <= i < |s.candidates| ==> CandidateSound(cfg, s.candidates[i]);
    if passed != [] {
      PickIsMember(passed);
      var w := Pick(passed).index;
      hide Pick, WithVerdict;
      CompletingIsLegal(cfg, s, w);
    } else if failing != [] {
      assert failing[0] in failing;
      RepairIsLegal(cfg, s, failing[0].index);
    } else {
      RepairIsLegal(cfg, s, 0);
    }
  }

  lemma CompletingIsLegal(cfg: Config, s: State, w: nat)
    requires s.run.status == Reviewing && w < |s.candidates| && !s.candidates[w].status.IsTerminal() && s.candidates[w].index == w
    ensures CompleteWith(s, w).Ok? && CompleteWith(s, w).value.run.status == Completed
  {
  }

  lemma QueuedIsOffered(cfg: Config, s: State)
    requires Tracked(cfg, s) && HasUnfinished(s.jobs)
    ensures s.offered != map[]
  {
    var j :| j in s.jobs && !j.status.IsTerminal();
    var k :| 0 <= k < |s.jobs| && s.jobs[k] == j;
    assert RowSound(cfg, s.jobs[k]);
    assert k in s.offered;
  }

  lemma FirstDecisionsAreLegal(cfg: Config, s: State)
    requires cfg.Valid() && s.run.status in {Created, PlanReady} && !HasUnfinished(s.jobs)
    ensures AdvanceRun(cfg, s).Ok? && |AdvanceRun(cfg, s).value.jobs| > |s.jobs|
  {
    hide HasUnfinished;
  }

  /** Every reachable state progresses unless its decision is the refused one. */
  lemma GeneralRunsProgress(cfg: Config, s: State)
    requires cfg.Valid() && General(cfg, s) && (HasUnfinished(s.jobs) || !EarlyRepair(cfg, s))
    ensures Progresses(cfg, s)
  {
    if HasUnfinished(s.jobs) {
      QueuedIsOffered(cfg, s);
    }
    if s.run.status == Planning {
      var k :| k in s.offered;
    }
    hide AdvanceCandidates, AdvanceReview, OpenFirstStage, OpenCandidates, EarlyRepair, HasUnfinished, Tracked;
    if s.run.status.IsTerminal() || HasUnfinished(s.jobs) {
    } else if s.run.status in {Created, PlanReady} {
      FirstDecisionsAreLegal(cfg, s);
    } else if s.run.status in {Coding, Validating} {
      CandidatesProgress(cfg, s);
    } else if s.run.status == Reviewing {
      ReviewProgress(cfg, s);
    }
  }

  // ---- when the refused decision is never taken ----

  lemma NothingConfigured(cfg: Config, v: C.ValidationReport)
    requires v.results == [] && C.NextStage(cfg.configured, v) == None
    ensures cfg.configured == {}
  {
    assert v.Passed(Build) == None && v.Passed(Test) == None && v.Passed(StaticAnalysis) == None;
    forall stage: Stage
      ensures stage !in cfg.configured
    {
      match stage
      case Build =>
      case Test =>
      case StaticAnalysis =>
    }
  }

  /** Settled candidates were validated, or are being validated with no stage left. */
  ghost predicate Concluded(cfg: Config, c: C.CandidateRecord) {
    c.status in {C.Validating, C.Validated} && C.NextStage(cfg.configured, c.validation) == None
  }

  lemma SettledHasEvidence(cfg: Config, s: State)
    requires CandidatesSound(cfg, s) && s.run.status in {Coding, Validating}
    requires Settled(SettleAll(cfg, s.candidates)) != []
    ensures exists i :: 0 <= i < |s.candidates| && Concluded(cfg, s.candidates[i])
  {
    var all := SettleAll(cfg, s.candidates);
    SettledAreOwn(all);
    HeadIsMember(Settled(all));
    var i := Settled(all)[0].index;
    assert all[i] == Settle(cfg, s.candidates[i]) && CandidateSound(cfg, s.candidates[i]);
  }

  lemma FirstRoundIsLegal(cfg: Config, s: State)
    requires General(cfg, s) && cfg.configured != {} && cfg.maxRepairIterations <= 1
    ensures !EarlyRepair(cfg, s)
  {
    if EarlyRepair(cfg, s) {
      SettledHasEvidence(cfg, s);
      var i :| 0 <= i < |s.candidates| && Concluded(cfg, s.candidates[i]);
      assert Unjudged(s.candidates[i]);
      NothingConfigured(cfg, s.candidates[i].validation);
    }
  }

  /** When the first command's tool is missing nothing is ever settled. */
  lemma SilentFirstStage(cfg: Config, c: C.CandidateRecord)
    requires FirstIsSilent(cfg) && Reported(cfg, c)
    ensures C.NextStage(cfg.configured, c.validation) != None
  {
    var first := FirstUndone(cfg.configured, {});
    forall stage: Stage | stage !in cfg.configured || stage == first.value
      ensures c.validation.Passed(stage) == None
    {
      assert forall r :: r in c.validation.results ==> r.kind != stage;
    }
  }

  lemma SilentIsLegal(cfg: Config, s: State)
    requires General(cfg, s) && FirstIsSilent(cfg)
    ensures !EarlyRepair(cfg, s)
  {
    if EarlyRepair(cfg, s) {
      SettledHasEvidence(cfg, s);
      var i :| 0 <= i < |s.candidates| && Concluded(cfg, s.candidates[i]);
      SilentFirstStage(cfg, s.candidates[i]);
    }
  }

  /** A coding run has code still to judge. */
  ghost predicate FreshWork(s: State) {
    s.run.status == Coding ==> exists i :: 0 <= i < |s.candidates| && Unjudged(s.candidates[i])
  }

  lemma ExecutionKeepsFresh(cfg: Config, s: State, k: nat, work: Work)
    requires cfg.Valid() && Inv(cfg, s) && NoneSpent(s) && General(cfg, s) && FreshWork(s) && k in s.offered && Running(s)
    ensures FreshWork(ExecuteJob(cfg, s, k, work))
  {
    hide ExecuteJob, Inv, General, Tracked, CandidatesKept, CandidatesSound, Firsts, NoneSpent, FreshWork, Outcome, OneRow;
    GeneralParts(cfg, s);
    OfferFits(cfg, s, k);
    ExecuteOutcome(cfg, s, k, work);
    var t := ExecuteJob(cfg, s, k, work);
    OutcomeKeepsFresh(cfg, s, t, k, work);
  }

  lemma OfferFits(cfg: Config, s: State, k: nat)
    requires Inv(cfg, s) && NoneSpent(s) && k in s.offered && Running(s)
    ensures k < |s.jobs| && Fits(cfg, s, s.jobs[k])
  {
  }

  lemma OutcomeKeepsFresh(cfg: Config, s: State, t: State, k: nat, work: Work)
    requires k < |s.jobs| && Fits(cfg, s, s.jobs[k]) && OneRow(s, t, k) && Outcome(cfg, s, t, k, work)
    requires FreshWork(s) && CandidatesSound(cfg, s) && Running(s)
    ensures FreshWork(t)
  {
    if t.run.status == Coding {
      assert s.run.status == Coding && s.jobs[k].kind == J.Code;
      var i :| 0 <= i < |s.candidates| && Unjudged(s.candidates[i]);
      assert CandidateSound(cfg, s.candidates[i]);
      assert Unjudged(t.candidates[i]);
    }
  }

  lemma RepairIsFresh(cfg: Config, s: State, target: Option<nat>)
    requires RepairOrFail(cfg, s, target).Ok? && s.run.status in {Coding, Validating, Reviewing}
    ensures FreshWork(RepairOrFail(cfg, s, target).value)
  {
    var t := RepairOrFail(cfg, s, target).value;
    if t.run.status == Coding {
      assert Unjudged(t.candidates[target.value]);
    }
  }

  lemma CandidateDecisionIsFresh(cfg: Config, s: State)
    requires cfg.Valid() && General(cfg, s) && FreshWork(s) && s.run.status in {Coding, Validating}
    requires AdvanceCandidates(cfg, s).Ok?
    ensures FreshWork(AdvanceCandidates(cfg, s).value)
  {
    var u := s.(candidates := SettleAll(cfg, s.candidates));
    var settled := Settled(u.candidates);
    if StageJobs(cfg, s.candidates, |s.jobs|) == [] && settled == [] {
      NothingSettled(cfg, s);
    }
    hide General, FreshWork, RepairOrFail, StageJobs, SettleAll, Settled, Publish, Pick;
    if StageJobs(cfg, s.candidates, |s.jobs|) == [] && settled != [] && S.Viable(settled) == [] {
      RepairIsFresh(cfg, u, Some(settled[0].index));
    } else if StageJobs(cfg, s.candidates, |s.jobs|) != [] || settled != [] {
      NotCodingIsFresh(AdvanceCandidates(cfg, s).value);
    }
  }

  lemma NotCodingIsFresh(s: State)
    ensures s.run.status != Coding ==> FreshWork(s)
  {
  }

  lemma ReviewDecisionIsFresh(cfg: Config, s: State)
    requires s.run.status == Reviewing && AdvanceReview(cfg, s).Ok?
    ensures FreshWork(AdvanceReview(cfg, s).value)
  {
    var passed, failing := WithVerdict(s.candidates, C.Pass), WithVerdict(s.candidates, C.Fail);
    hide WithVerdict, RepairOrFail, Pick;
    if passed == [] {
      RepairIsFresh(cfg, s, if failing != [] then Some(failing[0].index)
                            else if s.candidates != [] then Some(s.candidates[0].index) else None);
    }
  }

  lemma FirstDecisionIsFresh(cfg: Config, s: State)
    requires cfg.Valid() && s.run.status in {Created, PlanReady} && AdvanceRun(cfg, s).Ok? && FreshWork(s)
    ensures FreshWork(AdvanceRun(cfg, s).value)
  {
    hide OpenCandidates, HasUnfinished, Publish;
    OpeningIsFresh(cfg, s);
  }

  lemma DecisionKeepsFresh(cfg: Config, s: State)
    requires cfg.Valid() && General(cfg, s) && FreshWork(s) && AdvanceRun(cfg, s).Ok?
    ensures FreshWork(AdvanceRun(cfg, s).value)
  {
    if s.run.status in {Created, PlanReady} {
      FirstDecisionIsFresh(cfg, s);
    } else {
      assert s.run.status != Repairing;
      hide General, FreshWork, AdvanceCandidates, AdvanceReview, HasUnfinished;
      if s.run.status in {Coding, Validating} && !HasUnfinished(s.jobs) {
        CandidateDecisionIsFresh(cfg, s);
      } else if s.run.status == Reviewing && !HasUnfinished(s.jobs) {
        ReviewDecisionIsFresh(cfg, s);
      }
    }
  }

  lemma OpeningIsFresh(cfg: Config, s: State)
    requires cfg.Valid()
    ensures FreshWork(OpenCandidates(cfg, s.(run := s.run.(status := Coding))))
  {
    var t := OpenCandidates(cfg, s.(run := s.run.(status := Coding)));
    assert t.candidates[|s.candidates|] == OpenCandidate(0);
    assert Unjudged(t.candidates[|s.candidates|]);
  }

  lemma {:induction false} FreshAlways(cfg: Config, events: seq<Event>)
    requires cfg.Valid() && cfg.retry.Within(cfg.jobMaxAttempts)
    ensures FreshWork(Exec(cfg, Init(cfg), events))
  {
    if events != [] {
      var before := events[..|events| - 1];
      var s, e := Exec(cfg, Init(cfg), before), events[|events| - 1];
      FreshAlways(cfg, before);
      InvAlways(cfg, before);
      GeneralAlways(cfg, before);
      assert General(cfg, s) ==> Running(s) || s.run.status.IsTerminal();
      hide Inv, General, AdvanceRun, ExecuteJob, NoneSpent;
      match e
      case Advance =>
        if AdvanceRun(cfg, s).Ok? {
          DecisionKeepsFresh(cfg, s);
        }
      case Cancel =>
      case Execute(k, work) =>
        if k < |s.jobs| && k in s.offered && Running(s) {
          ExecutionKeepsFresh(cfg, s, k, work);
        }
    }
  }

  /** With nothing spent and nothing queued, nobody is still coding. */
  lemma NobodyCodes(cfg: Config, s: State, i: nat)
    requires General(cfg, s) && Running(s) && NoneSpent(s) && !HasUnfinished(s.jobs) && i < |s.candidates|
    ensures s.candidates[i].status != C.Coding
  {
    OffersAreUnfinished(s);
    assert !CoderOffered(s, i);
  }

  lemma OffersAreUnfinished(s: State)
    ensures NoneSpent(s) && s.offered != map[] ==> HasUnfinished(s.jobs)
  {
    if NoneSpent(s) && s.offered != map[] {
      var k :| k in s.offered;
      assert s.jobs[k] in s.jobs;
    }
  }

  lemma FreshIsLegal(cfg: Config, s: State)
    requires cfg.Valid() && General(cfg, s) && NoneSpent(s) && FreshWork(s) && !HasUnfinished(s.jobs) && cfg.configured != {}
    ensures !EarlyRepair(cfg, s)
  {
    if EarlyRepair(cfg, s) {
      var i :| 0 <= i < |s.candidates| && Unjudged(s.candidates[i]);
      NobodyCodes(cfg, s, i);
      StageJobsShape(cfg, s.candidates, |s.jobs|);
      assert !AwaitsStage(cfg, s.candidates[i]);
      hide General, NoneSpent, HasUnfinished, StageJobs, SettleAll, Settled;
      NothingConfigured(cfg, s.candidates[i].validation);
    }
  }

  lemma ProgressHolds(cfg: Config, events: seq<Event>)
    requires cfg.Valid() && NeverStuck(cfg)
    ensures Progresses(cfg, Exec(cfg, Init(cfg), events))
  {
    var s := Exec(cfg, Init(cfg), events);
    GeneralAlways(cfg, events);
    if !HasUnfinished(s.jobs) {
      if cfg.configured == {} {
        assert Steady(cfg, s);
      } else if cfg.maxRepairIterations <= 1 {
        FirstRoundIsLegal(cfg, s);
      } else if cfg.retry.Within(cfg.jobMaxAttempts) {
        InvAlways(cfg, events);
        FreshAlways(cfg, events);
        hide Inv;
        FreshIsLegal(cfg, s);
      } else {
        SilentIsLegal(cfg, s);
      }
    }
    hide Exec, Init, General, HasUnfinished;
    GeneralRunsProgress(cfg, s);
  }

  // ---- when it is taken ----

  lemma RepairFromCodingIsIllegal(cfg: Config, s: State)
    requires !HasUnfinished(s.jobs) && EarlyRepair(cfg, s)
    ensures AdvanceRun(cfg, s).Raised?
  {
    hide StageJobs, SettleAll, Settled, HasUnfinished;
  }

  lemma NobodyIsViable(list: seq<C.CandidateRecord>)
    requires forall c :: c in list ==> !c.HasPatch()
    ensures S.Viable(list) == []
  {
    var viable := S.Viable(list);
    assert forall c :: c in viable ==> c in list && c.IsViable();
    if viable != [] {
      HeadIsMember(viable);
    }
  }

  /** Validation is over for everyone, and nobody has a patch. */
  ghost predicate NothingToReview(cfg: Config, s: State) {
    && |s.candidates| > 0
    && forall i :: 0 <= i < |s.candidates| ==>
         && s.candidates[i].index == i && s.candidates[i].status in {C.Validating, C.Validated}
         && !AwaitsStage(cfg, s.candidates[i]) && !s.candidates[i].HasPatch()
  }

  lemma NothingToReviewDecides(cfg: Config, s: State)
    requires cfg.Valid() && NothingToReview(cfg, s)
    ensures StageJobs(cfg, s.candidates, |s.jobs|) == []
    ensures var settled := Settled(SettleAll(cfg, s.candidates));
      settled != [] && S.Viable(settled) == [] && settled[0].index < |s.candidates|
  {
    StageJobsShape(cfg, s.candidates, |s.jobs|);
    var all := SettleAll(cfg, s.candidates);
    SettledAreOwn(all);
    var settled := Settled(all);
    assert all[0] in all && all[0].status == C.Validated;
    assert all[0] in settled;
    HeadIsMember(settled);
    forall c | c in settled
      ensures !c.HasPatch()
    {
      assert c == all[c.index];
    }
    NobodyIsViable(settled);
  }

  lemma TooEarly(cfg: Config, s: State)
    requires cfg.Valid() && NothingToReview(cfg, s) && !HasUnfinished(s.jobs)
    requires s.run.status == Coding && s.run.CanRepair()
    ensures AdvanceRun(cfg, s).Raised?
  {
    NothingToReviewDecides(cfg, s);
    hide NothingToReview, StageJobs, SettleAll, Settled, HasUnfinished, AdvanceRun;
    RepairFromCodingIsIllegal(cfg, s);
  }

  /** With no command configured, an empty patch asks for a repair that the
      transition table does not allow from CODING. */
  lemma StuckOnIllegalRepair(cfg: Config) returns (events: seq<Event>)
    requires cfg.Valid() && cfg.configured == {} && cfg.maxRepairIterations > 0
    ensures AdvanceRun(cfg, Exec(cfg, Init(cfg), events)).Raised?
  {
    hide Exec, Init, Inv, Live, NothingToReview, HasUnfinished, AdvanceRun;
    events := ReachAllCoded(cfg, C.Patch(true, 0));
    var s := Exec(cfg, Init(cfg), events);
    InvParts(cfg, s);
    NoneUnfinished(cfg, s);
    NothingCoded(cfg, s);
    TooEarly(cfg, s);
  }

  lemma NothingCoded(cfg: Config, s: State)
    requires cfg.Valid() && cfg.configured == {} && AllCoded(cfg, s, C.Patch(true, 0))
    ensures NothingToReview(cfg, s)
  {
    assert forall i :: 0 <= i < |s.candidates| ==> !AwaitsStage(cfg, s.candidates[i]);
  }

  // ---- a spent stage job that reports after a repair ----

  /** For every candidate, a job for this stage is on offer although its row is dead. */
  ghost predicate SpentStages(s: State, n: nat, stage: Stage) {
    forall i :: 0 <= i < n ==> SpentStage(s, i, stage)
  }

  ghost predicate SpentStage(s: State, i: nat, stage: Stage) {
    exists k: nat :: Spent(s, k) && s.jobs[k].candidate == Some(i) && s.jobs[k].kind == J.Validate(stage)
  }

  lemma SpentStagesStay(s: State, t: State, n: nat, stage: Stage)
    requires SpentStages(s, n, stage) && SpentStay(s, t)
    ensures SpentStages(t, n, stage)
  {
    forall i | 0 <= i < n
      ensures SpentStage(t, i, stage)
    {
      assert SpentStage(s, i, stage);
      var k: nat :| Spent(s, k) && s.jobs[k].candidate == Some(i) && s.jobs[k].kind == J.Validate(stage);
      assert Spent(t, k) && t.jobs[k] == s.jobs[k];
    }
  }

  /** Spend everyone's job for the first stage. */
  lemma SpendFirstStage(cfg: Config, s: State, stage: Stage) returns (events: seq<Event>)
    requires cfg.Valid() && !cfg.retry.Within(cfg.jobMaxAttempts) && AllPassed(cfg, s, {}) && s.candidates != []
    requires FirstUndone(cfg.configured, {}) == Some(stage)
    ensures var t := Exec(cfg, s, events);
            && AllPassed(cfg, t, {}) && t.candidates == s.candidates && SpentStages(t, |s.candidates|, stage)
            && t.run == s.run.(status := Validating)
  {
    OpenStage(cfg, s, {}, stage);
    var u := Step(cfg, s, Advance);
    hide Step, Inv, Live, StageQueued;
    var exc := SomeExceptionInsists(cfg);
    var rest := KillAll(cfg, u, exc, 0);
    var t := Exec(cfg, u, rest);
    events := [Advance] + rest;
    ExecFirst(cfg, s, Advance, rest);
    forall i | 0 <= i < |s.candidates|
      ensures SpentStage(t, i, stage)
    {
      QueuedThenSpent(u, t, i, stage);
    }
    StillLive(cfg, t);
  }

  lemma QueuedThenSpent(u: State, t: State, i: nat, stage: Stage)
    requires AllSpent(u, t) && StageQueued(u.jobs, i, stage)
    ensures SpentStage(t, i, stage)
  {
    var k :| 0 <= k < |u.jobs| && u.jobs[k].status == J.Queued && u.jobs[k].candidate == Some(i)
             && u.jobs[k].kind == J.Validate(stage);
    assert Spent(t, k);
  }

  lemma FailedFirstStage(cfg: Config, c: C.CandidateRecord, stage: Stage)
    requires FirstUndone(cfg.configured, {}) == Some(stage) && c.validation.results == []
    ensures C.NextStage(cfg.configured, WithResult(c, stage, 1).validation) == None
  {
    var r := C.ToolResult(stage, 1, c.repairIterations);
    var v := WithResult(c, stage, 1).validation;
    assert v.results == [r];
    assert r in v.results && forall q :: q in v.results ==> q == r;
    assert v.Passed(stage) == Some(false);
    assert forall other: Stage :: other != stage ==> v.Passed(other) == None;
  }

  /** One candidate without a patch has been sent back; the others are settled, without one too. */
  ghost predicate OneBack(cfg: Config, s: State, target: nat, coding: bool) {
    && s.run.status == Coding && target < |s.candidates| && (coding ==> Named(s.jobs, target))
    && s.candidates[target].status == (if coding then C.Coding else C.Validating)
    && s.candidates[target].validation.results == []
    && forall i :: 0 <= i < |s.candidates| ==>
         s.candidates[i].index == i && !s.candidates[i].HasPatch() && (i != target ==> s.candidates[i].status == C.Validated)
  }

  lemma RepairIsDecided(cfg: Config, s: State)
    requires cfg.Valid() && NothingToReview(cfg, s) && !HasUnfinished(s.jobs)
    requires s.run.status == Validating && s.run.CanRepair()
    ensures var t := Step(cfg, s, Advance);
            && t.run.repairIterations == s.run.repairIterations + 1 && t.run.maxRepairIterations == s.run.maxRepairIterations
            && |t.candidates| == |s.candidates|
            && exists target: nat :: OneBack(cfg, t, target, true)
  {
    hide Step, StageJobs, HasUnfinished, Publish, OpenJob;
    NothingToReviewDecides(cfg, s);
    var u := s.(candidates := SettleAll(cfg, s.candidates));
    var target := Settled(u.candidates)[0].index;
    assert u.candidates[target].status == C.Validated;
    var t := Step(cfg, s, Advance);
    hide Settled;
    RepairIsTaken(cfg, s, u, target);
    var c := C.StartRepair(u.candidates[target]).value;
    assert t.candidates == u.candidates[target := c];
    CodeJobIsNamed(cfg, s.jobs, target);
    assert OneBack(cfg, t, target, true);
  }

  lemma CodeJobIsNamed(cfg: Config, jobs: seq<J.JobRecord>, i: nat)
    ensures Named(jobs + [OpenJob(cfg, |jobs|, J.Code, Some(i), J.High)], i)
  {
    var job := OpenJob(cfg, |jobs|, J.Code, Some(i), J.High);
    assert (jobs + [job])[|jobs|] == job && job.status == J.Queued && job.candidate == Some(i);
  }

  lemma RepairIsTaken(cfg: Config, s: State, u: State, target: nat)
    requires s.run.status == Validating && s.run.CanRepair() && !HasUnfinished(s.jobs)
    requires u == s.(candidates := SettleAll(cfg, s.candidates)) && target < |u.candidates|
    requires StageJobs(cfg, s.candidates, |s.jobs|) == [] && Settled(u.candidates) != []
    requires S.Viable(Settled(u.candidates)) == [] && Settled(u.candidates)[0].index == target
    requires u.candidates[target].status == C.Validated
    ensures var t := Step(cfg, s, Advance);
            && t.candidates == u.candidates[target := C.StartRepair(u.candidates[target]).value]
            && t.run == s.run.(status := Coding, repairIterations := s.run.repairIterations + 1)
            && t.jobs == s.jobs + [OpenJob(cfg, |s.jobs|, J.Code, Some(target), J.High)]
  {
    hide StageJobs, SettleAll, Settled, HasUnfinished, Publish, OpenJob;
  }

  lemma EveryoneFailed(cfg: Config, s: State, u: State, stage: Stage)
    requires FirstUndone(cfg.configured, {}) == Some(stage) && |u.candidates| == |s.candidates| > 0
    requires forall i :: 0 <= i < |s.candidates| ==>
      && s.candidates[i].index == i && s.candidates[i].status == C.Validating
      && !s.candidates[i].HasPatch() && s.candidates[i].validation.results == []
    requires forall i :: 0 <= i < |u.candidates| ==> u.candidates[i] == WithResult(s.candidates[i], stage, 1)
    ensures NothingToReview(cfg, u)
  {
    forall i | 0 <= i < |u.candidates|
      ensures !AwaitsStage(cfg, u.candidates[i])
    {
      FailedFirstStage(cfg, s.candidates[i], stage);
    }
  }

  lemma SendOneBack(cfg: Config, u: State) returns (target: nat)
    requires cfg.Valid() && Inv(cfg, u) && NoneQueued(u.jobs) && NothingToReview(cfg, u)
    requires u.run.status == Validating && u.run.CanRepair()
    ensures var t := Step(cfg, u, Advance);
            && Inv(cfg, t) && Live(cfg, t) && SpentStay(u, t) && OneBack(cfg, t, target, true)
            && t.run.repairIterations == u.run.repairIterations + 1 && |t.candidates| == |u.candidates|
  {
    UnfinishedMeansQueued(cfg, u.jobs);
    hide Step, HasUnfinished, NoneQueued, Live, Inv;
    RepairIsDecided(cfg, u);
    StepKeepsInv(cfg, u, Advance);
    DecisionsLeaveSpent(cfg, u);
    var t := Step(cfg, u, Advance);
    target :| OneBack(cfg, t, target, true);
    StillLive(cfg, t);
  }

  /** Every first stage fails, so the first candidate is sent back. */
  lemma FailFirstStage(cfg: Config, s: State, stage: Stage) returns (events: seq<Event>, target: nat)
    requires cfg.Valid() && AllPassed(cfg, s, {}) && s.candidates != []
    requires FirstUndone(cfg.configured, {}) == Some(stage) && stage in cfg.available
    requires forall i :: 0 <= i < |s.candidates| ==> !s.candidates[i].HasPatch() && s.candidates[i].validation.results == []
    requires s.run.CanRepair()
    ensures var t := Exec(cfg, s, events);
            && Inv(cfg, t) && Live(cfg, t) && SpentStay(s, t) && OneBack(cfg, t, target, true)
            && t.run.repairIterations == s.run.repairIterations + 1 && |t.candidates| == |s.candidates|
  {
    hide Exec, Step, AllPassed, NothingToReview, NoneQueued, Live, Inv, OneBack, SpentStay, WithResult;
    PassedAreValidating(cfg, s, {});
    var first := StageRound(cfg, s, {}, stage, 1);
    var u := Exec(cfg, s, first);
    EveryoneFailed(cfg, s, u, stage);
    target := SendOneBack(cfg, u);
    events := first + [Advance];
    ExecConcat(cfg, s, first, [Advance]);
    ExecOne(cfg, u, Advance);
    SpentStayBoth(s, u, Step(cfg, u, Advance));
  }

  lemma SpentStayBoth(s: State, u: State, t: State)
    requires SpentStay(s, u) && SpentStay(u, t)
    ensures SpentStay(s, t)
  {
  }

  lemma OnlyCodersAreNamed(cfg: Config, s: State, i: nat)
    requires JobsFit(cfg, s) && s.run.status == Coding && i < |s.candidates| && s.candidates[i].status != C.Coding
    ensures !Named(s.jobs, i)
  {
    forall l | 0 <= l < |s.jobs| && s.jobs[l].status == J.Queued
      ensures s.jobs[l].candidate != Some(i)
    {
      assert Fits(cfg, s, s.jobs[l]);
    }
  }

  /** The coder answers with an empty patch again. */
  lemma CodeNothing(cfg: Config, s: State, target: nat) returns (events: seq<Event>)
    requires cfg.Valid() && Inv(cfg, s) && Live(cfg, s) && OneBack(cfg, s, target, true)
    ensures var t := Exec(cfg, s, events);
            && Inv(cfg, t) && NoneQueued(t.jobs) && SpentStay(s, t) && OneBack(cfg, t, target, false)
            && t.run == s.run && |t.candidates| == |s.candidates|
  {
    var work := Answered(C.Patch(true, 0), 0, C.Fail);
    events := AnswerAll(cfg, s, work, 0);
    var t := Exec(cfg, s, events);
    var k :| 0 <= k < |s.jobs| && s.jobs[k].status == J.Queued && s.jobs[k].candidate == Some(target);
    assert Fits(cfg, s, s.jobs[k]);
    forall i | 0 <= i < |s.candidates| && i != target
      ensures t.candidates[i] == s.candidates[i]
    {
      OnlyCodersAreNamed(cfg, s, i);
    }
  }

  lemma SpentStageRuns(cfg: Config, s: State, k: nat, stage: Stage, i: nat)
    requires cfg.Valid() && Tracked(cfg, s) && Running(s) && Spent(s, k) && NoneQueued(s.jobs)
    requires s.jobs[k].kind == J.Validate(stage) && stage in cfg.available && s.jobs[k].candidate == Some(i)
    requires i < |s.candidates| && s.candidates[i].status == C.Validating
    ensures var t := Step(cfg, s, Execute(k, Answered(C.Patch(true, 0), 1, C.Fail)));
            && t.run == s.run && t.candidates == s.candidates[i := WithResult(s.candidates[i], stage, 1)]
            && NoneQueued(t.jobs) && Tracked(cfg, t)
  {
    var work := Answered(C.Patch(true, 0), 1, C.Fail);
    var s1 := Claim(s, k);
    assert s1.jobs[k].HasLease(TOKEN, NOW);
    assert Dispatch(cfg, s1, k, work.patch, work.exitCode, work.verdict).Ok?;
    HandlerOutcome(cfg, s, k, work);
    ExecuteOutcome(cfg, s, k, work);
    hide Dispatch, Tracked;
  }

  lemma NoneQueuedIsFinished(cfg: Config, s: State)
    requires Tracked(cfg, s) && NoneQueued(s.jobs)
    ensures !HasUnfinished(s.jobs)
  {
    forall k | 0 <= k < |s.jobs|
      ensures s.jobs[k].status.IsTerminal()
    {
      assert RowSound(cfg, s.jobs[k]);
    }
  }

  /** The spent job reports on the new code while the run is still coding. */
  lemma LateReport(cfg: Config, s: State, target: nat, stage: Stage) returns (e: Event)
    requires cfg.Valid() && Tracked(cfg, s) && NoneQueued(s.jobs) && OneBack(cfg, s, target, false) && s.run.CanRepair()
    requires SpentStage(s, target, stage) && FirstUndone(cfg.configured, {}) == Some(stage) && stage in cfg.available
    ensures AdvanceRun(cfg, Step(cfg, s, e)).Raised?
  {
    var k: nat :| Spent(s, k) && s.jobs[k].candidate == Some(target) && s.jobs[k].kind == J.Validate(stage);
    e := Execute(k, Answered(C.Patch(true, 0), 1, C.Fail));
    SpentStageRuns(cfg, s, k, stage, target);
    var t := Step(cfg, s, e);
    hide Step, AdvanceRun;
    FailedFirstStage(cfg, s.candidates[target], stage);
    NoneQueuedIsFinished(cfg, t);
    hide Tracked, NoneQueued, HasUnfinished;
    assert NothingToReview(cfg, t);
    TooEarly(cfg, t);
  }

  lemma SomeFirstStage(cfg: Config)
    requires cfg.configured != {}
    ensures FirstUndone(cfg.configured, {}).Some? && FirstUndone(cfg.configured, {}).value in cfg.configured
  {
    var stage :| stage in cfg.configured;
    assert stage == Build || stage == Test || stage == StaticAnalysis;
  }

  /** With commands, a second repair and a policy that outlasts the job: a stage
      job is spent, its successor fails, the candidate is sent back and coded
      anew, and the spent job, still on offer, fails the new code before the run
      has left CODING. */
  lemma StuckOnSpentStage(cfg: Config) returns (events: seq<Event>)
    requires cfg.Valid() && cfg.configured != {} && !NeverStuck(cfg)
    ensures AdvanceRun(cfg, Exec(cfg, Init(cfg), events)).Raised?
  {
    SomeFirstStage(cfg);
    var stage := FirstUndone(cfg.configured, {}).value;
    var a := ReachAllCoded(cfg, C.Patch(true, 0));
    var s0 := Exec(cfg, Init(cfg), a);
    AllCodedIsUnpassed(cfg, s0, C.Patch(true, 0));
    assert s0.run.CanRepair();
    assert forall i :: 0 <= i < |s0.candidates| ==> !s0.candidates[i].HasPatch() && s0.candidates[i].validation.results == [];
    hide AllPassed, Exec, Inv, Live, Step, AdvanceRun;
    var b := SpendFirstStage(cfg, s0, stage);
    var s1 := Exec(cfg, s0, b);
    var c, target := FailFirstStage(cfg, s1, stage);
    var s2 := Exec(cfg, s1, c);
    SpentStagesStay(s1, s2, |s0.candidates|, stage);
    ExecConcat(cfg, Init(cfg), a, b);
    ExecConcat(cfg, Init(cfg), a + b, c);
    var d := CodeNothing(cfg, s2, target);
    var s3 := Exec(cfg, s2, d);
    SpentStagesStay(s2, s3, |s0.candidates|, stage);
    ExecConcat(cfg, Init(cfg), a + b + c, d);
    TrackedAlways(cfg, a + b + c + d);
    assert SpentStage(s3, target, stage);
    var e := LateReport(cfg, s3, target, stage);
    events := a + b + c + d + [e];
    ExecConcat(cfg, Init(cfg), a + b + c + d, [e]);
    ExecOne(cfg, s3, e);
  }

  /** Progress and legality, exactly. With no command configured, every reachable
      run has something to claim or a legal decision to take if and only if no
      repair is allowed; with commands, if and only if the retry budgets stay
      within the job's own, or at most one repair is allowed, or the first
      command's tool is missing, so that nothing is ever judged. */
  lemma ProgressExactly(cfg: Config)
    requires cfg.Valid()
    ensures (forall events :: Progresses(cfg, Exec(cfg, Init(cfg), events))) <==> NeverStuck(cfg)
  {
    if NeverStuck(cfg) {
      forall events
        ensures Progresses(cfg, Exec(cfg, Init(cfg), events))
      {
        ProgressHolds(cfg, events);
      }
    } else if cfg.configured == {} {
      var events := StuckOnIllegalRepair(cfg);
      RaisingIsNoProgress(cfg, Exec(cfg, Init(cfg), events));
    } else {
      var events := StuckOnSpentStage(cfg);
      RaisingIsNoProgress(cfg, Exec(cfg, Init(cfg), events));
    }
  }

  lemma RaisingIsNoProgress(cfg: Config, s: State)
    ensures AdvanceRun(cfg, s).Raised? ==> !Progresses(cfg, s)
  {
  }
}
