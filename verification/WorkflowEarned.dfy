/** When a completed run has always earned it: the exact condition on the configuration. */
module WorkflowEarned {
  import opened Common
  import opened RunStateMachine
  import opened Workflow
  import opened WorkflowQueue
  import opened WorkflowSafety
  import opened WorkflowBounds
  import opened WorkflowGeneral
  import R = Runs
  import C = Candidates
  import J = Jobs
  import S = Selection

  /** What a late verdict needs in order to do harm: a policy that outlasts the
      job, commands that can all report, a repair, and either another candidate
      to bring the run to a decision or a second repair of the only one. */
  ghost predicate AlwaysEarned(cfg: Config) {
    || cfg.retry.Within(cfg.jobMaxAttempts)
    || !(cfg.configured <= cfg.available)
    || cfg.maxRepairIterations == 0
    || (cfg.candidateCount == 1 && (cfg.maxRepairIterations == 1 || cfg.configured == {}))
  }

  // ---- completing ----

  /** Passed by the reviewer and by the tools, on the code as last repaired. */
  ghost predicate Deserving(c: C.CandidateRecord) {
    c.status == C.Validated && c.IsViable() && c.reviewedRepair == c.repairIterations
  }

  ghost predicate OnlyDeserving(s: State) {
    forall i :: 0 <= i < |s.candidates| && Approved(s.candidates[i]) ==> Deserving(s.candidates[i])
  }

  lemma CompletingIsEarned(cfg: Config, s: State, w: nat)
    requires CandidatesSound(cfg, s) && s.run.status == Reviewing && w < |s.candidates|
    requires Approved(s.candidates[w]) && Deserving(s.candidates[w]) && CompleteWith(s, w).Ok?
    ensures Earned(cfg, CompleteWith(s, w).value) && CompleteWith(s, w).value.run.status == Completed
  {
    WinnerIsEarned(cfg, s.candidates[w]);
    var rejected := RejectOthers(s.candidates, w);
    assert rejected[w] == s.candidates[w];
    assert forall i :: 0 <= i < |rejected| && i != w ==> rejected[i].status == C.Rejected;
  }

  /** In a review decision only an approved candidate wins, and a candidate is
      repaired only when nobody is approved. */
  lemma ReviewDecision(cfg: Config, s: State) returns (w: Option<nat>, target: Option<nat>)
    requires CandidatesSound(cfg, s) && s.run.status == Reviewing && AdvanceReview(cfg, s).Ok?
    ensures w.Some? ==> w.value < |s.candidates| && Approved(s.candidates[w.value]) && AdvanceReview(cfg, s) == CompleteWith(s, w.value)
    ensures w.None? ==> AdvanceReview(cfg, s) == RepairOrFail(cfg, s, target) && NobodyApproved(s)
  {
    var passed, failing := WithVerdict(s.candidates, C.Pass), WithVerdict(s.candidates, C.Fail);
    VerdictsAreOwn(s.candidates, C.Pass);
    w, target := None, None;
    if passed != [] {
      PickIsMember(passed);
      w := Some(Pick(passed).index);
    } else {
      target := if failing != [] then Some(failing[0].index)
                else if s.candidates != [] then Some(s.candidates[0].index) else None;
    }
  }

  ghost predicate NobodyApproved(s: State) {
    forall i :: 0 <= i < |s.candidates| ==> !Approved(s.candidates[i])
  }

  // ---- commands that cannot all report ----

  lemma ViableMeansReported(cfg: Config, c: C.CandidateRecord)
    requires CandidateSound(cfg, c) && Reported(cfg, c) && c.status == C.Validated && c.IsViable()
    ensures cfg.configured <= cfg.available
  {
    var v := c.validation;
    forall stage | stage in cfg.configured
      ensures stage in cfg.available
    {
      match stage
      case Build => assert v.Passed(Build) != None;
      case Test => assert v.Passed(Test) != None;
      case StaticAnalysis => assert v.Passed(StaticAnalysis) != None;
      assert v.Ran(stage);
    }
  }

  /** Whoever is chosen for review was settled and viable. */
  lemma ViableAreSettled(cfg: Config, s: State)
    requires CandidatesKept(cfg, s) && s.run.status in {Coding, Validating}
    requires S.Viable(Settled(SettleAll(cfg, s.candidates))) != []
    ensures var all := SettleAll(cfg, s.candidates);
      var i := Pick(S.Viable(Settled(all))).index;
      i < |all| && all[i].status == C.Validated && all[i].IsViable()
      && CandidateSound(cfg, all[i]) && Reported(cfg, all[i])
  {
    var all := SettleAll(cfg, s.candidates);
    SettlingKeepsCandidates(cfg, s);
    SettledAreOwn(all);
    PickIsMember(S.Viable(Settled(all)));
  }

  lemma NobodyToReview(cfg: Config, s: State)
    requires CandidatesKept(cfg, s) && s.run.status in {Coding, Validating} && !(cfg.configured <= cfg.available)
    ensures S.Viable(Settled(SettleAll(cfg, s.candidates))) == []
  {
    var all := SettleAll(cfg, s.candidates);
    var viable := S.Viable(Settled(all));
    if viable != [] {
      ViableAreSettled(cfg, s);
      ViableMeansReported(cfg, all[Pick(viable).index]);
      assert false;
    }
  }

  lemma UnreviewedDecision(cfg: Config, s: State)
    requires s.run.status in {Coding, Validating} && AdvanceCandidates(cfg, s).Ok?
    requires S.Viable(Settled(SettleAll(cfg, s.candidates))) == []
    ensures AdvanceCandidates(cfg, s).value.run.status in {Coding, Validating, Failed}
  {
    hide SettleAll, Settled, StageJobs, Publish, S.Viable;
  }

  lemma NeverReviews(cfg: Config, s: State, e: Event)
    requires cfg.Valid() && General(cfg, s) && !(cfg.configured <= cfg.available)
    requires s.run.status !in {Reviewing, Completed}
    ensures Step(cfg, s, e).run.status !in {Reviewing, Completed}
  {
    if e.Execute? && e.job < |s.jobs| && e.job in s.offered {
      hide ExecuteJob, CandidatesKept, Firsts;
      if s.run.status.IsTerminal() {
        LateExecution(cfg, s, e.job, e.work);
      } else {
        ExecuteOutcome(cfg, s, e.job, e.work);
        RunAfterExecution(cfg, s, ExecuteJob(cfg, s, e.job, e.work), e.job, e.work);
      }
    } else if e.Advance? && s.run.status in {Coding, Validating} {
      NobodyToReview(cfg, s);
      hide General, AdvanceCandidates, HasUnfinished;
      if AdvanceCandidates(cfg, s).Ok? {
        UnreviewedDecision(cfg, s);
      }
    } else {
      hide General, HasUnfinished, Publish;
    }
  }

  lemma {:induction false} NeverReviewsAlways(cfg: Config, events: seq<Event>)
    requires cfg.Valid() && !(cfg.configured <= cfg.available)
    ensures Exec(cfg, Init(cfg), events).run.status !in {Reviewing, Completed}
  {
    if events != [] {
      var before := events[..|events| - 1];
      NeverReviewsAlways(cfg, before);
      GeneralAlways(cfg, before);
      hide General, Step;
      NeverReviews(cfg, Exec(cfg, Init(cfg), before), events[|events| - 1]);
    }
  }

  // ---- no repair at all ----

  /** Every review ever opened is of code that was settled and viable. */
  ghost predicate ReviewsStand(s: State) {
    forall k :: 0 <= k < |s.jobs| && s.jobs[k].kind == J.ReviewCode ==> Reviewable(s.candidates, s.jobs[k].candidate)
  }

  ghost predicate Reviewable(candidates: seq<C.CandidateRecord>, i: Option<nat>) {
    i.Some? && i.value < |candidates| && candidates[i.value].status == C.Validated && candidates[i.value].IsViable()
  }

  ghost predicate Unrepaired(cfg: Config, s: State) {
    if Running(s) then ReviewsStand(s) && OnlyDeserving(s) else s.run.status == Completed ==> Earned(cfg, s)
  }

  /** Settled code does not move. */
  ghost predicate SettledStay(a: seq<C.CandidateRecord>, b: seq<C.CandidateRecord>) {
    && |a| <= |b|
    && forall i :: 0 <= i < |a| && a[i].status == C.Validated ==> b[i] == a[i].(verdict := b[i].verdict, reviewedRepair := b[i].reviewedRepair)
  }

  /** No review job is new. */
  ghost predicate SameReviews(s: State, t: State) {
    forall k :: 0 <= k < |t.jobs| && t.jobs[k].kind == J.ReviewCode ==>
      k < |s.jobs| && s.jobs[k].kind == J.ReviewCode && s.jobs[k].candidate == t.jobs[k].candidate
  }

  lemma ReviewsStillStand(s: State, t: State)
    requires ReviewsStand(s) && SettledStay(s.candidates, t.candidates) && SameReviews(s, t)
    ensures ReviewsStand(t)
  {
    forall k | 0 <= k < |t.jobs| && t.jobs[k].kind == J.ReviewCode
      ensures Reviewable(t.candidates, t.jobs[k].candidate)
    {
      assert Reviewable(s.candidates, s.jobs[k].candidate);
    }
  }

  lemma ExecutionStandsUnrepaired(cfg: Config, s: State, k: nat, work: Work)
    requires cfg.Valid() && General(cfg, s) && Running(s) && Unrepaired(cfg, s) && k in s.offered
    ensures Unrepaired(cfg, ExecuteJob(cfg, s, k, work))
  {
    hide ExecuteJob, General, Tracked, OnlyDeserving, Outcome, OneRow, ReviewsStand, SettledStay, SameReviews, Earned;
    GeneralParts(cfg, s);
    OffersHaveRows(cfg, s);
    ExecuteOutcome(cfg, s, k, work);
    var t := ExecuteJob(cfg, s, k, work);
    if Running(t) {
      OutcomeStands(s, t, k, cfg, work);
      OneRowSameReviews(s, t, k);
      ReviewsStillStand(s, t);
    } else {
      NeverCompletes(cfg, s, t, k, work);
    }
  }

  lemma OffersHaveRows(cfg: Config, s: State)
    requires Tracked(cfg, s)
    ensures forall k :: k in s.offered ==> k < |s.jobs|
  {
  }

  lemma OneRowSameReviews(s: State, t: State, k: nat)
    requires k < |s.jobs| && OneRow(s, t, k)
    ensures SameReviews(s, t)
  {
  }

  lemma NeverCompletes(cfg: Config, s: State, t: State, k: nat, work: Work)
    requires k < |s.jobs| && OneRow(s, t, k) && Outcome(cfg, s, t, k, work) && Running(s)
    ensures t.run.status != Completed
  {
    RunAfterExecution(cfg, s, t, k, work);
  }

  lemma OutcomeStands(s: State, t: State, k: nat, cfg: Config, work: Work)
    requires k < |s.jobs| && OneRow(s, t, k) && Outcome(cfg, s, t, k, work)
    requires ReviewsStand(s) && OnlyDeserving(s)
    ensures SettledStay(s.candidates, t.candidates) && OnlyDeserving(t)
  {
    if t.candidates != s.candidates {
      var i := s.jobs[k].candidate.value;
      assert s.jobs[k].kind == J.ReviewCode ==> Reviewable(s.candidates, s.jobs[k].candidate);
      assert forall j :: 0 <= j < |s.candidates| && j != i ==> t.candidates[j] == s.candidates[j];
    }
  }

  lemma SettlingStays(cfg: Config, s: seq<C.CandidateRecord>)
    ensures SettledStay(s, SettleAll(cfg, s))
    ensures forall i :: 0 <= i < |s| && s[i].status == C.Validated ==> SettleAll(cfg, s)[i] == s[i]
    ensures forall i :: 0 <= i < |s| ==> SettleAll(cfg, s)[i].verdict == s[i].verdict
  {
  }

  lemma FailsWithoutRepair(cfg: Config, s: State, target: Option<nat>)
    requires Running(s) && !s.run.CanRepair()
    ensures RepairOrFail(cfg, s, target).Ok? && RepairOrFail(cfg, s, target).value.run.status == Failed
  {
  }

  lemma CandidateDecisionStands(cfg: Config, s: State)
    requires cfg.Valid() && General(cfg, s) && Unrepaired(cfg, s) && cfg.maxRepairIterations == 0
    requires s.run.status in {Coding, Validating} && AdvanceCandidates(cfg, s).Ok?
    ensures Unrepaired(cfg, AdvanceCandidates(cfg, s).value)
  {
    hide General, CandidatesKept, CandidatesSound, Firsts, Tracked, SettleAll, Settled, StageJobs, Pick;
    hide OnlyDeserving, ReviewsStand, Earned, S.Viable, CandidateSound, Reported, RepairOrFail, Publish, OpenJob;
    GeneralParts(cfg, s);
    var t := AdvanceCandidates(cfg, s).value;
    var u := s.(candidates := SettleAll(cfg, s.candidates));
    var settled := Settled(u.candidates);
    var viable := S.Viable(settled);
    SettlingStands(cfg, s, u);
    if StageJobs(cfg, s.candidates, |s.jobs|) != [] {
      StageJobsAreStages(cfg, s.candidates, |s.jobs|);
      AddedReviewsStand(u, t, StageJobs(cfg, s.candidates, |s.jobs|));
      SameCandidates(u, t);
    } else if settled != [] && viable != [] {
      ViableAreSettled(cfg, s);
      ReviewJobStands(cfg, u, |s.jobs|, Pick(viable).index);
      AddedReviewsStand(u, t, [OpenJob(cfg, |s.jobs|, J.ReviewCode, Some(Pick(viable).index), J.Normal)]);
      SameCandidates(u, t);
    } else if settled != [] {
      FailsWithoutRepair(cfg, u, Some(settled[0].index));
    }
  }

  lemma ReviewJobStands(cfg: Config, u: State, id: nat, i: nat)
    requires i < |u.candidates| && u.candidates[i].status == C.Validated && u.candidates[i].IsViable()
    ensures Reviewable(u.candidates, OpenJob(cfg, id, J.ReviewCode, Some(i), J.Normal).candidate)
  {
  }

  lemma SettlingStands(cfg: Config, s: State, u: State)
    requires ReviewsStand(s) && OnlyDeserving(s) && u == s.(candidates := SettleAll(cfg, s.candidates))
    ensures ReviewsStand(u) && OnlyDeserving(u)
  {
    SettlingStays(cfg, s.candidates);
    ReviewsStillStand(s, u);
  }

  lemma SameCandidates(u: State, t: State)
    requires t.candidates == u.candidates && OnlyDeserving(u)
    ensures OnlyDeserving(t)
  {
  }

  lemma AddedReviewsStand(u: State, t: State, added: seq<J.JobRecord>)
    requires ReviewsStand(u) && t.jobs == u.jobs + added && t.candidates == u.candidates
    requires forall j :: 0 <= j < |added| && added[j].kind == J.ReviewCode ==> Reviewable(u.candidates, added[j].candidate)
    ensures ReviewsStand(t)
  {
    forall k | 0 <= k < |t.jobs| && t.jobs[k].kind == J.ReviewCode
      ensures Reviewable(t.candidates, t.jobs[k].candidate)
    {
      if k < |u.jobs| {
        assert t.jobs[k] == u.jobs[k];
      } else {
        assert t.jobs[k] == added[k - |u.jobs|];
      }
    }
  }

  lemma ReviewDecisionStands(cfg: Config, s: State)
    requires cfg.Valid() && General(cfg, s) && Unrepaired(cfg, s) && cfg.maxRepairIterations == 0
    requires s.run.status == Reviewing && AdvanceReview(cfg, s).Ok?
    ensures Unrepaired(cfg, AdvanceReview(cfg, s).value)
  {
    hide General, CandidatesKept, CandidatesSound, Firsts, Tracked, AdvanceReview, RepairOrFail, CompleteWith, ReviewsStand, Earned;
    GeneralParts(cfg, s);
    var w, target := ReviewDecision(cfg, s);
    if w.Some? {
      CompletingIsEarned(cfg, s, w.value);
    } else {
      FailsWithoutRepair(cfg, s, target);
    }
  }

  lemma FirstDecisionStands(cfg: Config, s: State)
    requires cfg.Valid() && General(cfg, s) && Unrepaired(cfg, s) && s.run.status in {Created, PlanReady}
    requires cfg.maxRepairIterations == 0 && AdvanceRun(cfg, s).Ok?
    ensures Unrepaired(cfg, AdvanceRun(cfg, s).value)
  {
    DecisionKeepsGeneral(cfg, s);
    var t := AdvanceRun(cfg, s).value;
    hide AdvanceRun;
    FirstRoundStands(cfg, t);
    if HasUnfinished(s.jobs) {
      assert t == s by { FirstStaysPut(cfg, s); }
    } else {
      FirstMoves(cfg, s);
    }
  }

  lemma FirstStaysPut(cfg: Config, s: State)
    requires HasUnfinished(s.jobs) && AdvanceRun(cfg, s).Ok?
    ensures AdvanceRun(cfg, s).value == s
  {
    hide HasUnfinished;
  }

  lemma FirstMoves(cfg: Config, s: State)
    requires s.run.status in {Created, PlanReady} && !HasUnfinished(s.jobs) && AdvanceRun(cfg, s).Ok?
    ensures AdvanceRun(cfg, s).value.run.status in {Planning, Coding}
  {
    hide HasUnfinished, Publish, OpenCandidates;
    assert OpenCandidates(cfg, s.(run := s.run.(status := Coding))).run.status == Coding by { OpeningKeepsRun(cfg, s); }
  }

  lemma OpeningKeepsRun(cfg: Config, s: State)
    ensures OpenCandidates(cfg, s.(run := s.run.(status := Coding))).run.status == Coding
  {
  }

  /** Before the first review there is nothing to stand. */
  lemma FirstRoundStands(cfg: Config, s: State)
    requires General(cfg, s) && cfg.maxRepairIterations == 0 && Running(s) && s.run.status != Reviewing
    ensures Unrepaired(cfg, s)
  {
    assert Unreviewed(s);
  }

  lemma StepStandsUnrepaired(cfg: Config, s: State, e: Event)
    requires cfg.Valid() && General(cfg, s) && Unrepaired(cfg, s) && cfg.maxRepairIterations == 0
    ensures Unrepaired(cfg, Step(cfg, s, e))
  {
    hide General, ExecuteJob, AdvanceRun, Unrepaired, Tracked, CancelAll;
    GeneralParts(cfg, s);
    match e
    case Advance =>
      if AdvanceRun(cfg, s).Ok? {
        DecisionStandsUnrepaired(cfg, s);
      }
    case Cancel => CancellingStandsUnrepaired(cfg, s);
    case Execute(k, work) =>
      if k < |s.jobs| && k in s.offered {
        if Running(s) {
          ExecutionStandsUnrepaired(cfg, s, k, work);
        } else {
          LateExecution(cfg, s, k, work);
          EndedStandsUnrepaired(cfg, s, ExecuteJob(cfg, s, k, work));
        }
      }
  }

  lemma EndedStandsUnrepaired(cfg: Config, s: State, t: State)
    requires Unrepaired(cfg, s) && !Running(s) && t.run == s.run && t.candidates == s.candidates
    ensures Unrepaired(cfg, t)
  {
  }

  lemma CancellingStandsUnrepaired(cfg: Config, s: State)
    requires Unrepaired(cfg, s)
    ensures Unrepaired(cfg, CancelAll(s))
  {
    hide Earned, ReviewsStand, OnlyDeserving;
  }

  lemma DecisionStandsUnrepaired(cfg: Config, s: State)
    requires cfg.Valid() && General(cfg, s) && Unrepaired(cfg, s) && cfg.maxRepairIterations == 0 && AdvanceRun(cfg, s).Ok?
    ensures Unrepaired(cfg, AdvanceRun(cfg, s).value)
  {
    hide General, Unrepaired, AdvanceCandidates, AdvanceReview, HasUnfinished, OpenFirstStage, OpenCandidates, Tracked;
    GeneralParts(cfg, s);
    if s.run.status in {Created, PlanReady} {
      FirstDecisionStands(cfg, s);
    } else if s.run.status in {Coding, Validating} && !HasUnfinished(s.jobs) {
      CandidateDecisionStands(cfg, s);
    } else if s.run.status == Reviewing && !HasUnfinished(s.jobs) {
      ReviewDecisionStands(cfg, s);
    }
  }

  lemma {:induction false} UnrepairedAlways(cfg: Config, events: seq<Event>)
    requires cfg.Valid() && cfg.maxRepairIterations == 0
    ensures Unrepaired(cfg, Exec(cfg, Init(cfg), events))
  {
    if events != [] {
      var before := events[..|events| - 1];
      UnrepairedAlways(cfg, before);
      GeneralAlways(cfg, before);
      hide General, Unrepaired, Step;
      StepStandsUnrepaired(cfg, Exec(cfg, Init(cfg), before), events[|events| - 1]);
    }
  }

  // ---- one candidate ----

  /** The only candidate is under review only when settled and viable, and its
      verdict is never older than its latest repair. */
  ghost predicate Alone(cfg: Config, s: State) {
    if Running(s) then
      && |s.candidates| <= 1
      && forall i :: 0 <= i < |s.candidates| ==>
           && (Approved(s.candidates[i]) ==> s.candidates[i].reviewedRepair == s.candidates[i].repairIterations)
           && (s.run.status == Reviewing ==> s.candidates[i].status == C.Validated && s.candidates[i].IsViable())
    else s.run.status == Completed ==> Earned(cfg, s)
  }

  ghost predicate AloneConfig(cfg: Config) {
    cfg.candidateCount == 1 && (cfg.maxRepairIterations == 1 || cfg.configured == {})
  }

  lemma ExecutionStaysAlone(cfg: Config, s: State, k: nat, work: Work)
    requires cfg.Valid() && General(cfg, s) && Running(s) && Alone(cfg, s) && k in s.offered
    ensures Alone(cfg, ExecuteJob(cfg, s, k, work))
  {
    hide ExecuteJob, General, Tracked, CandidatesKept, Firsts, Earned, RowSound;
    GeneralParts(cfg, s);
    OffersHaveRows(cfg, s);
    ExecuteOutcome(cfg, s, k, work);
  }

  lemma RepairStaysAlone(cfg: Config, s: State, target: Option<nat>)
    requires Running(s) && Alone(cfg, s) && RepairOrFail(cfg, s, target).Ok?
    requires s.run.CanRepair() ==> NobodyApproved(s)
    ensures Alone(cfg, RepairOrFail(cfg, s, target).value)
  {
    hide Publish;
  }

  /** A repair decided on while validating is the first, and nobody has been reviewed. */
  lemma RepairedUnapproved(cfg: Config, s: State)
    requires cfg.Valid() && General(cfg, s) && AloneConfig(cfg) && s.run.status in {Coding, Validating} && s.run.CanRepair()
    requires s.run.status == Validating ==> cfg.configured != {}
    requires AdvanceCandidates(cfg, s).Ok? && AdvanceCandidates(cfg, s).value.run.repairIterations > s.run.repairIterations
    ensures NobodyApproved(s)
  {
    hide SettleAll, Settled, StageJobs, Publish, S.Viable, Pick;
    assert s.run.status == Validating;
    assert Unreviewed(s);
  }

  lemma SettlingStaysAlone(cfg: Config, s: State)
    requires Alone(cfg, s) && s.run.status in {Coding, Validating}
    ensures Alone(cfg, s.(candidates := SettleAll(cfg, s.candidates)))
  {
  }

  lemma PublishingStaysAlone(cfg: Config, u: State, run: R.RunRecord, added: seq<J.JobRecord>, i: nat)
    requires Alone(cfg, u) && Running(u) && run.status in {Coding, Validating, Reviewing}
    requires run.status == Reviewing ==> i < |u.candidates| && u.candidates[i].status == C.Validated && u.candidates[i].IsViable()
    ensures Alone(cfg, Publish(u.(run := run), added))
  {
  }

  lemma CandidateDecisionStaysAlone(cfg: Config, s: State)
    requires cfg.Valid() && General(cfg, s) && Alone(cfg, s) && AloneConfig(cfg)
    requires s.run.status in {Coding, Validating} && AdvanceCandidates(cfg, s).Ok?
    requires s.run.status == Validating ==> cfg.configured != {}
    ensures Alone(cfg, AdvanceCandidates(cfg, s).value)
  {
    hide General, CandidatesKept, CandidatesSound, Firsts, Tracked, Alone, SettleAll, Settled, StageJobs, Pick, RepairOrFail, Publish, S.Viable;
    GeneralParts(cfg, s);
    var t := AdvanceCandidates(cfg, s).value;
    var u := s.(candidates := SettleAll(cfg, s.candidates));
    var settled := Settled(u.candidates);
    var viable := S.Viable(settled);
    SettlingStaysAlone(cfg, s);
    if StageJobs(cfg, s.candidates, |s.jobs|) != [] {
      PublishingStaysAlone(cfg, u, t.run, StageJobs(cfg, s.candidates, |s.jobs|), 0);
    } else if settled != [] && viable != [] {
      ViableAreSettled(cfg, s);
      PublishingStaysAlone(cfg, u, t.run, [OpenJob(cfg, |s.jobs|, J.ReviewCode, Some(Pick(viable).index), J.Normal)], Pick(viable).index);
    } else if settled != [] {
      if s.run.CanRepair() {
        RepairCounts(cfg, u, Some(settled[0].index));
        RepairedUnapproved(cfg, s);
        SettlingStays(cfg, s.candidates);
      }
      RepairStaysAlone(cfg, u, Some(settled[0].index));
    }
  }

  lemma RepairCounts(cfg: Config, s: State, target: Option<nat>)
    requires Running(s) && RepairOrFail(cfg, s, target).Ok? && s.run.CanRepair() && target.Some?
    ensures RepairOrFail(cfg, s, target).value.run.repairIterations == s.run.repairIterations + 1
  {
    hide Publish;
  }

  lemma ReviewDecisionStaysAlone(cfg: Config, s: State)
    requires cfg.Valid() && General(cfg, s) && Alone(cfg, s) && s.run.status == Reviewing && AdvanceReview(cfg, s).Ok?
    ensures Alone(cfg, AdvanceReview(cfg, s).value)
  {
    hide General, CandidatesKept, CandidatesSound, Firsts, Tracked, AdvanceReview, RepairOrFail, CompleteWith, Earned;
    GeneralParts(cfg, s);
    var w, target := ReviewDecision(cfg, s);
    if w.Some? {
      CompletingIsEarned(cfg, s, w.value);
    } else {
      RepairStaysAlone(cfg, s, target);
    }
  }

  lemma FirstDecisionStaysAlone(cfg: Config, s: State)
    requires cfg.Valid() && General(cfg, s) && Alone(cfg, s) && AloneConfig(cfg) && s.run.status in {Created, PlanReady}
    requires AdvanceRun(cfg, s).Ok?
    ensures Alone(cfg, AdvanceRun(cfg, s).value)
  {
    hide AdvanceRun;
    if HasUnfinished(s.jobs) {
      FirstStaysPut(cfg, s);
    } else {
      DecisionKeepsGeneral(cfg, s);
      FirstMoves(cfg, s);
      FirstKeepsCount(cfg, s);
      GeneralParts(cfg, s);
      FirstIsAlone(cfg, AdvanceRun(cfg, s).value);
    }
  }

  lemma FirstIsAlone(cfg: Config, s: State)
    requires General(cfg, s) && s.run.status in {Planning, Coding} && s.run.repairIterations == 0 && cfg.candidateCount == 1
    ensures Alone(cfg, s)
  {
    assert Unreviewed(s);
  }

  lemma FirstKeepsCount(cfg: Config, s: State)
    requires s.run.status in {Created, PlanReady} && AdvanceRun(cfg, s).Ok?
    ensures AdvanceRun(cfg, s).value.run.repairIterations == s.run.repairIterations
  {
    hide HasUnfinished, Publish;
  }

  lemma StepStaysAlone(cfg: Config, s: State, e: Event)
    requires cfg.Valid() && General(cfg, s) && Alone(cfg, s) && AloneConfig(cfg)
    requires s.run.status == Validating ==> cfg.configured != {}
    ensures Alone(cfg, Step(cfg, s, e))
  {
    hide General, ExecuteJob, AdvanceRun, Alone, Tracked, CancelAll;
    GeneralParts(cfg, s);
    match e
    case Advance =>
      if AdvanceRun(cfg, s).Ok? {
        DecisionStaysAlone(cfg, s);
      }
    case Cancel => CancellingStaysAlone(cfg, s);
    case Execute(k, work) =>
      if k < |s.jobs| && k in s.offered {
        if Running(s) {
          ExecutionStaysAlone(cfg, s, k, work);
        } else {
          LateExecution(cfg, s, k, work);
          EndedStaysAlone(cfg, s, ExecuteJob(cfg, s, k, work));
        }
      }
  }

  lemma EndedStaysAlone(cfg: Config, s: State, t: State)
    requires Alone(cfg, s) && !Running(s) && t.run == s.run && t.candidates == s.candidates
    ensures Alone(cfg, t)
  {
  }

  lemma CancellingStaysAlone(cfg: Config, s: State)
    requires Alone(cfg, s)
    ensures Alone(cfg, CancelAll(s))
  {
    hide Earned;
  }

  lemma DecisionStaysAlone(cfg: Config, s: State)
    requires cfg.Valid() && General(cfg, s) && Alone(cfg, s) && AloneConfig(cfg) && AdvanceRun(cfg, s).Ok?
    requires s.run.status == Validating ==> cfg.configured != {}
    ensures Alone(cfg, AdvanceRun(cfg, s).value)
  {
    hide General, Alone, AdvanceCandidates, AdvanceReview, HasUnfinished, OpenFirstStage, OpenCandidates, Tracked;
    GeneralParts(cfg, s);
    if s.run.status in {Created, PlanReady} {
      FirstDecisionStaysAlone(cfg, s);
    } else if s.run.status in {Coding, Validating} && !HasUnfinished(s.jobs) {
      CandidateDecisionStaysAlone(cfg, s);
    } else if s.run.status == Reviewing && !HasUnfinished(s.jobs) {
      ReviewDecisionStaysAlone(cfg, s);
    }
  }

  lemma {:induction false} AloneAlways(cfg: Config, events: seq<Event>)
    requires cfg.Valid() && AloneConfig(cfg)
    ensures Alone(cfg, Exec(cfg, Init(cfg), events))
  {
    if events != [] {
      var before := events[..|events| - 1];
      AloneAlways(cfg, before);
      GeneralAlways(cfg, before);
      if cfg.configured == {} {
        BareAlways(cfg, before);
      }
      hide General, Alone, Step;
      StepStaysAlone(cfg, Exec(cfg, Init(cfg), before), events[|events| - 1]);
    }
  }

  /** Under the condition a completed run has always earned it, redeliveries included. */
  lemma EarnedHolds(cfg: Config, events: seq<Event>)
    requires cfg.Valid() && AlwaysEarned(cfg)
    ensures var s := Exec(cfg, Init(cfg), events);
            s.run.status == Completed ==> Earned(cfg, s)
  {
    hide Exec, Init, Earned;
    if cfg.retry.Within(cfg.jobMaxAttempts) {
      CompletionIsEarned(cfg, events);
    } else if !(cfg.configured <= cfg.available) {
      NeverReviewsAlways(cfg, events);
    } else if cfg.maxRepairIterations == 0 {
      UnrepairedAlways(cfg, events);
    } else {
      AloneAlways(cfg, events);
    }
  }
}
