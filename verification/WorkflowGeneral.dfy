/** What every history keeps without any condition on the configuration, jobs
    handed out again after their row was finished included. */
module WorkflowGeneral {
  import opened Common
  import opened RunStateMachine
  import opened Workflow
  import opened WorkflowQueue
  import opened WorkflowSafety
  import R = Runs
  import C = Candidates
  import J = Jobs
  import S = Selection

  /** Only configured commands whose tool is available ever report. */
  ghost predicate Reported(cfg: Config, c: C.CandidateRecord) {
    forall r :: r in c.validation.results ==> r.kind in cfg.configured && r.kind in cfg.available
  }

  /** A code job for this candidate can be claimed. */
  ghost predicate CoderOffered(s: State, i: nat) {
    exists k :: k in s.offered && k < |s.jobs| && s.jobs[k].kind == J.Code && s.jobs[k].candidate == Some(i)
  }

  ghost predicate PlannerOffered(s: State) {
    exists k :: k in s.offered && k < |s.jobs| && s.jobs[k].kind == J.Plan
  }

  ghost predicate Unjudged(c: C.CandidateRecord) {
    c.status == C.Coding || (c.status == C.Validating && c.validation.results == [])
  }

  ghost predicate NoJobs(s: State, review: bool) {
    forall k :: 0 <= k < |s.jobs| ==> if review then s.jobs[k].kind != J.ReviewCode else !s.jobs[k].kind.Validate?
  }

  /** Before the first review nobody has a verdict, and nobody can be given one. */
  ghost predicate Unreviewed(s: State) {
    NoJobs(s, true) && forall i :: 0 <= i < |s.candidates| ==> s.candidates[i].verdict == None
  }

  /** In the first coding round nothing has been validated, and nothing can be. */
  ghost predicate Unvalidated(s: State) {
    NoJobs(s, false) && forall i :: 0 <= i < |s.candidates| ==> Unjudged(s.candidates[i])
  }

  ghost predicate CandidatesKept(cfg: Config, s: State) {
    && CandidatesSound(cfg, s)
    && (forall i :: 0 <= i < |s.candidates| ==> Reported(cfg, s.candidates[i]))
    && (forall i :: 0 <= i < |s.candidates| && s.candidates[i].status == C.Coding ==> CoderOffered(s, i))
  }

  ghost predicate Firsts(s: State) {
    s.run.repairIterations == 0 ==>
      && (s.run.status != Reviewing ==> Unreviewed(s))
      && (s.run.status in {Created, Planning, PlanReady, Coding} ==> Unvalidated(s))
  }

  ghost predicate General(cfg: Config, s: State) {
    && Tracked(cfg, s) && Steady(cfg, s)
    && (Running(s) ==>
          && CandidatesKept(cfg, s)
          && (s.run.status == Planning ==> PlannerOffered(s))
          && Firsts(s))
  }

  // ---- one execution ----

  /** Offers other than the claimed one stay. */
  lemma OffersStay(s: State, t: State, k: nat, i: nat)
    requires k < |s.jobs| && OneRow(s, t, k) && CoderOffered(s, i)
    requires t.offered.Keys >= s.offered.Keys - {k}
    requires k in t.offered || s.jobs[k].kind != J.Code || s.jobs[k].candidate != Some(i)
    ensures CoderOffered(t, i)
  {
    var l :| l in s.offered && l < |s.jobs| && s.jobs[l].kind == J.Code && s.jobs[l].candidate == Some(i);
    assert l in t.offered.Keys;
    assert t.jobs[l].kind == J.Code && t.jobs[l].candidate == Some(i);
  }

  lemma ResultKeepsSound(cfg: Config, c: C.CandidateRecord, stage: Stage, exitCode: int)
    requires CandidateSound(cfg, c) && Reported(cfg, c) && c.status == C.Validating
    requires stage in cfg.configured && stage in cfg.available
    ensures var d := c.(validation := c.validation.ExtendedWith([C.ToolResult(stage, exitCode, c.repairIterations)]));
      CandidateSound(cfg, d) && Reported(cfg, d)
  {
  }

  /** What a handler leaves of its candidate. */
  lemma HandledCandidate(cfg: Config, s: State, t: State, j: J.JobRecord, work: Work)
    requires work.Answered? && Handled(cfg, s, t, j, work) && j.kind != J.Plan && RowSound(cfg, j)
    requires CandidatesKept(cfg, s) && s.run.status in {Coding, Validating, Reviewing}
    ensures |t.candidates| == |s.candidates| && j.candidate.Some? && j.candidate.value < |s.candidates|
    ensures var i := j.candidate.value;
      var c, d := s.candidates[i], t.candidates[i];
      && d.index == i && CandidateSound(cfg, d) && Reported(cfg, d)
      && (d.status == C.Coding ==> c.status == C.Coding && j.kind == J.ReviewCode)
      && (j.kind != J.ReviewCode ==> d.verdict == c.verdict)
      && (!j.kind.Validate? && Unjudged(c) ==> Unjudged(d))
  {
    var i := j.candidate.value;
    var c := s.candidates[i];
    assert CandidateSound(cfg, c);
    if j.kind.Validate? && j.kind.stage in cfg.available {
      ResultKeepsSound(cfg, c, j.kind.stage, work.exitCode);
    }
  }

  lemma HandledKeepsCandidates(cfg: Config, s: State, t: State, k: nat, work: Work)
    requires work.Answered? && k < |s.jobs| && OneRow(s, t, k) && t.offered == s.offered - {k}
    requires Handled(cfg, s, t, s.jobs[k], work) && s.jobs[k].kind != J.Plan && RowSound(cfg, s.jobs[k])
    requires CandidatesKept(cfg, s) && s.run.status in {Coding, Validating, Reviewing} && Firsts(s)
    ensures CandidatesKept(cfg, t) && Firsts(t)
  {
    HandledCandidate(cfg, s, t, s.jobs[k], work);
    var c := s.jobs[k].candidate.value;
    forall i | 0 <= i < |t.candidates| && i != c
      ensures t.candidates[i] == s.candidates[i]
    {
    }
    forall i | 0 <= i < |t.candidates| && t.candidates[i].status == C.Coding
      ensures CoderOffered(t, i)
    {
      OffersStay(s, t, k, i);
    }
    SameKinds(s, t, k);
    hide CandidateSound, Reported, CoderOffered, Unjudged, Handled;
  }

  lemma SameKinds(s: State, t: State, k: nat)
    requires k < |s.jobs| && OneRow(s, t, k)
    ensures NoJobs(s, true) ==> NoJobs(t, true) && s.jobs[k].kind != J.ReviewCode
    ensures NoJobs(s, false) ==> NoJobs(t, false) && !s.jobs[k].kind.Validate?
  {
  }

  lemma FailedKeepsCandidates(cfg: Config, s: State, t: State, k: nat)
    requires k < |s.jobs| && OneRow(s, t, k) && k in t.offered && t.offered == s.offered[k := t.offered[k]]
    requires t.run == s.run && t.candidates == s.candidates && CandidatesKept(cfg, s) && Firsts(s)
    ensures CandidatesKept(cfg, t) && Firsts(t)
    ensures PlannerOffered(s) ==> PlannerOffered(t)
  {
    forall i | 0 <= i < |t.candidates| && t.candidates[i].status == C.Coding
      ensures CoderOffered(t, i)
    {
      OffersStay(s, t, k, i);
    }
    SameKinds(s, t, k);
    if PlannerOffered(s) {
      var l :| l in s.offered && l < |s.jobs| && s.jobs[l].kind == J.Plan;
      assert l in t.offered && t.jobs[l].kind == J.Plan;
    }
    hide CandidateSound, Reported, CoderOffered, Unjudged;
  }

  lemma PlannedKeepsGeneral(cfg: Config, s: State, t: State, k: nat)
    requires k < |s.jobs| && OneRow(s, t, k) && s.run.status == Planning && t.run == s.run.(status := PlanReady)
    requires t.candidates == s.candidates && CandidatesKept(cfg, s) && Firsts(s)
    ensures CandidatesKept(cfg, t) && Firsts(t)
  {
    SameKinds(s, t, k);
  }

  lemma ExecutionKeepsGeneral(cfg: Config, s: State, k: nat, work: Work)
    requires cfg.Valid() && General(cfg, s) && k in s.offered
    ensures General(cfg, ExecuteJob(cfg, s, k, work))
  {
    var t := ExecuteJob(cfg, s, k, work);
    ExecutionKeepsTracked(cfg, s, k, work);
    if !s.run.status.IsTerminal() {
      ExecuteOutcome(cfg, s, k, work);
      assert RowSound(cfg, s.jobs[k]);
      hide ExecuteJob, Tracked, CandidatesKept, Firsts, RowSound, OneRow, PlannerOffered;
      if t.run.status == Failed {
      } else if work.Answered? && Handled(cfg, s, t, s.jobs[k], work) && t.offered == s.offered - {k} {
        if s.jobs[k].kind == J.Plan {
          PlannedKeepsGeneral(cfg, s, t, k);
        } else {
          NoCandidatesYet(cfg, s);
          HandledKeepsCandidates(cfg, s, t, k, work);
        }
      } else {
        FailedKeepsCandidates(cfg, s, t, k);
      }
    } else {
      LateExecution(cfg, s, k, work);
    }
  }

  lemma NoCandidatesYet(cfg: Config, s: State)
    requires CandidatesKept(cfg, s) && Running(s)
    ensures s.run.status !in {Coding, Validating, Reviewing} ==> s.candidates == []
  {
  }

  // ---- one decision ----

  lemma PublishingKeepsOffers(s: State, u: State, added: seq<J.JobRecord>, i: nat)
    requires u.jobs == s.jobs && u.offered == s.offered && CoderOffered(s, i)
    ensures CoderOffered(Publish(u, added), i)
  {
    var t := Publish(u, added);
    var l :| l in s.offered && l < |s.jobs| && s.jobs[l].kind == J.Code && s.jobs[l].candidate == Some(i);
    assert t.jobs[l] == s.jobs[l] && l in t.offered;
  }

  lemma PublishedCoderIsOffered(u: State, added: seq<J.JobRecord>, m: nat, i: nat)
    requires m < |added| && added[m].kind == J.Code && added[m].candidate == Some(i)
    ensures CoderOffered(Publish(u, added), i)
  {
    var t := Publish(u, added);
    assert t.jobs[|u.jobs| + m] == added[m] && |u.jobs| + m in t.offered;
  }

  lemma CodeJobIsCode(cfg: Config, base: nat, n: nat, i: nat)
    requires i < n
    ensures var j := CodeJobs(cfg, base, n)[i]; j.kind == J.Code && j.candidate == Some(i)
  {
  }

  lemma OpenedCandidate(cfg: Config, u: State, i: nat)
    requires cfg.Valid() && i < cfg.candidateCount
    ensures var c := NewCandidates(cfg.candidateCount)[i];
      c.index == i && CandidateSound(cfg, c) && Reported(cfg, c) && Unjudged(c) && c.verdict == None
    ensures CoderOffered(Publish(u, CodeJobs(cfg, |u.jobs|, cfg.candidateCount)), i)
  {
    NewCandidate(cfg, i);
    CodeJobIsCode(cfg, |u.jobs|, cfg.candidateCount, i);
    PublishedCoderIsOffered(u, CodeJobs(cfg, |u.jobs|, cfg.candidateCount), i, i);
  }

  lemma OpenedJobsAreCode(cfg: Config, u: State, review: bool)
    requires NoJobs(u, review)
    ensures NoJobs(Publish(u, CodeJobs(cfg, |u.jobs|, cfg.candidateCount)), review)
  {
    var t := Publish(u, CodeJobs(cfg, |u.jobs|, cfg.candidateCount));
    hide OpenJob;
    forall k | 0 <= k < |t.jobs|
      ensures t.jobs[k].kind == J.Code || (k < |u.jobs| && t.jobs[k] == u.jobs[k])
    {
      if k >= |u.jobs| {
        CodeJobIsCode(cfg, |u.jobs|, cfg.candidateCount, k - |u.jobs|);
      }
    }
    hide Publish;
  }

  lemma OpeningKeepsGeneral(cfg: Config, s: State, run: R.RunRecord)
    requires cfg.Valid() && s.candidates == [] && run.status == Coding && run.repairIterations == s.run.repairIterations
    requires Firsts(s) && s.run.status in {Created, PlanReady}
    ensures var t := OpenCandidates(cfg, s.(run := run)); CandidatesKept(cfg, t) && Firsts(t)
  {
    hide CandidateSound, Reported, CoderOffered, Unjudged, NoJobs, NewCandidates, CodeJobs, OpenJob, OpenCandidate, OpenCandidates, Publish;
    var t := OpenCandidates(cfg, s.(run := run));
    var u := s.(run := run, candidates := NewCandidates(cfg.candidateCount));
    FirstCandidates(cfg, s, run);
    forall i | 0 <= i < |t.candidates|
      ensures t.candidates[i].index == i && CandidateSound(cfg, t.candidates[i]) && Reported(cfg, t.candidates[i])
      ensures Unjudged(t.candidates[i]) && t.candidates[i].verdict == None && CoderOffered(t, i)
    {
      OpenedCandidate(cfg, u, i);
    }
    if s.run.repairIterations == 0 {
      assert NoJobs(s, true) && NoJobs(s, false);
      SameJobs(s, u);
      OpenedJobsAreCode(cfg, u, true);
      OpenedJobsAreCode(cfg, u, false);
    }
  }

  lemma FirstCandidates(cfg: Config, s: State, run: R.RunRecord)
    requires s.candidates == []
    ensures OpenCandidates(cfg, s.(run := run))
      == Publish(s.(run := run, candidates := NewCandidates(cfg.candidateCount)), CodeJobs(cfg, |s.jobs|, cfg.candidateCount))
  {
    assert [] + NewCandidates(cfg.candidateCount) == NewCandidates(cfg.candidateCount);
  }

  lemma SameJobs(s: State, u: State)
    requires u.jobs == s.jobs
    ensures forall review :: NoJobs(s, review) ==> NoJobs(u, review)
  {
  }

  lemma SettledIsSound(cfg: Config, c: C.CandidateRecord)
    requires CandidateSound(cfg, c) && Reported(cfg, c)
    ensures var d := Settle(cfg, c);
      && CandidateSound(cfg, d) && Reported(cfg, d) && d.index == c.index && d.verdict == c.verdict
      && (d.status == C.Coding ==> c.status == C.Coding)
  {
    if c.status == C.Validating && !AwaitsStage(cfg, c) {
      SameResultsSameStage(cfg, c, Settle(cfg, c));
    }
  }

  /** Settling and publishing stages keep everything that is not about a first round. */
  lemma SettlingKeepsCandidates(cfg: Config, s: State)
    requires CandidatesKept(cfg, s) && s.run.status in {Coding, Validating}
    ensures CandidatesKept(cfg, s.(candidates := SettleAll(cfg, s.candidates)))
    ensures Unreviewed(s) ==> Unreviewed(s.(candidates := SettleAll(cfg, s.candidates)))
  {
    var u := s.(candidates := SettleAll(cfg, s.candidates));
    forall i | 0 <= i < |s.candidates|
      ensures u.candidates[i].index == i && CandidateSound(cfg, u.candidates[i]) && Reported(cfg, u.candidates[i])
      ensures u.candidates[i].verdict == s.candidates[i].verdict
      ensures u.candidates[i].status == C.Coding ==> CoderOffered(u, i)
    {
      SettledIsSound(cfg, s.candidates[i]);
      assert s.candidates[i].status == C.Coding ==> CoderOffered(s, i);
    }
    hide CandidateSound, Reported, CoderOffered, SettleAll, Settle;
  }

  lemma PublishingKeepsCandidates(cfg: Config, s: State, u: State, added: seq<J.JobRecord>)
    requires u.jobs == s.jobs && u.offered == s.offered && u.candidates == s.candidates
    requires s.run.status in {Coding, Validating, Reviewing} && u.run.status in {Coding, Validating, Reviewing}
    requires CandidatesKept(cfg, s)
    ensures CandidatesKept(cfg, Publish(u, added))
  {
    var t := Publish(u, added);
    forall i | 0 <= i < |t.candidates| && t.candidates[i].status == C.Coding
      ensures CoderOffered(t, i)
    {
      PublishingKeepsOffers(s, u, added, i);
    }
    hide Publish, CoderOffered, CandidateSound, Reported;
  }

  lemma RepairKeepsGeneral(cfg: Config, s: State, target: Option<nat>)
    requires cfg.Valid() && CandidatesKept(cfg, s) && s.run.status in {Coding, Validating, Reviewing}
    requires RepairOrFail(cfg, s, target).Ok?
    ensures var t := RepairOrFail(cfg, s, target).value;
      t.run.status == Failed || (t.run.status == Coding && t.run.repairIterations > 0 && CandidatesKept(cfg, t))
  {
    var t := RepairOrFail(cfg, s, target).value;
    if t.run.status != Failed {
      var i := target.value;
      var added := [OpenJob(cfg, |s.jobs|, J.Code, target, J.High)];
      var c := C.StartRepair(s.candidates[i]).value;
      var u := s.(run := t.run, candidates := s.candidates[i := c]);
      assert t == Publish(u, added);
      assert CandidateSound(cfg, s.candidates[i]) && CandidateSound(cfg, c) && Reported(cfg, c);
      forall l | 0 <= l < |t.candidates| && t.candidates[l].status == C.Coding
        ensures CoderOffered(t, l)
      {
        if l == i {
          PublishedCoderIsOffered(u, added, 0, i);
        } else {
          PublishingKeepsOffers(s, u, added, l);
        }
      }
      hide Publish, CoderOffered, CandidateSound, Reported, RepairOrFail, OpenJob;
    }
  }

  /** Nothing to open and nobody settled: nobody was there to settle. */
  lemma NothingSettled(cfg: Config, s: State)
    requires StageJobs(cfg, s.candidates, |s.jobs|) == [] && CandidatesSound(cfg, s) && cfg.Valid()
    requires s.run.status in {Coding, Validating} && Settled(SettleAll(cfg, s.candidates)) == []
    ensures SettleAll(cfg, s.candidates) == s.candidates
    ensures forall i :: 0 <= i < |s.candidates| ==> s.candidates[i].status == C.Coding
  {
    StageJobsShape(cfg, s.candidates, |s.jobs|);
    var all := SettleAll(cfg, s.candidates);
    forall i | 0 <= i < |s.candidates|
      ensures s.candidates[i].status == C.Coding && all[i] == s.candidates[i]
    {
      assert CandidateSound(cfg, s.candidates[i]);
      var d := all[i];
      assert d in all;
      assert d.status == C.Validated ==> d in Settled(all);
    }
  }

  lemma StagesKeepFirsts(cfg: Config, s: State, u: State, t: State)
    requires s.run.status in {Coding, Validating} && Firsts(s) && (Unreviewed(s) ==> Unreviewed(u))
    requires t.run == s.run.(status := Validating) && t.candidates == u.candidates
    requires u.jobs == s.jobs && t.jobs == s.jobs + StageJobs(cfg, s.candidates, |s.jobs|)
    requires NewStages(StageJobs(cfg, s.candidates, |s.jobs|))
    ensures Firsts(t)
  {
    hide StageJobs, Unvalidated;
    if s.run.repairIterations == 0 {
      forall k | 0 <= k < |t.jobs|
        ensures t.jobs[k].kind != J.ReviewCode
      {
        assert k < |s.jobs| ==> t.jobs[k] == s.jobs[k];
      }
    }
  }

  ghost predicate NewStages(added: seq<J.JobRecord>) { forall i :: 0 <= i < |added| ==> added[i].kind.Validate? }

  lemma {:induction false} StageJobsAreStages(cfg: Config, s: seq<C.CandidateRecord>, base: nat)
    ensures NewStages(StageJobs(cfg, s, base))
  {
    if s != [] {
      StageJobsAreStages(cfg, s[..|s| - 1], base);
    }
  }

  lemma SoundWhenKept(cfg: Config, s: State)
    requires CandidatesKept(cfg, s)
    ensures CandidatesSound(cfg, s)
  {
  }

  lemma CandidateDecisionKeepsGeneral(cfg: Config, s: State)
    requires cfg.Valid() && CandidatesKept(cfg, s) && Firsts(s) && s.run.status in {Coding, Validating}
    requires AdvanceCandidates(cfg, s).Ok?
    ensures var t := AdvanceCandidates(cfg, s).value;
      t.run.status == Failed || (t.run.status in {Coding, Validating, Reviewing} && CandidatesKept(cfg, t) && Firsts(t))
  {
    hide CandidatesKept, CandidatesSound, StageJobs, SettleAll, Settled, RepairOrFail, Publish, Pick;
    hide Unreviewed, Unvalidated, S.Viable, OpenJob, NewStages;
    var t := AdvanceCandidates(cfg, s).value;
    var u := s.(candidates := SettleAll(cfg, s.candidates));
    var followUps := StageJobs(cfg, s.candidates, |s.jobs|);
    var settled := Settled(u.candidates);
    var viable := S.Viable(settled);
    SoundWhenKept(cfg, s);
    SettlingKeepsCandidates(cfg, s);
    StageJobsAreStages(cfg, s.candidates, |s.jobs|);
    if followUps != [] {
      PublishingKeepsCandidates(cfg, u, u.(run := t.run), followUps);
      StagesKeepFirsts(cfg, s, u, t);
    } else if settled == [] {
      NothingSettled(cfg, s);
    } else if viable != [] {
      PublishingKeepsCandidates(cfg, u, u.(run := t.run), [OpenJob(cfg, |s.jobs|, J.ReviewCode, Some(Pick(viable).index), J.Normal)]);
    } else {
      RepairKeepsGeneral(cfg, u, Some(settled[0].index));
    }
  }

  lemma ReviewDecisionKeepsGeneral(cfg: Config, s: State)
    requires cfg.Valid() && CandidatesKept(cfg, s) && s.run.status == Reviewing && AdvanceReview(cfg, s).Ok?
    ensures var t := AdvanceReview(cfg, s).value;
      t.run.status.IsTerminal() || (t.run.status == Coding && t.run.repairIterations > 0 && CandidatesKept(cfg, t))
  {
    hide CandidatesKept, WithVerdict, RepairOrFail, Pick, RejectOthers;
    var passed, failing := WithVerdict(s.candidates, C.Pass), WithVerdict(s.candidates, C.Fail);
    if passed == [] {
      RepairKeepsGeneral(cfg, s, if failing != [] then Some(failing[0].index)
                                 else if s.candidates != [] then Some(s.candidates[0].index) else None);
    }
  }

  lemma PlanKeepsGeneral(cfg: Config, s: State)
    requires cfg.Valid() && CandidatesKept(cfg, s) && Firsts(s) && s.run.status == Created && cfg.requiresPlan
    ensures var t := OpenFirstStage(cfg, s).value;
      OpenFirstStage(cfg, s).Ok? && t.run.status == Planning && CandidatesKept(cfg, t) && Firsts(t) && PlannerOffered(t)
  {
    var t := OpenFirstStage(cfg, s).value;
    assert t.jobs[|s.jobs|].kind == J.Plan && |s.jobs| in t.offered;
    forall k | 0 <= k < |t.jobs|
      ensures t.jobs[k].kind == J.Plan || (k < |s.jobs| && t.jobs[k] == s.jobs[k])
    {
    }
    hide Publish, OpenJob;
  }

  lemma DecisionKeepsGeneral(cfg: Config, s: State)
    requires cfg.Valid() && General(cfg, s) && AdvanceRun(cfg, s).Ok?
    ensures General(cfg, AdvanceRun(cfg, s).value)
  {
    DecisionsPublish(cfg, s);
    PublishingKeepsTracked(cfg, s, AdvanceRun(cfg, s).value);
    DecisionKeepsSteady(cfg, s);
    if Running(s) {
      NoCandidatesYet(cfg, s);
    }
    hide Tracked, Publishes, CandidatesKept, Firsts, PlannerOffered, AdvanceCandidates, AdvanceReview, OpenCandidates, HasUnfinished;
    if s.run.status.IsTerminal() || HasUnfinished(s.jobs) {
    } else if s.run.status == Created && cfg.requiresPlan {
      PlanKeepsGeneral(cfg, s);
    } else if s.run.status in {Created, PlanReady} {
      OpeningKeepsGeneral(cfg, s, s.run.(status := Coding));
    } else if s.run.status in {Coding, Validating} {
      CandidateDecisionKeepsGeneral(cfg, s);
    } else if s.run.status == Reviewing {
      ReviewDecisionKeepsGeneral(cfg, s);
      LaterRoundsAreFree(AdvanceReview(cfg, s).value);
    }
  }

  lemma LaterRoundsAreFree(s: State)
    ensures s.run.repairIterations > 0 ==> Firsts(s)
  {
  }

  lemma StepKeepsGeneral(cfg: Config, s: State, e: Event)
    requires cfg.Valid() && General(cfg, s)
    ensures General(cfg, Step(cfg, s, e))
  {
    hide AdvanceRun, ExecuteJob;
    match e
    case Advance =>
      if AdvanceRun(cfg, s).Ok? {
        DecisionKeepsGeneral(cfg, s);
      }
    case Execute(k, work) =>
      if k < |s.jobs| && k in s.offered {
        ExecutionKeepsGeneral(cfg, s, k, work);
      }
    case Cancel => StepKeepsTracked(cfg, s, Cancel);
  }

  lemma {:induction false} GeneralAlways(cfg: Config, events: seq<Event>)
    requires cfg.Valid()
    ensures General(cfg, Exec(cfg, Init(cfg), events))
  {
    if events != [] {
      GeneralAlways(cfg, events[..|events| - 1]);
      hide General, Step;
      StepKeepsGeneral(cfg, Exec(cfg, Init(cfg), events[..|events| - 1]), events[|events| - 1]);
    }
  }

  lemma GeneralParts(cfg: Config, s: State)
    requires General(cfg, s)
    ensures Tracked(cfg, s) && Steady(cfg, s)
    ensures Running(s) ==> CandidatesKept(cfg, s) && CandidatesSound(cfg, s) && Firsts(s)
  {
  }
}
