/** What a decision does, said of the records themselves: which jobs it opens,
    which candidate it takes, when it ends the run. */
module WorkflowDecisions {
  import opened Common
  import opened RunStateMachine
  import opened Failures
  import opened Ordering
  import opened Workflow
  import opened WorkflowQueue
  import opened WorkflowSafety
  import opened WorkflowScripts
  import opened WorkflowExact
  import opened WorkflowGeneral
  import opened WorkflowProgress
  import R = Runs
  import C = Candidates
  import J = Jobs
  import S = Selection

  // ---- the vocabulary ----

  /** Every job of the run is over. */
  ghost predicate Idle(s: State) {
    forall k :: 0 <= k < |s.jobs| ==> s.jobs[k].status.Succeeded? || s.jobs[k].status.Dead? || s.jobs[k].status.Cancelled?
  }

  /** A new row: queued, never tried, for this work. */
  ghost predicate Opened(cfg: Config, j: J.JobRecord, kind: J.JobType, candidate: Option<nat>, priority: J.Priority) {
    && j.kind == kind && j.candidate == candidate && j.priority == priority
    && j.status == J.Queued && j.attempt == 0 && j.maxAttempts == cfg.jobMaxAttempts && j.lease == None
  }

  /** `t` has the rows and offers of `s` and `n` more, each on offer as it stands. */
  ghost predicate Adds(s: State, t: State, n: nat) {
    && |t.jobs| == |s.jobs| + n && t.jobs[..|s.jobs|] == s.jobs
    && (forall k :: k in t.offered <==> k in s.offered || |s.jobs| <= k < |t.jobs|)
    && (forall k :: k in s.offered && k < |s.jobs| ==> k in t.offered && t.offered[k] == s.offered[k])
    && (forall k :: |s.jobs| <= k < |t.jobs| ==> k in t.offered && t.offered[k] == t.jobs[k])
  }

  /** Candidate `i` is being validated and this stage is due for it. */
  ghost predicate StageDue(cfg: Config, s: State, i: nat, stage: Stage) {
    i < |s.candidates| && s.candidates[i].status.Validating? && C.Due(cfg.configured, s.candidates[i].validation, stage)
  }

  ghost predicate NoStageDue(cfg: Config, s: State) {
    forall i: nat, stage: Stage :: !StageDue(cfg, s, i, stage)
  }

  /** Validation has been closed, under the run's own rule for static analysis. */
  function Concluded(cfg: Config, c: C.CandidateRecord): C.CandidateRecord {
    c.(status := C.Validated, validation := C.ValidationReport(c.validation.results, cfg.staticAnalysisIsBlocking))
  }

  /** Whoever is being validated with no stage left has its validation closed; the others stay. */
  ghost predicate Closes(cfg: Config, s: State, t: State) {
    && |t.candidates| == |s.candidates|
    && forall i :: 0 <= i < |s.candidates| ==>
         t.candidates[i] == if s.candidates[i].status.Validating? && (forall stage: Stage :: !StageDue(cfg, s, i, stage))
                            then Concluded(cfg, s.candidates[i]) else s.candidates[i]
  }

  lemma IdleMeans(s: State)
    ensures Idle(s) <==> !HasUnfinished(s.jobs)
  {
    if !Idle(s) {
      var k :| 0 <= k < |s.jobs| && !(s.jobs[k].status.Succeeded? || s.jobs[k].status.Dead? || s.jobs[k].status.Cancelled?);
      assert s.jobs[k] in s.jobs;
    }
    if HasUnfinished(s.jobs) {
      var j :| j in s.jobs && !j.status.IsTerminal();
      var k :| 0 <= k < |s.jobs| && s.jobs[k] == j;
    }
  }

  lemma PublishAdds(s: State, u: State, added: seq<J.JobRecord>)
    requires u.jobs == s.jobs && u.offered == s.offered && forall k :: k in s.offered ==> k < |s.jobs|
    ensures Adds(s, Publish(u, added), |added|)
  {
    hide Publish;
    var t := Publish(u, added);
    assert t.jobs[..|s.jobs|] == s.jobs;
  }

  lemma AwaitsMeans(cfg: Config, s: State, i: nat, stage: Stage)
    requires i < |s.candidates|
    ensures StageDue(cfg, s, i, stage) <==>
      AwaitsStage(cfg, s.candidates[i]) && C.NextStage(cfg.configured, s.candidates[i].validation) == Some(stage)
  {
    C.NextStageMeans(cfg.configured, s.candidates[i].validation, stage);
  }

  lemma SettlingCloses(cfg: Config, s: State, t: State)
    requires t.candidates == SettleAll(cfg, s.candidates)
    ensures Closes(cfg, s, t)
  {
    forall i | 0 <= i < |s.candidates|
      ensures t.candidates[i] == if s.candidates[i].status.Validating? && (forall stage: Stage :: !StageDue(cfg, s, i, stage))
                                 then Concluded(cfg, s.candidates[i]) else s.candidates[i]
    {
      var next := C.NextStage(cfg.configured, s.candidates[i].validation);
      forall stage: Stage
        ensures StageDue(cfg, s, i, stage) <==> AwaitsStage(cfg, s.candidates[i]) && next == Some(stage)
      {
        AwaitsMeans(cfg, s, i, stage);
      }
      assert AwaitsStage(cfg, s.candidates[i]) ==> StageDue(cfg, s, i, next.value);
    }
  }

  lemma NoStageMeans(cfg: Config, s: State)
    requires cfg.Valid() && CandidatesIndexed(s)
    ensures NoStageDue(cfg, s) <==> StageJobs(cfg, s.candidates, |s.jobs|) == []
  {
    hide StageJobs;
    if i: nat, stage: Stage :| StageDue(cfg, s, i, stage) {
      AwaitsMeans(cfg, s, i, stage);
      EveryWaitingCandidateIsNamed(cfg, s.candidates, |s.jobs|, i);
    }
    StageJobsShape(cfg, s.candidates, |s.jobs|);
    var added := StageJobs(cfg, s.candidates, |s.jobs|);
    if added != [] {
      var i := added[0].candidate.value;
      AwaitsMeans(cfg, s, i, C.NextStage(cfg.configured, s.candidates[i].validation).value);
    }
  }

  // ---- nothing to decide ----

  /** A run that has ended, has a job under way or is planning is left as it is. */
  lemma OthersWait(cfg: Config, s: State)
    requires s.run.status in {Completed, Failed, Cancelled, Cancelling, Planning} || !Idle(s)
    ensures AdvanceRun(cfg, s) == Ok(s)
  {
    IdleMeans(s);
  }

  // ---- the first round ----

  /** A run that needs a plan opens the one plan job. */
  lemma PlanIsOpened(cfg: Config, s: State)
    requires Idle(s) && s.run.status == Created && cfg.requiresPlan && forall k :: k in s.offered ==> k < |s.jobs|
    ensures var r := AdvanceRun(cfg, s);
      && r.Ok? && r.value.candidates == s.candidates && Adds(s, r.value, 1)
      && r.value.run == s.run.(status := Planning, planRevisions := s.run.planRevisions + 1)
      && Opened(cfg, r.value.jobs[|s.jobs|], J.Plan, None, J.Normal)
  {
    IdleMeans(s);
    hide HasUnfinished, Publish;
    PublishAdds(s, s.(run := R.StartPlanning(s.run).value), [OpenJob(cfg, |s.jobs|, J.Plan, None, J.Normal)]);
  }

  /** Without a plan, or once it is there, every candidate starts coding, each
      with its own job, and nothing to show yet. */
  lemma CodersAreOpened(cfg: Config, s: State)
    requires Idle(s) && s.candidates == [] && forall k :: k in s.offered ==> k < |s.jobs|
    requires s.run.status == PlanReady || (s.run.status == Created && !cfg.requiresPlan)
    ensures var r := AdvanceRun(cfg, s);
      && r.Ok? && r.value.run == s.run.(status := Coding) && Adds(s, r.value, cfg.candidateCount)
      && |r.value.candidates| == cfg.candidateCount
      && (forall i :: 0 <= i < cfg.candidateCount ==>
            && r.value.candidates[i] == C.CandidateRecord(i, C.Coding, None, C.ValidationReport([], false), None, 1, 0, 0)
            && Opened(cfg, r.value.jobs[|s.jobs| + i], J.Code, Some(i), J.Normal))
  {
    hide AdvanceRun, HasUnfinished, Publish, Adds, Opened, NewCandidates, CodeJobs, OpenJob;
    IdleMeans(s);
    var run, n := s.run.(status := Coding), cfg.candidateCount;
    var u := s.(run := run, candidates := NewCandidates(n));
    CodersAreAdvanced(cfg, s, u);
    PublishAdds(s, u, CodeJobs(cfg, |s.jobs|, n));
    var t := Publish(u, CodeJobs(cfg, |s.jobs|, n));
    forall i | 0 <= i < n
      ensures t.candidates[i] == C.CandidateRecord(i, C.Coding, None, C.ValidationReport([], false), None, 1, 0, 0)
      ensures Opened(cfg, t.jobs[|s.jobs| + i], J.Code, Some(i), J.Normal)
    {
      assert t.jobs[|s.jobs| + i] == CodeJobs(cfg, |s.jobs|, n)[i];
      OpenedIsNew(cfg, |s.jobs| + i, J.Code, Some(i), J.Normal);
    }
  }

  lemma CodersAreAdvanced(cfg: Config, s: State, u: State)
    requires !HasUnfinished(s.jobs) && s.candidates == []
    requires s.run.status == PlanReady || (s.run.status == Created && !cfg.requiresPlan)
    requires u == s.(run := s.run.(status := Coding), candidates := NewCandidates(cfg.candidateCount))
    ensures AdvanceRun(cfg, s) == Ok(Publish(u, CodeJobs(cfg, |s.jobs|, cfg.candidateCount)))
  {
    hide HasUnfinished, Publish, OpenCandidates, NewCandidates, CodeJobs;
    FirstCandidates(cfg, s, u.run);
  }

  lemma OpenedIsNew(cfg: Config, id: nat, kind: J.JobType, candidate: Option<nat>, priority: J.Priority)
    ensures Opened(cfg, OpenJob(cfg, id, kind, candidate, priority), kind, candidate, priority)
  {
  }

  // ---- stages ----

  /** As long as some stage is due, exactly the due stages are opened, in the
      order of their candidates, and the run is validating. */
  lemma DueStagesAreOpened(cfg: Config, s: State)
    requires cfg.Valid() && Tracked(cfg, s) && CandidatesSound(cfg, s) && Idle(s) && s.run.status in {Coding, Validating}
    requires !NoStageDue(cfg, s)
    ensures var r := AdvanceRun(cfg, s);
      && r.Ok? && r.value.run == s.run.(status := Validating) && Closes(cfg, s, r.value)
      && |r.value.jobs| > |s.jobs| && Adds(s, r.value, |r.value.jobs| - |s.jobs|)
      && (forall k :: |s.jobs| <= k < |r.value.jobs| ==> ForDueStage(cfg, s, r.value.jobs[k]))
      && (forall i: nat, stage: Stage :: StageDue(cfg, s, i, stage) ==>
            exists k :: |s.jobs| <= k < |r.value.jobs| && r.value.jobs[k].candidate == Some(i))
      && (forall k, l :: |s.jobs| <= k < l < |r.value.jobs| ==>
            r.value.jobs[k].candidate.Some? && r.value.jobs[l].candidate.Some?
            && r.value.jobs[k].candidate.value < r.value.jobs[l].candidate.value)
  {
    hide HasUnfinished, Publish, StageJobs, SettleAll, Tracked, Adds, Closes, ForDueStage, CandidatesSound, NoStageDue, StageDue, AdvanceRun, Idle;
    IdleMeans(s);
    OffersAreRows(cfg, s);
    IndexedWhenSound(cfg, s);
    NoStageMeans(cfg, s);
    StagesAreAdvanced(cfg, s);
    var added := StageJobs(cfg, s.candidates, |s.jobs|);
    var u := s.(run := s.run.(status := Validating), candidates := SettleAll(cfg, s.candidates));
    PublishAdds(s, u, added);
    var t := Publish(u, added);
    SettlingCloses(cfg, s, t);
    StageRowsAreDue(cfg, s, added);
    assert forall k :: |s.jobs| <= k < |t.jobs| ==> t.jobs[k] == added[k - |s.jobs|];
    forall k, l | |s.jobs| <= k < l < |t.jobs|
      ensures t.jobs[k].candidate.Some? && t.jobs[l].candidate.Some? && t.jobs[k].candidate.value < t.jobs[l].candidate.value
    {
      assert added[k - |s.jobs|].candidate.value < added[l - |s.jobs|].candidate.value;
    }
    forall i: nat, stage: Stage | StageDue(cfg, s, i, stage)
      ensures exists k :: |s.jobs| <= k < |t.jobs| && t.jobs[k].candidate == Some(i)
    {
      DueIsInRange(cfg, s, i, stage);
      AwaitsMeans(cfg, s, i, stage);
      EveryWaitingCandidateIsNamed(cfg, s.candidates, |s.jobs|, i);
      var k :| 0 <= k < |added| && added[k].candidate == Some(i);
      assert t.jobs[|s.jobs| + k] == added[k];
    }
  }

  lemma DueIsInRange(cfg: Config, s: State, i: nat, stage: Stage)
    requires StageDue(cfg, s, i, stage)
    ensures i < |s.candidates|
  {
  }

  lemma StagesAreAdvanced(cfg: Config, s: State)
    requires !HasUnfinished(s.jobs) && s.run.status in {Coding, Validating} && StageJobs(cfg, s.candidates, |s.jobs|) != []
    ensures AdvanceRun(cfg, s) == Ok(Publish(s.(run := s.run.(status := Validating), candidates := SettleAll(cfg, s.candidates)),
                                             StageJobs(cfg, s.candidates, |s.jobs|)))
  {
    hide HasUnfinished, StageJobs, SettleAll, Publish;
  }

  ghost predicate ForDueStage(cfg: Config, s: State, j: J.JobRecord) {
    && j.candidate.Some? && j.kind.Validate? && StageDue(cfg, s, j.candidate.value, j.kind.stage)
    && Opened(cfg, j, j.kind, j.candidate, J.High)
  }

  lemma OffersAreRows(cfg: Config, s: State)
    requires Tracked(cfg, s)
    ensures forall k :: k in s.offered ==> k < |s.jobs|
  {
  }

  lemma StageRowsAreDue(cfg: Config, s: State, added: seq<J.JobRecord>)
    requires cfg.Valid() && CandidatesIndexed(s) && added == StageJobs(cfg, s.candidates, |s.jobs|)
    ensures forall k :: 0 <= k < |added| ==> ForDueStage(cfg, s, added[k])
    ensures ByIndex(added, |s.candidates|)
  {
    StageJobsShape(cfg, s.candidates, |s.jobs|);
    StageJobsAreHigh(cfg, s.candidates, |s.jobs|);
    StageJobsAreNew(cfg, s.candidates, |s.jobs|);
    StagesByIndex(cfg, s.candidates, |s.jobs|);
    hide StageJobs;
    forall k | 0 <= k < |added|
      ensures ForDueStage(cfg, s, added[k])
    {
      assert NewJob(cfg, added[k]);
      var i := added[k].candidate.value;
      AwaitsMeans(cfg, s, i, added[k].kind.stage);
    }
  }

  ghost predicate ByIndex(added: seq<J.JobRecord>, n: nat) {
    && (forall k :: 0 <= k < |added| ==> added[k].candidate.Some? && added[k].candidate.value < n)
    && (forall k, l :: 0 <= k < l < |added| ==>
          added[k].candidate.Some? && added[l].candidate.Some? && added[k].candidate.value < added[l].candidate.value)
  }

  lemma {:induction false} StagesByIndex(cfg: Config, candidates: seq<C.CandidateRecord>, base: nat)
    requires forall i :: 0 <= i < |candidates| ==> candidates[i].index == i
    ensures ByIndex(StageJobs(cfg, candidates, base), |candidates|)
  {
    if candidates != [] {
      StagesByIndex(cfg, candidates[..|candidates| - 1], base);
    }
  }

  // ---- after validation ----

  /** Nothing is due and everybody is still coding: the run goes on as it is. */
  lemma CodersAreAwaited(cfg: Config, s: State)
    requires cfg.Valid() && CandidatesSound(cfg, s) && Idle(s) && s.run.status in {Coding, Validating}
    requires forall i :: 0 <= i < |s.candidates| ==> s.candidates[i].status.Coding?
    ensures AdvanceRun(cfg, s) == Ok(s)
  {
    IdleMeans(s);
    NoStageMeans(cfg, s);
    hide HasUnfinished, StageJobs;
    var all := SettleAll(cfg, s.candidates);
    assert all == s.candidates;
    if Settled(all) != [] {
      HeadIsMember(Settled(all));
    }
  }

  /** The candidate stands settled, and worth a review. */
  ghost predicate Stands(t: State, i: nat) {
    i < |t.candidates| && t.candidates[i].status.Validated? && S.Presentable(t.candidates[i])
  }

  /** `w` stands, and is preferred to every other candidate that stands. */
  ghost predicate BestStanding(t: State, w: nat) {
    Stands(t, w) && forall i: nat :: Stands(t, i) && i != w ==> S.Preferred(t.candidates[w], t.candidates[i])
  }

  /** When no stage is due and somebody stands once validation is closed, the run
      goes to review, and the one job opened is a review of the best of them. */
  lemma BestIsReviewed(cfg: Config, s: State, u: State)
    requires cfg.Valid() && Tracked(cfg, s) && CandidatesSound(cfg, s) && Idle(s) && s.run.status in {Coding, Validating}
    requires NoStageDue(cfg, s) && Closes(cfg, s, u) && exists i: nat :: Stands(u, i)
    ensures var r := AdvanceRun(cfg, s);
      && r.Ok? && r.value.candidates == u.candidates && Adds(s, r.value, 1)
      && r.value.run == s.run.(status := Reviewing, reviewIterations := s.run.reviewIterations + 1)
      && exists w: nat :: BestStanding(r.value, w) && Opened(cfg, r.value.jobs[|s.jobs|], J.ReviewCode, Some(w), J.Normal)
  {
    hide HasUnfinished, Publish, StageJobs, SettleAll, Settled, S.Viable, Tracked, CandidatesSound, Pick;
    IdleMeans(s);
    OffersAreRows(cfg, s);
    ClosingIsSettling(cfg, s, u);
    var settled := Settled(u.candidates);
    var viable := S.Viable(settled);
    ViableStand(u);
    var w := BestIsPicked(u);
    var job := OpenJob(cfg, |s.jobs|, J.ReviewCode, Some(w), J.Normal);
    ReviewIsOpened(cfg, s, u, viable);
    PublishAdds(s, s.(run := s.run.(status := Reviewing, reviewIterations := s.run.reviewIterations + 1), candidates := u.candidates), [job]);
    var t := AdvanceRun(cfg, s).value;
    assert t.jobs[|s.jobs|] == job;
    assert BestStanding(t, w);
  }

  lemma ClosingIsSettling(cfg: Config, s: State, u: State)
    requires cfg.Valid() && CandidatesSound(cfg, s) && s.run.status in {Coding, Validating}
    requires NoStageDue(cfg, s) && Closes(cfg, s, u)
    ensures u.candidates == SettleAll(cfg, s.candidates) && StageJobs(cfg, s.candidates, |s.jobs|) == []
    ensures CandidatesIndexed(u)
  {
    NoStageMeans(cfg, s);
    var t := s.(candidates := SettleAll(cfg, s.candidates));
    SettlingCloses(cfg, s, t);
    forall i | 0 <= i < |s.candidates|
      ensures u.candidates[i] == t.candidates[i] && u.candidates[i].index == i
    {
    }
  }

  /** The viable ones of the settled are exactly those that stand. */
  lemma ViableStand(u: State)
    requires CandidatesIndexed(u)
    ensures var viable := S.Viable(Settled(u.candidates));
      && (forall c :: c in viable <==> Stands(u, c.index) && u.candidates[c.index] == c)
      && S.DistinctIndices(viable)
  {
    SettledAreOwn(u.candidates);
    var settled := Settled(u.candidates);
    var viable := S.Viable(settled);
    forall c
      ensures c in viable <==> Stands(u, c.index) && u.candidates[c.index] == c
    {
      S.PresentableMeansViable(c);
      if Stands(u, c.index) && u.candidates[c.index] == c {
        assert c in u.candidates;
        assert c in settled;
      }
    }
  }

  lemma BestIsPicked(u: State) returns (w: nat)
    requires CandidatesIndexed(u) && exists i: nat :: Stands(u, i)
    ensures var viable := S.Viable(Settled(u.candidates));
      viable != [] && BestStanding(u, w) && Pick(viable).index == w
  {
    hide Settled, S.Viable, S.Preferred;
    ViableStand(u);
    var viable := S.Viable(Settled(u.candidates));
    var i: nat :| Stands(u, i);
    assert u.candidates[i].index == i;
    assert u.candidates[i] in viable;
    S.SelectionFindsTheBest(viable);
    var best := S.SelectFrom(viable).winner.value;
    w := best.index;
    forall j: nat | Stands(u, j) && j != w
      ensures S.Preferred(u.candidates[w], u.candidates[j])
    {
      assert u.candidates[j].index == j;
      assert u.candidates[j] in viable;
    }
  }

  lemma ReviewIsOpened(cfg: Config, s: State, u: State, viable: seq<C.CandidateRecord>)
    requires s.run.status in {Coding, Validating} && !HasUnfinished(s.jobs)
    requires StageJobs(cfg, s.candidates, |s.jobs|) == [] && u.candidates == SettleAll(cfg, s.candidates)
    requires viable == S.Viable(Settled(u.candidates)) && viable != []
    ensures AdvanceRun(cfg, s) == Ok(Publish(
      s.(run := s.run.(status := Reviewing, reviewIterations := s.run.reviewIterations + 1), candidates := u.candidates),
      [OpenJob(cfg, |s.jobs|, J.ReviewCode, Some(Pick(viable).index), J.Normal)]))
  {
    hide StageJobs, SettleAll, Settled, HasUnfinished, OpenJob, Pick, S.Viable, Publish;
    SomebodyIsSettled(u.candidates);
  }

  lemma SomebodyIsSettled(candidates: seq<C.CandidateRecord>)
    ensures S.Viable(Settled(candidates)) != [] ==> Settled(candidates) != []
  {
  }

  /** A failed static analysis that is only advisory keeps nobody from review. */
  lemma AdvisoryAnalysisIsNoObstacle(cfg: Config, s: State, i: nat)
    requires cfg.Valid() && Tracked(cfg, s) && CandidatesSound(cfg, s) && Idle(s) && s.run.status in {Coding, Validating}
    requires NoStageDue(cfg, s) && !cfg.staticAnalysisIsBlocking
    requires i < |s.candidates| && !s.candidates[i].status.Coding? && S.Changes(s.candidates[i])
    requires !C.Breaks(s.candidates[i].validation, Build) && !C.Breaks(s.candidates[i].validation, Test)
    requires C.Breaks(s.candidates[i].validation, StaticAnalysis)
    ensures var r := AdvanceRun(cfg, s);
      && r.Ok? && r.value.run.status == Reviewing && |r.value.jobs| == |s.jobs| + 1 && i < |r.value.candidates|
      && exists w: nat ::
           && Opened(cfg, r.value.jobs[|s.jobs|], J.ReviewCode, Some(w), J.Normal)
           && (w == i || (w < |r.value.candidates| && S.Preferred(r.value.candidates[w], r.value.candidates[i])))
  {
    var u := s.(candidates := SettleAll(cfg, s.candidates));
    SettlingCloses(cfg, s, u);
    assert CandidateSound(cfg, s.candidates[i]);
    assert u.candidates[i].status.Validated? && u.candidates[i].validation.results == s.candidates[i].validation.results;
    assert Stands(u, i) by { ReadAlike(u.candidates[i], s.candidates[i]); }
    hide CandidatesSound, Tracked, S.Preferred, S.Presentable, Idle, NoStageDue, AdvanceRun;
    BestIsReviewed(cfg, s, u);
    var t := AdvanceRun(cfg, s).value;
    var w: nat :| BestStanding(t, w) && Opened(cfg, t.jobs[|s.jobs|], J.ReviewCode, Some(w), J.Normal);
    assert Stands(t, i);
  }

  lemma ReadAlike(a: C.CandidateRecord, b: C.CandidateRecord)
    requires a.validation.results == b.validation.results
    ensures forall stage: Stage :: C.Breaks(a.validation, stage) == C.Breaks(b.validation, stage)
  {
  }

  // ---- repairs ----

  /** Sent back: a repair is counted, the evidence dropped, patch and verdict kept. */
  function SentBack(c: C.CandidateRecord): C.CandidateRecord {
    c.(status := C.Coding, repairIterations := c.repairIterations + 1, coderIterations := c.coderIterations + 1,
       validation := C.ValidationReport([], c.validation.staticAnalysisIsBlocking))
  }

  /** `t` is `s` with candidate `i` sent back and its coder opened ahead of other
      work, or, without a repair left, with the run failed by review. */
  ghost predicate RepairedOrFailed(cfg: Config, s: State, t: State, i: nat)
    requires i < |s.candidates|
  {
    if s.run.repairIterations < s.run.maxRepairIterations then
      && t.run == s.run.(status := Coding, repairIterations := s.run.repairIterations + 1)
      && t.candidates == s.candidates[i := SentBack(s.candidates[i])]
      && Adds(s, t, 1) && Opened(cfg, t.jobs[|s.jobs|], J.Code, Some(i), J.High)
    else t == s.(run := s.run.(status := Failed, failureKind := Some(ReviewFailure)))
  }

  lemma RepairMeans(cfg: Config, s: State, i: nat)
    requires i < |s.candidates| && s.candidates[i].status in {C.Coding, C.Validating, C.Validated}
    requires s.run.status in {Coding, Validating, Reviewing} && forall k :: k in s.offered ==> k < |s.jobs|
    ensures var r := RepairOrFail(cfg, s, Some(i));
      if s.run.status == Coding && s.run.repairIterations < s.run.maxRepairIterations then r.Raised?
      else r.Ok? && RepairedOrFailed(cfg, s, r.value, i)
  {
    hide Publish, Adds, Opened, OpenJob;
    var u := s.(run := s.run.(status := Coding, repairIterations := s.run.repairIterations + 1),
                candidates := s.candidates[i := SentBack(s.candidates[i])]);
    var job := OpenJob(cfg, |s.jobs|, J.Code, Some(i), J.High);
    RepairIsSent(cfg, s, i, u);
    PublishAdds(s, u, [job]);
    OpenedIsNew(cfg, |s.jobs|, J.Code, Some(i), J.High);
    assert Publish(u, [job]).jobs[|s.jobs|] == job;
  }

  lemma RepairIsSent(cfg: Config, s: State, i: nat, u: State)
    requires i < |s.candidates| && s.candidates[i].status in {C.Coding, C.Validating, C.Validated}
    requires s.run.status in {Coding, Validating, Reviewing}
    requires u == s.(run := s.run.(status := Coding, repairIterations := s.run.repairIterations + 1),
                     candidates := s.candidates[i := SentBack(s.candidates[i])])
    ensures var r := RepairOrFail(cfg, s, Some(i));
      if s.run.repairIterations >= s.run.maxRepairIterations
      then r == Ok(s.(run := s.run.(status := Failed, failureKind := Some(ReviewFailure))))
      else if s.run.status == Coding then r.Raised?
      else r == Ok(Publish(u, [OpenJob(cfg, |s.jobs|, J.Code, Some(i), J.High)]))
  {
    hide Publish, OpenJob, R.RequestRepair, R.StartCoding, R.FailRun, C.StartRepair;
    RunTakesARepair(s.run);
    CandidateTakesARepair(s.candidates[i]);
  }

  lemma RunTakesARepair(run: R.RunRecord)
    requires run.status in {Coding, Validating, Reviewing}
    ensures R.FailRun(run, ReviewFailure) == Ok(run.(status := Failed, failureKind := Some(ReviewFailure)))
    ensures run.repairIterations < run.maxRepairIterations ==>
      if run.status == Coding then R.RequestRepair(run).Raised?
      else
        && R.RequestRepair(run) == Ok(run.(status := Repairing, repairIterations := run.repairIterations + 1))
        && R.StartCoding(run.(status := Repairing, repairIterations := run.repairIterations + 1))
           == Ok(run.(status := Coding, repairIterations := run.repairIterations + 1))
  {
  }

  lemma CandidateTakesARepair(c: C.CandidateRecord)
    requires c.status in {C.Coding, C.Validating, C.Validated}
    ensures C.StartRepair(c) == Ok(SentBack(c))
  {
  }

  lemma {:induction false} FilterHead<T(!new)>(s: seq<T>, keep: T -> bool) returns (i: nat)
    requires Filter(s, keep) != []
    ensures i < |s| && Filter(s, keep)[0] == s[i] && keep(s[i]) && forall j :: 0 <= j < i ==> !keep(s[j])
  {
    var front := s[..|s| - 1];
    if Filter(front, keep) != [] {
      i := FilterHead(front, keep);
    } else {
      i := |s| - 1;
      forall j | 0 <= j < i
        ensures !keep(s[j])
      {
        assert front[j] in front;
      }
    }
  }

  /** When no stage is due and somebody is settled but nobody stands, the settled
      candidate with the lowest index is sent back, or the run fails without a
      repair left. From CODING a repair is refused, and the decision raises. */
  lemma FirstSettledIsRepaired(cfg: Config, s: State, u: State, i: nat)
    requires cfg.Valid() && Tracked(cfg, s) && CandidatesSound(cfg, s) && Idle(s) && s.run.status in {Coding, Validating}
    requires NoStageDue(cfg, s) && Closes(cfg, s, u) && forall j: nat :: !Stands(u, j)
    requires i < |u.candidates| && u.candidates[i].status.Validated? && forall j :: 0 <= j < i ==> !u.candidates[j].status.Validated?
    ensures var r := AdvanceRun(cfg, s);
      if s.run.status == Coding && s.run.repairIterations < s.run.maxRepairIterations then r.Raised?
      else r.Ok? && RepairedOrFailed(cfg, s.(candidates := u.candidates), r.value, i)
  {
    hide HasUnfinished, StageJobs, SettleAll, Settled, S.Viable, Tracked, CandidatesSound, RepairOrFail, RepairedOrFailed;
    IdleMeans(s);
    OffersAreRows(cfg, s);
    ClosingIsSettling(cfg, s, u);
    ViableStand(u);
    NobodyViable(u);
    FirstOfSettled(u, i);
    RepairMeans(cfg, s.(candidates := u.candidates), i);
  }

  lemma NobodyViable(u: State)
    requires CandidatesIndexed(u) && forall j: nat :: !Stands(u, j)
    ensures S.Viable(Settled(u.candidates)) == []
  {
    hide Settled, S.Viable;
    ViableStand(u);
    var viable := S.Viable(Settled(u.candidates));
    if viable != [] {
      HeadIsMember(viable);
    }
  }

  lemma FirstOfSettled(u: State, i: nat)
    requires CandidatesIndexed(u) && i < |u.candidates| && u.candidates[i].status.Validated?
    requires forall j :: 0 <= j < i ==> !u.candidates[j].status.Validated?
    ensures Settled(u.candidates) != [] && Settled(u.candidates)[0].index == i
  {
    assert u.candidates[i] in u.candidates;
    assert u.candidates[i] in Settled(u.candidates);
    var k := FilterHead(u.candidates, (c: C.CandidateRecord) => c.status == C.Validated);
  }

  // ---- after the review ----

  ghost predicate Passed(s: State, i: nat) { i < |s.candidates| && S.Approved(s.candidates[i]) }

  /** `b` passed, and is preferred to every other candidate that passed. */
  ghost predicate BestPassed(s: State, b: nat) {
    Passed(s, b) && forall i: nat :: Passed(s, i) && i != b ==> S.Preferred(s.candidates[b], s.candidates[i])
  }

  ghost predicate FirstPassed(s: State, b: nat) { Passed(s, b) && forall i: nat :: Passed(s, i) ==> b <= i }

  /** The run is completed with `w`, which is SELECTED; everybody else is REJECTED. */
  ghost predicate CompletedWith(s: State, t: State, w: nat) {
    && t == s.(run := s.run.(status := Completed, selected := Some(w)), candidates := t.candidates)
    && |t.candidates| == |s.candidates|
    && forall i :: 0 <= i < |s.candidates| ==> t.candidates[i] == s.candidates[i].(status := if i == w then C.Selected else C.Rejected)
  }

  /** After a review that somebody passed, the best of those who passed wins if it
      is presentable; if it is not, the first of them does. */
  lemma BestPassedWins(cfg: Config, s: State)
    requires CandidatesSound(cfg, s) && Idle(s) && s.run.status == Reviewing && exists i: nat :: Passed(s, i)
    ensures exists b: nat, w: nat ::
      && BestPassed(s, b)
      && (if S.Presentable(s.candidates[b]) then w == b else FirstPassed(s, w))
      && AdvanceRun(cfg, s).Ok? && CompletedWith(s, AdvanceRun(cfg, s).value, w)
  {
    hide HasUnfinished, WithVerdict, Pick, CandidatesSound, CompletedWith, S.Preferred, S.Presentable;
    IdleMeans(s);
    IndexedWhenSound(cfg, s);
    var b, w := PassedArePicked(cfg, s);
    CompletionMeans(cfg, s, w);
    assert BestPassed(s, b);
  }

  lemma IndexedWhenSound(cfg: Config, s: State)
    requires CandidatesSound(cfg, s) && s.run.status in {Coding, Validating, Reviewing}
    ensures CandidatesIndexed(s)
    ensures forall i :: 0 <= i < |s.candidates| ==> s.candidates[i].status in {C.Coding, C.Validating, C.Validated}
  {
  }

  lemma PassedArePicked(cfg: Config, s: State) returns (b: nat, w: nat)
    requires CandidatesIndexed(s) && exists i: nat :: Passed(s, i)
    requires forall i :: 0 <= i < |s.candidates| ==> s.candidates[i].status in {C.Coding, C.Validating, C.Validated}
    ensures var passed := WithVerdict(s.candidates, C.Pass); passed != [] && Pick(passed).index == w
    ensures BestPassed(s, b) && if S.Presentable(s.candidates[b]) then w == b else FirstPassed(s, w)
  {
    hide S.Preferred, S.Presentable;
    VerdictsAreOwn(s.candidates, C.Pass);
    var passed := WithVerdict(s.candidates, C.Pass);
    forall i: nat | Passed(s, i)
      ensures s.candidates[i] in passed && S.InTheRunning(s.candidates[i]) && s.candidates[i].index == i
    {
      assert s.candidates[i] in s.candidates;
    }
    var k := FilterHead(s.candidates, (c: C.CandidateRecord) => c.verdict == Some(C.Pass));
    hide WithVerdict;
    var best := S.SelectionDecides(passed);
    assert passed[0] in passed;
    b := best.value.index;
    w := Pick(passed).index;
    assert Passed(s, b);
  }

  lemma CompletionMeans(cfg: Config, s: State, w: nat)
    requires s.run.status == Reviewing && !HasUnfinished(s.jobs) && CandidatesIndexed(s) && w < |s.candidates|
    requires forall i :: 0 <= i < |s.candidates| ==> s.candidates[i].status in {C.Coding, C.Validating, C.Validated}
    requires WithVerdict(s.candidates, C.Pass) != [] && Pick(WithVerdict(s.candidates, C.Pass)).index == w
    ensures AdvanceRun(cfg, s).Ok? && CompletedWith(s, AdvanceRun(cfg, s).value, w)
  {
    hide HasUnfinished, WithVerdict, Pick;
  }

  /** After a review that nobody passed, the first candidate that failed it is
      sent back, or candidate 0 if no verdict was given; without a repair left the
      run fails. */
  lemma FirstFailedIsRepaired(cfg: Config, s: State, i: nat)
    requires Tracked(cfg, s) && CandidatesSound(cfg, s) && Idle(s) && s.run.status == Reviewing && forall j: nat :: !Passed(s, j)
    requires i < |s.candidates|
    requires if exists j :: 0 <= j < |s.candidates| && s.candidates[j].verdict.Some?
             then s.candidates[i].verdict.Some? && forall j :: 0 <= j < i ==> s.candidates[j].verdict.None?
             else i == 0
    ensures AdvanceRun(cfg, s).Ok? && RepairedOrFailed(cfg, s, AdvanceRun(cfg, s).value, i)
  {
    hide HasUnfinished, Tracked, CandidatesSound, RepairOrFail, RepairedOrFailed, WithVerdict, CompleteWith, Pick;
    IdleMeans(s);
    OffersAreRows(cfg, s);
    IndexedWhenSound(cfg, s);
    NobodyHasPassed(s);
    FirstOfFailing(s, i);
    assert s.candidates[0].index == 0;
    RepairMeans(cfg, s, i);
    assert AdvanceRun(cfg, s) == RepairOrFail(cfg, s, Some(i));
  }

  lemma NobodyHasPassed(s: State)
    requires CandidatesIndexed(s) && forall j: nat :: !Passed(s, j)
    ensures WithVerdict(s.candidates, C.Pass) == []
  {
    VerdictsAreOwn(s.candidates, C.Pass);
    var passed := WithVerdict(s.candidates, C.Pass);
    if passed != [] {
      HeadIsMember(passed);
      assert Passed(s, passed[0].index);
    }
  }

  lemma FirstOfFailing(s: State, i: nat)
    requires CandidatesIndexed(s) && i < |s.candidates| && forall j: nat :: !Passed(s, j)
    requires if exists j :: 0 <= j < |s.candidates| && s.candidates[j].verdict.Some?
             then s.candidates[i].verdict.Some? && forall j :: 0 <= j < i ==> s.candidates[j].verdict.None?
             else i == 0
    ensures var failing := WithVerdict(s.candidates, C.Fail);
      if failing != [] then failing[0].index == i else i == 0
  {
    var failing := WithVerdict(s.candidates, C.Fail);
    assert forall j: nat :: j < |s.candidates| && s.candidates[j].verdict.Some? ==> !Passed(s, j);
    if exists j :: 0 <= j < |s.candidates| && s.candidates[j].verdict.Some? {
      assert !Passed(s, i);
      assert s.candidates[i] in s.candidates && s.candidates[i].verdict == Some(C.Fail);
      assert s.candidates[i] in failing;
    }
    if failing != [] {
      var k := FilterHead(s.candidates, (c: C.CandidateRecord) => c.verdict == Some(C.Fail));
    }
  }
}
