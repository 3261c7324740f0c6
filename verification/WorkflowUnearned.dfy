/** Histories in which a spent review job, still on offer, completes a run that
    has not earned it. */
module WorkflowUnearned {
  import opened Common
  import opened RunStateMachine
  import opened Failures
  import opened Ordering
  import opened Workflow
  import opened WorkflowQueue
  import opened WorkflowSafety
  import opened WorkflowScripts
  import opened WorkflowExact
  import opened WorkflowProgress
  import opened WorkflowEarned
  import R = Runs
  import C = Candidates
  import J = Jobs
  import S = Selection

  // ---- everyone passes everything ----

  /** The candidates differ in their index only. */
  ghost predicate Twins(candidates: seq<C.CandidateRecord>, c: C.CandidateRecord) {
    forall i :: 0 <= i < |candidates| ==> candidates[i] == c.(index := i)
  }

  /** All stages passed, everyone alike, nobody repaired or reviewed yet. */
  ghost predicate AllAlike(cfg: Config, s: State, done: set<Stage>, c: C.CandidateRecord) {
    && AllPassed(cfg, s, done) && Twins(s.candidates, c) && |s.candidates| == cfg.candidateCount
    && s.run.repairIterations == 0 && s.run.maxRepairIterations == cfg.maxRepairIterations
    && c.HasPatch() && c.verdict == None && c.repairIterations == 0
  }

  lemma {:induction false} PassAll(cfg: Config, s: State, done: set<Stage>, c: C.CandidateRecord)
    returns (events: seq<Event>, d: C.CandidateRecord)
    requires cfg.Valid() && cfg.configured <= cfg.available && done <= cfg.configured && AllAlike(cfg, s, done, c)
    ensures AllAlike(cfg, Exec(cfg, s, events), cfg.configured, d)
    decreases cfg.configured - done
  {
    var next := FirstUndone(cfg.configured, done);
    if next.None? {
      AllDone(cfg.configured, done);
      ExecNone(cfg, s);
      return [], c;
    }
    var stage := next.value;
    hide AllPassed, Exec;
    var first := PassStage(cfg, s, done, stage);
    var u := Exec(cfg, s, first);
    var rest;
    rest, d := PassAll(cfg, u, done + {stage}, WithResult(c, stage, 0));
    events := first + rest;
    ExecConcat(cfg, s, first, rest);
  }

  lemma AllDone(configured: set<Stage>, done: set<Stage>)
    requires FirstUndone(configured, done).None? && done <= configured
    ensures done == configured
  {
    forall stage | stage in configured
      ensures stage in done
    {
      assert stage == Build || stage == Test || stage == StaticAnalysis;
    }
  }

  // ---- the first review ----

  lemma TwinsPickFirst(list: seq<C.CandidateRecord>, c: C.CandidateRecord)
    requires list != [] && Twins(list, c) && c.IsViable()
    ensures Pick(list).index == 0 && Pick(list) in list
  {
    forall d | d in list
      ensures S.Presentable(d)
    {
      S.PresentableMeansViable(d);
    }
    S.SelectionFindsTheBest(list);
    var w := S.SelectFrom(list).winner.value;
    assert list[0] in list;
    if w != list[0] {
      var i :| 0 <= i < |list| && list[i] == w;
      TwinsTie(list[0], w);
    }
  }

  lemma TwinsTie(a: C.CandidateRecord, b: C.CandidateRecord)
    requires b == a.(index := b.index) && a.index < b.index
    ensures !S.Preferred(b, a)
  {
  }

  lemma PassedIsViable(cfg: Config, c: C.CandidateRecord)
    requires c.HasPatch()
    requires forall stage: Stage :: c.validation.Passed(stage) == if stage in cfg.configured then Some(true) else None
    ensures C.NextStage(cfg.configured, c.validation) == None
    ensures C.RecordValidation(c.(status := C.Validating), cfg.staticAnalysisIsBlocking).value.IsViable()
  {
    var v := c.validation;
    assert v.Passed(Build) != Some(false) && v.Passed(Test) != Some(false) && v.Passed(StaticAnalysis) != Some(false);
    var w := v.(staticAnalysisIsBlocking := cfg.staticAnalysisIsBlocking);
    assert w.results == v.results;
    assert w.Passed(Build) == v.Passed(Build) && w.Passed(Test) == v.Passed(Test) && w.Passed(StaticAnalysis) == v.Passed(StaticAnalysis);
  }

  /** Validation closed. */
  function Closed(cfg: Config, c: C.CandidateRecord): C.CandidateRecord {
    c.(status := C.Validated, validation := c.validation.(staticAnalysisIsBlocking := cfg.staticAnalysisIsBlocking))
  }

  lemma AllSettleViable(cfg: Config, s: State, c: C.CandidateRecord)
    requires AllAlike(cfg, s, cfg.configured, c) && cfg.Valid()
    ensures Closed(cfg, c).IsViable()
    ensures StageJobs(cfg, s.candidates, |s.jobs|) == []
    ensures var all := SettleAll(cfg, s.candidates); Twins(all, Closed(cfg, c)) && Settled(all) == all && S.Viable(all) == all
  {
    var all := SettleAll(cfg, s.candidates);
    forall i | 0 <= i < |s.candidates|
      ensures !AwaitsStage(cfg, s.candidates[i]) && all[i] == Closed(cfg, c).(index := i) && Closed(cfg, c).IsViable()
      ensures s.candidates[i].index == i
    {
      var d := s.candidates[i];
      assert forall stage: Stage :: d.validation.Passed(stage) == if stage in cfg.configured then Some(true) else None;
      PassedIsViable(cfg, d);
    }
    assert s.candidates[0] == c.(index := 0);
    StageJobsShape(cfg, s.candidates, |s.jobs|);
    hide StageJobs;
    FilterAll(all, (c: C.CandidateRecord) => c.status == C.Validated);
    FilterAll(all, (c: C.CandidateRecord) => c.IsViable());
  }

  /** A review of candidate 0 has been opened; everyone is settled, viable and unjudged. */
  ghost predicate FirstReview(cfg: Config, s: State, c: C.CandidateRecord) {
    && s.run.status == Reviewing && s.run.repairIterations == 0 && s.run.maxRepairIterations == cfg.maxRepairIterations
    && Twins(s.candidates, c) && |s.candidates| == cfg.candidateCount
    && c.status == C.Validated && c.IsViable() && c.verdict == None
  }

  ghost predicate ReviewQueued(s: State) {
    exists k :: 0 <= k < |s.jobs| && s.jobs[k].status == J.Queued && s.jobs[k].kind == J.ReviewCode && s.jobs[k].candidate == Some(0)
  }

  lemma ReviewIsDecided(cfg: Config, s: State, viable: seq<C.CandidateRecord>)
    requires s.run.status in {Coding, Validating} && !HasUnfinished(s.jobs)
    requires StageJobs(cfg, s.candidates, |s.jobs|) == [] && Settled(SettleAll(cfg, s.candidates)) != []
    requires viable == S.Viable(Settled(SettleAll(cfg, s.candidates))) && viable != []
    ensures var t := Step(cfg, s, Advance);
      && t.run == s.run.(status := Reviewing, reviewIterations := s.run.reviewIterations + 1)
      && t.candidates == SettleAll(cfg, s.candidates)
      && t.jobs == s.jobs + [OpenJob(cfg, |s.jobs|, J.ReviewCode, Some(Pick(viable).index), J.Normal)]
  {
    hide StageJobs, SettleAll, Settled, HasUnfinished, OpenJob, Pick, S.Viable;
  }

  lemma AlikeParts(cfg: Config, s: State, done: set<Stage>, c: C.CandidateRecord)
    requires AllAlike(cfg, s, done, c)
    ensures Inv(cfg, s) && Live(cfg, s) && NoneQueued(s.jobs) && s.run.status in {Coding, Validating} && Twins(s.candidates, c)
    ensures |s.candidates| == cfg.candidateCount && s.run.repairIterations == 0
    ensures s.run.maxRepairIterations == cfg.maxRepairIterations && c.verdict == None && c.repairIterations == 0
  {
  }

  lemma ReviewJobIsQueued(cfg: Config, s: State, t: State)
    requires t.jobs == s.jobs + [OpenJob(cfg, |s.jobs|, J.ReviewCode, Some(0), J.Normal)]
    ensures ReviewQueued(t)
  {
    var job := OpenJob(cfg, |s.jobs|, J.ReviewCode, Some(0), J.Normal);
    assert t.jobs[|s.jobs|] == job && job.status == J.Queued && job.kind == J.ReviewCode && job.candidate == Some(0);
  }

  lemma OpenReview(cfg: Config, s: State, c: C.CandidateRecord)
    requires cfg.Valid() && AllAlike(cfg, s, cfg.configured, c)
    ensures var t := Step(cfg, s, Advance);
      Inv(cfg, t) && Live(cfg, t) && FirstReview(cfg, t, Closed(cfg, c)) && ReviewQueued(t)
  {
    hide AllAlike, Step, StageJobs, SettleAll, Settled, HasUnfinished, NoneQueued, Inv, Live, Pick, S.Viable, OpenJob, ReviewQueued, Twins;
    AlikeParts(cfg, s, cfg.configured, c);
    AllSettleViable(cfg, s, c);
    NoneUnfinished(cfg, s);
    var all := SettleAll(cfg, s.candidates);
    TwinsPickFirst(all, Closed(cfg, c));
    ReviewIsDecided(cfg, s, all);
    StepKeepsInv(cfg, s, Advance);
    ReviewJobIsQueued(cfg, s, Step(cfg, s, Advance));
    StillLive(cfg, Step(cfg, s, Advance));
  }

  // ---- the review is spent, and candidate 0 repaired ----

  ghost predicate LateReview(s: State, k: nat) {
    Spent(s, k) && s.jobs[k].kind == J.ReviewCode && s.jobs[k].candidate == Some(0)
  }

  lemma SpendReview(cfg: Config, s: State, c: C.CandidateRecord) returns (events: seq<Event>, k: nat)
    requires cfg.Valid() && !cfg.retry.Within(cfg.jobMaxAttempts)
    requires Inv(cfg, s) && Live(cfg, s) && FirstReview(cfg, s, c) && ReviewQueued(s)
    ensures var t := Exec(cfg, s, events);
      Inv(cfg, t) && FirstReview(cfg, t, c) && NoneQueued(t.jobs) && LateReview(t, k)
  {
    hide Inv, Live, Exec;
    var exc := SomeExceptionInsists(cfg);
    events := KillAll(cfg, s, exc, 0);
    k :| 0 <= k < |s.jobs| && s.jobs[k].status == J.Queued && s.jobs[k].kind == J.ReviewCode && s.jobs[k].candidate == Some(0);
    var t := Exec(cfg, s, events);
    assert Spent(t, k);
  }

  /** Candidate 0 is back with the coder; the others stand settled and viable, if there are any. */
  ghost predicate Outclassed(cfg: Config, s: State, repairs: nat) {
    && |s.candidates| == cfg.candidateCount && |s.candidates| > 0
    && s.run.repairIterations == repairs && s.run.maxRepairIterations == cfg.maxRepairIterations
    && s.candidates[0].index == 0 && s.candidates[0].verdict == None && s.candidates[0].repairIterations == repairs
    && forall i :: 1 <= i < |s.candidates| ==>
         && s.candidates[i].index == i && s.candidates[i].status == C.Validated
         && s.candidates[i].IsViable() && s.candidates[i].verdict == None
  }

  lemma NobodyJudged(candidates: seq<C.CandidateRecord>, v: C.Verdict)
    requires forall i :: 0 <= i < |candidates| ==> candidates[i].verdict == None
    ensures WithVerdict(candidates, v) == []
  {
    var list := WithVerdict(candidates, v);
    assert forall c :: c in list ==> c in candidates && c.verdict == Some(v);
    if list != [] {
      HeadIsMember(list);
    }
  }

  lemma RepairAfterSilence(cfg: Config, s: State)
    requires s.run.status == Reviewing && s.run.CanRepair() && !HasUnfinished(s.jobs) && s.candidates != []
    requires forall i :: 0 <= i < |s.candidates| ==> s.candidates[i].verdict == None
    requires s.candidates[0].index == 0 && !s.candidates[0].status.IsTerminal()
    ensures var t := Step(cfg, s, Advance);
      && t.run == s.run.(status := Coding, repairIterations := s.run.repairIterations + 1)
      && t.candidates == s.candidates[0 := C.StartRepair(s.candidates[0]).value]
      && t.jobs == s.jobs + [OpenJob(cfg, |s.jobs|, J.Code, Some(0), J.High)]
  {
    NobodyJudged(s.candidates, C.Pass);
    NobodyJudged(s.candidates, C.Fail);
    hide WithVerdict, HasUnfinished, OpenJob;
  }

  lemma RepairFirst(cfg: Config, s: State, c: C.CandidateRecord)
    requires cfg.Valid() && Inv(cfg, s) && FirstReview(cfg, s, c) && NoneQueued(s.jobs) && cfg.maxRepairIterations >= 1
    requires c.repairIterations == 0
    ensures var t := Step(cfg, s, Advance);
      && Inv(cfg, t) && Live(cfg, t) && SpentStay(s, t) && Outclassed(cfg, t, 1) && t.run.status == Coding
      && t.candidates[0].status == C.Coding && t.candidates[0].validation.results == [] && Named(t.jobs, 0)
  {
    hide Step, HasUnfinished, NoneQueued, Inv, Live, OpenJob;
    NoneUnfinished(cfg, s);
    RepairAfterSilence(cfg, s);
    StepKeepsInv(cfg, s, Advance);
    DecisionsLeaveSpent(cfg, s);
    CodeJobIsNamed(cfg, s.jobs, 0);
    StillLive(cfg, Step(cfg, s, Advance));
  }

  // ---- candidate 0 comes back with nothing ----

  /** Candidate 0 has code again, of this kind, and no result yet. */
  ghost predicate CodedAgain(s: State, patch: C.Patch) {
    && |s.candidates| > 0 && s.candidates[0].status == C.Validating
    && s.candidates[0].validation.results == [] && s.candidates[0].patch == Some(patch)
  }

  lemma CodeAgain(cfg: Config, s: State, patch: C.Patch) returns (events: seq<Event>)
    requires cfg.Valid() && Inv(cfg, s) && Live(cfg, s) && Outclassed(cfg, s, 1) && s.run.status == Coding
    requires s.candidates[0].status == C.Coding && s.candidates[0].validation.results == [] && Named(s.jobs, 0)
    ensures var t := Exec(cfg, s, events);
      && Inv(cfg, t) && NoneQueued(t.jobs) && SpentStay(s, t) && Outclassed(cfg, t, 1) && t.run == s.run
      && CodedAgain(t, patch)
  {
    hide Inv, Exec, Live, NoneQueued, SpentStay;
    var work := Answered(patch, 0, C.Fail);
    events := AnswerAll(cfg, s, work, 0);
    FirstWasCoded(cfg, s, Exec(cfg, s, events), work);
  }

  lemma FirstWasCoded(cfg: Config, s: State, t: State, work: Work)
    requires work.Answered? && Live(cfg, s) && Outclassed(cfg, s, 1) && s.run.status == Coding && AllAnswered(cfg, s, t, work)
    requires s.candidates[0].status == C.Coding && s.candidates[0].validation.results == [] && Named(s.jobs, 0)
    ensures Inv(cfg, t) && NoneQueued(t.jobs) && SpentStay(s, t) && t.run == s.run
    ensures Outclassed(cfg, t, 1) && CodedAgain(t, work.patch)
  {
    var k :| 0 <= k < |s.jobs| && s.jobs[k].status == J.Queued && s.jobs[k].candidate == Some(0);
    assert Fits(cfg, s, s.jobs[k]);
    assert s.jobs[k].kind == J.Code;
    forall i | 1 <= i < |s.candidates|
      ensures t.candidates[i] == s.candidates[i]
    {
      OnlyCodersAreNamed(cfg, s, i);
    }
    hide Inv, Live, SpentStay, NoneQueued, Fits;
  }

  /** Candidate 0 has nothing left to validate and nothing to show. */
  ghost predicate Hopeless(cfg: Config, s: State) {
    && |s.candidates| > 0 && s.candidates[0].status == C.Validating && !AwaitsStage(cfg, s.candidates[0]) && !s.candidates[0].HasPatch()
  }

  lemma OnlyValidatingAreNamed(cfg: Config, s: State, i: nat)
    requires JobsFit(cfg, s) && s.run.status == Validating && i < |s.candidates| && s.candidates[i].status != C.Validating
    ensures !Named(s.jobs, i)
  {
    forall l | 0 <= l < |s.jobs| && s.jobs[l].status == J.Queued
      ensures s.jobs[l].candidate != Some(i)
    {
      assert Fits(cfg, s, s.jobs[l]);
    }
  }

  lemma OpenForFirst(cfg: Config, s: State, stage: Stage)
    requires cfg.Valid() && Inv(cfg, s) && NoneQueued(s.jobs) && s.run.status == Coding && Outclassed(cfg, s, 1)
    requires CodedAgain(s, C.Patch(true, 0)) && FirstUndone(cfg.configured, {}) == Some(stage)
    ensures var u := Step(cfg, s, Advance);
      && Inv(cfg, u) && Live(cfg, u) && SpentStay(s, u) && u.candidates == s.candidates
      && u.run == s.run.(status := Validating) && StageQueued(u.jobs, 0, stage)
  {
    hide Inv, Live, Step, StageJobs, NoneQueued, SpentStay, StageQueued, Publish;
    StillLive(cfg, s);
    FirstAwaits(cfg, s, stage);
    DecisionsLeaveSpent(cfg, s);
    StagesOpen(cfg, s);
    StageIsQueued(cfg, s, 0, stage);
    StillLive(cfg, Step(cfg, s, Advance));
  }

  lemma FirstAwaits(cfg: Config, s: State, stage: Stage)
    requires Outclassed(cfg, s, 1) && CodedAgain(s, C.Patch(true, 0)) && FirstUndone(cfg.configured, {}) == Some(stage)
    ensures AwaitsStage(cfg, s.candidates[0]) && C.NextStage(cfg.configured, s.candidates[0].validation) == Some(stage)
    ensures SettleAll(cfg, s.candidates) == s.candidates
  {
    FirstStageNext(cfg, s.candidates[0].validation, stage);
    var all := SettleAll(cfg, s.candidates);
    assert forall i :: 0 <= i < |all| ==> all[i] == s.candidates[i];
  }

  lemma FirstStageNext(cfg: Config, v: C.ValidationReport, stage: Stage)
    requires v.results == [] && FirstUndone(cfg.configured, {}) == Some(stage)
    ensures C.NextStage(cfg.configured, v) == Some(stage)
  {
    assert v.Passed(Build) == None && v.Passed(Test) == None && v.Passed(StaticAnalysis) == None;
  }

  lemma FailFirst(cfg: Config, s: State) returns (events: seq<Event>)
    requires cfg.Valid() && Inv(cfg, s) && NoneQueued(s.jobs) && s.run.status == Coding && Outclassed(cfg, s, 1)
    requires CodedAgain(s, C.Patch(true, 0)) && cfg.configured <= cfg.available
    ensures var t := Exec(cfg, s, events);
      && Inv(cfg, t) && NoneQueued(t.jobs) && SpentStay(s, t) && Outclassed(cfg, t, 1) && Hopeless(cfg, t)
      && t.run == s.run.(status := if cfg.configured == {} then Coding else Validating)
  {
    hide *;
    if cfg.configured == {} {
      events := [];
      ExecNone(cfg, s);
      NothingToRun(cfg, s);
    } else {
      SomeFirstStage(cfg);
      var stage := FirstUndone(cfg.configured, {}).value;
      OpenForFirst(cfg, s, stage);
      var u := Step(cfg, s, Advance);
      var work := Answered(C.Patch(true, 0), 1, C.Fail);
      var rest := AnswerAll(cfg, u, work, 0);
      events := [Advance] + rest;
      ExecFirst(cfg, s, Advance, rest);
      FirstHasFailed(cfg, s, u, Exec(cfg, u, rest), stage, work);
    }
  }

  lemma NothingToRun(cfg: Config, s: State)
    requires cfg.configured == {} && CodedAgain(s, C.Patch(true, 0))
    ensures Hopeless(cfg, s) && SpentStay(s, s)
  {
  }

  lemma FirstHasFailed(cfg: Config, s: State, u: State, t: State, stage: Stage, work: Work)
    requires Outclassed(cfg, s, 1) && CodedAgain(s, C.Patch(true, 0)) && FirstUndone(cfg.configured, {}) == Some(stage)
    requires stage in cfg.available && work.Answered? && work.exitCode == 1
    requires Live(cfg, u) && SpentStay(s, u) && u.candidates == s.candidates && u.run == s.run.(status := Validating)
    requires StageQueued(u.jobs, 0, stage) && AllAnswered(cfg, u, t, work)
    ensures SpentStay(s, t) && Outclassed(cfg, t, 1) && Hopeless(cfg, t) && NoneQueued(t.jobs) && Inv(cfg, t)
    ensures t.run == s.run.(status := Validating)
  {
    SpentStayBoth(s, u, t);
    StageWasAnswered(cfg, u, t, 0, stage, work);
    FailedFirstStage(cfg, s.candidates[0], stage);
    OthersUntouched(cfg, u, t, work);
    hide Inv, Live, SpentStay, NoneQueued, StageQueued;
  }

  lemma OthersUntouched(cfg: Config, u: State, t: State, work: Work)
    requires work.Answered? && Live(cfg, u) && u.run.status == Validating && AllAnswered(cfg, u, t, work)
    requires forall i :: 1 <= i < |u.candidates| ==> u.candidates[i].status == C.Validated
    ensures forall i :: 1 <= i < |u.candidates| ==> t.candidates[i] == u.candidates[i]
  {
    forall i | 1 <= i < |u.candidates|
      ensures t.candidates[i] == u.candidates[i]
    {
      OnlyValidatingAreNamed(cfg, u, i);
    }
  }

  /** The common beginning: candidate 0 was reviewed by a job that is spent and
      still on offer, was repaired because nobody answered, and has come back
      with nothing, while the others stand. */
  ghost predicate Prepared(cfg: Config, s: State, k: nat) {
    && Inv(cfg, s) && NoneQueued(s.jobs) && Tracked(cfg, s) && Steady(cfg, s) && LateReview(s, k) && Outclassed(cfg, s, 1) && Hopeless(cfg, s)
    && s.run.status == if cfg.configured == {} then Coding else Validating
  }

  lemma ReachFirstReview(cfg: Config) returns (events: seq<Event>, c: C.CandidateRecord)
    requires cfg.Valid() && cfg.configured <= cfg.available
    ensures var s := Exec(cfg, Init(cfg), events);
      Inv(cfg, s) && Live(cfg, s) && FirstReview(cfg, s, c) && ReviewQueued(s) && c.repairIterations == 0
  {
    hide *;
    var patch := C.Patch(false, 0);
    var a := ReachAllCoded(cfg, patch);
    var s := Exec(cfg, Init(cfg), a);
    var c0 := CodedAlike(cfg, s, patch);
    var b, d := PassAll(cfg, s, {}, c0);
    var u := Exec(cfg, s, b);
    AlikeParts(cfg, u, cfg.configured, d);
    OpenReview(cfg, u, d);
    events := (a + b) + [Advance];
    ExecConcat(cfg, Init(cfg), a, b);
    ExecConcat(cfg, Init(cfg), a + b, [Advance]);
    ExecOne(cfg, u, Advance);
    c := Closed(cfg, d);
    ClosingKeepsCount(cfg, d);
  }

  lemma ClosingKeepsCount(cfg: Config, c: C.CandidateRecord)
    ensures Closed(cfg, c).repairIterations == c.repairIterations
  {
  }

  lemma CodedAlike(cfg: Config, s: State, patch: C.Patch) returns (c: C.CandidateRecord)
    requires cfg.Valid() && AllCoded(cfg, s, patch) && !patch.isEmpty
    ensures AllAlike(cfg, s, {}, c)
  {
    AllCodedIsUnpassed(cfg, s, patch);
    c := OpenCandidate(0).(patch := Some(patch), status := C.Validating);
  }

  lemma Prepare(cfg: Config) returns (events: seq<Event>, k: nat)
    requires cfg.Valid() && cfg.configured <= cfg.available && !cfg.retry.Within(cfg.jobMaxAttempts) && cfg.maxRepairIterations >= 1
    ensures Prepared(cfg, Exec(cfg, Init(cfg), events), k)
  {
    hide *;
    var a, c := ReachFirstReview(cfg);
    var s0 := Exec(cfg, Init(cfg), a);
    var b, review := SpendReview(cfg, s0, c);
    var s1 := Exec(cfg, s0, b);
    RepairFirst(cfg, s1, c);
    var s2 := Step(cfg, s1, Advance);
    var d := CodeAgain(cfg, s2, C.Patch(true, 0));
    var s3 := Exec(cfg, s2, d);
    var e := FailFirst(cfg, s3);
    var s4 := Exec(cfg, s3, e);
    ExecConcat(cfg, Init(cfg), a, b);
    ExecConcat(cfg, Init(cfg), a + b, [Advance]);
    ExecOne(cfg, s1, Advance);
    ExecConcat(cfg, Init(cfg), a + b + [Advance], d);
    ExecConcat(cfg, Init(cfg), a + b + [Advance] + d, e);
    events, k := a + b + [Advance] + d + e, review;
    LateStays(s1, s2, k);
    LateStays(s2, s3, k);
    LateStays(s3, s4, k);
    TrackedAlways(cfg, events);
    ThusPrepared(cfg, s4, k);
  }

  lemma LateStays(s: State, t: State, k: nat)
    requires LateReview(s, k) && SpentStay(s, t)
    ensures LateReview(t, k)
  {
  }

  lemma ThusPrepared(cfg: Config, s: State, k: nat)
    requires Inv(cfg, s) && NoneQueued(s.jobs) && Tracked(cfg, s) && Steady(cfg, s)
    requires LateReview(s, k) && Outclassed(cfg, s, 1) && Hopeless(cfg, s)
    requires s.run.status == if cfg.configured == {} then Coding else Validating
    ensures Prepared(cfg, s, k)
  {
  }

  // ---- a handler that does not raise ----

  lemma HandlerRuns(cfg: Config, s: State, k: nat, work: Work, i: nat)
    requires cfg.Valid() && Tracked(cfg, s) && Running(s) && k in s.offered && work.Answered?
    requires s.jobs[k].candidate == Some(i) && i < |s.candidates|
    requires (s.jobs[k].kind == J.Code && s.candidates[i].status == C.Coding)
      || (s.jobs[k].kind.Validate? && s.candidates[i].status == C.Validating) || s.jobs[k].kind == J.ReviewCode
    ensures var t := Step(cfg, s, Execute(k, work));
      && OneRow(s, t, k) && t.jobs[k].status == J.Succeeded && t.offered == s.offered - {k}
      && Handled(cfg, s, t, s.jobs[k], work) && Tracked(cfg, t)
  {
    var s1 := Claim(s, k);
    assert Copies(cfg, s.offered[k], s.jobs[k]) && RowSound(cfg, s.jobs[k]);
    assert s1.jobs[k].HasLease(TOKEN, NOW);
    assert Dispatch(cfg, s1, k, work.patch, work.exitCode, work.verdict).Ok?;
    HandlerOutcome(cfg, s, k, work);
    hide Dispatch, Handled;
    ExecuteOutcome(cfg, s, k, work);
  }

  lemma LateVerdict(cfg: Config, s: State, k: nat)
    requires cfg.Valid() && Tracked(cfg, s) && Running(s) && NoneQueued(s.jobs) && LateReview(s, k) && |s.candidates| > 0
    ensures var t := Step(cfg, s, Execute(k, Answered(C.Patch(true, 0), 0, C.Pass)));
      && t.run == s.run && t.candidates == s.candidates[0 := C.RecordReview(s.candidates[0], C.Pass)]
      && NoneQueued(t.jobs) && Tracked(cfg, t)
  {
    HandlerRuns(cfg, s, k, Answered(C.Patch(true, 0), 0, C.Pass), 0);
    hide Step, Tracked;
  }

  // ---- several candidates: the late verdict selects the one with nothing ----

  lemma HopelessAwaitsNothing(cfg: Config, s: State)
    requires cfg.Valid() && Outclassed(cfg, s, 1) && Hopeless(cfg, s)
    ensures StageJobs(cfg, s.candidates, |s.jobs|) == []
    ensures var all := SettleAll(cfg, s.candidates);
      && |all| == |s.candidates| && all[0] == Closed(cfg, s.candidates[0]) && forall i :: 1 <= i < |all| ==> all[i] == s.candidates[i]
  {
    StageJobsShape(cfg, s.candidates, |s.jobs|);
    hide StageJobs, C.NextStage;
  }

  lemma SecondIsViable(all: seq<C.CandidateRecord>)
    requires |all| >= 2 && all[1].status == C.Validated && all[1].IsViable()
    ensures Settled(all) != [] && S.Viable(Settled(all)) != []
  {
    var second := all[1];
    assert second in all;
    assert second in Settled(all);
    assert second in S.Viable(Settled(all));
  }

  lemma HopelessSettles(cfg: Config, s: State)
    requires cfg.Valid() && Outclassed(cfg, s, 1) && Hopeless(cfg, s) && cfg.candidateCount >= 2
    ensures StageJobs(cfg, s.candidates, |s.jobs|) == []
    ensures var all := SettleAll(cfg, s.candidates);
      && Settled(all) != [] && S.Viable(Settled(all)) != []
      && |all| == |s.candidates| && all[0] == Closed(cfg, s.candidates[0]) && forall i :: 1 <= i < |all| ==> all[i] == s.candidates[i]
  {
    hide StageJobs, SettleAll, Settled, S.Viable, Hopeless;
    HopelessAwaitsNothing(cfg, s);
    SecondIsViable(SettleAll(cfg, s.candidates));
  }

  lemma ReviewAnother(cfg: Config, s: State, k: nat)
    requires cfg.Valid() && Prepared(cfg, s, k) && cfg.candidateCount >= 2
    ensures var t := Step(cfg, s, Advance);
      && Inv(cfg, t) && Live(cfg, t) && SpentStay(s, t) && t.run.status == Reviewing && |t.candidates| == |s.candidates|
      && t.candidates[0] == Closed(cfg, s.candidates[0]) && forall i :: 1 <= i < |t.candidates| ==> t.candidates[i] == s.candidates[i]
  {
    hide Inv, Live, Step, NoneQueued, HasUnfinished, StageJobs, SettleAll, Settled, SpentStay, Pick, OpenJob;
    NoneUnfinished(cfg, s);
    HopelessSettles(cfg, s);
    ReviewIsDecided(cfg, s, S.Viable(Settled(SettleAll(cfg, s.candidates))));
    StepKeepsInv(cfg, s, Advance);
    DecisionsLeaveSpent(cfg, s);
    StillLive(cfg, Step(cfg, s, Advance));
  }

  /** Candidate 0 alone is approved, and has no patch. */
  ghost predicate Undeserved(s: State) {
    && s.run.status == Reviewing && |s.candidates| > 0
    && (forall i :: 0 <= i < |s.candidates| ==> s.candidates[i].index == i && (Approved(s.candidates[i]) <==> i == 0))
    && s.candidates[0].status == C.Validated
  }

  lemma PicksFirst(s: State)
    requires Undeserved(s)
    ensures var passed := WithVerdict(s.candidates, C.Pass); passed != [] && Pick(passed).index == 0
  {
    var passed := WithVerdict(s.candidates, C.Pass);
    VerdictsAreOwn(s.candidates, C.Pass);
    assert Approved(s.candidates[0]);
    assert passed != [];
    PickIsMember(passed);
    hide Pick, WithVerdict;
  }

  lemma CompletingFirst(s: State)
    requires s.run.status == Reviewing && |s.candidates| > 0 && s.candidates[0].index == 0 && s.candidates[0].status == C.Validated
    ensures CompleteWith(s, 0).Ok?
    ensures var t := CompleteWith(s, 0).value;
      && t.run.status == Completed && t.run.selected == Some(0) && |t.candidates| == |s.candidates|
      && t.candidates[0] == s.candidates[0].(status := C.Selected)
  {
  }

  lemma CompletesWithFirst(cfg: Config, s: State)
    requires Undeserved(s) && !HasUnfinished(s.jobs)
    ensures var t := Step(cfg, s, Advance);
      && t.run.status == Completed && t.run.selected == Some(0) && |t.candidates| == |s.candidates|
      && t.candidates[0] == s.candidates[0].(status := C.Selected)
  {
    hide Pick, WithVerdict, HasUnfinished, CompleteWith;
    PicksFirst(s);
    CompletingFirst(s);
  }

  lemma NoPatchIsUnearned(cfg: Config, s: State)
    requires s.run.selected == Some(0) && |s.candidates| > 0 && !s.candidates[0].HasPatch()
    ensures !Earned(cfg, s)
  {
  }

  lemma FirstIsUndeserved(cfg: Config, s: State, t: State, u: State)
    requires Outclassed(cfg, s, 1) && |t.candidates| == |s.candidates| && t.run.status == Reviewing
    requires t.candidates[0] == Closed(cfg, s.candidates[0])
    requires forall i :: 1 <= i < |t.candidates| ==> t.candidates[i] == s.candidates[i]
    requires u.run == t.run && u.candidates == t.candidates[0 := C.RecordReview(t.candidates[0], C.Pass)]
    ensures Undeserved(u) && u.candidates[0].patch == s.candidates[0].patch
  {
  }

  /** Two candidates or more and a repair: candidate 0 wins with an empty patch. */
  lemma UnearnedAmongMany(cfg: Config) returns (events: seq<Event>)
    requires cfg.Valid() && cfg.configured <= cfg.available && !cfg.retry.Within(cfg.jobMaxAttempts)
    requires cfg.maxRepairIterations >= 1 && cfg.candidateCount >= 2
    ensures var s := Exec(cfg, Init(cfg), events); s.run.status == Completed && !Earned(cfg, s)
  {
    var a, k := Prepare(cfg);
    var s := Exec(cfg, Init(cfg), a);
    assert Outclassed(cfg, s, 1) && LateReview(s, k) && !s.candidates[0].HasPatch() && Tracked(cfg, s) && Steady(cfg, s);
    hide *;
    ReviewAnother(cfg, s, k);
    var t := Step(cfg, s, Advance);
    var exc := SomeExceptionInsists(cfg);
    var b := KillAll(cfg, t, exc, 0);
    var u := Exec(cfg, t, b);
    SpentParts(t, u);
    LateStays(s, t, k);
    LateStays(t, u, k);
    StepKeepsTracked(cfg, s, Advance);
    ExecKeepsTracked(cfg, t, b);
    ReviewingRuns(u);
    LateVerdict(cfg, u, k);
    var e := Execute(k, Answered(C.Patch(true, 0), 0, C.Pass));
    var v := Step(cfg, u, e);
    FirstIsUndeserved(cfg, s, t, v);
    NoneQueuedIsFinished(cfg, v);
    CompletesWithFirst(cfg, v);
    var w := Step(cfg, v, Advance);
    SamePatch(s.candidates[0], w.candidates[0]);
    NoPatchIsUnearned(cfg, w);
    events := a + ([Advance] + b + [e] + [Advance]);
    ExecFirst(cfg, s, Advance, b);
    ExecConcat(cfg, s, [Advance] + b, [e]);
    ExecOne(cfg, u, e);
    ExecConcat(cfg, s, [Advance] + b + [e], [Advance]);
    ExecOne(cfg, v, Advance);
    ExecConcat(cfg, Init(cfg), a, [Advance] + b + [e] + [Advance]);
  }

  lemma SpentParts(s: State, t: State)
    requires AllSpent(s, t)
    ensures t.run == s.run && t.candidates == s.candidates && NoneQueued(t.jobs) && SpentStay(s, t)
  {
  }

  lemma ReviewingRuns(s: State)
    requires s.run.status == Reviewing
    ensures Running(s)
  {
  }

  lemma SamePatch(c: C.CandidateRecord, d: C.CandidateRecord)
    requires d.patch == c.patch && !c.HasPatch()
    ensures !d.HasPatch()
  {
  }

  // ---- one candidate: the late verdict outlives a second repair ----

  /** The only candidate, and nothing queued. */
  ghost predicate Solo(cfg: Config, s: State, c: C.CandidateRecord) {
    && Tracked(cfg, s) && Steady(cfg, s) && NoneQueued(s.jobs)
    && s.candidates == [c] && c.index == 0
  }

  /** The only candidate, and its one queued job at the end of the list. */
  ghost predicate SoloWith(cfg: Config, s: State, c: C.CandidateRecord, kind: J.JobType) {
    && Tracked(cfg, s) && Steady(cfg, s) && s.candidates == [c] && c.index == 0
    && |s.jobs| > 0 && NoneQueued(s.jobs[..|s.jobs| - 1])
    && var j := s.jobs[|s.jobs| - 1];
       j.status == J.Queued && j.kind == kind && j.candidate == Some(0) && j.attempt == 0
  }

  lemma SoloOpened(cfg: Config, s: State, c: C.CandidateRecord, d: C.CandidateRecord, kind: J.JobType, priority: J.Priority)
    requires cfg.Valid() && Solo(cfg, s, c) && d.index == 0
    requires var t := Step(cfg, s, Advance);
      t.candidates == [d] && t.jobs == s.jobs + [OpenJob(cfg, |s.jobs|, kind, Some(0), priority)]
    ensures SoloWith(cfg, Step(cfg, s, Advance), d, kind)
  {
    var t := Step(cfg, s, Advance);
    hide Step, Tracked, Steady;
    StepKeepsTracked(cfg, s, Advance);
    assert t.jobs[..|t.jobs| - 1] == s.jobs;
  }

  /** The queued job is answered. */
  lemma SoloAnswered(cfg: Config, s: State, c: C.CandidateRecord, kind: J.JobType, work: Work) returns (e: Event)
    requires cfg.Valid() && SoloWith(cfg, s, c, kind) && Running(s) && work.Answered?
    requires (kind == J.Code && c.status == C.Coding) || (kind.Validate? && c.status == C.Validating)
    ensures var t := Step(cfg, s, e);
      var d := if kind == J.Code then c.(patch := Some(work.patch), status := C.Validating)
               else if kind.stage in cfg.available then WithResult(c, kind.stage, work.exitCode) else c;
      t.run == s.run && Solo(cfg, t, d)
  {
    var k := |s.jobs| - 1;
    e := Execute(k, work);
    assert k in s.offered;
    HandlerRuns(cfg, s, k, work, 0);
    StepKeepsTracked(cfg, s, e);
    var t := Step(cfg, s, e);
    hide Step, Tracked, Steady;
    forall l | 0 <= l < |t.jobs|
      ensures t.jobs[l].status != J.Queued
    {
      assert l < k ==> t.jobs[l] == s.jobs[..k][l];
    }
  }

  lemma SoloStageOpens(cfg: Config, s: State, c: C.CandidateRecord, stage: Stage)
    requires cfg.Valid() && Solo(cfg, s, c) && s.run.status in {Coding, Validating}
    requires c.status == C.Validating && C.NextStage(cfg.configured, c.validation) == Some(stage)
    ensures var t := Step(cfg, s, Advance);
      SoloWith(cfg, t, c, J.Validate(stage)) && t.run == s.run.(status := Validating)
  {
    NoneQueuedIsFinished(cfg, s);
    var job := OpenJob(cfg, |s.jobs|, J.Validate(stage), Some(0), J.High);
    OneStageJob(cfg, c, |s.jobs|, stage);
    assert SettleAll(cfg, [c]) == [c];
    hide Tracked, Steady, NoneQueued, HasUnfinished, Step, StageJobs, SettleAll, OpenJob, Solo;
    StagesAreDecided(cfg, s);
    SoloOpened(cfg, s, c, c, J.Validate(stage), J.High);
  }

  lemma OneStageJob(cfg: Config, c: C.CandidateRecord, base: nat, stage: Stage)
    requires AwaitsStage(cfg, c) && C.NextStage(cfg.configured, c.validation) == Some(stage) && c.index == 0
    ensures StageJobs(cfg, [c], base) == [OpenJob(cfg, base, J.Validate(stage), Some(0), J.High)]
  {
    hide OpenJob;
    assert [c][..0] == [];
    assert StageJobs(cfg, [], base) == [];
  }

  ghost predicate HasPassed(c: C.CandidateRecord, done: set<Stage>) {
    forall stage: Stage :: c.validation.Passed(stage) == if stage in done then Some(true) else None
  }

  lemma PassedNext(cfg: Config, c: C.CandidateRecord, done: set<Stage>)
    requires HasPassed(c, done)
    ensures C.NextStage(cfg.configured, c.validation) == FirstUndone(cfg.configured, done)
  {
    var v := c.validation;
    assert v.Passed(Build) == if Build in done then Some(true) else None;
    assert v.Passed(Test) == if Test in done then Some(true) else None;
    assert v.Passed(StaticAnalysis) == if StaticAnalysis in done then Some(true) else None;
  }

  lemma PassedMore(c: C.CandidateRecord, done: set<Stage>, stage: Stage)
    requires HasPassed(c, done) && stage !in done
    ensures HasPassed(WithResult(c, stage, 0), done + {stage})
  {
    forall other: Stage
      ensures WithResult(c, stage, 0).validation.Passed(other) == if other in done + {stage} then Some(true) else None
    {
      PassedExtends(c, stage, C.ToolResult(stage, 0, c.repairIterations), other);
    }
  }

  /** It passes every command. */
  lemma {:induction false} SoloPasses(cfg: Config, s: State, c: C.CandidateRecord, done: set<Stage>)
    returns (events: seq<Event>, d: C.CandidateRecord)
    requires cfg.Valid() && cfg.configured <= cfg.available && done <= cfg.configured
    requires Solo(cfg, s, c) && s.run.status in {Coding, Validating} && c.status == C.Validating && HasPassed(c, done)
    ensures var t := Exec(cfg, s, events);
      && Solo(cfg, t, d) && d == c.(validation := d.validation) && HasPassed(d, cfg.configured)
      && t.run == s.run.(status := t.run.status) && t.run.status in {Coding, Validating}
    decreases cfg.configured - done
  {
    PassedNext(cfg, c, done);
    var next := FirstUndone(cfg.configured, done);
    if next.None? {
      AllDone(cfg.configured, done);
      ExecNone(cfg, s);
      return [], c;
    }
    var stage := next.value;
    hide Solo, SoloWith, Step, Exec, HasPassed;
    SoloStageOpens(cfg, s, c, stage);
    var u := Step(cfg, s, Advance);
    var e := SoloAnswered(cfg, u, c, J.Validate(stage), Answered(C.Patch(true, 0), 0, C.Fail));
    var v := Step(cfg, u, e);
    PassedMore(c, done, stage);
    var rest;
    rest, d := SoloPasses(cfg, v, WithResult(c, stage, 0), done + {stage});
    events := [Advance] + ([e] + rest);
    ExecFirst(cfg, u, e, rest);
    ExecFirst(cfg, s, Advance, [e] + rest);
  }

  lemma OneSettlesViable(cfg: Config, c: C.CandidateRecord, base: nat)
    requires c.status == C.Validating && HasPassed(c, cfg.configured) && c.HasPatch() && c.index == 0
    ensures StageJobs(cfg, [c], base) == [] && SettleAll(cfg, [c]) == [Closed(cfg, c)]
    ensures Settled([Closed(cfg, c)]) == [Closed(cfg, c)] && S.Viable([Closed(cfg, c)]) == [Closed(cfg, c)]
    ensures Pick([Closed(cfg, c)]).index == 0
  {
    PassedIsViable(cfg, c);
    var d := Closed(cfg, c);
    assert d == C.RecordValidation(c.(status := C.Validating), cfg.staticAnalysisIsBlocking).value;
    NoStageForOne(cfg, c, base);
    hide StageJobs, HasPassed, C.NextStage;
    FilterAll([d], (c: C.CandidateRecord) => c.status == C.Validated);
    FilterAll([d], (c: C.CandidateRecord) => c.IsViable());
    assert Twins([d], d);
    TwinsPickFirst([d], d);
  }

  lemma SoloReviewOpens(cfg: Config, s: State, c: C.CandidateRecord)
    requires cfg.Valid() && Solo(cfg, s, c) && s.run.status in {Coding, Validating} && c.status == C.Validating
    requires HasPassed(c, cfg.configured) && c.HasPatch()
    ensures var t := Step(cfg, s, Advance);
      SoloWith(cfg, t, Closed(cfg, c), J.ReviewCode) && t.run.status == Reviewing && t.run.repairIterations == s.run.repairIterations
  {
    hide Tracked, Steady, NoneQueued, HasUnfinished, Step, StageJobs, SettleAll, OpenJob, Settled, S.Viable, Pick, HasPassed;
    NoneQueuedIsFinished(cfg, s);
    OneSettlesViable(cfg, c, |s.jobs|);
    ReviewIsDecided(cfg, s, [Closed(cfg, c)]);
    SoloOpened(cfg, s, c, Closed(cfg, c), J.ReviewCode, J.Normal);
  }

  lemma NoStageForOne(cfg: Config, c: C.CandidateRecord, base: nat)
    requires !AwaitsStage(cfg, c)
    ensures StageJobs(cfg, [c], base) == []
  {
    assert [c][..0] == [];
    assert StageJobs(cfg, [], base) == [];
  }

  /** One more failed attempt at the queued job. */
  lemma SoloFails(cfg: Config, s: State, k: nat, exc: Exception)
    requires cfg.Valid() && Tracked(cfg, s) && Steady(cfg, s) && Running(s) && Insists(cfg, exc)
    requires k < |s.jobs| && s.jobs[k].status == J.Queued && s.jobs[k].attempt < cfg.jobMaxAttempts
    ensures var t := Step(cfg, s, Execute(k, Threw(exc)));
      && Tracked(cfg, t) && Steady(cfg, t) && t.run == s.run && t.candidates == s.candidates
      && |t.jobs| == |s.jobs| && t.jobs == s.jobs[k := t.jobs[k]] && t.jobs[k].attempt == s.jobs[k].attempt + 1
      && (t.jobs[k].status == J.Queued <==> s.jobs[k].attempt + 1 < cfg.jobMaxAttempts)
  {
    assert k in s.offered && Copies(cfg, s.offered[k], s.jobs[k]) && RowSound(cfg, s.jobs[k]);
    StepKeepsTracked(cfg, s, Execute(k, Threw(exc)));
    RedeliverOnce(cfg, s, k, exc);
    ExecuteOutcome(cfg, s, k, Threw(exc));
    RetriedRow(cfg, s, k, exc);
    hide Tracked, Steady, HandleFailure;
  }

  lemma RetriedRow(cfg: Config, s: State, k: nat, exc: Exception)
    requires cfg.Valid() && Running(s) && Insists(cfg, exc) && k < |s.jobs| && k in s.offered
    requires Copies(cfg, s.offered[k], s.jobs[k]) && RowSound(cfg, s.jobs[k]) && s.jobs[k].attempt < cfg.jobMaxAttempts
    ensures var t := HandleFailure(cfg, Claim(s, k), k, Classify(exc));
      t.jobs[k].status == J.Queued <==> s.jobs[k].attempt + 1 < cfg.jobMaxAttempts
  {
  }

  lemma {:induction false} SoloSpends(cfg: Config, s: State, k: nat, exc: Exception) returns (events: seq<Event>)
    requires cfg.Valid() && Tracked(cfg, s) && Steady(cfg, s) && Running(s) && Insists(cfg, exc)
    requires |s.jobs| == k + 1 && s.jobs[k].status == J.Queued && s.jobs[k].attempt < cfg.jobMaxAttempts && NoneQueued(s.jobs[..k])
    ensures var t := Exec(cfg, s, events);
      Tracked(cfg, t) && Steady(cfg, t) && t.run == s.run && t.candidates == s.candidates && NoneQueued(t.jobs)
    decreases cfg.jobMaxAttempts - s.jobs[k].attempt
  {
    hide Tracked, Steady, Step, Insists;
    SoloFails(cfg, s, k, exc);
    var e := Execute(k, Threw(exc));
    var u := Step(cfg, s, e);
    assert u.jobs[..k] == s.jobs[..k];
    if u.jobs[k].status == J.Queued {
      var rest := SoloSpends(cfg, u, k, exc);
      events := [e] + rest;
      ExecFirst(cfg, s, e, rest);
    } else {
      events := [e];
      ExecOne(cfg, s, e);
      forall l | 0 <= l < |u.jobs|
        ensures u.jobs[l].status != J.Queued
      {
        assert l < k ==> u.jobs[l] == u.jobs[..k][l];
      }
    }
  }

  /** The only candidate has nothing to show and is sent back. */
  lemma SoloSentBack(cfg: Config, s: State, c: C.CandidateRecord)
    requires cfg.Valid() && Solo(cfg, s, c) && s.run.status == Validating && s.run.CanRepair()
    requires c.status == C.Validating && !AwaitsStage(cfg, c) && !c.HasPatch()
    ensures var t := Step(cfg, s, Advance);
      && SoloWith(cfg, t, C.StartRepair(Closed(cfg, c)).value, J.Code)
      && t.run == s.run.(status := Coding, repairIterations := s.run.repairIterations + 1)
  {
    NoneQueuedIsFinished(cfg, s);
    assert NothingToReview(cfg, s);
    NothingToReviewDecides(cfg, s);
    var u := s.(candidates := SettleAll(cfg, s.candidates));
    assert u.candidates == [Closed(cfg, c)];
    hide Tracked, Steady, NoneQueued, HasUnfinished, Step, StageJobs, SettleAll, OpenJob, Solo, Settled, S.Viable, NothingToReview;
    RepairIsTaken(cfg, s, u, 0);
    SoloOpened(cfg, s, c, C.StartRepair(Closed(cfg, c)).value, J.Code, J.High);
  }

  /** From the repaired code on: it is coded, passes, and its review is spent. */
  lemma SoloSecondRound(cfg: Config, s: State, c: C.CandidateRecord) returns (events: seq<Event>, d: C.CandidateRecord)
    requires cfg.Valid() && cfg.configured <= cfg.available && !cfg.retry.Within(cfg.jobMaxAttempts)
    requires SoloWith(cfg, s, c, J.Code) && s.run.status == Coding && c.status == C.Coding && c.validation.results == []
    ensures var t := Exec(cfg, s, events);
      && Solo(cfg, t, d) && t.run.status == Reviewing && d.status == C.Validated
      && d.verdict == c.verdict && d.reviewedRepair == c.reviewedRepair && d.repairIterations == c.repairIterations
  {
    var patch := C.Patch(false, 0);
    var coded := c.(patch := Some(patch), status := C.Validating);
    NothingPassed(coded);
    CodingRuns(s);
    hide Solo, SoloWith, Step, Exec, HasPassed, Insists;
    var a := SoloAnswered(cfg, s, c, J.Code, Answered(patch, 0, C.Fail));
    var u := Step(cfg, s, a);
    var b, passed := SoloPasses(cfg, u, coded, {});
    var v := Exec(cfg, u, b);
    SoloReviewOpens(cfg, v, passed);
    var w := Step(cfg, v, Advance);
    d := Closed(cfg, passed);
    var exc := SomeExceptionInsists(cfg);
    var e := SoloReviewSpent(cfg, w, d, exc);
    events := [a] + (b + ([Advance] + e));
    ExecFirst(cfg, v, Advance, e);
    ExecConcat(cfg, u, b, [Advance] + e);
    ExecFirst(cfg, s, a, b + ([Advance] + e));
  }

  lemma NothingPassed(c: C.CandidateRecord)
    requires c.validation.results == []
    ensures HasPassed(c, {})
  {
  }

  lemma CodingRuns(s: State)
    requires s.run.status == Coding
    ensures Running(s)
  {
  }

  lemma SoloReviewSpent(cfg: Config, s: State, c: C.CandidateRecord, exc: Exception) returns (events: seq<Event>)
    requires cfg.Valid() && SoloWith(cfg, s, c, J.ReviewCode) && s.run.status == Reviewing && Insists(cfg, exc)
    ensures var t := Exec(cfg, s, events); Solo(cfg, t, c) && t.run == s.run
  {
    hide Tracked, Steady, Insists, Exec;
    ReviewingRuns(s);
    events := SoloSpends(cfg, s, |s.jobs| - 1, exc);
  }

  lemma StaleIsUnearned(cfg: Config, s: State)
    requires s.run.selected == Some(0) && |s.candidates| > 0 && s.candidates[0].reviewedRepair != s.candidates[0].repairIterations
    ensures !Earned(cfg, s)
  {
  }

  lemma PreparedSolo(cfg: Config, s: State, k: nat)
    requires Prepared(cfg, s, k) && cfg.candidateCount == 1
    ensures Solo(cfg, s, s.candidates[0]) && LateReview(s, k) && Running(s)
    ensures s.run.repairIterations == 1 && s.run.maxRepairIterations == cfg.maxRepairIterations
    ensures cfg.configured != {} ==> s.run.status == Validating
    ensures var c := s.candidates[0];
      c.status == C.Validating && !AwaitsStage(cfg, c) && !c.HasPatch() && c.repairIterations == 1
  {
  }

  lemma SoloVerdict(cfg: Config, s: State, k: nat, c: C.CandidateRecord) returns (e: Event)
    requires cfg.Valid() && Solo(cfg, s, c) && LateReview(s, k) && Running(s)
    ensures var t := Step(cfg, s, e); Solo(cfg, t, C.RecordReview(c, C.Pass)) && t.run == s.run
  {
    hide Step, Tracked, Steady;
    LateVerdict(cfg, s, k);
    e := Execute(k, Answered(C.Patch(true, 0), 0, C.Pass));
    StepKeepsTracked(cfg, s, e);
  }

  lemma SoloCompletes(cfg: Config, s: State, c: C.CandidateRecord)
    requires cfg.Valid() && Solo(cfg, s, c) && s.run.status == Reviewing && c.status == C.Validated && Approved(c)
    requires c.reviewedRepair != c.repairIterations
    ensures var t := Step(cfg, s, Advance); t.run.status == Completed && !Earned(cfg, t)
  {
    hide Step, Tracked, Steady, NoneQueued, HasUnfinished;
    NoneQueuedIsFinished(cfg, s);
    CompletesWithFirst(cfg, s);
    StaleIsUnearned(cfg, Step(cfg, s, Advance));
  }

  lemma StillHopeless(cfg: Config, c: C.CandidateRecord)
    requires c.status == C.Validating && !AwaitsStage(cfg, c) && !c.HasPatch() && c.repairIterations == 1
    ensures var d := C.RecordReview(c, C.Pass);
      && d.status == C.Validating && !AwaitsStage(cfg, d) && !d.HasPatch() && C.StartRepair(Closed(cfg, d)).Ok?
      && var r := C.StartRepair(Closed(cfg, d)).value;
         r.status == C.Coding && r.validation.results == [] && Approved(r) && r.reviewedRepair == 1 && r.repairIterations == 2
  {
  }

  /** One candidate, a command and two repairs: it wins on a verdict older than its latest repair. */
  lemma UnearnedAlone(cfg: Config) returns (events: seq<Event>)
    requires cfg.Valid() && cfg.configured <= cfg.available && !cfg.retry.Within(cfg.jobMaxAttempts)
    requires cfg.maxRepairIterations >= 2 && cfg.candidateCount == 1 && cfg.configured != {}
    ensures var s := Exec(cfg, Init(cfg), events); s.run.status == Completed && !Earned(cfg, s)
  {
    hide *;
    var a, k := Prepare(cfg);
    var s := Exec(cfg, Init(cfg), a);
    PreparedSolo(cfg, s, k);
    var c := s.candidates[0];
    var e := SoloVerdict(cfg, s, k, c);
    var t := Step(cfg, s, e);
    StillHopeless(cfg, c);
    MayRepair(t.run);
    SoloSentBack(cfg, t, C.RecordReview(c, C.Pass));
    var u := Step(cfg, t, Advance);
    var b, d := SoloSecondRound(cfg, u, C.StartRepair(Closed(cfg, C.RecordReview(c, C.Pass))).value);
    var v := Exec(cfg, u, b);
    SameVerdict(C.StartRepair(Closed(cfg, C.RecordReview(c, C.Pass))).value, d);
    SoloCompletes(cfg, v, d);
    events := a + ([e] + ([Advance] + (b + [Advance])));
    ExecOne(cfg, v, Advance);
    ExecConcat(cfg, u, b, [Advance]);
    ExecFirst(cfg, t, Advance, b + [Advance]);
    ExecFirst(cfg, s, e, [Advance] + (b + [Advance]));
    ExecConcat(cfg, Init(cfg), a, [e] + ([Advance] + (b + [Advance])));
  }

  lemma MayRepair(run: R.RunRecord)
    requires run.repairIterations < run.maxRepairIterations
    ensures run.CanRepair()
  {
  }

  lemma SameVerdict(c: C.CandidateRecord, d: C.CandidateRecord)
    requires Approved(c) && d.verdict == c.verdict
    ensures Approved(d)
  {
  }

  // ---- exactly ----

  ghost predicate EarnedAfter(cfg: Config, events: seq<Event>) {
    var s := Exec(cfg, Init(cfg), events);
    s.run.status == Completed ==> Earned(cfg, s)
  }

  /** Completion is earned in every history, jobs handed out again included, if
      and only if the policy's budgets stay within the job's own, or some
      configured command cannot report, or no repair is allowed, or there is one
      candidate with one repair or without commands. */
  lemma EarnedExactly(cfg: Config)
    requires cfg.Valid()
    ensures (forall events :: EarnedAfter(cfg, events)) <==> AlwaysEarned(cfg)
  {
    if AlwaysEarned(cfg) {
      forall events
        ensures EarnedAfter(cfg, events)
      {
        EarnedHolds(cfg, events);
        hide Exec, Init, Earned;
      }
    } else if cfg.candidateCount >= 2 {
      var events := UnearnedAmongMany(cfg);
      hide Exec, Init, Earned;
      assert !EarnedAfter(cfg, events);
    } else {
      var events := UnearnedAlone(cfg);
      hide Exec, Init, Earned;
      assert !EarnedAfter(cfg, events);
    }
  }
}
