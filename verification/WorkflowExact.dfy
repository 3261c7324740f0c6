/** When the loops of a run are bounded: the exact conditions on the configuration. */
module WorkflowExact {
  import opened Common
  import opened RunStateMachine
  import opened Failures
  import opened Workflow
  import opened WorkflowQueue
  import opened WorkflowSafety
  import opened WorkflowBounds
  import opened WorkflowScripts
  import C = Candidates
  import J = Jobs

  // ---- when work is not bounded ----

  /** A job for this stage can end without a result while the run goes on: its
      tool is missing, or it is retried beyond its budget. */
  ghost predicate Barren(cfg: Config, stage: Stage, missing: bool) {
    if missing then stage !in cfg.available else !cfg.retry.Within(cfg.jobMaxAttempts)
  }

  ghost predicate Looping(cfg: Config, s: State, missing: bool) {
    && (missing ==> s.offered == map[])
    && Inv(cfg, s) && Live(cfg, s) && NoneQueued(s.jobs) && s.run.status in {Coding, Validating}
    && (exists i :: 0 <= i < |s.candidates| && AwaitsStage(cfg, s.candidates[i]))
    && (forall i :: 0 <= i < |s.candidates| && AwaitsStage(cfg, s.candidates[i]) ==>
          Barren(cfg, C.NextStage(cfg.configured, s.candidates[i].validation).value, missing))
  }

  /** All queued stage jobs end without having changed a candidate. */
  lemma FinishBarren(cfg: Config, s: State, missing: bool) returns (events: seq<Event>)
    requires cfg.Valid() && Inv(cfg, s) && Live(cfg, s) && s.run.status == Validating
    requires forall k :: 0 <= k < |s.jobs| && s.jobs[k].status == J.Queued ==>
               s.jobs[k].kind.Validate? && Barren(cfg, s.jobs[k].kind.stage, missing)
    requires missing ==> Orderly(s)
    requires !missing ==> !cfg.retry.Within(cfg.jobMaxAttempts)
    ensures missing ==> Exec(cfg, s, events).offered == map[] && InLineRun(cfg, s, events)
    ensures var t := Exec(cfg, s, events);
            t.run == s.run && t.candidates == s.candidates && |t.jobs| == |s.jobs| && NoneQueued(t.jobs)
    ensures Inv(cfg, Exec(cfg, s, events))
  {
    hide Exec, Inv, Live, Orderly, InLineRun, SpentStay, NoneQueued;
    if !missing {
      var exc := SomeExceptionInsists(cfg);
      events := KillAll(cfg, s, exc, 0);
    } else {
      var work := Answered(C.Patch(true, 0), 0, C.Fail);
      events := AnswerAll(cfg, s, work, 0);
      var t := Exec(cfg, s, events);
      forall i | 0 <= i < |s.candidates|
        ensures t.candidates[i] == s.candidates[i]
      {
        if Named(s.jobs, i) {
          var k :| 0 <= k < |s.jobs| && s.jobs[k].status == J.Queued && s.jobs[k].candidate == Some(i);
          assert Effect(cfg, s.candidates[i], s.jobs[k].kind, work) == s.candidates[i];
        }
      }
    }
  }

  /** The decision that opens stage jobs, spelled out. */
  lemma StagesOpen(cfg: Config, s: State)
    requires cfg.Valid() && Inv(cfg, s) && Live(cfg, s) && NoneQueued(s.jobs)
    requires s.run.status in {Coding, Validating}
    requires exists i :: 0 <= i < |s.candidates| && AwaitsStage(cfg, s.candidates[i])
    ensures var t := Step(cfg, s, Advance);
            && t == Publish(s.(run := s.run.(status := Validating), candidates := SettleAll(cfg, s.candidates)),
                            StageJobs(cfg, s.candidates, |s.jobs|))
            && |t.jobs| > |s.jobs| && Inv(cfg, t)
  {
    UnfinishedMeansQueued(cfg, s.jobs);
    StageJobsShape(cfg, s.candidates, |s.jobs|);
    StepKeepsInv(cfg, s, Advance);
    hide Inv, Live, StageJobs, SettleAll, Publish, NoneQueued, HasUnfinished;
    StagesAreDecided(cfg, s);
  }

  lemma StagesAreDecided(cfg: Config, s: State)
    requires !HasUnfinished(s.jobs) && s.run.status in {Coding, Validating}
    requires StageJobs(cfg, s.candidates, |s.jobs|) != []
    ensures Step(cfg, s, Advance)
      == Publish(s.(run := s.run.(status := Validating), candidates := SettleAll(cfg, s.candidates)),
                 StageJobs(cfg, s.candidates, |s.jobs|))
  {
  }

  lemma QueuedAreStages(cfg: Config, s: State, t: State, k: nat)
    requires cfg.Valid() && Inv(cfg, s) && Live(cfg, s) && NoneQueued(s.jobs)
    requires t.jobs == s.jobs + StageJobs(cfg, s.candidates, |s.jobs|)
    requires s.run.status in {Coding, Validating}
    requires k < |t.jobs| && t.jobs[k].status == J.Queued
    ensures t.jobs[k].candidate.Some? && t.jobs[k].candidate.value < |s.candidates|
    ensures var c := s.candidates[t.jobs[k].candidate.value];
            AwaitsStage(cfg, c)
            && t.jobs[k].kind == J.Validate(C.NextStage(cfg.configured, c.validation).value)
  {
    StageJobsShape(cfg, s.candidates, |s.jobs|);
    if k < |s.jobs| {
      assert false;
    }
  }

  lemma StagesStandInLine(cfg: Config, s: State, candidates: seq<C.CandidateRecord>, base: nat)
    requires s.offered == map[]
    ensures Orderly(Publish(s, StageJobs(cfg, candidates, base)))
  {
    StageJobsAreHigh(cfg, candidates, base);
    hide StageJobs, Publish, Orderly;
    PublishedInOrder(s, StageJobs(cfg, candidates, base), J.High);
  }

  lemma {:induction false} StageJobsAreHigh(cfg: Config, candidates: seq<C.CandidateRecord>, base: nat)
    ensures AllNew(StageJobs(cfg, candidates, base), J.High)
  {
    if candidates != [] {
      var front, c := candidates[..|candidates| - 1], candidates[|candidates| - 1];
      StageJobsAreHigh(cfg, front, base);
      if AwaitsStage(cfg, c) {
        var before := StageJobs(cfg, front, base);
        var job := OpenJob(cfg, base + |before|, J.Validate(C.NextStage(cfg.configured, c.validation).value), Some(c.index), J.High);
        assert StageJobs(cfg, candidates, base) == before + [job];
        assert job.status == J.Queued && job.priority == J.High;
      }
    }
  }

  lemma LoopRound(cfg: Config, s: State, missing: bool) returns (events: seq<Event>)
    requires cfg.Valid() && Looping(cfg, s, missing)
    ensures var t := Exec(cfg, s, events);
            Looping(cfg, t, missing) && |t.jobs| > |s.jobs|
    ensures missing ==> InLineRun(cfg, s, events)
  {
    hide Inv, Live, Step, Exec, Publish, StageJobs, Orderly, NoneQueued, InLineRun;
    StagesOpen(cfg, s);
    var u := Step(cfg, s, Advance);
    assert !missing ==> !cfg.retry.Within(cfg.jobMaxAttempts);
    if missing {
      StagesStandInLine(cfg, s.(run := u.run, candidates := u.candidates), s.candidates, |s.jobs|);
    }
    forall k | 0 <= k < |u.jobs| && u.jobs[k].status == J.Queued
      ensures u.jobs[k].kind.Validate? && Barren(cfg, u.jobs[k].kind.stage, missing)
    {
      QueuedAreStages(cfg, s, u, k);
    }
    StillLive(cfg, u);
    var rest := FinishBarren(cfg, u, missing);
    events := [Advance] + rest;
    ExecFirst(cfg, s, Advance, rest);
    if missing {
      InLineFirst(cfg, s, Advance, rest);
    }
    var t := Exec(cfg, u, rest);
    StillLive(cfg, t);
    var i :| 0 <= i < |s.candidates| && AwaitsStage(cfg, s.candidates[i]);
    assert Settle(cfg, s.candidates[i]) == s.candidates[i] == t.candidates[i];
    forall j | 0 <= j < |t.candidates| && AwaitsStage(cfg, t.candidates[j])
      ensures Barren(cfg, C.NextStage(cfg.configured, t.candidates[j].validation).value, missing)
    {
      assert t.candidates[j] == Settle(cfg, s.candidates[j]);
      assert s.candidates[j].status == C.Validating && AwaitsStage(cfg, s.candidates[j]);
    }
  }

  lemma ExecNone(cfg: Config, s: State)
    ensures Exec(cfg, s, []) == s && InLineRun(cfg, s, [])
  {
  }

  lemma {:induction false} LoopRounds(cfg: Config, s: State, missing: bool, rounds: nat) returns (events: seq<Event>)
    requires cfg.Valid() && Looping(cfg, s, missing)
    ensures |Exec(cfg, s, events).jobs| >= |s.jobs| + rounds
    ensures missing ==> InLineRun(cfg, s, events)
    decreases rounds
  {
    hide *;
    if rounds == 0 {
      ExecNone(cfg, s);
      return [];
    }
    var first := LoopRound(cfg, s, missing);
    var rest := LoopRounds(cfg, Exec(cfg, s, first), missing, rounds - 1);
    events := first + rest;
    ExecConcat(cfg, s, first, rest);
    if missing {
      InLineConcat(cfg, s, first, rest);
    }
  }

  /** All candidates have passed exactly the stages in `done`. */
  ghost predicate AllPassed(cfg: Config, s: State, done: set<Stage>) {
    && Inv(cfg, s) && Live(cfg, s) && NoneQueued(s.jobs) && s.run.status in {Coding, Validating}
    && forall i :: 0 <= i < |s.candidates| ==>
         && s.candidates[i].status == C.Validating
         && forall stage: Stage ::
              s.candidates[i].validation.Passed(stage) == if stage in done then Some(true) else None
  }

  function FirstUndone(configured: set<Stage>, done: set<Stage>): Option<Stage> {
    if Build in configured - done then Some(Build)
    else if Test in configured - done then Some(Test)
    else if StaticAnalysis in configured - done then Some(StaticAnalysis)
    else None
  }

  lemma NextIsFirstUndone(cfg: Config, s: State, done: set<Stage>, i: nat)
    requires AllPassed(cfg, s, done) && i < |s.candidates|
    ensures C.NextStage(cfg.configured, s.candidates[i].validation) == FirstUndone(cfg.configured, done)
  {
    var v := s.candidates[i].validation;
    assert v.Passed(Build) == if Build in done then Some(true) else None;
    assert v.Passed(Test) == if Test in done then Some(true) else None;
    assert v.Passed(StaticAnalysis) == if StaticAnalysis in done then Some(true) else None;
  }

  lemma {:induction false} EveryWaitingCandidateIsNamed(cfg: Config, s: seq<C.CandidateRecord>, base: nat, i: nat)
    requires i < |s| && AwaitsStage(cfg, s[i]) && s[i].index == i
    ensures Named(StageJobs(cfg, s, base), i)
  {
    var jobs := StageJobs(cfg, s, base);
    if i == |s| - 1 {
      assert jobs[|jobs| - 1].candidate == Some(i) && jobs[|jobs| - 1].status == J.Queued;
    } else {
      EveryWaitingCandidateIsNamed(cfg, s[..|s| - 1], base, i);
      var before := StageJobs(cfg, s[..|s| - 1], base);
      var k :| 0 <= k < |before| && before[k].status == J.Queued && before[k].candidate == Some(i);
      assert jobs[k] == before[k];
    }
  }

  lemma PassedExtends(c: C.CandidateRecord, stage: Stage, result: C.ToolResult, other: Stage)
    requires c.validation.Passed(stage) == None && result.kind == stage && result.exitCode == 0
    ensures c.validation.ExtendedWith([result]).Passed(other)
            == if other == stage then Some(true) else c.validation.Passed(other)
  {
    var v, w := c.validation, c.validation.ExtendedWith([result]);
    assert forall r :: r in w.results <==> r in v.results || r == result;
    assert w.Ran(stage) by {
      assert result in w.results;
    }
  }

  /** The decision gives every candidate its own job for the same stage. */
  lemma StageOpensForAll(cfg: Config, s: State, done: set<Stage>, stage: Stage, i: nat)
    requires cfg.Valid() && AllPassed(cfg, s, done) && i < |s.candidates|
    requires FirstUndone(cfg.configured, done) == Some(stage)
    ensures AwaitsStage(cfg, s.candidates[i]) && Settle(cfg, s.candidates[i]) == s.candidates[i]
    ensures var jobs := s.jobs + StageJobs(cfg, s.candidates, |s.jobs|);
            StageQueued(jobs, i, stage)
  {
    hide AllPassed, StageJobs, StageQueued;
    NextIsFirstUndone(cfg, s, done, i);
    PassedAreValidating(cfg, s, done);
    StageIsQueued(cfg, s, i, stage);
  }

  lemma PassedAreValidating(cfg: Config, s: State, done: set<Stage>)
    requires AllPassed(cfg, s, done)
    ensures CandidatesIndexed(s) && forall i :: 0 <= i < |s.candidates| ==> s.candidates[i].status == C.Validating
  {
    assert CandidatesSound(cfg, s);
  }

  function WithResult(c: C.CandidateRecord, stage: Stage, exitCode: int): C.CandidateRecord {
    c.(validation := c.validation.ExtendedWith([C.ToolResult(stage, exitCode, c.repairIterations)]))
  }

  ghost predicate StageQueued(jobs: seq<J.JobRecord>, i: nat, stage: Stage) {
    exists k :: 0 <= k < |jobs| && jobs[k].status == J.Queued && jobs[k].candidate == Some(i)
                && jobs[k].kind == J.Validate(stage)
  }

  ghost predicate CandidatesIndexed(s: State) { forall i :: 0 <= i < |s.candidates| ==> s.candidates[i].index == i }

  lemma StageIsQueued(cfg: Config, s: State, i: nat, stage: Stage)
    requires cfg.Valid() && CandidatesIndexed(s) && i < |s.candidates|
    requires AwaitsStage(cfg, s.candidates[i]) && C.NextStage(cfg.configured, s.candidates[i].validation) == Some(stage)
    ensures StageQueued(s.jobs + StageJobs(cfg, s.candidates, |s.jobs|), i, stage)
  {
    EveryWaitingCandidateIsNamed(cfg, s.candidates, |s.jobs|, i);
    StageJobsShape(cfg, s.candidates, |s.jobs|);
    var added := StageJobs(cfg, s.candidates, |s.jobs|);
    hide StageJobs;
    var k :| 0 <= k < |added| && added[k].status == J.Queued && added[k].candidate == Some(i);
    assert (s.jobs + added)[|s.jobs| + k] == added[k];
  }

  /** Everyone's job for this stage has been opened, and nothing else has changed. */
  ghost predicate StageOpen(cfg: Config, s: State, u: State, stage: Stage) {
    && Inv(cfg, u) && Live(cfg, u) && SpentStay(s, u)
    && u.run == s.run.(status := Validating) && u.candidates == s.candidates
    && (s.offered == map[] ==> Orderly(u))
    && forall i :: 0 <= i < |u.candidates| ==> StageQueued(u.jobs, i, stage)
  }

  lemma OpenStage(cfg: Config, s: State, done: set<Stage>, stage: Stage)
    requires cfg.Valid() && AllPassed(cfg, s, done) && s.candidates != []
    requires FirstUndone(cfg.configured, done) == Some(stage)
    ensures StageOpen(cfg, s, Step(cfg, s, Advance), stage)
  {
    hide Step, StageJobs, Publish, StageQueued, SpentStay, NoneQueued, JobsFit, OneJobEach, ApprovalsSound, QueueAgrees, Earned;
    hide Orderly;
    DecisionsLeaveSpent(cfg, s);
    StageOpensForAll(cfg, s, done, stage, 0);
    StagesOpen(cfg, s);
    var u := Step(cfg, s, Advance);
    if s.offered == map[] {
      StagesStandInLine(cfg, s.(run := u.run, candidates := u.candidates), s.candidates, |s.jobs|);
    }
    forall i | 0 <= i < |s.candidates|
      ensures u.candidates[i] == s.candidates[i] && StageQueued(u.jobs, i, stage)
    {
      StageOpensForAll(cfg, s, done, stage, i);
    }
    assert u.candidates == s.candidates;
    hide AllPassed, Step, StageJobs, SettleAll, Publish, StageQueued, SpentStay;
  }

  /** Every candidate gets the same result of its next stage. */
  lemma StageRound(cfg: Config, s: State, done: set<Stage>, stage: Stage, exitCode: int) returns (events: seq<Event>)
    requires cfg.Valid() && AllPassed(cfg, s, done) && s.candidates != []
    requires FirstUndone(cfg.configured, done) == Some(stage) && stage in cfg.available
    ensures var t := Exec(cfg, s, events);
            && Inv(cfg, t) && NoneQueued(t.jobs) && t.run == s.run.(status := Validating) && SpentStay(s, t)
            && |t.candidates| == |s.candidates|
            && forall i :: 0 <= i < |t.candidates| ==> t.candidates[i] == WithResult(s.candidates[i], stage, exitCode)
    ensures s.offered == map[] ==> Exec(cfg, s, events).offered == map[] && InLineRun(cfg, s, events)
  {
    hide AllPassed, Exec, Step, StageQueued, Inv, Live, Orderly, InLineRun, NoneQueued;
    OpenStage(cfg, s, done, stage);
    var u := Step(cfg, s, Advance);
    var work := Answered(C.Patch(true, 0), exitCode, C.Fail);
    var rest := AnswerAll(cfg, u, work, 0);
    events := [Advance] + rest;
    ExecFirst(cfg, s, Advance, rest);
    if s.offered == map[] {
      InLineFirst(cfg, s, Advance, rest);
    }
    var t := Exec(cfg, u, rest);
    forall i | 0 <= i < |t.candidates|
      ensures t.candidates[i] == WithResult(s.candidates[i], stage, exitCode)
    {
      hide *;
      StageWasAnswered(cfg, u, t, i, stage, work);
    }
  }

  lemma StageWasAnswered(cfg: Config, u: State, t: State, i: nat, stage: Stage, work: Work)
    requires work.Answered? && AllAnswered(cfg, u, t, work) && i < |u.candidates|
    requires stage in cfg.available
    requires StageQueued(u.jobs, i, stage)
    ensures |t.candidates| == |u.candidates| && t.candidates[i] == WithResult(u.candidates[i], stage, work.exitCode)
  {
  }

  lemma PassStage(cfg: Config, s: State, done: set<Stage>, stage: Stage) returns (events: seq<Event>)
    requires cfg.Valid() && AllPassed(cfg, s, done) && s.candidates != []
    requires FirstUndone(cfg.configured, done) == Some(stage) && stage in cfg.available
    ensures AllPassed(cfg, Exec(cfg, s, events), done + {stage})
    ensures var t := Exec(cfg, s, events);
            && t.run == s.run.(status := Validating) && SpentStay(s, t) && |t.candidates| == |s.candidates|
            && forall i :: 0 <= i < |t.candidates| ==> t.candidates[i] == WithResult(s.candidates[i], stage, 0)
    ensures s.offered == map[] ==> Exec(cfg, s, events).offered == map[] && InLineRun(cfg, s, events)
  {
    hide Exec, Inv, Live, SpentStay, NoneQueued, InLineRun;
    events := StageRound(cfg, s, done, stage, 0);
    var t := Exec(cfg, s, events);
    StillLive(cfg, t);
    forall i, other: Stage | 0 <= i < |t.candidates|
      ensures t.candidates[i].validation.Passed(other) == if other in done + {stage} then Some(true) else None
    {
      assert stage !in done;
      assert s.candidates[i].validation.Passed(stage) == None;
      PassedExtends(s.candidates[i], stage, C.ToolResult(stage, 0, s.candidates[i].repairIterations), other);
    }
  }

  /** Passing the stages that can report brings the run to one that never will. */
  lemma {:induction false} ReachLoop(cfg: Config, s: State, missing: bool, done: set<Stage>) returns (events: seq<Event>)
    requires cfg.Valid() && AllPassed(cfg, s, done) && s.candidates != [] && done <= cfg.configured * cfg.available
    requires missing ==> !(cfg.configured <= cfg.available) && s.offered == map[]
    requires !missing ==> !cfg.retry.Within(cfg.jobMaxAttempts) && cfg.configured != {} && done == {}
    ensures Looping(cfg, Exec(cfg, s, events), missing)
    ensures missing ==> InLineRun(cfg, s, events)
    decreases cfg.configured - done
  {
    hide AllPassed, Exec, InLineRun;
    var next := FirstUndone(cfg.configured, done);
    assert next.Some? by {
      var u: Stage :| u in cfg.configured && u !in done;
      assert u == Build || u == Test || u == StaticAnalysis;
    }
    if Barren(cfg, next.value, missing) {
      LoopsFromHere(cfg, s, missing, done);
      ExecNone(cfg, s);
      events := [];
    } else {
      var first := PassStage(cfg, s, done, next.value);
      var rest := ReachLoop(cfg, Exec(cfg, s, first), missing, done + {next.value});
      events := first + rest;
      ExecConcat(cfg, s, first, rest);
      InLineConcat(cfg, s, first, rest);
    }
  }

  lemma LoopsFromHere(cfg: Config, s: State, missing: bool, done: set<Stage>)
    requires AllPassed(cfg, s, done) && s.candidates != [] && (missing ==> s.offered == map[])
    requires FirstUndone(cfg.configured, done).Some? && Barren(cfg, FirstUndone(cfg.configured, done).value, missing)
    ensures Looping(cfg, s, missing)
  {
    var next := FirstUndone(cfg.configured, done);
    forall i | 0 <= i < |s.candidates|
      ensures AwaitsStage(cfg, s.candidates[i])
      ensures C.NextStage(cfg.configured, s.candidates[i].validation) == next
    {
      NextIsFirstUndone(cfg, s, done, i);
    }
    assert AwaitsStage(cfg, s.candidates[0]);
  }

  /** Without the condition a run can open more jobs than any number given in
      advance; when a tool is missing, even with every job claimed in line. */
  lemma UnboundedOtherwise(cfg: Config, bound: nat) returns (events: seq<Event>)
    requires cfg.Valid() && !StagesAlwaysReport(cfg)
    ensures |Exec(cfg, Init(cfg), events).jobs| > bound
    ensures !(cfg.configured <= cfg.available) ==> InLineRun(cfg, Init(cfg), events)
  {
    hide Exec, InLineRun, Looping, AllPassed;
    var patch, missing := C.Patch(true, 0), !(cfg.configured <= cfg.available);
    var first := ReachAllCoded(cfg, patch);
    var s := Exec(cfg, Init(cfg), first);
    AllCodedIsUnpassed(cfg, s, patch);
    var second := ReachLoop(cfg, s, missing, {});
    var third := LoopRounds(cfg, Exec(cfg, s, second), missing, bound + 1);
    events := first + (second + third);
    ExecConcat(cfg, s, second, third);
    ExecConcat(cfg, Init(cfg), first, second + third);
    if missing {
      InLineConcat(cfg, s, second, third);
      InLineConcat(cfg, Init(cfg), first, second + third);
    }
  }

  lemma AllCodedIsUnpassed(cfg: Config, s: State, patch: C.Patch)
    requires AllCoded(cfg, s, patch)
    ensures AllPassed(cfg, s, {})
  {
    forall i, stage: Stage | 0 <= i < |s.candidates|
      ensures s.candidates[i].validation.Passed(stage) == None
    {
      assert s.candidates[i].validation.results == [];
    }
  }

  ghost predicate CanExceed(cfg: Config, bound: nat) {
    exists events :: |Exec(cfg, Init(cfg), events).jobs| > bound
  }

  /** Every loop is bounded, exactly when every configured stage always reports:
      its tool is available and no retry budget exceeds the job's own. When the
      condition fails there is no bound at all. */
  lemma WorkIsBoundedExactly(cfg: Config)
    requires cfg.Valid()
    ensures (forall events :: |Exec(cfg, Init(cfg), events).jobs| <= JobBudget(cfg)) <==> StagesAlwaysReport(cfg)
    ensures !StagesAlwaysReport(cfg) ==>
              forall bound: nat :: CanExceed(cfg, bound)
  {
    hide StagesAlwaysReport, Exec, Init, JobBudget;
    if StagesAlwaysReport(cfg) {
      forall events
        ensures |Exec(cfg, Init(cfg), events).jobs| <= JobBudget(cfg)
      {
        BudgetHolds(cfg, events);
      }
    } else {
      forall bound: nat
        ensures CanExceed(cfg, bound)
      {
        var events := UnboundedOtherwise(cfg, bound);
      }
      var events := UnboundedOtherwise(cfg, JobBudget(cfg));
      assert !(|Exec(cfg, Init(cfg), events).jobs| <= JobBudget(cfg));
    }
  }

  lemma BudgetHolds(cfg: Config, events: seq<Event>)
    requires cfg.Valid() && StagesAlwaysReport(cfg)
    ensures |Exec(cfg, Init(cfg), events).jobs| <= JobBudget(cfg)
  {
    WorkIsBounded(cfg, events);
  }

  // ---- how often one job is executed ----

  lemma RedeliverOnce(cfg: Config, s: State, k: nat, exc: Exception)
    requires cfg.Valid() && Tracked(cfg, s) && Running(s) && Insists(cfg, exc)
    requires k in s.offered && s.jobs[k].attempt < cfg.jobMaxAttempts
    ensures var t := Step(cfg, s, Execute(k, Threw(exc)));
            && Tracked(cfg, t) && t.run == s.run && k < |t.jobs| && k in t.offered
            && t.jobs[k].attempt == s.jobs[k].attempt + 1
  {
    ExecuteOutcome(cfg, s, k, Threw(exc));
    assert s.offered[k].attempt == s.jobs[k].attempt;
    assert Claimed(s.offered[k]).attempt == s.jobs[k].attempt + 1;
    hide Tracked, Outcome;
  }

  /** A job whose retries the policy goes on asking for is executed once more
      than its own budget, and is still on offer before that. */
  lemma {:induction false} Redeliver(cfg: Config, s: State, k: nat, exc: Exception) returns (events: seq<Event>)
    requires cfg.Valid() && Tracked(cfg, s) && Running(s) && Insists(cfg, exc)
    requires k in s.offered && s.jobs[k].attempt <= cfg.jobMaxAttempts
    ensures k < |Exec(cfg, s, events).jobs| && Exec(cfg, s, events).jobs[k].attempt == cfg.jobMaxAttempts + 1
    decreases cfg.jobMaxAttempts - s.jobs[k].attempt
  {
    var e := Execute(k, Threw(exc));
    if s.jobs[k].attempt == cfg.jobMaxAttempts {
      ExecuteOutcome(cfg, s, k, Threw(exc));
      events := [e];
      ExecOne(cfg, s, e);
    } else {
      RedeliverOnce(cfg, s, k, exc);
      hide Tracked, Step, Insists;
      var rest := Redeliver(cfg, Step(cfg, s, e), k, exc);
      events := [e] + rest;
      ExecFirst(cfg, s, e, rest);
    }
  }

  /** The first decision puts a job on offer. */
  lemma FirstJobIsOffered(cfg: Config)
    requires cfg.Valid()
    ensures var s := Step(cfg, Init(cfg), Advance);
            Running(s) && Tracked(cfg, s) && |s.jobs| > 0 && 0 in s.offered && s.jobs[0].attempt == 0
  {
    hide Tracked, Steady, Inv, AdvanceRun, OpenCandidates, Publish;
    var s := Init(cfg);
    StartIsSound(cfg);
    StepKeepsTracked(cfg, s, Advance);
    FirstDecision(cfg);
    var t := AdvanceRun(cfg, s).value;
    DecisionsPublish(cfg, s);
    FirstIsNew(cfg, s, t);
  }

  lemma FirstDecision(cfg: Config)
    requires cfg.Valid()
    ensures var r := AdvanceRun(cfg, Init(cfg)); r.Ok? && Running(r.value) && |r.value.jobs| > 0
  {
    hide Publish;
    assert !HasUnfinished(Init(cfg).jobs);
  }

  lemma FirstIsNew(cfg: Config, s: State, t: State)
    requires Publishes(cfg, s, t) && s.jobs == [] && |t.jobs| > 0
    ensures 0 in t.offered && t.jobs[0].attempt == 0
  {
    var added :| NewJobs(cfg, added) && t.jobs == s.jobs + added && t.offered == Publish(s, added).offered;
    assert NewJob(cfg, added[0]) && t.jobs[0] == added[0];
  }

  ghost predicate Overrun(cfg: Config, events: seq<Event>, k: nat) {
    TimesExecuted(cfg, Init(cfg), events, k) > cfg.jobMaxAttempts
  }

  lemma OverrunOtherwise(cfg: Config) returns (events: seq<Event>)
    requires cfg.Valid() && !cfg.retry.Within(cfg.jobMaxAttempts)
    ensures Overrun(cfg, events, 0)
  {
    hide Tracked, Step, Insists;
    var exc := SomeExceptionInsists(cfg);
    FirstJobIsOffered(cfg);
    var rest := Redeliver(cfg, Step(cfg, Init(cfg), Advance), 0, exc);
    events := [Advance] + rest;
    ExecFirst(cfg, Init(cfg), Advance, rest);
    AttemptsAreExecutions(cfg, events, 0);
  }

  /** No job is executed more often than its `max_attempts`, in any history, if
      and only if no retry budget of the policy exceeds it: the queue takes a
      spent job back without looking at its budget. */
  lemma ExecutionsPerJobExactly(cfg: Config)
    requires cfg.Valid()
    ensures (forall events, k: nat :: !Overrun(cfg, events, k)) <==> cfg.retry.Within(cfg.jobMaxAttempts)
  {
    if cfg.retry.Within(cfg.jobMaxAttempts) {
      forall events, k: nat
        ensures !Overrun(cfg, events, k)
      {
        AttemptsAreExecutions(cfg, events, k);
        TrackedAlways(cfg, events);
        if k < |Exec(cfg, Init(cfg), events).jobs| {
          CapIsWithin(cfg, Exec(cfg, Init(cfg), events), k);
        }
      }
    } else {
      var events := OverrunOtherwise(cfg);
    }
  }

  lemma CapIsWithin(cfg: Config, s: State, k: nat)
    requires Tracked(cfg, s) && cfg.retry.Within(cfg.jobMaxAttempts) && k < |s.jobs|
    ensures s.jobs[k].attempt <= cfg.jobMaxAttempts
  {
    assert RowSound(cfg, s.jobs[k]);
  }
}
