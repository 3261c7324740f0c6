/** What a waiting run waits for: the exact condition under which everything the
    queue would hand out is wanted, and wanted once. */
module WorkflowWaiting {
  import opened Common
  import opened RunStateMachine
  import opened Workflow
  import opened WorkflowQueue
  import opened WorkflowSafety
  import opened WorkflowScripts
  import opened WorkflowBounds
  import opened WorkflowExact
  import opened WorkflowGeneral
  import opened WorkflowProgress
  import opened WorkflowEarned
  import opened WorkflowUnearned
  import R = Runs
  import C = Candidates
  import J = Jobs
  import S = Selection

  /** Everything on offer asks for what its candidate's state calls for, and no
      two offers name the same candidate. */
  ghost predicate Unambiguous(cfg: Config, s: State) {
    && (forall k :: k in s.offered ==> k < |s.jobs| && Fits(cfg, s, s.jobs[k]))
    && (forall k, l :: k in s.offered && l in s.offered && k != l ==>
          && k < |s.jobs| && l < |s.jobs| && s.jobs[k].candidate.Some? && s.jobs[l].candidate.Some?
          && s.jobs[k].candidate != s.jobs[l].candidate)
  }

  /** A spent job is overtaken by its successor, by a repair, or by another
      candidate; with none of the three it is still what the run waits for. */
  ghost predicate NeverAmbiguous(cfg: Config) {
    || cfg.retry.Within(cfg.jobMaxAttempts)
    || Simple(cfg)
  }

  ghost predicate Simple(cfg: Config) {
    cfg.candidateCount == 1 && cfg.configured == {} && cfg.maxRepairIterations == 0
  }

  // ---- nothing is ever spent ----

  lemma OffersFit(cfg: Config, s: State)
    requires Inv(cfg, s) && NoneSpent(s) && Live(cfg, s)
    ensures Unambiguous(cfg, s)
  {
    forall k | k in s.offered
      ensures k < |s.jobs| && s.jobs[k].status == J.Queued && Fits(cfg, s, s.jobs[k])
    {
    }
    forall k, l | k in s.offered && l in s.offered && k != l
      ensures s.jobs[k].candidate != s.jobs[l].candidate && s.jobs[k].candidate.Some? && s.jobs[l].candidate.Some?
    {
      assert k < l || l < k;
      assert Fits(cfg, s, s.jobs[k]) && Fits(cfg, s, s.jobs[l]);
    }
  }

  // ---- one candidate, no command, no repair ----

  /** At most one offer, and it is wanted. */
  ghost predicate Solitary(cfg: Config, s: State) {
    && (forall k :: k in s.offered ==> k < |s.jobs| && Fits(cfg, s, s.jobs[k]))
    && (forall k, l :: k in s.offered && l in s.offered ==> k == l)
  }

  lemma SolitaryExecution(cfg: Config, s: State, t: State, k: nat, work: Work)
    requires k in s.offered && k < |s.jobs| && Solitary(cfg, s) && OneRow(s, t, k) && Outcome(cfg, s, t, k, work)
    ensures t.run.status == Failed || Solitary(cfg, t)
  {
    if t.offered == s.offered - {k} {
      assert forall l :: l !in t.offered;
    } else if t.run.status != Failed {
      assert t.offered.Keys == s.offered.Keys;
      assert forall l :: l in t.offered ==> l == k;
    }
  }

  lemma PublishingOne(cfg: Config, u: State, job: J.JobRecord)
    requires u.offered == map[] && Fits(cfg, u, job)
    ensures Solitary(cfg, Publish(u, [job]))
  {
    var t := Publish(u, [job]);
    assert forall k :: k in t.offered ==> k == |u.jobs| && t.jobs[k] == job;
  }

  lemma NothingFitsYet(cfg: Config, s: State)
    requires Solitary(cfg, s) && s.run.status in {Created, PlanReady}
    ensures s.offered == map[]
  {
    assert forall k :: k !in s.offered;
  }

  lemma PlanIsSolitary(cfg: Config, s: State)
    requires Solitary(cfg, s) && s.run.status == Created && cfg.requiresPlan
    ensures OpenFirstStage(cfg, s).Ok? && Solitary(cfg, OpenFirstStage(cfg, s).value)
  {
    NothingFitsYet(cfg, s);
    hide Publish, Solitary;
    PublishingOne(cfg, s.(run := R.StartPlanning(s.run).value), OpenJob(cfg, |s.jobs|, J.Plan, None, J.Normal));
  }

  lemma FirstCoderIsSolitary(cfg: Config, s: State, run: R.RunRecord)
    requires cfg.candidateCount == 1 && s.offered == map[] && s.candidates == [] && run.status == Coding
    ensures Solitary(cfg, OpenCandidates(cfg, s.(run := run)))
  {
    hide OpenCandidates, Publish, Solitary;
    FirstCandidates(cfg, s, run);
    var job := OpenJob(cfg, |s.jobs|, J.Code, Some(0), J.Normal);
    assert CodeJobs(cfg, |s.jobs|, 1) == [job];
    assert NewCandidates(1)[0].status == C.Coding;
    PublishingOne(cfg, s.(run := run, candidates := NewCandidates(1)), job);
  }

  lemma FirstDecisionIsSolitary(cfg: Config, s: State)
    requires Simple(cfg) && Solitary(cfg, s) && s.candidates == [] && s.run.status in {Created, PlanReady}
    requires !HasUnfinished(s.jobs)
    ensures AdvanceRun(cfg, s).Ok? && Solitary(cfg, AdvanceRun(cfg, s).value)
  {
    NothingFitsYet(cfg, s);
    hide HasUnfinished, OpenCandidates, Solitary, Publish;
    if s.run.status == Created && cfg.requiresPlan {
      PlanIsSolitary(cfg, s);
    } else {
      FirstCoderIsSolitary(cfg, s, R.StartCoding(s.run).value);
    }
  }

  /** Once the only candidate is settled nothing is on offer. */
  lemma SettledMeansIdle(cfg: Config, s: State)
    requires Simple(cfg) && CandidatesSound(cfg, s) && Solitary(cfg, s) && s.run.status in {Coding, Validating}
    requires Settled(SettleAll(cfg, s.candidates)) != []
    ensures s.offered == map[]
  {
    hide Solitary, Settled, CandidateSound;
    var all := SettleAll(cfg, s.candidates);
    SettledAreOwn(all);
    HeadIsMember(Settled(all));
    assert all[0].status == C.Validated;
    CodedMeansIdle(cfg, s);
  }

  lemma CodedMeansIdle(cfg: Config, s: State)
    requires Simple(cfg) && Solitary(cfg, s) && s.run.status in {Coding, Validating}
    requires |s.candidates| == 1 && s.candidates[0].status != C.Coding
    ensures s.offered == map[]
  {
    NothingFits(cfg, s);
    hide Fits;
    assert forall k :: k !in s.offered;
  }

  lemma NothingFits(cfg: Config, s: State)
    requires Simple(cfg) && s.run.status in {Coding, Validating} && |s.candidates| == 1 && s.candidates[0].status != C.Coding
    ensures forall j :: !Fits(cfg, s, j)
  {
  }

  lemma CandidateDecisionIsSolitary(cfg: Config, s: State)
    requires cfg.Valid() && Simple(cfg) && Solitary(cfg, s) && CandidatesKept(cfg, s) && s.run.status in {Coding, Validating}
    requires s.run.maxRepairIterations == 0 && AdvanceCandidates(cfg, s).Ok?
    ensures var t := AdvanceCandidates(cfg, s).value; t.run.status == Failed || Solitary(cfg, t)
  {
    hide CandidatesKept, StageJobs, SettleAll, Settled, S.Viable, Solitary, Publish, Pick, RepairOrFail, OpenJob, Fits;
    NoCommandNoStageJob(cfg, s.candidates, |s.jobs|);
    assert CandidatesSound(cfg, s) by { SoundWhenKept(cfg, s); }
    var u := s.(candidates := SettleAll(cfg, s.candidates));
    var settled := Settled(u.candidates);
    if settled == [] {
      NothingSettled(cfg, s);
    } else {
      SettledMeansIdle(cfg, s);
      var viable := S.Viable(settled);
      if viable != [] {
        ViableAreSettled(cfg, s);
        ReviewIsSolitary(cfg, u.(run := R.StartReviewing(s.run).value), Pick(viable).index);
      } else {
        FailsWithoutRepair(cfg, u, Some(settled[0].index));
      }
    }
  }

  lemma ReviewIsSolitary(cfg: Config, u: State, i: nat)
    requires u.run.status == Reviewing && u.offered == map[] && i < |u.candidates|
    requires u.candidates[i].status == C.Validated && u.candidates[i].IsViable()
    ensures Solitary(cfg, Publish(u, [OpenJob(cfg, |u.jobs|, J.ReviewCode, Some(i), J.Normal)]))
  {
    hide Publish;
    PublishingOne(cfg, u, OpenJob(cfg, |u.jobs|, J.ReviewCode, Some(i), J.Normal));
  }

  lemma ReviewDecisionEnds(cfg: Config, s: State)
    requires CandidatesSound(cfg, s) && s.run.status == Reviewing && s.run.maxRepairIterations == 0 && AdvanceReview(cfg, s).Ok?
    ensures AdvanceReview(cfg, s).value.run.status.IsTerminal()
  {
    hide AdvanceReview, RepairOrFail;
    var w, target := ReviewDecision(cfg, s);
    if w.None? {
      FailsWithoutRepair(cfg, s, target);
    }
  }

  lemma DecisionIsSolitary(cfg: Config, s: State)
    requires cfg.Valid() && Simple(cfg) && General(cfg, s) && Running(s) && Solitary(cfg, s) && AdvanceRun(cfg, s).Ok?
    ensures var t := AdvanceRun(cfg, s).value; t.run.status.IsTerminal() || Solitary(cfg, t)
  {
    GeneralParts(cfg, s);
    hide General, Tracked, CandidatesKept, CandidatesSound, Firsts, Solitary, HasUnfinished, AdvanceCandidates, AdvanceReview;
    if !HasUnfinished(s.jobs) {
      match s.run.status
      case Created | PlanReady =>
        NoCandidatesYet(cfg, s);
        FirstDecisionIsSolitary(cfg, s);
      case Coding | Validating => CandidateDecisionIsSolitary(cfg, s);
      case Reviewing => ReviewDecisionEnds(cfg, s);
      case _ =>
    }
  }

  lemma StepIsSolitary(cfg: Config, s: State, e: Event)
    requires cfg.Valid() && Simple(cfg) && General(cfg, s) && (Running(s) ==> Solitary(cfg, s))
    ensures Running(Step(cfg, s, e)) ==> Solitary(cfg, Step(cfg, s, e))
  {
    hide Solitary, AdvanceRun, ExecuteJob;
    GeneralParts(cfg, s);
    hide General;
    match e
    case Advance =>
      if Running(s) && AdvanceRun(cfg, s).Ok? {
        DecisionIsSolitary(cfg, s);
      } else if !Running(s) {
        EndedStays(cfg, s);
      }
    case Execute(k, work) =>
      if k < |s.jobs| && k in s.offered {
        if Running(s) {
          ExecuteOutcome(cfg, s, k, work);
          SolitaryExecution(cfg, s, ExecuteJob(cfg, s, k, work), k, work);
        } else {
          LateExecution(cfg, s, k, work);
        }
      }
    case Cancel =>
  }

  lemma EndedStays(cfg: Config, s: State)
    requires s.run.status.IsTerminal()
    ensures AdvanceRun(cfg, s) == Ok(s)
  {
  }

  lemma {:induction false} SolitaryAlways(cfg: Config, events: seq<Event>)
    requires cfg.Valid() && Simple(cfg)
    ensures var s := Exec(cfg, Init(cfg), events); Running(s) ==> Solitary(cfg, s)
  {
    if events != [] {
      var before := events[..|events| - 1];
      SolitaryAlways(cfg, before);
      GeneralAlways(cfg, before);
      hide General, Step, Solitary, Simple;
      StepIsSolitary(cfg, Exec(cfg, Init(cfg), before), events[|events| - 1]);
    }
  }

  // ---- otherwise ----

  /** A command: the spent stage job and its successor are both on offer. */
  lemma TwiceOffered(cfg: Config) returns (events: seq<Event>)
    requires cfg.Valid() && !cfg.retry.Within(cfg.jobMaxAttempts) && cfg.configured != {}
    ensures var s := Exec(cfg, Init(cfg), events); Running(s) && !Unambiguous(cfg, s)
  {
    hide *;
    SomeFirstStage(cfg);
    var stage := FirstUndone(cfg.configured, {}).value;
    var a := ReachAllCoded(cfg, C.Patch(true, 0));
    var s0 := Exec(cfg, Init(cfg), a);
    AllCodedIsUnpassed(cfg, s0, C.Patch(true, 0));
    SomebodyCoded(cfg, s0, C.Patch(true, 0));
    var b := SpendFirstStage(cfg, s0, stage);
    var s1 := Exec(cfg, s0, b);
    OpenStage(cfg, s1, {}, stage);
    BothOffered(cfg, s1, Step(cfg, s1, Advance), stage);
    events := a + b + [Advance];
    ExecConcat(cfg, Init(cfg), a, b);
    ExecConcat(cfg, Init(cfg), a + b, [Advance]);
    ExecOne(cfg, s1, Advance);
  }

  lemma SomebodyCoded(cfg: Config, s: State, patch: C.Patch)
    requires cfg.Valid() && AllCoded(cfg, s, patch)
    ensures s.candidates != []
  {
  }

  lemma BothOffered(cfg: Config, s: State, u: State, stage: Stage)
    requires s.candidates != [] && SpentStages(s, |s.candidates|, stage) && StageOpen(cfg, s, u, stage)
    ensures Running(u) && !Unambiguous(cfg, u)
  {
    assert SpentStage(s, 0, stage) && StageQueued(u.jobs, 0, stage);
    var k: nat :| Spent(s, k) && s.jobs[k].candidate == Some(0) && s.jobs[k].kind == J.Validate(stage);
    assert Spent(u, k) && u.jobs[k] == s.jobs[k];
    var l :| 0 <= l < |u.jobs| && u.jobs[l].status == J.Queued && u.jobs[l].candidate == Some(0)
             && u.jobs[l].kind == J.Validate(stage);
    assert Claimable(u, l);
  }

  /** A repair: the spent review is on offer while the run codes anew. */
  lemma UnwantedReview(cfg: Config) returns (events: seq<Event>)
    requires cfg.Valid() && !cfg.retry.Within(cfg.jobMaxAttempts) && cfg.configured == {} && cfg.maxRepairIterations >= 1
    ensures var s := Exec(cfg, Init(cfg), events); Running(s) && !Unambiguous(cfg, s)
  {
    hide Exec, Init, Inv, Tracked;
    var k;
    events, k := Prepare(cfg);
    assert LateReview(Exec(cfg, Init(cfg), events), k);
  }

  /** Everyone's code job is on offer although its row is dead. */
  ghost predicate SpentCoders(cfg: Config, s: State) {
    && NoneQueued(s.jobs) && s.run.status == Coding && |s.candidates| == cfg.candidateCount
    && forall i :: 0 <= i < |s.candidates| ==> s.candidates[i] == OpenCandidate(i) && SpentCoder(s, i)
  }

  ghost predicate SpentCoder(s: State, i: nat) {
    exists k: nat :: Spent(s, k) && s.jobs[k].kind == J.Code && s.jobs[k].candidate == Some(i)
  }

  lemma NothingQueued(cfg: Config, s: State)
    requires SpentCoders(cfg, s)
    ensures NoneQueued(s.jobs)
  {
  }

  lemma SpendCoders(cfg: Config) returns (events: seq<Event>)
    requires cfg.Valid() && !cfg.retry.Within(cfg.jobMaxAttempts)
    ensures SpentCoders(cfg, Exec(cfg, Init(cfg), events))
  {
    var first := ReachFirstRound(cfg);
    var s := Exec(cfg, Init(cfg), first);
    hide Exec, Init, Inv;
    var exc := SomeExceptionInsists(cfg);
    var rest := KillAll(cfg, s, exc, 0);
    var t := Exec(cfg, s, rest);
    events := first + rest;
    ExecConcat(cfg, Init(cfg), first, rest);
    forall i | 0 <= i < |t.candidates|
      ensures t.candidates[i] == OpenCandidate(i) && SpentCoder(t, i)
    {
      assert Named(s.jobs, i);
      var k :| 0 <= k < |s.jobs| && s.jobs[k].status == J.Queued && s.jobs[k].candidate == Some(i);
      assert Fits(cfg, s, s.jobs[k]);
      assert Spent(t, k);
    }
  }

  lemma SpentCoderRuns(cfg: Config, s: State, k: nat, i: nat, patch: C.Patch)
    requires cfg.Valid() && Tracked(cfg, s) && Running(s) && Spent(s, k) && NoneQueued(s.jobs)
    requires s.jobs[k].kind == J.Code && s.jobs[k].candidate == Some(i)
    requires i < |s.candidates| && s.candidates[i].status == C.Coding
    ensures var t := Step(cfg, s, Execute(k, Answered(patch, 0, C.Fail)));
            && t.run == s.run && t.candidates == s.candidates[i := s.candidates[i].(patch := Some(patch), status := C.Validating)]
            && NoneQueued(t.jobs) && Tracked(cfg, t) && OneRow(s, t, k) && t.offered == s.offered - {k}
  {
    var work := Answered(patch, 0, C.Fail);
    var s1 := Claim(s, k);
    assert s1.jobs[k].HasLease(TOKEN, NOW);
    assert Dispatch(cfg, s1, k, work.patch, work.exitCode, work.verdict).Ok?;
    HandlerOutcome(cfg, s, k, work);
    ExecuteOutcome(cfg, s, k, work);
    hide Dispatch, Tracked;
  }

  lemma OneIsReviewed(cfg: Config, t: State, patch: C.Patch)
    requires cfg.Valid() && cfg.configured == {} && !HasUnfinished(t.jobs) && t.run.status == Coding && |t.candidates| >= 2
    requires t.candidates[1] == OpenCandidate(1).(patch := Some(patch), status := C.Validating) && !patch.isEmpty
    ensures var u := Step(cfg, t, Advance); u.run.status == Reviewing
  {
    NoCommandNoStageJob(cfg, t.candidates, |t.jobs|);
    var all := SettleAll(cfg, t.candidates);
    var settled := Settled(all);
    assert all[1].status == C.Validated && all[1].IsViable();
    assert all[1] in settled;
    assert all[1] in S.Viable(settled);
    hide StageJobs, SettleAll, Settled, HasUnfinished, S.Viable, Pick;
    ReviewIsDecided(cfg, t, S.Viable(settled));
  }

  /** Another candidate: its code is reviewed while the first is still to be coded. */
  lemma UnwantedCoder(cfg: Config) returns (events: seq<Event>)
    requires cfg.Valid() && !cfg.retry.Within(cfg.jobMaxAttempts) && cfg.configured == {} && cfg.candidateCount >= 2
    ensures var s := Exec(cfg, Init(cfg), events); Running(s) && !Unambiguous(cfg, s)
  {
    hide Exec, Init, Step, Tracked, HasUnfinished, NoneQueued;
    var a := SpendCoders(cfg);
    TrackedAlways(cfg, a);
    var s := Exec(cfg, Init(cfg), a);
    assert NoneQueued(s.jobs) by { NothingQueued(cfg, s); }
    assert SpentCoder(s, 0) && SpentCoder(s, 1);
    var k: nat :| Spent(s, k) && s.jobs[k].kind == J.Code && s.jobs[k].candidate == Some(0);
    var l: nat :| Spent(s, l) && s.jobs[l].kind == J.Code && s.jobs[l].candidate == Some(1);
    var patch := C.Patch(false, 0);
    var e := Execute(l, Answered(patch, 0, C.Fail));
    SpentCoderRuns(cfg, s, l, 1, patch);
    var t := Step(cfg, s, e);
    NoneQueuedIsFinished(cfg, t);
    OneIsReviewed(cfg, t, patch);
    assert Spent(t, k);
    DecisionsLeaveSpent(cfg, t);
    var u := Step(cfg, t, Advance);
    assert Spent(u, k) && u.jobs[k] == t.jobs[k];
    events := a + [e] + [Advance];
    ExecConcat(cfg, Init(cfg), a, [e]);
    ExecOne(cfg, s, e);
    ExecConcat(cfg, Init(cfg), a + [e], [Advance]);
    ExecOne(cfg, t, Advance);
  }

  // ---- exactly ----

  ghost predicate WaitsWell(cfg: Config, events: seq<Event>) {
    var s := Exec(cfg, Init(cfg), events);
    !s.run.status.IsTerminal() ==> Unambiguous(cfg, s)
  }

  /** In every history of a live run everything on offer is wanted, no two offers
      for the same candidate, if and only if the policy's budgets stay within the
      job's own, or there is one candidate, no command and no repair. */
  lemma WaitingIsUnambiguousExactly(cfg: Config)
    requires cfg.Valid()
    ensures (forall events :: WaitsWell(cfg, events)) <==> NeverAmbiguous(cfg)
  {
    hide Exec, Init, Inv, Live, Unambiguous, Solitary, General;
    if NeverAmbiguous(cfg) {
      forall events
        ensures WaitsWell(cfg, events)
      {
        WaitingIsUnambiguous(cfg, events);
      }
    } else {
      var events;
      if cfg.configured != {} {
        events := TwiceOffered(cfg);
      } else if cfg.maxRepairIterations >= 1 {
        events := UnwantedReview(cfg);
      } else {
        events := UnwantedCoder(cfg);
      }
      assert !WaitsWell(cfg, events);
    }
  }

  lemma WaitingIsUnambiguous(cfg: Config, events: seq<Event>)
    requires cfg.Valid() && NeverAmbiguous(cfg)
    ensures WaitsWell(cfg, events)
  {
    hide Exec, Init, Inv, General, Tracked;
    var s := Exec(cfg, Init(cfg), events);
    if !s.run.status.IsTerminal() {
      if cfg.retry.Within(cfg.jobMaxAttempts) {
        InvAlways(cfg, events);
        StillLive(cfg, s);
        OffersFit(cfg, s);
      } else {
        GeneralAlways(cfg, events);
        GeneralParts(cfg, s);
        SolitaryAlways(cfg, events);
      }
    }
  }
}
