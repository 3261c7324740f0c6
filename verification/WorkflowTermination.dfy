/** Every run ends: the exact condition on the configuration. */
module WorkflowTermination {
  import opened Common
  import opened RunStateMachine
  import opened Workflow
  import opened WorkflowQueue
  import opened WorkflowSafety
  import opened WorkflowBounds
  import opened WorkflowScripts
  import opened WorkflowExact
  import opened WorkflowGeneral
  import opened WorkflowProgress
  import R = Runs
  import C = Candidates
  import J = Jobs
  import S = Selection

  /** How many of the events changed anything. */
  ghost function Changes(cfg: Config, s: State, events: seq<Event>): nat {
    if events == [] then 0 else
    var before := Exec(cfg, s, events[..|events| - 1]);
    Changes(cfg, s, events[..|events| - 1]) + Bit(Step(cfg, before, events[|events| - 1]) != before)
  }

  /** What an event that changes anything uses up: an execution is an attempt, a
      decision opens a job or ends the run, a cancellation ends it. */
  function Spending(s: State): nat { Attempts(s.jobs) + |s.jobs| + Bit(s.run.status.IsTerminal()) }

  /** The most events that can change a run under way. */
  function ChangeBudget(cfg: Config): nat { JobBudget(cfg) * PolicyCap(cfg) + JobBudget(cfg) }

  // ---- every change spends something ----

  lemma DecisionSpends(cfg: Config, s: State)
    requires cfg.Valid() && General(cfg, s) && AdvanceRun(cfg, s).Ok?
    ensures var t := AdvanceRun(cfg, s).value;
      t == s || |t.jobs| > |s.jobs| || (t.run.status.IsTerminal() && !s.run.status.IsTerminal())
  {
    GeneralParts(cfg, s);
    hide General, Tracked, CandidatesKept, Firsts, HasUnfinished, Publish, AdvanceCandidates, AdvanceReview;
    if Running(s) && !HasUnfinished(s.jobs) {
      if s.run.status in {Coding, Validating} {
        CandidateDecisionSpends(cfg, s);
      } else if s.run.status == Reviewing {
        ReviewProgress(cfg, s);
      } else if s.run.status in {Created, PlanReady} {
        FirstDecisionsAreLegal(cfg, s);
      }
    }
  }

  lemma RepairSpends(cfg: Config, s: State, target: Option<nat>)
    requires RepairOrFail(cfg, s, target).Ok? && Running(s)
    ensures var t := RepairOrFail(cfg, s, target).value; |t.jobs| > |s.jobs| || t.run.status.IsTerminal()
  {
  }

  lemma CandidateDecisionSpends(cfg: Config, s: State)
    requires cfg.Valid() && CandidatesSound(cfg, s) && s.run.status in {Coding, Validating} && AdvanceCandidates(cfg, s).Ok?
    ensures var t := AdvanceCandidates(cfg, s).value; t == s || |t.jobs| > |s.jobs| || t.run.status.IsTerminal()
  {
    hide CandidatesSound, StageJobs, SettleAll, Settled, S.Viable, Pick, RepairOrFail, OpenJob;
    var u := s.(candidates := SettleAll(cfg, s.candidates));
    var settled := Settled(u.candidates);
    if StageJobs(cfg, s.candidates, |s.jobs|) == [] {
      if settled == [] {
        NothingSettled(cfg, s);
      } else if S.Viable(settled) == [] {
        RepairSpends(cfg, u, Some(settled[0].index));
      }
    }
  }

  lemma EndedRunsStayEnded(cfg: Config, s: State, e: Event)
    requires cfg.Valid() && General(cfg, s) && s.run.status.IsTerminal()
    ensures Step(cfg, s, e).run.status.IsTerminal()
    ensures e.Advance? || e.Cancel? ==> Step(cfg, s, e) == s
  {
    GeneralParts(cfg, s);
    hide General;
    if e.Execute? && e.job < |s.jobs| && e.job in s.offered {
      LateExecution(cfg, s, e.job, e.work);
    }
  }

  lemma ChangeSpends(cfg: Config, s: State, e: Event)
    requires cfg.Valid() && General(cfg, s)
    ensures Spending(Step(cfg, s, e)) >= Spending(s) + Bit(Step(cfg, s, e) != s)
  {
    GeneralParts(cfg, s);
    StepSpendsInAll(cfg, s, e);
    hide General, Tracked, Attempts, AdvanceRun, ExecuteJob;
    if s.run.status.IsTerminal() {
      EndedRunsStayEnded(cfg, s, e);
    } else if e.Advance? && AdvanceRun(cfg, s).Ok? {
      DecisionSpends(cfg, s);
    }
  }

  lemma {:induction false} ChangesAreSpent(cfg: Config, events: seq<Event>)
    requires cfg.Valid()
    ensures Changes(cfg, Init(cfg), events) <= Spending(Exec(cfg, Init(cfg), events))
  {
    if events != [] {
      var before := events[..|events| - 1];
      ChangesAreSpent(cfg, before);
      GeneralAlways(cfg, before);
      hide General, Step, Spending;
      ChangeSpends(cfg, Exec(cfg, Init(cfg), before), events[|events| - 1]);
    }
  }

  /** A run under way has been changed at most so often; one more change, and it has ended. */
  lemma ChangesAreBounded(cfg: Config, events: seq<Event>)
    requires cfg.Valid() && StagesAlwaysReport(cfg)
    ensures Changes(cfg, Init(cfg), events) <= ChangeBudget(cfg) + 1
    ensures Changes(cfg, Init(cfg), events) > ChangeBudget(cfg) ==> Exec(cfg, Init(cfg), events).run.status.IsTerminal()
  {
    ChangesAreSpent(cfg, events);
    ExecutionsAreAttempts(cfg, events);
    ExecutionsAreBounded(cfg, events);
    WorkIsBounded(cfg, events);
    hide Exec, Init, Changes, Executions, JobBudget, PolicyCap, Attempts;
  }

  // ---- something can always be done ----

  /** A worker or a decision, not only a cancellation, can move the run. */
  ghost predicate CanMove(cfg: Config, s: State) {
    exists e: Event :: !e.Cancel? && Step(cfg, s, e) != s
  }

  lemma OffersMove(cfg: Config, s: State)
    requires cfg.Valid() && Tracked(cfg, s) && Steady(cfg, s) && s.offered != map[]
    ensures CanMove(cfg, s)
  {
    var k :| k in s.offered;
    assert Copies(cfg, s.offered[k], s.jobs[k]);
    var e := Execute(k, Answered(C.Patch(true, 0), 0, C.Fail));
    hide Step, Tracked, Steady, Copies;
    StepSpends(cfg, s, e, k);
    assert Step(cfg, s, e).jobs[k] != s.jobs[k];
  }

  lemma ProgressMoves(cfg: Config, s: State)
    requires cfg.Valid() && General(cfg, s) && Progresses(cfg, s) && !s.run.status.IsTerminal()
    ensures CanMove(cfg, s)
  {
    GeneralParts(cfg, s);
    hide General, AdvanceRun;
    if s.offered != map[] {
      OffersMove(cfg, s);
    } else {
      var e := Advance;
      assert Step(cfg, s, e) != s;
    }
  }

  // ---- otherwise ----

  lemma {:induction false} AtMostOneStageEach(cfg: Config, candidates: seq<C.CandidateRecord>, base: nat)
    ensures |StageJobs(cfg, candidates, base)| <= |candidates|
  {
    if candidates != [] {
      AtMostOneStageEach(cfg, candidates[..|candidates| - 1], base);
    }
  }

  lemma RepairOpensOne(cfg: Config, s: State, target: Option<nat>)
    requires RepairOrFail(cfg, s, target).Ok?
    ensures |RepairOrFail(cfg, s, target).value.jobs| <= |s.jobs| + 1
  {
  }

  lemma CandidateDecisionOpensFew(cfg: Config, s: State)
    requires cfg.Valid() && |s.candidates| == cfg.candidateCount && AdvanceCandidates(cfg, s).Ok?
    ensures |AdvanceCandidates(cfg, s).value.jobs| <= |s.jobs| + cfg.candidateCount
  {
    hide StageJobs, SettleAll, Settled, S.Viable, Pick, RepairOrFail, OpenJob;
    AtMostOneStageEach(cfg, s.candidates, |s.jobs|);
    var u := s.(candidates := SettleAll(cfg, s.candidates));
    var settled := Settled(u.candidates);
    if StageJobs(cfg, s.candidates, |s.jobs|) == [] && settled != [] && S.Viable(settled) == [] {
      RepairOpensOne(cfg, u, Some(settled[0].index));
    }
  }

  lemma ReviewDecisionOpensOne(cfg: Config, s: State)
    requires AdvanceReview(cfg, s).Ok?
    ensures |AdvanceReview(cfg, s).value.jobs| <= |s.jobs| + 1
  {
    hide RepairOrFail, WithVerdict, Pick;
    var passed, failing := WithVerdict(s.candidates, C.Pass), WithVerdict(s.candidates, C.Fail);
    if passed == [] {
      RepairOpensOne(cfg, s, if failing != [] then Some(failing[0].index)
                             else if s.candidates != [] then Some(s.candidates[0].index) else None);
    }
  }

  lemma DecisionOpensFew(cfg: Config, s: State)
    requires cfg.Valid() && General(cfg, s) && AdvanceRun(cfg, s).Ok?
    ensures |AdvanceRun(cfg, s).value.jobs| <= |s.jobs| + cfg.candidateCount
  {
    GeneralParts(cfg, s);
    hide General, Tracked, CandidatesKept, Firsts, HasUnfinished, AdvanceCandidates, AdvanceReview;
    if Running(s) && !HasUnfinished(s.jobs) {
      if s.run.status in {Coding, Validating} {
        CandidateDecisionOpensFew(cfg, s);
      } else if s.run.status == Reviewing {
        ReviewDecisionOpensOne(cfg, s);
      }
    }
  }

  lemma StepOpensFew(cfg: Config, s: State, e: Event)
    requires cfg.Valid() && General(cfg, s)
    ensures |Step(cfg, s, e).jobs| <= |s.jobs| + cfg.candidateCount * Bit(Step(cfg, s, e) != s)
  {
    GeneralParts(cfg, s);
    hide General, AdvanceRun, ExecuteJob, Tracked;
    match e
    case Advance =>
      if AdvanceRun(cfg, s).Ok? {
        DecisionOpensFew(cfg, s);
      }
    case Cancel => CancellingKeepsTracked(cfg, s);
    case Execute(k, work) =>
      if k < |s.jobs| && k in s.offered {
        ExecutionKeepsTracked(cfg, s, k, work);
      }
  }

  lemma {:induction false} JobsTakeChanges(cfg: Config, events: seq<Event>)
    requires cfg.Valid()
    ensures |Exec(cfg, Init(cfg), events).jobs| <= cfg.candidateCount * Changes(cfg, Init(cfg), events)
  {
    if events != [] {
      var before := events[..|events| - 1];
      JobsTakeChanges(cfg, before);
      GeneralAlways(cfg, before);
      hide General, Step;
      StepOpensFew(cfg, Exec(cfg, Init(cfg), before), events[|events| - 1]);
      Distribute(cfg.candidateCount, Changes(cfg, Init(cfg), before), Changes(cfg, Init(cfg), events) - Changes(cfg, Init(cfg), before));
    }
  }

  ghost predicate Bounds(cfg: Config, bound: nat) {
    forall events :: Changes(cfg, Init(cfg), events) <= bound
  }

  lemma NothingBounds(cfg: Config, bound: nat)
    requires cfg.Valid() && !StagesAlwaysReport(cfg)
    ensures !Bounds(cfg, bound)
  {
    hide Exec, Init, StagesAlwaysReport, Changes;
    var events := UnboundedOtherwise(cfg, cfg.candidateCount * bound);
    JobsTakeChanges(cfg, events);
    if Changes(cfg, Init(cfg), events) <= bound {
      TimesMonotone(cfg.candidateCount, Changes(cfg, Init(cfg), events), bound);
    }
  }

  lemma Distribute(m: nat, a: nat, b: nat)
    ensures m * (a + b) == m * a + m * b
  {
  }

  lemma TimesMonotone(m: nat, a: nat, b: nat)
    requires a <= b
    ensures m * a <= m * b
  {
  }

  ghost predicate NeverIdle(cfg: Config) {
    forall events ::
      var s := Exec(cfg, Init(cfg), events);
      s.run.status.IsTerminal() || CanMove(cfg, s)
  }

  lemma DeadEnd(cfg: Config) returns (events: seq<Event>)
    requires cfg.Valid() && cfg.configured == {} && cfg.maxRepairIterations > 0
    ensures var s := Exec(cfg, Init(cfg), events); !s.run.status.IsTerminal() && !CanMove(cfg, s)
  {
    hide Exec, Init, Inv, Live;
    events := ReachAllCoded(cfg, C.Patch(true, 0));
    var s := Exec(cfg, Init(cfg), events);
    NoneUnfinished(cfg, s);
    InvParts(cfg, s);
    NothingMoves(cfg, s);
  }

  /** Everyone has come back with nothing, no command is configured, nothing is on offer. */
  lemma NothingMoves(cfg: Config, s: State)
    requires cfg.Valid() && cfg.configured == {} && AllCoded(cfg, s, C.Patch(true, 0)) && !HasUnfinished(s.jobs) && s.run.CanRepair()
    ensures !CanMove(cfg, s)
  {
    hide NothingToReview, HasUnfinished, AdvanceRun, ExecuteJob, Inv, Live;
    NothingCoded(cfg, s);
    TooEarly(cfg, s);
  }

  /** Every run ends: only finitely many events can change it, their number bounded
      in advance, and until it has ended some worker or decision can. This is so
      if and only if there are no commands and no repairs, or there are commands,
      all of their tools are available and the policy stays within the job's own
      budget. */
  lemma EveryRunEndsExactly(cfg: Config)
    requires cfg.Valid()
    ensures (exists bound: nat :: Bounds(cfg, bound)) && NeverIdle(cfg) <==> StagesAlwaysReport(cfg) && NeverStuck(cfg)
  {
    hide Exec, Init, Changes, CanMove, General, ChangeBudget;
    if !StagesAlwaysReport(cfg) {
      forall bound: nat
        ensures !Bounds(cfg, bound)
      {
        NothingBounds(cfg, bound);
      }
    } else if !NeverStuck(cfg) {
      var events := DeadEnd(cfg);
      assert !NeverIdle(cfg);
    } else {
      forall events
        ensures Changes(cfg, Init(cfg), events) <= ChangeBudget(cfg) + 1
      {
        ChangesAreBounded(cfg, events);
      }
      assert Bounds(cfg, ChangeBudget(cfg) + 1);
      forall events
        ensures var s := Exec(cfg, Init(cfg), events); s.run.status.IsTerminal() || CanMove(cfg, s)
      {
        RunsMoveOn(cfg, events);
      }
    }
  }

  lemma RunsMoveOn(cfg: Config, events: seq<Event>)
    requires cfg.Valid() && NeverStuck(cfg)
    ensures var s := Exec(cfg, Init(cfg), events); s.run.status.IsTerminal() || CanMove(cfg, s)
  {
    hide Exec, Init, Progresses, General;
    ProgressHolds(cfg, events);
    GeneralAlways(cfg, events);
    var s := Exec(cfg, Init(cfg), events);
    if !s.run.status.IsTerminal() {
      ProgressMoves(cfg, s);
    }
  }
}
