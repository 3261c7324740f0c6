/** Runs whose jobs are claimed one at a time and in line, as one executor with a
    single slot claims them: the exact condition under which their work is bounded. */
module WorkflowInLine {
  import opened Common
  import opened RunStateMachine
  import opened Workflow
  import opened WorkflowQueue
  import opened WorkflowSafety
  import opened WorkflowBounds
  import opened WorkflowScripts
  import opened WorkflowExact
  import opened WorkflowGeneral
  import opened WorkflowProgress
  import opened WorkflowTermination
  import R = Runs
  import C = Candidates
  import J = Jobs
  import S = Selection

  // ---- only the first in line has been tried ----

  /** Of the offers of one priority only the oldest was ever executed, and an
      offer never executed has its row queued. */
  ghost predicate Lined(s: State) {
    && (forall k :: k in s.offered ==> k < |s.jobs|)
    && (forall k :: k in s.offered && s.jobs[k].attempt == 0 ==> s.jobs[k].status == J.Queued)
    && (forall k, l :: k in s.offered && l in s.offered && k < l && s.offered[k].priority == s.offered[l].priority ==>
          s.jobs[l].attempt == 0)
  }

  lemma ExecutionKeepsLine(s: State, t: State, k: nat)
    requires Lined(s) && k < |s.jobs| && OneRow(s, t, k) && FirstInLine(s, k)
    requires t.offered.Keys <= s.offered.Keys
    requires forall l :: l in t.offered ==> t.offered[l].priority == s.offered[l].priority
    ensures Lined(t)
  {
    forall l | l in t.offered
      ensures l < |t.jobs| && (t.jobs[l].attempt == 0 ==> t.jobs[l].status == J.Queued)
    {
      assert l in s.offered;
    }
    forall m, l | m in t.offered && l in t.offered && m < l && t.offered[m].priority == t.offered[l].priority
      ensures t.jobs[l].attempt == 0
    {
      assert m in s.offered && l in s.offered;
      assert m != k ==> Ahead(s, k, m);
    }
  }

  lemma PublishingKeepsLine(cfg: Config, s: State, t: State)
    requires Lined(s) && Publishes(cfg, s, t)
    ensures Lined(t)
  {
    var added :| NewJobs(cfg, added) && t.jobs == s.jobs + added && t.offered == Publish(s, added).offered;
    hide Publishes;
    forall k | |s.jobs| <= k < |t.jobs|
      ensures t.jobs[k].attempt == 0 && t.jobs[k].status == J.Queued
    {
      assert NewJob(cfg, added[k - |s.jobs|]);
    }
    assert forall k :: 0 <= k < |s.jobs| ==> t.jobs[k] == s.jobs[k];
    hide NewJobs;
  }

  lemma CopiesKeepPriority(cfg: Config, s: State, t: State, k: nat)
    requires Tracked(cfg, s) && Tracked(cfg, t) && k < |s.jobs| && OneRow(s, t, k) && t.offered.Keys <= s.offered.Keys
    ensures forall l :: l in t.offered ==> t.offered[l].priority == s.offered[l].priority
  {
    forall l | l in t.offered
      ensures t.offered[l].priority == s.offered[l].priority
    {
      assert l in s.offered.Keys;
      assert Copies(cfg, t.offered[l], t.jobs[l]) && Copies(cfg, s.offered[l], s.jobs[l]);
      assert t.jobs[l].priority == s.jobs[l].priority;
    }
  }

  lemma ExecuteShrinks(cfg: Config, s: State, k: nat, work: Work)
    requires cfg.Valid() && General(cfg, s) && k in s.offered
    ensures k < |s.jobs|
    ensures var t := ExecuteJob(cfg, s, k, work);
      OneRow(s, t, k) && Tracked(cfg, t) && t.offered.Keys <= s.offered.Keys
  {
    hide ExecuteJob, CandidatesKept, Firsts;
    if s.run.status.IsTerminal() {
      LateExecution(cfg, s, k, work);
    } else {
      ExecuteOutcome(cfg, s, k, work);
    }
  }

  lemma StepKeepsLine(cfg: Config, s: State, e: Event)
    requires cfg.Valid() && General(cfg, s) && Lined(s) && InLine(s, e)
    ensures Lined(Step(cfg, s, e))
  {
    hide AdvanceRun, ExecuteJob, General, Tracked;
    match e
    case Advance =>
      if AdvanceRun(cfg, s).Ok? {
        DecisionsPublish(cfg, s);
        PublishingKeepsLine(cfg, s, AdvanceRun(cfg, s).value);
      }
    case Cancel =>
    case Execute(k, work) =>
      if k < |s.jobs| && k in s.offered {
        GeneralParts(cfg, s);
        ExecuteShrinks(cfg, s, k, work);
        var t := ExecuteJob(cfg, s, k, work);
        CopiesKeepPriority(cfg, s, t, k);
        ExecutionKeepsLine(s, t, k);
      }
  }

  // ---- stages owed ----

  ghost predicate StageOn(s: State, i: nat, stage: Stage, k: nat) {
    k in s.offered && k < |s.jobs| && s.jobs[k].kind == J.Validate(stage) && s.jobs[k].candidate == Some(i)
  }

  ghost predicate Once(s: State, i: nat, stage: Stage) { exists k :: StageOn(s, i, stage, k) }

  ghost predicate Twice(s: State, i: nat, stage: Stage) {
    exists k, l :: k != l && StageOn(s, i, stage, k) && StageOn(s, i, stage, l)
  }

  /** A stage not yet run may be given two jobs, a spent one and its successor. */
  ghost function Owed(s: State, c: C.CandidateRecord, i: nat, stage: Stage): int {
    if c.status in {C.Coding, C.Validating} && !c.validation.Ran(stage)
    then 2 - Bit(Once(s, i, stage)) - Bit(Twice(s, i, stage)) else 0
  }

  ghost function OwedTo(s: State, c: C.CandidateRecord, i: nat): int {
    Owed(s, c, i, Build) + Owed(s, c, i, Test) + Owed(s, c, i, StaticAnalysis)
  }

  ghost function TotalOwed(s: State, n: nat): int
    requires n <= |s.candidates|
  {
    if n == 0 then 0 else TotalOwed(s, n - 1) + OwedTo(s, s.candidates[n - 1], n - 1)
  }

  lemma OwedIsSmall(s: State, c: C.CandidateRecord, i: nat)
    ensures 0 <= OwedTo(s, c, i) <= 6
  {
    forall stage: Stage
      ensures Twice(s, i, stage) ==> Once(s, i, stage)
    {
    }
  }

  lemma {:induction false} TotalIsSmall(s: State, n: nat)
    requires n <= |s.candidates|
    ensures 0 <= TotalOwed(s, n) <= 6 * n
  {
    if n > 0 {
      TotalIsSmall(s, n - 1);
      OwedIsSmall(s, s.candidates[n - 1], n - 1);
    }
  }

  /** Nobody but candidate `j` is owed more than before, and `j` at most `extra` more. */
  lemma {:induction false} TotalGrows(s: State, t: State, n: nat, j: nat, extra: nat)
    requires n <= |s.candidates| == |t.candidates|
    requires forall i :: 0 <= i < n && i != j ==> OwedTo(t, t.candidates[i], i) <= OwedTo(s, s.candidates[i], i)
    requires j < n ==> OwedTo(t, t.candidates[j], j) <= OwedTo(s, s.candidates[j], j) + extra
    ensures TotalOwed(t, n) <= TotalOwed(s, n) + extra
  {
    hide OwedTo;
    if n > 0 {
      TotalGrows(s, t, n - 1, j, if j == n - 1 then 0 else extra);
    }
  }

  /** Nothing is owed more when no stage job left the offers and the candidate misses no more. */
  lemma OwedNoMore(s: State, t: State, c: C.CandidateRecord, d: C.CandidateRecord, i: nat)
    requires forall stage: Stage, k :: StageOn(s, i, stage, k) ==> StageOn(t, i, stage, k)
    requires d.status in {C.Coding, C.Validating} ==> c.status in {C.Coding, C.Validating} && d.validation.results == c.validation.results
    ensures OwedTo(t, d, i) <= OwedTo(s, c, i)
  {
    OwedIsSmall(s, c, i);
    if d.status in {C.Coding, C.Validating} {
      forall stage: Stage
        ensures Owed(t, d, i, stage) <= Owed(s, c, i, stage)
      {
        assert d.validation.Ran(stage) == c.validation.Ran(stage);
        assert Once(s, i, stage) ==> Once(t, i, stage);
        assert Twice(s, i, stage) ==> Twice(t, i, stage);
      }
    }
  }

  lemma SettlingOwesNoMore(cfg: Config, s: State, t: State)
    requires t.candidates == SettleAll(cfg, s.candidates)
    requires forall i: nat, stage: Stage, k :: StageOn(s, i, stage, k) ==> StageOn(t, i, stage, k)
    ensures |t.candidates| == |s.candidates| && TotalOwed(t, |t.candidates|) <= TotalOwed(s, |s.candidates|)
  {
    forall i | 0 <= i < |s.candidates|
      ensures OwedTo(t, t.candidates[i], i) <= OwedTo(s, s.candidates[i], i)
    {
      OwedNoMore(s, t, s.candidates[i], t.candidates[i], i);
    }
    TotalGrows(s, t, |s.candidates|, 0, 0);
  }

  // ---- the potential ----

  /** Per candidate a code job and twice three stages; per repair the same and a
      review; one first review; one plan when there is one. */
  function LineBudget(cfg: Config): nat {
    7 * cfg.candidateCount + 8 * cfg.maxRepairIterations + 1 + (if cfg.requiresPlan then 1 else 0)
  }

  function LineReserve(cfg: Config, run: R.RunRecord): int {
    var repairs := 8 * (cfg.maxRepairIterations - run.repairIterations);
    match run.status
    case Created => LineBudget(cfg) - 8 * cfg.maxRepairIterations + repairs
    case Planning => 7 * cfg.candidateCount + 1 + repairs
    case PlanReady => 7 * cfg.candidateCount + 1 + repairs
    case Coding => 1 + repairs
    case Validating => 1 + repairs
    case _ => repairs
  }

  ghost predicate LineBounded(cfg: Config, s: State) {
    && |s.jobs| <= LineBudget(cfg)
    && (Running(s) ==> |s.jobs| + LineReserve(cfg, s.run) + TotalOwed(s, |s.candidates|) <= LineBudget(cfg))
  }

  lemma RunningStaysSmall(cfg: Config, s: State)
    requires Steady(cfg, s) && Running(s)
    requires |s.jobs| + LineReserve(cfg, s.run) + TotalOwed(s, |s.candidates|) <= LineBudget(cfg)
    ensures LineBounded(cfg, s)
  {
    TotalIsSmall(s, |s.candidates|);
  }

  // ---- executions ----

  lemma RetryOwesNoMore(s: State, t: State, k: nat)
    requires k < |s.jobs| && OneRow(s, t, k) && t.candidates == s.candidates && t.offered.Keys == s.offered.Keys
    ensures TotalOwed(t, |t.candidates|) <= TotalOwed(s, |s.candidates|)
  {
    forall i: nat, stage: Stage, l | StageOn(s, i, stage, l)
      ensures StageOn(t, i, stage, l)
    {
      assert l in t.offered.Keys;
    }
    forall i | 0 <= i < |s.candidates|
      ensures OwedTo(t, t.candidates[i], i) <= OwedTo(s, s.candidates[i], i)
    {
      OwedNoMore(s, t, s.candidates[i], t.candidates[i], i);
    }
    TotalGrows(s, t, |s.candidates|, 0, 0);
  }

  lemma ReportOwesNoMore(s: State, t: State, k: nat, i: nat, stage: Stage, result: C.ToolResult)
    requires k < |s.jobs| && OneRow(s, t, k) && t.offered == s.offered - {k} && s.jobs[k].kind == J.Validate(stage)
    requires s.jobs[k].candidate == Some(i) && i < |s.candidates| && result.kind == stage
    requires |t.candidates| == |s.candidates| && t.candidates == s.candidates[i := t.candidates[i]]
      && t.candidates[i] == s.candidates[i].(validation := s.candidates[i].validation.ExtendedWith([result]))
    ensures TotalOwed(t, |t.candidates|) <= TotalOwed(s, |s.candidates|)
  {
    forall j | 0 <= j < |s.candidates|
      ensures OwedTo(t, t.candidates[j], j) <= OwedTo(s, s.candidates[j], j)
    {
      if j != i {
        assert forall other: Stage, l :: StageOn(s, j, other, l) ==> StageOn(t, j, other, l);
        OwedNoMore(s, t, s.candidates[j], t.candidates[j], j);
      } else {
        forall other: Stage
          ensures Owed(t, t.candidates[i], i, other) <= Owed(s, s.candidates[i], i, other)
        {
          ReportOwesNoMoreOf(s, t, k, i, stage, result, other);
        }
      }
    }
    TotalGrows(s, t, |s.candidates|, 0, 0);
  }

  lemma ReportOwesNoMoreOf(s: State, t: State, k: nat, i: nat, stage: Stage, result: C.ToolResult, other: Stage)
    requires k < |s.jobs| && OneRow(s, t, k) && t.offered == s.offered - {k} && s.jobs[k].kind == J.Validate(stage)
    requires i < |s.candidates| && i < |t.candidates| && result.kind == stage
    requires t.candidates[i] == s.candidates[i].(validation := s.candidates[i].validation.ExtendedWith([result]))
    ensures Owed(t, t.candidates[i], i, other) <= Owed(s, s.candidates[i], i, other)
  {
    var v, w := s.candidates[i].validation, t.candidates[i].validation;
    if other == stage {
      assert result in w.results;
      assert Owed(t, t.candidates[i], i, other) == 0;
      OwedIsPositive(s, s.candidates[i], i, other);
    } else {
      assert w.Ran(other) == v.Ran(other) by {
        assert forall r :: r in w.results <==> r in v.results || r == result;
      }
      assert forall l :: StageOn(s, i, other, l) ==> StageOn(t, i, other, l);
      assert Once(s, i, other) ==> Once(t, i, other);
      assert Twice(s, i, other) ==> Twice(t, i, other);
    }
  }

  lemma OwedIsPositive(s: State, c: C.CandidateRecord, i: nat, stage: Stage)
    ensures Owed(s, c, i, stage) >= 0
  {
  }

  lemma OtherAnswersOweNoMore(s: State, t: State, k: nat, i: nat)
    requires k < |s.jobs| && OneRow(s, t, k) && t.offered == s.offered - {k} && !s.jobs[k].kind.Validate?
    requires i < |s.candidates| == |t.candidates| && t.candidates == s.candidates[i := t.candidates[i]]
    requires t.candidates[i].status in {C.Coding, C.Validating} ==> s.candidates[i].status in {C.Coding, C.Validating}
    requires t.candidates[i].validation == s.candidates[i].validation
    ensures TotalOwed(t, |t.candidates|) <= TotalOwed(s, |s.candidates|)
  {
    forall j | 0 <= j < |s.candidates|
      ensures OwedTo(t, t.candidates[j], j) <= OwedTo(s, s.candidates[j], j)
    {
      assert forall other: Stage, l :: StageOn(s, j, other, l) ==> StageOn(t, j, other, l);
      OwedNoMore(s, t, s.candidates[j], t.candidates[j], j);
    }
    TotalGrows(s, t, |s.candidates|, 0, 0);
  }

  lemma HandledOwesNoMore(cfg: Config, s: State, t: State, k: nat, work: Work)
    requires k < |s.jobs| && OneRow(s, t, k) && work.Answered? && Handled(cfg, s, t, s.jobs[k], work)
    requires t.offered == s.offered - {k} && RowSound(cfg, s.jobs[k]) && cfg.configured <= cfg.available
    requires s.jobs[k].kind == J.Plan ==> s.candidates == []
    ensures |t.candidates| == |s.candidates| && TotalOwed(t, |t.candidates|) <= TotalOwed(s, |s.candidates|)
  {
    var j := s.jobs[k];
    if j.kind != J.Plan {
      var i := j.candidate.value;
      if j.kind.Validate? {
        ReportOwesNoMore(s, t, k, i, j.kind.stage, C.ToolResult(j.kind.stage, work.exitCode, s.candidates[i].repairIterations));
      } else {
        OtherAnswersOweNoMore(s, t, k, i);
      }
    }
  }

  lemma ExecutionKeepsLineBound(cfg: Config, s: State, k: nat, work: Work)
    requires cfg.Valid() && General(cfg, s) && cfg.configured <= cfg.available && LineBounded(cfg, s) && k in s.offered
    ensures LineBounded(cfg, ExecuteJob(cfg, s, k, work))
  {
    hide ExecuteJob, General, Tracked, TotalOwed, CandidatesKept, Firsts, OneRow, Handled, RowSound;
    GeneralParts(cfg, s);
    ExecuteShrinks(cfg, s, k, work);
    OneRowSameCount(s, ExecuteJob(cfg, s, k, work), k);
    if s.run.status.IsTerminal() {
      LateExecution(cfg, s, k, work);
    } else {
      ExecuteOutcome(cfg, s, k, work);
      OfferedRowIsSound(cfg, s, k);
      RunOutcomeKeepsBound(cfg, s, ExecuteJob(cfg, s, k, work), k, work);
    }
  }

  lemma OneRowSameCount(s: State, t: State, k: nat)
    requires k < |s.jobs| && OneRow(s, t, k)
    ensures |t.jobs| == |s.jobs|
  {
  }

  lemma OfferedRowIsSound(cfg: Config, s: State, k: nat)
    requires Tracked(cfg, s) && k in s.offered
    ensures k < |s.jobs| && RowSound(cfg, s.jobs[k])
  {
  }

  lemma RunOutcomeKeepsBound(cfg: Config, s: State, t: State, k: nat, work: Work)
    requires k < |s.jobs| && |t.jobs| == |s.jobs| && OneRow(s, t, k) && Outcome(cfg, s, t, k, work) && RowSound(cfg, s.jobs[k])
    requires Running(s) && CandidatesSound(cfg, s) && LineBounded(cfg, s) && cfg.configured <= cfg.available && k in s.offered
    ensures LineBounded(cfg, t)
  {
    hide TotalOwed, OneRow, RowSound;
    if work.Answered? && Handled(cfg, s, t, s.jobs[k], work) && t.offered == s.offered - {k} {
      HandledOwesNoMore(cfg, s, t, k, work);
    } else if t.run.status != Failed {
      assert t.offered.Keys == s.offered.Keys;
      RetryOwesNoMore(s, t, k);
    }
  }

  // ---- decisions ----

  lemma OffersOnlyGrow(s: State, u: State, added: seq<J.JobRecord>)
    requires u.jobs == s.jobs && u.offered == s.offered
    ensures var t := Publish(u, added);
      forall i: nat, stage: Stage, k :: StageOn(s, i, stage, k) ==> StageOn(t, i, stage, k)
  {
  }

  /** With no row unfinished, all offers are spent, so no two are of one priority. */
  lemma NeverTwice(cfg: Config, s: State, i: nat, stage: Stage)
    requires Tracked(cfg, s) && Lined(s) && !HasUnfinished(s.jobs)
    ensures !Twice(s, i, stage)
  {
    forall k: nat, l: nat | StageOn(s, i, stage, k) && StageOn(s, i, stage, l)
      ensures k >= l
    {
      assert Copies(cfg, s.offered[k], s.jobs[k]) && Copies(cfg, s.offered[l], s.jobs[l]);
      assert RowSound(cfg, s.jobs[k]) && RowSound(cfg, s.jobs[l]);
      assert s.jobs[l].status != J.Queued;
    }
  }

  lemma OpeningPays(cfg: Config, s: State, t: State, i: nat, stage: Stage)
    requires i < |s.candidates| == |t.candidates| && t.candidates[i] == s.candidates[i]
    requires s.candidates[i].status == C.Validating && !s.candidates[i].validation.Ran(stage) && !Twice(s, i, stage)
    requires forall other: Stage, k :: StageOn(s, i, other, k) ==> StageOn(t, i, other, k)
    requires exists k :: StageOn(t, i, stage, k) && !StageOn(s, i, stage, k)
    ensures OwedTo(t, t.candidates[i], i) + 1 <= OwedTo(s, s.candidates[i], i)
  {
    var c := s.candidates[i];
    forall other: Stage
      ensures Owed(t, c, i, other) + (if other == stage then 1 else 0) <= Owed(s, c, i, other)
    {
      assert Once(s, i, other) ==> Once(t, i, other);
      assert Twice(s, i, other) ==> Twice(t, i, other);
      if other == stage {
        var k :| StageOn(t, i, stage, k) && !StageOn(s, i, stage, k);
        if Once(s, i, stage) {
          var l :| StageOn(s, i, stage, l);
          assert Twice(t, i, stage);
        }
      }
    }
  }

  lemma NewStageIsOn(cfg: Config, s: State, u: State, i: nat, stage: Stage)
    requires cfg.Valid() && CandidatesIndexed(s) && i < |s.candidates| && u.jobs == s.jobs && u.offered == s.offered
    requires forall k :: k in s.offered ==> k < |s.jobs|
    requires AwaitsStage(cfg, s.candidates[i]) && C.NextStage(cfg.configured, s.candidates[i].validation) == Some(stage)
    requires !HasUnfinished(s.jobs)
    ensures var t := Publish(u, StageJobs(cfg, s.candidates, |s.jobs|));
      exists k :: StageOn(t, i, stage, k) && !StageOn(s, i, stage, k)
  {
    hide StageJobs;
    StageIsQueued(cfg, s, i, stage);
    var t := Publish(u, StageJobs(cfg, s.candidates, |s.jobs|));
    var k :| 0 <= k < |t.jobs| && t.jobs[k].status == J.Queued && t.jobs[k].candidate == Some(i) && t.jobs[k].kind == J.Validate(stage);
    assert StageOn(t, i, stage, k);
  }

  /** Every stage job opened is paid for by what its candidate was owed. */
  lemma {:induction false} StagesArePaid(cfg: Config, s: State, t: State, n: nat)
    requires n <= |s.candidates| && t.candidates == SettleAll(cfg, s.candidates)
    requires forall i: nat, stage: Stage, k :: StageOn(s, i, stage, k) ==> StageOn(t, i, stage, k)
    requires forall i: nat :: i < |s.candidates| && AwaitsStage(cfg, s.candidates[i]) ==> Pays(cfg, s, t, i)
    ensures TotalOwed(t, n) + |StageJobs(cfg, s.candidates[..n], |s.jobs|)| <= TotalOwed(s, n)
  {
    hide OwedTo, StageOn;
    if n > 0 {
      StagesArePaid(cfg, s, t, n - 1);
      var c := s.candidates[n - 1];
      assert s.candidates[..n][..n - 1] == s.candidates[..n - 1] && s.candidates[..n][n - 1] == c;
      if AwaitsStage(cfg, c) {
        assert Pays(cfg, s, t, n - 1);
      } else {
        OwedNoMore(s, t, c, t.candidates[n - 1], n - 1);
      }
    }
  }

  ghost predicate Pays(cfg: Config, s: State, t: State, i: nat)
    requires i < |s.candidates|
  {
    i < |t.candidates| && OwedTo(t, t.candidates[i], i) + 1 <= OwedTo(s, s.candidates[i], i)
  }

  lemma AwaitedIsPaid(cfg: Config, s: State, u: State, i: nat)
    requires cfg.Valid() && Tracked(cfg, s) && Lined(s) && CandidatesIndexed(s) && !HasUnfinished(s.jobs)
    requires u.jobs == s.jobs && u.offered == s.offered && u.candidates == SettleAll(cfg, s.candidates)
    requires i < |s.candidates| && AwaitsStage(cfg, s.candidates[i])
    ensures Pays(cfg, s, Publish(u, StageJobs(cfg, s.candidates, |s.jobs|)), i)
  {
    hide Tracked, StageJobs, HasUnfinished, Twice, OwedTo, Publish;
    var t := Publish(u, StageJobs(cfg, s.candidates, |s.jobs|));
    var stage := C.NextStage(cfg.configured, s.candidates[i].validation).value;
    NeverTwice(cfg, s, i, stage);
    OffersOnlyGrow(s, u, StageJobs(cfg, s.candidates, |s.jobs|));
    NewStageIsOn(cfg, s, u, i, stage);
    OpeningPays(cfg, s, t, i, stage);
  }

  lemma StagesKeepLineBound(cfg: Config, s: State, run: R.RunRecord)
    requires cfg.Valid() && Tracked(cfg, s) && Steady(cfg, s) && Lined(s) && CandidatesIndexed(s) && !HasUnfinished(s.jobs)
    requires LineBounded(cfg, s) && s.run.status in {Coding, Validating} && run == s.run.(status := Validating)
    ensures LineBounded(cfg, Publish(s.(run := run, candidates := SettleAll(cfg, s.candidates)), StageJobs(cfg, s.candidates, |s.jobs|)))
  {
    hide Tracked, Lined, StageJobs, HasUnfinished, TotalOwed, Pays, StageOn, Publish, SettleAll;
    var u := s.(run := run, candidates := SettleAll(cfg, s.candidates));
    var added := StageJobs(cfg, s.candidates, |s.jobs|);
    var t := Publish(u, added);
    OffersOnlyGrow(s, u, added);
    forall i: nat | i < |s.candidates| && AwaitsStage(cfg, s.candidates[i])
      ensures Pays(cfg, s, t, i)
    {
      AwaitedIsPaid(cfg, s, u, i);
    }
    StagesArePaid(cfg, s, t, |s.candidates|);
    assert s.candidates[..|s.candidates|] == s.candidates;
    RunningStaysSmall(cfg, t);
  }

  lemma PublishingOneOwesNoMore(cfg: Config, s: State, run: R.RunRecord, job: J.JobRecord)
    ensures var t := Publish(s.(run := run, candidates := SettleAll(cfg, s.candidates)), [job]);
      |t.candidates| == |s.candidates| && TotalOwed(t, |t.candidates|) <= TotalOwed(s, |s.candidates|)
  {
    hide Publish, TotalOwed, SettleAll;
    var u := s.(run := run, candidates := SettleAll(cfg, s.candidates));
    OffersOnlyGrow(s, u, [job]);
    SettlingOwesNoMore(cfg, s, Publish(u, [job]));
  }

  lemma ReviewKeepsLineBound(cfg: Config, s: State, viable: seq<C.CandidateRecord>)
    requires Steady(cfg, s) && LineBounded(cfg, s) && s.run.status in {Coding, Validating} && viable != []
    ensures var u := s.(candidates := SettleAll(cfg, s.candidates));
      ReviewBest(cfg, u, viable).Ok? && LineBounded(cfg, ReviewBest(cfg, u, viable).value)
  {
    hide Publish, TotalOwed, SettleAll, Pick, OpenJob;
    var run := R.StartReviewing(s.run).value;
    var job := OpenJob(cfg, |s.jobs|, J.ReviewCode, Some(Pick(viable).index), J.Normal);
    PublishingOneOwesNoMore(cfg, s, run, job);
    RunningStaysSmall(cfg, Publish(s.(run := run, candidates := SettleAll(cfg, s.candidates)), [job]));
  }

  lemma RepairKeepsLineBound(cfg: Config, s: State, target: Option<nat>)
    requires Steady(cfg, s) && LineBounded(cfg, s) && s.run.status in {Coding, Validating, Reviewing}
    requires RepairOrFail(cfg, s, target).Ok?
    ensures LineBounded(cfg, RepairOrFail(cfg, s, target).value)
  {
    hide TotalOwed, OpenJob;
    var t := RepairOrFail(cfg, s, target).value;
    if !t.run.status.IsTerminal() {
      RepairShape(cfg, s, target);
      RepairOwesSix(cfg, s, target);
      RunningStaysSmall(cfg, t);
    }
  }

  lemma RepairOwesSix(cfg: Config, s: State, target: Option<nat>)
    requires s.run.status in {Coding, Validating, Reviewing}
    requires RepairOrFail(cfg, s, target).Ok? && !RepairOrFail(cfg, s, target).value.run.status.IsTerminal()
    ensures var t := RepairOrFail(cfg, s, target).value;
      |t.candidates| == |s.candidates| && TotalOwed(t, |t.candidates|) <= TotalOwed(s, |s.candidates|) + 6
  {
    hide OpenJob, OwedTo, StageOn;
    RepairShape(cfg, s, target);
    var t := RepairOrFail(cfg, s, target).value;
    OffersOnlyGrow(s, s.(run := t.run, candidates := t.candidates), [OpenJob(cfg, |s.jobs|, J.Code, target, J.High)]);
    forall i | 0 <= i < |s.candidates| && i != target.value
      ensures OwedTo(t, t.candidates[i], i) <= OwedTo(s, s.candidates[i], i)
    {
      OwedNoMore(s, t, s.candidates[i], t.candidates[i], i);
    }
    OwedIsSmall(s, s.candidates[target.value], target.value);
    OwedIsSmall(t, t.candidates[target.value], target.value);
    TotalGrows(s, t, |s.candidates|, target.value, 6);
  }

  lemma SettlingKeepsLineBound(cfg: Config, s: State)
    requires LineBounded(cfg, s)
    ensures LineBounded(cfg, s.(candidates := SettleAll(cfg, s.candidates)))
  {
    hide TotalOwed, SettleAll;
    var u := s.(candidates := SettleAll(cfg, s.candidates));
    assert forall i: nat, stage: Stage, k :: StageOn(s, i, stage, k) ==> StageOn(u, i, stage, k);
    SettlingOwesNoMore(cfg, s, u);
  }

  lemma CandidateDecisionKeepsLineBound(cfg: Config, s: State)
    requires cfg.Valid() && Tracked(cfg, s) && Steady(cfg, s) && Lined(s) && CandidatesIndexed(s) && !HasUnfinished(s.jobs)
    requires LineBounded(cfg, s) && s.run.status in {Coding, Validating} && AdvanceCandidates(cfg, s).Ok?
    ensures LineBounded(cfg, AdvanceCandidates(cfg, s).value)
  {
    hide Tracked, Lined, StageJobs, HasUnfinished, Publish, SettleAll, Settled, S.Viable, RepairOrFail, ReviewBest, LineBounded;
    var u := s.(candidates := SettleAll(cfg, s.candidates));
    var settled := Settled(u.candidates);
    SettlingKeepsLineBound(cfg, s);
    if StageJobs(cfg, s.candidates, |s.jobs|) != [] {
      StagesKeepLineBound(cfg, s, s.run.(status := Validating));
    } else if settled != [] {
      if S.Viable(settled) != [] {
        ReviewKeepsLineBound(cfg, s, S.Viable(settled));
      } else {
        RepairKeepsLineBound(cfg, u, Some(settled[0].index));
      }
    }
  }

  lemma ReviewDecisionKeepsLineBound(cfg: Config, s: State)
    requires Steady(cfg, s) && LineBounded(cfg, s) && s.run.status == Reviewing && AdvanceReview(cfg, s).Ok?
    ensures LineBounded(cfg, AdvanceReview(cfg, s).value)
  {
    hide RepairOrFail, WithVerdict, Pick, TotalOwed;
    var passed, failing := WithVerdict(s.candidates, C.Pass), WithVerdict(s.candidates, C.Fail);
    if passed == [] {
      RepairKeepsLineBound(cfg, s, if failing != [] then Some(failing[0].index)
                                   else if s.candidates != [] then Some(s.candidates[0].index) else None);
    }
  }

  lemma OpeningKeepsLineBound(cfg: Config, s: State, run: R.RunRecord)
    requires s.candidates == [] && run == s.run.(status := Coding) && Steady(cfg, s)
    requires |s.jobs| + 7 * cfg.candidateCount + LineReserve(cfg, run) <= LineBudget(cfg)
    ensures LineBounded(cfg, OpenCandidates(cfg, s.(run := run)))
  {
    hide Publish, TotalOwed;
    var t := OpenCandidates(cfg, s.(run := run));
    TotalIsSmall(t, |t.candidates|);
    RunningStaysSmall(cfg, t);
  }

  lemma FirstDecisionKeepsLineBound(cfg: Config, s: State)
    requires cfg.Valid() && Steady(cfg, s) && LineBounded(cfg, s) && s.run.status in {Created, PlanReady} && s.candidates == []
    requires !HasUnfinished(s.jobs) && AdvanceRun(cfg, s).Ok?
    ensures LineBounded(cfg, AdvanceRun(cfg, s).value)
  {
    hide HasUnfinished, OpenCandidates, Publish;
    if s.run.status == PlanReady || !cfg.requiresPlan {
      OpeningKeepsLineBound(cfg, s, s.run.(status := Coding));
    }
  }

  lemma DecisionKeepsLineBound(cfg: Config, s: State)
    requires cfg.Valid() && General(cfg, s) && Lined(s) && LineBounded(cfg, s) && AdvanceRun(cfg, s).Ok?
    ensures LineBounded(cfg, AdvanceRun(cfg, s).value)
  {
    GeneralParts(cfg, s);
    hide General, Tracked, CandidatesKept, Firsts, Lined, HasUnfinished, LineBounded, AdvanceCandidates, AdvanceReview;
    if Running(s) && !HasUnfinished(s.jobs) {
      if s.run.status in {Coding, Validating} {
        CandidateDecisionKeepsLineBound(cfg, s);
      } else if s.run.status == Reviewing {
        ReviewDecisionKeepsLineBound(cfg, s);
      } else if s.run.status in {Created, PlanReady} {
        FirstDecisionKeepsLineBound(cfg, s);
      }
    }
  }

  lemma StepKeepsLineBound(cfg: Config, s: State, e: Event)
    requires cfg.Valid() && General(cfg, s) && Lined(s) && LineBounded(cfg, s) && cfg.configured <= cfg.available
    ensures LineBounded(cfg, Step(cfg, s, e))
  {
    hide General, Lined, AdvanceRun, ExecuteJob, TotalOwed;
    match e
    case Advance =>
      if AdvanceRun(cfg, s).Ok? {
        DecisionKeepsLineBound(cfg, s);
      }
    case Cancel =>
    case Execute(k, work) =>
      if k < |s.jobs| && k in s.offered {
        ExecutionKeepsLineBound(cfg, s, k, work);
      }
  }

  lemma {:induction false} LineAlways(cfg: Config, events: seq<Event>)
    requires cfg.Valid() && cfg.configured <= cfg.available && InLineRun(cfg, Init(cfg), events)
    ensures var s := Exec(cfg, Init(cfg), events); Lined(s) && LineBounded(cfg, s)
  {
    if events != [] {
      var before := events[..|events| - 1];
      LineAlways(cfg, before);
      GeneralAlways(cfg, before);
      hide General, Step, Lined, LineBounded, InLine;
      StepKeepsLine(cfg, Exec(cfg, Init(cfg), before), events[|events| - 1]);
      StepKeepsLineBound(cfg, Exec(cfg, Init(cfg), before), events[|events| - 1]);
    }
  }

  // ---- exactly ----

  ghost predicate LineExceeds(cfg: Config, bound: nat) {
    exists events :: InLineRun(cfg, Init(cfg), events) && |Exec(cfg, Init(cfg), events).jobs| > bound
  }

  /** With every job claimed in line, the jobs of a run are bounded, whatever the
      retry policy, if and only if every configured tool is available. */
  lemma InLineWorkIsBoundedExactly(cfg: Config)
    requires cfg.Valid()
    ensures !LineExceeds(cfg, LineBudget(cfg)) <==> cfg.configured <= cfg.available
    ensures !(cfg.configured <= cfg.available) ==> forall bound: nat :: LineExceeds(cfg, bound)
  {
    hide Exec, Init, InLineRun, LineBudget, Lined;
    if cfg.configured <= cfg.available {
      forall events | InLineRun(cfg, Init(cfg), events)
        ensures |Exec(cfg, Init(cfg), events).jobs| <= LineBudget(cfg)
      {
        LineAlways(cfg, events);
      }
    } else {
      forall bound: nat
        ensures LineExceeds(cfg, bound)
      {
        var events := UnboundedOtherwise(cfg, bound);
      }
    }
  }

  /** In line, a run is changed at most so often before it has ended. */
  lemma InLineChangesAreBounded(cfg: Config, events: seq<Event>)
    requires cfg.Valid() && cfg.configured <= cfg.available && InLineRun(cfg, Init(cfg), events)
    ensures Changes(cfg, Init(cfg), events) <= LineBudget(cfg) * PolicyCap(cfg) + LineBudget(cfg) + 1
  {
    ChangesAreSpent(cfg, events);
    TrackedAlways(cfg, events);
    LineAlways(cfg, events);
    var jobs := Exec(cfg, Init(cfg), events).jobs;
    hide Exec, Init, Changes, LineBudget, PolicyCap;
    AttemptsBelow(cfg, jobs);
    MultiplyMonotone(|jobs|, LineBudget(cfg), PolicyCap(cfg));
  }
}
