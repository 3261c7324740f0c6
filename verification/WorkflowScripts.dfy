/** Building runs: lemmas that return the events leading from one state to another. */
module WorkflowScripts {
  import opened Common
  import opened RunStateMachine
  import opened Failures
  import opened Workflow
  import opened WorkflowQueue
  import opened WorkflowSafety
  import R = Runs
  import C = Candidates
  import J = Jobs

  lemma {:induction false} ExecConcat(cfg: Config, s: State, a: seq<Event>, b: seq<Event>)
    ensures Exec(cfg, s, a + b) == Exec(cfg, Exec(cfg, s, a), b)
  {
    if b == [] {
      assert a + b == a;
    } else {
      ExecConcat(cfg, s, a, b[..|b| - 1]);
      assert (a + b)[..|a + b| - 1] == a + b[..|b| - 1];
    }
  }

  lemma ExecOne(cfg: Config, s: State, e: Event)
    ensures Exec(cfg, s, [e]) == Step(cfg, s, e)
  {
    assert [e][..0] == [];
    assert Exec(cfg, s, []) == s;
  }

  lemma ExecFirst(cfg: Config, s: State, e: Event, rest: seq<Event>)
    ensures Exec(cfg, s, [e] + rest) == Exec(cfg, Step(cfg, s, e), rest)
  {
    ExecConcat(cfg, s, [e], rest);
    ExecOne(cfg, s, e);
  }

  /** On offer although the row is finished. */
  ghost predicate Spent(s: State, k: nat) {
    k < |s.jobs| && k in s.offered && s.jobs[k].status != J.Queued
  }

  /** What is spent stays on offer, row and copy. */
  ghost predicate SpentStay(s: State, t: State) {
    forall k: nat :: Spent(s, k) ==> Spent(t, k) && t.jobs[k] == s.jobs[k] && t.offered[k] == s.offered[k]
  }

  lemma DecisionsLeaveSpent(cfg: Config, s: State)
    ensures SpentStay(s, Step(cfg, s, Advance))
  {
    hide AdvanceRun;
    if AdvanceRun(cfg, s).Ok? {
      DecisionsPublish(cfg, s);
      var t := AdvanceRun(cfg, s).value;
      var added :| NewJobs(cfg, added) && t.jobs == s.jobs + added && t.offered == Publish(s, added).offered;
      assert forall k :: 0 <= k < |s.jobs| ==> t.jobs[k] == s.jobs[k];
    }
  }

  lemma {:induction false} ExecKeepsTracked(cfg: Config, s: State, events: seq<Event>)
    requires cfg.Valid() && Tracked(cfg, s) && Steady(cfg, s)
    ensures Tracked(cfg, Exec(cfg, s, events)) && Steady(cfg, Exec(cfg, s, events))
  {
    if events != [] {
      ExecKeepsTracked(cfg, s, events[..|events| - 1]);
      hide Tracked, Steady, Step;
      StepKeepsTracked(cfg, Exec(cfg, s, events[..|events| - 1]), events[|events| - 1]);
    }
  }

  lemma NoneUnfinished(cfg: Config, s: State)
    requires Inv(cfg, s) && NoneQueued(s.jobs)
    ensures !HasUnfinished(s.jobs)
  {
    UnfinishedMeansQueued(cfg, s.jobs);
  }

  ghost predicate Named(jobs: seq<J.JobRecord>, i: nat) {
    exists k :: 0 <= k < |jobs| && jobs[k].status == J.Queued && jobs[k].candidate == Some(i)
  }

  /** Nothing is spent, and what is on offer stands in line by age alone. */
  ghost predicate Orderly(s: State) {
    && NoneSpent(s)
    && forall k, l :: k in s.offered && l in s.offered ==> s.offered[k].priority == s.offered[l].priority
  }

  lemma EldestIsFirst(s: State, k: nat)
    requires Orderly(s) && k in s.offered && forall l :: 0 <= l < k && l < |s.jobs| ==> s.jobs[l].status != J.Queued
    ensures FirstInLine(s, k)
  {
    forall l | l in s.offered && l != k
      ensures Ahead(s, k, l)
    {
      assert s.jobs[l].status == J.Queued;
    }
  }

  lemma FewerStayOrderly(s: State, u: State, k: nat)
    requires Orderly(s) && k < |s.jobs| && u.offered == s.offered - {k}
    requires |u.jobs| == |s.jobs| && forall l :: 0 <= l < |s.jobs| && l != k ==> u.jobs[l] == s.jobs[l]
    ensures Orderly(u)
  {
  }

  lemma NothingLeft(s: State)
    requires NoneSpent(s) && NoneQueued(s.jobs)
    ensures s.offered == map[]
  {
    assert forall k :: k !in s.offered;
  }

  lemma {:induction false} InLineConcat(cfg: Config, s: State, a: seq<Event>, b: seq<Event>)
    requires InLineRun(cfg, s, a) && InLineRun(cfg, Exec(cfg, s, a), b)
    ensures InLineRun(cfg, s, a + b)
  {
    hide Step, InLine;
    if b == [] {
      assert a + b == a;
    } else {
      var front := b[..|b| - 1];
      InLineConcat(cfg, s, a, front);
      ExecConcat(cfg, s, a, front);
      assert (a + b)[..|a + b| - 1] == a + front;
    }
  }

  lemma InLineOne(cfg: Config, s: State, e: Event)
    requires InLine(s, e)
    ensures InLineRun(cfg, s, [e])
  {
    assert [e][..0] == [];
    assert Exec(cfg, s, []) == s && InLineRun(cfg, s, []);
  }

  lemma InLineFirst(cfg: Config, s: State, e: Event, rest: seq<Event>)
    requires InLine(s, e) && InLineRun(cfg, Step(cfg, s, e), rest)
    ensures InLineRun(cfg, s, [e] + rest)
  {
    InLineOne(cfg, s, e);
    ExecOne(cfg, s, e);
    InLineConcat(cfg, s, [e], rest);
  }

  /** All queued jobs have been answered with `work`, each moving its own candidate. */
  ghost predicate AllAnswered(cfg: Config, s: State, t: State, work: Work)
    requires work.Answered?
  {
    && Inv(cfg, t) && t.run == s.run && NoneQueued(t.jobs)
    && |t.jobs| == |s.jobs| && |t.candidates| == |s.candidates|
    && (forall k :: 0 <= k < |s.jobs| && s.jobs[k].status == J.Queued ==>
          && s.jobs[k].candidate.Some? && s.jobs[k].candidate.value < |s.candidates|
          && t.candidates[s.jobs[k].candidate.value]
             == Effect(cfg, s.candidates[s.jobs[k].candidate.value], s.jobs[k].kind, work))
    && (forall i :: 0 <= i < |s.candidates| && !Named(s.jobs, i) ==> t.candidates[i] == s.candidates[i])
    && SpentStay(s, t)
  }

  lemma AnswerOne(cfg: Config, s: State, k: nat, work: Work)
    requires cfg.Valid() && Inv(cfg, s) && Live(cfg, s) && s.run.status in {Coding, Validating}
    requires work.Answered? && k < |s.jobs| && s.jobs[k].status == J.Queued
    ensures s.jobs[k].kind != J.Plan && Fits(cfg, s, s.jobs[k]) && OneJobEach(s) && JobsFit(cfg, s)
    ensures var u := Step(cfg, s, Execute(k, work));
            && Inv(cfg, u) && Live(cfg, u) && u.run == s.run && SpentStay(s, u)
            && |u.jobs| == |s.jobs| && u.jobs[k].status != J.Queued && u.offered == s.offered - {k} && k in s.offered
            && (forall l :: 0 <= l < |s.jobs| && l != k ==> u.jobs[l] == s.jobs[l])
            && u.candidates == s.candidates[s.jobs[k].candidate.value :=
                 Effect(cfg, s.candidates[s.jobs[k].candidate.value], s.jobs[k].kind, work)]
  {
    hide ExecuteJob, Dispatch, Inv, Effect, JobSound, CandidatesSound, ApprovalsSound;
    QueuedIsClaimable(cfg, s, k);
    AnswerShape(cfg, s, k, work);
    AnswerKeepsInv(cfg, s, k, work);
    StillLive(cfg, ExecuteJob(cfg, s, k, work));
  }

  lemma QueuedIsClaimable(cfg: Config, s: State, k: nat)
    requires Inv(cfg, s) && k < |s.jobs| && s.jobs[k].status == J.Queued
    ensures Claimable(s, k) && JobSound(cfg, s.jobs[k])
  {
  }

  lemma NothingToAnswer(cfg: Config, s: State, work: Work)
    requires Inv(cfg, s) && work.Answered? && NoneQueued(s.jobs)
    ensures Exec(cfg, s, []) == s && AllAnswered(cfg, s, s, work)
    ensures Orderly(s) ==> s.offered == map[]
    ensures InLineRun(cfg, s, [])
  {
    if Orderly(s) {
      NothingLeft(s);
    }
  }

  lemma {:induction false} AnswerAll(cfg: Config, s: State, work: Work, from: nat) returns (events: seq<Event>)
    requires cfg.Valid() && Inv(cfg, s) && Live(cfg, s) && s.run.status in {Coding, Validating}
    requires work.Answered? && from <= |s.jobs|
    requires forall k :: 0 <= k < from ==> s.jobs[k].status != J.Queued
    ensures AllAnswered(cfg, s, Exec(cfg, s, events), work)
    ensures Orderly(s) ==> Exec(cfg, s, events).offered == map[] && InLineRun(cfg, s, events)
    decreases |s.jobs| - from
  {
    hide Step, Inv, Live, Orderly, NoneSpent, SpentStay, AllAnswered, NoneQueued, Exec, InLineRun, Fits, Effect;
    if from == |s.jobs| {
      NothingToAnswer(cfg, s, work);
      return [];
    }
    if s.jobs[from].status != J.Queued {
      events := AnswerAll(cfg, s, work, from + 1);
      return;
    }
    AnswerOne(cfg, s, from, work);
    var u := Step(cfg, s, Execute(from, work));
    var rest := AnswerAll(cfg, u, work, from + 1);
    events := [Execute(from, work)] + rest;
    ExecFirst(cfg, s, Execute(from, work), rest);
    AnsweredRest(cfg, s, u, Exec(cfg, u, rest), from, work);
    if Orderly(s) {
      EldestIsFirst(s, from);
      FewerStayOrderly(s, u, from);
      InLineFirst(cfg, s, Execute(from, work), rest);
    }
  }

  lemma AnsweredRest(cfg: Config, s: State, u: State, t: State, from: nat, work: Work)
    requires work.Answered? && from < |s.jobs| && s.jobs[from].status == J.Queued
    requires s.run == u.run && OneJobEach(s) && JobsFit(cfg, s)
    requires s.run.status in {Coding, Validating}
    requires Fits(cfg, s, s.jobs[from]) && s.jobs[from].kind != J.Plan
    requires |u.jobs| == |s.jobs| && u.jobs[from].status != J.Queued
    requires forall l :: 0 <= l < |s.jobs| && l != from ==> u.jobs[l] == s.jobs[l]
    requires SpentStay(s, u)
    requires u.candidates == s.candidates[s.jobs[from].candidate.value :=
               Effect(cfg, s.candidates[s.jobs[from].candidate.value], s.jobs[from].kind, work)]
    requires AllAnswered(cfg, u, t, work)
    ensures AllAnswered(cfg, s, t, work)
  {
    var c := s.jobs[from].candidate.value;
    assert !Named(u.jobs, c) by {
      forall l | 0 <= l < |u.jobs| && u.jobs[l].status == J.Queued
        ensures u.jobs[l].candidate != Some(c)
      {
        assert u.jobs[l] == s.jobs[l];
        assert l < from || from < l;
      }
    }
    forall k | 0 <= k < |s.jobs| && s.jobs[k].status == J.Queued
      ensures s.jobs[k].candidate.Some? && s.jobs[k].candidate.value < |s.candidates|
      ensures t.candidates[s.jobs[k].candidate.value]
              == Effect(cfg, s.candidates[s.jobs[k].candidate.value], s.jobs[k].kind, work)
    {
      assert Fits(cfg, s, s.jobs[k]);
      if k != from {
        assert u.jobs[k] == s.jobs[k];
        assert k < from || from < k;
      }
    }
    forall i | 0 <= i < |s.candidates| && !Named(s.jobs, i)
      ensures t.candidates[i] == s.candidates[i]
    {
      forall l | 0 <= l < |u.jobs| && u.jobs[l].status == J.Queued
        ensures u.jobs[l].candidate != Some(i)
      {
        assert u.jobs[l] == s.jobs[l];
      }
      assert !Named(u.jobs, i);
    }
  }

  // ---- killing jobs behind the run's back ----

  /** The policy keeps asking for a retry although the job has no attempt left. */
  ghost predicate Insists(cfg: Config, exc: Exception) {
    forall a: nat :: a <= cfg.jobMaxAttempts ==> cfg.retry.Decide(Classify(exc), a).ShouldRetryJob()
  }

  lemma SomeExceptionInsists(cfg: Config) returns (exc: Exception)
    requires !cfg.retry.Within(cfg.jobMaxAttempts)
    ensures Insists(cfg, exc)
  {
    exc := if cfg.retry.maxAttempts > cfg.jobMaxAttempts then OtherError else StructuredOutputError;
  }

  /** One failed execution that the policy retries. */
  lemma FailOnce(cfg: Config, s: State, k: nat, exc: Exception)
    requires cfg.Valid() && Inv(cfg, s) && Live(cfg, s) && Insists(cfg, exc) && Claimable(s, k)
    ensures var t := Step(cfg, s, Execute(k, Threw(exc)));
            && Inv(cfg, t) && Live(cfg, t) && t.run == s.run && t.candidates == s.candidates
            && |t.jobs| == |s.jobs| && t.jobs == s.jobs[k := t.jobs[k]] && t.jobs[k].attempt == s.jobs[k].attempt + 1
            && t.jobs[k].kind == s.jobs[k].kind && t.jobs[k].candidate == s.jobs[k].candidate
            && k in t.offered && t.offered == s.offered[k := t.offered[k]]
            && t.jobs[k].status == if s.jobs[k].attempt + 1 < cfg.jobMaxAttempts then J.Queued else J.Dead
  {
    assert JobSound(cfg, s.jobs[k]);
    FailureShape(cfg, s, k, Classify(exc));
    FailureKeepsInv(cfg, s, k, Classify(exc));
  }

  lemma {:induction false} KillOne(cfg: Config, s: State, k: nat, exc: Exception) returns (events: seq<Event>)
    requires cfg.Valid() && Inv(cfg, s) && Live(cfg, s) && Insists(cfg, exc) && Claimable(s, k)
    ensures var t := Exec(cfg, s, events);
            && Inv(cfg, t) && Live(cfg, t) && t.run == s.run && t.candidates == s.candidates
            && |t.jobs| == |s.jobs| && t.jobs == s.jobs[k := t.jobs[k]] && Spent(t, k)
            && t.jobs[k].kind == s.jobs[k].kind && t.jobs[k].candidate == s.jobs[k].candidate
            && t.offered == s.offered[k := t.offered[k]]
    decreases cfg.jobMaxAttempts - s.jobs[k].attempt
  {
    assert JobSound(cfg, s.jobs[k]);
    FailOnce(cfg, s, k, exc);
    var u := Step(cfg, s, Execute(k, Threw(exc)));
    hide Step, Live;
    if u.jobs[k].status != J.Queued {
      events := [Execute(k, Threw(exc))];
      ExecOne(cfg, s, Execute(k, Threw(exc)));
    } else {
      assert Claimable(u, k);
      var rest := KillOne(cfg, u, k, exc);
      events := [Execute(k, Threw(exc))] + rest;
      ExecFirst(cfg, s, Execute(k, Threw(exc)), rest);
      var t := Exec(cfg, u, rest);
      assert s.jobs[k := u.jobs[k]][k := t.jobs[k]] == s.jobs[k := t.jobs[k]];
      assert s.offered[k := u.offered[k]][k := t.offered[k]] == s.offered[k := t.offered[k]];
    }
  }

  /** Every queued row of `s` is spent in `t`, and nothing else has moved. */
  ghost predicate AllSpent(s: State, t: State) {
    && t.run == s.run && t.candidates == s.candidates && |t.jobs| == |s.jobs| && NoneQueued(t.jobs)
    && SpentStay(s, t)
    && forall k :: 0 <= k < |s.jobs| && s.jobs[k].status == J.Queued ==>
         Spent(t, k) && t.jobs[k].kind == s.jobs[k].kind && t.jobs[k].candidate == s.jobs[k].candidate
  }

  lemma {:induction false} KillAll(cfg: Config, s: State, exc: Exception, from: nat) returns (events: seq<Event>)
    requires cfg.Valid() && Inv(cfg, s) && Live(cfg, s) && Insists(cfg, exc) && from <= |s.jobs|
    requires forall k :: 0 <= k < from ==> s.jobs[k].status != J.Queued
    ensures AllSpent(s, Exec(cfg, s, events)) && Inv(cfg, Exec(cfg, s, events))
    decreases |s.jobs| - from
  {
    hide Live;
    if from == |s.jobs| {
      return [];
    }
    if s.jobs[from].status != J.Queued {
      events := KillAll(cfg, s, exc, from + 1);
      return;
    }
    var first := KillOne(cfg, s, from, exc);
    var u := Exec(cfg, s, first);
    var rest := KillAll(cfg, u, exc, from + 1);
    events := first + rest;
    ExecConcat(cfg, s, first, rest);
    SpentOneByOne(s, u, Exec(cfg, u, rest), from);
  }

  lemma SpentOneByOne(s: State, u: State, t: State, k: nat)
    requires k < |s.jobs| && s.jobs[k].status == J.Queued
    requires u.run == s.run && u.candidates == s.candidates && |u.jobs| == |s.jobs| && u.jobs == s.jobs[k := u.jobs[k]]
    requires Spent(u, k) && u.jobs[k].kind == s.jobs[k].kind && u.jobs[k].candidate == s.jobs[k].candidate
    requires u.offered == s.offered[k := u.offered[k]]
    requires AllSpent(u, t)
    ensures AllSpent(s, t)
  {
    forall l: nat | Spent(s, l)
      ensures Spent(t, l) && t.jobs[l] == s.jobs[l] && t.offered[l] == s.offered[l]
    {
      assert l != k && u.jobs[l] == s.jobs[l] && Spent(u, l);
    }
    forall l | 0 <= l < |s.jobs| && s.jobs[l].status == J.Queued
      ensures Spent(t, l) && t.jobs[l].kind == s.jobs[l].kind && t.jobs[l].candidate == s.jobs[l].candidate
    {
      if l != k {
        assert u.jobs[l] == s.jobs[l];
      }
    }
  }

  // ---- reaching the first round ----

  /** The start of the first coding round: every candidate has its queued job. */
  ghost predicate FirstRound(cfg: Config, s: State) {
    && Inv(cfg, s) && Live(cfg, s) && s.run.status == Coding && s.run.repairIterations == 0 && Orderly(s)
    && |s.candidates| == cfg.candidateCount
    && (forall i :: 0 <= i < |s.candidates| ==> s.candidates[i] == OpenCandidate(i) && Named(s.jobs, i))
  }

  lemma OpeningIsFirstRound(cfg: Config, s: State)
    requires cfg.Valid() && Inv(cfg, s) && s.run.status in {Created, PlanReady} && NoneQueued(s.jobs)
    requires s.run.repairIterations == 0 && s.offered == map[]
    ensures FirstRound(cfg, OpenCandidates(cfg, s.(run := s.run.(status := Coding))))
  {
    hide Inv, Live, Orderly, NoneQueued, OpenCandidates, OpenCandidate, Named;
    var s1 := s.(run := s.run.(status := Coding));
    CodingKeepsInv(cfg, s);
    NobodyYet(cfg, s);
    OpenedCandidates(cfg, s1);
    OpenedInOrder(cfg, s1);
    StillLive(cfg, OpenCandidates(cfg, s1));
  }

  lemma OpenedInOrder(cfg: Config, s: State)
    requires s.offered == map[]
    ensures Orderly(OpenCandidates(cfg, s))
  {
    hide Publish, Orderly;
    PublishedInOrder(s.(candidates := s.candidates + NewCandidates(cfg.candidateCount)),
                     CodeJobs(cfg, |s.jobs|, cfg.candidateCount), J.Normal);
  }

  ghost predicate AllNew(added: seq<J.JobRecord>, priority: J.Priority) {
    forall i :: 0 <= i < |added| ==> added[i].status == J.Queued && added[i].priority == priority
  }

  lemma PublishedInOrder(s: State, added: seq<J.JobRecord>, priority: J.Priority)
    requires s.offered == map[]
    requires AllNew(added, priority)
    ensures Orderly(Publish(s, added))
  {
    var t := Publish(s, added);
    forall k | k in t.offered
      ensures k < |t.jobs| && t.jobs[k].status == J.Queued && t.offered[k].priority == priority
    {
      assert t.jobs[k] == added[k - |s.jobs|];
    }
  }

  lemma OpenedCandidates(cfg: Config, s: State)
    requires cfg.Valid() && s.candidates == []
    ensures var t := OpenCandidates(cfg, s);
            && t.run == s.run && |t.candidates| == cfg.candidateCount
            && forall i :: 0 <= i < |t.candidates| ==> t.candidates[i] == OpenCandidate(i) && Named(t.jobs, i)
  {
    var t := OpenCandidates(cfg, s);
    hide OpenJob, OpenCandidate, JobSound;
    forall i | 0 <= i < |t.candidates|
      ensures Named(t.jobs, i)
    {
      NewCodeJob(cfg, |s.jobs| + i, i);
      assert t.jobs[|s.jobs| + i] == OpenJob(cfg, |s.jobs| + i, J.Code, Some(i), J.Normal);
    }
  }

  lemma StartIsSound(cfg: Config)
    ensures Inv(cfg, Init(cfg)) && NoneQueued(Init(cfg).jobs) && Tracked(cfg, Init(cfg)) && Steady(cfg, Init(cfg))
  {
  }

  lemma PlanJobOpens(cfg: Config)
    requires cfg.Valid() && cfg.requiresPlan
    ensures var s := Step(cfg, Init(cfg), Advance);
            && Inv(cfg, s) && Live(cfg, s) && s.run.status == Planning && s.run.repairIterations == 0
            && s.jobs == [OpenJob(cfg, 0, J.Plan, None, J.Normal)] && s.offered.Keys == {0}
  {
    hide Inv, Live;
    StartIsSound(cfg);
    StepKeepsInv(cfg, Init(cfg), Advance);
    PlanJobShape(cfg);
    StillLive(cfg, Step(cfg, Init(cfg), Advance));
  }

  lemma PlanJobShape(cfg: Config)
    requires cfg.Valid() && cfg.requiresPlan
    ensures var s := Step(cfg, Init(cfg), Advance);
            && s.run.status == Planning && s.run.repairIterations == 0
            && s.jobs == [OpenJob(cfg, 0, J.Plan, None, J.Normal)] && s.offered.Keys == {0}
  {
    hide OpenJob, Publish;
    assert !HasUnfinished(Init(cfg).jobs);
    var s := Step(cfg, Init(cfg), Advance);
    assert forall k :: k in s.offered <==> k == 0;
  }

  lemma PlanJobAnswers(cfg: Config, s: State, work: Work)
    requires cfg.Valid() && Inv(cfg, s) && Live(cfg, s) && work.Answered?
    requires s.run.status == Planning && s.run.repairIterations == 0
    requires s.jobs == [OpenJob(cfg, 0, J.Plan, None, J.Normal)] && s.offered.Keys == {0}
    ensures InLine(s, Execute(0, work))
    ensures var t := Step(cfg, s, Execute(0, work));
            && Inv(cfg, t) && t.run.status == PlanReady && t.run.repairIterations == 0 && NoneQueued(t.jobs) && t.offered == map[]
  {
    AnswerShape(cfg, s, 0, work);
    AnswerKeepsInv(cfg, s, 0, work);
  }

  lemma OpensFromHere(cfg: Config, s: State)
    requires cfg.Valid() && Inv(cfg, s) && NoneQueued(s.jobs) && s.run.repairIterations == 0 && s.offered == map[]
    requires s.run.status == PlanReady || (s.run.status == Created && !cfg.requiresPlan)
    ensures FirstRound(cfg, Step(cfg, s, Advance))
  {
    hide OpenCandidates, FirstRound, HasUnfinished, NoneQueued;
    UnfinishedMeansQueued(cfg, s.jobs);
    OpeningIsFirstRound(cfg, s);
  }

  lemma ReachFirstRound(cfg: Config) returns (events: seq<Event>)
    requires cfg.Valid()
    ensures FirstRound(cfg, Exec(cfg, Init(cfg), events)) && InLineRun(cfg, Init(cfg), events)
  {
    hide FirstRound, Inv, Live, AdvanceRun, ExecuteJob;
    var s0 := Init(cfg);
    if !cfg.requiresPlan {
      StartIsSound(cfg);
      OpensFromHere(cfg, s0);
      events := [Advance];
      ExecOne(cfg, s0, Advance);
      InLineOne(cfg, s0, Advance);
    } else {
      var work := Answered(C.Patch(true, 0), 0, C.Fail);
      PlanJobOpens(cfg);
      var s1 := Step(cfg, s0, Advance);
      PlanJobAnswers(cfg, s1, work);
      var s2 := Step(cfg, s1, Execute(0, work));
      OpensFromHere(cfg, s2);
      events := [Advance] + ([Execute(0, work)] + [Advance]);
      ExecFirst(cfg, s0, Advance, [Execute(0, work)] + [Advance]);
      ExecFirst(cfg, s1, Execute(0, work), [Advance]);
      ExecOne(cfg, s2, Advance);
      InLineOne(cfg, s2, Advance);
      InLineFirst(cfg, s1, Execute(0, work), [Advance]);
      InLineFirst(cfg, s0, Advance, [Execute(0, work)] + [Advance]);
    }
  }

  /** Every coder answered with the same patch; validation has not begun. */
  ghost predicate AllCoded(cfg: Config, s: State, patch: C.Patch) {
    && Inv(cfg, s) && Live(cfg, s) && NoneQueued(s.jobs)
    && s.run.status == Coding && s.run.repairIterations == 0 && s.offered == map[]
    && |s.candidates| == cfg.candidateCount
    && (forall i :: 0 <= i < |s.candidates| ==>
          s.candidates[i] == OpenCandidate(i).(patch := Some(patch), status := C.Validating))
  }

  lemma ReachAllCoded(cfg: Config, patch: C.Patch) returns (events: seq<Event>)
    requires cfg.Valid()
    ensures AllCoded(cfg, Exec(cfg, Init(cfg), events), patch) && InLineRun(cfg, Init(cfg), events)
  {
    var first := ReachFirstRound(cfg);
    var s := Exec(cfg, Init(cfg), first);
    var work := Answered(patch, 0, C.Fail);
    var rest := AnswerAll(cfg, s, work, 0);
    events := first + rest;
    ExecConcat(cfg, Init(cfg), first, rest);
    InLineConcat(cfg, Init(cfg), first, rest);
    var t := Exec(cfg, s, rest);
    forall i | 0 <= i < |t.candidates|
      ensures t.candidates[i] == OpenCandidate(i).(patch := Some(patch), status := C.Validating)
    {
      assert Named(s.jobs, i);
      var k :| 0 <= k < |s.jobs| && s.jobs[k].status == J.Queued && s.jobs[k].candidate == Some(i);
      assert Fits(cfg, s, s.jobs[k]);
    }
  }
}
