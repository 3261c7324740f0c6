/** The orchestrator as code: a store it reads, decides on with loops, and commits to. */
module Orchestration {
  import opened Common
  import opened RunStateMachine
  import opened Failures
  import opened Workflow
  import R = Runs
  import C = Candidates
  import J = Jobs
  import S = Selection

  lemma OpenedOneByOne(cfg: Config, s: State, created: seq<C.CandidateRecord>, added: seq<J.JobRecord>)
    requires |created| == |added| == cfg.candidateCount
    requires forall i :: 0 <= i < cfg.candidateCount ==> created[i] == OpenCandidate(i)
    requires forall i :: 0 <= i < cfg.candidateCount ==>
               added[i] == OpenJob(cfg, |s.jobs| + i, J.Code, Some(i), J.Normal)
    ensures OpenCandidates(cfg, s) == Publish(s.(candidates := s.candidates + created), added)
  {
    assert created == NewCandidates(cfg.candidateCount);
    assert added == CodeJobs(cfg, |s.jobs|, cfg.candidateCount);
  }

  class Orchestrator {
    const cfg: Config
    var run: R.RunRecord
    var candidates: seq<C.CandidateRecord>
    var jobs: seq<J.JobRecord>
    var offered: map<nat, J.JobRecord>

    function Stored(): (s: State)
      reads this
    {
      State(run, candidates, jobs, offered)
    }

    constructor (cfg: Config)
      ensures this.cfg == cfg && Stored() == Init(cfg)
    {
      this.cfg := cfg;
      run := R.RunRecord(cfg.candidateCount, cfg.maxRepairIterations, cfg.maxPlanRevisions, Created, 0, 0, 0, None, None);
      candidates, jobs, offered := [], [], map[];
    }

    method Commit(s: State)
      modifies this
      ensures Stored() == s
    {
      run, candidates, jobs, offered := s.run, s.candidates, s.jobs, s.offered;
    }

    /** Store the new jobs, then offer them to the queue one by one. */
    method Published(s: State, added: seq<J.JobRecord>) returns (t: State)
      ensures t == Publish(s, added)
    {
      var all, offers := s.jobs + added, s.offered;
      for k := |s.jobs| to |all|
        invariant forall l :: l in offers <==> l in s.offered || |s.jobs| <= l < k
        invariant forall l :: l in offers ==> offers[l] == if |s.jobs| <= l < k then all[l] else s.offered[l]
      {
        offers := offers[k := all[k]];
      }
      t := s.(jobs := all, offered := offers);
      assert offers == Publish(s, added).offered;
    }

    method AnyUnfinished() returns (found: bool)
      ensures found == HasUnfinished(jobs)
    {
      found := false;
      for k := 0 to |jobs|
        invariant !found
        invariant forall l :: 0 <= l < k ==> jobs[l].status.IsTerminal()
      {
        if !jobs[k].status.IsTerminal() {
          assert jobs[k] in jobs;
          return true;
        }
      }
    }

    /** Create the candidates one by one, each with its own job. */
    method OpenAll(started: R.RunRecord) returns (s: State)
      ensures s == OpenCandidates(cfg, Stored().(run := started))
    {
      var created: seq<C.CandidateRecord> := [];
      var added: seq<J.JobRecord> := [];
      var base := |jobs|;
      for index := 0 to cfg.candidateCount
        invariant |created| == |added| == index
        invariant forall i :: 0 <= i < index ==> created[i] == OpenCandidate(i)
        invariant forall i :: 0 <= i < index ==> added[i] == OpenJob(cfg, base + i, J.Code, Some(i), J.Normal)
      {
        created := created + [OpenCandidate(index)];
        added := added + [OpenJob(cfg, base + |added|, J.Code, Some(index), J.Normal)];
      }
      OpenedOneByOne(cfg, Stored().(run := started), created, added);
      s := Published(Stored().(run := started, candidates := candidates + created), added);
    }

    /** Send the target back to the coder, or end the run honestly. */
    method DecideRepair(s: State, target: Option<nat>) returns (r: Result<State>)
      ensures r == RepairOrFail(cfg, s, target)
    {
      if target.None? || s.run.repairIterations >= s.run.maxRepairIterations {
        var failed := R.FailRun(s.run, ReviewFailure);
        return if failed.Ok? then Ok(s.(run := failed.value)) else Raised;
      }
      if target.value >= |s.candidates| {
        return Raised;
      }
      var requested := R.RequestRepair(s.run);
      if requested.Raised? {
        return Raised;
      }
      var repaired := C.StartRepair(s.candidates[target.value]);
      if repaired.Raised? {
        return Raised;
      }
      var coding := R.StartCoding(requested.value);
      if coding.Raised? {
        return Raised;
      }
      var job := OpenJob(cfg, |s.jobs|, J.Code, target, J.High);
      var t := Published(s.(run := coding.value, candidates := s.candidates[target.value := repaired.value]), [job]);
      r := Ok(t);
    }

    /** Push each candidate through its remaining stages; decide once none is left. */
    method DecideCandidates() returns (r: Result<State>)
      ensures r == AdvanceCandidates(cfg, Stored())
    {
      var followUps: seq<J.JobRecord> := [];
      var updated := candidates;
      for i := 0 to |candidates|
        invariant |updated| == |candidates|
        invariant forall k :: 0 <= k < i ==> updated[k] == Settle(cfg, candidates[k])
        invariant forall k :: i <= k < |candidates| ==> updated[k] == candidates[k]
        invariant followUps == StageJobs(cfg, candidates[..i], |jobs|)
      {
        assert candidates[..i + 1][..i] == candidates[..i];
        var c := candidates[i];
        if c.status == C.Validating {
          var stage := C.NextStage(cfg.configured, c.validation);
          if stage.Some? {
            var job := OpenJob(cfg, |jobs| + |followUps|, J.Validate(stage.value), Some(c.index), J.High);
            followUps := followUps + [job];
          } else {
            var closed := C.RecordValidation(c, cfg.staticAnalysisIsBlocking);
            updated := updated[i := closed.value];
          }
        }
      }
      assert candidates[..|candidates|] == candidates;
      assert updated == SettleAll(cfg, candidates);
      if followUps != [] {
        var started := if run.status != Validating then R.StartValidating(run) else Ok(run);
        if started.Raised? {
          return Raised;
        }
        var t := Published(Stored().(run := started.value, candidates := updated), followUps);
        return Ok(t);
      }
      var s := Stored().(candidates := updated);
      var settled := Settled(updated);
      if settled == [] {
        return Ok(s);
      }
      var viable := S.Viable(settled);
      if viable != [] {
        r := ReviewBest(cfg, s, viable);
      } else {
        r := DecideRepair(s, Some(settled[0].index));
      }
    }

    /** Complete with the approved candidate, or repair after a rejection. */
    method DecideReview() returns (r: Result<State>)
      ensures r == AdvanceReview(cfg, Stored())
    {
      var passed := WithVerdict(candidates, C.Pass);
      if passed == [] {
        var failing := WithVerdict(candidates, C.Fail);
        var first := if failing != [] then Some(failing[0].index)
                     else if candidates != [] then Some(candidates[0].index) else None;
        r := DecideRepair(Stored(), first);
        return;
      }
      var winner := Pick(passed).index;
      var updated := candidates;
      for i := 0 to |candidates|
        invariant |updated| == |candidates|
        invariant forall k :: 0 <= k < i ==>
                    updated[k] == if candidates[k].index != winner then C.Reject(candidates[k]) else candidates[k]
        invariant forall k :: i <= k < |candidates| ==> updated[k] == candidates[k]
      {
        if candidates[i].index != winner {
          updated := updated[i := C.Reject(candidates[i])];
        }
      }
      assert updated == RejectOthers(candidates, winner);
      if winner >= |updated| {
        return Raised;
      }
      var chosen := C.Select(updated[winner]);
      if chosen.Raised? {
        return Raised;
      }
      var completed := R.Complete(R.SelectCandidate(run, winner), Some(winner));
      r := if completed.Ok? then Ok(Stored().(run := completed.value, candidates := updated[winner := chosen.value])) else Raised;
    }

    method DecideFirstStage() returns (r: Result<State>)
      ensures r == OpenFirstStage(cfg, Stored())
    {
      if cfg.requiresPlan {
        var planning := R.StartPlanning(run);
        if planning.Raised? {
          return Raised;
        }
        var t := Published(Stored().(run := planning.value), [OpenJob(cfg, |jobs|, J.Plan, None, J.Normal)]);
        return Ok(t);
      }
      var coding := R.StartCoding(run);
      if coding.Raised? {
        return Raised;
      }
      var s := OpenAll(coding.value);
      r := Ok(s);
    }

    /** Decide the next step and commit it; a decision that raises commits nothing. */
    method Advance() returns (ok: bool)
      modifies this
      ensures ok == AdvanceRun(cfg, old(Stored())).Ok?
      ensures Stored() == Step(cfg, old(Stored()), Event.Advance)
    {
      ok := true;
      if run.status.IsTerminal() || run.status.IsStopping() {
        return;
      }
      var waiting := AnyUnfinished();
      if waiting {
        return;
      }
      var decided: Result<State> := Ok(Stored());
      if run.status == Created {
        decided := DecideFirstStage();
      } else if run.status == PlanReady {
        var coding := R.StartCoding(run);
        if coding.Ok? {
          var s := OpenAll(coding.value);
          decided := Ok(s);
        }
      } else if run.status in {Coding, Validating, Repairing} {
        decided := DecideCandidates();
      } else if run.status == Reviewing {
        decided := DecideReview();
      }
      ok := decided.Ok?;
      if ok {
        Commit(decided.value);
      }
    }

    /** Claim what the queue offers, run its handler, and record the outcome or the failure. */
    method Execute(k: nat, work: Work)
      modifies this
      ensures Stored() == Step(cfg, old(Stored()), Event.Execute(k, work))
    {
      if k >= |jobs| || k !in offered {
        return;
      }
      var leased := J.LeaseTo(offered[k], 0, NOW, 1, TOKEN).job;
      var s := Stored().(jobs := jobs[k := leased]);
      if run.status.IsTerminal() || run.status.IsStopping() {
        Commit(StoreDone(s, k, J.CancelJob(leased, NOW).job));
        return;
      }
      if work.Answered? {
        var handled := Dispatch(cfg, s, k, work.patch, work.exitCode, work.verdict);
        if handled.Ok? {
          Commit(handled.value);
          return;
        }
      }
      var kind := Classify(if work.Threw? then work.exc else OtherError);
      Fail(s, k, kind);
    }

    /** The failure path: the row is stored, the run ended when nothing is
        retried, the queue's copy released, and only then the row requeued. */
    method Fail(s: State, k: nat, kind: FailureKind)
      requires k < |s.jobs|
      modifies this
      ensures Stored() == HandleFailure(cfg, s, k, kind)
    {
      var claimed := s.jobs[k];
      var retry := cfg.retry.Decide(kind, claimed.attempt).ShouldRetryJob();
      var failed := J.FailAttempt(claimed, None, NOW, kind, Some(retry)).job;
      Commit(s.(jobs := s.jobs[k := failed]));
      if !retry && !run.status.IsTerminal() && !kind.IsCodeDefect() {
        var ended := R.FailRun(run, kind);
        if ended.Ok? {
          run := ended.value;
        }
      }
      if !retry {
        offered := offered - {k};
        return;
      }
      offered := offered[k := claimed.Released().(status := J.Queued)];
      var requeued := J.Requeue(jobs[k]);
      if requeued.answer == J.Error {
        return;
      }
      jobs := jobs[k := requeued.job];
      offered := offered[k := requeued.job];
      assert s.jobs[k := failed][k := requeued.job] == s.jobs[k := requeued.job];
      assert s.offered[k := claimed.Released().(status := J.Queued)][k := requeued.job] == s.offered[k := requeued.job];
    }

    /** Stop the run and everything it has in flight, in one transaction. */
    method Cancel()
      modifies this
      ensures Stored() == Step(cfg, old(Stored()), Event.Cancel)
    {
      if run.status.IsTerminal() || run.status == Cancelling {
        return;
      }
      var stopping := R.RequestCancellation(run);
      if stopping.Raised? {
        return;
      }
      var stopped := R.ConfirmCancelled(stopping.value);
      if stopped.Raised? {
        return;
      }
      var was := jobs;
      for k := 0 to |jobs|
        invariant |jobs| == |was| && run == old(run) && candidates == old(candidates)
        invariant forall l :: 0 <= l < k ==> jobs[l] == J.CancelJob(was[l], NOW).job
        invariant forall l :: k <= l < |was| ==> jobs[l] == was[l]
      {
        jobs := jobs[k := J.CancelJob(jobs[k], NOW).job];
      }
      assert jobs == seq(|was|, i requires 0 <= i < |was| => J.CancelJob(was[i], NOW).job);
      var were := candidates;
      for i := 0 to |candidates|
        invariant |candidates| == |were| && run == old(run)
        invariant jobs == seq(|was|, i requires 0 <= i < |was| => J.CancelJob(was[i], NOW).job)
        invariant forall l :: 0 <= l < i ==> candidates[l] == C.Cancel(were[l])
        invariant forall l :: i <= l < |were| ==> candidates[l] == were[l]
      {
        candidates := candidates[i := C.Cancel(candidates[i])];
      }
      assert candidates == seq(|were|, i requires 0 <= i < |were| => C.Cancel(were[i]));
      run := stopped.value;
      offered := map[];
    }
  }
}
