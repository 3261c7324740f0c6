/** The orchestrator's workflow: one run, its candidates and its growing list of
    jobs, moved by three kinds of event. Every unknown (what a model answered,
    what a tool returned, which exception was raised, who calls when) is carried
    by the event, so a step is a function and a run is a sequence of events. */
module Workflow {
  import opened Common
  import opened RunStateMachine
  import opened Failures
  import opened Ordering
  import R = Runs
  import C = Candidates
  import J = Jobs
  import S = Selection

  datatype Config = Config(
    requiresPlan: bool,
    candidateCount: nat,
    maxRepairIterations: nat,
    maxPlanRevisions: nat,
    configured: set<Stage>,
    available: set<Stage>,
    jobMaxAttempts: nat,
    retry: RetryPolicy,
    staticAnalysisIsBlocking: bool)
  {
    /** What the constructors of a run, a job and the retry policy accept. */
    predicate Valid() { candidateCount >= 1 && jobMaxAttempts >= 1 && retry.Valid() }
  }

  /** The stored rows of one run, and the copies of its jobs that the queue would
      hand out: `offered` is what can be claimed, whatever the row says. */
  datatype State = State(
    run: R.RunRecord, candidates: seq<C.CandidateRecord>, jobs: seq<J.JobRecord>, offered: map<nat, J.JobRecord>)

  /** What came out of executing a job: an answer (only the part matching the
      job's type is looked at) or an exception. */
  datatype Work =
    | Answered(patch: C.Patch, exitCode: int, verdict: C.Verdict)
    | Threw(exc: Exception)

  datatype Event = Advance | Execute(job: nat, work: Work) | Cancel

  function Init(cfg: Config): State {
    State(R.RunRecord(cfg.candidateCount, cfg.maxRepairIterations, cfg.maxPlanRevisions, Created, 0, 0, 0, None, None),
          [], [], map[])
  }

  // ---- opening jobs and candidates ----

  function OpenJob(cfg: Config, id: nat, kind: J.JobType, candidate: Option<nat>, priority: J.Priority): J.JobRecord {
    J.Enqueue(J.NewJob(id, 0, kind, candidate, priority, 0, cfg.jobMaxAttempts)).job
  }

  /** Jobs are stored and then published to the queue as they are. */
  function Publish(s: State, added: seq<J.JobRecord>): (t: State)
    ensures t.run == s.run && t.candidates == s.candidates && t.jobs == s.jobs + added
    ensures forall k :: k in t.offered <==> k in s.offered || |s.jobs| <= k < |t.jobs|
    ensures forall k :: k in t.offered ==> t.offered[k] == if |s.jobs| <= k < |t.jobs| then t.jobs[k] else s.offered[k]
  {
    var jobs := s.jobs + added;
    s.(jobs := jobs, offered := s.offered + map k | |s.jobs| <= k < |jobs| :: jobs[k])
  }

  function OpenCandidate(index: nat): C.CandidateRecord { C.StartCoding(C.Create(index)).value }

  function NewCandidates(n: nat): (r: seq<C.CandidateRecord>)
    ensures |r| == n && forall i :: 0 <= i < n ==> r[i] == OpenCandidate(i)
  {
    seq(n, i requires 0 <= i => OpenCandidate(i))
  }

  function CodeJobs(cfg: Config, base: nat, n: nat): (r: seq<J.JobRecord>)
    ensures |r| == n && forall i :: 0 <= i < n ==> r[i] == OpenJob(cfg, base + i, J.Code, Some(i), J.Normal)
  {
    seq(n, i requires 0 <= i => OpenJob(cfg, base + i, J.Code, Some(i), J.Normal))
  }

  function OpenCandidates(cfg: Config, s: State): State {
    Publish(s.(candidates := s.candidates + NewCandidates(cfg.candidateCount)),
            CodeJobs(cfg, |s.jobs|, cfg.candidateCount))
  }

  function OpenFirstStage(cfg: Config, s: State): Result<State> {
    if cfg.requiresPlan then
      var run :- R.StartPlanning(s.run);
      Ok(Publish(s.(run := run), [OpenJob(cfg, |s.jobs|, J.Plan, None, J.Normal)]))
    else
      var run :- R.StartCoding(s.run);
      Ok(OpenCandidates(cfg, s.(run := run)))
  }

  // ---- deciding the next step ----

  predicate HasUnfinished(jobs: seq<J.JobRecord>) { exists j :: j in jobs && !j.status.IsTerminal() }

  predicate AwaitsStage(cfg: Config, c: C.CandidateRecord) {
    c.status == C.Validating && C.NextStage(cfg.configured, c.validation).Some?
  }

  /** A candidate with no stage left to run has its validation closed. */
  function Settle(cfg: Config, c: C.CandidateRecord): C.CandidateRecord {
    if c.status == C.Validating && !AwaitsStage(cfg, c)
    then C.RecordValidation(c, cfg.staticAnalysisIsBlocking).value else c
  }

  function SettleAll(cfg: Config, candidates: seq<C.CandidateRecord>): (r: seq<C.CandidateRecord>)
    ensures |r| == |candidates|
    ensures forall i :: 0 <= i < |r| ==> r[i] == Settle(cfg, candidates[i])
  {
    seq(|candidates|, i requires 0 <= i < |candidates| => Settle(cfg, candidates[i]))
  }

  function StageJobs(cfg: Config, candidates: seq<C.CandidateRecord>, base: nat): seq<J.JobRecord> {
    if candidates == [] then [] else
    var before := StageJobs(cfg, candidates[..|candidates| - 1], base);
    var c := candidates[|candidates| - 1];
    if !AwaitsStage(cfg, c) then before
    else before + [OpenJob(cfg, base + |before|, J.Validate(C.NextStage(cfg.configured, c.validation).value),
                           Some(c.index), J.High)]
  }

  /** The policy's winner, or the first of the list if it names none. */
  function Pick(list: seq<C.CandidateRecord>): C.CandidateRecord
    requires list != []
  {
    var w := S.SelectFrom(list).winner;
    if w.Some? then w.value else list[0]
  }

  function Settled(candidates: seq<C.CandidateRecord>): seq<C.CandidateRecord> {
    Filter(candidates, (c: C.CandidateRecord) => c.status == C.Validated)
  }

  function WithVerdict(candidates: seq<C.CandidateRecord>, verdict: C.Verdict): seq<C.CandidateRecord> {
    Filter(candidates, (c: C.CandidateRecord) => c.verdict == Some(verdict))
  }

  function RepairOrFail(cfg: Config, s: State, target: Option<nat>): Result<State> {
    if target.None? || !s.run.CanRepair() then
      var run :- R.FailRun(s.run, ReviewFailure);
      Ok(s.(run := run))
    else if target.value >= |s.candidates| then Raised
    else
      var run1 :- R.RequestRepair(s.run);
      var c :- C.StartRepair(s.candidates[target.value]);
      var run2 :- R.StartCoding(run1);
      Ok(Publish(s.(run := run2, candidates := s.candidates[target.value := c]),
                 [OpenJob(cfg, |s.jobs|, J.Code, target, J.High)]))
  }

  function ReviewBest(cfg: Config, s: State, viable: seq<C.CandidateRecord>): Result<State>
    requires viable != []
  {
    var run :- if s.run.status != Reviewing then R.StartReviewing(s.run) else Ok(s.run);
    Ok(Publish(s.(run := run), [OpenJob(cfg, |s.jobs|, J.ReviewCode, Some(Pick(viable).index), J.Normal)]))
  }

  function AdvanceCandidates(cfg: Config, s: State): Result<State> {
    var followUps := StageJobs(cfg, s.candidates, |s.jobs|);
    var candidates := SettleAll(cfg, s.candidates);
    if followUps != [] then
      var run :- if s.run.status != Validating then R.StartValidating(s.run) else Ok(s.run);
      Ok(Publish(s.(run := run, candidates := candidates), followUps))
    else
      var s1 := s.(candidates := candidates);
      var settled := Settled(candidates);
      var viable := S.Viable(settled);
      if settled == [] then Ok(s1)
      else if viable != [] then ReviewBest(cfg, s1, viable)
      else RepairOrFail(cfg, s1, Some(settled[0].index))
  }

  function RejectOthers(candidates: seq<C.CandidateRecord>, winner: nat): (r: seq<C.CandidateRecord>)
    ensures |r| == |candidates|
    ensures forall i :: 0 <= i < |r| ==>
              r[i] == if candidates[i].index != winner then C.Reject(candidates[i]) else candidates[i]
  {
    seq(|candidates|, i requires 0 <= i < |candidates| =>
          if candidates[i].index != winner then C.Reject(candidates[i]) else candidates[i])
  }

  function CompleteWith(s: State, winner: nat): Result<State> {
    var candidates := RejectOthers(s.candidates, winner);
    if winner >= |candidates| then Raised else
    var chosen :- C.Select(candidates[winner]);
    var run :- R.Complete(R.SelectCandidate(s.run, winner), Some(winner));
    Ok(s.(run := run, candidates := candidates[winner := chosen]))
  }

  function AdvanceReview(cfg: Config, s: State): Result<State> {
    var passed := WithVerdict(s.candidates, C.Pass);
    var failing := WithVerdict(s.candidates, C.Fail);
    if passed != [] then CompleteWith(s, Pick(passed).index)
    else if failing != [] then RepairOrFail(cfg, s, Some(failing[0].index))
    else RepairOrFail(cfg, s, if s.candidates != [] then Some(s.candidates[0].index) else None)
  }

  function AdvanceRun(cfg: Config, s: State): Result<State> {
    if s.run.status.IsTerminal() || s.run.status.IsStopping() then Ok(s)
    else if HasUnfinished(s.jobs) then Ok(s)
    else
      match s.run.status
      case Created => OpenFirstStage(cfg, s)
      case PlanReady =>
        var run :- R.StartCoding(s.run);
        Ok(OpenCandidates(cfg, s.(run := run)))
      case Coding => AdvanceCandidates(cfg, s)
      case Validating => AdvanceCandidates(cfg, s)
      case Repairing => AdvanceCandidates(cfg, s)
      case Reviewing => AdvanceReview(cfg, s)
      case _ => Ok(s)
  }

  // ---- executing one claimed job ----

  // A job execution is one atomic step, so one instant and one token serve for all of them.
  const NOW: int := 0
  const TOKEN: nat := 1

  function Claimed(j: J.JobRecord): J.JobRecord { J.LeaseTo(j, 0, NOW, 1, TOKEN).job }

  /** The queue's copy is what a claim leases; its handler works on that entity. */
  function Claim(s: State, k: nat): State
    requires k < |s.jobs| && k in s.offered
  {
    s.(jobs := s.jobs[k := Claimed(s.offered[k])])
  }

  /** The entity is stored over the row, and the queue's copy taken off offer. */
  function StoreDone(s: State, k: nat, job: J.JobRecord): State
    requires k < |s.jobs|
  {
    s.(jobs := s.jobs[k := job], offered := s.offered - {k})
  }

  function Finish(s: State, k: nat): Result<State>
    requires k < |s.jobs|
  {
    var step := J.Complete(s.jobs[k], Some(TOKEN), NOW);
    if step.answer == J.Error then Raised else Ok(StoreDone(s, k, step.job))
  }

  function RunPlanner(s: State, k: nat): Result<State>
    requires k < |s.jobs|
  {
    var run :- R.PlanIsReady(s.run);
    Finish(s.(run := run), k)
  }

  function RunCoder(s: State, k: nat, c: nat, patch: C.Patch): Result<State>
    requires k < |s.jobs| && c < |s.candidates|
  {
    var c1 :- C.SubmitPatch(s.candidates[c], patch);
    var c2 :- C.StartValidation(c1);
    Finish(s.(candidates := s.candidates[c := c2]), k)
  }

  function RunStage(cfg: Config, s: State, k: nat, c: nat, stage: Stage, exitCode: int): Result<State>
    requires k < |s.jobs| && c < |s.candidates|
  {
    var results := if stage in cfg.available
                   then [C.ToolResult(stage, exitCode, s.candidates[c].repairIterations)] else [];
    var c1 :- C.AppendValidation(s.candidates[c], results);
    Finish(s.(candidates := s.candidates[c := c1]), k)
  }

  function RunReviewer(s: State, k: nat, c: nat, verdict: C.Verdict): Result<State>
    requires k < |s.jobs| && c < |s.candidates|
  {
    Finish(s.(candidates := s.candidates[c := C.RecordReview(s.candidates[c], verdict)]), k)
  }

  /** The handler of the job's type; an unknown candidate or type raises. */
  function Dispatch(cfg: Config, s: State, k: nat, patch: C.Patch, exitCode: int, verdict: C.Verdict): Result<State>
    requires k < |s.jobs|
  {
    var job := s.jobs[k];
    if job.kind == J.Plan then RunPlanner(s, k)
    else if job.candidate.None? || job.candidate.value >= |s.candidates| then Raised
    else
      var c := job.candidate.value;
      match job.kind
      case Code => RunCoder(s, k, c, patch)
      case ReviewCode => RunReviewer(s, k, c, verdict)
      case Validate(stage) => RunStage(cfg, s, k, c, stage, exitCode)
      case _ => Raised
  }

  /** The retry policy decides. The failed attempt is stored; the queue then
      offers its copy again whenever the policy retries, before the row is asked
      to requeue: a row with no attempt left refuses, stays DEAD, and the copy
      stays on offer. */
  function HandleFailure(cfg: Config, s: State, k: nat, kind: FailureKind): State
    requires k < |s.jobs|
  {
    var claimed := s.jobs[k];
    var retry := cfg.retry.Decide(kind, claimed.attempt).ShouldRetryJob();
    var failed := J.FailAttempt(claimed, None, NOW, kind, Some(retry)).job;
    if retry then
      var requeued := J.Requeue(failed);
      if requeued.answer == J.Error
      then s.(jobs := s.jobs[k := failed], offered := s.offered[k := claimed.Released().(status := J.Queued)])
      else s.(jobs := s.jobs[k := requeued.job], offered := s.offered[k := requeued.job])
    else
      var run := if s.run.status.IsTerminal() || kind.IsCodeDefect() then s.run
                 else match R.FailRun(s.run, kind) case Ok(r) => r case Raised => s.run;
      StoreDone(s.(run := run), k, failed)
  }

  function ExecuteJob(cfg: Config, s: State, k: nat, work: Work): State
    requires k < |s.jobs| && k in s.offered
  {
    var s1 := Claim(s, k);
    if s.run.status.IsTerminal() || s.run.status.IsStopping() then
      StoreDone(s1, k, J.CancelJob(s1.jobs[k], NOW).job)
    else
      match work
      case Threw(exc) => HandleFailure(cfg, s1, k, Classify(exc))
      case Answered(patch, exitCode, verdict) =>
        match Dispatch(cfg, s1, k, patch, exitCode, verdict)
        case Ok(s2) => s2
        case Raised => HandleFailure(cfg, s1, k, Classify(OtherError))
  }

  // ---- cancelling ----

  function CancelAll(s: State): State {
    if s.run.status.IsTerminal() || s.run.status == Cancelling then s else
    match R.RequestCancellation(s.run)
    case Raised => s
    case Ok(r1) =>
      match R.ConfirmCancelled(r1)
      case Raised => s
      case Ok(r2) =>
        State(r2,
              seq(|s.candidates|, i requires 0 <= i < |s.candidates| => C.Cancel(s.candidates[i])),
              seq(|s.jobs|, i requires 0 <= i < |s.jobs| => J.CancelJob(s.jobs[i], NOW).job),
              map[])
  }

  // ---- runs ----

  /** What the queue offers can be claimed. A decision that raises is not committed.
      `Advance` follows every execution, and every restart calls it once more. */
  function Step(cfg: Config, s: State, e: Event): State {
    match e
    case Advance => (match AdvanceRun(cfg, s) case Ok(s1) => s1 case Raised => s)
    case Execute(k, work) =>
      if k < |s.jobs| && k in s.offered then ExecuteJob(cfg, s, k, work) else s
    case Cancel => CancelAll(s)
  }

  function Exec(cfg: Config, s: State, events: seq<Event>): State {
    if events == [] then s
    else Step(cfg, Exec(cfg, s, events[..|events| - 1]), events[|events| - 1])
  }
}
