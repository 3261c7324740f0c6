/** Leases and the lifecycle of one schedulable job. */
module Jobs {
  import opened Common
  import opened Failures

  datatype JobType = Plan | Code | ReviewCode | LlmInference | PatchApply | Validate(stage: Stage)

  datatype JobStatus = Pending | Queued | Leased | Running | Succeeded | FailedAttempt | Dead | Cancelled {
    predicate IsTerminal() { this in {Succeeded, Dead, Cancelled} }

    predicate IsInFlight() { this in {Leased, Running} }
  }

  datatype Priority = Low | Normal | High | Critical {
    function Rank(): (r: nat)
      ensures r <= 30
    {
      match this
      case Low => 0
      case Normal => 10
      case High => 20
      case Critical => 30
    }

    /** CRITICAL, then HIGH, then NORMAL, then LOW. */
    predicate Above(o: Priority) {
      match this
      case Critical => !o.Critical?
      case High => o.Normal? || o.Low?
      case Normal => o.Low?
      case Low => false
    }
  }

  // Times are milliseconds since the epoch.
  datatype Lease = Lease(holder: nat, token: nat, acquiredAt: int, expiresAt: int) {
    predicate IsExpired(now: int) { now >= expiresAt }
  }

  /** A lease must expire strictly after it was acquired. */
  function Granted(holder: nat, token: nat, now: int, duration: int): Result<Lease> {
    if now + duration <= now then Raised else Ok(Lease(holder, token, now, now + duration))
  }

  function Renewed(lease: Lease, now: int, duration: int): Result<Lease> {
    if lease.IsExpired(now) || now + duration <= lease.acquiredAt then Raised
    else Ok(lease.(expiresAt := now + duration))
  }

  datatype JobRecord = JobRecord(
    id: nat,
    run: nat,
    kind: JobType,
    candidate: Option<nat>,
    priority: Priority,
    createdAt: int,
    maxAttempts: nat,
    status: JobStatus,
    attempt: nat,
    lease: Option<Lease>,
    assignee: Option<nat>,
    startedAt: Option<int>,
    completedAt: Option<int>,
    failureKind: Option<FailureKind>)
  {
    function AttemptsRemaining(): nat { if attempt < maxAttempts then maxAttempts - attempt else 0 }

    function Released(): JobRecord { this.(lease := None, assignee := None) }

    predicate HasLease(token: nat, now: int) {
      lease.Some? && lease.value.token == token && !lease.value.IsExpired(now)
    }
  }

  function NewJob(id: nat, run: nat, kind: JobType, candidate: Option<nat>, priority: Priority,
                  now: int, maxAttempts: nat): JobRecord {
    JobRecord(id, run, kind, candidate, priority, now, maxAttempts, Pending, 0, None, None, None, None, None)
  }

  // ---- one function per lifecycle method: the new record and what the caller sees ----

  datatype Answer = Done | Flag(value: bool) | Held(lease: Lease) | Error

  datatype JobStep = JobStep(job: JobRecord, answer: Answer)

  function Enqueue(j: JobRecord): JobStep {
    if j.status == Queued then JobStep(j, Done)
    else if j.status !in {Pending, FailedAttempt} then JobStep(j, Error)
    else JobStep(j.Released().(status := Queued), Done)
  }

  /** The attempt is counted and the status set before the lease is built, so an
      invalid duration leaves both changes behind. */
  function LeaseTo(j: JobRecord, worker: nat, now: int, duration: int, token: nat): JobStep {
    if j.status != Queued then JobStep(j, Error) else
    var j1 := j.(attempt := j.attempt + 1, status := Leased, assignee := Some(worker),
                 startedAt := if j.startedAt.Some? then j.startedAt else Some(now));
    match Granted(worker, token, now, duration)
    case Raised => JobStep(j1, Error)
    case Ok(lease) => JobStep(j1.(lease := Some(lease)), Held(lease))
  }

  function MarkRunning(j: JobRecord, token: nat, now: int): JobStep {
    if !j.HasLease(token, now) then JobStep(j, Error)
    else if j.status == Running then JobStep(j, Done)
    else JobStep(j.(status := Running, startedAt := if j.startedAt.Some? then j.startedAt else Some(now)), Done)
  }

  function RenewLease(j: JobRecord, token: nat, now: int, duration: int): JobStep {
    if !j.HasLease(token, now) then JobStep(j, Error) else
    match Renewed(j.lease.value, now, duration)
    case Raised => JobStep(j, Error)
    case Ok(lease) => JobStep(j.(lease := Some(lease)), Held(lease))
  }

  /** Without a token the lease is not checked at all. */
  function Complete(j: JobRecord, token: Option<nat>, now: int): JobStep {
    if j.status == Succeeded then JobStep(j, Done)
    else if token.Some? && !j.HasLease(token.value, now) then JobStep(j, Error)
    else JobStep(j.(status := Succeeded, completedAt := Some(now), lease := None), Done)
  }

  function FailAttempt(j: JobRecord, token: Option<nat>, now: int, kind: FailureKind, retryable: Option<bool>): JobStep {
    if j.status.IsTerminal() then JobStep(j, Flag(false))
    else if token.Some? && !j.HasLease(token.value, now) then JobStep(j, Error)
    else
      var wanted := if retryable.Some? then retryable.value
                    else kind.IsInfrastructure() || kind == InvalidStructuredOutput;
      var mayRetry := wanted && j.AttemptsRemaining() > 0;
      JobStep(j.Released().(status := if mayRetry then FailedAttempt else Dead,
                            failureKind := Some(kind), completedAt := Some(now)),
              Flag(mayRetry))
  }

  function ExpireLease(j: JobRecord, now: int): JobStep {
    if j.lease.None? || !j.lease.value.IsExpired(now) then JobStep(j, Flag(false))
    else if j.AttemptsRemaining() > 0 then JobStep(j.Released().(status := FailedAttempt), Flag(true))
    else JobStep(j.Released().(status := Dead, failureKind := Some(Infrastructure), completedAt := Some(now)), Flag(false))
  }

  function Requeue(j: JobRecord): JobStep {
    if j.status != FailedAttempt || j.AttemptsRemaining() <= 0 then JobStep(j, Error)
    else JobStep(j.Released().(status := Queued, completedAt := None), Done)
  }

  function CancelJob(j: JobRecord, now: int): JobStep {
    if j.status.IsTerminal() then JobStep(j, Done)
    else JobStep(j.Released().(status := Cancelled, completedAt := Some(now), failureKind := Some(CancelledByRun)), Done)
  }

  // ---- any sequence of lifecycle calls ----

  datatype JobCall =
    | CallEnqueue
    | CallLeaseTo(worker: nat, now: int, duration: int, token: nat)
    | CallMarkRunning(token: nat, now: int)
    | CallRenew(token: nat, now: int, duration: int)
    | CallComplete(report: Option<nat>, now: int)
    | CallFail(report: Option<nat>, now: int, kind: FailureKind, retryable: Option<bool>)
    | CallExpire(now: int)
    | CallRequeue
    | CallCancel(now: int)

  function Call(j: JobRecord, call: JobCall): JobStep {
    match call
    case CallEnqueue => Enqueue(j)
    case CallLeaseTo(worker, now, duration, token) => LeaseTo(j, worker, now, duration, token)
    case CallMarkRunning(token, now) => MarkRunning(j, token, now)
    case CallRenew(token, now, duration) => RenewLease(j, token, now, duration)
    case CallComplete(token, now) => Complete(j, token, now)
    case CallFail(token, now, kind, retryable) => FailAttempt(j, token, now, kind, retryable)
    case CallExpire(now) => ExpireLease(j, now)
    case CallRequeue => Requeue(j)
    case CallCancel(now) => CancelJob(j, now)
  }

  function Replay(j: JobRecord, calls: seq<JobCall>): JobRecord {
    if calls == [] then j else Call(Replay(j, calls[..|calls| - 1]), calls[|calls| - 1]).job
  }

  /** SUCCEEDED, DEAD or CANCELLED. */
  predicate Over(j: JobRecord) { j.status.Succeeded? || j.status.Dead? || j.status.Cancelled? }

  /** The token is that of a lease that has not yet expired. */
  predicate HeldBy(j: JobRecord, token: nat, now: int) {
    match j.lease
    case None => false
    case Some(lease) => lease.token == token && now < lease.expiresAt
  }

  function Unleased(j: JobRecord, status: JobStatus): JobRecord { j.(status := status, lease := None, assignee := None) }

  /** Failures that deserve another attempt unless the caller says otherwise: not
      those of the produced code, and not a cancellation. */
  predicate Transient(kind: FailureKind) {
    kind.Infrastructure? || kind.Inference? || kind.Tool? || kind.InvalidStructuredOutput?
  }

  /** What each call does to the record and what its caller sees, except that of a lease. */
  lemma CallTable(j: JobRecord, call: JobCall)
    ensures match call
      case CallEnqueue =>
        Call(j, call) == if j.status.Queued? then JobStep(j, Done)
                         else if j.status.Pending? || j.status.FailedAttempt? then JobStep(Unleased(j, Queued), Done)
                         else JobStep(j, Error)
      case CallMarkRunning(token, now) =>
        Call(j, call) == if HeldBy(j, token, now)
                         then JobStep(j.(status := Running, startedAt := if j.startedAt.None? && !j.status.Running? then Some(now) else j.startedAt), Done)
                         else JobStep(j, Error)
      case CallComplete(report, now) =>
        Call(j, call) == if j.status.Succeeded? then JobStep(j, Done)
                         else if report.None? || HeldBy(j, report.value, now)
                         then JobStep(j.(status := Succeeded, completedAt := Some(now), lease := None), Done)
                         else JobStep(j, Error)
      case CallFail(report, now, kind, retryable) =>
        var again := (if retryable.Some? then retryable.value else Transient(kind)) && j.attempt < j.maxAttempts;
        Call(j, call) == if Over(j) then JobStep(j, Flag(false))
                         else if report.Some? && !HeldBy(j, report.value, now) then JobStep(j, Error)
                         else JobStep(Unleased(j, if again then FailedAttempt else Dead).(failureKind := Some(kind), completedAt := Some(now)), Flag(again))
      case CallExpire(now) =>
        Call(j, call) == if j.lease.None? || now < j.lease.value.expiresAt then JobStep(j, Flag(false))
                         else if j.attempt < j.maxAttempts then JobStep(Unleased(j, FailedAttempt), Flag(true))
                         else JobStep(Unleased(j, Dead).(failureKind := Some(Infrastructure), completedAt := Some(now)), Flag(false))
      case CallRequeue =>
        Call(j, call) == if j.status.FailedAttempt? && j.attempt < j.maxAttempts
                         then JobStep(Unleased(j, Queued).(completedAt := None), Done) else JobStep(j, Error)
      case CallCancel(now) =>
        Call(j, call) == if Over(j) then JobStep(j, Done)
                         else JobStep(Unleased(j, Cancelled).(failureKind := Some(CancelledByRun), completedAt := Some(now)), Done)
      case CallRenew(token, now, duration) =>
        Call(j, call) == if HeldBy(j, token, now) && now + duration > j.lease.value.acquiredAt
                         then JobStep(j.(lease := Some(j.lease.value.(expiresAt := now + duration))), Held(j.lease.value.(expiresAt := now + duration)))
                         else JobStep(j, Error)
      case CallLeaseTo(worker, now, duration, token) =>
        var lease := Lease(worker, token, now, now + duration);
        var tried := j.(status := Leased, attempt := j.attempt + 1, assignee := Some(worker),
                        startedAt := if j.startedAt.None? then Some(now) else j.startedAt);
        Call(j, call) == if !j.status.Queued? then JobStep(j, Error)
                         else if duration > 0 then JobStep(tried.(lease := Some(lease)), Held(lease)) else JobStep(tried, Error)
  {
  }

  /** How many leases the calls actually granted. */
  ghost function Grants(j: JobRecord, calls: seq<JobCall>): nat {
    if calls == [] then 0 else
    var last := calls[|calls| - 1];
    Grants(j, calls[..|calls| - 1]) +
    if last.CallLeaseTo? && Call(Replay(j, calls[..|calls| - 1]), last).answer.Held? then 1 else 0
  }

  /** The attempt budget of a job, whatever has been asked of it. */
  ghost predicate WithinBudget(j: JobRecord) {
    && j.attempt <= j.maxAttempts
    && (j.status in {Pending, Queued, FailedAttempt} ==> j.attempt < j.maxAttempts)
  }

  ghost predicate LeaseMatchesStatus(j: JobRecord) {
    j.lease.Some? <==> j.status.IsInFlight()
  }

  ghost predicate PositiveDurations(calls: seq<JobCall>) {
    forall i :: 0 <= i < |calls| && calls[i].CallLeaseTo? ==> calls[i].duration > 0
  }

  /** Over every sequence of calls from creation the budget holds. */
  lemma {:induction false} BudgetAlwaysHolds(j: JobRecord, calls: seq<JobCall>)
    requires j.status == Pending && j.attempt == 0 && j.maxAttempts >= 1
    ensures WithinBudget(Replay(j, calls)) && Replay(j, calls).maxAttempts == j.maxAttempts
  {
    if calls != [] {
      BudgetAlwaysHolds(j, calls[..|calls| - 1]);
    }
  }

  /** With positive durations, leases granted equal attempts spent and a lease
      exists exactly while the job is in flight. */
  lemma {:induction false} AttemptsAreLeases(j: JobRecord, calls: seq<JobCall>)
    requires j.status == Pending && j.attempt == 0 && j.maxAttempts >= 1 && j.lease == None
    requires PositiveDurations(calls)
    ensures LeaseMatchesStatus(Replay(j, calls))
    ensures Grants(j, calls) == Replay(j, calls).attempt <= j.maxAttempts
  {
    BudgetAlwaysHolds(j, calls);
    if calls != [] {
      assert PositiveDurations(calls[..|calls| - 1]);
      AttemptsAreLeases(j, calls[..|calls| - 1]);
      assert calls[|calls| - 1].CallLeaseTo? ==> calls[|calls| - 1].duration > 0;
    }
  }

  /** The duration is exactly what decides it: a non-positive one spends the
      attempt and moves the job to LEASED without any lease, so that no report
      and no expiry can ever bring it back. */
  lemma LeaseNeedsPositiveDuration(j: JobRecord, worker: nat, now: int, duration: int, token: nat)
    requires j.status == Queued && j.lease == None
    ensures var step := LeaseTo(j, worker, now, duration, token);
            && step.job.status == Leased
            && step.job.attempt == j.attempt + 1
            && (LeaseMatchesStatus(step.job) <==> duration > 0)
            && (step.answer.Held? <==> duration > 0)
            && (duration <= 0 ==> forall later: int, t: nat :: BeyondReach(step.job, later, t))
  {
    var stuck := LeaseTo(j, worker, now, duration, token).job;
    if duration <= 0 {
      forall later: int, t: nat
        ensures BeyondReach(stuck, later, t)
      {
      }
    }
  }

  /** At that time neither an expiry nor a report with that token moves the job. */
  ghost predicate BeyondReach(stuck: JobRecord, later: int, t: nat) {
    && Call(stuck, CallExpire(later)) == JobStep(stuck, Flag(false))
    && Call(stuck, CallComplete(Some(t), later)) == JobStep(stuck, Error)
    && Call(stuck, CallMarkRunning(t, later)) == JobStep(stuck, Error)
  }

  /** Terminal statuses absorb every call but a completion reported without a token. */
  lemma TerminalJobsAbsorb(j: JobRecord, call: JobCall)
    requires j.status.IsTerminal() && j.lease == None
    ensures if call.CallComplete? && call.report == None && j.status != Succeeded
            then Call(j, call).job == j.(status := Succeeded, completedAt := Some(call.now))
            else Call(j, call).job == j
  {
  }

  /** A completion reported without a token. */
  predicate Bare(call: JobCall) { call.CallComplete? && call.report == None }

  ghost predicate SomeBare(calls: seq<JobCall>) { exists i :: 0 <= i < |calls| && Bare(calls[i]) }

  lemma SomeBareSoFar(calls: seq<JobCall>)
    requires calls != []
    ensures SomeBare(calls) <==> SomeBare(calls[..|calls| - 1]) || Bare(calls[|calls| - 1])
  {
    var front := calls[..|calls| - 1];
    if i :| 0 <= i < |calls| && Bare(calls[i]) {
      assert i < |front| ==> Bare(front[i]);
    }
    if i :| 0 <= i < |front| && Bare(front[i]) {
      assert Bare(calls[i]);
    }
  }

  /** Over every sequence of calls a terminal job stays as it is, unless it had
      not succeeded and some call completed it without a token: then, and only
      then, it ends up SUCCEEDED. */
  lemma {:induction false} TerminalJobsAreFinal(j: JobRecord, calls: seq<JobCall>)
    requires j.status.IsTerminal() && j.lease == None
    ensures var now := Replay(j, calls);
            && now == j.(status := now.status, completedAt := now.completedAt)
            && (j.status == Succeeded || !SomeBare(calls) ==> now == j)
            && (SomeBare(calls) ==> now.status == Succeeded)
  {
    if calls != [] {
      TerminalJobsAreFinal(j, calls[..|calls| - 1]);
      SomeBareSoFar(calls);
      TerminalJobsAbsorb(Replay(j, calls[..|calls| - 1]), calls[|calls| - 1]);
      hide SomeBare;
    }
  }

  /** The entity itself, whose methods update its fields. */
  class Job {
    const id: nat
    const run: nat
    const kind: JobType
    const candidate: Option<nat>
    const priority: Priority
    const createdAt: int
    const maxAttempts: nat
    var status: JobStatus
    var attempt: nat
    var lease: Option<Lease>
    var assignee: Option<nat>
    var startedAt: Option<int>
    var completedAt: Option<int>
    var failureKind: Option<FailureKind>

    ghost function Record(): (r: JobRecord)
      reads this
    {
      JobRecord(id, run, kind, candidate, priority, createdAt, maxAttempts, status, attempt, lease, assignee,
                startedAt, completedAt, failureKind)
    }

    /** Rebuild the entity from a stored record, as the queue does on every read. */
    constructor (r: JobRecord)
      ensures Record() == r
    {
      id, run, kind, candidate := r.id, r.run, r.kind, r.candidate;
      priority, createdAt, maxAttempts := r.priority, r.createdAt, r.maxAttempts;
      status, attempt, lease, assignee := r.status, r.attempt, r.lease, r.assignee;
      startedAt, completedAt, failureKind := r.startedAt, r.completedAt, r.failureKind;
    }

    method Enqueue() returns (answer: Answer)
      modifies this
      ensures JobStep(Record(), answer) == Call(old(Record()), CallEnqueue)
    {
      if status == Queued {
        return Done;
      }
      if status != Pending && status != FailedAttempt {
        return Error;
      }
      status := Queued;
      lease := None;
      assignee := None;
      answer := Done;
    }

    method LeaseTo(worker: nat, now: int, duration: int, token: nat) returns (answer: Answer)
      modifies this
      ensures JobStep(Record(), answer) == Call(old(Record()), CallLeaseTo(worker, now, duration, token))
    {
      if status != Queued {
        return Error;
      }
      attempt := attempt + 1;
      status := Leased;
      assignee := Some(worker);
      if startedAt.None? {
        startedAt := Some(now);
      }
      var granted := Granted(worker, token, now, duration);
      if granted.Raised? {
        return Error;
      }
      lease := Some(granted.value);
      answer := Held(granted.value);
    }

    method AssertLease(token: nat, now: int) returns (held: bool)
      ensures held == Record().HasLease(token, now)
    {
      if lease.None? || lease.value.token != token {
        return false;
      }
      held := !lease.value.IsExpired(now);
    }

    method MarkRunning(token: nat, now: int) returns (answer: Answer)
      modifies this
      ensures JobStep(Record(), answer) == Call(old(Record()), CallMarkRunning(token, now))
    {
      var held := AssertLease(token, now);
      if !held {
        return Error;
      }
      answer := Done;
      if status != Running {
        status := Running;
        if startedAt.None? {
          startedAt := Some(now);
        }
      }
    }

    method RenewLease(token: nat, now: int, duration: int) returns (answer: Answer)
      modifies this
      ensures JobStep(Record(), answer) == Call(old(Record()), CallRenew(token, now, duration))
    {
      var held := AssertLease(token, now);
      if !held {
        return Error;
      }
      var renewed := Renewed(lease.value, now, duration);
      if renewed.Raised? {
        return Error;
      }
      lease := Some(renewed.value);
      answer := Held(renewed.value);
    }

    method Complete(token: Option<nat>, now: int) returns (answer: Answer)
      modifies this
      ensures JobStep(Record(), answer) == Call(old(Record()), CallComplete(token, now))
    {
      if status == Succeeded {
        return Done;
      }
      if token.Some? {
        var held := AssertLease(token.value, now);
        if !held {
          return Error;
        }
      }
      status := Succeeded;
      completedAt := Some(now);
      lease := None;
      answer := Done;
    }

    method Fail(token: Option<nat>, now: int, kind: FailureKind, retryable: Option<bool>) returns (answer: Answer)
      modifies this
      ensures JobStep(Record(), answer) == Call(old(Record()), CallFail(token, now, kind, retryable))
    {
      if status.IsTerminal() {
        return Flag(false);
      }
      if token.Some? {
        var held := AssertLease(token.value, now);
        if !held {
          return Error;
        }
      }
      var wanted := if retryable.Some? then retryable.value
                    else kind.IsInfrastructure() || kind == InvalidStructuredOutput;
      var mayRetry := wanted && attempt < maxAttempts;
      status := if mayRetry then FailedAttempt else Dead;
      failureKind := Some(kind);
      completedAt := Some(now);
      lease := None;
      assignee := None;
      answer := Flag(mayRetry);
    }

    method ExpireLease(now: int) returns (answer: Answer)
      modifies this
      ensures JobStep(Record(), answer) == Call(old(Record()), CallExpire(now))
    {
      if lease.None? || !lease.value.IsExpired(now) {
        return Flag(false);
      }
      lease := None;
      assignee := None;
      if attempt < maxAttempts {
        status := FailedAttempt;
        return Flag(true);
      }
      status := Dead;
      failureKind := Some(Infrastructure);
      completedAt := Some(now);
      answer := Flag(false);
    }

    method Requeue() returns (answer: Answer)
      modifies this
      ensures JobStep(Record(), answer) == Call(old(Record()), CallRequeue)
    {
      if status != FailedAttempt || attempt >= maxAttempts {
        return Error;
      }
      status := Queued;
      completedAt := None;
      lease := None;
      assignee := None;
      answer := Done;
    }

    method Cancel(now: int) returns (answer: Answer)
      modifies this
      ensures JobStep(Record(), answer) == Call(old(Record()), CallCancel(now))
    {
      answer := Done;
      if status.IsTerminal() {
        return;
      }
      status := Cancelled;
      completedAt := Some(now);
      lease := None;
      assignee := None;
      failureKind := Some(CancelledByRun);
    }
  }
}
