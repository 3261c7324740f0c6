/** The run aggregate: workflow status, budgets and what its own methods guarantee. */
module Runs {
  import opened Common
  import opened RunStateMachine
  import opened Failures

  datatype RunRecord = RunRecord(
    candidateCount: nat,
    maxRepairIterations: nat,
    maxPlanRevisions: nat,
    status: RunStatus,
    planRevisions: nat,
    repairIterations: nat,
    reviewIterations: nat,
    selected: Option<nat>,
    failureKind: Option<FailureKind>)
  {
    predicate CanRepair() { repairIterations < maxRepairIterations }

    predicate CanRevisePlan() { planRevisions < maxPlanRevisions + 1 }

    function To(target: RunStatus): Result<RunRecord> {
      if Can(status, target) then Ok(this.(status := target)) else Raised
    }
  }

  /** What a run looks like right after creation. */
  predicate IsNew(r: RunRecord) {
    r.status == Created && r.planRevisions == 0 && r.repairIterations == 0 && r.reviewIterations == 0
  }

  // ---- one function per workflow method ----

  function StartPlanning(r: RunRecord): Result<RunRecord> {
    var r1 :- r.To(Planning);
    Ok(r1.(planRevisions := r.planRevisions + 1))
  }

  function PlanIsReady(r: RunRecord): Result<RunRecord> { r.To(PlanReady) }

  function StartCoding(r: RunRecord): Result<RunRecord> { r.To(Coding) }

  function StartValidating(r: RunRecord): Result<RunRecord> { r.To(Validating) }

  function StartReviewing(r: RunRecord): Result<RunRecord> {
    var r1 :- r.To(Reviewing);
    Ok(r1.(reviewIterations := r.reviewIterations + 1))
  }

  /** Callers check CanRepair first; an exhausted budget is an answer, not an error. */
  function RequestRepair(r: RunRecord): Result<RunRecord> {
    if !r.CanRepair() then Ok(r) else
    var r1 :- r.To(Repairing);
    Ok(r1.(repairIterations := r.repairIterations + 1))
  }

  function RequestPlanRevision(r: RunRecord): Result<RunRecord> {
    if !r.CanRevisePlan() then Ok(r) else
    var r1 :- r.To(Planning);
    Ok(r1.(planRevisions := r.planRevisions + 1))
  }

  function SelectCandidate(r: RunRecord, candidate: nat): RunRecord { r.(selected := Some(candidate)) }

  function Complete(r: RunRecord, candidate: Option<nat>): Result<RunRecord> {
    var r1 :- r.To(Completed);
    Ok(if candidate.Some? then r1.(selected := candidate) else r1)
  }

  function FailRun(r: RunRecord, kind: FailureKind): Result<RunRecord> {
    if r.status.IsTerminal() then Ok(r) else
    var r1 :- r.To(Failed);
    Ok(r1.(failureKind := Some(kind)))
  }

  function RequestCancellation(r: RunRecord): Result<RunRecord> {
    if r.status.IsTerminal() || r.status == Cancelling then Ok(r) else r.To(Cancelling)
  }

  function ConfirmCancelled(r: RunRecord): Result<RunRecord> {
    if r.status == Cancelled then Ok(r) else
    var r1 :- r.To(Cancelled);
    Ok(r1.(failureKind := Some(CancelledByRun)))
  }

  // ---- any sequence of method calls ----

  datatype RunCall =
    | CallStartPlanning | CallPlanReady | CallStartCoding | CallStartValidating | CallStartReviewing
    | CallRequestRepair | CallRequestPlanRevision | CallSelect(candidate: nat)
    | CallComplete(winner: Option<nat>) | CallFail(kind: FailureKind)
    | CallRequestCancellation | CallConfirmCancelled

  function Call(r: RunRecord, call: RunCall): Result<RunRecord> {
    match call
    case CallStartPlanning => StartPlanning(r)
    case CallPlanReady => PlanIsReady(r)
    case CallStartCoding => StartCoding(r)
    case CallStartValidating => StartValidating(r)
    case CallStartReviewing => StartReviewing(r)
    case CallRequestRepair => RequestRepair(r)
    case CallRequestPlanRevision => RequestPlanRevision(r)
    case CallSelect(c) => Ok(SelectCandidate(r, c))
    case CallComplete(c) => Complete(r, c)
    case CallFail(kind) => FailRun(r, kind)
    case CallRequestCancellation => RequestCancellation(r)
    case CallConfirmCancelled => ConfirmCancelled(r)
  }

  /** A raising call changes nothing. */
  function After(r: RunRecord, call: RunCall): RunRecord {
    match Call(r, call)
    case Ok(r1) => r1
    case Raised => r
  }

  function Replay(r: RunRecord, calls: seq<RunCall>): RunRecord {
    if calls == [] then r else After(Replay(r, calls[..|calls| - 1]), calls[|calls| - 1])
  }

  /** The transition table read by target: which statuses may enter it. A run can
      fail from any status it has not ended in, and be stopped from any of those
      that is not being stopped already. */
  ghost predicate MayEnter(target: RunStatus, from: RunStatus) {
    match target
    case Created => false
    case Planning => from.Created? || from.PlanReady? || from.Repairing?
    case PlanReady => from.Planning?
    case Coding => from.Created? || from.PlanReady? || from.Repairing?
    case Validating => from.Coding?
    case Reviewing => from.Coding? || from.Validating?
    case Repairing => from.Validating? || from.Reviewing?
    case Completed => from.Reviewing?
    case Failed => !from.Completed? && !from.Failed? && !from.Cancelled?
    case Cancelling => !from.Completed? && !from.Failed? && !from.Cancelled? && !from.Cancelling?
    case Cancelled => from.Cancelling?
  }

  lemma TableByTarget(from: RunStatus, target: RunStatus)
    ensures Can(from, target) <==> MayEnter(target, from)
  {
  }

  /** What each call does to the record, and when it is refused. */
  lemma CallTable(r: RunRecord, call: RunCall)
    ensures Call(r, call) ==
      match call
      case CallStartPlanning => Entering(r, Planning, r.(status := Planning, planRevisions := r.planRevisions + 1))
      case CallPlanReady => Entering(r, PlanReady, r.(status := PlanReady))
      case CallStartCoding => Entering(r, Coding, r.(status := Coding))
      case CallStartValidating => Entering(r, Validating, r.(status := Validating))
      case CallStartReviewing => Entering(r, Reviewing, r.(status := Reviewing, reviewIterations := r.reviewIterations + 1))
      case CallRequestRepair =>
        if r.repairIterations >= r.maxRepairIterations then Ok(r)
        else Entering(r, Repairing, r.(status := Repairing, repairIterations := r.repairIterations + 1))
      case CallRequestPlanRevision =>
        if r.planRevisions > r.maxPlanRevisions then Ok(r)
        else Entering(r, Planning, r.(status := Planning, planRevisions := r.planRevisions + 1))
      case CallSelect(candidate) => Ok(r.(selected := Some(candidate)))
      case CallComplete(winner) =>
        Entering(r, Completed, r.(status := Completed, selected := if winner.Some? then winner else r.selected))
      case CallFail(kind) =>
        if r.status.Completed? || r.status.Failed? || r.status.Cancelled? then Ok(r)
        else Ok(r.(status := Failed, failureKind := Some(kind)))
      case CallRequestCancellation =>
        if r.status.Completed? || r.status.Failed? || r.status.Cancelled? || r.status.Cancelling? then Ok(r)
        else Ok(r.(status := Cancelling))
      case CallConfirmCancelled =>
        if r.status.Cancelled? then Ok(r)
        else Entering(r, Cancelled, r.(status := Cancelled, failureKind := Some(CancelledByRun)))
  {
    forall target: RunStatus
      ensures Can(r.status, target) <==> MayEnter(target, r.status)
    {
      TableByTarget(r.status, target);
    }
    hide Can, MayEnter;
  }

  ghost function Entering(r: RunRecord, target: RunStatus, next: RunRecord): Result<RunRecord> {
    if MayEnter(target, r.status) then Ok(next) else Raised
  }

  /** How many of the calls moved the run into `target`. */
  ghost function Entries(r: RunRecord, calls: seq<RunCall>, target: RunStatus): nat {
    if calls == [] then 0 else
    var before := Replay(r, calls[..|calls| - 1]);
    var entered := before.status != target && After(before, calls[|calls| - 1]).status == target;
    Entries(r, calls[..|calls| - 1], target) + if entered then 1 else 0
  }

  /** A visit to CODING is paid for by a repair, except the first one, and a
      review is paid for by a visit to CODING. */
  ghost predicate Paid(r: RunRecord, codings: nat) {
    && codings <= r.repairIterations + (if r.status in {Created, Planning, PlanReady, Repairing} then 0 else 1)
    && r.reviewIterations + (if r.status in {Coding, Validating} then 1 else 0) <= codings
    && r.repairIterations <= r.maxRepairIterations
  }

  lemma PaidByEachCall(r: RunRecord, codings: nat, call: RunCall)
    requires Paid(r, codings)
    ensures var next := After(r, call);
            && Paid(next, codings + if r.status != Coding && next.status == Coding then 1 else 0)
            && next.maxRepairIterations == r.maxRepairIterations
            && next.reviewIterations
               == r.reviewIterations + if r.status != Reviewing && next.status == Reviewing then 1 else 0
  {
  }

  lemma {:induction false} PaidAlways(r: RunRecord, calls: seq<RunCall>)
    requires IsNew(r)
    ensures Paid(Replay(r, calls), Entries(r, calls, Coding))
    ensures Entries(r, calls, Reviewing) == Replay(r, calls).reviewIterations
    ensures Replay(r, calls).maxRepairIterations == r.maxRepairIterations
  {
    if calls != [] {
      var before := calls[..|calls| - 1];
      PaidAlways(r, before);
      hide Paid, After;
      PaidByEachCall(Replay(r, before), Entries(r, before, Coding), calls[|calls| - 1]);
    }
  }

  /** Every visit to PLANNING is a revision counted, and nothing else is. */
  lemma {:induction false} RevisionsAreVisits(r: RunRecord, calls: seq<RunCall>)
    requires IsNew(r)
    ensures Entries(r, calls, Planning) == Replay(r, calls).planRevisions
  {
    hide After;
    if calls != [] {
      RevisionsAreVisits(r, calls[..|calls| - 1]);
      VisitIsARevision(Replay(r, calls[..|calls| - 1]), calls[|calls| - 1]);
    }
  }

  lemma VisitIsARevision(r: RunRecord, call: RunCall)
    ensures var next := After(r, call);
      next.planRevisions == r.planRevisions + if r.status != Planning && next.status == Planning then 1 else 0
  {
  }

  /** The derived bounds over every sequence of method calls from creation: the
      repair budget alone bounds how often the run codes and how often it reviews. */
  lemma RunLoopsAreBounded(r: RunRecord, calls: seq<RunCall>)
    requires IsNew(r)
    ensures var now := Replay(r, calls);
            && Entries(r, calls, Coding) <= now.repairIterations + 1
            && Entries(r, calls, Reviewing) == now.reviewIterations <= now.repairIterations + 1
            && now.repairIterations <= r.maxRepairIterations
            && Entries(r, calls, Coding) <= r.maxRepairIterations + 1
            && Entries(r, calls, Reviewing) <= r.maxRepairIterations + 1
  {
    PaidAlways(r, calls);
  }

  /** A terminal status, its budgets and its cause never change again. */
  lemma {:induction false} TerminalRunsAreFinal(r: RunRecord, calls: seq<RunCall>)
    requires r.status.IsTerminal()
    ensures var now := Replay(r, calls);
            now == r.(selected := now.selected)
  {
    if calls != [] {
      TerminalRunsAreFinal(r, calls[..|calls| - 1]);
    }
  }

  /** The entity itself, whose methods update its fields. */
  class Run {
    const candidateCount: nat
    const maxRepairIterations: nat
    const maxPlanRevisions: nat
    var status: RunStatus
    var planRevisions: nat
    var repairIterations: nat
    var reviewIterations: nat
    var selected: Option<nat>
    var failureKind: Option<FailureKind>

    ghost function Record(): (r: RunRecord)
      reads this
    {
      RunRecord(candidateCount, maxRepairIterations, maxPlanRevisions, status, planRevisions,
                repairIterations, reviewIterations, selected, failureKind)
    }

    constructor (candidateCount: nat, maxRepairIterations: nat, maxPlanRevisions: nat)
      ensures IsNew(Record()) && Record().selected == None && Record().failureKind == None
      ensures this.candidateCount == candidateCount
      ensures this.maxRepairIterations == maxRepairIterations && this.maxPlanRevisions == maxPlanRevisions
    {
      this.candidateCount := candidateCount;
      this.maxRepairIterations := maxRepairIterations;
      this.maxPlanRevisions := maxPlanRevisions;
      status, planRevisions, repairIterations, reviewIterations := Created, 0, 0, 0;
      selected, failureKind := None, None;
    }

    method Transition(target: RunStatus) returns (ok: bool)
      modifies this`status
      ensures ok == old(Record()).To(target).Ok?
      ensures status == if ok then target else old(status)
    {
      ok := Can(status, target);
      if ok {
        status := target;
      }
    }

    method StartPlanning() returns (ok: bool)
      modifies this
      ensures Record() == After(old(Record()), CallStartPlanning)
      ensures ok == Call(old(Record()), CallStartPlanning).Ok?
    {
      ok := Transition(Planning);
      if ok {
        planRevisions := planRevisions + 1;
      }
    }

    method PlanReady() returns (ok: bool)
      modifies this
      ensures Record() == After(old(Record()), CallPlanReady)
      ensures ok == Call(old(Record()), CallPlanReady).Ok?
    {
      ok := Transition(RunStatus.PlanReady);
    }

    method StartCoding() returns (ok: bool)
      modifies this
      ensures Record() == After(old(Record()), CallStartCoding)
      ensures ok == Call(old(Record()), CallStartCoding).Ok?
    {
      ok := Transition(Coding);
    }

    method StartValidating() returns (ok: bool)
      modifies this
      ensures Record() == After(old(Record()), CallStartValidating)
      ensures ok == Call(old(Record()), CallStartValidating).Ok?
    {
      ok := Transition(Validating);
    }

    method StartReviewing() returns (ok: bool)
      modifies this
      ensures Record() == After(old(Record()), CallStartReviewing)
      ensures ok == Call(old(Record()), CallStartReviewing).Ok?
    {
      ok := Transition(Reviewing);
      if ok {
        reviewIterations := reviewIterations + 1;
      }
    }

    method RequestRepair() returns (ok: bool, granted: bool)
      modifies this
      ensures Record() == After(old(Record()), CallRequestRepair)
      ensures ok == Call(old(Record()), CallRequestRepair).Ok?
      ensures granted == (ok && old(Record()).CanRepair())
    {
      if repairIterations >= maxRepairIterations {
        return true, false;
      }
      ok := Transition(Repairing);
      granted := ok;
      if ok {
        repairIterations := repairIterations + 1;
      }
    }

    method RequestPlanRevision() returns (ok: bool, granted: bool)
      modifies this
      ensures Record() == After(old(Record()), CallRequestPlanRevision)
      ensures ok == Call(old(Record()), CallRequestPlanRevision).Ok?
      ensures granted == (ok && old(Record()).CanRevisePlan())
    {
      if planRevisions >= maxPlanRevisions + 1 {
        return true, false;
      }
      ok := Transition(Planning);
      granted := ok;
      if ok {
        planRevisions := planRevisions + 1;
      }
    }

    method Select(candidate: nat)
      modifies this
      ensures Record() == After(old(Record()), CallSelect(candidate))
    {
      selected := Some(candidate);
    }

    method Complete(candidate: Option<nat>) returns (ok: bool)
      modifies this
      ensures Record() == After(old(Record()), CallComplete(candidate))
      ensures ok == Call(old(Record()), CallComplete(candidate)).Ok?
    {
      ok := Transition(Completed);
      if ok && candidate.Some? {
        selected := candidate;
      }
    }

    method Fail(kind: FailureKind) returns (ok: bool)
      modifies this
      ensures Record() == After(old(Record()), CallFail(kind))
      ensures ok == Call(old(Record()), CallFail(kind)).Ok?
    {
      if status.IsTerminal() {
        return true;
      }
      ok := Transition(Failed);
      if ok {
        failureKind := Some(kind);
      }
    }

    method RequestCancellation() returns (ok: bool, stopping: bool)
      modifies this
      ensures Record() == After(old(Record()), CallRequestCancellation)
      ensures ok && stopping == (old(status) != status)
    {
      if status.IsTerminal() || status == Cancelling {
        return true, false;
      }
      ok := Transition(Cancelling);
      stopping := true;
    }

    method ConfirmCancelled() returns (ok: bool)
      modifies this
      ensures Record() == After(old(Record()), CallConfirmCancelled)
      ensures ok == Call(old(Record()), CallConfirmCancelled).Ok?
    {
      if status == Cancelled {
        return true;
      }
      ok := Transition(Cancelled);
      if ok {
        failureKind := Some(CancelledByRun);
      }
    }
  }
}
