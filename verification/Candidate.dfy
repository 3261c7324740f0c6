/** Deterministic validation evidence and the lifecycle of one candidate. */
module Candidates {
  import opened Common

  /** One tool result. `repair` is history: how many repairs the candidate had
      been through when the result was appended. */
  datatype ToolResult = ToolResult(kind: Stage, exitCode: int, repair: nat)

  datatype ValidationReport = ValidationReport(results: seq<ToolResult>, staticAnalysisIsBlocking: bool) {

    predicate Ran(stage: Stage) { exists r :: r in results && r.kind == stage }

    /** None when the stage did not run: unknown is not the same as failed. */
    function Passed(stage: Stage): Option<bool> {
      if !Ran(stage) then None
      else Some(forall r :: r in results && r.kind == stage ==> r.exitCode == 0)
    }

    predicate IsViable() {
      && Passed(Build) != Some(false)
      && Passed(Test) != Some(false)
      && !(staticAnalysisIsBlocking && Passed(StaticAnalysis) == Some(false))
    }

    function ExtendedWith(more: seq<ToolResult>): ValidationReport { this.(results := results + more) }
  }

  // ---- what the evidence says, result by result ----

  /** Some result of this stage was recorded. */
  ghost predicate Reports(v: ValidationReport, stage: Stage) {
    exists i :: 0 <= i < |v.results| && v.results[i].kind == stage
  }

  /** Some result of this stage has a non-zero exit code. */
  ghost predicate Breaks(v: ValidationReport, stage: Stage) {
    exists i :: 0 <= i < |v.results| && v.results[i].kind == stage && v.results[i].exitCode != 0
  }

  lemma PassedMeans(v: ValidationReport, stage: Stage)
    ensures v.Passed(stage) == None <==> !Reports(v, stage)
    ensures v.Passed(stage) == Some(true) <==> Reports(v, stage) && !Breaks(v, stage)
    ensures v.Passed(stage) == Some(false) <==> Breaks(v, stage)
  {
    if r :| r in v.results && r.kind == stage {
      var i :| 0 <= i < |v.results| && v.results[i] == r;
      assert Reports(v, stage);
    }
    if r :| r in v.results && r.kind == stage && r.exitCode != 0 {
      var i :| 0 <= i < |v.results| && v.results[i] == r;
      assert Breaks(v, stage);
    }
  }

  /** Only an observed failure disqualifies: of the build, of the tests, and of
      static analysis when that is blocking. What did not run does not, and an
      advisory analysis does not. */
  lemma ViableMeans(v: ValidationReport)
    ensures v.IsViable() <==>
      && !Breaks(v, Build) && !Breaks(v, Test)
      && (v.staticAnalysisIsBlocking ==> !Breaks(v, StaticAnalysis))
  {
    PassedMeans(v, Build);
    PassedMeans(v, Test);
    PassedMeans(v, StaticAnalysis);
  }

  /** Build comes before the tests, and both before static analysis. */
  predicate Earlier(a: Stage, b: Stage) {
    match b
    case Build => false
    case Test => a.Build?
    case StaticAnalysis => !a.StaticAnalysis?
  }

  /** This stage is due: configured, not run, every configured stage before it
      has run, and nothing before it is broken. */
  ghost predicate Due(configured: set<Stage>, v: ValidationReport, stage: Stage) {
    && stage in configured && !Reports(v, stage)
    && forall o: Stage :: Earlier(o, stage) ==> !Breaks(v, o) && (o in configured ==> Reports(v, o))
  }

  /** The stage asked for next is the one that is due, and none is asked for only
      when none is. */
  lemma NextStageMeans(configured: set<Stage>, v: ValidationReport, stage: Stage)
    ensures NextStage(configured, v) == Some(stage) <==> Due(configured, v, stage)
  {
    PassedMeans(v, Build);
    PassedMeans(v, Test);
    PassedMeans(v, StaticAnalysis);
    assert Earlier(Build, Test) && Earlier(Build, StaticAnalysis) && Earlier(Test, StaticAnalysis);
  }

  /** The next configured stage that has not run, stopping at the first observed failure. */
  function NextStage(configured: set<Stage>, report: ValidationReport): Option<Stage> {
    if report.Passed(Build) == Some(false) then None
    else if report.Passed(Build) == None && Build in configured then Some(Build)
    else if report.Passed(Test) == Some(false) then None
    else if report.Passed(Test) == None && Test in configured then Some(Test)
    else if report.Passed(StaticAnalysis) == Some(false) then None
    else if report.Passed(StaticAnalysis) == None && StaticAnalysis in configured then Some(StaticAnalysis)
    else None
  }

  datatype CandidateStatus =
    | New | Coding | Validating | Validated | Rejected | Selected | Failed | Cancelled
  {
    predicate IsTerminal() { this in {Rejected, Selected, Failed, Cancelled} }
  }

  datatype Verdict = Pass | Fail

  /** A diff, reduced to what decisions look at. */
  datatype Patch = Patch(isEmpty: bool, totalChurn: nat)

  /** `reviewedRepair` is history: how many repairs preceded the recorded verdict. */
  datatype CandidateRecord = CandidateRecord(
    index: nat,
    status: CandidateStatus,
    patch: Option<Patch>,
    validation: ValidationReport,
    verdict: Option<Verdict>,
    coderIterations: nat,
    repairIterations: nat,
    reviewedRepair: nat)
  {
    predicate HasPatch() { patch.Some? && !patch.value.isEmpty }

    predicate IsViable() { HasPatch() && validation.IsViable() }
  }

  function Create(index: nat): CandidateRecord {
    CandidateRecord(index, New, None, ValidationReport([], false), None, 0, 0, 0)
  }

  function StartCoding(c: CandidateRecord): Result<CandidateRecord> {
    if c.status.IsTerminal() then Raised
    else Ok(c.(status := Coding, coderIterations := c.coderIterations + 1))
  }

  function SubmitPatch(c: CandidateRecord, patch: Patch): Result<CandidateRecord> {
    if c.status != Coding then Raised else Ok(c.(patch := Some(patch)))
  }

  function StartValidation(c: CandidateRecord): Result<CandidateRecord> {
    if c.status !in {Coding, Validating} then Raised else Ok(c.(status := Validating))
  }

  function AppendValidation(c: CandidateRecord, results: seq<ToolResult>): Result<CandidateRecord> {
    if c.status != Validating then Raised else Ok(c.(validation := c.validation.ExtendedWith(results)))
  }

  function RecordValidation(c: CandidateRecord, blocking: bool): Result<CandidateRecord> {
    if c.status != Validating then Raised
    else Ok(c.(validation := c.validation.(staticAnalysisIsBlocking := blocking), status := Validated))
  }

  /** Closing on a report handed in replaces what was accumulated. */
  function RecordReport(c: CandidateRecord, blocking: bool, report: Option<ValidationReport>): Result<CandidateRecord> {
    RecordValidation(if report.Some? && c.status == Validating then c.(validation := report.value) else c, blocking)
  }

  /** What the tools returned, as appended now. */
  function Stamped(c: CandidateRecord, ran: seq<(Stage, int)>): (r: seq<ToolResult>)
    ensures |r| == |ran|
    ensures forall i :: 0 <= i < |ran| ==> r[i] == ToolResult(ran[i].0, ran[i].1, c.repairIterations)
  {
    seq(|ran|, i requires 0 <= i < |ran| => ToolResult(ran[i].0, ran[i].1, c.repairIterations))
  }

  function RecordReview(c: CandidateRecord, verdict: Verdict): CandidateRecord {
    c.(verdict := Some(verdict), reviewedRepair := c.repairIterations)
  }

  /** Back to the coder; the previous round's results describe code that is gone. */
  function StartRepair(c: CandidateRecord): Result<CandidateRecord> {
    if c.status.IsTerminal() then Raised
    else Ok(c.(repairIterations := c.repairIterations + 1,
               status := Coding,
               coderIterations := c.coderIterations + 1,
               validation := ValidationReport([], c.validation.staticAnalysisIsBlocking)))
  }

  function Select(c: CandidateRecord): Result<CandidateRecord> {
    if c.status == Selected then Ok(c)
    else if c.status.IsTerminal() then Raised
    else Ok(c.(status := Selected))
  }

  function Reject(c: CandidateRecord): CandidateRecord {
    if c.status.IsTerminal() then c else c.(status := Rejected)
  }

  function FailCandidate(c: CandidateRecord): CandidateRecord {
    if c.status.IsTerminal() then c else c.(status := Failed)
  }

  function Cancel(c: CandidateRecord): CandidateRecord {
    if c.status.IsTerminal() then c else c.(status := Cancelled)
  }

  // ---- any sequence of method calls ----

  datatype CandidateCall =
    | CallStartCoding | CallSubmitPatch(patch: Patch) | CallStartValidation
    | CallToolsRan(ran: seq<(Stage, int)>) | CallRecordValidation(blocking: bool, report: Option<ValidationReport>)
    | CallRecordReview(verdict: Verdict) | CallStartRepair | CallSelect | CallReject | CallFail | CallCancel

  function Call(c: CandidateRecord, call: CandidateCall): Result<CandidateRecord> {
    match call
    case CallStartCoding => StartCoding(c)
    case CallSubmitPatch(patch) => SubmitPatch(c, patch)
    case CallStartValidation => StartValidation(c)
    case CallToolsRan(ran) => AppendValidation(c, Stamped(c, ran))
    case CallRecordValidation(blocking, report) => RecordReport(c, blocking, report)
    case CallRecordReview(verdict) => Ok(RecordReview(c, verdict))
    case CallStartRepair => StartRepair(c)
    case CallSelect => Select(c)
    case CallReject => Ok(Reject(c))
    case CallFail => Ok(FailCandidate(c))
    case CallCancel => Ok(Cancel(c))
  }

  function After(c: CandidateRecord, call: CandidateCall): CandidateRecord {
    match Call(c, call)
    case Ok(c1) => c1
    case Raised => c
  }

  function Replay(c: CandidateRecord, calls: seq<CandidateCall>): CandidateRecord {
    if calls == [] then c else After(Replay(c, calls[..|calls| - 1]), calls[|calls| - 1])
  }

  /** REJECTED, SELECTED, FAILED or CANCELLED. */
  predicate Over(c: CandidateRecord) {
    c.status.Rejected? || c.status.Selected? || c.status.Failed? || c.status.Cancelled?
  }

  /** What each call does to the record, and when it is refused. */
  lemma CallTable(c: CandidateRecord, call: CandidateCall)
    ensures Call(c, call) ==
      match call
      case CallStartCoding =>
        if Over(c) then Raised else Ok(c.(status := Coding, coderIterations := c.coderIterations + 1))
      case CallSubmitPatch(patch) => if c.status.Coding? then Ok(c.(patch := Some(patch))) else Raised
      case CallStartValidation =>
        if c.status.Coding? || c.status.Validating? then Ok(c.(status := Validating)) else Raised
      case CallToolsRan(ran) =>
        if c.status.Validating?
        then Ok(c.(validation := ValidationReport(c.validation.results + Stamped(c, ran), c.validation.staticAnalysisIsBlocking)))
        else Raised
      case CallRecordValidation(blocking, report) =>
        if c.status.Validating?
        then Ok(c.(status := Validated,
                   validation := ValidationReport(if report.Some? then report.value.results else c.validation.results, blocking)))
        else Raised
      case CallRecordReview(verdict) => Ok(c.(verdict := Some(verdict), reviewedRepair := c.repairIterations))
      case CallStartRepair =>
        if Over(c) then Raised
        else Ok(c.(status := Coding, coderIterations := c.coderIterations + 1, repairIterations := c.repairIterations + 1,
                   validation := ValidationReport([], c.validation.staticAnalysisIsBlocking)))
      case CallSelect => if Over(c) && !c.status.Selected? then Raised else Ok(c.(status := Selected))
      case CallReject => Ok(if Over(c) then c else c.(status := Rejected))
      case CallFail => Ok(if Over(c) then c else c.(status := Failed))
      case CallCancel => Ok(if Over(c) then c else c.(status := Cancelled))
  {
  }

  /** How many calls of a kind reached the candidate before it was over. */
  ghost function Reached(index: nat, calls: seq<CandidateCall>, call: CandidateCall): nat {
    if calls == [] then 0 else
    var front, last := calls[..|calls| - 1], calls[|calls| - 1];
    Reached(index, front, call) + Bit(last == call && !Over(Replay(Create(index), front)))
  }

  /** Coder rounds are the starts and the repairs that were not refused, repairs
      are the repairs alone, and nothing else is counted. */
  lemma {:induction false} RoundsAreCounted(index: nat, calls: seq<CandidateCall>)
    ensures var c := Replay(Create(index), calls);
      && c.repairIterations == Reached(index, calls, CallStartRepair)
      && c.coderIterations == Reached(index, calls, CallStartCoding) + Reached(index, calls, CallStartRepair)
  {
    if calls != [] {
      RoundsAreCounted(index, calls[..|calls| - 1]);
      CallTable(Replay(Create(index), calls[..|calls| - 1]), calls[|calls| - 1]);
      hide Call;
    }
  }

  /** Everything in the report was produced after the latest repair. */
  ghost predicate EvidenceIsCurrent(c: CandidateRecord) {
    forall r :: r in c.validation.results ==> r.repair == c.repairIterations
  }

  /** A report handed in holds nothing from before the latest repair. */
  ghost predicate Timely(c: CandidateRecord, call: CandidateCall) {
    call.CallRecordValidation? && call.report.Some? && c.status == Validating ==>
      forall r :: r in call.report.value.results ==> r.repair == c.repairIterations
  }

  ghost predicate AllTimely(index: nat, calls: seq<CandidateCall>) {
    forall i :: 0 <= i < |calls| ==> Timely(Replay(Create(index), calls[..i]), calls[i])
  }

  /** One call keeps the evidence current exactly when a report it hands in is timely. */
  lemma EvidenceStep(c: CandidateRecord, call: CandidateCall)
    requires EvidenceIsCurrent(c)
    ensures EvidenceIsCurrent(After(c, call)) <==> Timely(c, call)
    ensures After(c, call).index == c.index
  {
    if call.CallToolsRan? && c.status == Validating {
      assert forall r :: r in Stamped(c, call.ran) ==> r.repair == c.repairIterations;
    }
  }

  /** Whatever the order of calls, a candidate is only ever judged on results
      appended after its latest repair, as long as nobody hands in an older report. */
  lemma {:induction false} EvidenceStaysCurrent(index: nat, calls: seq<CandidateCall>)
    requires AllTimely(index, calls)
    ensures EvidenceIsCurrent(Replay(Create(index), calls))
    ensures Replay(Create(index), calls).index == index
  {
    if calls != [] {
      hide After, Timely, EvidenceIsCurrent;
      var n := |calls| - 1;
      var before := calls[..n];
      assert forall i :: 0 <= i < n ==> before[..i] == calls[..i] && before[i] == calls[i];
      EvidenceStaysCurrent(index, before);
      assert Timely(Replay(Create(index), calls[..n]), calls[n]);
      EvidenceStep(Replay(Create(index), before), calls[n]);
    }
  }

  /** All along a history the evidence is current if and only if every report
      handed in was timely. */
  lemma EvidenceCurrentExactly(index: nat, calls: seq<CandidateCall>)
    ensures (forall i :: 0 <= i <= |calls| ==> EvidenceIsCurrent(Replay(Create(index), calls[..i])))
      <==> AllTimely(index, calls)
  {
    hide After, Timely, EvidenceIsCurrent;
    if AllTimely(index, calls) {
      forall i | 0 <= i <= |calls|
        ensures EvidenceIsCurrent(Replay(Create(index), calls[..i]))
      {
        var before := calls[..i];
        assert forall l :: 0 <= l < i ==> before[..l] == calls[..l] && before[l] == calls[l];
        EvidenceStaysCurrent(index, before);
      }
    } else {
      var i :| 0 <= i < |calls| && !Timely(Replay(Create(index), calls[..i]), calls[i]);
      if EvidenceIsCurrent(Replay(Create(index), calls[..i])) {
        EvidenceStep(Replay(Create(index), calls[..i]), calls[i]);
        assert calls[..i + 1][..i] == calls[..i];
      }
    }
  }

  /** SELECTED, REJECTED, FAILED and CANCELLED are final: only a late verdict may still be noted. */
  lemma {:induction false} TerminalCandidatesAreFinal(c: CandidateRecord, calls: seq<CandidateCall>)
    requires c.status.IsTerminal()
    ensures var now := Replay(c, calls);
            now == c.(verdict := now.verdict, reviewedRepair := now.reviewedRepair)
  {
    if calls != [] {
      TerminalCandidatesAreFinal(c, calls[..|calls| - 1]);
    }
  }

  /** The entity itself, whose methods update its fields. */
  class Candidate {
    const index: nat
    var status: CandidateStatus
    var patch: Option<Patch>
    var validation: ValidationReport
    var verdict: Option<Verdict>
    var coderIterations: nat
    var repairIterations: nat
    var reviewedRepair: nat

    function Record(): (r: CandidateRecord)
      reads this
    {
      CandidateRecord(index, status, patch, validation, verdict, coderIterations, repairIterations, reviewedRepair)
    }

    constructor (index: nat)
      ensures Record() == Create(index)
    {
      this.index := index;
      status, patch, verdict := New, None, None;
      validation := ValidationReport([], false);
      coderIterations, repairIterations, reviewedRepair := 0, 0, 0;
    }

    method StartCoding() returns (ok: bool)
      modifies this
      ensures Record() == After(old(Record()), CallStartCoding)
      ensures ok == Call(old(Record()), CallStartCoding).Ok?
    {
      if status.IsTerminal() {
        return false;
      }
      status := Coding;
      coderIterations := coderIterations + 1;
      ok := true;
    }

    method SubmitPatch(patch: Patch) returns (ok: bool)
      modifies this
      ensures Record() == After(old(Record()), CallSubmitPatch(patch))
      ensures ok == Call(old(Record()), CallSubmitPatch(patch)).Ok?
    {
      if status != Coding {
        return false;
      }
      this.patch := Some(patch);
      ok := true;
    }

    method StartValidation() returns (ok: bool)
      modifies this
      ensures Record() == After(old(Record()), CallStartValidation)
      ensures ok == Call(old(Record()), CallStartValidation).Ok?
    {
      if status != Coding && status != Validating {
        return false;
      }
      status := Validating;
      ok := true;
    }

    method AppendValidation(ran: seq<(Stage, int)>) returns (ok: bool)
      modifies this
      ensures Record() == After(old(Record()), CallToolsRan(ran))
      ensures ok == Call(old(Record()), CallToolsRan(ran)).Ok?
    {
      if status != Validating {
        return false;
      }
      validation := validation.ExtendedWith(Stamped(Record(), ran));
      ok := true;
    }

    method RecordValidation(blocking: bool, report: Option<ValidationReport>) returns (ok: bool)
      modifies this
      ensures Record() == After(old(Record()), CallRecordValidation(blocking, report))
      ensures ok == Call(old(Record()), CallRecordValidation(blocking, report)).Ok?
    {
      if status != Validating {
        return false;
      }
      var final := if report.Some? then report.value else validation;
      validation := final.(staticAnalysisIsBlocking := blocking);
      status := Validated;
      ok := true;
    }

    method RecordReview(verdict: Verdict)
      modifies this
      ensures Record() == After(old(Record()), CallRecordReview(verdict))
    {
      this.verdict := Some(verdict);
      reviewedRepair := repairIterations;
    }

    method StartRepair() returns (ok: bool)
      modifies this
      ensures Record() == After(old(Record()), CallStartRepair)
      ensures ok == Call(old(Record()), CallStartRepair).Ok?
    {
      if status.IsTerminal() {
        return false;
      }
      repairIterations := repairIterations + 1;
      status := Coding;
      coderIterations := coderIterations + 1;
      validation := ValidationReport([], validation.staticAnalysisIsBlocking);
      ok := true;
    }

    method Select() returns (ok: bool)
      modifies this
      ensures Record() == After(old(Record()), CallSelect)
      ensures ok == Call(old(Record()), CallSelect).Ok?
    {
      if status == Selected {
        return true;
      }
      if status.IsTerminal() {
        return false;
      }
      status := Selected;
      ok := true;
    }

    method Reject()
      modifies this
      ensures Record() == After(old(Record()), CallReject)
    {
      if !status.IsTerminal() {
        status := Rejected;
      }
    }

    method Fail()
      modifies this
      ensures Record() == After(old(Record()), CallFail)
    {
      if !status.IsTerminal() {
        status := Failed;
      }
    }

    method Cancel()
      modifies this
      ensures Record() == After(old(Record()), CallCancel)
    {
      if !status.IsTerminal() {
        status := Cancelled;
      }
    }
  }
}
