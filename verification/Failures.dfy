/** Failure kinds and the retry policy that branches on them. */
module Failures {

  datatype FailureKind =
    | Infrastructure | Inference | InvalidStructuredOutput | Tool
    | CompilationFailure | TestFailure | ReviewFailure | CancelledByRun
  {
    predicate IsInfrastructure() { this in {Infrastructure, Inference, Tool} }

    predicate IsCodeDefect() { this in {CompilationFailure, TestFailure, ReviewFailure} }
  }

  /** The exception families the orchestrator tells apart. */
  datatype Exception =
    | StructuredOutputError | LLMTimeoutError | InferenceError | NoCompatibleWorkerError
    | ToolExecutionError | WorkspaceError | OtherError

  function Classify(exc: Exception): FailureKind {
    match exc
    case StructuredOutputError => InvalidStructuredOutput
    case LLMTimeoutError => Inference
    case InferenceError => Inference
    case NoCompatibleWorkerError => Infrastructure
    case ToolExecutionError => Tool
    case WorkspaceError => Infrastructure
    case OtherError => Infrastructure
  }

  datatype RetryAction = RetrySameWorker | RetryOtherWorker | RepairPrompt | AgenticRepair | Fail {
    predicate ShouldRetryJob() { this in {RetrySameWorker, RetryOtherWorker, RepairPrompt} }
  }

  datatype RetryPolicy = RetryPolicy(maxAttempts: nat, maxStructuredOutputRepairs: int) {

    predicate Valid() { maxAttempts >= 1 }

    function Decide(kind: FailureKind, attempt: nat): RetryAction {
      if kind == CancelledByRun then Fail
      else if kind.IsCodeDefect() then AgenticRepair
      else if kind == InvalidStructuredOutput then
        if attempt >= maxStructuredOutputRepairs then Fail else RepairPrompt
      else if attempt >= maxAttempts then Fail
      else if kind == Tool then RetrySameWorker
      else RetryOtherWorker
    }

    /** No retry decision is ever taken once a job with this budget is spent. */
    predicate Within(jobMaxAttempts: nat) {
      maxAttempts <= jobMaxAttempts && maxStructuredOutputRepairs <= jobMaxAttempts
    }
  }

  /** What follows a failed attempt, kind by kind. */
  lemma PolicyTable(p: RetryPolicy, kind: FailureKind, attempt: nat)
    ensures p.Decide(kind, attempt) ==
      match kind
      case Infrastructure | Inference => if attempt < p.maxAttempts then RetryOtherWorker else Fail
      case Tool => if attempt < p.maxAttempts then RetrySameWorker else Fail
      case InvalidStructuredOutput => if attempt < p.maxStructuredOutputRepairs then RepairPrompt else Fail
      case CompilationFailure | TestFailure | ReviewFailure => AgenticRepair
      case CancelledByRun => Fail
    ensures p.Decide(kind, attempt).ShouldRetryJob() <==> !p.Decide(kind, attempt).AgenticRepair? && !p.Decide(kind, attempt).Fail?
  {
  }
}
