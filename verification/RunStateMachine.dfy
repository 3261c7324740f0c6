/** The governed transition table of a run. */
module RunStateMachine {

  datatype RunStatus =
    | Created | Planning | PlanReady | Coding | Validating | Reviewing | Repairing
    | Completed | Failed | Cancelling | Cancelled
  {
    predicate IsTerminal() { this in {Completed, Failed, Cancelled} }

    predicate IsStopping() { this in {Cancelling, Cancelled} }
  }

  function Transitions(state: RunStatus): set<RunStatus> {
    match state
    case Created => {Planning, Coding, Failed}
    case Planning => {PlanReady, Failed}
    case PlanReady => {Coding, Planning, Failed}
    case Coding => {Validating, Reviewing, Failed}
    case Validating => {Reviewing, Repairing, Failed}
    case Reviewing => {Completed, Repairing, Failed}
    case Repairing => {Coding, Planning, Failed}
    case Cancelling => {Cancelled, Failed}
    case Completed => {}
    case Failed => {}
    case Cancelled => {}
  }

  /** The table with the cancellation request added to every live row. */
  function AllowedFrom(state: RunStatus): set<RunStatus> {
    if !state.IsTerminal() && state != Cancelling then Transitions(state) + {Cancelling} else Transitions(state)
  }

  predicate Can(current: RunStatus, requested: RunStatus) {
    requested in AllowedFrom(current)
  }
}
