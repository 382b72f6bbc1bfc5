/** src/acp/domain/states.py: the legal transition graph and the event vocabulary. */
module States {
  import opened Wrappers

  datatype State = Queued | Running | Succeeded | Failed | Cancelled

  const TERMINAL: set<State> := {Succeeded, Failed, Cancelled}

  function Allowed(from: State): set<State> {
    match from
    case Queued => {Running, Cancelled}
    case Running => {Queued, Succeeded, Failed, Cancelled}
    case _ => {}
  }

  predicate IsLegal(from: State, to: State) {
    to in Allowed(from)
  }

  datatype EventType =
    | TaskCreated | TaskClaimed | TaskStarted | AttemptFailed | RetryScheduled | LeaseRenewed | LeaseExpiredEvent
    | TaskRecovered | TaskAbandoned | WorkerLost | StaleWriteRejected | TaskSucceeded | TaskFailed
    | ToolAccessAllowed | ToolAccessDenied | ToolExecuted | ToolExecutionFailed
    | CancelRequested | TaskCancelled

  /** The state an event announces, for the events written together with a change of `tasks.state`. */
  function Announces(kind: EventType): Option<State> {
    match kind
    case TaskCreated => Some(Queued)
    case TaskClaimed => Some(Running)
    case RetryScheduled => Some(Queued)
    case TaskRecovered => Some(Queued)
    case TaskAbandoned => Some(Queued)
    case TaskSucceeded => Some(Succeeded)
    case TaskFailed => Some(Failed)
    case TaskCancelled => Some(Cancelled)
    case _ => None
  }
}
