// The vocabulary both sides of the Cluster API share: phases and their ranks,
// run statuses, failure classes and the exit codes of the agent image.
module Phases {
  import opened Wrappers

  type ClusterId = nat
  type RunId = nat

  /** What a controller observes. Unrecognised is any spelling this build does not know. */
  datatype Phase =
    | Pending | Starting | Running
    | Succeeded | Failed | TimedOut | Cancelled
    | Unrecognised(name: string)
  {
    function Rank(): nat {
      match this
      case Pending => 10
      case Starting => 20
      case Running => 30
      case Unrecognised(_) => 0
      case _ => 40
    }

    predicate IsTerminal() { Rank() == 40 }
  }

  /** The rank of a nullable phase column, as the database generates it. */
  function RankOf(phase: Option<Phase>): nat {
    if phase.Some? then phase.value.Rank() else 0
  }

  predicate Ended(phase: Option<Phase>) {
    phase.Some? && phase.value.IsTerminal()
  }

  datatype Status =
    | Queued | Leased | Dispatched | StatusStarting | StatusRunning | Unknown
    | StatusSucceeded | StatusFailed | StatusTimedOut | StatusCancelled
    | CompletedWithoutResult
  {
    predicate IsTerminal() {
      this in {StatusSucceeded, StatusFailed, StatusTimedOut, StatusCancelled}
    }

    /** Acknowledged and not over: what a lease expiry or a silent heartbeat may turn Unknown. */
    predicate IsLive() {
      this in {Dispatched, StatusStarting, StatusRunning}
    }
  }

  function StatusForPhase(phase: Phase): Option<Status> {
    match phase
    case Pending => Some(Dispatched)
    case Starting => Some(StatusStarting)
    case Running => Some(StatusRunning)
    case Succeeded => Some(StatusSucceeded)
    case Failed => Some(StatusFailed)
    case TimedOut => Some(StatusTimedOut)
    case Cancelled => Some(StatusCancelled)
    case Unrecognised(_) => None
  }

  datatype FailureClass = NoFailure | Infra | Agent | Git | Config | Budget {
    /** The two classes a cluster repairs by itself. */
    predicate Retriable() { this == Infra || this == Git }
  }

  function FailureClassForExitCode(code: int): FailureClass {
    if code == 0 then NoFailure
    else if code in {10, 11, 12} then Agent
    else if code == 20 then Git
    else if code == 21 then Infra
    else if code == 30 then Config
    else if code > 128 then Infra
    else Agent
  }

  function PhaseForExitCode(code: int): Phase {
    if code == 0 then Succeeded
    else if code == 11 then TimedOut
    else Failed
  }

  /** status_reason: the tokens the store writes itself, or what a report stated. */
  datatype Reason =
    | NoEligibleCluster | MaterializationRefused | AckTimeoutExhausted | AckDeadlineExceeded
    | LeaseDeadlineExceeded | NotReportedByCluster | CancelledBeforeDispatch | OperatorRetry
    | Seen(why: Why)
    | Stated(token: string)

  /** Why a container waits, as the kubelet words it. */
  datatype WaitReason =
    | ImagePullBackOff | ErrImagePull | InvalidImageName
    | CreateContainerConfigError | CreateContainerError | CrashLoopBackOff
    | Unschedulable | NoWaitReason | OtherWait(token: string)

  /** The reason an AgentRun's status carries: the controller's own tokens, and Kubernetes'. */
  datatype Why =
    | Unexplained | AwaitingJob | JobDisappeared | PodNotCreated | StartupDeadlineExceeded
    | DeadlineExceeded | PodLost | CancelledOnRequest | Completed | InvalidSpec
    | Named(phase: Phase) | Waiting(wait: WaitReason) | Worded(token: string)

  /** status_message, before it is rendered as text. */
  datatype Message =
    | Told(text: string)
    | Rejection(code: string, detail: Option<string>)
    | LeasesExpired(count: nat)

  /** One step of the agent image's entrypoint, numbered by the contract's execution order. */
  type RuntimePhase = p: nat | p < 19
}
