/** The task-run lifecycle catalog built on the generic state machine: the
    fourteen run statuses, the three transitions out of PENDING, and the
    draft compound state pairing a run status with the attempt statuses it
    allows. */
module RunStateMachine {
  import opened StateMachines

  /** The run statuses of the database schema. */
  datatype TaskRunStatus =
    | DELAYED
    | WAITING_FOR_DEPLOY
    | PENDING
    | EXECUTING
    | RETRYING_AFTER_FAILURE
    | WAITING_TO_RESUME
    | COMPLETED_SUCCESSFULLY
    | CANCELED
    | COMPLETED_WITH_ERRORS
    | CRASHED
    | PAUSED
    | INTERRUPTED
    | SYSTEM_FAILURE
    | EXPIRED

  /** The attempt statuses of the database schema (only EXECUTING is used here). */
  datatype TaskRunAttemptStatus =
    | PENDING
    | EXECUTING
    | PAUSED
    | FAILED
    | CANCELED
    | COMPLETED

  /** The string a run status is stored and compared as. */
  function Name(s: TaskRunStatus): (n: State)
    ensures n != ""
  {
    match s
    case DELAYED => "DELAYED"
    case WAITING_FOR_DEPLOY => "WAITING_FOR_DEPLOY"
    case PENDING => "PENDING"
    case EXECUTING => "EXECUTING"
    case RETRYING_AFTER_FAILURE => "RETRYING_AFTER_FAILURE"
    case WAITING_TO_RESUME => "WAITING_TO_RESUME"
    case COMPLETED_SUCCESSFULLY => "COMPLETED_SUCCESSFULLY"
    case CANCELED => "CANCELED"
    case COMPLETED_WITH_ERRORS => "COMPLETED_WITH_ERRORS"
    case CRASHED => "CRASHED"
    case PAUSED => "PAUSED"
    case INTERRUPTED => "INTERRUPTED"
    case SYSTEM_FAILURE => "SYSTEM_FAILURE"
    case EXPIRED => "EXPIRED"
  }

  /** Reads a stored string back as a run status. */
  function Parse(n: State): (s: Option<TaskRunStatus>)
    ensures s.Some? ==> Name(s.value) == n
  {
    match n
    case "DELAYED" => Some(DELAYED)
    case "WAITING_FOR_DEPLOY" => Some(WAITING_FOR_DEPLOY)
    case "PENDING" => Some(TaskRunStatus.PENDING)
    case "EXECUTING" => Some(TaskRunStatus.EXECUTING)
    case "RETRYING_AFTER_FAILURE" => Some(RETRYING_AFTER_FAILURE)
    case "WAITING_TO_RESUME" => Some(WAITING_TO_RESUME)
    case "COMPLETED_SUCCESSFULLY" => Some(COMPLETED_SUCCESSFULLY)
    case "CANCELED" => Some(TaskRunStatus.CANCELED)
    case "COMPLETED_WITH_ERRORS" => Some(COMPLETED_WITH_ERRORS)
    case "CRASHED" => Some(CRASHED)
    case "PAUSED" => Some(TaskRunStatus.PAUSED)
    case "INTERRUPTED" => Some(INTERRUPTED)
    case "SYSTEM_FAILURE" => Some(SYSTEM_FAILURE)
    case "EXPIRED" => Some(EXPIRED)
    case _ => None
  }

  /** Every status survives the round trip through its name, so two
      statuses never share a name. */
  lemma ParseName(s: TaskRunStatus)
    ensures Parse(Name(s)) == Some(s)
  {
  }

  /** `cancelRun`: from PENDING to CANCELED. */
  const CancelRun: StateTransition := StateTransition(Some(["PENDING"]), "CANCELED")
  /** `expireRun`: from PENDING to EXPIRED. */
  const ExpireRun: StateTransition := StateTransition(Some(["PENDING"]), "EXPIRED")
  /** `executeRun`: from PENDING to EXECUTING. */
  const ExecuteRun: StateTransition := StateTransition(Some(["PENDING"]), "EXECUTING")

  /** The states `runMachine` declares, in declaration order. */
  const RunStates: seq<State> := [
    "DELAYED",
    "WAITING_FOR_DEPLOY",
    "PENDING",
    "EXECUTING",
    "RETRYING_AFTER_FAILURE",
    "WAITING_TO_RESUME",
    "COMPLETED_SUCCESSFULLY",
    "CANCELED",
    "COMPLETED_WITH_ERRORS",
    "CRASHED",
    "PAUSED",
    "INTERRUPTED",
    "SYSTEM_FAILURE",
    "EXPIRED"
  ]

  /** The transitions `runMachine` declares, in declaration order. */
  const RunTransitions: seq<StateTransition> := [CancelRun, ExpireRun, ExecuteRun]

  /** `m` is the `runMachine` singleton: built from the run catalog. */
  predicate IsRunMachine(m: StateMachine)
  {
    m.states == RunStates && m.transitions == RunTransitions
  }

  /** Builds the `runMachine` singleton, with no current state yet. */
  method NewRunMachine() returns (m: StateMachine)
    ensures fresh(m) && IsRunMachine(m) && m.state == None
  {
    m := new StateMachine(RunStates, RunTransitions);
  }

  /** The declared states are exactly the names of the fourteen run
      statuses, each once. */
  lemma RunStatesAreStatusNames()
    ensures |RunStates| == 14
    ensures forall i, j :: 0 <= i < j < |RunStates| ==> RunStates[i] != RunStates[j]
    ensures forall s :: Name(s) in RunStates
    ensures forall n :: n in RunStates ==> Parse(n).Some?
  {
  }

  /** The catalog, in order, is cancel, expire, execute, each allowed only
      from PENDING, and every target is a declared state. */
  lemma RunCatalog()
    ensures RunTransitions == [
      StateTransition(Some([Name(TaskRunStatus.PENDING)]), Name(TaskRunStatus.CANCELED)),
      StateTransition(Some([Name(TaskRunStatus.PENDING)]), Name(EXPIRED)),
      StateTransition(Some([Name(TaskRunStatus.PENDING)]), Name(TaskRunStatus.EXECUTING))]
    ensures forall t :: t in RunTransitions ==> t.from == Some(["PENDING"]) && t.to in RunStates
  {
  }

  /** From PENDING every request succeeds, through `cancelRun` (the first
      declared transition), and the run moves to the requested state. */
  lemma FromPending(x: State)
    ensures FirstMatch(RunTransitions, Some(Name(TaskRunStatus.PENDING)), x) == Some(0)
    ensures Apply(RunTransitions, Some(Name(TaskRunStatus.PENDING)), x) == Step(Success(x), Some(x))
  {
  }

  /** From any state other than PENDING (another status, any other string
      the machine may have been moved to, or no state at all), every
      request fails and the current state stays put. */
  lemma FromOtherThanPending(current: Option<State>, x: State)
    requires current != Some(Name(TaskRunStatus.PENDING))
    ensures Apply(RunTransitions, current, x) == Step(Failure(InvalidTransition(current, x)), current)
  {
  }

  /** The draft compound state: a run status and the attempt statuses
      allowed with it (`None` for "no attempt"). */
  datatype RunState = RunState(run: TaskRunStatus, attempt: seq<Option<TaskRunAttemptStatus>>)

  /** The compound state of a pending run. */
  const Pending: RunState := RunState(TaskRunStatus.PENDING, [None])
  /** The compound state of an executing run. */
  const Executing: RunState := RunState(TaskRunStatus.EXECUTING, [None, Some(TaskRunAttemptStatus.EXECUTING)])

  /** Whether a compound state allows the given attempt status. */
  predicate Allows(s: RunState, a: Option<TaskRunAttemptStatus>)
  {
    a in s.attempt
  }

  /** A pending run allows only "no attempt"; an executing run allows "no
      attempt" or an executing attempt. */
  lemma CompoundStates(a: Option<TaskRunAttemptStatus>)
    ensures Pending.run == TaskRunStatus.PENDING && (Allows(Pending, a) <==> a == None)
    ensures Executing.run == TaskRunStatus.EXECUTING
    ensures Allows(Executing, a) <==> a == None || a == Some(TaskRunAttemptStatus.EXECUTING)
  {
  }
}
