/** The persisted per-task state of a workflow run, as `state.json` holds it. */
module RunState {
  import opened Workflows

  datatype TaskState =
    | Pending | Ready | Running
    | Succeeded | Verified
    | Failed | TimedOut | Cancelled | VerificationFailed | Blocked | Skipped
  {
    /** TERMINAL_SUCCESS */
    predicate Success() {
      Succeeded? || Verified?
    }

    /** TERMINAL_FAILURE */
    predicate Failure() {
      Failed? || TimedOut? || Cancelled? || VerificationFailed? || Blocked? || Skipped?
    }

    predicate Terminal() {
      Success() || Failure()
    }

    /** The states that dependency marking may still change. */
    predicate Open() {
      Pending? || Ready?
    }
  }

  /** The runner's status is free text; only these three texts are ever compared. */
  datatype Status = StatusSucceeded | StatusTimedOut | StatusCancelled | OtherStatus(text: string)

  datatype Outcome = Outcome(status: Status, exitCode: int, transportError: bool)

  type DispatchId = string

  /** `outcome` is absent while the record still says "running". */
  datatype Attempt = Attempt(number: nat, dispatchId: DispatchId, outcome: Option<Outcome>)

  datatype Record = Record(state: TaskState, attempts: seq<Attempt>)

  type Tasks = map<TaskId, Record>

  /** The record map has exactly the workflow's tasks. */
  predicate Covers(w: Workflow, m: Tasks) {
    WellFormed(w) && m.Keys == w.tasks.Keys
  }

  /** The task order lists exactly the tasks with a record. */
  lemma OrderIn(w: Workflow, m: Tasks)
    requires Covers(w, m)
    ensures forall t | t in w.order :: t in w.tasks && t in m
    ensures forall t | t in m :: t in w.order
    ensures forall i | 0 <= i < |w.order| :: w.order[i] in m
  {
  }

  lemma OrderIsDistinct(w: Workflow, m: Tasks)
    requires Covers(w, m)
    ensures Distinct(w.order)
  {
  }

  predicate AnyFailed(w: Workflow, m: Tasks, t: TaskId)
    requires Covers(w, m) && t in m
  {
    exists d | d in w.tasks[t].dependsOn :: m[d].state.Failure()
  }

  predicate AllSucceeded(w: Workflow, m: Tasks, t: TaskId)
    requires Covers(w, m) && t in m
  {
    forall d | d in w.tasks[t].dependsOn :: m[d].state.Success()
  }

  datatype WorkflowStatus = Created | InProgress | RunSucceeded | RunFailed | RunCancelled {
    /** TERMINAL_WORKFLOW_STATES */
    predicate Terminal() {
      RunSucceeded? || RunFailed? || RunCancelled?
    }
  }

  /** The contents of `state.json`. */
  datatype Persisted = Persisted(tasks: Tasks, cancelRequested: bool, status: WorkflowStatus)

  /** The in-memory state dictionary that the scheduler and its workers mutate. */
  class WorkflowState {
    var tasks: Tasks
    var cancelRequested: bool
    var status: WorkflowStatus

    constructor (contents: Persisted)
      ensures Contents() == contents
    {
      tasks, cancelRequested, status := contents.tasks, contents.cancelRequested, contents.status;
    }

    function Contents(): Persisted
      reads this
    {
      Persisted(tasks, cancelRequested, status)
    }
  }
}
