/** The rows of the store: runs, task attempts, join arrivals and events
    (athanore/store/rows.py, docs/v1/03-domain-model.md). */
module Rows {
  import opened Base
  import opened Json

  datatype RunStatus = Queued | Running | Paused | Completed | RunFailed | RunCancelled

  datatype TaskStatus = Ready | InProgress | Waiting | Done | Failed | DeadLetter | Cancelled

  // The `lineage.reason` of a task row.
  datatype Reason =
    | StartReason | TransitionReason | RetryReason | JoinReason | RerunReason | ManualRetryReason | MoveReason

  // `from` is the row, or for a join the fan-out, this row came from.
  datatype Lineage = Lineage(reason: Reason, from: Option<nat>, arrivals: seq<nat>)

  // One frame of a branch stack: which fan-out, which of its branches, how many.
  datatype Frame = Frame(fanout: nat, index: nat, count: nat, key: Json)

  datatype Run = Run(workflow: string, status: RunStatus, output: Option<Json>, finished: Option<nat>)

  // One attempt of one node. The id of a row is its position in the table.
  datatype Task = Task(
    run: string,
    node: string,
    attempt: int,
    status: TaskStatus,
    payload: Json,
    result: Option<Json>,
    terminal: bool,
    priority: int,
    explicit: bool,
    created: nat,
    branch: seq<Frame>,
    lineage: Lineage)

  // The unique key of an arrival, and the rest of its row.
  datatype Place = Place(run: string, join: string, fanout: nat, index: nat)

  datatype Arrival = Arrival(key: Json, value: Json, from: nat, late: bool)

  datatype Name =
    | RunCreated | RunPausedEvent | RunResumed | RunCancelledEvent | RunCompleted | RunFailedEvent | RunReopened
    | TaskEnqueued(reason: Reason) | TaskDone(targets: seq<string>, terminal: bool) | TaskFailed(willRetry: bool)
    | TaskDeadLettered | TaskCancelledEvent | TaskMoved(moved: nat) | TaskStatusSet(status: TaskStatus)
    | JoinArrived(place: Place, arrived: nat, count: nat, late: bool)
    | EngineRecovered(ids: seq<nat>)

  // `run.updated` with a status, the event of a re-opening, is RunReopened here.
  datatype Event = Event(run: Option<string>, task: Option<nat>, name: Name)

  datatype Tables = Tables(
    runs: map<string, Run>,
    tasks: seq<Task>,
    arrivals: map<Place, Arrival>,
    events: seq<Event>)

  predicate Pending(s: TaskStatus) {
    s == Ready || s == InProgress || s == Waiting
  }

  predicate Interrupted(s: TaskStatus) {
    s == InProgress || s == Waiting
  }

  predicate Terminal(s: RunStatus) {
    s == Completed || s == RunFailed || s == RunCancelled
  }

  predicate HasPending(tasks: seq<Task>, run: string) {
    exists id | 0 <= id < |tasks| :: tasks[id].run == run && Pending(tasks[id].status)
  }
}
