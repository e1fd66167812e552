/** The run and task state machines (internal/engine/state.go). */
module Statuses {

  datatype RunStatus =
    | RunCreated
    | RunQueued
    | RunRunning
    | RunSucceeded
    | RunFailed
    | RunCancelled
  {
    predicate Terminal() {
      RunSucceeded? || RunFailed? || RunCancelled?
    }

    /** Fully created and not yet decided. */
    predicate Open() {
      RunQueued? || RunRunning?
    }

    /** The rows of runTransitions. */
    function Successors(): set<RunStatus> {
      match this
      case RunCreated => {RunQueued, RunCancelled}
      case RunQueued => {RunRunning, RunSucceeded, RunFailed, RunCancelled}
      case RunRunning => {RunSucceeded, RunFailed, RunCancelled}
      case _ => {}
    }

    predicate CanTransition(to: RunStatus) {
      to in Successors()
    }
  }

  datatype TaskStatus =
    | TaskPending
    | TaskReady
    | TaskLeased
    | TaskRunning
    | TaskSucceeded
    | TaskFailed
    | TaskRetrying
    | TaskDead
  {
    /** FAILED is not terminal: it is always resolved by the transaction that writes it. */
    predicate Terminal() {
      TaskSucceeded? || TaskDead?
    }

    /** The states in which a worker holds the task under a lease. */
    predicate Holds() {
      TaskLeased? || TaskRunning?
    }

    /** The rows of taskTransitions. */
    function Successors(): set<TaskStatus> {
      match this
      case TaskPending => {TaskReady, TaskFailed, TaskDead}
      case TaskReady => {TaskLeased, TaskDead}
      case TaskLeased => {TaskRunning, TaskReady, TaskFailed, TaskDead}
      case TaskRunning => {TaskSucceeded, TaskFailed, TaskReady, TaskDead}
      case TaskFailed => {TaskRetrying, TaskDead}
      case TaskRetrying => {TaskReady, TaskDead}
      case _ => {}
    }

    predicate CanTransition(to: TaskStatus) {
      to in Successors()
    }
  }
}
