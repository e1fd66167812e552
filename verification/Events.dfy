/** Journal rows: event types, payload versions and artifacts (internal/event). */
module Events {
  import opened Common
  import opened Text

  /** A content-addressed output, as the journal and the artifacts table both record it. */
  datatype Artifact = Artifact(name: string, sha256: string, size: int, contentType: string)

  /** One constructor per event type, with the fields replay or the engine reads. */
  datatype Payload =
    | RUN_CREATED(workflow: string, version: int, hash: string, scenario: string, seed: int)
    | RUN_QUEUED(taskCount: int)
    | RUN_STARTED
    | RUN_SUCCEEDED(tasksSucceeded: int)
    | RUN_FAILED(reason: string, detail: string)
    | RUN_CANCELLED(reason: string)
    | TASK_SCHEDULED(attempt: int, dependsOn: seq<Name>)
    | TASK_LEASED(attempt: int)
    | TASK_STARTED(attempt: int, handler: string)
    | TASK_SUCCEEDED(attempt: int, output: string, artifacts: seq<Artifact>)
    | TASK_FAILED(attempt: int, error: string, retryable: bool)
    | TASK_RETRY_SCHEDULED(attempt: int, nextAttempt: int)
    | TASK_LEASE_EXPIRED(attempt: int)
    | TASK_REQUEUED(attempt: int, nextAttempt: int)
    | TASK_DEAD_LETTERED(attempts: int, reason: string)
    | WORKER_REGISTERED
    | WORKER_HEARTBEAT
    | WORKER_SUSPECT
    | WORKER_LOST(missedBeats: int, leasesReleased: int)
    | FAULT_INJECTED(faultType: string, point: string, draw: int)
    | SIDE_EFFECT_SKIPPED(key: string, attempt: int, firstAttempt: int)
    | UNKNOWN_TYPE(typeName: string)
  {
    predicate Known() {
      !UNKNOWN_TYPE?
    }

    /** The events that give a run its verdict. */
    predicate Terminal() {
      RUN_SUCCEEDED? || RUN_FAILED? || RUN_CANCELLED?
    }

    predicate AboutTask() {
      || TASK_SCHEDULED? || TASK_LEASED? || TASK_STARTED? || TASK_SUCCEEDED? || TASK_FAILED?
      || TASK_RETRY_SCHEDULED? || TASK_LEASE_EXPIRED? || TASK_REQUEUED? || TASK_DEAD_LETTERED?
    }

    /** Worker liveness that cost the run nothing: decoded loosely, changes no state. */
    predicate WorkerLiveness() {
      WORKER_REGISTERED? || WORKER_HEARTBEAT? || WORKER_SUSPECT?
    }
  }

  /** The schema version every payload written by this build carries. */
  const PAYLOAD_VERSION := 1

  /** `v` is the payload's version field, None when the stored object has none. */
  datatype Event = Event(seqNo: int, task: Name, v: Option<int>, payload: Payload)

  /** Why and by how much a run failed. */
  const DEAD_LETTERED := "tasks dead-lettered"

  function ShortfallDetail(dead: nat, total: nat): string {
    Decimal(dead) + " of " + Decimal(total) + " tasks did not succeed"
  }

  /** What the artifact list means by name: a later entry replaces an earlier one. */
  function LastByName(artifacts: seq<Artifact>): map<string, Artifact> {
    if artifacts == [] then map[]
    else
      var last := artifacts[|artifacts| - 1];
      LastByName(artifacts[..|artifacts| - 1])[last.name := last]
  }
}
