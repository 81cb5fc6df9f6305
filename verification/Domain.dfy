/** The task entity, its statuses and its wire form (internal/domain/task.go). */
module Domain {

  datatype Option<+T> = None | Some(value: T)

  datatype Status = Pending | Queued | Running | Done | Failed | Retrying | Dead

  predicate IsTerminal(s: Status) {
    s == Done || s == Dead || s == Failed
  }

  /** Times are nanoseconds on one clock; priority and scheduled_at are carried by the source but read by no step. */
  datatype Task = Task(id: string, taskType: string, payload: string, status: Status, attempts: int,
                       createdAt: int, updatedAt: int, completedAt: Option<int>)

  datatype Execution = Execution(taskId: string, workerId: string, attempt: int, status: Status,
                                 durationMs: int, executedAt: int)

  /** Message bytes: the JSON of a task, or bytes that do not parse. */
  datatype Raw = Junk(text: string) | Json(task: Task)

  function Decode(raw: Raw): Option<Task> {
    match raw
    case Junk(_) => None
    case Json(task) => Some(task)
  }

  const TOPIC_PENDING := "tasks.pending"
  const TOPIC_DLQ := "tasks.dlq"

  function WorkerTopic(taskType: string): string {
    "tasks.worker." + taskType
  }

  /** Worker topics of different types differ, and none is tasks.pending or tasks.dlq. */
  lemma WorkerTopicsDistinct(a: string, b: string)
    ensures WorkerTopic(a) == WorkerTopic(b) ==> a == b
    ensures WorkerTopic(a) != TOPIC_PENDING && WorkerTopic(a) != TOPIC_DLQ
  {
    assert WorkerTopic(a)[13..] == a && WorkerTopic(b)[13..] == b;
    assert WorkerTopic(a)[6] == 'w' && TOPIC_PENDING[6] == 'p' && TOPIC_DLQ[6] == 'd';
  }

  /** Nanoseconds. */
  const SECOND: nat := 1_000_000_000

  lemma MulMonotone(a: nat, x: nat, y: nat)
    requires x <= y
    ensures a * x <= a * y
  {
  }
}
