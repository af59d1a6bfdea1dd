/** The task entity and the vocabulary shared by every other module. */
module Tasks {

  /** Nanoseconds, the unit of Go's `time.Duration`. */
  type Time = int

  type TaskId = nat

  /** The envelope id of an event; the empty string is what a message without an id carries. */
  type EventId = string

  datatype Status = Pending | Processing | Completed | Failed

  datatype Task = Task(
    id: TaskId,
    title: string,
    description: string,
    status: Status,
    summary: string,
    createdAt: Time,
    updatedAt: Time)

  /** The rows that are not soft-deleted, by primary key. */
  type Rows = map<TaskId, Task>

  /** What a call to Postgres, Redis, RabbitMQ or the LLM came back with. `text` is read only from the LLM. */
  datatype Reply = Ok(text: string) | Err

  datatype Option<+T> = None | Some(value: T)

  /** Neither completed nor failed: work somebody still has to do. */
  predicate Unfinished(t: Task) {
    t.status == Pending || t.status == Processing
  }

  const SECOND: Time := 1_000_000_000
  const MINUTE: Time := 60 * SECOND
}
