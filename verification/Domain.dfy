/** The tasks bounded context: the aggregate, its event and the submit command. */
module Domain {
  import opened Results

  type Uuid = nat
  type Time = int

  datatype Token =                 // one JSON token; commas and colons are implied
    | ObjOpen
    | ObjClose
    | ArrOpen
    | ArrClose
    | Key(name: string)
    | Str(text: string)
    | Atom(literal: string)        // a number, true, false or null

  type Raw = seq<Token>            // jx.Raw
  type Payload = map<string, Raw>  // the members of a payload object

  type Status = string

  const STATUS_PENDING: Status := "pending"
  const STATUS_RUNNING: Status := "running"
  const STATUS_COMPLETE: Status := "complete"
  const STATUS_FAILED: Status := "failed"
  const STATUS_CANCELED: Status := "canceled"

  datatype Task = Task(id: Uuid, status: Status, handler: string, payload: Payload, createdAt: Time)

  datatype Event = Submitted(taskID: Uuid, handler: string, occurredAt: Time)

  /** An empty idempotency key means "no key". */
  datatype SubmitCommand = SubmitCommand(handler: string, payload: Payload, idempotencyKey: string)

  function Submit(id: Uuid, handler: string, payload: Payload, now: Time): Task {
    Task(id, STATUS_PENDING, handler, payload, now)
  }

  function NewSubmitted(t: Task, now: Time): Event {
    Submitted(t.id, t.handler, now)
  }

  /** The nullable column the key becomes: "" is stored as NULL, never as an empty string. */
  function KeyColumn(idempotencyKey: string): Option<string> {
    if idempotencyKey == "" then None else Some(idempotencyKey)
  }
}
