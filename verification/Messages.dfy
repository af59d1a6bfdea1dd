/** Messages on the work queue (internal/event, internal/broker) and the retry header they carry. */
module Messages {
  import opened Tasks

  /** The body of a message: its envelope id and what the rest of the JSON decodes to. */
  datatype Body = Body(eventId: EventId, content: Content)

  datatype Content =
    | Garbage      // not an envelope at all
    | OtherType    // an envelope of another event type
    | BadPayload   // task.created with an undecodable payload
    | Created(taskId: TaskId, title: string, description: string)

  /** The value under `x-retry-count`; a string is kept as what `strconv.Atoi` makes of it. */
  datatype Header = Absent | Int32(n: int) | Int64(n: int) | Int(n: int) | Text(parsed: Option<int>) | OtherKind

  datatype Message = Message(body: Body, retries: Header)

  const MAX_RETRIES := 3

  /** Go's conversion `int32(n)`: the int32 congruent to `n`. */
  function Wrap32(n: int): (w: int)
    ensures -0x8000_0000 <= w < 0x8000_0000
    ensures (n - w) % 0x1_0000_0000 == 0
    ensures -0x8000_0000 <= n < 0x8000_0000 ==> w == n
  {
    (n + 0x8000_0000) % 0x1_0000_0000 - 0x8000_0000
  }

  function RetryCount(h: Header): int {
    match h
    case Int32(n) => n
    case Int64(n) => n
    case Int(n) => n
    case Text(Some(n)) => n
    case _ => 0
  }

  /** The header carries the count `n`: as a number or text of any kind, or as nothing readable, which stands for 0. */
  predicate Carries(h: Header, n: int) {
    h in {Int32(n), Int64(n), Int(n), Text(Some(n))} || (n == 0 && h in {Absent, OtherKind, Text(None)})
  }

  /** The copy republished for another attempt. */
  function Bumped(m: Message): Message {
    m.(retries := Int32(Wrap32(RetryCount(m.retries) + 1)))
  }

  /** A message as the service publishes it, without a retry header. */
  function Announcement(e: EventId, t: Task): Message {
    Message(Body(e, Created(t.id, t.title, t.description)), Absent)
  }

  predicate About(m: Message, id: TaskId) {
    m.body.content.Created? && m.body.content.taskId == id
  }

  /** How a publish ends: confirmed, enqueued but reported as failed, or not enqueued. */
  datatype Publish = Confirmed | Unconfirmed | Lost

  function Enqueued(m: Message, p: Publish): seq<Message> {
    if p.Lost? then [] else [m]
  }

  /** The work queue, the deliveries not acknowledged yet, and the dead-letter queue. */
  datatype Queues = Queues(work: seq<Message>, unacked: multiset<Message>, dlq: seq<Message>)

  class Broker {
    var work: seq<Message>
    var unacked: multiset<Message>
    var dlq: seq<Message>

    ghost function Contents(): Queues
      reads this
    {
      Queues(work, unacked, dlq)
    }

    constructor ()
      ensures Contents() == Queues([], multiset{}, [])
    {
      work, unacked, dlq := [], multiset{}, [];
    }

    method Publish(m: Message, p: Publish) returns (ok: bool)
      modifies this`work
      ensures ok == p.Confirmed?
      ensures work == old(work) + Enqueued(m, p)
    {
      work := work + Enqueued(m, p);
      ok := p.Confirmed?;
    }

    /** A republish through the default exchange: accepted means enqueued. */
    method Requeue(m: Message)
      modifies this`work
      ensures work == old(work) + [m]
    {
      work := work + [m];
    }

    method Deliver() returns (m: Message)
      requires work != []
      modifies this`work, this`unacked
      ensures m == old(work)[0] && work == old(work)[1..]
      ensures unacked == old(unacked) + multiset{m}
    {
      m, work := work[0], work[1..];
      unacked := unacked + multiset{m};
    }

    method Ack(m: Message, reply: Reply)
      modifies this`unacked
      ensures unacked == if reply.Ok? then old(unacked) - multiset{m} else old(unacked)
    {
      if reply.Ok? {
        unacked := unacked - multiset{m};
      }
    }

    /** A rejection without requeue: RabbitMQ routes the message to the dead-letter queue. */
    method Nack(m: Message, reply: Reply)
      modifies this`unacked, this`dlq
      ensures unacked == if reply.Ok? then old(unacked) - multiset{m} else old(unacked)
      ensures dlq == if reply.Ok? then old(dlq) + [m] else old(dlq)
    {
      if reply.Ok? {
        unacked, dlq := unacked - multiset{m}, dlq + [m];
      }
    }
  }
}
