/** Vocabulary of the broker: identities, the wire envelope, and a row of the message table. */
module Messages {
  datatype Option<+T> = None | Some(value: T)

  /** Seconds since the epoch. */
  type Time = real
  type Agent = string
  /** A message id. Ids are 32 hex digits; read as a number, they keep SQLite's text order. */
  type Id = nat
  /** A lease token: the n-th draw of a random source that never repeats itself. */
  type Token = nat

  datatype Kind = Request | Reply
  datatype Mode = Read | Continue | Write

  /** Idempotency keys. The two shapes the relay itself builds are kept apart from free text. */
  datatype Key = Undelivered(id: Id) | ReplyTo(id: Id) | Text(text: string)

  datatype Status = Queued | Leased | Completed | Failed | Expired

  /** The columns of a message that no statement except INSERT writes. */
  datatype Envelope = Envelope(
    root: string, parent: Option<Id>, origin: Agent, target: Agent, kind: Kind, body: string,
    sessionRef: string, mode: Mode, sharedWrite: bool, context: string, topic: string,
    key: Key, created: Time, expires: Time)

  /** One row of relay_v2_messages: the envelope and the delivery state. */
  datatype Row = Row(
    env: Envelope, status: Status, attempts: nat, leaseUntil: Option<Time>, token: Option<Token>,
    lastError: Option<string>, completedAt: Option<Time>, notifiedAt: Option<Time>)

  /** The table, keyed by message_id. */
  type Rows = map<Id, Row>

  const RETENTION_SECONDS: Time := 2592000.0

  predicate Live(r: Row) {
    r.status == Queued || r.status == Leased
  }

  predicate Terminal(r: Row) {
    !Live(r)
  }

  function Coalesce<T>(a: Option<T>, b: T): T {
    if a.Some? then a.value else b
  }

  function Fresh(env: Envelope): Row {
    Row(env, Queued, 0, None, None, None, None, None)
  }

  /** A reply carries its parent's conversation back to the other side, without write privileges. */
  predicate Answers(reply: Envelope, parent: Envelope) {
    && reply.root == parent.root && reply.sessionRef == parent.sessionRef
    && reply.mode == parent.mode && reply.topic == parent.topic && !reply.sharedWrite
    && reply.origin == parent.target && reply.target == parent.origin
  }
}
