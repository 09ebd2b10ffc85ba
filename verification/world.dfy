/** The state that the API, the workers and the broker share, and the effect of every call on it. */
module World {
  import opened Domain
  import opened Keys
  import opened Topology
  import opened Routing

  // ---------------------------------------------------------------- messages

  datatype HeaderValue = Absent | Int32(v: int) | Int64(v: int) | Uint32(v: int) | Uint64(v: int) | Text(s: string)

  datatype Headers = Headers(
    attempt: HeaderValue,
    correlationId: HeaderValue,
    originalRoutingKey: HeaderValue,
    originalChannel: HeaderValue)

  function HeaderInt32(h: HeaderValue): int {
    match h
    case Int32(v) => v
    case Int64(v) => AsInt32(v)
    case Uint32(v) => AsInt32(v)
    case Uint64(v) => AsInt32(v)
    case _ => 0
  }

  function HeaderString(h: HeaderValue): string { if h.Text? then h.s else "" }

  function AttemptHeader(attempt: int): HeaderValue { Int32(AsInt32(attempt)) }

  /** An attempt count survives the trip through the x-attempt header iff it fits in 32 bits. */
  lemma AttemptRoundTrip(attempt: int)
    ensures HeaderInt32(AttemptHeader(attempt)) == attempt <==> -0x8000_0000 <= attempt < 0x8000_0000
  {
  }

  /** Headers written by other clients: any integer type is read as long as the value fits, anything else as 0. */
  lemma HeaderReads(h: HeaderValue)
    ensures h.Int64? || h.Uint32? || h.Uint64? ==> (HeaderInt32(h) == h.v <==> -0x8000_0000 <= h.v < 0x8000_0000)
    ensures h.Int32? ==> HeaderInt32(h) == h.v
    ensures h.Absent? || h.Text? ==> HeaderInt32(h) == 0
  {
  }

  datatype Message = Message(key: string, headers: Headers, body: Body)

  function AttemptOf(m: Message): int { HeaderInt32(m.headers.attempt) }

  /** What the worker's adapter hands to the use case. */
  datatype Delivery = Delivery(key: string, attempt: int, correlationId: string, body: Body)

  function DeliveryOf(m: Message): Delivery {
    Delivery(m.key, AttemptOf(m), HeaderString(m.headers.correlationId), m.body)
  }

  // ---------------------------------------------------------------- where a handler stands

  /** How one handling of a delivery ends. */
  datatype Exit =
    | Completed    // sent, marked delivered: ack
    | Duplicate    // already in the ledger: ack
    | Moved        // a successor copy was published: ack
    | MovedUnsure  // the publish was reported failed, yet the broker has the successor: nack
    | Discarded    // an error with no successor: nack
  {
    /** Handle returns nil, so the consumer acks; otherwise it nacks without requeue. Both remove the copy. */
    predicate Acks() { Completed? || Duplicate? || Moved? }
  }

  /** The effect a running handler performs next. */
  datatype Pc =
    | Enter
    | AtSend
    | AtDelivered
    | AtLogSuccess
    | AtRetry(cause: Outcome)
    | AtLogRetry(cause: Outcome)
    | AtDlq
    | AtFailed
    | AtUnmark
    | AtLogDlq
    | Done(exit: Exit)

  /** `attached`: the handler can still settle its delivery. A lost channel requeues the message and leaves the handler
      running, detached. */
  datatype Handling = Ready | Running(pc: Pc, attached: bool := true)

  /** A message in a queue, or out with a handler (unacked), or just a detached handler and the message it works on.
      Index order is queue order. */
  datatype Entry = Entry(place: Place, msg: Message, at: nat, handling: Handling) {
    predicate Has(id: Uuid) { msg.body.Encoded? && msg.body.msg.id == id }
  }

  // ---------------------------------------------------------------- the shared state

  datatype Event =
    | Handed(id: Uuid)          // the API called publish for the row
    | Born(id: Uuid)            // ... and the broker took the message
    | Marked(id: Uuid)          // a ledger row was inserted
    | Unmarked(id: Uuid)        // a ledger row was deleted
    | Sent(to: Notification, attempt: int, outcome: Outcome, at: nat)
    | Left(id: Uuid, exit: Exit)
    | Replayed(id: Uuid)
    | CancelledRow(id: Uuid)
    | Unrouted(exchange: Exchange, key: string)

  datatype World = World(
    ttls: RetryTTLs,
    now: nat,
    rows: map<Uuid, Notification>,
    batches: map<Uuid, nat>,
    processed: set<Uuid>,
    entries: seq<Entry>,
    log: seq<Attempt>,
    hist: seq<Event>)

  function Init(ttls: RetryTTLs): World { World(ttls, 0, map[], map[], {}, [], [], []) }

  // ---------------------------------------------------------------- broker

  function RouteEvents(exchange: Exchange, key: string, fault: Fault): seq<Event> {
    if fault.Applied() && Route(exchange, key).None? then [Unrouted(exchange, key)] else []
  }

  /** What a publish adds at the end: the message, in the one queue its key reaches. */
  function Arrivals(now: nat, exchange: Exchange, m: Message, fault: Fault): seq<Entry> {
    var place := Route(exchange, m.key);
    if fault.Applied() && place.Some? then [Entry(place.value, m, now, Ready)] else []
  }

  function Publish(w: World, exchange: Exchange, m: Message, fault: Fault): World {
    w.(entries := w.entries + Arrivals(w.now, exchange, m, fault),
       hist := w.hist + RouteEvents(exchange, m.key, fault))
  }

  function RetryMessage(channel: string, priority: string, level: int, attempt: int, correlationId: string,
                        body: Body): Message {
    Message(RetryKey(channel, priority, level),
            Headers(AttemptHeader(attempt), Text(correlationId), Absent, Text(channel)), body)
  }

  function DlqMessage(channel: string, attempt: int, correlationId: string, originalKey: string, body: Body): Message {
    Message(channel, Headers(AttemptHeader(attempt), Text(correlationId), Text(originalKey), Text(channel)), body)
  }

  /** The message the API publishes for a stored row: no x-attempt header. */
  function FirstMessage(n: Notification): Message {
    Message(RoutingKey(n.channel, n.priority), Headers(Absent, Text(UuidText(n.correlationId)), Absent, Absent),
            Encoded(MessageFrom(n)))
  }

  // ---------------------------------------------------------------- tables

  function Mark(w: World, id: Uuid, fault: Fault): World {
    if fault.Applied() && id !in w.processed
    then w.(processed := w.processed + {id}, hist := w.hist + [Marked(id)])
    else w
  }

  function Unmark(w: World, id: Uuid, fault: Fault): World {
    if fault.Applied() && id in w.processed
    then w.(processed := w.processed - {id}, hist := w.hist + [Unmarked(id)])
    else w
  }

  function SetRow(rows: map<Uuid, Notification>, id: Uuid, status: Status): map<Uuid, Notification> {
    if id in rows then rows[id := rows[id].(status := status)] else rows
  }

  function SetStatus(w: World, id: Uuid, status: Status, fault: Fault): World {
    if fault.Applied() then w.(rows := SetRow(w.rows, id, status)) else w
  }

  /** delivery_attempts.notification_id references notifications. */
  function Record(w: World, a: Attempt, fault: Fault): World {
    if fault.Applied() && a.id in w.rows then w.(log := w.log + [a]) else w
  }

  function Send(w: World, m: NotificationMessage, attempt: int, outcome: Outcome): World {
    w.(hist := w.hist + [Sent(ToNotification(m), attempt, outcome, w.now)])
  }
}
