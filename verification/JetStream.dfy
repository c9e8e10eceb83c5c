/**
  The durable status worker: an at-least-once request queue, a worker that publishes a response, waits until it
  is stored and only then acknowledges, and a response stream that drops duplicates by message id. Messages in
  either direction may be delayed or lost, deliveries may time out, and a worker may crash between any two awaits.
 */
module JetStream {
  import opened Prelude
  import opened Uuids
  import opened Routing

  const MAX_SIGNAL_BYTES: nat := 4 * 1024
  const REQUEST_SCHEMA: string := "apme.async-status-request.v1"

  type Byte = n: nat | n < 256

  datatype StatusRequest = StatusRequest(schema: string, operationId: Uuid)

  /** The validated consumer and response stream, and the strict JSON decoder of a request. */
  datatype Config = Config(
    maxDeliver: nat, maxAckPending: nat, window: nat, parse: seq<Byte> -> Option<StatusRequest>)

  /** `validate_consumer` and the dedupe requirement of `validate_response_stream`. */
  predicate Validated(c: Config) {
    2 <= c.maxDeliver <= 100 && 1 <= c.maxAckPending <= 4096 && c.window > 0
  }

  /** `decode_signal`. */
  function DecodeSignal(c: Config, payload: seq<Byte>): Option<Uuid> {
    if |payload| > MAX_SIGNAL_BYTES then None
    else
      match c.parse(payload)
      case None => None
      case Some(signal) => if signal.schema != REQUEST_SCHEMA then None else Some(signal.operationId)
  }

  /** A well-formed request: at most 4 KiB, the strict shape, and the schema of this protocol. */
  predicate WellFormed(c: Config, payload: seq<Byte>, id: Uuid) {
    |payload| <= 4096 && c.parse(payload) == Some(StatusRequest("apme.async-status-request.v1", id))
  }

  /** Exactly the well-formed requests are decoded, to the operation id they carry. */
  lemma DecodedIffWellFormed(c: Config, payload: seq<Byte>, id: Uuid)
    ensures DecodeSignal(c, payload) == Some(id) <==> WellFormed(c, payload, id)
  {
  }

  // ---------------------------------------------------------------- state

  datatype AckKind = Positive | Term

  datatype Stage =
    | Received    // delivered to the worker
    | Publishing  // response handed to the client library, its acknowledgement awaited
    | Confirmed   // the broker said the response is stored
    | Finished    // ack or term handed to the client library
    | Stopped     // crashed, timed out or failed

  /** One delivery of a request: how far its worker got, and what is still on the wire for it. */
  datatype Task = Task(stage: Stage, publishOut: bool, confirmIn: bool, ackOut: Option<AckKind>)

  const FRESH: Task := Task(Received, false, false, None)

  datatype Message = Message(payload: seq<Byte>, tasks: seq<Task>)

  datatype Entry = Entry(subject: string, messageId: string, payload: string, at: nat)

  /** Where the consumer has each request, by stream sequence. */
  datatype Places = Places(
    pending: set<nat>, inFlight: set<nat>, acked: set<nat>, terminated: set<nat>, exhausted: set<nat>)

  /** Requests by stream sequence, the consumer's bookkeeping, the response stream and the broker's clock. */
  datatype Bus = Bus(messages: seq<Message>, places: Places, log: seq<Entry>, now: nat)

  function Init(): Bus {
    Bus([], Places({}, {}, {}, {}, {}), [], 0)
  }

  datatype Action =
    | Submit(payload: seq<Byte>)
    | Tick
    | Deliver(m: nat)
    | Expire(m: nat)               // ack wait runs out
    | Reject(m: nat, d: nat)       // undecodable: send Term
    | Publish(m: nat, d: nat)
    | StoreResponse(m: nat, d: nat)
    | LosePublish(m: nat, d: nat)
    | Confirm(m: nat, d: nat)
    | LoseConfirm(m: nat, d: nat)
    | Ack(m: nat, d: nat)
    | Settle(m: nat, d: nat)       // the broker receives Ack or Term
    | LoseAck(m: nat, d: nat)
    | Crash(m: nat, d: nat)

  predicate HasTask(messages: seq<Message>, m: nat, d: nat) {
    m < |messages| && d < |messages[m].tasks|
  }

  function TaskAt(s: Bus, m: nat, d: nat): Task
    requires HasTask(s.messages, m, d)
  {
    s.messages[m].tasks[d]
  }

  predicate Enabled(c: Config, s: Bus, a: Action) {
    match a
    case Submit(_) => true
    case Tick => true
    case Deliver(m) =>
      m in s.places.pending && m < |s.messages| && |s.messages[m].tasks| < c.maxDeliver
      && |s.places.inFlight| < c.maxAckPending
    case Expire(m) => m in s.places.inFlight && m < |s.messages|
    case Reject(m, d) =>
      HasTask(s.messages, m, d) && TaskAt(s, m, d).stage.Received? && DecodeSignal(c, s.messages[m].payload).None?
    case Publish(m, d) =>
      HasTask(s.messages, m, d) && TaskAt(s, m, d).stage.Received? && DecodeSignal(c, s.messages[m].payload).Some?
    case StoreResponse(m, d) =>
      HasTask(s.messages, m, d) && TaskAt(s, m, d).publishOut && DecodeSignal(c, s.messages[m].payload).Some?
    case LosePublish(m, d) => HasTask(s.messages, m, d) && TaskAt(s, m, d).publishOut
    case Confirm(m, d) => HasTask(s.messages, m, d) && TaskAt(s, m, d).stage.Publishing? && TaskAt(s, m, d).confirmIn
    case LoseConfirm(m, d) => HasTask(s.messages, m, d) && TaskAt(s, m, d).confirmIn
    case Ack(m, d) => HasTask(s.messages, m, d) && TaskAt(s, m, d).stage.Confirmed?
    case Settle(m, d) => HasTask(s.messages, m, d) && TaskAt(s, m, d).ackOut.Some?
    case LoseAck(m, d) => HasTask(s.messages, m, d) && TaskAt(s, m, d).ackOut.Some?
    case Crash(m, d) =>
      HasTask(s.messages, m, d) && !TaskAt(s, m, d).stage.Finished? && !TaskAt(s, m, d).stage.Stopped?
  }

  function SetTask(s: Bus, m: nat, d: nat, t: Task): Bus
    requires HasTask(s.messages, m, d)
  {
    s.(messages := s.messages[m := s.messages[m].(tasks := s.messages[m].tasks[d := t])])
  }

  function ResponseEntry(id: Uuid, at: nat): Entry {
    Entry(ResponseSubject(id), MessageId(id), ResponsePayload(id), at)
  }

  /** The response stream has stored this message id within the duplicate window. */
  predicate Duplicate(c: Config, s: Bus, messageId: string) {
    exists k :: 0 <= k < |s.log| && s.log[k].messageId == messageId && s.now < s.log[k].at + c.window
  }

  /** The broker takes a publish: store it unless it is a duplicate, and confirm either way. */
  function TakePublish(c: Config, s: Bus, m: nat, d: nat, id: Uuid): Bus
    requires HasTask(s.messages, m, d)
  {
    var t := SetTask(s, m, d, TaskAt(s, m, d).(publishOut := false, confirmIn := true));
    if Duplicate(c, s, MessageId(id)) then t else t.(log := s.log + [ResponseEntry(id, s.now)])
  }

  predicate Settled(p: Places, m: nat) {
    m in p.acked || m in p.terminated
  }

  /** The broker takes an Ack or Term, also a late one; the first settles the request. */
  function TakeAck(p: Places, m: nat, kind: AckKind): Places {
    if Settled(p, m) then p
    else
      var q := p.(pending := p.pending - {m}, inFlight := p.inFlight - {m}, exhausted := p.exhausted - {m});
      match kind
      case Positive => q.(acked := p.acked + {m})
      case Term => q.(terminated := p.terminated + {m})
  }

  /** The acknowledgement wait of a delivery runs out. */
  function TakeExpiry(p: Places, m: nat, deliverable: bool): Places {
    if deliverable then p.(inFlight := p.inFlight - {m}, pending := p.pending + {m})
    else p.(inFlight := p.inFlight - {m}, exhausted := p.exhausted + {m})
  }

  function Apply(c: Config, s: Bus, a: Action): Bus
    requires Enabled(c, s, a)
  {
    match a
    case Submit(payload) =>
      s.(messages := s.messages + [Message(payload, [])],
         places := s.places.(pending := s.places.pending + {|s.messages|}))
    case Tick => s.(now := s.now + 1)
    case Deliver(m) =>
      s.(messages := s.messages[m := s.messages[m].(tasks := s.messages[m].tasks + [FRESH])],
         places := s.places.(pending := s.places.pending - {m}, inFlight := s.places.inFlight + {m}))
    case Expire(m) => s.(places := TakeExpiry(s.places, m, |s.messages[m].tasks| < c.maxDeliver))
    case Reject(m, d) => SetTask(s, m, d, TaskAt(s, m, d).(stage := Finished, ackOut := Some(Term)))
    case Publish(m, d) => SetTask(s, m, d, TaskAt(s, m, d).(stage := Publishing, publishOut := true))
    case StoreResponse(m, d) => TakePublish(c, s, m, d, DecodeSignal(c, s.messages[m].payload).value)
    case LosePublish(m, d) => SetTask(s, m, d, TaskAt(s, m, d).(publishOut := false))
    case Confirm(m, d) => SetTask(s, m, d, TaskAt(s, m, d).(stage := Confirmed, confirmIn := false))
    case LoseConfirm(m, d) => SetTask(s, m, d, TaskAt(s, m, d).(confirmIn := false))
    case Ack(m, d) => SetTask(s, m, d, TaskAt(s, m, d).(stage := Finished, ackOut := Some(Positive)))
    case Settle(m, d) =>
      SetTask(s, m, d, TaskAt(s, m, d).(ackOut := None)).(
        places := TakeAck(s.places, m, TaskAt(s, m, d).ackOut.value))
    case LoseAck(m, d) => SetTask(s, m, d, TaskAt(s, m, d).(ackOut := None))
    case Crash(m, d) => SetTask(s, m, d, TaskAt(s, m, d).(stage := Stopped))
  }

  /** An action that cannot happen does nothing, so every sequence of actions is a schedule. */
  function Next(c: Config, s: Bus, a: Action): Bus {
    if Enabled(c, s, a) then Apply(c, s, a) else s
  }

  function After(c: Config, actions: seq<Action>): Bus
    decreases |actions|
  {
    if actions == [] then Init() else Next(c, After(c, actions[..|actions| - 1]), actions[|actions| - 1])
  }
}
