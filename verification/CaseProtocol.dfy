/**
  The mutation protocol as an interleaving system. A mutation handler commits a stored procedure, then reads
  the case and the event back in two separate queries, then decides whether to publish. Handlers, retention,
  operators, sockets, crashes and restarts interleave freely between any two of these steps.
 */
module CaseProtocol {
  import opened Prelude
  import opened Uuids
  import opened CaseStore
  import opened Fanout

  datatype MutationResult = MutationResult(snapshot: PersistedCase, receipt: Receipt, replayed: bool)

  datatype Stage =
    | Ready      // authorised, nothing done yet
    | Mutated    // the procedure returned a row
    | Loaded     // get_case returned
    | Assembled  // the event was read and the result built
    | Answered   // the publication decision was taken and the reply sent
    | Failed
    | Abandoned  // cancelled or lost in a crash

  /** One HTTP mutation, kept for ever: what it asked and all it has learned so far. */
  datatype Handler = Handler(
    request: Request, stage: Stage, row: Option<MutationRow>, snapshot: Option<PersistedCase>,
    result: Option<MutationResult>, error: Option<CaseError>)

  /** `sends` is the history of `publish_mutation` calls; `log` is what the current channel has taken. */
  datatype System = System(
    store: Store, handlers: map<nat, Handler>, sends: seq<TenantEvent>,
    log: seq<TenantEvent>, sockets: map<nat, Socket>)

  datatype Action =
    | Arrive(h: nat, request: Request)
    | Mutate(h: nat, newCase: Uuid, newEvent: Uuid, eventHash: string)
    | LoadCase(h: nat)
    | LoadEvent(h: nat)
    | Publish(h: nat)
    | Break(h: nat, error: CaseError)  // a query fails, or the procedure refuses the caller
    | Abandon(h: nat)
    | Retention(id: Uuid, now: Instant, recorded: Option<(Uuid, string)>)
    | LegalHold(id: Uuid, held: bool)
    | Restart
    | Connect(k: nat, sub: Subscription)
    | Pump(k: nat, sendFails: bool)
    | Disconnect(k: nat)

  function Init(): System {
    System(Store(map[], map[], map[]), map[], [], [], map[])
  }

  predicate InStage(s: System, h: nat, stage: Stage) {
    h in s.handlers && s.handlers[h].stage == stage
  }

  predicate InFlight(h: Handler) {
    h.stage.Ready? || h.stage.Mutated? || h.stage.Loaded? || h.stage.Assembled?
  }

  /** Still waiting for the database. */
  predicate Querying(h: Handler) {
    h.stage.Ready? || h.stage.Mutated? || h.stage.Loaded?
  }

  predicate SocketOpen(s: System, k: nat) {
    k in s.sockets && s.sockets[k].open && s.sockets[k].cursor <= |s.log|
  }

  predicate Enabled(s: System, a: Action) {
    match a
    case Arrive(h, _) => h !in s.handlers
    case Mutate(h, newCase, newEvent, _) =>
      InStage(s, h, Ready) && newCase !in s.store.cases && newEvent !in s.store.events
    case LoadCase(h) => InStage(s, h, Mutated) && s.handlers[h].row.Some?
    case LoadEvent(h) => InStage(s, h, Loaded) && s.handlers[h].row.Some? && s.handlers[h].snapshot.Some?
    case Publish(h) => InStage(s, h, Assembled) && s.handlers[h].result.Some?
    case Break(h, error) =>
      h in s.handlers && Querying(s.handlers[h])
      && (error.Storage? || (error.NotAuthorized? && s.handlers[h].stage.Ready?))
    case Abandon(h) => h in s.handlers && InFlight(s.handlers[h])
    case Retention(id, now, recorded) =>
      RetentionDue(s.store, id, now) && (recorded.Some? ==> recorded.value.0 !in s.store.events)
    case LegalHold(id, _) => id in s.store.cases
    case Restart => true
    case Connect(k, _) => k !in s.sockets
    case Pump(k, _) => SocketOpen(s, k)
    case Disconnect(k) => SocketOpen(s, k)
  }

  function SetHandler(s: System, h: nat, handler: Handler): System {
    s.(handlers := s.handlers[h := handler])
  }

  function Fail(h: Handler, error: CaseError): Handler {
    h.(stage := Failed, error := Some(error))
  }

  /** A mutation method up to the reply of its stored procedure. */
  function ApplyMutate(i: Interface, s: System, h: nat, newCase: Uuid, newEvent: Uuid, eventHash: string): System
    requires h in s.handlers
  {
    var handler := s.handlers[h];
    match Precheck(i, handler.request)
    case Some(error) => SetHandler(s, h, Fail(handler, error))
    case None =>
      var (store, reply) := Procedure(i, s.store, handler.request, newCase, newEvent, eventHash);
      match reply
      case Refused(error) => SetHandler(s, h, Fail(handler, error))
      case Row(row) => SetHandler(s.(store := store), h, handler.(stage := Mutated, row := Some(row)))
  }

  /** The first read of `mutation_result`. */
  function ApplyLoadCase(s: System, h: nat): System
    requires h in s.handlers && s.handlers[h].row.Some?
  {
    var handler := s.handlers[h];
    match GetCase(s.store, handler.request.tenant, handler.row.value.caseId)
    case Err(error) => SetHandler(s, h, Fail(handler, error))
    case Ok(snapshot) => SetHandler(s, h, handler.(stage := Loaded, snapshot := Some(snapshot)))
  }

  /** The tenant-scoped event select of `mutation_result`. */
  predicate EventReadable(s: Store, tenant: Uuid, eventId: Uuid) {
    eventId in s.events && s.events[eventId].tenant == tenant
  }

  function ReceiptFor(eventId: Uuid, event: EventRow, eventHash: string): Receipt {
    Receipt(eventId, event.tenant, event.caseId, event.caseVersion, event.eventType, event.occurredAt, eventHash)
  }

  /** The second read of `mutation_result`, and the result it builds. */
  function ApplyLoadEvent(s: System, h: nat): System
    requires h in s.handlers && s.handlers[h].row.Some? && s.handlers[h].snapshot.Some?
  {
    var handler := s.handlers[h];
    var row := handler.row.value;
    if EventReadable(s.store, handler.request.tenant, row.eventId) then
      var receipt := ReceiptFor(row.eventId, s.store.events[row.eventId], row.eventHash);
      var result := MutationResult(handler.snapshot.value, receipt, row.replayed);
      SetHandler(s, h, handler.(stage := Assembled, result := Some(result)))
    else SetHandler(s, h, Fail(handler, Storage))
  }

  /** `publish_mutation`'s envelope: tenant and case come from the case, the receipt from the event. */
  function Envelope(result: MutationResult): TenantEvent {
    TenantEvent(result.snapshot.tenant, result.snapshot.id, result.receipt)
  }

  predicate Listening(s: System) {
    exists k | k in s.sockets :: s.sockets[k].open
  }

  /** The end of a handler: publish unless the row was replayed, then answer. */
  function ApplyPublish(s: System, h: nat): System
    requires h in s.handlers && s.handlers[h].result.Some?
  {
    var handler := s.handlers[h];
    var event := Envelope(handler.result.value);
    var t := SetHandler(s, h, handler.(stage := Answered));
    if handler.result.value.replayed then t
    else t.(sends := s.sends + [event], log := if Listening(s) then s.log + [event] else s.log)
  }

  /** The process stops: in-flight handlers are lost, the channel and its sockets with it. */
  function ApplyRestart(s: System): System {
    s.(handlers := map h | h in s.handlers ::
         if InFlight(s.handlers[h]) then s.handlers[h].(stage := Abandoned) else s.handlers[h],
       log := [], sockets := map[])
  }

  function Apply(i: Interface, s: System, a: Action): System
    requires Enabled(s, a)
  {
    match a
    case Arrive(h, request) => SetHandler(s, h, Handler(request, Ready, None, None, None, None))
    case Mutate(h, newCase, newEvent, eventHash) => ApplyMutate(i, s, h, newCase, newEvent, eventHash)
    case LoadCase(h) => ApplyLoadCase(s, h)
    case LoadEvent(h) => ApplyLoadEvent(s, h)
    case Publish(h) => ApplyPublish(s, h)
    case Break(h, error) => SetHandler(s, h, Fail(s.handlers[h], error))
    case Abandon(h) => SetHandler(s, h, s.handlers[h].(stage := Abandoned))
    case Retention(id, now, recorded) => s.(store := Retain(s.store, id, now, recorded))
    case LegalHold(id, held) => s.(store := Hold(s.store, id, held))
    case Restart => ApplyRestart(s)
    case Connect(k, sub) => s.(sockets := s.sockets[k := Opened(sub, s.log)])
    case Pump(k, sendFails) => s.(sockets := s.sockets[k := Poll(s.log, s.sockets[k], sendFails)])
    case Disconnect(k) => s.(sockets := s.sockets[k := s.sockets[k].(open := false)])
  }

  /** An action that cannot happen does nothing, so every sequence of actions is a schedule. */
  function Next(i: Interface, s: System, a: Action): System {
    if Enabled(s, a) then Apply(i, s, a) else s
  }

  function After(i: Interface, actions: seq<Action>): System
    decreases |actions|
  {
    if actions == [] then Init() else Next(i, After(i, actions[..|actions| - 1]), actions[|actions| - 1])
  }
}
