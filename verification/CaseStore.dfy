/**
  The tenant case store: rows, events and idempotency records, the local checks of `CaseService`, and the
  stored procedures as atomic operations. The procedures themselves belong to another repository; what is
  written here is the interface the service and its database canary rely on, and its unknown parts (the
  scope of an idempotency key, the digest, the status graph, the command validators) are parameters.
 */
module CaseStore {
  import opened Prelude
  import opened Uuids
  import Text

  type Instant = int

  datatype Role = Viewer | Agent | Administrator

  datatype Status = Intake | CollectingDocuments | Review | Submitted | Completed | Closed

  datatype RetentionClass = Standard | Extended | LegalHoldEligible

  datatype CaseError =
    | NotAuthorized | NotFound | IdempotencyConflict | StaleVersion
    | InvalidTransition | KeyVersionRollback | Validation | Storage

  datatype Document = Document(objectReference: string, ciphertextSha256: string, keyVersion: int)

  datatype Details = Details(
    title: string, summary: string, clientReference: string,
    destinationCountry: string, documentType: string, nextActionDueAt: Option<Instant>)

  datatype CreateCommand = CreateCommand(
    details: Details, retention: RetentionClass, retainUntil: Instant, document: Option<Document>)

  datatype Operation =
    | Create(command: CreateCommand)
    | Transition(caseId: Uuid, expectedVersion: int, toStatus: Status)
    | Rotate(caseId: Uuid, expectedVersion: int, document: Document)

  /** A mutation as it reaches the service: who, in which tenant and role, under which key, and what. */
  datatype Request = Request(
    tenant: Uuid, user: string, role: Role, key: string, op: Operation, now: Instant)

  // ---------------------------------------------------------------- rows

  /** A row of `apme_cases`: the document is three separately nullable columns. */
  datatype CaseRow = CaseRow(
    tenant: Uuid, version: int, details: Details, status: Status, retention: RetentionClass,
    retainUntil: Instant, legalHold: bool, tombstonedAt: Option<Instant>,
    objectReference: Option<string>, ciphertextSha256: Option<string>, objectKeyVersion: Option<int>,
    createdAt: Instant, updatedAt: Instant)

  /** A row of `apme_case_events`. */
  datatype EventRow = EventRow(
    tenant: Uuid, caseId: Uuid, caseVersion: int, eventType: string, occurredAt: Instant, eventHash: string)

  datatype PersistedCase = PersistedCase(
    id: Uuid, tenant: Uuid, version: int, details: Details, status: Status, retention: RetentionClass,
    retainUntil: Instant, legalHold: bool, tombstonedAt: Option<Instant>, document: Option<Document>,
    createdAt: Instant, updatedAt: Instant)

  /** The row a stored procedure returns. */
  datatype MutationRow = MutationRow(
    caseId: Uuid, caseVersion: int, eventId: Uuid, eventHash: string, replayed: bool)

  /** What an idempotency key remembers: the request digest and the row first returned. */
  datatype KeyRecord = KeyRecord(digest: string, caseId: Uuid, caseVersion: int, eventId: Uuid, eventHash: string)

  datatype Store = Store(
    cases: map<Uuid, CaseRow>, events: map<Uuid, EventRow>, keys: map<string, KeyRecord>)

  function StatusName(status: Status): string {
    match status
    case Intake => "intake"
    case CollectingDocuments => "collecting_documents"
    case Review => "review"
    case Submitted => "submitted"
    case Completed => "completed"
    case Closed => "closed"
  }

  function RetentionName(retention: RetentionClass): string {
    match retention
    case Standard => "standard"
    case Extended => "extended"
    case LegalHoldEligible => "legal_hold_eligible"
  }

  /** `case_from_row`: a half-present document is a validation error. */
  function CaseFromRow(id: Uuid, row: CaseRow): Result<PersistedCase, CaseError> {
    match (row.objectReference, row.ciphertextSha256, row.objectKeyVersion)
    case (Some(reference), Some(digest), Some(version)) =>
      Ok(ToCase(id, row, Some(Document(reference, digest, version))))
    case (None, None, None) => Ok(ToCase(id, row, None))
    case _ => Err(Validation)
  }

  function ToCase(id: Uuid, row: CaseRow, document: Option<Document>): PersistedCase {
    PersistedCase(id, row.tenant, row.version, row.details, row.status, row.retention, row.retainUntil,
                  row.legalHold, row.tombstonedAt, document, row.createdAt, row.updatedAt)
  }

  /** The predicate of both case selects: right tenant and not tombstoned. */
  predicate Visible(s: Store, tenant: Uuid, id: Uuid) {
    id in s.cases && s.cases[id].tenant == tenant && s.cases[id].tombstonedAt.None?
  }

  /** `get_case`. */
  function GetCase(s: Store, tenant: Uuid, id: Uuid): Result<PersistedCase, CaseError> {
    if Visible(s, tenant, id) then CaseFromRow(id, s.cases[id]) else Err(NotFound)
  }

  // ---------------------------------------------------------------- request digests

  datatype Json =
    | Null
    | Number(int)
    | Text(string)
    | Array(seq<Json>)
    | Object(seq<(string, Json)>)

  function InstantJson(due: Option<Instant>): Json {
    if due.Some? then Number(due.value) else Null
  }

  function DocumentJson(document: Document): Json {
    Object([("object_reference", Json.Text(document.objectReference)),
            ("ciphertext_sha256", Json.Text(document.ciphertextSha256)),
            ("key_version", Number(document.keyVersion))])
  }

  function CreateJson(command: CreateCommand): Json {
    Object([("title", Json.Text(command.details.title)),
            ("summary", Json.Text(command.details.summary)),
            ("client_reference", Json.Text(command.details.clientReference)),
            ("destination_country", Json.Text(command.details.destinationCountry)),
            ("document_type", Json.Text(command.details.documentType)),
            ("next_action_due_at", InstantJson(command.details.nextActionDueAt)),
            ("retention_class", Json.Text(RetentionName(command.retention))),
            ("retain_until", Number(command.retainUntil)),
            ("encrypted_document", if command.document.Some? then DocumentJson(command.document.value) else Null)])
  }

  /** The tuple handed to `canonical_hash`: neither tenant, user, key nor operation name is part of it. */
  function HashInput(op: Operation): Json {
    match op
    case Create(command) => Array([Number(1), CreateJson(command)])
    case Transition(id, expected, status) =>
      Array([Number(1), Json.Text(Print(id)),
             Object([("expected_version", Number(expected)), ("to_status", Json.Text(StatusName(status)))])])
    case Rotate(id, expected, document) =>
      Array([Number(1), Json.Text(Print(id)),
             Object([("expected_version", Number(expected)), ("encrypted_document", DocumentJson(document))])])
  }

  function ParseStatus(text: string): Result<Status, CaseError> {
    match text
    case "intake" => Ok(Intake)
    case "collecting_documents" => Ok(CollectingDocuments)
    case "review" => Ok(Review)
    case "submitted" => Ok(Submitted)
    case "completed" => Ok(Completed)
    case "closed" => Ok(Closed)
    case _ => Err(Validation)
  }

  function ParseRetention(text: string): Result<RetentionClass, CaseError> {
    match text
    case "standard" => Ok(Standard)
    case "extended" => Ok(Extended)
    case "legal_hold_eligible" => Ok(LegalHoldEligible)
    case _ => Err(Validation)
  }

  /** What is stored as text is read back as the same value. */
  lemma NamesRoundTrip(status: Status, retention: RetentionClass)
    ensures ParseStatus(StatusName(status)) == Ok(status)
    ensures ParseRetention(RetentionName(retention)) == Ok(retention)
  {
  }

  lemma DocumentJsonInjective(a: Document, b: Document)
    requires DocumentJson(a) == DocumentJson(b)
    ensures a == b
  {
    var Object(x) := DocumentJson(a);
    var Object(y) := DocumentJson(b);
    assert x[0] == y[0] && x[1] == y[1] && x[2] == y[2];
  }

  lemma CreateJsonInjective(a: CreateCommand, b: CreateCommand)
    requires CreateJson(a) == CreateJson(b)
    ensures a == b
  {
    var Object(x) := CreateJson(a);
    var Object(y) := CreateJson(b);
    assert x[0] == y[0] && x[1] == y[1] && x[2] == y[2] && x[3] == y[3] && x[4] == y[4];
    assert x[5] == y[5] && x[6] == y[6] && x[7] == y[7] && x[8] == y[8];
    NamesRoundTrip(Intake, a.retention);
    NamesRoundTrip(Intake, b.retention);
    if a.document.Some? && b.document.Some? {
      DocumentJsonInjective(a.document.value, b.document.value);
    }
  }

  /** The digested tuples tell all operations apart, transition from rotate included. */
  lemma HashInputInjective(a: Operation, b: Operation)
    requires HashInput(a) == HashInput(b)
    ensures a == b
  {
    var Array(x) := HashInput(a);
    var Array(y) := HashInput(b);
    assert |x| == |y| && x[1] == y[1];
    if a.Create? {
      CreateJsonInjective(a.command, b.command);
    } else {
      PrintInjective(a.caseId, b.caseId);
      var Object(f) := x[2];
      var Object(g) := y[2];
      assert x[2] == y[2] && f[0] == g[0] && f[1] == g[1];
      assert |"to_status"| == 9 && |"encrypted_document"| == 18;
      if a.Transition? {
        NamesRoundTrip(a.toStatus, Standard);
        NamesRoundTrip(b.toStatus, Standard);
      } else {
        DocumentJsonInjective(a.document, b.document);
      }
    }
  }

  // ---------------------------------------------------------------- the assumed interface

  datatype Interface = Interface(
    scope: Request -> string,                      // which requests share one idempotency key
    digest: Json -> string,                        // SHA-256 of the serialized tuple
    validCreate: (CreateCommand, Instant) -> bool, // CreateCaseCommand::validate
    validDocument: Document -> bool,               // EncryptedObjectReference::validate
    allowed: (Status, Status) -> bool)             // the status graph

  ghost predicate CollisionFree(i: Interface) {
    forall a: Json, b: Json | i.digest(a) == i.digest(b) :: a == b
  }

  function RequestDigest(i: Interface, r: Request): string {
    i.digest(HashInput(r.op))
  }

  /** `validate_idempotency_key`. */
  predicate ValidKey(key: string) {
    key != "" && Text.ByteLength(key) <= 200 && forall c | c in key :: !Text.IsControl(c)
  }

  /** Everything the three mutation methods check before they touch the database. */
  function Precheck(i: Interface, r: Request): Option<CaseError> {
    if (if r.op.Rotate? then r.role != Administrator else r.role == Viewer) then Some(NotAuthorized)
    else if !ValidKey(r.key) then Some(Validation)
    else match r.op
      case Create(command) => if i.validCreate(command, r.now) then None else Some(Validation)
      case Transition(_, expected, _) => if expected > 0 then None else Some(Validation)
      case Rotate(_, expected, document) =>
        if expected > 0 && i.validDocument(document) then None else Some(Validation)
  }

  /** What an accepted mutation does to one case. */
  datatype Change = Change(caseId: Uuid, row: CaseRow, eventType: string)

  function NewRow(r: Request, command: CreateCommand): CaseRow {
    CaseRow(r.tenant, 1, command.details, Intake, command.retention,
            command.retainUntil, false, None,
            if command.document.Some? then Some(command.document.value.objectReference) else None,
            if command.document.Some? then Some(command.document.value.ciphertextSha256) else None,
            if command.document.Some? then Some(command.document.value.keyVersion) else None,
            r.now, r.now)
  }

  function Plan(i: Interface, s: Store, r: Request, newCase: Uuid): Result<Change, CaseError> {
    match r.op
    case Create(command) => Ok(Change(newCase, NewRow(r, command), "case.created"))
    case Transition(id, expected, status) =>
      if !Visible(s, r.tenant, id) then Err(NotFound)
      else if s.cases[id].version != expected then Err(StaleVersion)
      else if !i.allowed(s.cases[id].status, status) then Err(InvalidTransition)
      else Ok(Change(id, s.cases[id].(version := expected + 1, status := status, updatedAt := r.now),
                     "case.transitioned"))
    case Rotate(id, expected, document) =>
      if !Visible(s, r.tenant, id) then Err(NotFound)
      else if s.cases[id].objectKeyVersion.None? then Err(NotFound)
      else if s.cases[id].version != expected then Err(StaleVersion)
      else if document.keyVersion <= s.cases[id].objectKeyVersion.value then Err(KeyVersionRollback)
      else Ok(Change(id, s.cases[id].(version := expected + 1,
                                      objectReference := Some(document.objectReference),
                                      ciphertextSha256 := Some(document.ciphertextSha256),
                                      objectKeyVersion := Some(document.keyVersion),
                                      updatedAt := r.now),
                     "case.document_key_rotated"))
  }

  /** Write one row and the event that explains it. */
  function Append(s: Store, change: Change, now: Instant, eventId: Uuid, eventHash: string): Store {
    s.(cases := s.cases[change.caseId := change.row],
       events := s.events[eventId := EventRow(change.row.tenant, change.caseId, change.row.version,
                                              change.eventType, now, eventHash)])
  }

  function Remember(s: Store, key: string, record: KeyRecord): Store {
    s.(keys := s.keys[key := record])
  }

  datatype Reply = Row(row: MutationRow) | Refused(error: CaseError)

  function Replay(record: KeyRecord): MutationRow {
    MutationRow(record.caseId, record.caseVersion, record.eventId, record.eventHash, true)
  }

  /**
    `apme_create_case`, `apme_transition_case` and `apme_rotate_case_object`: one transaction that replays a
    known key, refuses a reused one, or checks and applies the change and remembers it under the key.
   */
  function Procedure(i: Interface, s: Store, r: Request, newCase: Uuid, newEvent: Uuid, eventHash: string)
    : (Store, Reply)
  {
    var key := i.scope(r);
    if key in s.keys then
      if s.keys[key].digest == RequestDigest(i, r) then (s, Row(Replay(s.keys[key])))
      else (s, Refused(IdempotencyConflict))
    else
      match Plan(i, s, r, newCase)
      case Err(error) => (s, Refused(error))
      case Ok(change) =>
        (Remember(Append(s, change, r.now, newEvent, eventHash), key,
                  KeyRecord(RequestDigest(i, r), change.caseId, change.row.version, newEvent, eventHash)),
         Row(MutationRow(change.caseId, change.row.version, newEvent, eventHash, false)))
  }

  /** Retention reaches a case that is due, not held and not yet tombstoned. */
  predicate RetentionDue(s: Store, id: Uuid, now: Instant) {
    id in s.cases && s.cases[id].tombstonedAt.None? && !s.cases[id].legalHold && s.cases[id].retainUntil <= now
  }

  function Tombstoned(row: CaseRow, now: Instant): CaseRow {
    row.(tombstonedAt := Some(now), objectReference := None, ciphertextSha256 := None, objectKeyVersion := None)
  }

  /** One case of `apme_apply_retention`; whether the sweep also records an event is left open. */
  function Retain(s: Store, id: Uuid, now: Instant, recorded: Option<(Uuid, string)>): Store
    requires id in s.cases
  {
    match recorded
    case None => s.(cases := s.cases[id := Tombstoned(s.cases[id], now)])
    case Some((eventId, eventHash)) => Append(s, Retirement(s, id, now), now, eventId, eventHash)
  }

  function Retirement(s: Store, id: Uuid, now: Instant): Change
    requires id in s.cases
  {
    Change(id, Tombstoned(s.cases[id], now).(version := s.cases[id].version + 1), "case.retention_applied")
  }

  function Hold(s: Store, id: Uuid, held: bool): Store
    requires id in s.cases
  {
    s.(cases := s.cases[id := s.cases[id].(legalHold := held)])
  }

  // ---------------------------------------------------------------- consistency

  /** `case_from_row` accepts the row, and its version has started. */
  predicate RowOk(row: CaseRow) {
    && row.version >= 1
    && (row.objectReference.Some? <==> row.ciphertextSha256.Some?)
    && (row.objectReference.Some? <==> row.objectKeyVersion.Some?)
    && (row.tombstonedAt.Some? ==> row.objectKeyVersion.None?)
  }

  predicate EventOk(s: Store, e: EventRow) {
    && e.caseId in s.cases
    && e.tenant == s.cases[e.caseId].tenant
    && 1 <= e.caseVersion <= s.cases[e.caseId].version
  }

  predicate EventAt(s: Store, id: Uuid, caseId: Uuid, version: int) {
    id in s.events && s.events[id].caseId == caseId && s.events[id].caseVersion == version
  }

  ghost predicate HasEvent(s: Store, caseId: Uuid, version: int) {
    exists id :: EventAt(s, id, caseId, version)
  }

  /** A case's events carry every version from 1 to the row's version, each exactly once. */
  ghost predicate VersionsDense(s: Store) {
    && (forall c, v: int | c in s.cases && 1 <= v <= s.cases[c].version :: HasEvent(s, c, v))
    && (forall d, e | d in s.events && e in s.events && s.events[d].caseId == s.events[e].caseId
                      && s.events[d].caseVersion == s.events[e].caseVersion :: d == e)
  }

  predicate KeyOk(s: Store, k: KeyRecord) {
    && EventAt(s, k.eventId, k.caseId, k.caseVersion)
    && s.events[k.eventId].eventHash == k.eventHash
  }

  ghost predicate RowsOk(s: Store) {
    forall c | c in s.cases :: RowOk(s.cases[c])
  }

  ghost predicate EventsOk(s: Store) {
    forall e | e in s.events :: EventOk(s, s.events[e])
  }

  ghost predicate KeysOk(s: Store) {
    forall k | k in s.keys :: KeyOk(s, s.keys[k])
  }

  ghost predicate Consistent(s: Store) {
    RowsOk(s) && EventsOk(s) && VersionsDense(s) && KeysOk(s)
  }

  // ---------------------------------------------------------------- growth

  /** What may differ between an earlier and a later row. */
  predicate RowExtends(a: CaseRow, b: CaseRow) {
    && a.tenant == b.tenant
    && a.version <= b.version
    && (a.tombstonedAt.Some? ==> b.tombstonedAt == a.tombstonedAt)
    && (a.objectKeyVersion.None? ==> b.objectKeyVersion.None?)
    && (a.objectKeyVersion.Some? && b.objectKeyVersion.Some? ==>
          a.objectKeyVersion.value <= b.objectKeyVersion.value)
  }

  ghost predicate CasesExtend(a: Store, b: Store) {
    forall c | c in a.cases :: c in b.cases && RowExtends(a.cases[c], b.cases[c])
  }

  ghost predicate EventsExtend(a: Store, b: Store) {
    forall e | e in a.events :: e in b.events && b.events[e] == a.events[e]
  }

  ghost predicate KeysExtend(a: Store, b: Store) {
    forall k | k in a.keys :: k in b.keys && b.keys[k] == a.keys[k]
  }

  /** Nothing recorded is lost or altered, versions and key versions only grow, tombstones stay. */
  ghost predicate Extends(a: Store, b: Store) {
    CasesExtend(a, b) && EventsExtend(a, b) && KeysExtend(a, b)
  }

  lemma ExtendsTransitive(a: Store, b: Store, c: Store)
    requires Extends(a, b) && Extends(b, c)
    ensures Extends(a, c)
  {
    forall k | k in a.cases ensures k in c.cases && RowExtends(a.cases[k], c.cases[k]) {
      assert RowExtends(a.cases[k], b.cases[k]) && RowExtends(b.cases[k], c.cases[k]);
    }
  }

  lemma HasEventExtends(a: Store, b: Store, caseId: Uuid, version: int)
    requires EventsExtend(a, b) && HasEvent(a, caseId, version)
    ensures HasEvent(b, caseId, version)
  {
    var e :| EventAt(a, e, caseId, version);
    assert EventAt(b, e, caseId, version);
  }

  lemma KeysOkExtends(a: Store, b: Store)
    requires KeysOk(a) && EventsExtend(a, b) && b.keys == a.keys
    ensures KeysOk(b)
  {
    forall k | k in b.keys ensures KeyOk(b, b.keys[k]) {
      assert KeyOk(a, a.keys[k]);
    }
  }

  lemma EventsOkExtends(a: Store, b: Store)
    requires EventsOk(a) && CasesExtend(a, b) && b.events == a.events
    ensures EventsOk(b)
  {
    forall e | e in b.events ensures EventOk(b, b.events[e]) {
      assert EventOk(a, a.events[e]);
    }
  }

  /** A change that continues its case: the next version of an existing row, or version 1 of a new one. */
  predicate Continues(s: Store, change: Change) {
    && RowOk(change.row)
    && (if change.caseId in s.cases then
          && RowExtends(s.cases[change.caseId], change.row)
          && change.row.version == s.cases[change.caseId].version + 1
        else change.row.version == 1)
  }

  lemma AppendExtends(s: Store, change: Change, now: Instant, eventId: Uuid, eventHash: string)
    requires Continues(s, change) && eventId !in s.events
    ensures Extends(s, Append(s, change, now, eventId, eventHash))
  {
  }

  lemma AppendKeepsVersionsDense(s: Store, change: Change, now: Instant, eventId: Uuid, eventHash: string)
    requires EventsOk(s) && VersionsDense(s) && Continues(s, change) && eventId !in s.events
    ensures VersionsDense(Append(s, change, now, eventId, eventHash))
  {
    var t := Append(s, change, now, eventId, eventHash);
    AppendExtends(s, change, now, eventId, eventHash);
    forall c, v: int | c in t.cases && 1 <= v <= t.cases[c].version ensures HasEvent(t, c, v) {
      if c == change.caseId && v == change.row.version {
        assert EventAt(t, eventId, c, v);
      } else {
        HasEventExtends(s, t, c, v);
      }
    }
    forall d | d in s.events && s.events[d].caseId == change.caseId
      ensures s.events[d].caseVersion != change.row.version {
      assert EventOk(s, s.events[d]);
    }
  }

  lemma AppendKeepsEventsOk(s: Store, change: Change, now: Instant, eventId: Uuid, eventHash: string)
    requires EventsOk(s) && Continues(s, change) && eventId !in s.events
    ensures EventsOk(Append(s, change, now, eventId, eventHash))
  {
    var t := Append(s, change, now, eventId, eventHash);
    forall e | e in t.events ensures EventOk(t, t.events[e]) {
      if e != eventId {
        assert EventOk(s, s.events[e]);
      }
    }
  }

  lemma AppendKeepsConsistent(s: Store, change: Change, now: Instant, eventId: Uuid, eventHash: string)
    requires Consistent(s) && Continues(s, change) && eventId !in s.events
    ensures Consistent(Append(s, change, now, eventId, eventHash))
  {
    AppendExtends(s, change, now, eventId, eventHash);
    AppendKeepsVersionsDense(s, change, now, eventId, eventHash);
    AppendKeepsEventsOk(s, change, now, eventId, eventHash);
    KeysOkExtends(s, Append(s, change, now, eventId, eventHash));
  }

  lemma PlanContinues(i: Interface, s: Store, r: Request, newCase: Uuid)
    requires RowsOk(s) && newCase !in s.cases && Plan(i, s, r, newCase).Ok?
    ensures Continues(s, Plan(i, s, r, newCase).value)
    ensures Plan(i, s, r, newCase).value.row.tenant == r.tenant
  {
  }

  /** Rows, events and versions do not depend on the keys. */
  lemma KeysAside(a: Store, b: Store)
    requires RowsOk(a) && EventsOk(a) && VersionsDense(a) && b == a.(keys := b.keys)
    ensures RowsOk(b) && EventsOk(b) && VersionsDense(b)
  {
    hide EventOk;
    forall e | e in b.events ensures EventOk(b, b.events[e]) {
      assert EventOk(a, a.events[e]);
      SameEventOk(a, b, e);
    }
    forall c, v: int | c in b.cases && 1 <= v <= b.cases[c].version ensures HasEvent(b, c, v) {
      HasEventExtends(a, b, c, v);
    }
  }

  lemma SameEventOk(a: Store, b: Store, e: Uuid)
    requires e in a.events && EventOk(a, a.events[e]) && b == a.(keys := b.keys)
    ensures EventOk(b, b.events[e])
  {
  }

  /** Adding an idempotency record that points at a recorded event. */
  lemma RememberKeepsConsistent(t: Store, key: string, record: KeyRecord)
    requires Consistent(t) && KeyOk(t, record) && key !in t.keys
    ensures Consistent(Remember(t, key, record))
    ensures Extends(t, Remember(t, key, record))
  {
    hide RowsOk, EventsOk, VersionsDense, KeyOk;
    var u := Remember(t, key, record);
    KeysAside(t, u);
    forall k | k in u.keys ensures KeyOk(u, u.keys[k]) {
      SameKeyOk(t, u, if k == key then record else t.keys[k]);
    }
  }

  lemma SameKeyOk(a: Store, b: Store, record: KeyRecord)
    requires KeyOk(a, record) && b == a.(keys := b.keys)
    ensures KeyOk(b, record)
  {
  }

  /** A call that commits: not replayed, the event new, the key new. */
  predicate Commits(i: Interface, s: Store, r: Request, newCase: Uuid) {
    i.scope(r) !in s.keys && Plan(i, s, r, newCase).Ok?
  }

  lemma ConsistentRows(s: Store)
    requires Consistent(s)
    ensures RowsOk(s)
  {
  }

  lemma CommitKeepsConsistent(
    i: Interface, s: Store, r: Request, newCase: Uuid, newEvent: Uuid, eventHash: string)
    requires Consistent(s) && newCase !in s.cases && newEvent !in s.events && Commits(i, s, r, newCase)
    ensures Consistent(Procedure(i, s, r, newCase, newEvent, eventHash).0)
    ensures Extends(s, Procedure(i, s, r, newCase, newEvent, eventHash).0)
  {
    hide Consistent, Extends, RequestDigest, Continues;
    var change := Plan(i, s, r, newCase).value;
    ConsistentRows(s);
    PlanContinues(i, s, r, newCase);
    var t := Append(s, change, r.now, newEvent, eventHash);
    var record := KeyRecord(RequestDigest(i, r), change.caseId, change.row.version, newEvent, eventHash);
    AppendKeepsConsistent(s, change, r.now, newEvent, eventHash);
    AppendExtends(s, change, r.now, newEvent, eventHash);
    RememberKeepsConsistent(t, i.scope(r), record);
    ExtendsTransitive(s, t, Remember(t, i.scope(r), record));
  }

  /** Every stored procedure call keeps the store consistent and loses nothing. */
  lemma ProcedureKeepsConsistent(
    i: Interface, s: Store, r: Request, newCase: Uuid, newEvent: Uuid, eventHash: string)
    requires Consistent(s) && newCase !in s.cases && newEvent !in s.events
    ensures Consistent(Procedure(i, s, r, newCase, newEvent, eventHash).0)
    ensures Extends(s, Procedure(i, s, r, newCase, newEvent, eventHash).0)
  {
    if Commits(i, s, r, newCase) {
      CommitKeepsConsistent(i, s, r, newCase, newEvent, eventHash);
    } else {
      assert Procedure(i, s, r, newCase, newEvent, eventHash).0 == s;
    }
  }

  /** Replacing one row by another of the same version keeps every link. */
  lemma ReplaceRowKeepsConsistent(s: Store, id: Uuid, row: CaseRow)
    requires Consistent(s) && id in s.cases && RowOk(row)
    requires RowExtends(s.cases[id], row) && row.version == s.cases[id].version
    ensures Consistent(s.(cases := s.cases[id := row]))
    ensures Extends(s, s.(cases := s.cases[id := row]))
  {
    var t := s.(cases := s.cases[id := row]);
    EventsOkExtends(s, t);
    KeysOkExtends(s, t);
    forall c, v: int | c in t.cases && 1 <= v <= t.cases[c].version ensures HasEvent(t, c, v) {
      HasEventExtends(s, t, c, v);
    }
  }

  /** A retention step keeps the store consistent and loses nothing, with or without an event of its own. */
  lemma RetainKeepsConsistent(s: Store, id: Uuid, now: Instant, recorded: Option<(Uuid, string)>)
    requires Consistent(s) && RetentionDue(s, id, now)
    requires recorded.Some? ==> recorded.value.0 !in s.events
    ensures Consistent(Retain(s, id, now, recorded))
    ensures Extends(s, Retain(s, id, now, recorded))
  {
    RetirementContinues(s, id, now);
    match recorded
    case None => ReplaceRowKeepsConsistent(s, id, Tombstoned(s.cases[id], now));
    case Some((eventId, eventHash)) =>
      AppendKeepsConsistent(s, Retirement(s, id, now), now, eventId, eventHash);
      AppendExtends(s, Retirement(s, id, now), now, eventId, eventHash);
  }

  lemma RetirementContinues(s: Store, id: Uuid, now: Instant)
    requires RowsOk(s) && RetentionDue(s, id, now)
    ensures Continues(s, Retirement(s, id, now))
    ensures RowOk(Tombstoned(s.cases[id], now)) && RowExtends(s.cases[id], Tombstoned(s.cases[id], now))
  {
    assert RowOk(s.cases[id]);
  }

  lemma HoldKeepsConsistent(s: Store, id: Uuid, held: bool)
    requires Consistent(s) && id in s.cases
    ensures Consistent(Hold(s, id, held)) && Extends(s, Hold(s, id, held))
  {
    assert RowOk(s.cases[id]);
    ReplaceRowKeepsConsistent(s, id, s.cases[id].(legalHold := held));
  }
}
