/** What every reachable state of the mutation protocol satisfies, and that every step keeps it. */
module CaseInvariant {
  import opened Prelude
  import opened Uuids
  import opened CaseStore
  import opened Fanout
  import opened CaseProtocol

  // ---------------------------------------------------------------- handlers

  predicate Committed(h: Handler) {
    h.row.Some? && !h.row.value.replayed
  }

  /** The effect a committing handler asked for is the effect its event records. */
  predicate OwnEffect(st: Store, r: Request, m: MutationRow) {
    && m.eventId in st.events
    && st.events[m.eventId].tenant == r.tenant
    && st.events[m.eventId].occurredAt == r.now
    && st.events[m.eventId].eventType == (match r.op
                                          case Create(_) => "case.created"
                                          case Transition(_, _, _) => "case.transitioned"
                                          case Rotate(_, _, _) => "case.document_key_rotated")
    && (r.op.Create? ==> m.caseVersion == 1)
    && (!r.op.Create? ==> m.caseId == r.op.caseId && m.caseVersion == r.op.expectedVersion + 1)
  }

  /** A returned row is what the key's record says, under the digest of this very request. */
  predicate RowLinked(i: Interface, st: Store, r: Request, m: MutationRow) {
    && Precheck(i, r).None?
    && i.scope(r) in st.keys
    && st.keys[i.scope(r)] == KeyRecord(RequestDigest(i, r), m.caseId, m.caseVersion, m.eventId, m.eventHash)
    && (!m.replayed ==> OwnEffect(st, r, m))
  }

  /** A snapshot was read after the commit, in the caller's tenant. */
  predicate SnapshotOk(st: Store, r: Request, m: MutationRow, c: PersistedCase) {
    && c.id == m.caseId
    && c.id in st.cases
    && c.tenant == r.tenant == st.cases[c.id].tenant
    && m.caseVersion <= c.version <= st.cases[c.id].version
    && c.tombstonedAt.None?
  }

  predicate ResultOk(st: Store, r: Request, m: MutationRow, c: PersistedCase, result: MutationResult) {
    && EventReadable(st, r.tenant, m.eventId)
    && result == MutationResult(c, ReceiptFor(m.eventId, st.events[m.eventId], m.eventHash), m.replayed)
  }

  predicate HandlerOk(i: Interface, st: Store, h: Handler) {
    && (h.row.Some? ==> RowLinked(i, st, h.request, h.row.value))
    && (h.snapshot.Some? ==> h.row.Some? && SnapshotOk(st, h.request, h.row.value, h.snapshot.value))
    && (h.result.Some? ==>
          h.snapshot.Some? && ResultOk(st, h.request, h.row.value, h.snapshot.value, h.result.value))
    && (h.stage.Ready? ==> h.row.None?)
    && (h.stage.Mutated? ==> h.row.Some? && h.snapshot.None? && h.result.None?)
    && (h.stage.Loaded? ==> h.snapshot.Some? && h.result.None?)
    && (h.stage.Assembled? || h.stage.Answered? ==> h.result.Some?)
  }

  ghost predicate HandlersOk(i: Interface, st: Store, hs: map<nat, Handler>) {
    forall h | h in hs :: HandlerOk(i, st, hs[h])
  }

  lemma HandlerStable(i: Interface, st: Store, st': Store, h: Handler)
    requires HandlerOk(i, st, h) && Extends(st, st')
    ensures HandlerOk(i, st', h)
  {
    hide RequestDigest, Precheck;
    if h.snapshot.Some? {
      assert RowExtends(st.cases[h.snapshot.value.id], st'.cases[h.snapshot.value.id]);
    }
  }

  lemma HandlersStable(i: Interface, st: Store, st': Store, hs: map<nat, Handler>)
    requires HandlersOk(i, st, hs) && Extends(st, st')
    ensures HandlersOk(i, st', hs)
  {
    hide RequestDigest, Precheck;
    forall h | h in hs ensures HandlerOk(i, st', hs[h]) {
      HandlerStable(i, st, st', hs[h]);
    }
  }

  lemma HandlersSet(i: Interface, st: Store, hs: map<nat, Handler>, h: nat, handler: Handler)
    requires HandlersOk(i, st, hs) && HandlerOk(i, st, handler)
    ensures HandlersOk(i, st, hs[h := handler])
  {
    hide RequestDigest, Precheck;
  }

  /** A returned row names a recorded event of its case, in the case's tenant and not past its version. */
  lemma LinkedEvent(i: Interface, st: Store, h: Handler)
    requires KeysOk(st) && EventsOk(st) && HandlerOk(i, st, h) && h.row.Some?
    ensures var m := h.row.value;
            && m.eventId in st.events && m.caseId in st.cases
            && st.events[m.eventId].caseId == m.caseId && st.events[m.eventId].caseVersion == m.caseVersion
            && st.events[m.eventId].eventHash == m.eventHash
            && st.events[m.eventId].tenant == st.cases[m.caseId].tenant
            && 1 <= m.caseVersion <= st.cases[m.caseId].version
  {
    hide RequestDigest, Precheck;
    assert KeyOk(st, st.keys[i.scope(h.request)]);
    assert EventOk(st, st.events[h.row.value.eventId]);
  }

  // ---------------------------------------------------------------- the ledger of commits

  /** No two handlers committed the same event. */
  ghost predicate OwnEvents(hs: map<nat, Handler>) {
    forall g, h | g in hs && h in hs && g != h && Committed(hs[g]) && Committed(hs[h]) ::
      hs[g].row.value.eventId != hs[h].row.value.eventId
  }

  /** Handler `h` made the commit remembered under `key`. */
  predicate Author(i: Interface, hs: map<nat, Handler>, h: nat, key: string) {
    h in hs && Committed(hs[h]) && i.scope(hs[h].request) == key
  }

  ghost predicate Authored(i: Interface, st: Store, hs: map<nat, Handler>) {
    forall key | key in st.keys :: exists h :: Author(i, hs, h, key)
  }

  predicate Rotation(h: Handler) {
    Committed(h) && h.request.op.Rotate?
  }

  predicate RotationBelow(st: Store, h: Handler)
    requires Rotation(h)
  {
    var op := h.request.op;
    op.caseId in st.cases &&
    (st.cases[op.caseId].objectKeyVersion.Some? ==>
       op.document.keyVersion <= st.cases[op.caseId].objectKeyVersion.value)
  }

  ghost predicate RotationsBelow(st: Store, hs: map<nat, Handler>) {
    forall h | h in hs && Rotation(hs[h]) :: RotationBelow(st, hs[h])
  }

  predicate RotationBefore(g: Handler, h: Handler) {
    && Rotation(g) && Rotation(h)
    && g.request.op.caseId == h.request.op.caseId
    && g.row.value.caseVersion < h.row.value.caseVersion
  }

  /** Later rotations of a case carry larger key versions. */
  ghost predicate RotationsOrdered(hs: map<nat, Handler>) {
    forall g, h | g in hs && h in hs && RotationBefore(hs[g], hs[h]) ::
      hs[g].request.op.document.keyVersion < hs[h].request.op.document.keyVersion
  }

  ghost predicate LedgerOk(i: Interface, st: Store, hs: map<nat, Handler>) {
    OwnEvents(hs) && Authored(i, st, hs) && RotationsBelow(st, hs) && RotationsOrdered(hs)
  }

  /** A step that returns no new row: old handlers keep request and row, new ones have none. */
  ghost predicate SameRows(hs: map<nat, Handler>, hs': map<nat, Handler>) {
    && (forall h | h in hs :: h in hs' && hs'[h].row == hs[h].row && hs'[h].request == hs[h].request)
    && (forall h | h in hs' && h !in hs :: hs'[h].row.None?)
  }

  lemma RotationsBelowStable(st: Store, st': Store, hs: map<nat, Handler>)
    requires RotationsBelow(st, hs) && Extends(st, st')
    ensures RotationsBelow(st', hs)
  {
    forall h | h in hs && Rotation(hs[h]) ensures RotationBelow(st', hs[h]) {
      assert RotationBelow(st, hs[h]);
      var c := hs[h].request.op.caseId;
      assert RowExtends(st.cases[c], st'.cases[c]);
    }
  }

  lemma LedgerStable(i: Interface, st: Store, hs: map<nat, Handler>, st': Store, hs': map<nat, Handler>)
    requires LedgerOk(i, st, hs) && Extends(st, st') && st'.keys == st.keys && SameRows(hs, hs')
    ensures LedgerOk(i, st', hs')
  {
    forall key | key in st'.keys ensures exists h :: Author(i, hs', h, key) {
      var h :| Author(i, hs, h, key);
      assert Author(i, hs', h, key);
    }
    RotationsBelowStable(st, st', hs);
    forall h | h in hs' && Rotation(hs'[h]) ensures RotationBelow(st', hs'[h]) {
      assert RotationBelow(st', hs[h]);
    }
    forall g, h | g in hs' && h in hs' && RotationBefore(hs'[g], hs'[h])
      ensures hs'[g].request.op.document.keyVersion < hs'[h].request.op.document.keyVersion {
      assert RotationBefore(hs[g], hs[h]);
    }
  }

  // ---------------------------------------------------------------- publications

  function EventKey(e: TenantEvent): Uuid {
    e.receipt.eventId
  }

  /** A published envelope agrees with its receipt, and the receipt with the committed event row. */
  predicate SendOk(st: Store, e: TenantEvent) {
    && ReceiptOk(st, e.receipt)
    && e.tenant == e.receipt.tenant
    && e.caseId == e.receipt.caseId
  }

  /** A receipt repeats its recorded event, field by field. */
  predicate ReceiptOk(st: Store, receipt: Receipt) {
    && receipt.eventId in st.events
    && var event := st.events[receipt.eventId];
       && receipt.tenant == event.tenant
       && receipt.caseId == event.caseId
       && receipt.caseVersion == event.caseVersion
       && receipt.eventType == event.eventType
       && receipt.occurredAt == event.occurredAt
       && receipt.eventHash == event.eventHash
  }

  predicate Sender(hs: map<nat, Handler>, h: nat, e: TenantEvent) {
    && h in hs && Committed(hs[h]) && hs[h].stage.Answered?
    && hs[h].result.Some? && Envelope(hs[h].result.value) == e
  }

  ghost predicate SendsOk(st: Store, sends: seq<TenantEvent>) {
    forall e | e in sends :: SendOk(st, e)
  }

  ghost predicate Unsent(hs: map<nat, Handler>, sends: seq<TenantEvent>) {
    forall h, e | h in hs && Committed(hs[h]) && !hs[h].stage.Answered? && e in sends ::
      EventKey(e) != hs[h].row.value.eventId
  }

  /** The publications are exactly the envelopes of the committing handlers that answered. */
  ghost predicate SendersOk(hs: map<nat, Handler>, sends: seq<TenantEvent>) {
    && (forall e | e in sends :: exists h :: Sender(hs, h, e))
    && (forall h | h in hs && Committed(hs[h]) && hs[h].stage.Answered? && hs[h].result.Some? ::
          Envelope(hs[h].result.value) in sends)
  }

  ghost predicate PublishedOk(st: Store, hs: map<nat, Handler>, sends: seq<TenantEvent>) {
    && SendsOk(st, sends)
    && DistinctBy(EventKey, sends)
    && Unsent(hs, sends)
    && SendersOk(hs, sends)
  }

  /** A step that answers nobody. */
  ghost predicate SameAnswers(hs: map<nat, Handler>, hs': map<nat, Handler>) {
    && (forall h | h in hs && hs[h].stage.Answered? :: h in hs' && hs'[h] == hs[h])
    && (forall h | h in hs' && hs'[h].stage.Answered? :: h in hs && hs[h].stage.Answered?)
  }

  lemma SendsStable(st: Store, st': Store, sends: seq<TenantEvent>)
    requires SendsOk(st, sends) && Extends(st, st')
    ensures SendsOk(st', sends)
  {
    forall e | e in sends ensures SendOk(st', e) {
      assert SendOk(st, e);
    }
  }

  lemma SendersStable(hs: map<nat, Handler>, hs': map<nat, Handler>, sends: seq<TenantEvent>)
    requires SendersOk(hs, sends) && SameAnswers(hs, hs')
    ensures SendersOk(hs', sends)
  {
    forall e | e in sends ensures exists h :: Sender(hs', h, e) {
      var h :| Sender(hs, h, e);
      assert Sender(hs', h, e);
    }
  }

  lemma PublishedStable(st: Store, hs: map<nat, Handler>, st': Store, hs': map<nat, Handler>, sends: seq<TenantEvent>)
    requires PublishedOk(st, hs, sends) && Extends(st, st') && SameRows(hs, hs') && SameAnswers(hs, hs')
    ensures PublishedOk(st', hs', sends)
  {
    SendsStable(st, st', sends);
    SendersStable(hs, hs', sends);
  }

  // ---------------------------------------------------------------- the invariant

  ghost predicate HubOk(sends: seq<TenantEvent>, log: seq<TenantEvent>, sockets: map<nat, Socket>) {
    && Subsequence(log, sends)
    && forall k | k in sockets :: SocketOk(log, sockets[k])
  }

  ghost predicate Inv(i: Interface, s: System) {
    && Consistent(s.store)
    && HandlersOk(i, s.store, s.handlers)
    && LedgerOk(i, s.store, s.handlers)
    && PublishedOk(s.store, s.handlers, s.sends)
    && HubOk(s.sends, s.log, s.sockets)
  }

  lemma HandlerAt(i: Interface, s: System, h: nat)
    requires Inv(i, s) && h in s.handlers
    ensures HandlerOk(i, s.store, s.handlers[h])
  {
    hide RequestDigest, Precheck;
  }

  lemma InitInv(i: Interface)
    ensures Inv(i, Init())
  {
  }

  /** The store moves on, or one handler moves on without a new row or answer. */
  lemma QuietStep(i: Interface, s: System, t: System)
    requires Inv(i, s) && Consistent(t.store) && Extends(s.store, t.store) && t.store.keys == s.store.keys
    requires SameRows(s.handlers, t.handlers) && SameAnswers(s.handlers, t.handlers)
    requires HandlersOk(i, t.store, t.handlers)
    requires t.sends == s.sends && HubOk(t.sends, t.log, t.sockets)
    ensures Inv(i, t)
  {
    hide RequestDigest, Precheck;
    LedgerStable(i, s.store, s.handlers, t.store, t.handlers);
    PublishedStable(s.store, s.handlers, t.store, t.handlers, s.sends);
  }

  lemma ExtendsSelf(st: Store)
    ensures Extends(st, st)
  {
  }

  lemma QuietHandler(i: Interface, s: System, h: nat, handler: Handler)
    requires Inv(i, s) && HandlerOk(i, s.store, handler)
    requires if h in s.handlers then handler.row == s.handlers[h].row && handler.request == s.handlers[h].request
             else handler.row.None?
    requires h in s.handlers ==> !s.handlers[h].stage.Answered?
    requires !handler.stage.Answered?
    ensures Inv(i, SetHandler(s, h, handler))
  {
    hide Consistent, HandlersOk, HandlerOk, LedgerOk, PublishedOk, HubOk, Extends;
    var hs, hs' := s.handlers, s.handlers[h := handler];
    ExtendsSelf(s.store);
    HandlersSet(i, s.store, hs, h, handler);
    assert SameRows(hs, hs') && SameAnswers(hs, hs');
    QuietStep(i, s, SetHandler(s, h, handler));
  }

  lemma QuietStore(i: Interface, s: System, store: Store)
    requires Inv(i, s) && Consistent(store) && Extends(s.store, store) && store.keys == s.store.keys
    ensures Inv(i, s.(store := store))
  {
    hide RequestDigest, Precheck;
    HandlersStable(i, s.store, store, s.handlers);
    QuietStep(i, s, s.(store := store));
  }

  // ---------------------------------------------------------------- mutate

  /** A replay returns the remembered row. */
  lemma ReplayLinked(i: Interface, st: Store, r: Request)
    requires Precheck(i, r).None? && i.scope(r) in st.keys && st.keys[i.scope(r)].digest == RequestDigest(i, r)
    ensures RowLinked(i, st, r, Replay(st.keys[i.scope(r)]))
  {
    hide RequestDigest, Precheck;
  }

  lemma CommitLinked(i: Interface, st: Store, r: Request, newCase: Uuid, newEvent: Uuid, eventHash: string)
    requires Consistent(st) && newCase !in st.cases && newEvent !in st.events
    requires Precheck(i, r).None? && Commits(i, st, r, newCase)
    ensures Procedure(i, st, r, newCase, newEvent, eventHash).1.Row?
    ensures var (st', reply) := Procedure(i, st, r, newCase, newEvent, eventHash);
            RowLinked(i, st', r, reply.row) && !reply.row.replayed && reply.row.eventId == newEvent
  {
    hide RequestDigest, Precheck;
    PlanContinues(i, st, r, newCase);
  }

  lemma OwnEventsAdd(i: Interface, st: Store, hs: map<nat, Handler>, h: nat, handler: Handler)
    requires OwnEvents(hs) && HandlersOk(i, st, hs) && KeysOk(st)
    requires Committed(handler) && handler.row.value.eventId !in st.events
    ensures OwnEvents(hs[h := handler])
  {
    hide RequestDigest, Precheck;
    forall g | g in hs && Committed(hs[g]) ensures hs[g].row.value.eventId in st.events {
      assert HandlerOk(i, st, hs[g]);
    }
  }

  lemma RotationsAdd(i: Interface, st: Store, hs: map<nat, Handler>, h: nat, handler: Handler)
    requires RotationsOrdered(hs) && RotationsBelow(st, hs) && HandlersOk(i, st, hs) && Consistent(st)
    requires h in hs && hs[h].row.None? && Committed(handler)
    requires handler.request.op.Rotate? ==>
               var op := handler.request.op;
               && op.caseId in st.cases && st.cases[op.caseId].objectKeyVersion.Some?
               && st.cases[op.caseId].objectKeyVersion.value < op.document.keyVersion
               && handler.row.value.caseVersion == st.cases[op.caseId].version + 1
    ensures RotationsOrdered(hs[h := handler])
  {
    hide RequestDigest, Precheck;
    var hs' := hs[h := handler];
    forall g, k | g in hs' && k in hs' && RotationBefore(hs'[g], hs'[k])
      ensures hs'[g].request.op.document.keyVersion < hs'[k].request.op.document.keyVersion {
      if k == h {
        assert RotationBelow(st, hs[g]);
      } else {
        LinkedEvent(i, st, hs[k]);
        assert g != h && RotationBefore(hs[g], hs[k]);
      }
    }
  }

  /** What the store looks like around a commit, as far as the ledger cares. */
  lemma CommitFacts(i: Interface, st: Store, r: Request, newCase: Uuid, newEvent: Uuid, eventHash: string)
    requires Consistent(st) && newCase !in st.cases && newEvent !in st.events && Commits(i, st, r, newCase)
    ensures var (st', reply) := Procedure(i, st, r, newCase, newEvent, eventHash);
            && reply.Row? && !reply.row.replayed && reply.row.eventId == newEvent
            && st'.keys.Keys == st.keys.Keys + {i.scope(r)}
            && (r.op.Rotate? ==>
                  && r.op.caseId in st.cases && st.cases[r.op.caseId].objectKeyVersion.Some?
                  && st.cases[r.op.caseId].objectKeyVersion.value < r.op.document.keyVersion
                  && reply.row.caseVersion == st.cases[r.op.caseId].version + 1
                  && r.op.caseId in st'.cases
                  && st'.cases[r.op.caseId].objectKeyVersion == Some(r.op.document.keyVersion))
  {
    hide RequestDigest, Precheck;
  }

  lemma LedgerCommit(i: Interface, s: System, h: nat, handler: Handler,
                     newCase: Uuid, newEvent: Uuid, eventHash: string)
    requires Inv(i, s) && h in s.handlers && s.handlers[h].row.None?
    requires newCase !in s.store.cases && newEvent !in s.store.events
    requires Commits(i, s.store, handler.request, newCase)
    requires var reply := Procedure(i, s.store, handler.request, newCase, newEvent, eventHash).1;
             reply.Row? && handler.row == Some(reply.row)
    ensures LedgerOk(i, Procedure(i, s.store, handler.request, newCase, newEvent, eventHash).0,
                     s.handlers[h := handler])
  {
    hide HandlersOk, PublishedOk, HubOk, Procedure, Commits, RowsOk, EventsOk, KeysOk, VersionsDense,
         OwnEvents, Authored, RotationsOrdered, Extends;
    var st, hs, r := s.store, s.handlers, handler.request;
    var st' := Procedure(i, st, r, newCase, newEvent, eventHash).0;
    CommitFacts(i, st, r, newCase, newEvent, eventHash);
    CommitKeepsConsistent(i, st, r, newCase, newEvent, eventHash);
    OwnEventsAdd(i, st, hs, h, handler);
    RotationsAdd(i, st, hs, h, handler);
    RotationsBelowStable(st, st', hs);
    AuthoredAdd(i, st, st', hs, h, handler);
  }

  lemma AuthoredAdd(i: Interface, st: Store, st': Store, hs: map<nat, Handler>, h: nat, handler: Handler)
    requires Authored(i, st, hs) && h in hs && hs[h].row.None? && Committed(handler)
    requires st'.keys.Keys == st.keys.Keys + {i.scope(handler.request)}
    ensures Authored(i, st', hs[h := handler])
  {
    var hs' := hs[h := handler];
    forall key | key in st'.keys ensures exists g :: Author(i, hs', g, key) {
      if key == i.scope(handler.request) {
        assert Author(i, hs', h, key);
      } else {
        var g :| Author(i, hs, g, key);
        assert Author(i, hs', g, key);
      }
    }
  }

  lemma PublishedCommit(st: Store, hs: map<nat, Handler>, st': Store, h: nat, handler: Handler,
                        sends: seq<TenantEvent>)
    requires PublishedOk(st, hs, sends) && Extends(st, st')
    requires h in hs && hs[h].stage.Ready? && handler.stage.Mutated?
    requires handler.row.Some? && (Committed(handler) ==> handler.row.value.eventId !in st.events)
    ensures PublishedOk(st', hs[h := handler], sends)
  {
    SendsStable(st, st', sends);
    SendersStable(hs, hs[h := handler], sends);
    forall e | e in sends ensures EventKey(e) in st.events {
      assert SendOk(st, e);
    }
  }

  lemma MutateCommitInv(i: Interface, s: System, h: nat, newCase: Uuid, newEvent: Uuid, eventHash: string)
    requires Inv(i, s) && Enabled(s, Mutate(h, newCase, newEvent, eventHash))
    requires Precheck(i, s.handlers[h].request).None? && Commits(i, s.store, s.handlers[h].request, newCase)
    ensures Inv(i, ApplyMutate(i, s, h, newCase, newEvent, eventHash))
  {
    hide Consistent, HandlersOk, HandlerOk, LedgerOk, PublishedOk, HubOk, RequestDigest, RowLinked,
         Procedure, Commits, Extends, Precheck;
    var r := s.handlers[h].request;
    HandlerAt(i, s, h);
    ReadyHasNoRow(i, s.store, s.handlers[h]);
    CommitLinked(i, s.store, r, newCase, newEvent, eventHash);
    CommitKeepsConsistent(i, s.store, r, newCase, newEvent, eventHash);
    var (st', reply) := Procedure(i, s.store, r, newCase, newEvent, eventHash);
    var handler := s.handlers[h].(stage := Mutated, row := Some(reply.row));
    MutatedOk(i, s.store, st', s.handlers[h], handler);
    HandlersStable(i, s.store, st', s.handlers);
    HandlersSet(i, st', s.handlers, h, handler);
    LedgerCommit(i, s, h, handler, newCase, newEvent, eventHash);
    PublishedCommit(s.store, s.handlers, st', h, handler, s.sends);
  }

  /** A replay: a row, but no commit. */
  lemma MutateReplayInv(i: Interface, s: System, h: nat)
    requires Inv(i, s) && InStage(s, h, Ready)
    requires var r := s.handlers[h].request;
             && Precheck(i, r).None? && i.scope(r) in s.store.keys
             && s.store.keys[i.scope(r)].digest == RequestDigest(i, r)
    ensures var handler := s.handlers[h];
            Inv(i, SetHandler(s, h, handler.(stage := Mutated,
                                             row := Some(Replay(s.store.keys[i.scope(handler.request)])))))
  {
    hide Consistent, HandlersOk, HandlerOk, LedgerOk, PublishedOk, HubOk, RequestDigest, Precheck, RowLinked, Extends;
    var before := s.handlers[h];
    var handler := before.(stage := Mutated, row := Some(Replay(s.store.keys[i.scope(before.request)])));
    HandlerAt(i, s, h);
    ReplayLinked(i, s.store, before.request);
    MutatedOk(i, s.store, s.store, before, handler);
    HandlersSet(i, s.store, s.handlers, h, handler);
    ExtendsSelf(s.store);
    PublishedCommit(s.store, s.handlers, s.store, h, handler, s.sends);
    ReadyHasNoRow(i, s.store, before);
    LedgerReplay(i, s.store, s.handlers, h, handler);
  }

  lemma ReadyHasNoRow(i: Interface, st: Store, h: Handler)
    requires HandlerOk(i, st, h) && h.stage.Ready?
    ensures h.row.None?
  {
  }

  lemma MutatedOk(i: Interface, st: Store, st': Store, h: Handler, handler: Handler)
    requires HandlerOk(i, st, h) && h.stage.Ready? && handler.row.Some?
    requires handler == h.(stage := Mutated, row := handler.row)
    requires RowLinked(i, st', handler.request, handler.row.value)
    ensures HandlerOk(i, st', handler)
  {
    hide RowLinked, SnapshotOk, ResultOk;
  }

  lemma LedgerReplay(i: Interface, st: Store, hs: map<nat, Handler>, h: nat, handler: Handler)
    requires LedgerOk(i, st, hs) && h in hs && hs[h].row.None? && !Committed(handler)
    ensures LedgerOk(i, st, hs[h := handler])
  {
    hide Authored, RotationsOrdered;
    AuthoredReplay(i, st, hs, h, handler);
    RotationsReplay(hs, h, handler);
  }

  lemma AuthoredReplay(i: Interface, st: Store, hs: map<nat, Handler>, h: nat, handler: Handler)
    requires Authored(i, st, hs) && h in hs && hs[h].row.None?
    ensures Authored(i, st, hs[h := handler])
  {
    var hs' := hs[h := handler];
    forall key | key in st.keys ensures exists g :: Author(i, hs', g, key) {
      var g :| Author(i, hs, g, key);
      assert Author(i, hs', g, key);
    }
  }

  lemma RotationsReplay(hs: map<nat, Handler>, h: nat, handler: Handler)
    requires RotationsOrdered(hs) && h in hs && !Committed(handler)
    ensures RotationsOrdered(hs[h := handler])
  {
    var hs' := hs[h := handler];
    forall g, k | g in hs' && k in hs' && RotationBefore(hs'[g], hs'[k])
      ensures hs'[g].request.op.document.keyVersion < hs'[k].request.op.document.keyVersion {
      assert g != h && k != h;
      assert RotationBefore(hs[g], hs[k]);
    }
  }

  lemma MutateInv(i: Interface, s: System, h: nat, newCase: Uuid, newEvent: Uuid, eventHash: string)
    requires Inv(i, s) && Enabled(s, Mutate(h, newCase, newEvent, eventHash))
    ensures Inv(i, ApplyMutate(i, s, h, newCase, newEvent, eventHash))
  {
    hide Inv, HandlerOk, Precheck, RequestDigest, Plan;
    var handler := s.handlers[h];
    var r := handler.request;
    HandlerAt(i, s, h);
    FailedOk(i, s.store, handler);
    if Precheck(i, r).Some? {
      QuietHandler(i, s, h, Fail(handler, Precheck(i, r).value));
    } else if Commits(i, s.store, r, newCase) {
      MutateCommitInv(i, s, h, newCase, newEvent, eventHash);
    } else if i.scope(r) in s.store.keys && s.store.keys[i.scope(r)].digest == RequestDigest(i, r) {
      MutateReplayInv(i, s, h);
    } else {
      var reply := Procedure(i, s.store, r, newCase, newEvent, eventHash).1;
      QuietHandler(i, s, h, Fail(handler, reply.error));
    }
  }

  lemma FailedOk(i: Interface, st: Store, h: Handler)
    requires HandlerOk(i, st, h)
    ensures forall error :: HandlerOk(i, st, Fail(h, error))
  {
    hide RowLinked, SnapshotOk, ResultOk;
  }

  // ---------------------------------------------------------------- the two reads

  /** In a reachable store a visible case always decodes. */
  lemma GetCaseDecodes(st: Store, tenant: Uuid, id: Uuid)
    requires RowsOk(st)
    ensures GetCase(st, tenant, id).Err? ==> GetCase(st, tenant, id).error == NotFound
    ensures GetCase(st, tenant, id).Ok? <==> Visible(st, tenant, id)
  {
    if id in st.cases {
      assert RowOk(st.cases[id]);
    }
  }

  lemma LoadedSnapshotOk(i: Interface, st: Store, h: Handler)
    requires KeysOk(st) && EventsOk(st) && HandlerOk(i, st, h) && h.row.Some?
    requires GetCase(st, h.request.tenant, h.row.value.caseId).Ok?
    ensures SnapshotOk(st, h.request, h.row.value, GetCase(st, h.request.tenant, h.row.value.caseId).value)
  {
    hide RequestDigest, Precheck;
    LinkedEvent(i, st, h);
  }

  lemma LoadCaseInv(i: Interface, s: System, h: nat)
    requires Inv(i, s) && Enabled(s, LoadCase(h))
    ensures Inv(i, ApplyLoadCase(s, h))
  {
    hide Inv, RowsOk, VersionsDense, KeysOk, EventsOk, HandlerOk, GetCase;
    var handler := s.handlers[h];
    HandlerAt(i, s, h);
    StoreParts(i, s);
    LoadedOk(i, s.store, handler);
    match GetCase(s.store, handler.request.tenant, handler.row.value.caseId)
    case Err(error) => QuietHandler(i, s, h, Fail(handler, error));
    case Ok(snapshot) => QuietHandler(i, s, h, handler.(stage := Loaded, snapshot := Some(snapshot)));
  }

  lemma LoadedOk(i: Interface, st: Store, h: Handler)
    requires KeysOk(st) && EventsOk(st) && HandlerOk(i, st, h) && h.row.Some? && h.stage.Mutated?
    ensures match GetCase(st, h.request.tenant, h.row.value.caseId)
            case Err(error) => HandlerOk(i, st, Fail(h, error))
            case Ok(snapshot) => HandlerOk(i, st, h.(stage := Loaded, snapshot := Some(snapshot)))
  {
    hide RowLinked, ResultOk, SnapshotOk, KeysOk, EventsOk, GetCase;
    FailedOk(i, st, h);
    if GetCase(st, h.request.tenant, h.row.value.caseId).Ok? {
      LoadedSnapshotOk(i, st, h);
      LoadedHandlerOk(i, st, h, GetCase(st, h.request.tenant, h.row.value.caseId).value);
    }
  }

  lemma StoreParts(i: Interface, s: System)
    requires Inv(i, s)
    ensures RowsOk(s.store) && EventsOk(s.store) && VersionsDense(s.store) && KeysOk(s.store)
  {
  }

  lemma LoadedHandlerOk(i: Interface, st: Store, h: Handler, snapshot: PersistedCase)
    requires HandlerOk(i, st, h) && h.row.Some? && SnapshotOk(st, h.request, h.row.value, snapshot)
    requires h.stage.Mutated?
    ensures HandlerOk(i, st, h.(stage := Loaded, snapshot := Some(snapshot)))
  {
    hide RequestDigest, Precheck;
  }

  /** Once the case was read, the tenant-scoped event read finds its row. */
  lemma EventReadNeverMisses(i: Interface, s: System, h: nat)
    requires Inv(i, s) && h in s.handlers && s.handlers[h].snapshot.Some?
    ensures s.handlers[h].row.Some?
    ensures EventReadable(s.store, s.handlers[h].request.tenant, s.handlers[h].row.value.eventId)
  {
    hide RequestDigest, Precheck;
    var handler := s.handlers[h];
    assert HandlerOk(i, s.store, handler);
    LinkedEvent(i, s.store, handler);
  }

  lemma LoadEventInv(i: Interface, s: System, h: nat)
    requires Inv(i, s) && Enabled(s, LoadEvent(h))
    ensures Inv(i, ApplyLoadEvent(s, h))
  {
    hide Inv, HandlerOk;
    EventReadNeverMisses(i, s, h);
    HandlerAt(i, s, h);
    var handler := s.handlers[h];
    var row := handler.row.value;
    var receipt := ReceiptFor(row.eventId, s.store.events[row.eventId], row.eventHash);
    var result := MutationResult(handler.snapshot.value, receipt, row.replayed);
    AssembledOk(i, s.store, handler, result);
    QuietHandler(i, s, h, handler.(stage := Assembled, result := Some(result)));
  }

  lemma AssembledOk(i: Interface, st: Store, h: Handler, result: MutationResult)
    requires HandlerOk(i, st, h) && h.snapshot.Some?
    requires ResultOk(st, h.request, h.row.value, h.snapshot.value, result)
    ensures HandlerOk(i, st, h.(stage := Assembled, result := Some(result)))
  {
    hide RowLinked, SnapshotOk, ResultOk;
  }

  // ---------------------------------------------------------------- publish

  /** The envelope a handler builds agrees with its receipt and with the committed event. */
  lemma EnvelopeOk(i: Interface, st: Store, h: Handler)
    requires KeysOk(st) && EventsOk(st) && HandlerOk(i, st, h) && h.result.Some?
    ensures SendOk(st, Envelope(h.result.value))
    ensures EventKey(Envelope(h.result.value)) == h.row.value.eventId
  {
    hide RequestDigest, Precheck;
    LinkedEvent(i, st, h);
  }

  lemma PublishedSend(i: Interface, st: Store, hs: map<nat, Handler>, sends: seq<TenantEvent>, h: nat)
    requires PublishedOk(st, hs, sends) && OwnEvents(hs)
    requires h in hs && Committed(hs[h]) && hs[h].stage.Assembled? && hs[h].result.Some?
    requires var e := Envelope(hs[h].result.value); SendOk(st, e) && EventKey(e) == hs[h].row.value.eventId
    ensures PublishedOk(st, hs[h := hs[h].(stage := Answered)], sends + [Envelope(hs[h].result.value)])
  {
    var e := Envelope(hs[h].result.value);
    var hs', sends' := hs[h := hs[h].(stage := Answered)], sends + [e];
    forall f | f in sends' ensures exists g :: Sender(hs', g, f) {
      if f in sends {
        var g :| Sender(hs, g, f);
        assert Sender(hs', g, f);
      } else {
        assert Sender(hs', h, f);
      }
    }
    forall a, b | 0 <= a < b < |sends'| ensures EventKey(sends'[a]) != EventKey(sends'[b]) {
      assert sends'[a] in sends;
    }
  }

  lemma PublishedQuietAnswer(st: Store, hs: map<nat, Handler>, sends: seq<TenantEvent>, h: nat)
    requires PublishedOk(st, hs, sends) && h in hs && !Committed(hs[h])
    ensures PublishedOk(st, hs[h := hs[h].(stage := Answered)], sends)
  {
    var hs' := hs[h := hs[h].(stage := Answered)];
    forall f | f in sends ensures exists g :: Sender(hs', g, f) {
      var g :| Sender(hs, g, f);
      assert Sender(hs', g, f);
    }
  }

  lemma HubPublish(sends: seq<TenantEvent>, log: seq<TenantEvent>, sockets: map<nat, Socket>, e: TenantEvent)
    requires HubOk(sends, log, sockets)
    ensures HubOk(sends + [e], log + [e], sockets) && HubOk(sends + [e], log, sockets)
  {
    SubsequenceBoth(log, sends, e);
    SubsequenceGrow(log, sends, e);
    forall k | k in sockets ensures SocketOk(log + [e], sockets[k]) {
      PublishKeepsSocketOk(log, sockets[k], e);
    }
  }

  lemma PublishInv(i: Interface, s: System, h: nat)
    requires Inv(i, s) && Enabled(s, Publish(h))
    ensures Inv(i, ApplyPublish(s, h))
  {
    hide HandlerOk, Consistent, HandlersOk, LedgerOk, PublishedOk, HubOk, SendOk, SameRows, OwnEvents, Extends;
    var handler := s.handlers[h];
    var answered := handler.(stage := Answered);
    PublishFacts(i, s, h);
    SameRowsSet(s.handlers, h, answered);
    HandlersSet(i, s.store, s.handlers, h, answered);
    ExtendsSelf(s.store);
    LedgerStable(i, s.store, s.handlers, s.store, s.handlers[h := answered]);
    if Committed(handler) {
      PublishedSend(i, s.store, s.handlers, s.sends, h);
      HubPublish(s.sends, s.log, s.sockets, Envelope(handler.result.value));
    } else {
      PublishedQuietAnswer(s.store, s.handlers, s.sends, h);
    }
  }

  lemma SameRowsSet(hs: map<nat, Handler>, h: nat, handler: Handler)
    requires h in hs && handler.row == hs[h].row && handler.request == hs[h].request
    ensures SameRows(hs, hs[h := handler])
  {
  }

  predicate ReadyToPublish(i: Interface, st: Store, h: Handler) {
    && h.row.Some? && h.result.Some? && h.result.value.replayed == h.row.value.replayed
    && SendOk(st, Envelope(h.result.value))
    && EventKey(Envelope(h.result.value)) == h.row.value.eventId
    && HandlerOk(i, st, h.(stage := Answered))
  }

  lemma PublishFacts(i: Interface, s: System, h: nat)
    requires Inv(i, s) && Enabled(s, Publish(h))
    ensures OwnEvents(s.handlers) && ReadyToPublish(i, s.store, s.handlers[h])
  {
    hide Inv, OwnEvents, RequestDigest, Precheck, RowsOk, EventsOk, VersionsDense, KeysOk, RotationsOrdered, Authored;
    HandlerAt(i, s, h);
    StoreParts(i, s);
    LedgerParts(i, s);
    EnvelopeOk(i, s.store, s.handlers[h]);
    AnsweredOk(i, s.store, s.handlers[h]);
  }

  lemma AnsweredOk(i: Interface, st: Store, h: Handler)
    requires HandlerOk(i, st, h) && h.result.Some?
    ensures HandlerOk(i, st, h.(stage := Answered))
  {
    hide RowLinked, SnapshotOk, ResultOk;
  }

  lemma LedgerParts(i: Interface, s: System)
    requires Inv(i, s)
    ensures OwnEvents(s.handlers) && Authored(i, s.store, s.handlers) && RotationsOrdered(s.handlers)
  {
    hide RequestDigest, Precheck;
  }

  // ---------------------------------------------------------------- restart and sockets

  lemma RestartInv(i: Interface, s: System)
    requires Inv(i, s)
    ensures Inv(i, ApplyRestart(s))
  {
    hide HandlersOk, LedgerOk, PublishedOk, Consistent, Extends, SameRows, SameAnswers;
    RestartHandlers(i, s);
    ExtendsSelf(s.store);
    QuietStep(i, s, ApplyRestart(s));
  }

  lemma RestartHandlers(i: Interface, s: System)
    requires Inv(i, s)
    ensures var hs := ApplyRestart(s).handlers;
            HandlersOk(i, s.store, hs) && SameRows(s.handlers, hs) && SameAnswers(s.handlers, hs)
  {
    hide Inv, RowLinked, SnapshotOk, ResultOk;
    var t := ApplyRestart(s);
    forall h | h in t.handlers ensures HandlerOk(i, t.store, t.handlers[h]) {
      HandlerAt(i, s, h);
      if InFlight(s.handlers[h]) {
        StoppedOk(i, s.store, s.handlers[h], t.handlers[h]);
      }
    }
  }

  lemma HubSet(i: Interface, s: System, k: nat, socket: Socket)
    requires Inv(i, s) && SocketOk(s.log, socket)
    ensures Inv(i, s.(sockets := s.sockets[k := socket]))
  {
    hide RequestDigest, Precheck;
  }

  /** Every step of the protocol keeps the invariant. */
  lemma StepInv(i: Interface, s: System, a: Action)
    requires Inv(i, s)
    ensures Inv(i, Next(i, s, a))
  {
    hide Inv, HandlerOk;
    if Enabled(s, a) {
      match a
      case Arrive(h, request) => ArriveInv(i, s, h, request);
      case Mutate(h, newCase, newEvent, eventHash) => MutateInv(i, s, h, newCase, newEvent, eventHash);
      case LoadCase(h) => LoadCaseInv(i, s, h);
      case LoadEvent(h) => LoadEventInv(i, s, h);
      case Publish(h) => PublishInv(i, s, h);
      case Break(h, error) => StopInv(i, s, h, Fail(s.handlers[h], error));
      case Abandon(h) => StopInv(i, s, h, s.handlers[h].(stage := Abandoned));
      case Retention(id, now, recorded) => RetentionInv(i, s, id, now, recorded);
      case LegalHold(id, held) => LegalHoldInv(i, s, id, held);
      case Restart => RestartInv(i, s);
      case Connect(k, sub) => ConnectInv(i, s, k, sub);
      case Pump(k, sendFails) => PumpInv(i, s, k, sendFails);
      case Disconnect(k) => DisconnectInv(i, s, k);
    }
  }

  lemma ArriveInv(i: Interface, s: System, h: nat, request: Request)
    requires Inv(i, s) && h !in s.handlers
    ensures Inv(i, SetHandler(s, h, Handler(request, Ready, None, None, None, None)))
  {
    hide RequestDigest, Precheck;
    QuietHandler(i, s, h, Handler(request, Ready, None, None, None, None));
  }

  lemma StopInv(i: Interface, s: System, h: nat, stopped: Handler)
    requires Inv(i, s) && h in s.handlers && InFlight(s.handlers[h])
    requires stopped.stage.Failed? || stopped.stage.Abandoned?
    requires stopped == s.handlers[h].(stage := stopped.stage, error := stopped.error)
    ensures Inv(i, SetHandler(s, h, stopped))
  {
    hide Inv, HandlerOk;
    HandlerAt(i, s, h);
    StoppedOk(i, s.store, s.handlers[h], stopped);
    QuietHandler(i, s, h, stopped);
  }

  lemma StoppedOk(i: Interface, st: Store, h: Handler, stopped: Handler)
    requires HandlerOk(i, st, h)
    requires stopped.stage.Failed? || stopped.stage.Abandoned?
    requires stopped == h.(stage := stopped.stage, error := stopped.error)
    ensures HandlerOk(i, st, stopped)
  {
    hide RowLinked, SnapshotOk, ResultOk;
  }

  lemma RetentionInv(i: Interface, s: System, id: Uuid, now: Instant, recorded: Option<(Uuid, string)>)
    requires Inv(i, s) && Enabled(s, Retention(id, now, recorded))
    ensures Inv(i, s.(store := Retain(s.store, id, now, recorded)))
  {
    hide HandlersOk, LedgerOk, PublishedOk, HubOk, RowsOk, EventsOk, VersionsDense, KeysOk;
    RetainKeepsConsistent(s.store, id, now, recorded);
    QuietStore(i, s, Retain(s.store, id, now, recorded));
  }

  lemma LegalHoldInv(i: Interface, s: System, id: Uuid, held: bool)
    requires Inv(i, s) && id in s.store.cases
    ensures Inv(i, s.(store := Hold(s.store, id, held)))
  {
    hide HandlersOk, LedgerOk, PublishedOk, HubOk, RowsOk, EventsOk, VersionsDense, KeysOk;
    HoldKeepsConsistent(s.store, id, held);
    QuietStore(i, s, Hold(s.store, id, held));
  }

  lemma ConnectInv(i: Interface, s: System, k: nat, sub: Subscription)
    requires Inv(i, s)
    ensures Inv(i, s.(sockets := s.sockets[k := Opened(sub, s.log)]))
  {
    hide Inv;
    OpenedOk(sub, s.log);
    HubSet(i, s, k, Opened(sub, s.log));
  }

  lemma PumpInv(i: Interface, s: System, k: nat, sendFails: bool)
    requires Inv(i, s) && SocketOpen(s, k)
    ensures Inv(i, s.(sockets := s.sockets[k := Poll(s.log, s.sockets[k], sendFails)]))
  {
    hide Inv;
    SocketAt(i, s, k);
    PollKeepsSocketOk(s.log, s.sockets[k], sendFails);
    HubSet(i, s, k, Poll(s.log, s.sockets[k], sendFails));
  }

  lemma DisconnectInv(i: Interface, s: System, k: nat)
    requires Inv(i, s) && SocketOpen(s, k)
    ensures Inv(i, s.(sockets := s.sockets[k := s.sockets[k].(open := false)]))
  {
    hide Inv;
    SocketAt(i, s, k);
    var closed := s.sockets[k].(open := false);
    assert Window(s.log, closed) == Window(s.log, s.sockets[k]);
    HubSet(i, s, k, closed);
  }

  lemma SocketAt(i: Interface, s: System, k: nat)
    requires Inv(i, s) && k in s.sockets
    ensures SocketOk(s.log, s.sockets[k])
  {
    hide RequestDigest, Precheck;
  }

  /** Every reachable state satisfies the invariant. */
  lemma {:induction false} Reachable(i: Interface, actions: seq<Action>)
    ensures Inv(i, After(i, actions))
    decreases |actions|
  {
    if actions == [] {
      InitInv(i);
    } else {
      Reachable(i, actions[..|actions| - 1]);
      StepInv(i, After(i, actions[..|actions| - 1]), actions[|actions| - 1]);
    }
  }
}
