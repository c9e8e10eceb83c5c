/** What holds of every run of the mutation protocol, for every schedule of actions. */
module CaseTheorems {
  import opened Prelude
  import opened Uuids
  import opened CaseStore
  import opened Fanout
  import opened CaseProtocol
  import opened CaseInvariant
  import Text

  // ---------------------------------------------------------------- growth over a run

  predicate Terminal(h: Handler) {
    h.stage.Answered? || h.stage.Failed? || h.stage.Abandoned?
  }

  predicate HandlerGrows(a: Handler, b: Handler) {
    && a.request == b.request
    && (a.row.Some? ==> b.row == a.row)
    && (a.snapshot.Some? ==> b.snapshot == a.snapshot)
    && (a.result.Some? ==> b.result == a.result)
    && (Terminal(a) ==> b == a)
  }

  ghost predicate HandlersGrow(a: map<nat, Handler>, b: map<nat, Handler>) {
    forall h | h in a :: h in b && HandlerGrows(a[h], b[h])
  }

  /** Later states: the store extends, publications are only added, handlers keep what they learned. */
  ghost predicate Grows(a: System, b: System) {
    && Extends(a.store, b.store)
    && a.sends <= b.sends
    && HandlersGrow(a.handlers, b.handlers)
  }

  lemma GrowsTransitive(a: System, b: System, c: System)
    requires Grows(a, b) && Grows(b, c)
    ensures Grows(a, c)
  {
    hide Extends;
    ExtendsTransitive(a.store, b.store, c.store);
    forall h | h in a.handlers ensures h in c.handlers && HandlerGrows(a.handlers[h], c.handlers[h]) {
      assert HandlerGrows(a.handlers[h], b.handlers[h]) && HandlerGrows(b.handlers[h], c.handlers[h]);
    }
  }

  lemma StoreGrows(i: Interface, s: System, a: Action)
    requires Inv(i, s) && Enabled(s, a)
    ensures Extends(s.store, Apply(i, s, a).store)
  {
    hide Extends, HandlersOk, LedgerOk, PublishedOk, HubOk, Consistent, Precheck, Procedure;
    ExtendsSelf(s.store);
    match a
    case Mutate(h, newCase, newEvent, eventHash) =>
      ProcedureKeepsConsistent(i, s.store, s.handlers[h].request, newCase, newEvent, eventHash);
    case Retention(id, now, recorded) => RetainKeepsConsistent(s.store, id, now, recorded);
    case LegalHold(id, held) => HoldKeepsConsistent(s.store, id, held);
    case _ =>
  }

  lemma HandlersGrowSelf(hs: map<nat, Handler>)
    ensures HandlersGrow(hs, hs)
  {
  }

  lemma HandlersGrowSet(hs: map<nat, Handler>, h: nat, handler: Handler)
    requires h in hs ==> HandlerGrows(hs[h], handler)
    ensures HandlersGrow(hs, hs[h := handler])
  {
  }

  /** One step of a handler changes only what it did not know yet. */
  lemma HandlersStep(i: Interface, s: System, a: Action)
    requires Inv(i, s) && Enabled(s, a)
    ensures HandlersGrow(s.handlers, Apply(i, s, a).handlers)
  {
    hide Inv, HandlersGrow, Precheck, Procedure, GetCase, EventReadable;
    HandlersGrowSelf(s.handlers);
    match a
    case Arrive(h, _) => HandlersGrowSet(s.handlers, h, Apply(i, s, a).handlers[h]);
    case Mutate(h, _, _, _) => HandlerFresh(i, s, h); HandlersGrowSet(s.handlers, h, Apply(i, s, a).handlers[h]);
    case LoadCase(h) => HandlerFresh(i, s, h); HandlersGrowSet(s.handlers, h, Apply(i, s, a).handlers[h]);
    case LoadEvent(h) => HandlerFresh(i, s, h); HandlersGrowSet(s.handlers, h, Apply(i, s, a).handlers[h]);
    case Publish(h) => HandlersGrowSet(s.handlers, h, Apply(i, s, a).handlers[h]);
    case Break(h, _) => HandlersGrowSet(s.handlers, h, Apply(i, s, a).handlers[h]);
    case Abandon(h) => HandlersGrowSet(s.handlers, h, Apply(i, s, a).handlers[h]);
    case Restart => RestartGrows(s);
    case _ =>
  }

  lemma RestartGrows(s: System)
    ensures HandlersGrow(s.handlers, ApplyRestart(s).handlers)
  {
  }

  /** A handler has not yet learned what its next step will tell it. */
  lemma HandlerFresh(i: Interface, s: System, h: nat)
    requires Inv(i, s) && h in s.handlers
    ensures var handler := s.handlers[h];
            && (handler.stage.Ready? ==> handler.row.None? && handler.snapshot.None? && handler.result.None?)
            && (handler.stage.Mutated? ==> handler.snapshot.None? && handler.result.None?)
            && (handler.stage.Loaded? ==> handler.result.None?)
  {
    hide Inv, RowLinked, SnapshotOk, ResultOk;
    HandlerAt(i, s, h);
  }

  lemma StepGrows(i: Interface, s: System, a: Action)
    requires Inv(i, s)
    ensures Grows(s, Next(i, s, a))
  {
    hide Inv, Extends, HandlersGrow, Precheck, Procedure, GetCase, EventReadable;
    ExtendsSelf(s.store);
    HandlersGrowSelf(s.handlers);
    if Enabled(s, a) {
      StoreGrows(i, s, a);
      HandlersStep(i, s, a);
    }
  }

  /** Over any continuation of any run nothing committed, published or learned is lost or changed. */
  lemma {:induction false} RunsGrow(i: Interface, before: seq<Action>, more: seq<Action>)
    ensures Grows(After(i, before), After(i, before + more))
    decreases |more|
  {
    hide Inv, Grows;
    if more == [] {
      assert before + more == before;
      GrowsSelf(After(i, before));
    } else {
      var all, init := before + more, before + more[..|more| - 1];
      assert all[..|all| - 1] == init;
      RunsGrow(i, before, more[..|more| - 1]);
      Reachable(i, init);
      StepGrows(i, After(i, init), all[|all| - 1]);
      GrowsTransitive(After(i, before), After(i, init), After(i, all));
    }
  }

  lemma GrowsSelf(s: System)
    ensures Grows(s, s)
  {
    hide Extends;
    ExtendsSelf(s.store);
  }

  // ---------------------------------------------------------------- results

  /** A receipt tells what the request did, and when. */
  predicate ReportsRequest(r: Request, receipt: Receipt) {
    && receipt.occurredAt == r.now
    && match r.op
       case Create(_) => receipt.eventType == "case.created" && receipt.caseVersion == 1
       case Transition(id, expected, _) =>
         receipt.eventType == "case.transitioned" && receipt.caseId == id && receipt.caseVersion == expected + 1
       case Rotate(id, expected, _) =>
         receipt.eventType == "case.document_key_rotated" && receipt.caseId == id && receipt.caseVersion == expected + 1
  }

  /**
    Whatever interleaves with the separate reads, a successful result is about one case and its event, both in
    the caller's tenant, the case is at least as new as the event, and the receipt is the recorded event; if the
    result is not a replay, that event is the one the request asked for.
   */
  lemma ResultsAgree(i: Interface, actions: seq<Action>, h: nat)
    requires h in After(i, actions).handlers && After(i, actions).handlers[h].result.Some?
    ensures var s := After(i, actions);
            var r, result := s.handlers[h].request, s.handlers[h].result.value;
            && result.snapshot.id == result.receipt.caseId
            && result.snapshot.tenant == result.receipt.tenant == r.tenant
            && result.snapshot.version >= result.receipt.caseVersion >= 1
            && ReceiptOk(s.store, result.receipt)
            && (!result.replayed ==> ReportsRequest(r, result.receipt))
  {
    hide Inv, RowsOk, VersionsDense, KeysOk, EventsOk, Precheck, RequestDigest;
    var s := After(i, actions);
    Reachable(i, actions);
    HandlerAt(i, s, h);
    StoreParts(i, s);
    LinkedEvent(i, s.store, s.handlers[h]);
  }

  /** A read never meets a row it cannot decode: it fails exactly when the case is not visible. */
  lemma ReadsDecode(i: Interface, actions: seq<Action>, tenant: Uuid, id: Uuid)
    ensures var s := After(i, actions).store;
            GetCase(s, tenant, id) == Err(NotFound) <==> !Visible(s, tenant, id)
    ensures GetCase(After(i, actions).store, tenant, id).Ok? ==>
              GetCase(After(i, actions).store, tenant, id).value.tenant == tenant
    ensures GetCase(After(i, actions).store, tenant, id).Err? ==>
              GetCase(After(i, actions).store, tenant, id).error == NotFound
  {
    hide Inv, VersionsDense, KeysOk, EventsOk;
    Reachable(i, actions);
    StoreParts(i, After(i, actions));
    GetCaseDecodes(After(i, actions).store, tenant, id);
  }

  // ---------------------------------------------------------------- effects

  /** What a reader must see after request `r` commits on case `id`, given what a reader saw before. */
  function Effect(r: Request, id: Uuid, before: Result<PersistedCase, CaseError>): Result<PersistedCase, CaseError> {
    match r.op
    case Create(command) =>
      Ok(PersistedCase(id, r.tenant, 1, command.details, Intake, command.retention, command.retainUntil,
                       false, None, command.document, r.now, r.now))
    case Transition(_, expected, status) =>
      if before.Err? then before
      else Ok(before.value.(version := expected + 1, status := status, updatedAt := r.now))
    case Rotate(_, expected, document) =>
      if before.Err? then before
      else Ok(before.value.(version := expected + 1, document := Some(document), updatedAt := r.now))
  }

  /** A commit met the case it asked for: visible, at the expected version, and open to the change. */
  predicate Expected(i: Interface, r: Request, before: Result<PersistedCase, CaseError>) {
    !r.op.Create? ==>
      && before.Ok? && before.value.version == r.op.expectedVersion
      && (r.op.Transition? ==> i.allowed(before.value.status, r.op.toStatus))
      && (r.op.Rotate? ==>
            before.value.document.Some? && before.value.document.value.keyVersion < r.op.document.keyVersion)
  }

  lemma CommitEffect(i: Interface, s: Store, r: Request, newCase: Uuid, newEvent: Uuid, eventHash: string)
    requires RowsOk(s) && newCase !in s.cases && newEvent !in s.events && Commits(i, s, r, newCase)
    ensures var t := Procedure(i, s, r, newCase, newEvent, eventHash).0;
            var id := if r.op.Create? then newCase else r.op.caseId;
            && Expected(i, r, GetCase(s, r.tenant, id))
            && GetCase(t, r.tenant, id) == Effect(r, id, GetCase(s, r.tenant, id))
            && (forall tenant, other | other != id :: GetCase(t, tenant, other) == GetCase(s, tenant, other))
  {
    hide RequestDigest;
    if !r.op.Create? {
      assert RowOk(s.cases[r.op.caseId]);
    }
  }

  /**
    What is committed is what is read back: in any run, a commit is made only on the case version it expected,
    the next read returns exactly the requested change to what the last read returned, and no other case moves.
   */
  lemma CommitsReadBack(i: Interface, actions: seq<Action>, h: nat, newCase: Uuid, newEvent: Uuid, eventHash: string)
    requires Enabled(After(i, actions), Mutate(h, newCase, newEvent, eventHash))
    requires Committed(Next(i, After(i, actions), Mutate(h, newCase, newEvent, eventHash)).handlers[h])
    ensures var s := After(i, actions).store;
            var t := Next(i, After(i, actions), Mutate(h, newCase, newEvent, eventHash)).store;
            var r := After(i, actions).handlers[h].request;
            var id := if r.op.Create? then newCase else r.op.caseId;
            && Expected(i, r, GetCase(s, r.tenant, id))
            && GetCase(t, r.tenant, id) == Effect(r, id, GetCase(s, r.tenant, id))
            && (forall tenant, other | other != id :: GetCase(t, tenant, other) == GetCase(s, tenant, other))
            && t.events.Keys == s.events.Keys + {newEvent}
            && t.keys.Keys == s.keys.Keys + {i.scope(r)}
  {
    hide Inv, After, Precheck, RowsOk, VersionsDense, KeysOk, EventsOk, GetCase, Procedure, Commits;
    var s := After(i, actions);
    Reachable(i, actions);
    StoreParts(i, s);
    HandlerFresh(i, s, h);
    CommitStep(i, s, Next(i, s, Mutate(h, newCase, newEvent, eventHash)), h, newCase, newEvent, eventHash);
    CommitEffect(i, s.store, s.handlers[h].request, newCase, newEvent, eventHash);
  }

  /** A step that commits is a call of the procedure that adds one event and one key. */
  lemma CommitStep(i: Interface, s: System, t: System, h: nat, newCase: Uuid, newEvent: Uuid, eventHash: string)
    requires InStage(s, h, Ready) && s.handlers[h].row.None?
    requires t == ApplyMutate(i, s, h, newCase, newEvent, eventHash) && h in t.handlers && Committed(t.handlers[h])
    ensures var r := s.handlers[h].request;
            && Commits(i, s.store, r, newCase)
            && t.store == Procedure(i, s.store, r, newCase, newEvent, eventHash).0
            && t.store.events.Keys == s.store.events.Keys + {newEvent}
            && t.store.keys.Keys == s.store.keys.Keys + {i.scope(r)}
  {
    hide Precheck, RequestDigest, Plan;
  }

  /** A mutation step that does not commit leaves the whole store as it was. */
  lemma OnlyCommitsWrite(i: Interface, s: System, h: nat, newCase: Uuid, newEvent: Uuid, eventHash: string)
    requires Enabled(s, Mutate(h, newCase, newEvent, eventHash))
    requires !Committed(Next(i, s, Mutate(h, newCase, newEvent, eventHash)).handlers[h])
    ensures Next(i, s, Mutate(h, newCase, newEvent, eventHash)).store == s.store
  {
    hide Precheck, RequestDigest, Plan;
  }

  /** What the service demands of a mutation before the database is asked. */
  predicate Permitted(i: Interface, r: Request) {
    && r.role != Viewer && (r.op.Rotate? ==> r.role == Administrator)
    && r.key != "" && Text.ByteLength(r.key) <= 200 && (forall c | c in r.key :: !Text.IsControl(c))
    && (r.op.Create? ==> i.validCreate(r.op.command, r.now))
    && (r.op.Rotate? ==> i.validDocument(r.op.document))
    && (!r.op.Create? ==> r.op.expectedVersion >= 1)
  }

  /** No request gets a row, fresh or replayed, unless its role, key and command allow it. */
  lemma EffectsArePermitted(i: Interface, actions: seq<Action>, h: nat)
    requires h in After(i, actions).handlers && After(i, actions).handlers[h].row.Some?
    ensures Permitted(i, After(i, actions).handlers[h].request)
  {
    hide Inv, SnapshotOk, ResultOk, RequestDigest;
    Reachable(i, actions);
    HandlerAt(i, After(i, actions), h);
  }

  /** The service's checks pass exactly the permitted requests. */
  lemma PermittedIff(i: Interface, r: Request)
    ensures Permitted(i, r) <==> Precheck(i, r).None?
  {
  }

  // ---------------------------------------------------------------- publication

  /** No event is ever published twice, and everything published was committed, by exactly one handler. */
  lemma PublishedAtMostOnce(i: Interface, actions: seq<Action>)
    ensures var s := After(i, actions);
            && DistinctBy(EventKey, s.sends)
            && (forall e | e in s.sends :: SendOk(s.store, e))
            && (forall e | e in s.sends :: exists h :: Sender(s.handlers, h, e))
            && (forall e, g, h | Sender(s.handlers, g, e) && Sender(s.handlers, h, e) :: g == h)
  {
    var s := After(i, actions);
    Reachable(i, actions);
    forall e, g, h | Sender(s.handlers, g, e) && Sender(s.handlers, h, e) ensures g == h {
      SenderEvent(i, s, g, e);
      SenderEvent(i, s, h, e);
    }
  }

  lemma SenderEvent(i: Interface, s: System, h: nat, e: TenantEvent)
    requires Inv(i, s) && Sender(s.handlers, h, e)
    ensures s.handlers[h].row.value.eventId == EventKey(e)
  {
    hide Inv, RowLinked, SnapshotOk;
    HandlerAt(i, s, h);
  }

  /** A committed event has been published exactly when the handler that committed it has answered. */
  lemma PublishedIffAnswered(i: Interface, actions: seq<Action>, h: nat)
    requires h in After(i, actions).handlers && Committed(After(i, actions).handlers[h])
    ensures var s := After(i, actions);
            (exists e :: e in s.sends && EventKey(e) == s.handlers[h].row.value.eventId)
            <==> s.handlers[h].stage.Answered?
  {
    hide Extends, HandlersOk, LedgerOk, HubOk, Consistent, SendsOk, RowLinked, SnapshotOk;
    var s := After(i, actions);
    Reachable(i, actions);
    HandlerAt(i, s, h);
    if s.handlers[h].stage.Answered? {
      assert Envelope(s.handlers[h].result.value) in s.sends;
    }
  }

  /** A handler that stopped before its publication decision never publishes, in any continuation. */
  lemma StoppedNeverPublishes(i: Interface, before: seq<Action>, more: seq<Action>, h: nat)
    requires h in After(i, before).handlers && Committed(After(i, before).handlers[h])
    requires After(i, before).handlers[h].stage.Failed? || After(i, before).handlers[h].stage.Abandoned?
    ensures forall e | e in After(i, before + more).sends ::
              EventKey(e) != After(i, before).handlers[h].row.value.eventId
  {
    hide Extends, HandlersOk, LedgerOk, HubOk, Consistent, SendsOk, SendersOk;
    RunsGrow(i, before, more);
    Reachable(i, before + more);
    assert HandlerGrows(After(i, before).handlers[h], After(i, before + more).handlers[h]);
  }

  lemma CommittedVisible(i: Interface, s: System, h: nat)
    requires Inv(i, s) && h in s.handlers && Committed(s.handlers[h])
    ensures var m := s.handlers[h].row.value;
            && m.caseId in s.store.cases
            && (Visible(s.store, s.handlers[h].request.tenant, m.caseId)
                <==> s.store.cases[m.caseId].tombstonedAt.None?)
  {
    hide Inv, RowsOk, VersionsDense, KeysOk, EventsOk, Precheck, RequestDigest, SnapshotOk, ResultOk;
    HandlerAt(i, s, h);
    StoreParts(i, s);
    LinkedEvent(i, s.store, s.handlers[h]);
  }

  /** A concrete schedule for every valid create: retention between commit and read loses the publication. */
  lemma PublicationCanBeLost(i: Interface, r: Request, caseId: Uuid, eventId: Uuid, eventHash: string)
    requires r.op.Create? && Precheck(i, r).None?
    ensures var s := After(i, [Arrive(0, r), Mutate(0, caseId, eventId, eventHash),
                               Retention(caseId, r.op.command.retainUntil, None), LoadCase(0)]);
            && 0 in s.handlers && eventId in s.store.events && s.sends == []
            && s.handlers[0].error == Some(NotFound) && Committed(s.handlers[0])
  {
    hide After, Next, Precheck;
    var a0, a1 := Arrive(0, r), Mutate(0, caseId, eventId, eventHash);
    var a2, a3 := Retention(caseId, r.op.command.retainUntil, None), LoadCase(0);
    AfterNothing(i);
    AfterAppend(i, [], a0);
    AfterAppend(i, [a0], a1);
    AfterAppend(i, [a0, a1], a2);
    AfterAppend(i, [a0, a1, a2], a3);
    assert [] + [a0] == [a0] && [a0] + [a1] == [a0, a1] && [a0, a1] + [a2] == [a0, a1, a2];
    assert [a0, a1, a2] + [a3] == [a0, a1, a2, a3];
    CreateCommits(i, r, caseId, eventId, eventHash);
    RetentionHidesCase(i, After(i, [a0, a1]), r, caseId, eventId);
  }

  lemma CreateCommits(i: Interface, r: Request, caseId: Uuid, eventId: Uuid, eventHash: string)
    requires r.op.Create? && Precheck(i, r).None?
    ensures var s := Next(i, Next(i, Init(), Arrive(0, r)), Mutate(0, caseId, eventId, eventHash));
            && s.store.cases == map[caseId := NewRow(r, r.op.command)]
            && eventId in s.store.events && s.sends == [] && InStage(s, 0, Mutated)
            && s.handlers[0].row == Some(MutationRow(caseId, 1, eventId, eventHash, false))
  {
    hide Precheck, RequestDigest;
  }

  lemma RetentionHidesCase(i: Interface, s: System, r: Request, caseId: Uuid, eventId: Uuid)
    requires r.op.Create? && s.store.cases == map[caseId := NewRow(r, r.op.command)]
    requires eventId in s.store.events && InStage(s, 0, Mutated) && Committed(s.handlers[0])
    requires s.handlers[0].row.value.caseId == caseId
    ensures var t := Next(i, Next(i, s, Retention(caseId, r.op.command.retainUntil, None)), LoadCase(0));
            && 0 in t.handlers && eventId in t.store.events && t.sends == s.sends
            && t.handlers[0].error == Some(NotFound) && Committed(t.handlers[0])
  {
    hide Precheck, Procedure, CaseFromRow;
    assert RetentionDue(s.store, caseId, r.op.command.retainUntil);
  }

  lemma AfterNothing(i: Interface)
    ensures After(i, []) == Init()
  {
  }

  lemma AfterAppend(i: Interface, actions: seq<Action>, a: Action)
    ensures After(i, actions + [a]) == Next(i, After(i, actions), a)
  {
    assert (actions + [a])[..|actions|] == actions;
  }

  // ---------------------------------------------------------------- idempotency

  /** Calls under one key that got a row got the same case and event, for the same request, from one commit. */
  lemma OneEffectPerKey(i: Interface, actions: seq<Action>, g: nat, h: nat)
    requires var s := After(i, actions);
             && g in s.handlers && h in s.handlers
             && s.handlers[g].row.Some? && s.handlers[h].row.Some?
             && i.scope(s.handlers[g].request) == i.scope(s.handlers[h].request)
    ensures var s := After(i, actions);
            var a, b := s.handlers[g], s.handlers[h];
            && a.row.value.(replayed := true) == b.row.value.(replayed := true)
            && (Committed(a) && Committed(b) ==> g == h)
            && (CollisionFree(i) ==> a.request.op == b.request.op)
  {
    var s := After(i, actions);
    Reachable(i, actions);
    SameKeySameRow(i, s, g, h);
    if CollisionFree(i) {
      HashInputInjective(s.handlers[g].request.op, s.handlers[h].request.op);
    }
    LedgerParts(i, s);
  }

  lemma SameKeySameRow(i: Interface, s: System, g: nat, h: nat)
    requires Inv(i, s) && g in s.handlers && h in s.handlers
    requires s.handlers[g].row.Some? && s.handlers[h].row.Some?
    requires i.scope(s.handlers[g].request) == i.scope(s.handlers[h].request)
    ensures s.handlers[g].row.value.(replayed := true) == s.handlers[h].row.value.(replayed := true)
    ensures i.digest(HashInput(s.handlers[g].request.op)) == i.digest(HashInput(s.handlers[h].request.op))
  {
    hide Inv, Precheck, SnapshotOk, ResultOk, HashInput;
    HandlerAt(i, s, g);
    HandlerAt(i, s, h);
  }

  /** Every remembered key has exactly one handler that committed under it. */
  lemma ExactlyOneCommit(i: Interface, actions: seq<Action>, key: string)
    requires key in After(i, actions).store.keys
    ensures var hs := After(i, actions).handlers;
            && (exists h :: Author(i, hs, h, key))
            && (forall g, h | Author(i, hs, g, key) && Author(i, hs, h, key) :: g == h)
  {
    hide Inv;
    var s := After(i, actions);
    Reachable(i, actions);
    LedgerParts(i, s);
    forall g, h | Author(i, s.handlers, g, key) && Author(i, s.handlers, h, key) ensures g == h {
      SameKeySameRow(i, s, g, h);
    }
  }

  /** A retry of a request that got a row gets that row again, marked replayed, and changes nothing. */
  lemma RetryReplays(i: Interface, actions: seq<Action>, g: nat, h: nat,
                     newCase: Uuid, newEvent: Uuid, eventHash: string)
    requires var s := After(i, actions);
             && g in s.handlers && h in s.handlers && s.handlers[h].row.Some?
             && i.scope(s.handlers[g].request) == i.scope(s.handlers[h].request)
             && s.handlers[g].request.op == s.handlers[h].request.op
             && Enabled(s, Mutate(g, newCase, newEvent, eventHash))
             && Precheck(i, s.handlers[g].request).None?
    ensures var s := After(i, actions);
            var t := Next(i, s, Mutate(g, newCase, newEvent, eventHash));
            && t.store == s.store
            && t.handlers[g].row == Some(s.handlers[h].row.value.(replayed := true))
  {
    hide Inv, Precheck, SnapshotOk, ResultOk, HashInput;
    Reachable(i, actions);
    HandlerAt(i, After(i, actions), h);
  }

  /** A different request under a used key is refused as a conflict and changes nothing. */
  lemma ReusedKeyConflicts(i: Interface, actions: seq<Action>, g: nat, h: nat,
                           newCase: Uuid, newEvent: Uuid, eventHash: string)
    requires CollisionFree(i)
    requires var s := After(i, actions);
             && g in s.handlers && h in s.handlers && s.handlers[h].row.Some?
             && i.scope(s.handlers[g].request) == i.scope(s.handlers[h].request)
             && s.handlers[g].request.op != s.handlers[h].request.op
             && Enabled(s, Mutate(g, newCase, newEvent, eventHash))
             && Precheck(i, s.handlers[g].request).None?
    ensures var s := After(i, actions);
            var t := Next(i, s, Mutate(g, newCase, newEvent, eventHash));
            && t.store == s.store && t.sends == s.sends
            && t.handlers[g] == Fail(s.handlers[g], IdempotencyConflict)
  {
    hide Inv, Precheck, SnapshotOk, ResultOk, HashInput;
    var s := After(i, actions);
    Reachable(i, actions);
    HandlerAt(i, s, h);
    var x, y := s.handlers[g].request.op, s.handlers[h].request.op;
    if HashInput(x) == HashInput(y) {
      HashInputInjective(x, y);
      assert false;
    }
  }

  // ---------------------------------------------------------------- versions

  /** In every reachable store a case's events carry exactly the versions 1 to the row's version, once each. */
  lemma EventsNumberVersions(i: Interface, actions: seq<Action>, caseId: Uuid)
    requires caseId in After(i, actions).store.cases
    ensures var st := After(i, actions).store;
            && st.cases[caseId].version >= 1
            && (forall v: int :: 1 <= v <= st.cases[caseId].version <==> HasEvent(st, caseId, v))
            && (forall d, e, v: int | EventAt(st, d, caseId, v) && EventAt(st, e, caseId, v) :: d == e)
  {
    hide Inv;
    Reachable(i, actions);
    StoreParts(i, After(i, actions));
    var st := After(i, actions).store;
    assert RowOk(st.cases[caseId]);
    forall v: int | HasEvent(st, caseId, v) ensures 1 <= v <= st.cases[caseId].version {
      var e :| EventAt(st, e, caseId, v);
      assert EventOk(st, st.events[e]);
    }
  }

  /** Of any number of mutations racing on one expected version of a case, at most one commits. */
  lemma RacesHaveOneWinner(i: Interface, actions: seq<Action>, g: nat, h: nat)
    requires var hs := After(i, actions).handlers;
             && g in hs && h in hs && Committed(hs[g]) && Committed(hs[h])
             && !hs[g].request.op.Create? && !hs[h].request.op.Create?
             && hs[g].request.op.caseId == hs[h].request.op.caseId
             && hs[g].request.op.expectedVersion == hs[h].request.op.expectedVersion
    ensures g == h
  {
    hide Inv, RowsOk, KeysOk, EventsOk, Precheck, RequestDigest, SnapshotOk, ResultOk;
    var s := After(i, actions);
    Reachable(i, actions);
    StoreParts(i, s);
    LedgerParts(i, s);
    HandlerAt(i, s, g);
    HandlerAt(i, s, h);
    LinkedEvent(i, s.store, s.handlers[g]);
    LinkedEvent(i, s.store, s.handlers[h]);
  }

  /** Successive key rotations of a case carry strictly increasing key versions. */
  lemma RotationsIncreaseKeyVersion(i: Interface, actions: seq<Action>, g: nat, h: nat)
    requires var hs := After(i, actions).handlers;
             && g in hs && h in hs && g != h && Rotation(hs[g]) && Rotation(hs[h])
             && hs[g].request.op.caseId == hs[h].request.op.caseId
    ensures var hs := After(i, actions).handlers;
            var a, b := hs[g], hs[h];
            && a.row.value.caseVersion != b.row.value.caseVersion
            && (a.row.value.caseVersion < b.row.value.caseVersion <==>
                a.request.op.document.keyVersion < b.request.op.document.keyVersion)
  {
    hide Inv, OwnEvents, Authored, Precheck, RequestDigest, SnapshotOk, ResultOk;
    var s := After(i, actions);
    Reachable(i, actions);
    LedgerParts(i, s);
    HandlerAt(i, s, g);
    HandlerAt(i, s, h);
    if s.handlers[g].request.op.expectedVersion == s.handlers[h].request.op.expectedVersion {
      RacesHaveOneWinner(i, actions, g, h);
    }
    assert RotationBefore(s.handlers[g], s.handlers[h]) || RotationBefore(s.handlers[h], s.handlers[g]);
  }

  // ---------------------------------------------------------------- sockets

  /**
    On every socket: an order-preserving, duplicate-free part of the published events, its whole filtered
    window if and only if it missed nothing, each receipt itself in the subscribed tenant and case.
   */
  lemma SocketsReceiveTheirEvents(i: Interface, actions: seq<Action>, k: nat)
    requires k in After(i, actions).sockets
    ensures var s := After(i, actions);
            var socket := s.sockets[k];
            && SocketOk(s.log, socket)
            && (socket.delivered == Window(s.log, socket) <==> socket.missed == 0)
            && (socket.missed == 0 ==> SentExactly(s.log, socket))
            && Subsequence(socket.delivered, s.sends)
            && DistinctBy(EventKey, socket.delivered)
            && forall e | e in socket.delivered ::
                 && e.receipt.tenant == socket.sub.tenant
                 && (socket.sub.caseId.Some? ==> e.receipt.caseId == socket.sub.caseId.value)
                 && SendOk(s.store, e)
  {
    hide Extends, HandlersOk, LedgerOk, Consistent, SendersOk, Unsent;
    var s := After(i, actions);
    var socket := s.sockets[k];
    Reachable(i, actions);
    SocketAt(i, s, k);
    DeliveredFromLog(s.log, socket);
    ExactUnlessMissed(s.log, socket);
    SubsequenceTransitive(socket.delivered, s.log, s.sends);
    SubsequenceDistinct(EventKey, socket.delivered, s.sends);
    forall e | e in socket.delivered
      ensures e in s.sends {
      SubsequenceMember(socket.delivered, s.sends, e);
    }
  }
}
