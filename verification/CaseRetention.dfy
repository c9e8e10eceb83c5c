/** Retention and legal hold, over every run: what a sweep takes, what it must leave, and why a case is gone. */
module CaseRetention {
  import opened Prelude
  import opened Uuids
  import opened CaseStore
  import opened CaseProtocol
  import opened CaseInvariant
  import opened CaseOutcomes

  /** What one action may do to the retention state of a stored case. */
  predicate RetentionStep(p: CaseRow, q: CaseRow, a: Action, id: Uuid) {
    && q.retainUntil == p.retainUntil
    && q.legalHold == (if a.LegalHold? && a.id == id then a.held else p.legalHold)
    && (p.tombstonedAt.Some? ==> q.tombstonedAt == p.tombstonedAt)
    && (p.tombstonedAt.None? && q.tombstonedAt.Some? ==>
          a.Retention? && a.id == id && !p.legalHold && p.retainUntil <= a.now && q.tombstonedAt == Some(a.now))
  }

  lemma ProcedureRow(i: Interface, s: Store, r: Request, newCase: Uuid, newEvent: Uuid, eventHash: string, id: Uuid)
    requires id in s.cases && newCase !in s.cases
    ensures var t := Procedure(i, s, r, newCase, newEvent, eventHash).0;
            && id in t.cases
            && t.cases[id].retainUntil == s.cases[id].retainUntil && t.cases[id].legalHold == s.cases[id].legalHold
            && t.cases[id].tombstonedAt == s.cases[id].tombstonedAt
  {
    hide RequestDigest;
  }

  lemma RowStep(i: Interface, s: System, a: Action, id: Uuid)
    requires id in s.store.cases
    ensures var t := Next(i, s, a).store;
            id in t.cases && RetentionStep(s.store.cases[id], t.cases[id], a, id)
  {
    hide Next;
    if !Enabled(s, a) || !(a.Mutate? || a.Retention? || a.LegalHold?) {
      StoreUntouched(i, s, a);
    } else if a.Mutate? {
      MutateRow(i, s, a, id);
    } else {
      OperatorRow(i, s, a, id);
    }
  }

  lemma StoreUntouched(i: Interface, s: System, a: Action)
    requires !Enabled(s, a) || !(a.Mutate? || a.Retention? || a.LegalHold?)
    ensures Next(i, s, a).store == s.store
  {
    hide ApplyMutate, GetCase, EventReadable, Envelope;
  }

  lemma OperatorRow(i: Interface, s: System, a: Action, id: Uuid)
    requires id in s.store.cases && (a.Retention? || a.LegalHold?) && Enabled(s, a)
    ensures var t := Next(i, s, a).store;
            id in t.cases && RetentionStep(s.store.cases[id], t.cases[id], a, id)
  {
    hide ApplyMutate, ApplyLoadCase, ApplyLoadEvent, ApplyPublish, ApplyRestart;
  }

  lemma MutateRow(i: Interface, s: System, a: Action, id: Uuid)
    requires id in s.store.cases && a.Mutate? && Enabled(s, a)
    ensures var t := Next(i, s, a).store;
            id in t.cases && RetentionStep(s.store.cases[id], t.cases[id], a, id)
  {
    hide Procedure, Precheck;
    ProcedureRow(i, s.store, s.handlers[a.h].request, a.newCase, a.newEvent, a.eventHash, id);
  }

  /** A held case is kept: no sweep tombstones it until somebody lifts the hold. */
  lemma {:induction false} HeldCasesAreKept(i: Interface, before: seq<Action>, more: seq<Action>, id: Uuid)
    requires id in After(i, before).store.cases
    requires var row := After(i, before).store.cases[id]; row.legalHold && row.tombstonedAt.None?
    requires LegalHold(id, false) !in more
    ensures id in After(i, before + more).store.cases
    ensures var row := After(i, before + more).store.cases[id]; row.legalHold && row.tombstonedAt.None?
    decreases |more|
  {
    hide Next;
    if more == [] {
      assert before + more == before;
    } else {
      var all, init := before + more, before + more[..|more| - 1];
      assert all[..|all| - 1] == init && all[|all| - 1] == more[|more| - 1];
      assert more[|more| - 1] in more;
      HeldCasesAreKept(i, before, more[..|more| - 1], id);
      RowStep(i, After(i, init), all[|all| - 1], id);
    }
  }

  /** Action `n` of the run is the sweep that took the case: it was due then and not held. */
  ghost predicate SweptAt(i: Interface, actions: seq<Action>, id: Uuid, n: nat) {
    && n < |actions| && actions[n].Retention? && actions[n].id == id
    && var s := At(i, actions, n).store;
       && id in s.cases && s.cases[id].tombstonedAt.None? && !s.cases[id].legalHold
       && s.cases[id].retainUntil <= actions[n].now
       && After(i, actions).store.cases.Keys >= {id}
       && After(i, actions).store.cases[id].tombstonedAt == Some(actions[n].now)
  }

  /** Every tombstone was made by one sweep, at a time when the case was due and not held. */
  lemma {:induction false} TombstonesAreDue(i: Interface, actions: seq<Action>, id: Uuid)
    requires id in After(i, actions).store.cases && After(i, actions).store.cases[id].tombstonedAt.Some?
    ensures exists n: nat :: SweptAt(i, actions, id, n)
    decreases |actions|
  {
    hide Next, Inv;
    if actions == [] {
      NothingStored(i);
    } else {
      var init, last := actions[..|actions| - 1], actions[|actions| - 1];
      var s := After(i, init);
      Reachable(i, init);
      if id !in s.store.cases {
        NewCasesLive(i, s, last, id);
      } else {
        RowStep(i, s, last, id);
        assert At(i, actions, |init|) == s;
        if s.store.cases[id].tombstonedAt.Some? {
          TombstonesAreDue(i, init, id);
          var n: nat :| SweptAt(i, init, id, n);
          assert init[..n] == actions[..n];
          assert SweptAt(i, actions, id, n);
        } else {
          assert SweptAt(i, actions, id, |init|);
        }
      }
    }
  }

  lemma NothingStored(i: Interface)
    ensures After(i, []).store.cases == map[]
  {
  }

  lemma NewCasesLive(i: Interface, s: System, a: Action, id: Uuid)
    requires id !in s.store.cases && id in Next(i, s, a).store.cases
    ensures Next(i, s, a).store.cases[id].tombstonedAt.None?
  {
    hide RequestDigest, Precheck, GetCase, EventReadable;
  }

  /** A sweep of a due case makes it unreadable for everyone, drops its document and touches no other case. */
  lemma SweepTakesDueCase(i: Interface, s: System, id: Uuid, now: Instant, recorded: Option<(Uuid, string)>)
    requires id in s.store.cases && s.store.cases[id].tombstonedAt.None? && !s.store.cases[id].legalHold
    requires s.store.cases[id].retainUntil <= now
    requires recorded.Some? ==> recorded.value.0 !in s.store.events
    ensures var t := Next(i, s, Retention(id, now, recorded)).store;
            && t.cases.Keys == s.store.cases.Keys
            && t.cases[id].tombstonedAt == Some(now) && t.cases[id].objectReference == None
            && t.cases[id].ciphertextSha256 == None && t.cases[id].objectKeyVersion == None
            && (forall tenant :: GetCase(t, tenant, id) == Err(NotFound))
            && (forall tenant, other | other != id :: GetCase(t, tenant, other) == GetCase(s.store, tenant, other))
            && t.keys == s.store.keys
  {
    hide CaseFromRow;
  }
}
