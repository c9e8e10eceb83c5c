/**
  What becomes of a mutation, over every run: exactly which schedules publish a committed event, and what each
  error reports.
 */
module CaseOutcomes {
  import opened Prelude
  import opened Uuids
  import opened CaseStore
  import opened Fanout
  import opened CaseProtocol
  import opened CaseInvariant
  import opened CaseTheorems

  /** The state in which action `n` of a run is taken. */
  function At(i: Interface, actions: seq<Action>, n: nat): System
    requires n <= |actions|
  {
    After(i, actions[..n])
  }

  lemma AtNext(i: Interface, actions: seq<Action>, n: nat)
    requires n < |actions|
    ensures At(i, actions, n + 1) == Next(i, At(i, actions, n), actions[n])
  {
    hide Next;
    assert actions[..n + 1][..n] == actions[..n];
  }

  lemma AtEnd(i: Interface, actions: seq<Action>)
    ensures At(i, actions, |actions|) == After(i, actions)
  {
    assert actions[..|actions|] == actions;
  }

  ghost predicate EventPublished(s: System, eventId: Uuid) {
    exists e :: e in s.sends && EventKey(e) == eventId
  }

  // ---------------------------------------------------------------- the stages of a committed mutation

  predicate Cancels(a: Action, h: nat) {
    a == Abandon(h) || a.Restart?
  }

  predicate Untombstoned(s: System, id: Uuid) {
    id in s.store.cases && s.store.cases[id].tombstonedAt.None?
  }

  /** The handler of a committed mutation, one step later. */
  function NextStage(s: System, a: Action, h: nat): Stage
    requires h in s.handlers && s.handlers[h].row.Some?
  {
    var stage := s.handlers[h].stage;
    if Cancels(a, h) && InFlight(s.handlers[h]) then Abandoned
    else if a == Break(h, Storage) && Querying(s.handlers[h]) then Failed
    else if a == LoadCase(h) && stage.Mutated? then
      if Untombstoned(s, s.handlers[h].row.value.caseId) then Loaded else Failed
    else if a == LoadEvent(h) && stage.Loaded? then Assembled
    else if a == Publish(h) && stage.Assembled? then Answered
    else stage
  }

  lemma LoadCaseStage(i: Interface, s: System, h: nat)
    requires Inv(i, s) && InStage(s, h, Mutated) && Committed(s.handlers[h])
    ensures var t := Next(i, s, LoadCase(h)).handlers;
            && h in t && t[h].row == s.handlers[h].row
            && (if Untombstoned(s, s.handlers[h].row.value.caseId) then t[h].stage.Loaded?
                else t[h].stage.Failed? && t[h].error == Some(NotFound))
  {
    hide Inv, RowsOk, VersionsDense, KeysOk, EventsOk, CaseFromRow;
    StoreParts(i, s);
    CommittedVisible(i, s, h);
    GetCaseDecodes(s.store, s.handlers[h].request.tenant, s.handlers[h].row.value.caseId);
  }

  lemma LoadEventStage(i: Interface, s: System, h: nat)
    requires Inv(i, s) && InStage(s, h, Loaded)
    ensures var t := Next(i, s, LoadEvent(h)).handlers;
            h in t && t[h].row == s.handlers[h].row && t[h].stage.Assembled?
  {
    hide Inv, RowLinked, SnapshotOk, ResultOk, EventReadable;
    HandlerAt(i, s, h);
    EventReadNeverMisses(i, s, h);
  }

  /** A mutation step changes no handler but its own. */
  lemma MutateFrame(i: Interface, s: System, a: Action)
    requires a.Mutate? && Enabled(s, a)
    ensures var hs := Next(i, s, a).handlers;
            a.h in hs && hs == s.handlers[a.h := hs[a.h]]
  {
    hide Precheck, Procedure;
  }

  /** Actions that can move handler `h`. */
  predicate Concerns(a: Action, h: nat) {
    || a.Restart?
    || ((a.Arrive? || a.Mutate? || a.LoadCase? || a.LoadEvent? || a.Publish? || a.Break? || a.Abandon?) && a.h == h)
  }

  lemma Unconcerned(i: Interface, s: System, a: Action, h: nat)
    requires h in s.handlers && !Concerns(a, h)
    ensures h in Next(i, s, a).handlers && Next(i, s, a).handlers[h] == s.handlers[h]
  {
    hide GetCase, EventReadable, ApplyMutate, Envelope, Retain, Hold, Poll;
    if a.Mutate? && Enabled(s, a) {
      MutateFrame(i, s, a);
    }
  }

  /** A handler that has its row is moved only by its own steps, cancellation and query failure. */
  lemma StageStep(i: Interface, s: System, a: Action, h: nat)
    requires Inv(i, s) && h in s.handlers && Committed(s.handlers[h])
    ensures var t := Next(i, s, a).handlers;
            h in t && t[h].row == s.handlers[h].row && t[h].stage == NextStage(s, a, h)
  {
    hide Inv, Next, GetCase;
    if !Concerns(a, h) {
      Unconcerned(i, s, a, h);
    } else if a.LoadCase? && s.handlers[h].stage.Mutated? {
      LoadCaseStage(i, s, h);
    } else if a.LoadEvent? && s.handlers[h].stage.Loaded? {
      LoadEventStage(i, s, h);
    } else {
      OtherStage(i, s, a, h);
    }
  }

  lemma OtherStage(i: Interface, s: System, a: Action, h: nat)
    requires Inv(i, s) && h in s.handlers && Committed(s.handlers[h]) && Concerns(a, h)
    requires !(a.LoadCase? && s.handlers[h].stage.Mutated?) && !(a.LoadEvent? && s.handlers[h].stage.Loaded?)
    ensures var t := Next(i, s, a).handlers;
            h in t && t[h].row == s.handlers[h].row && t[h].stage == NextStage(s, a, h)
  {
    hide Inv, GetCase, EventReadable, ApplyMutate, RowLinked, SnapshotOk, ResultOk, Envelope;
    HandlerAt(i, s, h);
  }

  /** A committed handler that is past `Mutated` was committed one step earlier too. */
  lemma CommittedBefore(i: Interface, s: System, a: Action, h: nat)
    requires Inv(i, s) && h in Next(i, s, a).handlers && Committed(Next(i, s, a).handlers[h])
    requires !Next(i, s, a).handlers[h].stage.Mutated?
    ensures h in s.handlers && Committed(s.handlers[h])
  {
    hide Inv, GetCase, EventReadable, Precheck, Procedure, RowLinked, SnapshotOk, ResultOk, Envelope;
  }

  // ---------------------------------------------------------------- exactly which runs publish

  /** Action `a` of the run is the read-back of a committed mutation whose case is not tombstoned then. */
  ghost predicate ReadsBack(i: Interface, actions: seq<Action>, h: nat, a: nat) {
    && a < |actions| && actions[a] == LoadCase(h)
    && var s := At(i, actions, a);
       && InStage(s, h, Mutated) && Committed(s.handlers[h])
       && Untombstoned(s, s.handlers[h].row.value.caseId)
  }

  /** Between the two reads neither a query of the handler fails nor is it cancelled. */
  predicate Unbroken(actions: seq<Action>, h: nat, lo: nat, hi: nat)
    requires hi <= |actions|
  {
    forall k | lo < k < hi :: actions[k] != Break(h, Storage) && !Cancels(actions[k], h)
  }

  predicate Uncancelled(actions: seq<Action>, h: nat, lo: nat, hi: nat)
    requires hi <= |actions|
  {
    forall k | lo < k < hi :: !Cancels(actions[k], h)
  }

  /** Steps `a`, `b` and `c` of the run finish the mutation of `h`, with anything of other tasks in between. */
  ghost predicate Completes(i: Interface, actions: seq<Action>, h: nat, a: nat, b: nat, c: nat) {
    && a < b < c < |actions|
    && ReadsBack(i, actions, h, a) && actions[b] == LoadEvent(h) && actions[c] == Publish(h)
    && Unbroken(actions, h, a, b) && Uncancelled(actions, h, b - 1, c)
  }

  /** How far a handler has come after its read-back. */
  function Progress(stage: Stage): nat {
    match stage
    case Loaded => 1
    case Assembled => 2
    case Answered => 3
    case _ => 0
  }

  /** Progress is kept while nobody interferes; once the result is assembled no query failure can. */
  lemma {:induction false} ProgressKept(i: Interface, actions: seq<Action>, h: nat, lo: nat, hi: nat)
    requires lo < hi <= |actions|
    requires var s := At(i, actions, lo + 1);
             h in s.handlers && Committed(s.handlers[h]) && Progress(s.handlers[h].stage) >= 1
    requires Uncancelled(actions, h, lo, hi)
    requires Progress(At(i, actions, lo + 1).handlers[h].stage) >= 2 || Unbroken(actions, h, lo, hi)
    ensures var s, t := At(i, actions, lo + 1), At(i, actions, hi);
            && h in t.handlers && t.handlers[h].row == s.handlers[h].row
            && Progress(t.handlers[h].stage) >= Progress(s.handlers[h].stage)
    decreases hi
  {
    hide After, Next, Inv;
    if lo + 1 < hi {
      ProgressKept(i, actions, h, lo, hi - 1);
      Reachable(i, actions[..hi - 1]);
      StageStep(i, At(i, actions, hi - 1), actions[hi - 1], h);
      AtNext(i, actions, hi - 1);
    }
  }

  /** One of the handler's own steps, taken by a handler that is far enough. */
  lemma OwnStep(i: Interface, actions: seq<Action>, h: nat, n: nat)
    requires n < |actions|
    requires var s := At(i, actions, n);
             h in s.handlers && Committed(s.handlers[h]) && Progress(s.handlers[h].stage) >= 1
    requires || actions[n] == LoadEvent(h)
             || (actions[n] == Publish(h) && Progress(At(i, actions, n).handlers[h].stage) >= 2)
    ensures var s, t := At(i, actions, n), At(i, actions, n + 1);
            && h in t.handlers && t.handlers[h].row == s.handlers[h].row
            && Progress(t.handlers[h].stage) >= (if actions[n].LoadEvent? then 2 else 3)
  {
    hide After, Next, Inv;
    Reachable(i, actions[..n]);
    StageStep(i, At(i, actions, n), actions[n], h);
    AtNext(i, actions, n);
  }

  lemma FirstStep(i: Interface, actions: seq<Action>, h: nat, a: nat)
    requires ReadsBack(i, actions, h, a)
    ensures var s, t := At(i, actions, a), At(i, actions, a + 1);
            && h in t.handlers && t.handlers[h].row == s.handlers[h].row && t.handlers[h].stage.Loaded?
  {
    hide After, Next, Inv;
    Reachable(i, actions[..a]);
    StageStep(i, At(i, actions, a), actions[a], h);
    AtNext(i, actions, a);
  }

  lemma CompletedIsAnswered(i: Interface, actions: seq<Action>, h: nat, a: nat, b: nat, c: nat)
    requires Completes(i, actions, h, a, b, c)
    ensures var s := After(i, actions);
            h in s.handlers && Committed(s.handlers[h]) && s.handlers[h].stage.Answered?
            && s.handlers[h].row == At(i, actions, a).handlers[h].row
  {
    hide After, Next, Extends, ReadsBack;
    CompletesStart(i, actions, h, a);
    FirstStep(i, actions, h, a);
    ProgressKept(i, actions, h, a, b);
    OwnStep(i, actions, h, b);
    ProgressKept(i, actions, h, b, c);
    OwnStep(i, actions, h, c);
    assert actions == actions[..c + 1] + actions[c + 1..];
    RunsGrow(i, actions[..c + 1], actions[c + 1..]);
    assert HandlerGrows(At(i, actions, c + 1).handlers[h], After(i, actions).handlers[h]);
  }

  lemma CompletesStart(i: Interface, actions: seq<Action>, h: nat, a: nat)
    requires ReadsBack(i, actions, h, a)
    ensures h in At(i, actions, a).handlers && Committed(At(i, actions, a).handlers[h])
  {
  }

  /** The step before: the handler was already committed. */
  lemma StepBack(i: Interface, actions: seq<Action>, h: nat, n: nat)
    requires 0 < n <= |actions|
    requires h in At(i, actions, n).handlers && Committed(At(i, actions, n).handlers[h])
    requires Progress(At(i, actions, n).handlers[h].stage) >= 1
    ensures var s, t := At(i, actions, n - 1), At(i, actions, n);
            && h in s.handlers && Committed(s.handlers[h]) && t.handlers[h].row == s.handlers[h].row
            && t.handlers[h].stage == NextStage(s, actions[n - 1], h)
  {
    hide After, Next, Inv;
    Reachable(i, actions[..n - 1]);
    AtNext(i, actions, n - 1);
    CommittedBefore(i, At(i, actions, n - 1), actions[n - 1], h);
    StageStep(i, At(i, actions, n - 1), actions[n - 1], h);
  }

  lemma NobodyAtFirst(i: Interface, actions: seq<Action>)
    ensures At(i, actions, 0).handlers == map[]
  {
  }

  lemma {:induction false} LoadedCame(i: Interface, actions: seq<Action>, h: nat, n: nat) returns (a: nat)
    requires n <= |actions| && InStage(At(i, actions, n), h, Loaded) && Committed(At(i, actions, n).handlers[h])
    ensures a < n && ReadsBack(i, actions, h, a) && Unbroken(actions, h, a, n)
    decreases n
  {
    hide After, Next, At;
    NobodyAtFirst(i, actions);
    StepBack(i, actions, h, n);
    if InStage(At(i, actions, n - 1), h, Loaded) {
      a := LoadedCame(i, actions, h, n - 1);
    } else {
      a := n - 1;
    }
  }

  lemma {:induction false} AssembledCame(i: Interface, actions: seq<Action>, h: nat, n: nat) returns (a: nat, b: nat)
    requires n <= |actions| && InStage(At(i, actions, n), h, Assembled) && Committed(At(i, actions, n).handlers[h])
    ensures a < b < n && ReadsBack(i, actions, h, a) && Unbroken(actions, h, a, b)
    ensures actions[b] == LoadEvent(h) && Uncancelled(actions, h, b - 1, n)
    decreases n
  {
    hide After, Next, At, ReadsBack;
    NobodyAtFirst(i, actions);
    StepBack(i, actions, h, n);
    if InStage(At(i, actions, n - 1), h, Assembled) {
      a, b := AssembledCame(i, actions, h, n - 1);
    } else {
      a := LoadedCame(i, actions, h, n - 1);
      b := n - 1;
    }
  }

  lemma {:induction false} AnsweredCame(i: Interface, actions: seq<Action>, h: nat, n: nat)
    returns (a: nat, b: nat, c: nat)
    requires n <= |actions| && InStage(At(i, actions, n), h, Answered) && Committed(At(i, actions, n).handlers[h])
    ensures c < n && Completes(i, actions, h, a, b, c)
    decreases n
  {
    hide After, Next, At, ReadsBack;
    NobodyAtFirst(i, actions);
    StepBack(i, actions, h, n);
    if InStage(At(i, actions, n - 1), h, Answered) {
      a, b, c := AnsweredCame(i, actions, h, n - 1);
    } else {
      a, b := AssembledCame(i, actions, h, n - 1);
      c := n - 1;
    }
  }

  /**
    Exactly which runs publish a committed event: those in which its handler reads the case back while it is not
    tombstoned, reads the event and reaches its publication, no query failing between the reads and no
    cancellation or restart before the publication. Anything else may be interleaved.
   */
  lemma PublishedIffReadBack(i: Interface, actions: seq<Action>, h: nat)
    requires h in After(i, actions).handlers && Committed(After(i, actions).handlers[h])
    ensures EventPublished(After(i, actions), After(i, actions).handlers[h].row.value.eventId)
            <==> exists a: nat, b: nat, c: nat :: Completes(i, actions, h, a, b, c)
  {
    hide After, Completes;
    PublishedIffAnswered(i, actions, h);
    AtEnd(i, actions);
    if After(i, actions).handlers[h].stage.Answered? {
      var a, b, c := AnsweredCame(i, actions, h, |actions|);
    }
    if a: nat, b: nat, c: nat :| Completes(i, actions, h, a, b, c) {
      CompletedIsAnswered(i, actions, h, a, b, c);
    }
  }

  /**
    A committed mutation that takes its three remaining steps undisturbed publishes its event if and only if its
    case is not tombstoned at the moment of the first.
   */
  lemma PublishedUnlessTombstoned(i: Interface, actions: seq<Action>, h: nat, a: nat, b: nat, c: nat)
    requires a < b < c < |actions|
    requires actions[a] == LoadCase(h) && actions[b] == LoadEvent(h) && actions[c] == Publish(h)
    requires InStage(At(i, actions, a), h, Mutated) && Committed(At(i, actions, a).handlers[h])
    requires Unbroken(actions, h, a, b) && Uncancelled(actions, h, b - 1, c)
    ensures var m := At(i, actions, a).handlers[h].row.value;
            EventPublished(After(i, actions), m.eventId) <==> Untombstoned(At(i, actions, a), m.caseId)
  {
    hide After, Next, Inv, Extends;
    var m := At(i, actions, a).handlers[h].row.value;
    if Untombstoned(At(i, actions, a), m.caseId) {
      assert Completes(i, actions, h, a, b, c);
      CompletedIsAnswered(i, actions, h, a, b, c);
      PublishedIffAnswered(i, actions, h);
    } else {
      Reachable(i, actions[..a]);
      LoadCaseStage(i, At(i, actions, a), h);
      AtNext(i, actions, a);
      assert actions == actions[..a + 1] + actions[a + 1..];
      StoppedNeverPublishes(i, actions[..a + 1], actions[a + 1..], h);
    }
  }

  // ---------------------------------------------------------------- how a publication is lost

  /** From its arrival on, the handler is not cancelled and none of its queries fails. */
  ghost predicate Undisturbed(i: Interface, actions: seq<Action>, h: nat) {
    forall k | 0 <= k < |actions| && h in At(i, actions, k).handlers ::
      actions[k] != Break(h, Storage) && !Cancels(actions[k], h)
  }

  predicate OnCourse(s: System, h: nat)
    requires h in s.handlers && Committed(s.handlers[h])
  {
    && !s.handlers[h].stage.Abandoned?
    && (s.handlers[h].stage.Failed? ==>
          && s.handlers[h].error == Some(NotFound)
          && s.handlers[h].row.value.caseId in s.store.cases
          && s.store.cases[s.handlers[h].row.value.caseId].tombstonedAt.Some?)
  }

  lemma CourseKept(i: Interface, s: System, a: Action, h: nat)
    requires Inv(i, s) && h in s.handlers && Committed(s.handlers[h]) && OnCourse(s, h)
    requires a != Break(h, Storage) && !Cancels(a, h)
    ensures var t := Next(i, s, a); h in t.handlers && Committed(t.handlers[h]) && OnCourse(t, h)
  {
    hide Next, Inv, Extends;
    var t := Next(i, s, a);
    StageStep(i, s, a, h);
    StepGrows(i, s, a);
    assert HandlerGrows(s.handlers[h], t.handlers[h]);
    CommittedVisible(i, s, h);
    TombstonesStay(s.store, t.store, s.handlers[h].row.value.caseId);
    if t.handlers[h].stage.Failed? && !s.handlers[h].stage.Failed? {
      LoadCaseStage(i, s, h);
    }
  }

  lemma TombstonesStay(a: Store, b: Store, id: Uuid)
    requires Extends(a, b) && id in a.cases
    ensures id in b.cases && (a.cases[id].tombstonedAt.Some? ==> b.cases[id].tombstonedAt.Some?)
  {
    assert RowExtends(a.cases[id], b.cases[id]);
  }

  /** A handler that commits in this very step has only just done so. */
  lemma JustCommitted(i: Interface, s: System, a: Action, h: nat)
    requires Inv(i, s) && h in Next(i, s, a).handlers && Committed(Next(i, s, a).handlers[h])
    requires !(h in s.handlers && Committed(s.handlers[h]))
    ensures Next(i, s, a).handlers[h].stage.Mutated?
  {
    hide Inv, GetCase, EventReadable, Precheck, Procedure, RowLinked, SnapshotOk, ResultOk, Envelope;
  }

  /**
    Without cancellation and query failure only retention loses a publication: a committed mutation is never
    abandoned, and it fails only as "not found" and only if its case is tombstoned.
   */
  lemma {:induction false} LostOnlyByRetention(i: Interface, actions: seq<Action>, h: nat)
    requires h in After(i, actions).handlers && Committed(After(i, actions).handlers[h])
    requires Undisturbed(i, actions, h)
    ensures OnCourse(After(i, actions), h)
    decreases |actions|
  {
    hide Next, Inv, OnCourse;
    if actions == [] {
      InitHasNoHandlers(i);
    } else {
      var init, last := actions[..|actions| - 1], actions[|actions| - 1];
      Reachable(i, init);
      var s := After(i, init);
      if h in s.handlers && Committed(s.handlers[h]) {
        UndisturbedPrefix(i, actions, h);
        LostOnlyByRetention(i, init, h);
        assert At(i, actions, |init|) == s;
        CourseKept(i, s, last, h);
      } else {
        JustCommitted(i, s, last, h);
        MutatedOnCourse(After(i, actions), h);
      }
    }
  }

  lemma InitHasNoHandlers(i: Interface)
    ensures After(i, []).handlers == map[]
  {
  }

  lemma MutatedOnCourse(s: System, h: nat)
    requires InStage(s, h, Mutated) && Committed(s.handlers[h])
    ensures OnCourse(s, h)
  {
  }

  lemma UndisturbedPrefix(i: Interface, actions: seq<Action>, h: nat)
    requires actions != [] && Undisturbed(i, actions, h)
    ensures Undisturbed(i, actions[..|actions| - 1], h)
    ensures h in After(i, actions[..|actions| - 1]).handlers ==>
              actions[|actions| - 1] != Break(h, Storage) && !Cancels(actions[|actions| - 1], h)
  {
    hide After;
    var init := actions[..|actions| - 1];
    forall k | 0 <= k < |init| && h in At(i, init, k).handlers
      ensures init[k] != Break(h, Storage) && !Cancels(init[k], h) {
      assert init[..k] == actions[..k];
      assert h in At(i, actions, k).handlers;
    }
    assert At(i, actions, |init|) == After(i, init);
  }

  /** The other ways: cancellation, a failed query or a restart loses the publication of a living case for ever. */
  lemma CancelledIsLost(i: Interface, r: Request, caseId: Uuid, eventId: Uuid, eventHash: string,
                        stop: Action, more: seq<Action>)
    requires r.op.Create? && Precheck(i, r).None?
    requires stop == Abandon(0) || stop == Break(0, Storage) || stop == Restart
    ensures var s := After(i, [Arrive(0, r), Mutate(0, caseId, eventId, eventHash), stop]);
            Untombstoned(s, caseId) && eventId in s.store.events
    ensures !EventPublished(After(i, [Arrive(0, r), Mutate(0, caseId, eventId, eventHash), stop] + more), eventId)
  {
    hide After, Next, Precheck;
    var a0, a1 := Arrive(0, r), Mutate(0, caseId, eventId, eventHash);
    AfterNothing(i);
    AfterAppend(i, [], a0);
    AfterAppend(i, [a0], a1);
    AfterAppend(i, [a0, a1], stop);
    assert [] + [a0] == [a0] && [a0] + [a1] == [a0, a1] && [a0, a1] + [stop] == [a0, a1, stop];
    CreateCommits(i, r, caseId, eventId, eventHash);
    StopsHandler(i, After(i, [a0, a1]), stop);
    StoppedNeverPublishes(i, [a0, a1, stop], more, 0);
  }

  lemma StopsHandler(i: Interface, s: System, stop: Action)
    requires InStage(s, 0, Mutated) && Committed(s.handlers[0])
    requires stop == Abandon(0) || stop == Break(0, Storage) || stop == Restart
    ensures var t := Next(i, s, stop);
            && t.store == s.store && 0 in t.handlers && t.handlers[0].row == s.handlers[0].row
            && (t.handlers[0].stage.Failed? || t.handlers[0].stage.Abandoned?)
  {
    hide Precheck, Procedure, GetCase, EventReadable;
  }

  // ---------------------------------------------------------------- what an error reports

  predicate RoleAllows(r: Request) {
    r.role != Viewer && (r.op.Rotate? ==> r.role == Administrator)
  }

  /** Some other operation was committed under the same key. */
  ghost predicate KeyTaken(i: Interface, s: System, r: Request) {
    exists g :: Author(i, s.handlers, g, i.scope(r)) && s.handlers[g].request.op != r.op
  }

  /** The case a mutation names, as its tenant reads it. */
  function Target(s: System, r: Request): Result<PersistedCase, CaseError>
    requires !r.op.Create?
  {
    GetCase(s.store, r.tenant, r.op.caseId)
  }

  predicate NoTarget(s: System, r: Request) {
    !r.op.Create? && (Target(s, r).Err? || (r.op.Rotate? && Target(s, r).value.document.None?))
  }

  /** In the state where the handler fails, this is what its error means. */
  ghost predicate Explains(i: Interface, s: System, a: Action, h: nat, error: CaseError)
    requires h in s.handlers
  {
    var handler := s.handlers[h];
    var r := handler.request;
    match error
    case NotAuthorized => a == Break(h, NotAuthorized) || !RoleAllows(r)
    case Validation => RoleAllows(r) && !Permitted(i, r)
    case NotFound =>
      if handler.row.Some? then GetCase(s.store, r.tenant, handler.row.value.caseId).Err? else NoTarget(s, r)
    case IdempotencyConflict => KeyTaken(i, s, r)
    case StaleVersion =>
      !r.op.Create? && Target(s, r).Ok? && Target(s, r).value.version != r.op.expectedVersion
    case InvalidTransition =>
      && r.op.Transition? && Target(s, r).Ok? && Target(s, r).value.version == r.op.expectedVersion
      && !i.allowed(Target(s, r).value.status, r.op.toStatus)
    case KeyVersionRollback =>
      && r.op.Rotate? && Target(s, r).Ok? && Target(s, r).value.version == r.op.expectedVersion
      && Target(s, r).value.document.Some?
      && r.op.document.keyVersion <= Target(s, r).value.document.value.keyVersion
    case Storage => a == Break(h, Storage)
  }

  lemma PlanRefusal(i: Interface, s: Store, r: Request, newCase: Uuid)
    requires RowsOk(s) && Plan(i, s, r, newCase).Err?
    ensures !r.op.Create?
    ensures var error, target := Plan(i, s, r, newCase).error, GetCase(s, r.tenant, r.op.caseId);
            match error
            case NotFound => target.Err? || (r.op.Rotate? && target.value.document.None?)
            case StaleVersion => target.Ok? && target.value.version != r.op.expectedVersion
            case InvalidTransition =>
              && r.op.Transition? && target.Ok? && target.value.version == r.op.expectedVersion
              && !i.allowed(target.value.status, r.op.toStatus)
            case KeyVersionRollback =>
              && r.op.Rotate? && target.Ok? && target.value.version == r.op.expectedVersion
              && target.value.document.Some? && r.op.document.keyVersion <= target.value.document.value.keyVersion
            case _ => false
  {
    if Visible(s, r.tenant, r.op.caseId) {
      assert RowOk(s.cases[r.op.caseId]);
    }
  }

  lemma ConflictTaken(i: Interface, s: System, r: Request)
    requires Inv(i, s) && i.scope(r) in s.store.keys && s.store.keys[i.scope(r)].digest != RequestDigest(i, r)
    ensures KeyTaken(i, s, r)
  {
    hide Inv, HashInput, Precheck, SnapshotOk, ResultOk;
    LedgerParts(i, s);
    var g :| Author(i, s.handlers, g, i.scope(r));
    HandlerAt(i, s, g);
  }

  /** How a mutation step refuses: locally, or with the procedure's error. */
  function Refusal(i: Interface, s: System, r: Request, newCase: Uuid): Option<CaseError> {
    match Precheck(i, r)
    case Some(error) => Some(error)
    case None =>
      if i.scope(r) in s.store.keys then
        if s.store.keys[i.scope(r)].digest == RequestDigest(i, r) then None else Some(IdempotencyConflict)
      else
        match Plan(i, s.store, r, newCase)
        case Err(error) => Some(error)
        case Ok(_) => None
  }

  lemma MutateRefusal(i: Interface, s: System, h: nat, newCase: Uuid, newEvent: Uuid, eventHash: string)
    requires h in s.handlers
    ensures var refusal := Refusal(i, s, s.handlers[h].request, newCase);
            if refusal.Some? then
              ApplyMutate(i, s, h, newCase, newEvent, eventHash) == SetHandler(s, h, Fail(s.handlers[h], refusal.value))
            else
              InStage(ApplyMutate(i, s, h, newCase, newEvent, eventHash), h, Mutated)
  {
    hide Precheck, Plan, RequestDigest, Append, Remember;
  }

  lemma RefusalExplained(i: Interface, s: System, a: Action, h: nat, newCase: Uuid)
    requires Inv(i, s) && InStage(s, h, Ready) && Refusal(i, s, s.handlers[h].request, newCase).Some?
    ensures Explains(i, s, a, h, Refusal(i, s, s.handlers[h].request, newCase).value)
  {
    hide Inv, RequestDigest, Plan, GetCase, RowsOk, VersionsDense, KeysOk, EventsOk, KeyTaken, HandlerOk;
    var r := s.handlers[h].request;
    HandlerFresh(i, s, h);
    StoreParts(i, s);
    if Precheck(i, r).None? {
      if i.scope(r) in s.store.keys {
        ConflictTaken(i, s, r);
      } else {
        PlanRefusal(i, s.store, r, newCase);
      }
    }
  }

  /** A handler fails only in a step of its own, and then its error is explained by the state it met. */
  lemma FailStep(i: Interface, s: System, a: Action, h: nat)
    requires Inv(i, s) && h in Next(i, s, a).handlers && Next(i, s, a).handlers[h].stage.Failed?
    ensures h in s.handlers
    ensures var t := Next(i, s, a).handlers[h];
            t == s.handlers[h]
            || (&& t.error.Some? && InFlight(s.handlers[h]) && t == Fail(s.handlers[h], t.error.value)
                && Explains(i, s, a, h, t.error.value))
  {
    hide Inv, GetCase, Explains, ApplyMutate, Refusal;
    if a.Mutate? && Enabled(s, a) {
      MutateFrame(i, s, a);
    }
    if h in s.handlers && !Concerns(a, h) {
      Unconcerned(i, s, a, h);
    } else if h in s.handlers && Next(i, s, a).handlers[h] != s.handlers[h] {
      match a
      case Mutate(_, newCase, newEvent, eventHash) =>
        MutateRefusal(i, s, h, newCase, newEvent, eventHash);
        RefusalExplained(i, s, a, h, newCase);
      case LoadCase(_) => LoadCaseExplained(i, s, h);
      case LoadEvent(_) => LoadEventStage(i, s, h);
      case Break(_, error) => BreakExplained(i, s, h, error);
      case _ =>
    }
  }

  lemma LoadCaseExplained(i: Interface, s: System, h: nat)
    requires Inv(i, s) && Enabled(s, LoadCase(h)) && InStage(ApplyLoadCase(s, h), h, Failed)
    ensures ApplyLoadCase(s, h) == SetHandler(s, h, Fail(s.handlers[h], NotFound))
    ensures Explains(i, s, LoadCase(h), h, NotFound)
  {
    hide Inv, RowsOk, VersionsDense, KeysOk, EventsOk, CaseFromRow;
    StoreParts(i, s);
    GetCaseDecodes(s.store, s.handlers[h].request.tenant, s.handlers[h].row.value.caseId);
  }

  lemma BreakExplained(i: Interface, s: System, h: nat, error: CaseError)
    requires Enabled(s, Break(h, error))
    ensures Explains(i, s, Break(h, error), h, error)
  {
    hide GetCase, KeyTaken, Permitted;
  }

  /** A moment of the run at which the handler failed with this error, and the reason was there. */
  ghost predicate Explained(i: Interface, actions: seq<Action>, h: nat, n: nat, error: CaseError) {
    && n < |actions|
    && var s, t := At(i, actions, n).handlers, At(i, actions, n + 1).handlers;
       && h in s && h in t && InFlight(s[h]) && t[h] == Fail(s[h], error)
       && Explains(i, At(i, actions, n), actions[n], h, error)
  }

  /**
    Every failed mutation has an error, and at the step that failed it the error reported something true: of the
    caller's role and command, of the case as the tenant reads it, of the key, or of the database. The second
    read never fails by itself, and no row is ever undecodable.
   */
  lemma {:induction false} FailuresAreExplained(i: Interface, actions: seq<Action>, h: nat)
    requires InStage(After(i, actions), h, Failed)
    ensures After(i, actions).handlers[h].error.Some?
    ensures exists n: nat :: Explained(i, actions, h, n, After(i, actions).handlers[h].error.value)
    decreases |actions|
  {
    hide Next, Inv, Explains;
    if actions == [] {
      InitHasNoHandlers(i);
    } else {
      var init, last := actions[..|actions| - 1], actions[|actions| - 1];
      var s, t := After(i, init), After(i, actions);
      Reachable(i, init);
      FailStep(i, s, last, h);
      if t.handlers[h] == s.handlers[h] {
        FailuresAreExplained(i, init, h);
        var n: nat :| Explained(i, init, h, n, t.handlers[h].error.value);
        assert init[..n] == actions[..n] && init[..n + 1] == actions[..n + 1];
        assert Explained(i, actions, h, n, t.handlers[h].error.value);
      } else {
        assert At(i, actions, |init|) == s;
        AtEnd(i, actions);
        assert Explained(i, actions, h, |init|, t.handlers[h].error.value);
      }
    }
  }

  /**
    A version that a commit has used up stays used up: any later mutation that expects it or an older one, under
    a key of its own, changes nothing and is refused, as stale exactly while the case can still be read.
   */
  lemma UsedVersionsAreRefused(i: Interface, actions: seq<Action>, g: nat, h: nat,
                               newCase: Uuid, newEvent: Uuid, eventHash: string)
    requires var s := After(i, actions);
             && g in s.handlers && Committed(s.handlers[g]) && !s.handlers[g].request.op.Create?
             && Enabled(s, Mutate(h, newCase, newEvent, eventHash))
             && Permitted(i, s.handlers[h].request) && !s.handlers[h].request.op.Create?
             && s.handlers[h].request.op.caseId == s.handlers[g].request.op.caseId
             && s.handlers[h].request.op.expectedVersion <= s.handlers[g].request.op.expectedVersion
             && i.scope(s.handlers[h].request) !in s.store.keys
    ensures var s := After(i, actions);
            var t := Next(i, s, Mutate(h, newCase, newEvent, eventHash));
            && t.store == s.store
            && t.handlers[h] ==
               Fail(s.handlers[h], if NoTarget(s, s.handlers[h].request) then NotFound else StaleVersion)
  {
    hide After, Inv, RowsOk, VersionsDense, KeysOk, EventsOk, Precheck, SnapshotOk, ResultOk, RequestDigest, GetCase;
    var s := After(i, actions);
    Reachable(i, actions);
    StoreParts(i, s);
    HandlerAt(i, s, g);
    LinkedEvent(i, s.store, s.handlers[g]);
    PermittedIff(i, s.handlers[h].request);
    PlanOnUsedVersion(i, s.store, s.handlers[h].request, newCase);
  }

  lemma PlanOnUsedVersion(i: Interface, s: Store, r: Request, newCase: Uuid)
    requires RowsOk(s) && !r.op.Create?
    requires r.op.caseId in s.cases && r.op.expectedVersion < s.cases[r.op.caseId].version
    ensures var target := GetCase(s, r.tenant, r.op.caseId);
            Plan(i, s, r, newCase) ==
            Err(if target.Err? || (r.op.Rotate? && target.value.document.None?) then NotFound else StaleVersion)
  {
    assert RowOk(s.cases[r.op.caseId]);
  }
}
