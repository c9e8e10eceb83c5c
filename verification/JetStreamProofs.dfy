/** Safety, convergence, conservation and termination of the status worker, over every schedule. */
module JetStreamProofs {
  import opened Prelude
  import opened Uuids
  import opened Routing
  import opened JetStream

  // ---------------------------------------------------------------- the invariant

  predicate Entered(p: Places, k: nat) {
    k in p.pending || k in p.inFlight || k in p.acked || k in p.terminated || k in p.exhausted
  }

  /** Each of the first `n` requests is in exactly one place, and nothing else is anywhere. */
  ghost predicate Partitioned(n: nat, p: Places) {
    && (forall k: nat :: k < n <==> Entered(p, k))
    && p.pending !! p.inFlight !! p.acked !! p.terminated !! p.exhausted
  }

  predicate MessageCounts(c: Config, ms: seq<Message>, p: Places, m: nat)
    requires m < |ms|
  {
    && |ms[m].tasks| <= c.maxDeliver
    && (m in p.pending ==> |ms[m].tasks| < c.maxDeliver)
    && (m in p.exhausted ==> |ms[m].tasks| == c.maxDeliver)
  }

  ghost predicate CountsOk(c: Config, ms: seq<Message>, p: Places) {
    && |p.inFlight| <= c.maxAckPending
    && forall m: nat | m < |ms| :: MessageCounts(c, ms, p, m)
  }

  predicate EntryFor(e: Entry, id: Uuid) {
    e == ResponseEntry(id, e.at)
  }

  /** A response for `id` is in the response stream. */
  ghost predicate Stored(log: seq<Entry>, id: Uuid) {
    exists k :: 0 <= k < |log| && EntryFor(log[k], id)
  }

  ghost predicate Answered(c: Config, log: seq<Entry>, payload: seq<Byte>) {
    DecodeSignal(c, payload).Some? && Stored(log, DecodeSignal(c, payload).value)
  }

  /** What a delivery's progress and the messages on its wire tell about the request and the stream. */
  ghost predicate TaskOk(c: Config, log: seq<Entry>, payload: seq<Byte>, t: Task) {
    && (t.publishOut || t.stage.Publishing? ==> DecodeSignal(c, payload).Some?)
    && (t.confirmIn || t.stage.Confirmed? || t.ackOut == Some(Positive) ==> Answered(c, log, payload))
    && (t.ackOut == Some(Term) ==> DecodeSignal(c, payload).None?)
  }

  ghost predicate TasksOk(c: Config, ms: seq<Message>, log: seq<Entry>) {
    forall m: nat, d: nat | HasTask(ms, m, d) :: TaskOk(c, log, ms[m].payload, ms[m].tasks[d])
  }

  ghost predicate SettledOk(c: Config, ms: seq<Message>, p: Places, log: seq<Entry>) {
    && (forall m | m in p.acked :: m < |ms| && Answered(c, log, ms[m].payload))
    && (forall m | m in p.terminated :: m < |ms| && DecodeSignal(c, ms[m].payload).None?)
  }

  /** Request `m` asked for the response `e`. */
  predicate Asks(c: Config, ms: seq<Message>, m: nat, e: Entry) {
    && m < |ms|
    && DecodeSignal(c, ms[m].payload).Some?
    && EntryFor(e, DecodeSignal(c, ms[m].payload).value)
  }

  ghost predicate Requested(c: Config, ms: seq<Message>, e: Entry) {
    exists m: nat :: Asks(c, ms, m, e)
  }

  ghost predicate LogOk(c: Config, ms: seq<Message>, log: seq<Entry>, now: nat) {
    && (forall k | 0 <= k < |log| :: log[k].at <= now && Requested(c, ms, log[k]))
    && (forall j, k | 0 <= j < k < |log| && log[j].messageId == log[k].messageId ::
          log[j].at + c.window <= log[k].at)
  }

  ghost predicate Inv(c: Config, s: Bus) {
    && Partitioned(|s.messages|, s.places)
    && CountsOk(c, s.messages, s.places)
    && TasksOk(c, s.messages, s.log)
    && SettledOk(c, s.messages, s.places, s.log)
    && LogOk(c, s.messages, s.log, s.now)
  }

  // ---------------------------------------------------------------- what later states keep

  /** The messages keep their payloads. */
  ghost predicate SamePayloads(ms: seq<Message>, ns: seq<Message>) {
    && |ms| <= |ns|
    && forall m: nat | m < |ms| :: ns[m].payload == ms[m].payload
  }

  lemma StoredKeeps(a: seq<Entry>, b: seq<Entry>, id: Uuid)
    requires a <= b && Stored(a, id)
    ensures Stored(b, id)
  {
    hide ResponseEntry;
    var k :| 0 <= k < |a| && EntryFor(a[k], id);
    assert EntryFor(b[k], id);
  }

  lemma TaskKeeps(c: Config, a: seq<Entry>, b: seq<Entry>, payload: seq<Byte>, t: Task)
    requires a <= b && TaskOk(c, a, payload, t)
    ensures TaskOk(c, b, payload, t)
  {
    hide Stored, DecodeSignal;
    if Answered(c, a, payload) {
      StoredKeeps(a, b, DecodeSignal(c, payload).value);
    }
  }

  lemma SettledKeeps(c: Config, ms: seq<Message>, ns: seq<Message>, p: Places, a: seq<Entry>, b: seq<Entry>)
    requires SettledOk(c, ms, p, a) && SamePayloads(ms, ns) && a <= b
    ensures SettledOk(c, ns, p, b)
  {
    hide Stored, DecodeSignal;
    forall m | m in p.acked ensures m < |ns| && Answered(c, b, ns[m].payload) {
      StoredKeeps(a, b, DecodeSignal(c, ms[m].payload).value);
    }
  }

  lemma LogKeeps(c: Config, ms: seq<Message>, ns: seq<Message>, log: seq<Entry>, now: nat, later: nat)
    requires LogOk(c, ms, log, now) && SamePayloads(ms, ns) && now <= later
    ensures LogOk(c, ns, log, later)
  {
    hide EntryFor, DecodeSignal;
    forall k | 0 <= k < |log| ensures log[k].at <= later && Requested(c, ns, log[k]) {
      var m: nat :| Asks(c, ms, m, log[k]);
      assert Asks(c, ns, m, log[k]);
    }
  }

  // ---------------------------------------------------------------- steps on one task

  function WithTask(ms: seq<Message>, m: nat, d: nat, t: Task): seq<Message>
    requires HasTask(ms, m, d)
  {
    ms[m := ms[m].(tasks := ms[m].tasks[d := t])]
  }

  lemma TasksSet(c: Config, ms: seq<Message>, m: nat, d: nat, task: Task, a: seq<Entry>, b: seq<Entry>)
    requires TasksOk(c, ms, a) && HasTask(ms, m, d) && a <= b
    requires TaskOk(c, b, ms[m].payload, task)
    ensures TasksOk(c, WithTask(ms, m, d, task), b)
  {
    hide TaskOk;
    var ns := WithTask(ms, m, d, task);
    forall n: nat, e: nat | HasTask(ns, n, e) ensures TaskOk(c, b, ns[n].payload, ns[n].tasks[e]) {
      assert HasTask(ms, n, e);
      TaskKeeps(c, a, b, ms[n].payload, ms[n].tasks[e]);
    }
  }

  lemma CountsSet(c: Config, ms: seq<Message>, p: Places, m: nat, d: nat, task: Task)
    requires CountsOk(c, ms, p) && HasTask(ms, m, d)
    ensures CountsOk(c, WithTask(ms, m, d, task), p)
  {
    var ns := WithTask(ms, m, d, task);
    forall n: nat | n < |ns| ensures MessageCounts(c, ns, p, n) {
      assert MessageCounts(c, ms, p, n);
    }
  }

  /** A step that changes one task and possibly extends the log. */
  lemma SetTaskInv(c: Config, s: Bus, m: nat, d: nat, task: Task, log: seq<Entry>)
    requires Inv(c, s) && HasTask(s.messages, m, d) && s.log <= log
    requires TaskOk(c, log, s.messages[m].payload, task)
    requires LogOk(c, s.messages, log, s.now)
    ensures Inv(c, SetTask(s, m, d, task).(log := log))
  {
    hide TaskOk, TasksOk, SettledOk, LogOk, CountsOk, Partitioned;
    var ns := WithTask(s.messages, m, d, task);
    assert SetTask(s, m, d, task).(log := log).messages == ns;
    assert SamePayloads(s.messages, ns);
    TasksSet(c, s.messages, m, d, task, s.log, log);
    CountsSet(c, s.messages, s.places, m, d, task);
    SettledKeeps(c, s.messages, ns, s.places, s.log, log);
    LogKeeps(c, s.messages, ns, log, s.now, s.now);
  }

  lemma QuietTaskInv(c: Config, s: Bus, m: nat, d: nat, task: Task)
    requires Inv(c, s) && HasTask(s.messages, m, d) && TaskOk(c, s.log, s.messages[m].payload, task)
    ensures Inv(c, SetTask(s, m, d, task))
  {
    hide TaskOk, TasksOk, SettledOk, LogOk, CountsOk, Partitioned;
    SetTaskInv(c, s, m, d, task, s.log);
    assert SetTask(s, m, d, task).(log := s.log) == SetTask(s, m, d, task);
  }

  lemma TaskFacts(c: Config, s: Bus, m: nat, d: nat)
    requires Inv(c, s) && HasTask(s.messages, m, d)
    ensures TaskOk(c, s.log, s.messages[m].payload, TaskAt(s, m, d))
  {
    hide TaskOk, SettledOk, LogOk, CountsOk, Partitioned;
  }

  // ---------------------------------------------------------------- storing a response

  /** A duplicate message id means that the response is already in the stream. */
  lemma DuplicateIsStored(c: Config, s: Bus, id: Uuid)
    requires LogOk(c, s.messages, s.log, s.now) && Duplicate(c, s, MessageId(id))
    ensures Stored(s.log, id)
  {
    hide MessageId, ResponseSubject, ResponsePayload, DecodeSignal;
    var k :| 0 <= k < |s.log| && s.log[k].messageId == MessageId(id) && s.now < s.log[k].at + c.window;
    var m: nat :| Asks(c, s.messages, m, s.log[k]);
    RoutingInjective(DecodeSignal(c, s.messages[m].payload).value, id);
    assert EntryFor(s.log[k], id);
  }

  lemma LogAppend(c: Config, s: Bus, m: nat, id: Uuid)
    requires LogOk(c, s.messages, s.log, s.now)
    requires m < |s.messages| && DecodeSignal(c, s.messages[m].payload) == Some(id)
    requires !Duplicate(c, s, MessageId(id))
    ensures LogOk(c, s.messages, s.log + [ResponseEntry(id, s.now)], s.now)
    ensures Stored(s.log + [ResponseEntry(id, s.now)], id)
  {
    hide MessageId, ResponseSubject, ResponsePayload, DecodeSignal;
    var log := s.log + [ResponseEntry(id, s.now)];
    assert EntryFor(log[|s.log|], id);
    forall k | 0 <= k < |log| ensures log[k].at <= s.now && Requested(c, s.messages, log[k]) {
      if k < |s.log| {
        var n: nat :| Asks(c, s.messages, n, s.log[k]);
        assert Asks(c, s.messages, n, log[k]);
      } else {
        assert Asks(c, s.messages, m, log[k]);
      }
    }
    forall j, k | 0 <= j < k < |log| && log[j].messageId == log[k].messageId
      ensures log[j].at + c.window <= log[k].at {
      if k == |s.log| {
        assert s.log[j].messageId == MessageId(id);
      }
    }
  }

  lemma TakePublishInv(c: Config, s: Bus, m: nat, d: nat)
    requires Inv(c, s) && Enabled(c, s, StoreResponse(m, d))
    ensures Inv(c, Apply(c, s, StoreResponse(m, d)))
  {
    hide Partitioned, CountsOk, TasksOk, SettledOk, LogOk, Duplicate, Stored, DecodeSignal, MessageId, ResponseEntry;
    var id := DecodeSignal(c, s.messages[m].payload).value;
    var task := TaskAt(s, m, d).(publishOut := false, confirmIn := true);
    TaskFacts(c, s, m, d);
    if Duplicate(c, s, MessageId(id)) {
      DuplicateIsStored(c, s, id);
      QuietTaskInv(c, s, m, d, task);
    } else {
      var log := s.log + [ResponseEntry(id, s.now)];
      LogAppend(c, s, m, id);
      TaskKeeps(c, s.log, log, s.messages[m].payload, TaskAt(s, m, d));
      SetTaskInv(c, s, m, d, task, log);
    }
  }

  // ---------------------------------------------------------------- the consumer's bookkeeping

  lemma SubsetSize(a: set<nat>, b: set<nat>)
    requires a <= b
    ensures |a| <= |b|
  {
    assert b == a + (b - a);
  }

  lemma TakeAckPartitioned(n: nat, p: Places, m: nat, kind: AckKind)
    requires Partitioned(n, p) && m < n
    ensures Partitioned(n, TakeAck(p, m, kind))
  {
    var q := TakeAck(p, m, kind);
    assert Entered(p, m);
    forall k: nat ensures k < n <==> Entered(q, k) {
      assert k < n <==> Entered(p, k);
    }
  }

  lemma TakeAckCounts(c: Config, ms: seq<Message>, p: Places, m: nat, kind: AckKind)
    requires CountsOk(c, ms, p)
    ensures CountsOk(c, ms, TakeAck(p, m, kind))
  {
    var q := TakeAck(p, m, kind);
    SubsetSize(q.inFlight, p.inFlight);
    forall n: nat | n < |ms| ensures MessageCounts(c, ms, q, n) {
      assert MessageCounts(c, ms, p, n);
    }
  }

  lemma TakeAckSettled(c: Config, ms: seq<Message>, p: Places, log: seq<Entry>, m: nat, kind: AckKind)
    requires SettledOk(c, ms, p, log) && m < |ms|
    requires kind.Positive? ==> Answered(c, log, ms[m].payload)
    requires kind.Term? ==> DecodeSignal(c, ms[m].payload).None?
    ensures SettledOk(c, ms, TakeAck(p, m, kind), log)
  {
    hide Answered, DecodeSignal;
  }

  lemma SettleInv(c: Config, s: Bus, m: nat, d: nat)
    requires Inv(c, s) && Enabled(c, s, Settle(m, d))
    ensures Inv(c, Apply(c, s, Settle(m, d)))
  {
    hide Partitioned, CountsOk, TasksOk, SettledOk, LogOk, Answered, DecodeSignal, TakeAck;
    var task := TaskAt(s, m, d).(ackOut := None);
    var kind := TaskAt(s, m, d).ackOut.value;
    TaskFacts(c, s, m, d);
    QuietTaskInv(c, s, m, d, task);
    var t := SetTask(s, m, d, task);
    TakeAckPartitioned(|t.messages|, t.places, m, kind);
    TakeAckCounts(c, t.messages, t.places, m, kind);
    TakeAckSettled(c, t.messages, t.places, t.log, m, kind);
  }

  lemma SubmitPlaces(c: Config, ms: seq<Message>, p: Places, payload: seq<Byte>)
    requires Partitioned(|ms|, p) && CountsOk(c, ms, p) && Validated(c)
    ensures var ns, q := ms + [Message(payload, [])], p.(pending := p.pending + {|ms|});
            Partitioned(|ns|, q) && CountsOk(c, ns, q)
  {
    var ns, q := ms + [Message(payload, [])], p.(pending := p.pending + {|ms|});
    assert !Entered(p, |ms|);
    forall k: nat ensures k < |ns| <==> Entered(q, k) {
      assert k < |ms| <==> Entered(p, k);
    }
    forall n: nat | n < |ns| ensures MessageCounts(c, ns, q, n) {
      if n < |ms| {
        assert MessageCounts(c, ms, p, n);
      }
    }
  }

  lemma SubmitInv(c: Config, s: Bus, payload: seq<Byte>)
    requires Inv(c, s) && Validated(c)
    ensures Inv(c, Apply(c, s, Submit(payload)))
  {
    hide Partitioned, CountsOk, SettledOk, LogOk, TaskOk;
    var ns := s.messages + [Message(payload, [])];
    SubmitPlaces(c, s.messages, s.places, payload);
    assert SamePayloads(s.messages, ns);
    assert TasksOk(c, ns, s.log) by {
      forall m: nat, d: nat | HasTask(ns, m, d) ensures TaskOk(c, s.log, ns[m].payload, ns[m].tasks[d]) {
        assert HasTask(s.messages, m, d);
      }
    }
    SettledKeeps(c, s.messages, ns, s.places, s.log, s.log);
    SettledPending(c, ns, s.places, s.places.pending + {|s.messages|}, s.log);
    LogKeeps(c, s.messages, ns, s.log, s.now, s.now);
  }

  lemma SettledPending(c: Config, ms: seq<Message>, p: Places, pending: set<nat>, log: seq<Entry>)
    requires SettledOk(c, ms, p, log)
    ensures SettledOk(c, ms, p.(pending := pending), log)
  {
    hide Answered, DecodeSignal;
  }

  lemma SamePayloadsSelf(ms: seq<Message>)
    ensures SamePayloads(ms, ms)
  {
  }

  lemma TickInv(c: Config, s: Bus)
    requires Inv(c, s)
    ensures Inv(c, s.(now := s.now + 1))
  {
    hide Partitioned, CountsOk, TasksOk, SettledOk, LogOk, SamePayloads;
    SamePayloadsSelf(s.messages);
    LogKeeps(c, s.messages, s.messages, s.log, s.now, s.now + 1);
  }

  lemma DeliverPartitioned(n: nat, p: Places, m: nat)
    requires Partitioned(n, p) && m in p.pending
    ensures Partitioned(n, p.(pending := p.pending - {m}, inFlight := p.inFlight + {m}))
  {
    var q := p.(pending := p.pending - {m}, inFlight := p.inFlight + {m});
    forall k: nat ensures k < n <==> Entered(q, k) {
      assert k < n <==> Entered(p, k);
    }
  }

  lemma DeliverPlaces(c: Config, ms: seq<Message>, p: Places, m: nat)
    requires Partitioned(|ms|, p) && CountsOk(c, ms, p)
    requires m in p.pending && m < |ms| && |ms[m].tasks| < c.maxDeliver && |p.inFlight| < c.maxAckPending
    ensures var ns := ms[m := ms[m].(tasks := ms[m].tasks + [FRESH])];
            var q := p.(pending := p.pending - {m}, inFlight := p.inFlight + {m});
            Partitioned(|ns|, q) && CountsOk(c, ns, q)
  {
    hide Partitioned;
    DeliverPartitioned(|ms|, p, m);
    PendingNotExhausted(|ms|, p, m);
    var ns := ms[m := ms[m].(tasks := ms[m].tasks + [FRESH])];
    var q := p.(pending := p.pending - {m}, inFlight := p.inFlight + {m});
    forall n: nat | n < |ns| ensures MessageCounts(c, ns, q, n) {
      assert MessageCounts(c, ms, p, n);
    }
  }

  lemma PendingNotExhausted(n: nat, p: Places, m: nat)
    requires Partitioned(n, p) && m in p.pending
    ensures m !in p.exhausted
  {
  }

  lemma DeliverTasks(c: Config, ms: seq<Message>, log: seq<Entry>, m: nat)
    requires TasksOk(c, ms, log) && m < |ms|
    ensures TasksOk(c, ms[m := ms[m].(tasks := ms[m].tasks + [FRESH])], log)
  {
    hide Answered, DecodeSignal;
    var ns := ms[m := ms[m].(tasks := ms[m].tasks + [FRESH])];
    forall n: nat, d: nat | HasTask(ns, n, d) ensures TaskOk(c, log, ns[n].payload, ns[n].tasks[d]) {
      if HasTask(ms, n, d) {
        assert TaskOk(c, log, ms[n].payload, ms[n].tasks[d]);
      }
    }
  }

  lemma DeliverInv(c: Config, s: Bus, m: nat)
    requires Inv(c, s) && Enabled(c, s, Deliver(m))
    ensures Inv(c, Apply(c, s, Deliver(m)))
  {
    hide Partitioned, CountsOk, TasksOk, LogOk, Answered, DecodeSignal;
    var t := Apply(c, s, Deliver(m));
    assert SamePayloads(s.messages, t.messages);
    DeliverPlaces(c, s.messages, s.places, m);
    DeliverTasks(c, s.messages, s.log, m);
    SettledKeeps(c, s.messages, t.messages, s.places, s.log, s.log);
    LogKeeps(c, s.messages, t.messages, s.log, s.now, s.now);
  }

  lemma ExpirePartitioned(n: nat, p: Places, m: nat, deliverable: bool)
    requires Partitioned(n, p) && m in p.inFlight
    ensures Partitioned(n, TakeExpiry(p, m, deliverable))
  {
    var q := TakeExpiry(p, m, deliverable);
    forall k: nat ensures k < n <==> Entered(q, k) {
      assert k < n <==> Entered(p, k);
    }
  }

  lemma ExpirePlaces(c: Config, ms: seq<Message>, p: Places, m: nat)
    requires Partitioned(|ms|, p) && CountsOk(c, ms, p) && m in p.inFlight && m < |ms|
    ensures var q := TakeExpiry(p, m, |ms[m].tasks| < c.maxDeliver);
            Partitioned(|ms|, q) && CountsOk(c, ms, q)
  {
    hide Partitioned;
    var q := TakeExpiry(p, m, |ms[m].tasks| < c.maxDeliver);
    ExpirePartitioned(|ms|, p, m, |ms[m].tasks| < c.maxDeliver);
    SubsetSize(q.inFlight, p.inFlight);
    forall n: nat | n < |ms| ensures MessageCounts(c, ms, q, n) {
      assert MessageCounts(c, ms, p, n);
    }
  }

  lemma ExpireInv(c: Config, s: Bus, m: nat)
    requires Inv(c, s) && Enabled(c, s, Expire(m))
    ensures Inv(c, Apply(c, s, Expire(m)))
  {
    hide Partitioned, CountsOk, TasksOk, LogOk, Answered, DecodeSignal;
    ExpirePlaces(c, s.messages, s.places, m);
  }

  /** Every step of broker, worker and network keeps the invariant. */
  lemma StepInv(c: Config, s: Bus, a: Action)
    requires Inv(c, s) && Validated(c)
    ensures Inv(c, Next(c, s, a))
  {
    hide Inv, Answered, Duplicate, TakeAck, DecodeSignal;
    if Enabled(c, s, a) {
      match a
      case Submit(payload) => SubmitInv(c, s, payload);
      case Tick => TickInv(c, s);
      case Deliver(m) => DeliverInv(c, s, m);
      case Expire(m) => ExpireInv(c, s, m);
      case StoreResponse(m, d) => TakePublishInv(c, s, m, d);
      case Settle(m, d) => SettleInv(c, s, m, d);
      case Reject(m, d) =>
        TaskFacts(c, s, m, d);
        QuietTaskInv(c, s, m, d, TaskAt(s, m, d).(stage := Finished, ackOut := Some(Term)));
      case Publish(m, d) =>
        TaskFacts(c, s, m, d);
        QuietTaskInv(c, s, m, d, TaskAt(s, m, d).(stage := Publishing, publishOut := true));
      case LosePublish(m, d) =>
        TaskFacts(c, s, m, d);
        QuietTaskInv(c, s, m, d, TaskAt(s, m, d).(publishOut := false));
      case Confirm(m, d) =>
        TaskFacts(c, s, m, d);
        QuietTaskInv(c, s, m, d, TaskAt(s, m, d).(stage := Confirmed, confirmIn := false));
      case LoseConfirm(m, d) =>
        TaskFacts(c, s, m, d);
        QuietTaskInv(c, s, m, d, TaskAt(s, m, d).(confirmIn := false));
      case Ack(m, d) =>
        TaskFacts(c, s, m, d);
        QuietTaskInv(c, s, m, d, TaskAt(s, m, d).(stage := Finished, ackOut := Some(Positive)));
      case LoseAck(m, d) =>
        TaskFacts(c, s, m, d);
        QuietTaskInv(c, s, m, d, TaskAt(s, m, d).(ackOut := None));
      case Crash(m, d) =>
        TaskFacts(c, s, m, d);
        QuietTaskInv(c, s, m, d, TaskAt(s, m, d).(stage := Stopped));
    }
  }

  lemma InitInv(c: Config)
    ensures Inv(c, Init())
  {
  }

  lemma {:induction false} Reachable(c: Config, actions: seq<Action>)
    requires Validated(c)
    ensures Inv(c, After(c, actions))
    decreases |actions|
  {
    hide Inv;
    if actions == [] {
      InitInv(c);
    } else {
      Reachable(c, actions[..|actions| - 1]);
      StepInv(c, After(c, actions[..|actions| - 1]), actions[|actions| - 1]);
    }
  }

  // ---------------------------------------------------------------- theorems

  /** A stored message that answers operation `id`, as it is on the wire. */
  predicate Responds(e: Entry, id: Uuid) {
    && e.subject == "apme.web_api.inbox.status." + Print(id)
    && e.messageId == "apme-status-response-" + Print(id)
    && e.payload == "{\"schema\":\"apme.async-status-response.v1\",\"operation_id\":\"" + Print(id)
                    + "\",\"status\":\"ok\",\"service\":\"apme-api\",\"database_ready\":true}"
  }

  lemma EntryResponds(e: Entry, id: Uuid)
    requires EntryFor(e, id)
    ensures Responds(e, id)
  {
    hide Print;
    assert RESPONSE_SUBJECT_PREFIX + "." == "apme.web_api.inbox.status.";
  }

  ghost predicate ResponseStored(log: seq<Entry>, id: Uuid) {
    exists k :: 0 <= k < |log| && Responds(log[k], id)
  }

  /** No request is acknowledged before a response for its operation is stored; malformed ones never are. */
  lemma AckedOnlyAfterResponse(c: Config, actions: seq<Action>, m: nat)
    requires Validated(c) && m in After(c, actions).places.acked
    ensures var s := After(c, actions);
            && m < |s.messages|
            && exists id :: WellFormed(c, s.messages[m].payload, id) && ResponseStored(s.log, id)
  {
    hide After, Partitioned, CountsOk, TasksOk, LogOk, DecodeSignal, Responds, EntryFor, WellFormed;
    var s := After(c, actions);
    Reachable(c, actions);
    var id := DecodeSignal(c, s.messages[m].payload).value;
    DecodedIffWellFormed(c, s.messages[m].payload, id);
    var k :| 0 <= k < |s.log| && EntryFor(s.log[k], id);
    EntryResponds(s.log[k], id);
  }

  /** Only malformed requests are terminated. */
  lemma TerminatedOnlyIfUndecodable(c: Config, actions: seq<Action>, m: nat)
    requires Validated(c) && m in After(c, actions).places.terminated
    ensures m < |After(c, actions).messages|
    ensures forall id :: !WellFormed(c, After(c, actions).messages[m].payload, id)
  {
    hide After, Partitioned, CountsOk, TasksOk, LogOk, DecodeSignal, WellFormed;
    Reachable(c, actions);
    forall id ensures !WellFormed(c, After(c, actions).messages[m].payload, id) {
      DecodedIffWellFormed(c, After(c, actions).messages[m].payload, id);
    }
  }

  /** Some submitted request asks for operation `id`, and the stored message answers it. */
  ghost predicate Answers(c: Config, ms: seq<Message>, e: Entry) {
    exists m: nat, id: Uuid :: AnswersRequest(c, ms, e, m, id)
  }

  predicate AnswersRequest(c: Config, ms: seq<Message>, e: Entry, m: nat, id: Uuid) {
    m < |ms| && WellFormed(c, ms[m].payload, id) && Responds(e, id)
  }

  /**
    Every stored response answers a submitted request and is the same function of its operation id, and two
    stored responses for one operation are at least a duplicate window apart.
   */
  lemma ResponsesConverge(c: Config, actions: seq<Action>)
    requires Validated(c)
    ensures var s := After(c, actions);
            && (forall k | 0 <= k < |s.log| :: Answers(c, s.messages, s.log[k]))
            && (forall j, k | 0 <= j < k < |s.log| && s.log[j].messageId == s.log[k].messageId ::
                  s.log[k] == s.log[j].(at := s.log[k].at) && s.log[j].at + c.window <= s.log[k].at)
  {
    hide Partitioned, CountsOk, TasksOk, SettledOk, MessageId, ResponseSubject, ResponsePayload, DecodeSignal,
      WellFormed, Responds;
    var s := After(c, actions);
    Reachable(c, actions);
    forall k | 0 <= k < |s.log| ensures Answers(c, s.messages, s.log[k]) {
      var m: nat :| Asks(c, s.messages, m, s.log[k]);
      var id := DecodeSignal(c, s.messages[m].payload).value;
      DecodedIffWellFormed(c, s.messages[m].payload, id);
      EntryResponds(s.log[k], id);
      assert AnswersRequest(c, s.messages, s.log[k], m, id);
    }
    forall j, k | 0 <= j < k < |s.log| && s.log[j].messageId == s.log[k].messageId
      ensures s.log[k] == s.log[j].(at := s.log[k].at) {
      var m: nat :| Asks(c, s.messages, m, s.log[j]);
      var n: nat :| Asks(c, s.messages, n, s.log[k]);
      RoutingInjective(DecodeSignal(c, s.messages[m].payload).value, DecodeSignal(c, s.messages[n].payload).value);
    }
  }

  function Range(n: nat): set<nat> {
    if n == 0 then {} else Range(n - 1) + {n - 1}
  }

  lemma {:induction false} RangeSize(n: nat)
    ensures |Range(n)| == n
    ensures forall k: nat :: k in Range(n) <==> k < n
  {
    if n > 0 {
      RangeSize(n - 1);
    }
  }

  lemma PlacesCount(n: nat, p: Places)
    requires Partitioned(n, p)
    ensures |p.pending| + |p.inFlight| + |p.acked| + |p.terminated| + |p.exhausted| == n
  {
    RangeSize(n);
    var all := p.pending + p.inFlight + p.acked + p.terminated + p.exhausted;
    forall k: nat ensures k in all <==> k in Range(n) {
      assert k < n <==> Entered(p, k);
    }
    assert all == Range(n);
  }

  /** Conservation: the five places count every submitted request exactly once. */
  lemma RequestsConserved(c: Config, actions: seq<Action>)
    requires Validated(c)
    ensures var s, p := After(c, actions), After(c, actions).places;
            && Partitioned(|s.messages|, p)
            && |p.pending| + |p.inFlight| + |p.acked| + |p.terminated| + |p.exhausted| == |s.messages|
            && |p.inFlight| <= c.maxAckPending
  {
    hide TasksOk, SettledOk, LogOk, MessageCounts, Partitioned;
    Reachable(c, actions);
    PlacesCount(|After(c, actions).messages|, After(c, actions).places);
  }

  // ---------------------------------------------------------------- termination

  function TaskWeight(t: Task): nat {
    (match t.stage
     case Received => 6
     case Publishing => 3
     case Confirmed => 2
     case Finished => 0
     case Stopped => 0)
    + (if t.publishOut then 2 else 0) + (if t.confirmIn then 1 else 0) + (if t.ackOut.Some? then 1 else 0)
  }

  function TasksWeight(tasks: seq<Task>): nat {
    if tasks == [] then 0 else TasksWeight(tasks[..|tasks| - 1]) + TaskWeight(tasks[|tasks| - 1])
  }

  /** What one request can still cause: its remaining deliveries and what its tasks have left to do. */
  function MessageWeight(c: Config, m: Message): nat {
    8 * (if |m.tasks| <= c.maxDeliver then c.maxDeliver - |m.tasks| else 0) + TasksWeight(m.tasks)
  }

  function MessagesWeight(c: Config, ms: seq<Message>): nat {
    if ms == [] then 0 else MessagesWeight(c, ms[..|ms| - 1]) + MessageWeight(c, ms[|ms| - 1])
  }

  function Potential(c: Config, s: Bus): nat {
    MessagesWeight(c, s.messages) + |s.places.inFlight|
  }

  lemma {:induction false} TasksWeightSet(tasks: seq<Task>, d: nat, t: Task)
    requires d < |tasks|
    ensures TasksWeight(tasks[d := t]) + TaskWeight(tasks[d]) == TasksWeight(tasks) + TaskWeight(t)
    decreases |tasks|
  {
    hide TaskWeight;
    var init, changed := tasks[..|tasks| - 1], tasks[d := t];
    if d == |tasks| - 1 {
      assert changed[..|changed| - 1] == init;
    } else {
      TasksWeightSet(init, d, t);
      assert changed[..|changed| - 1] == init[d := t] && changed[|changed| - 1] == tasks[|tasks| - 1];
    }
  }

  lemma {:induction false} MessagesWeightSet(c: Config, ms: seq<Message>, k: nat, m: Message)
    requires k < |ms|
    ensures MessagesWeight(c, ms[k := m]) + MessageWeight(c, ms[k]) == MessagesWeight(c, ms) + MessageWeight(c, m)
    decreases |ms|
  {
    hide MessageWeight;
    var init, ns := ms[..|ms| - 1], ms[k := m];
    if k == |ms| - 1 {
      assert ns[..|ns| - 1] == init;
    } else {
      MessagesWeightSet(c, init, k, m);
      assert ns[..|ns| - 1] == init[k := m] && ns[|ns| - 1] == ms[|ms| - 1];
    }
  }

  lemma SetTaskWeight(c: Config, s: Bus, m: nat, d: nat, t: Task)
    requires HasTask(s.messages, m, d)
    ensures MessagesWeight(c, SetTask(s, m, d, t).messages) + TaskWeight(TaskAt(s, m, d))
            == MessagesWeight(c, s.messages) + TaskWeight(t)
  {
    hide TaskWeight;
    var message := s.messages[m].(tasks := s.messages[m].tasks[d := t]);
    TasksWeightSet(s.messages[m].tasks, d, t);
    MessagesWeightSet(c, s.messages, m, message);
  }

  /** Neither a new request nor the passing of time. */
  predicate Internal(a: Action) {
    !a.Submit? && !a.Tick?
  }

  lemma DeliverWeight(c: Config, s: Bus, m: nat)
    requires Inv(c, s) && Enabled(c, s, Deliver(m))
    ensures Potential(c, Apply(c, s, Deliver(m))) < Potential(c, s)
  {
    hide TasksOk, SettledOk, LogOk, CountsOk;
    var tasks := s.messages[m].tasks;
    assert (tasks + [FRESH])[..|tasks|] == tasks;
    MessagesWeightSet(c, s.messages, m, s.messages[m].(tasks := tasks + [FRESH]));
    assert m !in s.places.inFlight;
  }

  lemma ExpireWeight(c: Config, s: Bus, m: nat)
    requires Enabled(c, s, Expire(m))
    ensures Potential(c, Apply(c, s, Expire(m))) < Potential(c, s)
  {
  }

  lemma InFlightAfterAck(p: Places, m: nat, kind: AckKind)
    ensures |TakeAck(p, m, kind).inFlight| <= |p.inFlight|
  {
    SubsetSize(p.inFlight - {m}, p.inFlight);
  }

  lemma SettleWeight(c: Config, s: Bus, m: nat, d: nat)
    requires Enabled(c, s, Settle(m, d))
    ensures Potential(c, Apply(c, s, Settle(m, d))) < Potential(c, s)
  {
    hide MessagesWeight, DecodeSignal;
    SetTaskWeight(c, s, m, d, TaskAt(s, m, d).(ackOut := None));
    InFlightAfterAck(s.places, m, TaskAt(s, m, d).ackOut.value);
  }

  /** Every internal step uses up potential. */
  lemma InternalStepsDecrease(c: Config, s: Bus, a: Action)
    requires Inv(c, s) && Internal(a) && Enabled(c, s, a)
    ensures Potential(c, Apply(c, s, a)) < Potential(c, s)
  {
    hide Inv, Potential, Apply, Enabled;
    match a
    case Deliver(m) => DeliverWeight(c, s, m);
    case Expire(m) => ExpireWeight(c, s, m);
    case Settle(m, d) => SettleWeight(c, s, m, d);
    case _ => if WorkerStep(a) { WorkerStepsDecrease(c, s, a); } else { WireStepsDecrease(c, s, a); }
  }

  /** Steps of the worker itself. */
  predicate WorkerStep(a: Action) {
    a.Reject? || a.Publish? || a.Confirm? || a.Ack? || a.Crash?
  }

  /** Steps of what is on the wire, other than a settling acknowledgement. */
  predicate WireStep(a: Action) {
    a.StoreResponse? || a.LosePublish? || a.LoseConfirm? || a.LoseAck?
  }

  lemma WorkerStepsDecrease(c: Config, s: Bus, a: Action)
    requires Enabled(c, s, a) && WorkerStep(a)
    ensures Potential(c, Apply(c, s, a)) < Potential(c, s)
  {
    hide Potential, DecodeSignal, Duplicate, TakeAck, TakeExpiry;
    match a
    case Reject(m, d) =>
      TaskStepDecreases(c, s, a, m, d, TaskAt(s, m, d).(stage := Finished, ackOut := Some(Term)));
    case Publish(m, d) =>
      TaskStepDecreases(c, s, a, m, d, TaskAt(s, m, d).(stage := Publishing, publishOut := true));
    case Confirm(m, d) =>
      TaskStepDecreases(c, s, a, m, d, TaskAt(s, m, d).(stage := Confirmed, confirmIn := false));
    case Ack(m, d) =>
      TaskStepDecreases(c, s, a, m, d, TaskAt(s, m, d).(stage := Finished, ackOut := Some(Positive)));
    case Crash(m, d) => TaskStepDecreases(c, s, a, m, d, TaskAt(s, m, d).(stage := Stopped));
  }

  lemma WireStepsDecrease(c: Config, s: Bus, a: Action)
    requires Enabled(c, s, a) && WireStep(a)
    ensures Potential(c, Apply(c, s, a)) < Potential(c, s)
  {
    hide Potential, DecodeSignal, Duplicate, TakeAck, TakeExpiry;
    match a
    case StoreResponse(m, d) =>
      TaskStepDecreases(c, s, a, m, d, TaskAt(s, m, d).(publishOut := false, confirmIn := true));
    case LosePublish(m, d) => TaskStepDecreases(c, s, a, m, d, TaskAt(s, m, d).(publishOut := false));
    case LoseConfirm(m, d) => TaskStepDecreases(c, s, a, m, d, TaskAt(s, m, d).(confirmIn := false));
    case LoseAck(m, d) => TaskStepDecreases(c, s, a, m, d, TaskAt(s, m, d).(ackOut := None));
  }

  lemma TaskStepDecreases(c: Config, s: Bus, a: Action, m: nat, d: nat, t: Task)
    requires Enabled(c, s, a) && HasTask(s.messages, m, d) && TaskWeight(t) < TaskWeight(TaskAt(s, m, d))
    requires Apply(c, s, a).messages == SetTask(s, m, d, t).messages && Apply(c, s, a).places == s.places
    ensures Potential(c, Apply(c, s, a)) < Potential(c, s)
  {
    hide Apply, Enabled, MessagesWeight;
    SetTaskWeight(c, s, m, d, t);
  }

  /** How many internal steps a schedule really takes. */
  function InternalSteps(c: Config, actions: seq<Action>): nat
    decreases |actions|
  {
    if actions == [] then 0
    else
      var init, last := actions[..|actions| - 1], actions[|actions| - 1];
      InternalSteps(c, init) + (if Internal(last) && Enabled(c, After(c, init), last) then 1 else 0)
  }

  function Budget(c: Config, n: nat): nat {
    8 * c.maxDeliver * n
  }

  lemma ExternalStepsAdd(c: Config, s: Bus, a: Action)
    requires Inv(c, s) && !Internal(a)
    ensures Potential(c, Next(c, s, a)) + Budget(c, |s.messages|)
            == Potential(c, s) + Budget(c, |Next(c, s, a).messages|)
  {
    hide Inv;
    if a.Submit? {
      var t := Apply(c, s, a);
      assert t.messages[..|t.messages| - 1] == s.messages;
      assert MessageWeight(c, Message(a.payload, [])) == 8 * c.maxDeliver;
      assert 8 * c.maxDeliver * (|s.messages| + 1) == 8 * c.maxDeliver * |s.messages| + 8 * c.maxDeliver;
    }
  }

  lemma InternalKeepsMessages(c: Config, s: Bus, a: Action)
    requires Internal(a)
    ensures |Next(c, s, a).messages| == |s.messages|
  {
  }

  /** Termination: n submitted requests cause at most 8 * max_deliver * n internal steps, whatever happens. */
  lemma {:induction false} InternalStepsBounded(c: Config, actions: seq<Action>)
    requires Validated(c)
    ensures InternalSteps(c, actions) + Potential(c, After(c, actions)) <= Budget(c, |After(c, actions).messages|)
    decreases |actions|
  {
    hide Inv, Potential, Budget, Enabled, Apply;
    if actions == [] {
      EmptyPotential(c);
    } else {
      var init, last := actions[..|actions| - 1], actions[|actions| - 1];
      var s := After(c, init);
      InternalStepsBounded(c, init);
      Reachable(c, init);
      if Internal(last) {
        InternalKeepsMessages(c, s, last);
        if Enabled(c, s, last) {
          InternalStepsDecrease(c, s, last);
        }
      } else {
        ExternalStepsAdd(c, s, last);
      }
    }
  }

  lemma EmptyPotential(c: Config)
    ensures Potential(c, Init()) == 0
  {
  }

  function Deliveries(ms: seq<Message>): nat {
    if ms == [] then 0 else Deliveries(ms[..|ms| - 1]) + |ms[|ms| - 1].tasks|
  }

  lemma {:induction false} DeliveriesSum(c: Config, ms: seq<Message>)
    requires forall m: nat | m < |ms| :: |ms[m].tasks| <= c.maxDeliver
    ensures Deliveries(ms) <= c.maxDeliver * |ms|
    decreases |ms|
  {
    if ms != [] {
      DeliveriesSum(c, ms[..|ms| - 1]);
      assert c.maxDeliver * |ms| == c.maxDeliver * (|ms| - 1) + c.maxDeliver;
    }
  }

  /** All deliveries together number at most max_deliver per submitted request. */
  lemma DeliveriesBounded(c: Config, actions: seq<Action>)
    requires Validated(c)
    ensures Deliveries(After(c, actions).messages) <= c.maxDeliver * |After(c, actions).messages|
  {
    hide Partitioned, TasksOk, SettledOk, LogOk;
    var s := After(c, actions);
    Reachable(c, actions);
    forall m: nat | m < |s.messages| ensures |s.messages[m].tasks| <= c.maxDeliver {
      assert MessageCounts(c, s.messages, s.places, m);
    }
    DeliveriesSum(c, s.messages);
  }

  /** No internal step is possible. */
  ghost predicate Quiescent(c: Config, s: Bus) {
    forall a: Action | Internal(a) :: !Enabled(c, s, a)
  }

  lemma InFlightExpires(c: Config, s: Bus, m: nat)
    requires Inv(c, s) && m in s.places.inFlight
    ensures Enabled(c, s, Expire(m))
  {
    assert Entered(s.places, m);
  }

  lemma PendingDelivers(c: Config, s: Bus, m: nat)
    requires Inv(c, s) && Validated(c) && m in s.places.pending && s.places.inFlight == {}
    ensures Enabled(c, s, Deliver(m))
  {
    assert Entered(s.places, m);
    assert MessageCounts(c, s.messages, s.places, m);
  }

  /**
    When nothing more can happen, every well-formed request is acked or out of deliveries, and every malformed one
    terminated or out of deliveries.
   */
  lemma QuiescentIsSettled(c: Config, actions: seq<Action>, m: nat)
    requires Validated(c) && Quiescent(c, After(c, actions)) && m < |After(c, actions).messages|
    ensures var s, p := After(c, actions), After(c, actions).places;
            && p.pending == {} && p.inFlight == {}
            && (if exists id :: WellFormed(c, s.messages[m].payload, id) then m in p.acked || m in p.exhausted
                else m in p.terminated || m in p.exhausted)
  {
    hide After, TasksOk, SettledOk, LogOk, DecodeSignal, WellFormed, ResponseStored;
    var s, p := After(c, actions), After(c, actions).places;
    Reachable(c, actions);
    if n :| n in p.inFlight {
      InFlightExpires(c, s, n);
      assert false;
    }
    if n :| n in p.pending {
      PendingDelivers(c, s, n);
      assert false;
    }
    assert Entered(p, m);
    if m in p.acked {
      AckedOnlyAfterResponse(c, actions, m);
    } else if m in p.terminated {
      TerminatedOnlyIfUndecodable(c, actions, m);
    }
  }

  // ---------------------------------------------------------------- the undisturbed delivery

  /** Deliver request `m` once more and let its worker and the network do their work. */
  function Handled(c: Config, s: Bus, m: nat, d: nat): Bus {
    var published := Next(c, Next(c, Next(c, s, Deliver(m)), Publish(m, d)), StoreResponse(m, d));
    Next(c, Next(c, Next(c, published, Confirm(m, d)), Ack(m, d)), Settle(m, d))
  }

  /** A delivery that is not disturbed acknowledges its request, whether or not the response was already stored. */
  lemma UndisturbedIsAcked(c: Config, actions: seq<Action>, m: nat, id: Uuid)
    requires Validated(c) && Enabled(c, After(c, actions), Deliver(m))
    requires WellFormed(c, After(c, actions).messages[m].payload, id)
    ensures var s := After(c, actions);
            m in Handled(c, s, m, |s.messages[m].tasks|).places.acked
  {
    hide After, Next, DecodeSignal, WellFormed, Inv;
    var s := After(c, actions);
    var d := |s.messages[m].tasks|;
    Reachable(c, actions);
    DecodedIffWellFormed(c, s.messages[m].payload, id);
    DeliverStep(c, s, m);
    var s1 := Next(c, s, Deliver(m));
    PublishStep(c, s1, m, d, id);
    var s2 := Next(c, s1, Publish(m, d));
    StoreStep(c, s2, m, d, id);
    AckSteps(c, Next(c, s2, StoreResponse(m, d)), m, d);
  }

  lemma PublishStep(c: Config, s: Bus, m: nat, d: nat, id: Uuid)
    requires HasTask(s.messages, m, d) && TaskAt(s, m, d) == Task(Received, false, false, None)
    requires DecodeSignal(c, s.messages[m].payload) == Some(id)
    ensures var t := Next(c, s, Publish(m, d));
            && t.places == s.places && HasTask(t.messages, m, d) && t.messages[m].payload == s.messages[m].payload
            && TaskAt(t, m, d) == Task(Publishing, true, false, None)
  {
    hide Duplicate, DecodeSignal, TakeAck, TakeExpiry;
  }

  /** The worker hears that the response is stored, acknowledges, and the broker settles the request. */
  lemma AckSteps(c: Config, s: Bus, m: nat, d: nat)
    requires HasTask(s.messages, m, d) && TaskAt(s, m, d) == Task(Publishing, false, true, None)
    requires !Settled(s.places, m)
    ensures m in Next(c, Next(c, Next(c, s, Confirm(m, d)), Ack(m, d)), Settle(m, d)).places.acked
  {
    hide Duplicate, DecodeSignal, TakeExpiry;
    var s4 := Next(c, s, Confirm(m, d));
    assert HasTask(s4.messages, m, d) && TaskAt(s4, m, d) == Task(Confirmed, false, false, None);
    var s5 := Next(c, s4, Ack(m, d));
    assert HasTask(s5.messages, m, d) && TaskAt(s5, m, d) == Task(Finished, false, false, Some(Positive));
    assert s5.places == s.places;
  }

  lemma DeliverStep(c: Config, s: Bus, m: nat)
    requires Inv(c, s) && Enabled(c, s, Deliver(m))
    ensures var t, d := Next(c, s, Deliver(m)), |s.messages[m].tasks|;
            && HasTask(t.messages, m, d) && TaskAt(t, m, d) == Task(Received, false, false, None)
            && t.messages[m].payload == s.messages[m].payload
            && m in t.places.inFlight && !Settled(t.places, m)
  {
    hide CountsOk, TasksOk, SettledOk, LogOk, DecodeSignal;
  }

  lemma StoreStep(c: Config, s: Bus, m: nat, d: nat, id: Uuid)
    requires HasTask(s.messages, m, d) && TaskAt(s, m, d) == Task(Publishing, true, false, None)
    requires DecodeSignal(c, s.messages[m].payload) == Some(id)
    ensures var t := Next(c, s, StoreResponse(m, d));
            && t.places == s.places && HasTask(t.messages, m, d)
            && TaskAt(t, m, d) == Task(Publishing, false, true, None)
  {
    hide Duplicate, DecodeSignal, TakeAck, TakeExpiry, ResponseEntry;
  }

  /** An undisturbed delivery of a malformed request terminates it. */
  lemma MalformedIsTerminated(c: Config, actions: seq<Action>, m: nat)
    requires Validated(c) && Enabled(c, After(c, actions), Deliver(m))
    requires forall id :: !WellFormed(c, After(c, actions).messages[m].payload, id)
    ensures var s := After(c, actions);
            var d := |s.messages[m].tasks|;
            m in Next(c, Next(c, Next(c, s, Deliver(m)), Reject(m, d)), Settle(m, d)).places.terminated
  {
    hide After, DecodeSignal, WellFormed, Duplicate, Inv;
    var s := After(c, actions);
    var d := |s.messages[m].tasks|;
    Reachable(c, actions);
    if DecodeSignal(c, s.messages[m].payload).Some? {
      DecodedIffWellFormed(c, s.messages[m].payload, DecodeSignal(c, s.messages[m].payload).value);
    }
    DeliverStep(c, s, m);
    var s2 := Next(c, Next(c, s, Deliver(m)), Reject(m, d));
    assert HasTask(s2.messages, m, d) && TaskAt(s2, m, d) == Task(Finished, false, false, Some(Term));
  }
}
