/**
  Event fan-out: the bounded broadcast channel behind `publish_mutation` and the per-socket loop that filters
  it. `Channel` is the 256-slot ring; `Receive` is the same thing said on the whole history of events.
 */
module Fanout {
  import opened Prelude
  import opened Uuids
  import CaseStore

  const CAPACITY: nat := 256

  datatype Receipt = Receipt(
    eventId: Uuid, tenant: Uuid, caseId: Uuid, caseVersion: int, eventType: string,
    occurredAt: CaseStore.Instant, eventHash: string)

  /** The published envelope around a receipt. */
  datatype TenantEvent = TenantEvent(tenant: Uuid, caseId: Uuid, receipt: Receipt)

  datatype Subscription = Subscription(tenant: Uuid, caseId: Option<Uuid>)

  /** `subscription_allows`: only the envelope is looked at. */
  predicate Allows(sub: Subscription, e: TenantEvent) {
    sub.tenant == e.tenant && (sub.caseId.None? || sub.caseId.value == e.caseId)
  }

  function Filter(sub: Subscription, log: seq<TenantEvent>): seq<TenantEvent> {
    if log == [] then []
    else
      var rest := Filter(sub, log[..|log| - 1]);
      if Allows(sub, log[|log| - 1]) then rest + [log[|log| - 1]] else rest
  }

  lemma FilterSnoc(sub: Subscription, log: seq<TenantEvent>, e: TenantEvent)
    ensures Filter(sub, log + [e]) == if Allows(sub, e) then Filter(sub, log) + [e] else Filter(sub, log)
  {
    assert (log + [e])[..|log|] == log;
  }

  /**
    The filter keeps an event if and only if it was published, is of the subscribed tenant and, when the
    subscription names a case, of that case.
   */
  lemma {:induction false} FilterAllows(sub: Subscription, log: seq<TenantEvent>, e: TenantEvent)
    ensures e in Filter(sub, log) <==>
            e in log && e.tenant == sub.tenant && (sub.caseId == None || sub.caseId == Some(e.caseId))
    decreases |log|
  {
    hide Filter;
    if log == [] {
      FilterNothing(sub);
    } else {
      var init, last := log[..|log| - 1], log[|log| - 1];
      FilterAllows(sub, init, e);
      FilterSnoc(sub, init, last);
      assert log == init + [last];
    }
  }

  /** A filter that wants everything keeps everything, in order and with repetitions. */
  lemma {:induction false} FilterKeepsAll(sub: Subscription, log: seq<TenantEvent>)
    requires forall e | e in log ::
               e.tenant == sub.tenant && (sub.caseId == None || sub.caseId == Some(e.caseId))
    ensures Filter(sub, log) == log
    decreases |log|
  {
    hide Filter;
    if log == [] {
      FilterNothing(sub);
    } else {
      var init, last := log[..|log| - 1], log[|log| - 1];
      assert last in log && forall e | e in init :: e in log;
      FilterKeepsAll(sub, init);
      FilterSnoc(sub, init, last);
      assert log == init + [last];
    }
  }

  lemma {:induction false} FilterConcat(sub: Subscription, a: seq<TenantEvent>, b: seq<TenantEvent>)
    ensures Filter(sub, a + b) == Filter(sub, a) + Filter(sub, b)
    decreases |b|
  {
    hide Filter;
    if b == [] {
      assert a + b == a;
      FilterNothing(sub);
    } else {
      var init, last := b[..|b| - 1], b[|b| - 1];
      FilterConcat(sub, a, init);
      FilterSnoc(sub, a + init, last);
      FilterSnoc(sub, init, last);
      assert a + b == a + init + [last] && b == init + [last];
    }
  }

  lemma FilterNothing(sub: Subscription)
    ensures Filter(sub, []) == []
  {
  }

  lemma {:induction false} FilterSubsequence(sub: Subscription, log: seq<TenantEvent>)
    ensures Subsequence(Filter(sub, log), log)
    decreases |log|
  {
    if log != [] {
      var init, last := log[..|log| - 1], log[|log| - 1];
      FilterSubsequence(sub, init);
      assert log == init + [last];
      if Allows(sub, last) {
        SubsequenceBoth(Filter(sub, init), init, last);
      } else {
        SubsequenceGrow(Filter(sub, init), init, last);
      }
    }
  }

  // ---------------------------------------------------------------- receiving

  datatype Received = Empty | Value(event: TenantEvent) | Lagged(missed: nat)

  /** The next event at `cursor`, when the channel retains only the last `CAPACITY` events of `log`. */
  function Receive(log: seq<TenantEvent>, cursor: nat): Received
    requires cursor <= |log|
  {
    if cursor == |log| then Empty
    else if |log| - cursor <= CAPACITY then Value(log[cursor])
    else Lagged(|log| - CAPACITY - cursor)
  }

  /**
    One socket task: where it subscribed, how far it got, what it skipped and what it sent. `missed` counts
    the events its subscription wanted that were skipped or could not be written.
   */
  datatype Socket = Socket(
    sub: Subscription, start: nat, cursor: nat, received: nat, skipped: nat, missed: nat,
    delivered: seq<TenantEvent>, open: bool, failed: bool)

  function Opened(sub: Subscription, log: seq<TenantEvent>): Socket {
    Socket(sub, |log|, |log|, 0, 0, 0, [], true, false)
  }

  /** The receiver arm of `socket_loop`; `sendFails` says whether writing to the client fails. */
  function Poll(log: seq<TenantEvent>, k: Socket, sendFails: bool): Socket
    requires k.cursor <= |log|
  {
    match Receive(log, k.cursor)
    case Empty => k
    case Lagged(n) =>
      k.(cursor := k.cursor + n, skipped := k.skipped + n,
         missed := k.missed + |Filter(k.sub, log[k.cursor..k.cursor + n])|)
    case Value(event) =>
      var next := k.(cursor := k.cursor + 1, received := k.received + 1);
      if !Allows(k.sub, event) then next
      else if sendFails then next.(open := false, failed := true, missed := k.missed + 1)
      else next.(delivered := next.delivered + [event])
  }

  function Window(log: seq<TenantEvent>, k: Socket): seq<TenantEvent>
    requires k.start <= k.cursor <= |log|
  {
    Filter(k.sub, log[k.start..k.cursor])
  }

  /**
    Cursor advance is what was received plus what was skipped; what a socket has sent is an order-preserving
    part of its filtered window; and the shortfall is exactly what it missed, by lag or by a failed write.
   */
  predicate SocketOk(log: seq<TenantEvent>, k: Socket) {
    && k.start <= k.cursor <= |log|
    && k.received + k.skipped == k.cursor - k.start
    && (k.failed ==> !k.open)
    && Subsequence(k.delivered, Window(log, k))
    && |Window(log, k)| == |k.delivered| + k.missed
    && k.missed <= k.skipped + (if k.failed then 1 else 0)
  }

  lemma OpenedOk(sub: Subscription, log: seq<TenantEvent>)
    ensures SocketOk(log, Opened(sub, log))
  {
    assert log[|log|..|log|] == [];
  }

  /** Moving the cursor adds to the window what the filter keeps of the events passed. */
  lemma WindowMoves(log: seq<TenantEvent>, k: Socket, n: nat)
    requires k.start <= k.cursor && k.cursor + n <= |log|
    ensures Window(log, k.(cursor := k.cursor + n)) == Window(log, k) + Filter(k.sub, log[k.cursor..k.cursor + n])
    ensures |Filter(k.sub, log[k.cursor..k.cursor + n])| <= n
  {
    hide Filter, Subsequence;
    var seen, passed := log[k.start..k.cursor], log[k.cursor..k.cursor + n];
    assert log[k.start..k.cursor + n] == seen + passed;
    FilterConcat(k.sub, seen, passed);
    FilterSubsequence(k.sub, passed);
    SubsequenceLength(Filter(k.sub, passed), passed);
  }

  lemma WindowStep(log: seq<TenantEvent>, k: Socket)
    requires k.start <= k.cursor < |log|
    ensures Window(log, k.(cursor := k.cursor + 1)) ==
            if Allows(k.sub, log[k.cursor]) then Window(log, k) + [log[k.cursor]] else Window(log, k)
  {
    hide Filter;
    FilterSnoc(k.sub, log[k.start..k.cursor], log[k.cursor]);
    assert log[k.start..k.cursor + 1] == log[k.start..k.cursor] + [log[k.cursor]];
  }

  lemma LagKeepsSocketOk(log: seq<TenantEvent>, k: Socket, sendFails: bool)
    requires SocketOk(log, k) && k.open && Receive(log, k.cursor).Lagged?
    ensures SocketOk(log, Poll(log, k, sendFails))
  {
    hide Filter, Subsequence;
    var n := Receive(log, k.cursor).missed;
    WindowMoves(log, k, n);
    SubsequenceExtend(k.delivered, Window(log, k), Filter(k.sub, log[k.cursor..k.cursor + n]));
    assert Window(log, Poll(log, k, sendFails)) == Window(log, k.(cursor := k.cursor + n));
  }

  lemma ValueKeepsSocketOk(log: seq<TenantEvent>, k: Socket, sendFails: bool)
    requires SocketOk(log, k) && k.open && Receive(log, k.cursor).Value?
    ensures SocketOk(log, Poll(log, k, sendFails))
  {
    hide Filter, Subsequence;
    var event := log[k.cursor];
    WindowStep(log, k);
    assert Window(log, Poll(log, k, sendFails)) == Window(log, k.(cursor := k.cursor + 1));
    if Allows(k.sub, event) {
      SubsequenceBoth(k.delivered, Window(log, k), event);
      SubsequenceGrow(k.delivered, Window(log, k), event);
    }
  }

  /** Every poll keeps the delivery guarantee, lag and write failure included. */
  lemma PollKeepsSocketOk(log: seq<TenantEvent>, k: Socket, sendFails: bool)
    requires SocketOk(log, k) && k.open
    ensures SocketOk(log, Poll(log, k, sendFails))
  {
    hide Filter, Window, Subsequence;
    match Receive(log, k.cursor)
    case Empty =>
    case Lagged(_) => LagKeepsSocketOk(log, k, sendFails);
    case Value(_) => ValueKeepsSocketOk(log, k, sendFails);
  }

  lemma PublishKeepsSocketOk(log: seq<TenantEvent>, k: Socket, event: TenantEvent)
    requires SocketOk(log, k)
    ensures SocketOk(log + [event], k)
  {
    assert (log + [event])[k.start..k.cursor] == log[k.start..k.cursor];
  }

  /** Delivery is exact if and only if nothing wanted was missed, so always when it never lagged nor failed. */
  lemma ExactUnlessMissed(log: seq<TenantEvent>, k: Socket)
    requires SocketOk(log, k)
    ensures k.delivered == Window(log, k) <==> k.missed == 0
    ensures k.skipped == 0 && !k.failed ==> k.delivered == Window(log, k)
    ensures k.missed == 0 ==> SentExactly(log, k)
  {
    hide Filter, Subsequence;
    SubsequenceLength(k.delivered, Window(log, k));
    if k.missed == 0 {
      WindowIsExact(log, k);
    }
  }

  /**
    What exact delivery means to a client: of the events that passed since it subscribed it was sent those of its
    tenant and, if it named a case, of that case, and all of them in order when it wants them all.
   */
  ghost predicate SentExactly(log: seq<TenantEvent>, k: Socket)
    requires k.start <= k.cursor <= |log|
  {
    var passed := log[k.start..k.cursor];
    && (forall e :: e in k.delivered <==>
          e in passed && e.tenant == k.sub.tenant && (k.sub.caseId == None || k.sub.caseId == Some(e.caseId)))
    && ((forall e | e in passed ::
           e.tenant == k.sub.tenant && (k.sub.caseId == None || k.sub.caseId == Some(e.caseId)))
        ==> k.delivered == passed)
  }

  lemma WindowIsExact(log: seq<TenantEvent>, k: Socket)
    requires k.start <= k.cursor <= |log| && k.delivered == Window(log, k)
    ensures SentExactly(log, k)
  {
    hide Filter;
    var passed := log[k.start..k.cursor];
    forall e ensures e in k.delivered <==>
      e in passed && e.tenant == k.sub.tenant && (k.sub.caseId == None || k.sub.caseId == Some(e.caseId)) {
      FilterAllows(k.sub, passed, e);
    }
    if forall e | e in passed ::
         e.tenant == k.sub.tenant && (k.sub.caseId == None || k.sub.caseId == Some(e.caseId)) {
      FilterKeepsAll(k.sub, passed);
    }
  }

  /** What a socket ever sends is allowed by its subscription, was published, and keeps the published order. */
  lemma DeliveredFromLog(log: seq<TenantEvent>, k: Socket)
    requires SocketOk(log, k)
    ensures Subsequence(k.delivered, log)
    ensures forall e | e in k.delivered ::
              e in log && e.tenant == k.sub.tenant && (k.sub.caseId == None || k.sub.caseId == Some(e.caseId))
  {
    var part := log[k.start..k.cursor];
    forall e | e in k.delivered
      ensures e in log && e.tenant == k.sub.tenant && (k.sub.caseId == None || k.sub.caseId == Some(e.caseId)) {
      SubsequenceMember(k.delivered, Window(log, k), e);
      FilterAllows(k.sub, part, e);
    }
    FilterSubsequence(k.sub, part);
    SubsequenceSlice(log, k.start, k.cursor);
    SubsequenceTransitive(k.delivered, Window(log, k), part);
    SubsequenceTransitive(k.delivered, part, log);
  }

  // ---------------------------------------------------------------- the ring

  /** tokio's broadcast channel as this service uses it: fixed slots, a tail counter, a receiver count. */
  class Channel {
    const slots: array<Option<TenantEvent>>
    var tail: nat
    var receivers: nat
    ghost var log: seq<TenantEvent>

    ghost predicate Valid()
      reads this, slots
    {
      && slots.Length == CAPACITY
      && tail == |log|
      && forall p: nat | p < tail <= p + CAPACITY :: slots[p % CAPACITY] == Some(log[p])
    }

    constructor ()
      ensures Valid() && fresh(slots) && log == [] && receivers == 0
    {
      slots := new Option<TenantEvent>[CAPACITY](_ => None);
      tail, receivers, log := 0, 0, [];
    }

    /** `Sender::send`: with no receiver the event is refused and nothing is stored. */
    method Send(event: TenantEvent) returns (accepted: bool)
      requires Valid()
      modifies this`tail, this`log, slots
      ensures Valid()
      ensures accepted <==> receivers > 0
      ensures log == if accepted then old(log) + [event] else old(log)
    {
      accepted := receivers > 0;
      if accepted {
        slots[tail % CAPACITY] := Some(event);
        tail := tail + 1;
        log := log + [event];
        forall p: nat | p < tail <= p + CAPACITY ensures slots[p % CAPACITY] == Some(log[p]) {
          SlotsDistinct(p, tail - 1);
        }
      }
    }

    /** `Sender::subscribe`: a new receiver sees only what is sent from now on. */
    method Subscribe() returns (cursor: nat)
      requires Valid()
      modifies this`receivers
      ensures Valid() && cursor == |log| && receivers == old(receivers) + 1
    {
      receivers := receivers + 1;
      cursor := tail;
    }

    /** Dropping a receiver. */
    method Unsubscribe()
      requires Valid() && receivers > 0
      modifies this`receivers
      ensures Valid() && receivers == old(receivers) - 1
    {
      receivers := receivers - 1;
    }

    /** `Receiver::recv` reads one slot; it is `Receive` on the whole history. */
    method Recv(cursor: nat) returns (r: Received)
      requires Valid() && cursor <= |log|
      ensures r == Receive(log, cursor)
    {
      if cursor == tail {
        r := Empty;
      } else if tail - cursor <= CAPACITY {
        assert slots[cursor % CAPACITY] == Some(log[cursor]);
        r := Value(slots[cursor % CAPACITY].value);
      } else {
        r := Lagged(tail - CAPACITY - cursor);
      }
    }
  }

  lemma SlotsDistinct(p: nat, q: nat)
    requires p <= q < p + CAPACITY
    ensures p % CAPACITY == q % CAPACITY <==> p == q
  {
  }

  // ---------------------------------------------------------------- the socket loop

  /** What one turn of the `select!` in `socket_loop` meets, or what another task does before it. */
  datatype Turn =
    | Elsewhere(event: TenantEvent)  // some handler publishes
    | EventsReady(sendFails: bool)   // the receiver arm runs
    | ChannelClosed                  // every sender is gone
    | ClientPing(sendFails: bool)
    | ClientOther
    | ClientGone                     // close frame, end of stream or read error

  function Take(log: seq<TenantEvent>, k: Socket, turn: Turn): (seq<TenantEvent>, Socket)
    requires k.cursor <= |log|
  {
    match turn
    case Elsewhere(event) => (log + [event], k)
    case EventsReady(sendFails) => (log, Poll(log, k, sendFails))
    case ChannelClosed => (log, k.(open := false))
    case ClientPing(sendFails) => (log, if sendFails then k.(open := false) else k)
    case ClientOther => (log, k)
    case ClientGone => (log, k.(open := false))
  }

  lemma TakeKeepsSocketOk(log: seq<TenantEvent>, k: Socket, turn: Turn)
    requires SocketOk(log, k) && k.open
    ensures SocketOk(Take(log, k, turn).0, Take(log, k, turn).1)
  {
    match turn
    case Elsewhere(event) => PublishKeepsSocketOk(log, k, event);
    case EventsReady(sendFails) => PollKeepsSocketOk(log, k, sendFails);
    case _ =>
  }

  /** The loop on histories: turns are taken while the socket is open. */
  function Drive(log: seq<TenantEvent>, k: Socket, turns: seq<Turn>): (r: (seq<TenantEvent>, Socket))
    requires k.cursor <= |log|
    ensures r.1.cursor <= |r.0|
    decreases |turns|
  {
    if turns == [] then (log, k)
    else
      var (l, j) := Drive(log, k, turns[..|turns| - 1]);
      if j.open then Take(l, j, turns[|turns| - 1]) else (l, j)
  }

  /** However long the loop runs and whatever interleaves, the delivery guarantee holds. */
  lemma {:induction false} DriveKeepsSocketOk(log: seq<TenantEvent>, k: Socket, turns: seq<Turn>)
    requires SocketOk(log, k)
    ensures SocketOk(Drive(log, k, turns).0, Drive(log, k, turns).1)
    decreases |turns|
  {
    if turns != [] {
      DriveKeepsSocketOk(log, k, turns[..|turns| - 1]);
      var (l, j) := Drive(log, k, turns[..|turns| - 1]);
      if j.open {
        TakeKeepsSocketOk(l, j, turns[|turns| - 1]);
      }
    }
  }

  /** A turn that receives finds the receiver at most the capacity behind the publishers. */
  predicate InReach(state: (seq<TenantEvent>, Socket), turn: Turn) {
    turn.EventsReady? && state.1.open ==> |state.0| - state.1.cursor <= 256
  }

  ghost predicate KeepsUp(log: seq<TenantEvent>, k: Socket, turns: seq<Turn>)
    requires k.cursor <= |log|
  {
    forall n | 0 <= n < |turns| :: InReach(Drive(log, k, turns[..n]), turns[n])
  }

  lemma TakeSkips(log: seq<TenantEvent>, k: Socket, turn: Turn)
    requires k.cursor <= |log| && k.open
    ensures k.skipped <= Take(log, k, turn).1.skipped
    ensures Take(log, k, turn).1.skipped == k.skipped <==> InReach((log, k), turn)
  {
    hide Filter;
  }

  lemma KeepsUpSnoc(log: seq<TenantEvent>, k: Socket, init: seq<Turn>, last: Turn)
    requires k.cursor <= |log|
    ensures KeepsUp(log, k, init + [last]) <==> KeepsUp(log, k, init) && InReach(Drive(log, k, init), last)
  {
    hide Drive, InReach;
    var turns := init + [last];
    assert turns[..|init|] == init;
    forall n | 0 <= n < |init|
      ensures InReach(Drive(log, k, turns[..n]), turns[n]) <==> InReach(Drive(log, k, init[..n]), init[n]) {
      assert turns[..n] == init[..n];
    }
    if KeepsUp(log, k, turns) {
      assert InReach(Drive(log, k, turns[..|init|]), turns[|init|]);
      forall n | 0 <= n < |init| ensures InReach(Drive(log, k, init[..n]), init[n]) {
        assert InReach(Drive(log, k, turns[..n]), turns[n]);
      }
    }
  }

  /** Over a whole run nothing is skipped if and only if the receiver keeps up, however often it reads. */
  lemma {:induction false} NothingSkippedIffKeepsUp(log: seq<TenantEvent>, k: Socket, turns: seq<Turn>)
    requires k.cursor <= |log|
    ensures k.skipped <= Drive(log, k, turns).1.skipped
    ensures Drive(log, k, turns).1.skipped == k.skipped <==> KeepsUp(log, k, turns)
    decreases |turns|
  {
    hide Filter, KeepsUp, Take;
    if turns == [] {
      KeepsUpAtFirst(log, k);
    } else {
      var init, last := turns[..|turns| - 1], turns[|turns| - 1];
      NothingSkippedIffKeepsUp(log, k, init);
      KeepsUpSnoc(log, k, init, last);
      assert turns == init + [last];
      var (l, j) := Drive(log, k, init);
      if j.open {
        TakeSkips(l, j, last);
      }
    }
  }

  lemma KeepsUpAtFirst(log: seq<TenantEvent>, k: Socket)
    requires k.cursor <= |log|
    ensures KeepsUp(log, k, [])
  {
  }

  /** How many events other tasks publish during the turns. */
  function Published(turns: seq<Turn>): nat {
    if turns == [] then 0
    else Published(turns[..|turns| - 1]) + (if turns[|turns| - 1].Elsewhere? then 1 else 0)
  }

  lemma {:induction false} BehindAtMostPublished(log: seq<TenantEvent>, k: Socket, turns: seq<Turn>)
    requires k.cursor <= |log|
    ensures |Drive(log, k, turns).0| - Drive(log, k, turns).1.cursor <= |log| - k.cursor + Published(turns)
    decreases |turns|
  {
    hide Filter;
    if turns != [] {
      BehindAtMostPublished(log, k, turns[..|turns| - 1]);
    }
  }

  lemma {:induction false} PublishedPrefix(turns: seq<Turn>, n: nat)
    requires n <= |turns|
    ensures Published(turns[..n]) <= Published(turns)
    decreases |turns|
  {
    if n < |turns| {
      var init := turns[..|turns| - 1];
      PublishedPrefix(init, n);
      assert init[..n] == turns[..n];
    } else {
      assert turns[..n] == turns;
    }
  }

  /** A socket that keeps up and whose writes succeed is sent exactly the filter of what it has passed. */
  lemma KeepingUpIsExact(sub: Subscription, log: seq<TenantEvent>, turns: seq<Turn>)
    requires KeepsUp(log, Opened(sub, log), turns)
    ensures var (l, j) := Drive(log, Opened(sub, log), turns);
            j.skipped == 0 && (!j.failed ==> SocketOk(l, j) && SentExactly(l, j))
  {
    hide Drive, KeepsUp, Window, Subsequence, SentExactly;
    var k := Opened(sub, log);
    NothingSkippedIffKeepsUp(log, k, turns);
    OpenedOk(sub, log);
    DriveKeepsSocketOk(log, k, turns);
    ExactUnlessMissed(Drive(log, k, turns).0, Drive(log, k, turns).1);
  }

  /** A socket during whose life at most 256 events are published keeps up, however late it reads. */
  lemma SmallBurstsKeepUp(sub: Subscription, log: seq<TenantEvent>, turns: seq<Turn>)
    requires Published(turns) <= 256
    ensures KeepsUp(log, Opened(sub, log), turns)
  {
    hide Filter, Drive;
    var k := Opened(sub, log);
    forall n | 0 <= n < |turns| ensures InReach(Drive(log, k, turns[..n]), turns[n]) {
      BehindAtMostPublished(log, k, turns[..n]);
      PublishedPrefix(turns, n);
    }
  }

  /** `websocket` after the handshake and `socket_loop`, on the ring. */
  method SocketLoop(channel: Channel, sub: Subscription, turns: seq<Turn>)
    returns (delivered: seq<TenantEvent>, cursor: nat, ghost socket: Socket, ghost taken: nat)
    requires channel.Valid()
    modifies channel, channel.slots
    ensures channel.Valid()
    ensures taken <= |turns|
    ensures (channel.log, socket) == Drive(old(channel.log), Opened(sub, old(channel.log)), turns[..taken])
    ensures taken < |turns| ==> !socket.open
    ensures delivered == socket.delivered && cursor == socket.cursor
    ensures SocketOk(channel.log, socket)
    ensures socket.skipped == 0 && !socket.failed ==> SentExactly(channel.log, socket)
    ensures channel.receivers == old(channel.receivers) + (if socket.open then 1 else 0)
  {
    hide Filter, SocketOk, SentExactly;
    cursor := channel.Subscribe();
    delivered := [];
    socket := Opened(sub, channel.log);
    taken := 0;
    var open, next := true, 0;
    while next < |turns| && open
      invariant channel.Valid() && channel.receivers == old(channel.receivers) + 1
      invariant taken == next <= |turns|
      invariant (channel.log, socket) == Drive(old(channel.log), Opened(sub, old(channel.log)), turns[..next])
      invariant delivered == socket.delivered && cursor == socket.cursor <= |channel.log|
      invariant open == socket.open && sub == socket.sub
    {
      ghost var before, prior := channel.log, socket;
      assert turns[..next + 1][..next] == turns[..next];
      match turns[next] {
        case Elsewhere(event) =>
          var _ := channel.Send(event);
        case EventsReady(sendFails) =>
          var received := channel.Recv(cursor);
          match received {
            case Empty =>
            case Lagged(missed) => cursor := cursor + missed;
            case Value(event) =>
              cursor := cursor + 1;
              if Allows(sub, event) {
                if sendFails {
                  open := false;
                } else {
                  delivered := delivered + [event];
                }
              }
          }
        case ChannelClosed => open := false;
        case ClientPing(sendFails) => if sendFails { open := false; }
        case ClientOther =>
        case ClientGone => open := false;
      }
      socket := Take(before, prior, turns[next]).1;
      next := next + 1;
      taken := next;
    }
    if !open {
      channel.Unsubscribe();
    }
    OpenedOk(sub, old(channel.log));
    DriveKeepsSocketOk(old(channel.log), Opened(sub, old(channel.log)), turns[..taken]);
    ExactWithoutLoss(channel.log, socket);
  }

  lemma ExactWithoutLoss(log: seq<TenantEvent>, k: Socket)
    requires SocketOk(log, k)
    ensures k.start <= k.cursor <= |log|
    ensures k.skipped == 0 && !k.failed ==> SentExactly(log, k)
  {
    hide Subsequence, Window, SentExactly;
    ExactUnlessMissed(log, k);
  }

  // ---------------------------------------------------------------- after a lag

  function Polled(log: seq<TenantEvent>, k: Socket, n: nat): (r: Socket)
    requires k.cursor <= |log|
    ensures r.cursor <= |log|
  {
    if n == 0 then k else Poll(log, Polled(log, k, n - 1), false)
  }

  /** A receive within reach hands over one event, which is sent if it is wanted. */
  lemma PollInReach(log: seq<TenantEvent>, k: Socket)
    requires k.cursor < |log| <= k.cursor + CAPACITY
    ensures Poll(log, k, false) ==
            k.(cursor := k.cursor + 1, received := k.received + 1,
               delivered := k.delivered + Filter(k.sub, [log[k.cursor]]))
  {
    hide Filter;
    var e := log[k.cursor];
    FilterNothing(k.sub);
    FilterSnoc(k.sub, [], e);
    assert [] + [e] == [e];
    assert k.delivered + [] == k.delivered;
  }

  lemma {:induction false} PolledInReach(log: seq<TenantEvent>, k: Socket, n: nat)
    requires k.cursor + n <= |log| <= k.cursor + CAPACITY
    ensures Polled(log, k, n) ==
            k.(cursor := k.cursor + n, received := k.received + n,
               delivered := k.delivered + Filter(k.sub, log[k.cursor..k.cursor + n]))
    decreases n
  {
    hide Filter, Poll;
    if n == 0 {
      assert log[k.cursor..k.cursor] == [];
      FilterNothing(k.sub);
      assert k.delivered + [] == k.delivered;
    } else {
      PolledInReach(log, k, n - 1);
      PollInReach(log, Polled(log, k, n - 1));
      var seen, e := log[k.cursor..k.cursor + (n - 1)], log[k.cursor + (n - 1)];
      FilterConcat(k.sub, seen, [e]);
      assert log[k.cursor..k.cursor + n] == seen + [e];
      assert k.delivered + Filter(k.sub, seen) + Filter(k.sub, [e])
             == k.delivered + (Filter(k.sub, seen) + Filter(k.sub, [e]));
    }
  }

  /**
    A receiver that has fallen behind loses only what was overwritten: the lag notice moves it to the oldest of
    the last 256 events, and the next 256 receives hand it all of those.
   */
  lemma LagKeepsTheRest(log: seq<TenantEvent>, k: Socket, e: TenantEvent)
    requires k.cursor <= |log| && |log| - k.cursor > 256
    ensures var r := Polled(log, k, 1 + 256);
            && r.cursor == |log| && r.received == k.received + 256
            && r.skipped == k.skipped + |log| - 256 - k.cursor
            && k.delivered <= r.delivered
            && (e in r.delivered[|k.delivered|..] <==>
                e in log[|log| - 256..] && e.tenant == k.sub.tenant
                && (k.sub.caseId == None || k.sub.caseId == Some(e.caseId)))
  {
    hide Filter;
    var moved := Poll(log, k, false);
    PolledInReach(log, moved, CAPACITY);
    PolledShift(log, k, CAPACITY);
    assert log[|log| - CAPACITY..|log|] == log[|log| - CAPACITY..];
    FilterAllows(k.sub, log[|log| - CAPACITY..], e);
  }

  lemma {:induction false} PolledShift(log: seq<TenantEvent>, k: Socket, n: nat)
    requires k.cursor <= |log|
    ensures Polled(log, k, 1 + n) == Polled(log, Poll(log, k, false), n)
    decreases n
  {
    hide Poll;
    if n > 0 {
      PolledShift(log, k, n - 1);
    } else {
      assert Polled(log, k, 0) == k;
    }
  }
}
