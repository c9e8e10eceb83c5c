/** From publication to client: an open socket sees every event published since it connected. */
module CaseDelivery {
  import opened Prelude
  import opened Uuids
  import opened CaseStore
  import opened Fanout
  import opened CaseProtocol
  import opened CaseInvariant

  /** While a socket is open, everything published enters the channel, in order. */
  lemma SocketStep(i: Interface, s: System, a: Action, k: nat)
    requires SocketIn(s, k) && !a.Restart?
    ensures var t := Next(i, s, a);
            && SocketIn(t, k) && t.sockets[k].start == s.sockets[k].start && t.sockets[k].sub == s.sockets[k].sub
            && (t.sockets[k].open ==> s.sockets[k].open)
            && s.sends <= t.sends && s.log <= t.log
            && (s.sockets[k].open ==> t.sends[|s.sends|..] == t.log[|s.log|..])
  {
    hide GetCase, EventReadable, ApplyMutate, Envelope, Retain, Hold, Filter;
    if a.Mutate? && Enabled(s, a) {
      MutateLeavesSockets(i, s, a);
    }
    if a.Publish? && s.sockets[k].open {
      assert Listening(s);
    }
  }

  predicate SocketIn(s: System, k: nat) {
    k in s.sockets
  }

  lemma MutateLeavesSockets(i: Interface, s: System, a: Action)
    requires a.Mutate? && Enabled(s, a)
    ensures var t := Next(i, s, a); t.sockets == s.sockets && t.sends == s.sends && t.log == s.log
  {
    hide Precheck, Procedure;
  }

  /** A run in which socket `k` connects after `before` and the process then keeps running. */
  function Connected(i: Interface, before: seq<Action>, k: nat, sub: Subscription, more: seq<Action>): System {
    After(i, before + [Connect(k, sub)] + more)
  }

  lemma ConnectStep(i: Interface, before: seq<Action>, k: nat, sub: Subscription)
    requires k !in After(i, before).sockets
    ensures var s, t := After(i, before), Connected(i, before, k, sub, []);
            && t.log == s.log && t.sends == s.sends && k in t.sockets && t.sockets[k] == Opened(sub, s.log)
  {
    var actions := before + [Connect(k, sub)];
    assert actions + [] == actions && actions[..|actions| - 1] == before;
  }

  /** The socket's share of the channel is everything published since it connected, as long as it is open. */
  lemma {:induction false} OpenSocketsSeeEveryPublication(
    i: Interface, before: seq<Action>, k: nat, sub: Subscription, more: seq<Action>)
    requires k !in After(i, before).sockets && Restart !in more
    ensures var s, t := After(i, before), Connected(i, before, k, sub, more);
            && k in t.sockets && t.sockets[k].start == |s.log| && t.sockets[k].sub == sub
            && |s.log| <= |t.log| && |s.sends| <= |t.sends|
            && (t.sockets[k].open ==> t.log[|s.log|..] == t.sends[|s.sends|..])
    decreases |more|
  {
    hide Next;
    if more == [] {
      ConnectStep(i, before, k, sub);
    } else {
      var init, last := more[..|more| - 1], more[|more| - 1];
      assert last in more;
      OpenSocketsSeeEveryPublication(i, before, k, sub, init);
      var all := before + [Connect(k, sub)] + more;
      assert all[..|all| - 1] == before + [Connect(k, sub)] + init && all[|all| - 1] == last;
      var s, u, t := After(i, before), Connected(i, before, k, sub, init), Connected(i, before, k, sub, more);
      SocketStep(i, u, last, k);
      if t.sockets[k].open {
        Suffixes(u.log, t.log, |s.log|);
        Suffixes(u.sends, t.sends, |s.sends|);
      }
    }
  }

  lemma Suffixes(a: seq<TenantEvent>, b: seq<TenantEvent>, n: nat)
    requires a <= b && n <= |a|
    ensures b[n..] == a[n..] + b[|a|..]
  {
  }

  /**
    End to end: a socket that is open, has read everything and missed nothing was sent an event if and only if it
    was published since the socket connected, in the subscribed tenant and, if one was named, for that case.
   */
  lemma CaughtUpSocketsHaveEverything(
    i: Interface, before: seq<Action>, k: nat, sub: Subscription, more: seq<Action>, e: TenantEvent)
    requires k !in After(i, before).sockets && Restart !in more
    requires var t := Connected(i, before, k, sub, more);
             k in t.sockets && t.sockets[k].open && t.sockets[k].cursor == |t.log| && t.sockets[k].missed == 0
    ensures |After(i, before).sends| <= |Connected(i, before, k, sub, more).sends|
    ensures var s, t := After(i, before), Connected(i, before, k, sub, more);
            e in t.sockets[k].delivered <==>
            e in t.sends[|s.sends|..] && e.tenant == sub.tenant && (sub.caseId == None || sub.caseId == Some(e.caseId))
  {
    hide After, Inv, SocketOk;
    var s, t := After(i, before), Connected(i, before, k, sub, more);
    OpenSocketsSeeEveryPublication(i, before, k, sub, more);
    Reachable(i, before + [Connect(k, sub)] + more);
    SocketAt(i, t, k);
    ExactUnlessMissed(t.log, t.sockets[k]);
    assert t.log[|s.log|..|t.log|] == t.log[|s.log|..];
  }
}
