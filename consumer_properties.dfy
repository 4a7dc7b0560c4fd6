/** What `start_consuming` and `on_notification_received` promise, proved about their model. */
module ConsumerProperties {
  import opened Common
  import opened TokenStore
  import opened Messages
  import opened Addressing
  import opened Lifecycle

  predicate IsPairEvent(ev: Event)
  {
    ev.PairSucceeded? || ev.PairFailed?
  }

  predicate IsDeliveredStatus(ev: Event)
  {
    ev.Published? && "status" in ev.message && ev.message["status"] == JString(StatusText(Delivered))
  }

  /**
   * Presentations and delivered statuses come in adjacent pairs: each scheduled
   * presentation directly follows the delivered status of its id, and each
   * delivered status is directly followed by that presentation.
   */
  predicate DeliveredThenShown(e: seq<Event>)
  {
    && (forall i :: 0 <= i < |e| && e[i].ShowScheduled? ==>
          0 < i && e[i - 1] == Published(StatusUpdate(e[i].n.id, Delivered)))
    && (forall i :: 0 <= i < |e| && IsDeliveredStatus(e[i]) ==>
          i + 1 < |e| && e[i + 1].ShowScheduled? && e[i] == Published(StatusUpdate(e[i + 1].n.id, Delivered)))
  }

  /** Every pairing attempt directly follows a session that the broker ended by closing the channel. */
  predicate PairsFollowClosure(e: seq<Event>)
  {
    forall i :: 0 <= i < |e| && IsPairEvent(e[i]) ==>
      0 < i && e[i - 1] == SessionEnded(Raised(ChannelClosedByBroker))
  }

  /** The consumer only ever waits the fixed reconnect delay. */
  predicate ReconnectWaits(e: seq<Event>)
  {
    forall i :: 0 <= i < |e| && e[i].Waited? ==> e[i].seconds == RECONNECT_DELAY
  }

  /** The token after the events `e`, starting from `t0`: the last successful pairing's. */
  function CurrentToken(t0: Token, e: seq<Event>): Token
    decreases |e|
  {
    if e == [] then t0
    else if e[|e| - 1].PairSucceeded? then e[|e| - 1].token
    else CurrentToken(t0, e[..|e| - 1])
  }

  /** Every binding uses `queue_<token>` and routing key `<token>` for the token current at that point. */
  predicate BindsUseCurrentToken(t0: Token, e: seq<Event>)
  {
    forall i :: 0 <= i < |e| && e[i].QueueBound? ==>
      e[i] == QueueBound(QueueName(CurrentToken(t0, e[..i])), CurrentToken(t0, e[..i]))
  }

  /** The invariants of the consumer's events when its token starts as `t0`. */
  predicate ConsumerEvents(t0: Token, e: seq<Event>)
  {
    && DeliveredThenShown(e)
    && PairsFollowClosure(e)
    && ReconnectWaits(e)
    && BindsUseCurrentToken(t0, e)
    && ConsumerStarted !in e
    && PairingStarted !in e
  }

  lemma {:induction false} CurrentTokenConcat(t0: Token, a: seq<Event>, b: seq<Event>)
    ensures CurrentToken(t0, a + b) == CurrentToken(CurrentToken(t0, a), b)
    decreases |b|
  {
    if b != [] {
      assert (a + b)[..|a + b| - 1] == a + b[..|b| - 1];
      CurrentTokenConcat(t0, a, b[..|b| - 1]);
    } else {
      assert a + b == a;
    }
  }

  lemma {:induction false} CurrentTokenWithoutPairing(t0: Token, e: seq<Event>)
    requires forall i :: 0 <= i < |e| ==> !e[i].PairSucceeded?
    ensures CurrentToken(t0, e) == t0
    decreases |e|
  {
    if e != [] {
      CurrentTokenWithoutPairing(t0, e[..|e| - 1]);
    }
  }

  /** The invariants hold of a concatenation when the second part starts from the first part's token. */
  lemma ConsumerEventsConcat(t0: Token, a: seq<Event>, b: seq<Event>)
    requires ConsumerEvents(t0, a) && ConsumerEvents(CurrentToken(t0, a), b)
    ensures ConsumerEvents(t0, a + b)
    ensures CurrentToken(t0, a + b) == CurrentToken(CurrentToken(t0, a), b)
  {
    CurrentTokenConcat(t0, a, b);
    DeliveredThenShownConcat(a, b);
    PairsFollowClosureConcat(a, b);
    ReconnectWaitsConcat(a, b);
    BindsConcat(t0, a, b);
    assert ConsumerStarted !in a + b && PairingStarted !in a + b;
  }

  lemma DeliveredThenShownConcat(a: seq<Event>, b: seq<Event>)
    requires DeliveredThenShown(a) && DeliveredThenShown(b)
    ensures DeliveredThenShown(a + b)
  {
    var e := a + b;
    forall i | 0 <= i < |e| && e[i].ShowScheduled?
      ensures 0 < i && e[i - 1] == Published(StatusUpdate(e[i].n.id, Delivered))
    {
      if i >= |a| { assert e[i] == b[i - |a|]; }
    }
    forall i | 0 <= i < |e| && IsDeliveredStatus(e[i])
      ensures i + 1 < |e| && e[i + 1].ShowScheduled? && e[i] == Published(StatusUpdate(e[i + 1].n.id, Delivered))
    {
      if i >= |a| { assert e[i] == b[i - |a|]; }
    }
  }

  lemma PairsFollowClosureConcat(a: seq<Event>, b: seq<Event>)
    requires PairsFollowClosure(a) && PairsFollowClosure(b)
    ensures PairsFollowClosure(a + b)
  {
    var e := a + b;
    forall i | 0 <= i < |e| && IsPairEvent(e[i])
      ensures 0 < i && e[i - 1] == SessionEnded(Raised(ChannelClosedByBroker))
    {
      if i >= |a| { assert e[i] == b[i - |a|]; }
    }
  }

  lemma ReconnectWaitsConcat(a: seq<Event>, b: seq<Event>)
    requires ReconnectWaits(a) && ReconnectWaits(b)
    ensures ReconnectWaits(a + b)
  {
    var e := a + b;
    forall i | 0 <= i < |e| && e[i].Waited? ensures e[i].seconds == RECONNECT_DELAY {
      if i >= |a| { assert e[i] == b[i - |a|]; }
    }
  }

  lemma BindsConcat(t0: Token, a: seq<Event>, b: seq<Event>)
    requires BindsUseCurrentToken(t0, a) && BindsUseCurrentToken(CurrentToken(t0, a), b)
    ensures BindsUseCurrentToken(t0, a + b)
  {
    BindsPointwise(t0, a, b);
  }

  /** The body of `BindsConcat`, position by position. */
  lemma BindsPointwise(t0: Token, a: seq<Event>, b: seq<Event>)
    requires BindsUseCurrentToken(t0, a) && BindsUseCurrentToken(CurrentToken(t0, a), b)
    ensures forall i :: 0 <= i < |a + b| && (a + b)[i].QueueBound? ==>
      (a + b)[i] == QueueBound(QueueName(CurrentToken(t0, (a + b)[..i])), CurrentToken(t0, (a + b)[..i]))
  {
    forall i | 0 <= i < |a + b| && (a + b)[i].QueueBound?
      ensures (a + b)[i] == QueueBound(QueueName(CurrentToken(t0, (a + b)[..i])), CurrentToken(t0, (a + b)[..i]))
    {
      if i < |a| {
        BindInFirstPart(t0, a, b, i);
      } else {
        BindInSecondPart(t0, a, b, i - |a|);
      }
    }
  }

  /** A binding at position `i` of `a` sees the same token when `b` follows. */
  lemma BindInFirstPart(t0: Token, a: seq<Event>, b: seq<Event>, i: int)
    requires BindsUseCurrentToken(t0, a)
    requires 0 <= i < |a| && a[i].QueueBound?
    ensures var e := a + b;
      e[i] == QueueBound(QueueName(CurrentToken(t0, e[..i])), CurrentToken(t0, e[..i]))
  {
    var e := a + b;
    assert e[..i] == a[..i];
    assert e[i] == a[i];
  }

  /** A binding at position `j` of `b` sees, after `a`, the token that `b`'s own start does. */
  lemma BindInSecondPart(t0: Token, a: seq<Event>, b: seq<Event>, j: int)
    requires BindsUseCurrentToken(CurrentToken(t0, a), b)
    requires 0 <= j < |b| && b[j].QueueBound?
    ensures var e := a + b;
      e[|a| + j] == QueueBound(QueueName(CurrentToken(t0, e[..|a| + j])), CurrentToken(t0, e[..|a| + j]))
  {
    var e := a + b;
    assert e[..|a| + j] == a + b[..j];
    CurrentTokenConcat(t0, a, b[..j]);
    assert e[|a| + j] == b[j];
  }

  /** The events of callbacks only: delivered statuses and presentations. */
  predicate OnlyDeliveries(e: seq<Event>)
  {
    DeliveredThenShown(e) && forall i :: 0 <= i < |e| ==> e[i].Published? || e[i].ShowScheduled?
  }

  lemma OnlyDeliveriesConcat(a: seq<Event>, b: seq<Event>)
    requires OnlyDeliveries(a) && OnlyDeliveries(b)
    ensures OnlyDeliveries(a + b)
  {
    DeliveredThenShownConcat(a, b);
    var e := a + b;
    forall i | |a| <= i < |e| ensures e[i].Published? || e[i].ShowScheduled? {
      assert e[i] == b[i - |a|];
    }
  }

  lemma OnlyDeliveriesAreConsumerEvents(t0: Token, e: seq<Event>)
    requires OnlyDeliveries(e)
    ensures ConsumerEvents(t0, e) && CurrentToken(t0, e) == t0
  {
    CurrentTokenWithoutPairing(t0, e);
    assert ConsumerStarted !in e && PairingStarted !in e;
  }

  /** One message yields exactly its delivered status and then its presentation, or nothing. */
  lemma CallbackEvents(d: Delivery)
    ensures OnlyDeliveries(OnNotificationReceived(d).0)
  {
    var (e, err) := OnNotificationReceived(d);
    if err == None {
      var n := d.body.n;
      assert e == [Published(StatusUpdate(n.id, Delivered)), ShowScheduled(n)];
      assert StatusUpdate(n.id, Delivered)["status"] == JString(StatusText(Delivered));
      assert !IsDeliveredStatus(e[1]);
    }
  }

  /** A session's callbacks, taken together, keep delivered statuses and presentations paired. */
  lemma {:induction false} DeliverEvents(s: State, ds: seq<Delivery>)
    ensures OnlyDeliveries(NewEvents(Deliver(s, ds).0, s))
    decreases |ds|
  {
    if ds != [] {
      var (e, err) := OnNotificationReceived(ds[0]);
      CallbackEvents(ds[0]);
      var s1 := Emit(s, e);
      if err.None? {
        DeliverEvents(s1, ds[1..]);
        var r := Deliver(s1, ds[1..]).0;
        assert NewEvents(r, s) == e + NewEvents(r, s1);
        OnlyDeliveriesConcat(e, NewEvents(r, s1));
      } else {
        assert NewEvents(s1, s) == e;
      }
    }
  }

  /** A binding on the current token, alone, keeps the invariants. */
  lemma BindEvent(t: Token)
    ensures ConsumerEvents(t, [QueueBound(QueueName(t), t)])
    ensures CurrentToken(t, [QueueBound(QueueName(t), t)]) == t
  {
    var b := [QueueBound(QueueName(t), t)];
    assert b[..0] == [];
    assert b[..|b| - 1] == [];
  }

  /**
   * The consumer's events from `s` to `r` keep its invariants, and `r` holds
   * the token current at their end.
   */
  ghost predicate ConsumerStretch(s: State, r: State)
  {
    && Extends(r, s)
    && ConsumerEvents(s.token, NewEvents(r, s))
    && r.token == CurrentToken(s.token, NewEvents(r, s))
  }

  /**
   * Rewrites the final state of a bundled property by an equal one. Kept as a
   * lemma so the caller never unfolds the property and its quantifiers, which
   * made the solver run out of resource at the call sites.
   */
  lemma SameStretch(s: State, a: State, b: State)
    requires a == b && ConsumerStretch(s, a)
    ensures ConsumerStretch(s, b)
  {
  }

  /** No events and the same token make a stretch. */
  lemma EmptyStretch(s: State, r: State)
    requires r.trace == s.trace && r.token == s.token
    ensures ConsumerStretch(s, r)
  {
    assert NewEvents(r, s) == [];
  }

  /** Two stretches, one after the other, make one. */
  lemma ChainEvents(s: State, m: State, r: State)
    requires ConsumerStretch(s, m) && ConsumerStretch(m, r)
    ensures ConsumerStretch(s, r)
  {
    assert r.trace == m.trace[..|s.trace|] + NewEvents(m, s) + NewEvents(r, m);
    assert NewEvents(r, s) == NewEvents(m, s) + NewEvents(r, m);
    ConsumerEventsConcat(s.token, NewEvents(m, s), NewEvents(r, m));
  }

  /** The `try` block emits only its binding with the current token and its callbacks. */
  lemma ConsumeEvents(env: Environment, s: State)
    ensures ConsumerStretch(s, Consume(env, s).0)
  {
    var r := Consume(env, s).0;
    match env.session(s.sessions)
    case Refused(k) =>
      EmptyStretch(s, r);
    case Bound(ds, end) =>
      var s2 := Emit(s.(sessions := s.sessions + 1), [QueueBound(QueueName(s.token), s.token)]);
      assert r == Deliver(s2, ds).0;
      DeliverEvents(s2, ds);
      BindThenDeliveries(s, s2, r);
  }

  /** A binding on the current token followed by a session's callbacks. */
  lemma BindThenDeliveries(s: State, s2: State, r: State)
    requires s2.trace == s.trace + [QueueBound(QueueName(s.token), s.token)]
    requires Extends(r, s2) && OnlyDeliveries(NewEvents(r, s2)) && r.token == s.token
    ensures ConsumerStretch(s, r)
  {
    var b := [QueueBound(QueueName(s.token), s.token)];
    var rest := NewEvents(r, s2);
    assert r.trace == s.trace + b + rest by {
      assert r.trace == r.trace[..|s2.trace|] + rest;
    }
    assert NewEvents(r, s) == b + rest;
    OnlyDeliveriesAreConsumerEvents(s.token, rest);
    BindEvent(s.token);
    ConsumerEventsConcat(s.token, b, rest);
  }

  /** A session end that is followed by nothing: a normal return. */
  lemma EndOnlyStretch(s: State, r: State, end: SessionEnd)
    requires Extends(r, s) && NewEvents(r, s) == [SessionEnded(end)] && r.token == s.token
    ensures ConsumerStretch(s, r)
  {
    var e := NewEvents(r, s);
    assert e[..0] == [];
  }

  /** A broker channel closure followed by a successful re-pairing and its two saves. */
  lemma RepairedStretch(s: State, r: State)
    requires Extends(r, s)
    requires NewEvents(r, s) == [SessionEnded(Raised(ChannelClosedByBroker)), PairSucceeded(r.token),
                                 TokenSaved(r.token), TokenSaved(r.token)]
    ensures ConsumerStretch(s, r)
  {
    var e := NewEvents(r, s);
    assert e[..3][..2][..1] == e[..1];
    assert CurrentToken(s.token, e[..2]) == r.token;
    assert CurrentToken(s.token, e[..3]) == r.token;
  }

  /** A broker channel closure followed by a failed re-pairing and the 5 s wait. */
  lemma UnrepairedStretch(s: State, r: State, f: PairFailure, stopped: bool)
    requires Extends(r, s) && r.token == s.token
    requires NewEvents(r, s) == [SessionEnded(Raised(ChannelClosedByBroker)), PairFailed(f),
                                 Waited(RECONNECT_DELAY, stopped)]
    ensures ConsumerStretch(s, r)
  {
    var e := NewEvents(r, s);
    CurrentTokenWithoutPairing(s.token, e);
    assert e[..0] == [];
  }

  /** Any other session end followed by the 5 s wait. */
  lemma WaitStretch(s: State, r: State, end: SessionEnd, stopped: bool)
    requires Extends(r, s) && r.token == s.token
    requires NewEvents(r, s) == [SessionEnded(end), Waited(RECONNECT_DELAY, stopped)]
    ensures ConsumerStretch(s, r)
  {
    var e := NewEvents(r, s);
    CurrentTokenWithoutPairing(s.token, e);
    assert e[..0] == [];
  }

  /** The `except` clauses emit the session end and then a re-pairing or a 5 s wait. */
  lemma RecoverEvents(env: Environment, s: State, end: SessionEnd)
    ensures ConsumerStretch(s, Recover(env, Emit(s, [SessionEnded(end)]), end).0)
  {
    var s1 := Emit(s, [SessionEnded(end)]);
    var r := Recover(env, s1, end).0;
    match end
    case Returned =>
      assert r == s1;
      EndOnlyStretch(s, r, end);
    case Raised(ChannelClosedByBroker) =>
      var (ok, s2) := PairWithServer(env, s1);
      if ok {
        assert r == SaveLocalToken(s2, s2.token);
        assert NewEvents(r, s) == [SessionEnded(end), PairSucceeded(r.token), TokenSaved(r.token), TokenSaved(r.token)];
        RepairedStretch(s, r);
      } else {
        var (stopped, s3) := Wait(s2, RECONNECT_DELAY);
        assert r == s3;
        var f := NewEvents(s2, s1)[0];
        assert NewEvents(r, s) == [SessionEnded(end), PairFailed(f.reason), Waited(RECONNECT_DELAY, stopped)];
        UnrepairedStretch(s, r, f.reason, stopped);
      }
    case Raised(_) =>
      var (stopped, s2) := Wait(s1, RECONNECT_DELAY);
      assert r == s2;
      assert NewEvents(r, s) == [SessionEnded(end), Waited(RECONNECT_DELAY, stopped)];
      WaitStretch(s, r, end, stopped);
  }

  /** One iteration keeps the invariants and leaves the token current at its end. */
  lemma IterationEvents(env: Environment, s: State)
    ensures ConsumerStretch(s, ConsumerIteration(env, s).0)
  {
    var (s1, end) := Consume(env, s);
    ConsumeEvents(env, s);
    RecoverEvents(env, s1, end);
    var r := Recover(env, Emit(s1, [SessionEnded(end)]), end).0;
    ChainEvents(s, s1, r);
    SameStretch(s, r, ConsumerIteration(env, s).0);
  }

  /**
   * `start_consuming` as a whole: delivered before shown in pairs, re-pairing only
   * after a broker channel closure, 5 s waits only, every binding on the token
   * current at that point, no thread started, and the final token that of the
   * last successful re-pairing.
   */
  lemma {:induction false} ConsumerLoopEvents(env: Environment, s: State)
    ensures ConsumerStretch(s, ConsumerLoop(env, s))
    decreases s.stopAfter
  {
    var (stop, s1) := Observe(s);
    EmptyStretch(s, s1);
    if stop {
      SameStretch(s, s1, ConsumerLoop(env, s));
    } else {
      var (s2, cont) := ConsumerIteration(env, s1);
      IterationEvents(env, s1);
      ChainEvents(s, s1, s2);
      if cont {
        ConsumerLoopEvents(env, s2);
        ChainEvents(s, s2, ConsumerLoop(env, s2));
        SameStretch(s, ConsumerLoop(env, s2), ConsumerLoop(env, s));
      } else {
        SameStretch(s, s2, ConsumerLoop(env, s));
      }
    }
  }

  predicate IsStoppedWait(ev: Event)
  {
    ev.Waited? && ev.stopped
  }

  /** A wait cut short by the stop event, if any, is the last event. */
  predicate StopEndsEvents(e: seq<Event>)
  {
    forall i :: 0 <= i < |e| && IsStoppedWait(e[i]) ==> i == |e| - 1
  }

  predicate NoStoppedWait(e: seq<Event>)
  {
    forall i :: 0 <= i < |e| ==> !IsStoppedWait(e[i])
  }

  /**
   * How the consumer ran from `s` to `r`: the stop event is spent, and a wait
   * cut short by it can only be the last event.
   */
  predicate StoppedExit(s: State, r: State)
  {
    Extends(r, s) && r.stopAfter == 0 && StopEndsEvents(NewEvents(r, s))
  }

  /**
   * One iteration either goes on with no wait cut short by stop, or ends the
   * loop with a stopped wait as its last event.
   */
  predicate IterationExit(s: State, r: State, cont: bool)
  {
    && Extends(r, s)
    && (cont ==> NoStoppedWait(NewEvents(r, s)))
    && (!cont ==> StoppedExit(s, r) && |NewEvents(r, s)| > 0 && IsStoppedWait(NewEvents(r, s)[|NewEvents(r, s)| - 1]))
  }

  /**
   * Rewrites the final state of a bundled property by an equal one. Kept as a
   * lemma so the caller never unfolds the property and its quantifiers, which
   * made the solver run out of resource at the call sites.
   */
  lemma SameIterationExit(s: State, a: (State, bool), b: (State, bool))
    requires a == b && IterationExit(s, a.0, a.1)
    ensures IterationExit(s, b.0, b.1)
  {
  }

  /**
   * Rewrites the final state of a bundled property by an equal one. Kept as a
   * lemma so the caller never unfolds the property and its quantifiers, which
   * made the solver run out of resource at the call sites.
   */
  lemma SameStoppedExit(s: State, a: State, b: State)
    requires a == b && StoppedExit(s, a)
    ensures StoppedExit(s, b)
  {
  }

  /** The `try` block of one session never waits. */
  lemma ConsumeHasNoWait(env: Environment, s: State)
    ensures NoStoppedWait(NewEvents(Consume(env, s).0, s))
  {
    var r := Consume(env, s).0;
    match env.session(s.sessions)
    case Refused(k) =>
      assert NewEvents(r, s) == [];
    case Bound(ds, end) =>
      var s2 := Emit(s.(sessions := s.sessions + 1), [QueueBound(QueueName(s.token), s.token)]);
      assert r == Deliver(s2, ds).0;
      DeliverEvents(s2, ds);
      NoWaitAfterBind(s, s2, r);
  }

  /** A binding followed by a session's callbacks holds no wait. */
  lemma NoWaitAfterBind(s: State, s2: State, r: State)
    requires s2.trace == s.trace + [QueueBound(QueueName(s.token), s.token)]
    requires Extends(r, s2) && OnlyDeliveries(NewEvents(r, s2))
    ensures NoStoppedWait(NewEvents(r, s))
  {
    var rest := NewEvents(r, s2);
    assert r.trace == r.trace[..|s2.trace|] + rest;
    var e := NewEvents(r, s);
    assert e == [QueueBound(QueueName(s.token), s.token)] + rest;
    forall i | 0 <= i < |e| ensures !IsStoppedWait(e[i]) {
      if i > 0 {
        assert e[i] == rest[i - 1];
      }
    }
  }

  /** The `except` clauses either go on without a stopped wait or end on one. */
  lemma RecoverExit(env: Environment, s: State, end: SessionEnd)
    ensures var r := Recover(env, Emit(s, [SessionEnded(end)]), end);
      IterationExit(s, r.0, r.1)
  {
    var s1 := Emit(s, [SessionEnded(end)]);
    var r := Recover(env, s1, end);
    match end
    case Returned =>
      assert NewEvents(r.0, s) == [SessionEnded(end)];
    case Raised(ChannelClosedByBroker) =>
      var (ok, s2) := PairWithServer(env, s1);
      if ok {
        assert r.0 == SaveLocalToken(s2, s2.token) && r.1;
        assert NewEvents(r.0, s) == [SessionEnded(end), PairSucceeded(r.0.token), TokenSaved(r.0.token), TokenSaved(r.0.token)];
      } else {
        var (stopped, s3) := Wait(s2, RECONNECT_DELAY);
        assert r == (s3, !stopped);
        var f := NewEvents(s2, s1)[0];
        WaitExit(s, s3, [SessionEnded(end), f], stopped);
      }
    case Raised(_) =>
      var (stopped, s2) := Wait(s1, RECONNECT_DELAY);
      assert r == (s2, !stopped);
      WaitExit(s, s2, [SessionEnded(end)], stopped);
  }

  /** Events without waits followed by the 5 s wait, which decides whether the loop goes on. */
  lemma WaitExit(s: State, r: State, pre: seq<Event>, stopped: bool)
    requires forall i :: 0 <= i < |pre| ==> !pre[i].Waited?
    requires Extends(r, s) && NewEvents(r, s) == pre + [Waited(RECONNECT_DELAY, stopped)]
    requires stopped ==> r.stopAfter == 0
    ensures IterationExit(s, r, !stopped)
  {
    var e := NewEvents(r, s);
    assert forall i :: 0 <= i < |pre| ==> e[i] == pre[i];
  }

  /** One iteration: the session, then the `except` clauses. */
  lemma IterationStopExit(env: Environment, s: State)
    ensures var r := ConsumerIteration(env, s);
      IterationExit(s, r.0, r.1)
  {
    var (s1, end) := Consume(env, s);
    ConsumeHasNoWait(env, s);
    RecoverExit(env, s1, end);
    var r := Recover(env, Emit(s1, [SessionEnded(end)]), end);
    ExitAfterNoWait(s, s1, r.0, r.1);
    SameIterationExit(s, r, ConsumerIteration(env, s));
  }

  /** Events with no stopped wait in front of an iteration's exit. */
  lemma ExitAfterNoWait(s: State, m: State, r: State, cont: bool)
    requires Extends(m, s) && NoStoppedWait(NewEvents(m, s)) && IterationExit(m, r, cont)
    ensures IterationExit(s, r, cont)
  {
    NewEventsChain(s, m, r);
    StopAfterNoStop(NewEvents(m, s), NewEvents(r, m));
  }

  /** Concatenation with a first part that holds no stopped wait. */
  lemma StopAfterNoStop(a: seq<Event>, b: seq<Event>)
    requires NoStoppedWait(a)
    ensures NoStoppedWait(b) ==> NoStoppedWait(a + b)
    ensures StopEndsEvents(b) ==> StopEndsEvents(a + b)
    ensures b != [] ==> (a + b)[|a + b| - 1] == b[|b| - 1]
  {
    var e := a + b;
    forall i | |a| <= i < |e| ensures e[i] == b[i - |a|] { }
  }

  /**
   * `start_consuming` returns only once the stop event is set, whether seen at
   * the loop head or during a 5 s wait, and a wait cut short by stop ends it.
   */
  lemma {:induction false} ConsumerLoopEndsOnStop(env: Environment, s: State)
    ensures StoppedExit(s, ConsumerLoop(env, s))
    decreases s.stopAfter
  {
    var (stop, s1) := Observe(s);
    if stop {
      assert NewEvents(s1, s) == [];
      SameStoppedExit(s, s1, ConsumerLoop(env, s));
    } else {
      var (s2, cont) := ConsumerIteration(env, s1);
      IterationStopExit(env, s1);
      assert NewEvents(s2, s) == NewEvents(s2, s1);
      if cont {
        var r := ConsumerLoop(env, s2);
        ConsumerLoopEndsOnStop(env, s2);
        NewEventsChain(s, s2, r);
        StopAfterNoStop(NewEvents(s2, s), NewEvents(r, s2));
        SameStoppedExit(s, r, ConsumerLoop(env, s));
      } else {
        SameStoppedExit(s, s2, ConsumerLoop(env, s));
      }
    }
  }

  /** The first callback that raises, if any. */
  function FirstFailure(ds: seq<Delivery>): Option<ErrorKind>
  {
    if ds == [] then None
    else if OnNotificationReceived(ds[0]).1.Some? then OnNotificationReceived(ds[0]).1
    else FirstFailure(ds[1..])
  }

  /** How a session ends from the loop's point of view: refused, a raising callback, or its own end. */
  function EffectiveEnd(sess: Session): SessionEnd
  {
    match sess
    case Refused(k) => Raised(k)
    case Bound(ds, end) => if FirstFailure(ds).Some? then Raised(FirstFailure(ds).value) else end
  }

  lemma {:induction false} DeliverStopsAtFirstFailure(s: State, ds: seq<Delivery>)
    ensures Deliver(s, ds).1 == FirstFailure(ds)
    decreases |ds|
  {
    if ds != [] && OnNotificationReceived(ds[0]).1.None? {
      DeliverStopsAtFirstFailure(Emit(s, OnNotificationReceived(ds[0]).0), ds[1..]);
    }
  }

  /** The number of messages handled before the first callback that raises. */
  function Handled(ds: seq<Delivery>): (n: nat)
    ensures n <= |ds|
  {
    if ds == [] || OnNotificationReceived(ds[0]).1.Some? then 0 else 1 + Handled(ds[1..])
  }

  /**
   * The handled messages are exactly those before the first raising callback:
   * each of them succeeds, and the next one, if any, raises the session's error.
   */
  lemma {:induction false} HandledIsFirstFailure(ds: seq<Delivery>)
    ensures forall k :: 0 <= k < Handled(ds) ==> OnNotificationReceived(ds[k]).1 == None
    ensures Handled(ds) < |ds| <==> FirstFailure(ds).Some?
    ensures Handled(ds) < |ds| ==> OnNotificationReceived(ds[Handled(ds)]).1 == FirstFailure(ds)
    decreases |ds|
  {
    if ds != [] && OnNotificationReceived(ds[0]).1.None? {
      HandledIsFirstFailure(ds[1..]);
      forall k | 0 < k < Handled(ds) ensures OnNotificationReceived(ds[k]).1 == None {
        assert ds[k] == ds[1..][k - 1];
      }
      assert Handled(ds) < |ds| ==> ds[Handled(ds)] == ds[1..][Handled(ds[1..])];
    }
  }

  /**
   * `e` holds, in order, the delivered status and then the presentation of each
   * of the first `n` messages of `ds`, and nothing else.
   */
  predicate HandledInOrder(e: seq<Event>, ds: seq<Delivery>, n: nat)
  {
    && n <= |ds| && |e| == 2 * n
    && forall k :: 0 <= k < n ==>
         && ds[k].body.Decoded?
         && e[2 * k] == Published(StatusUpdate(ds[k].body.n.id, Delivered))
         && e[2 * k + 1] == ShowScheduled(ds[k].body.n)
  }

  /**
   * Dispatching handles every message up to the first raising callback, in the
   * order the broker delivered them: its delivered status, then its presentation.
   */
  lemma {:induction false} DeliverHandlesInOrder(s: State, ds: seq<Delivery>)
    ensures HandledInOrder(NewEvents(Deliver(s, ds).0, s), ds, Handled(ds))
    decreases |ds|
  {
    if ds == [] {
      assert NewEvents(Deliver(s, ds).0, s) == [];
    } else {
      var (e, err) := OnNotificationReceived(ds[0]);
      var s1 := Emit(s, e);
      if err.Some? {
        assert NewEvents(Deliver(s, ds).0, s) == [];
      } else {
        var r := Deliver(s1, ds[1..]).0;
        assert Deliver(s, ds).0 == r;
        DeliverHandlesInOrder(s1, ds[1..]);
        assert NewEvents(r, s) == e + NewEvents(r, s1) by {
          assert r.trace == r.trace[..|s1.trace|] + NewEvents(r, s1);
        }
        HandledInFront(ds, NewEvents(r, s1), Handled(ds[1..]));
      }
    }
  }

  /** A successful first callback put in front of the handled rest. */
  lemma HandledInFront(ds: seq<Delivery>, rest: seq<Event>, n: nat)
    requires ds != [] && OnNotificationReceived(ds[0]).1 == None
    requires HandledInOrder(rest, ds[1..], n)
    ensures HandledInOrder(OnNotificationReceived(ds[0]).0 + rest, ds, n + 1)
  {
    var e := OnNotificationReceived(ds[0]).0 + rest;
    forall k | 0 < k < n + 1
      ensures && ds[k].body.Decoded?
              && e[2 * k] == Published(StatusUpdate(ds[k].body.n.id, Delivered))
              && e[2 * k + 1] == ShowScheduled(ds[k].body.n)
    {
      assert ds[k] == ds[1..][k - 1];
      assert e[2 * k] == rest[2 * (k - 1)] && e[2 * k + 1] == rest[2 * (k - 1) + 1];
    }
  }

  lemma ConsumeEnd(env: Environment, s: State)
    ensures Consume(env, s).1 == EffectiveEnd(env.session(s.sessions))
  {
    match env.session(s.sessions)
    case Refused(_) =>
    case Bound(ds, _) =>
      DeliverStopsAtFirstFailure(Emit(s.(sessions := s.sessions + 1),
        [QueueBound(QueueName(s.token), s.token)]), ds);
  }

  /** A session that returns normally is rebound at once, with the same token. */
  lemma ReturnedRebindsAtOnce(env: Environment, s: State)
    requires EffectiveEnd(env.session(s.sessions)) == Returned
    ensures var (r, cont) := ConsumerIteration(env, s);
      var e := NewEvents(r, s);
      cont && |e| > 0 && e[|e| - 1] == SessionEnded(Returned) && r.token == s.token && r.file == s.file
  {
    var (s1, end) := Consume(env, s);
    ConsumeEnd(env, s);
    assert ConsumerIteration(env, s) == (Emit(s1, [SessionEnded(end)]), true);
  }

  /**
   * A broker channel closure followed by a successful re-pairing: the new token
   * is held and saved (twice: once by the pairing, once by the loop) and the loop
   * goes on without a wait.
   */
  lemma ClosureRepairedContinuesAtOnce(env: Environment, s: State)
    requires EffectiveEnd(env.session(s.sessions)) == Raised(ChannelClosedByBroker)
    requires IsPairingSuccess(env.reply(s.pairCalls))
    ensures var (r, cont) := ConsumerIteration(env, s);
      var e := NewEvents(r, s);
      var t := env.reply(s.pairCalls).body.token;
      && cont && r.token == t && r.file == Save(t) && |e| >= 4
      && e[|e| - 4..] == [SessionEnded(Raised(ChannelClosedByBroker)), PairSucceeded(t), TokenSaved(t), TokenSaved(t)]
  {
    var (s1, end) := Consume(env, s);
    ConsumeEnd(env, s);
    var s2 := Emit(s1, [SessionEnded(end)]);
    var (ok, s3) := PairWithServer(env, s2);
    var r := SaveLocalToken(s3, s3.token);
    assert ConsumerIteration(env, s) == (r, true);
    RepairedTail(s, s2, r, s3.token);
  }

  /** The last four events after a closure whose re-pairing gave `t`. */
  lemma RepairedTail(s: State, s2: State, r: State, t: Token)
    requires Extends(s2, s) && |s2.trace| > |s.trace|
    requires s2.trace[|s2.trace| - 1] == SessionEnded(Raised(ChannelClosedByBroker))
    requires r.trace == s2.trace + [PairSucceeded(t), TokenSaved(t), TokenSaved(t)]
    ensures Extends(r, s) && |NewEvents(r, s)| >= 4
    ensures var e := NewEvents(r, s);
      e[|e| - 4..] == [SessionEnded(Raised(ChannelClosedByBroker)), PairSucceeded(t), TokenSaved(t), TokenSaved(t)]
  {
    assert r.trace[..|s2.trace|] == s2.trace;
    assert r.trace[|r.trace| - 4..] == [SessionEnded(Raised(ChannelClosedByBroker)), PairSucceeded(t), TokenSaved(t), TokenSaved(t)];
  }

  /** A broker channel closure whose re-pairing fails: token and file kept, then a 5 s wait. */
  lemma ClosureUnrepairedWaits(env: Environment, s: State)
    requires EffectiveEnd(env.session(s.sessions)) == Raised(ChannelClosedByBroker)
    requires !IsPairingSuccess(env.reply(s.pairCalls))
    ensures var (r, cont) := ConsumerIteration(env, s);
      var e := NewEvents(r, s);
      && r.token == s.token && r.file == s.file && |e| >= 3
      && e[|e| - 3] == SessionEnded(Raised(ChannelClosedByBroker)) && e[|e| - 2].PairFailed?
      && e[|e| - 1] == Waited(RECONNECT_DELAY, !cont)
  {
    var (s1, end) := Consume(env, s);
    ConsumeEnd(env, s);
    var s2 := Emit(s1, [SessionEnded(end)]);
    var (ok, s3) := PairWithServer(env, s2);
    var (stopped, s4) := Wait(s3, RECONNECT_DELAY);
    assert ConsumerIteration(env, s) == (s4, !stopped);
    assert s4.trace == s2.trace + [NewEvents(s3, s2)[0], Waited(RECONNECT_DELAY, stopped)];
    assert s4.trace[|s4.trace| - 3] == SessionEnded(end);
  }

  /** A connection error or any other error: no re-pairing, token and file kept, then a 5 s wait. */
  lemma ErrorWaitsKeepingToken(env: Environment, s: State)
    requires EffectiveEnd(env.session(s.sessions)).Raised?
    requires EffectiveEnd(env.session(s.sessions)).kind != ChannelClosedByBroker
    ensures var (r, cont) := ConsumerIteration(env, s);
      var e := NewEvents(r, s);
      && r.token == s.token && r.file == s.file && r.pairCalls == s.pairCalls && |e| >= 2
      && e[|e| - 2] == SessionEnded(EffectiveEnd(env.session(s.sessions)))
      && e[|e| - 1] == Waited(RECONNECT_DELAY, !cont)
  {
    var (s1, end) := Consume(env, s);
    ConsumeEnd(env, s);
    var s2 := Emit(s1, [SessionEnded(end)]);
    var (stopped, s3) := Wait(s2, RECONNECT_DELAY);
    assert ConsumerIteration(env, s) == (s3, !stopped);
    assert s3.trace == s2.trace + [Waited(RECONNECT_DELAY, stopped)];
    assert s3.trace[|s3.trace| - 2] == SessionEnded(end);
  }

  /** A loop that is not stopped and whose next session binds starts with that binding. */
  lemma LoopStartsWithBind(env: Environment, r: State)
    requires r.stopAfter > 0 && env.session(r.sessions).Bound?
    ensures var next := NewEvents(ConsumerLoop(env, r), r);
      |next| > 0 && next[0] == QueueBound(QueueName(r.token), r.token)
  {
    var (stop, r1) := Observe(r);
    var (c, end) := Consume(env, r1);
    var e := Emit(c, [SessionEnded(end)]);
    var (r2, cont) := ConsumerIteration(env, r1);
    NewEventsChain(r1, c, e);
    NewEventsChain(r1, e, r2);
    var final := ConsumerLoop(env, r);
    assert final == if cont then ConsumerLoop(env, r2) else r2;
    NewEventsChain(r1, r2, final);
    assert NewEvents(final, r) == NewEvents(final, r1);
  }

  /** After a successful re-pairing the very next binding uses the new token. */
  lemma RePairThenRebind(env: Environment, s: State)
    requires EffectiveEnd(env.session(s.sessions)) == Raised(ChannelClosedByBroker)
    requires IsPairingSuccess(env.reply(s.pairCalls))
    requires var r := ConsumerIteration(env, s).0;
      r.stopAfter > 0 && env.session(r.sessions).Bound?
    ensures var r := ConsumerIteration(env, s).0;
      var t := env.reply(s.pairCalls).body.token;
      var next := NewEvents(ConsumerLoop(env, r), r);
      |next| > 0 && next[0] == QueueBound(QueueName(t), t)
  {
    ClosureRepairedContinuesAtOnce(env, s);
    LoopStartsWithBind(env, ConsumerIteration(env, s).0);
  }
}
