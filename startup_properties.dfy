/** What the `__main__` block promises about which worker it starts. */
module StartupProperties {
  import opened Common
  import opened TokenStore
  import opened Lifecycle
  import opened PairingProperties
  import opened ConsumerProperties

  /**
   * A token file that loads starts the consumer on the loaded token and no
   * pairing thread; the consumer then pairs only after the broker closes its
   * channel, and its first binding uses the loaded token.
   */
  lemma SavedTokenSkipsPairing(env: Environment, s: State)
    requires s.file.Object?
    ensures var r := Launch(env, s);
      && Extends(r, s)
      && r.consumers == s.consumers + 1
      && PairingStarted !in NewEvents(r, s)
      && exists c: seq<Event> :: NewEvents(r, s) == [ConsumerStarted, HeartbeatScheduled(0)] + c
           && ConsumerEvents(Load(s.file).token, c)
  {
    var s1 := Startup(s);
    assert NewEvents(s1, s) == [ConsumerStarted, HeartbeatScheduled(0)];
    var r := ConsumerLoop(env, s1);
    assert Launch(env, s) == r;
    ConsumerLoopEvents(env, s1);
    NewEventsChain(s, s1, r);
  }

  /** The events of a pairing thread that never started the consumer. */
  ghost predicate PairingOnly(e: seq<Event>)
  {
    exists p: seq<Event> :: e == [PairingStarted, HeartbeatScheduled(0)] + p
      && PairingRun(p, INITIAL_RETRY_DELAY) && ConsumerStarted !in p
  }

  /**
   * The events of a pairing thread whose run ended by starting the consumer,
   * followed by the consumer's, which start from the paired token.
   */
  ghost predicate PairingThenConsuming(e: seq<Event>)
  {
    exists p: seq<Event>, c: seq<Event> :: e == [PairingStarted, HeartbeatScheduled(0)] + p + c
      && PairingRun(p, INITIAL_RETRY_DELAY) && |p| >= 3 && p[|p| - 1] == ConsumerStarted
      && p[|p| - 3].PairSucceeded? && ConsumerEvents(p[|p| - 3].token, c)
  }

  /**
   * What a pairing thread started in `s` leaves in `r`: at most one consumer,
   * and the events of one of the two shapes above.
   */
  ghost predicate PairingOutcome(s: State, r: State)
  {
    && Extends(r, s)
    && (r.consumers == s.consumers || r.consumers == s.consumers + 1)
    && (r.consumers == s.consumers ==> PairingOnly(NewEvents(r, s)))
    && (r.consumers == s.consumers + 1 ==> PairingThenConsuming(NewEvents(r, s)))
  }

  /**
   * No token file starts only the pairing thread. Either it never starts the
   * consumer, and its events are one pairing run, or the run ends by starting
   * it and the consumer's events follow, beginning with the paired token.
   */
  lemma NoTokenFileStartsPairing(env: Environment, s: State)
    requires s.file == Missing
    ensures PairingOutcome(s, Launch(env, s))
  {
    var s1 := Startup(s);
    assert NewEvents(s1, s) == [PairingStarted, HeartbeatScheduled(0)];
    var s2 := PairingLoop(env, s1, INITIAL_RETRY_DELAY);
    LoopOutcome(env, s1, INITIAL_RETRY_DELAY);
    if s2.consumers > s1.consumers {
      assert Launch(env, s) == ConsumerLoop(env, s2);
      PairedThenConsumes(env, s, s1, s2);
      SameOutcome(s, ConsumerLoop(env, s2), Launch(env, s));
    } else {
      assert Launch(env, s) == s2;
      PairedWithoutConsuming(s, s1, s2);
      SameOutcome(s, s2, Launch(env, s));
    }
  }

  /**
   * Rewrites the final state of a bundled property by an equal one. Kept as a
   * lemma so the caller never unfolds the property and its quantifiers, which
   * made the solver run out of resource at the call sites.
   */
  lemma SameOutcome(s: State, a: State, b: State)
    requires a == b && PairingOutcome(s, a)
    ensures PairingOutcome(s, b)
  {
  }

  /** The branch of `NoTokenFileStartsPairing` where the run started no consumer. */
  lemma PairedWithoutConsuming(s: State, s1: State, s2: State)
    requires Extends(s1, s) && NewEvents(s1, s) == [PairingStarted, HeartbeatScheduled(0)]
    requires RunOutcome(s1, s2, INITIAL_RETRY_DELAY)
    requires s1.consumers == s.consumers && s2.consumers == s.consumers
    ensures PairingOutcome(s, s2)
  {
    NewEventsChain(s, s1, s2);
    assert NewEvents(s2, s) == [PairingStarted, HeartbeatScheduled(0)] + NewEvents(s2, s1);
  }

  /** The branch of `NoTokenFileStartsPairing` where the run started the consumer. */
  lemma PairedThenConsumes(env: Environment, s: State, s1: State, s2: State)
    requires Extends(s1, s) && NewEvents(s1, s) == [PairingStarted, HeartbeatScheduled(0)]
    requires RunOutcome(s1, s2, INITIAL_RETRY_DELAY)
    requires s1.consumers == s.consumers && s2.consumers == s.consumers + 1
    ensures PairingOutcome(s, ConsumerLoop(env, s2))
  {
    var p := NewEvents(s2, s1);
    var r := ConsumerLoop(env, s2);
    ConsumerLoopEvents(env, s2);
    NewEventsChain(s1, s2, r);
    NewEventsChain(s, s1, r);
    assert NewEvents(r, s) == [PairingStarted, HeartbeatScheduled(0)] + p + NewEvents(r, s2);
    ThenConsumingShape(p, NewEvents(r, s2), s2.token);
  }

  /** A run that started the consumer, followed by consumer events from the token it paired. */
  lemma ThenConsumingShape(p: seq<Event>, c: seq<Event>, t: Token)
    requires PairingRun(p, INITIAL_RETRY_DELAY) && ConsumerStarted in p
    requires |p| >= 3 && p[|p| - 3] == PairSucceeded(t) && ConsumerEvents(t, c)
    ensures PairingThenConsuming([PairingStarted, HeartbeatScheduled(0)] + p + c)
  {
    RunStartsConsumerLast(p, INITIAL_RETRY_DELAY);
    var i :| 0 <= i < |p| && p[i] == ConsumerStarted;
    assert p[|p| - 1] == ConsumerStarted;
  }

  /** A token file that cannot be parsed makes `load_local_token` raise: nothing is started. */
  lemma UnreadableTokenFileStartsNothing(env: Environment, s: State)
    requires s.file == Unparsable
    ensures NewEvents(Launch(env, s), s) == [StartupFailed]
    ensures Launch(env, s).consumers == s.consumers
  {
  }
}
