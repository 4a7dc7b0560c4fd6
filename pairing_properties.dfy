/** What `attempt_pairing` and `pair_with_server` promise, proved about their model. */
module PairingProperties {
  import opened Common
  import opened TokenStore
  import opened Lifecycle

  /** The `k`-th backoff delay of a run whose first delay is `d`. */
  function DelayAt(d: int, k: nat): int
    decreases k
  {
    if k == 0 then d else DelayAt(NextDelay(d), k - 1)
  }

  /** The seconds of every wait in `e`, in order. */
  function Delays(e: seq<Event>): seq<int>
    decreases |e|
  {
    if e == [] then [] else (if e[0].Waited? then [e[0].seconds] else []) + Delays(e[1..])
  }

  /**
   * The events of one run of `attempt_pairing` whose `retry_delay` is now `d`:
   * nothing (stop seen at the loop head); a success, its save and the consumer
   * start; a failure and a backoff wait interrupted by stop; or a failure, an
   * uninterrupted wait and the rest of the run with the next delay.
   */
  predicate PairingRun(e: seq<Event>, d: int)
    decreases |e|
  {
    || e == []
    || (|e| == 3 && e[0].PairSucceeded? && e[1] == TokenSaved(e[0].token) && e[2] == ConsumerStarted)
    || (|e| == 2 && e[0].PairFailed? && e[1] == Waited(d, true))
    || (|e| >= 2 && e[0].PairFailed? && e[1] == Waited(d, false) && PairingRun(e[2..], NextDelay(d)))
  }

  /**
   * What a pairing loop started in `s` with delay `d` leaves in `r`: its events
   * are a run, a consumer was started exactly when the run contains the start,
   * and then the success three events from the end holds the final token.
   */
  predicate RunOutcome(s: State, r: State, d: int)
  {
    && Extends(r, s)
    && PairingRun(NewEvents(r, s), d)
    && (r.consumers == s.consumers + 1 <==> ConsumerStarted in NewEvents(r, s))
    && (ConsumerStarted in NewEvents(r, s) ==>
          |NewEvents(r, s)| >= 3 && NewEvents(r, s)[|NewEvents(r, s)| - 3] == PairSucceeded(r.token))
  }

  /**
   * Every run of the pairing loop has the shape above, and a consumer was
   * started exactly when its events contain the start, holding the token of the
   * success just before it.
   */
  lemma PairingLoopFollowsRun(env: Environment, s: State, d: int)
    ensures var r := PairingLoop(env, s, d);
      var e := NewEvents(r, s);
      && PairingRun(e, d)
      && (r.consumers == s.consumers + 1 <==> ConsumerStarted in e)
      && (ConsumerStarted in e ==> |e| >= 3 && e[|e| - 3] == PairSucceeded(r.token))
  {
    LoopOutcome(env, s, d);
  }

  /** `PairingLoopFollowsRun` in the bundled form, by induction on the stop countdown. */
  lemma {:induction false} LoopOutcome(env: Environment, s: State, d: int)
    ensures RunOutcome(s, PairingLoop(env, s, d), d)
    decreases s.stopAfter
  {
    var (stop, s1) := Observe(s);
    if stop {
      StoppedOutcome(s, PairingLoop(env, s, d), d);
    } else {
      var (ok, s2) := PairWithServer(env, s1);
      if ok {
        assert PairingLoop(env, s, d) == StartConsumer(s2);
        SuccessOutcome(s, s2, d);
        SameRunOutcome(s, StartConsumer(s2), PairingLoop(env, s, d), d);
      } else {
        var (stopped, s3) := Wait(s2, d);
        var pf := NewEvents(s2, s1)[0];
        assert s3.trace == s.trace + [pf, Waited(d, stopped)];
        if !stopped {
          assert PairingLoop(env, s, d) == PairingLoop(env, s3, NextDelay(d));
          LoopOutcome(env, s3, NextDelay(d));
          RunAfterFailure(pf, d, PairingLoop(env, s3, NextDelay(d)), s3, s);
          SameRunOutcome(s, PairingLoop(env, s3, NextDelay(d)), PairingLoop(env, s, d), d);
        } else {
          assert PairingLoop(env, s, d) == s3;
          StoppedWaitOutcome(pf, d, s3, s);
          SameRunOutcome(s, s3, PairingLoop(env, s, d), d);
        }
      }
    }
  }

  /**
   * Rewrites the final state of a bundled property by an equal one. Kept as a
   * lemma so the caller never unfolds the property and its quantifiers, which
   * made the solver run out of resource at the call sites.
   */
  lemma SameRunOutcome(s: State, a: State, b: State, d: int)
    requires a == b && RunOutcome(s, a, d)
    ensures RunOutcome(s, b, d)
  {
  }

  /** Stop seen at the loop head: the run is empty. */
  lemma StoppedOutcome(s: State, r: State, d: int)
    requires r.trace == s.trace && r.consumers == s.consumers
    ensures RunOutcome(s, r, d)
  {
    assert NewEvents(r, s) == [];
  }

  /** A successful attempt, its save and the consumer start end the run. */
  lemma SuccessOutcome(s: State, s2: State, d: int)
    requires Extends(s2, s) && s2.consumers == s.consumers
    requires NewEvents(s2, s) == [PairSucceeded(s2.token), TokenSaved(s2.token)]
    ensures RunOutcome(s, StartConsumer(s2), d)
  {
    var r := StartConsumer(s2);
    assert NewEvents(r, s) == [PairSucceeded(s2.token), TokenSaved(s2.token), ConsumerStarted];
  }

  /** A failed attempt whose backoff wait was cut short by stop ends the run. */
  lemma StoppedWaitOutcome(pf: Event, d: int, s3: State, s: State)
    requires pf.PairFailed? && s3.consumers == s.consumers
    requires s3.trace == s.trace + [pf, Waited(d, true)]
    ensures RunOutcome(s, s3, d)
  {
    assert NewEvents(s3, s) == [pf, Waited(d, true)];
  }

  /** The recursive case of the loop: a failure and a wait put in front of the rest of the run. */
  lemma RunAfterFailure(pf: Event, d: int, r: State, s3: State, s: State)
    requires pf.PairFailed? && s3.consumers == s.consumers
    requires s3.trace == s.trace + [pf, Waited(d, false)]
    requires RunOutcome(s3, r, NextDelay(d))
    ensures RunOutcome(s, r, d)
  {
    var t := NewEvents(r, s3);
    assert r.trace == s.trace + [pf, Waited(d, false)] + t by {
      assert r.trace == r.trace[..|s3.trace|] + t;
    }
    assert NewEvents(r, s) == [pf, Waited(d, false)] + t;
    RunInFront(pf, d, t);
    StartInFront(pf, Waited(d, false), t);
  }

  /** A failure and an uninterrupted wait in front of a run with the next delay form a run. */
  lemma RunInFront(pf: Event, d: int, t: seq<Event>)
    requires pf.PairFailed? && PairingRun(t, NextDelay(d))
    requires ConsumerStarted in t ==> |t| >= 3 && t[|t| - 3].PairSucceeded?
    ensures var e := [pf, Waited(d, false)] + t;
      && PairingRun(e, d)
      && (ConsumerStarted in t ==> e[|e| - 3] == t[|t| - 3])
  {
    var e := [pf, Waited(d, false)] + t;
    assert e[2..] == t;
    assert e[0] == pf && e[1] == Waited(d, false);
  }

  /** Two events other than the consumer start put in front of a sequence do not change whether it holds the start. */
  lemma StartInFront(x: Event, y: Event, t: seq<Event>)
    requires x != ConsumerStarted && y != ConsumerStarted
    ensures ConsumerStarted in [x, y] + t <==> ConsumerStarted in t
  {
    var e := [x, y] + t;
    if ConsumerStarted in e {
      var i :| 0 <= i < |e| && e[i] == ConsumerStarted;
      assert t[i - 2] == ConsumerStarted;
    }
    if ConsumerStarted in t {
      var i :| 0 <= i < |t| && t[i] == ConsumerStarted;
      assert e[i + 2] == ConsumerStarted;
    }
  }

  /** The waits of a run follow the backoff schedule from its first delay. */
  lemma {:induction false} RunDelays(e: seq<Event>, d: int)
    requires PairingRun(e, d)
    ensures forall k :: 0 <= k < |Delays(e)| ==> Delays(e)[k] == DelayAt(d, k)
    decreases |e|
  {
    if |e| == 3 {
      assert Delays(e[2..]) == [] by { assert e[2..][1..] == []; }
      assert e[1..][1..] == e[2..];
      assert Delays(e) == [];
    } else if |e| == 2 && e[1] == Waited(d, true) {
      assert e[1..][1..] == [];
      assert Delays(e[1..]) == [d] + Delays([]);
      assert Delays(e) == [d];
    } else if e != [] {
      RunDelays(e[2..], NextDelay(d));
      assert e[1..][1..] == e[2..];
      assert Delays(e) == [d] + Delays(e[2..]);
    }
  }

  lemma {:induction false} DelayAtSaturated(k: nat)
    ensures DelayAt(MAX_RETRY_DELAY, k) == MAX_RETRY_DELAY
  {
    if k > 0 {
      DelayAtSaturated(k - 1);
    }
  }

  /** From the initial 5 s the delays are 5, 10, 20, 40 and then 60 for ever. */
  lemma BackoffSchedule(k: nat)
    ensures DelayAt(INITIAL_RETRY_DELAY, k) == if k < 4 then [5, 10, 20, 40][k] else 60
  {
    if k >= 1 {
      assert DelayAt(5, k) == DelayAt(10, k - 1);
    }
    if k >= 2 {
      assert DelayAt(10, k - 1) == DelayAt(20, k - 2);
    }
    if k >= 3 {
      assert DelayAt(20, k - 2) == DelayAt(40, k - 3);
    }
    if k >= 4 {
      assert DelayAt(40, k - 3) == DelayAt(MAX_RETRY_DELAY, k - 4);
      DelayAtSaturated(k - 4);
    }
  }

  lemma {:induction false} DelayAtNext(d: int, k: nat)
    ensures DelayAt(d, k + 1) == NextDelay(DelayAt(d, k))
    decreases k
  {
    if k > 0 {
      DelayAtNext(NextDelay(d), k - 1);
    }
  }

  /** A delay never exceeds 60 s and never decreases. */
  lemma {:induction false} DelayBounds(d: int, k: nat)
    requires 0 < d <= MAX_RETRY_DELAY
    ensures d <= DelayAt(d, k) <= DelayAt(d, k + 1) <= MAX_RETRY_DELAY
    decreases k
  {
    DelayAtNext(d, k);
    if k > 0 {
      DelayBounds(NextDelay(d), k - 1);
      DelayAtNext(d, k - 1);
    }
  }

  /**
   * In a run the consumer is started at most once, as the very last event, right
   * after a successful pairing and its save; a success is always followed by
   * that start; a wait cut short by stop is the last event and then no consumer
   * is started.
   */
  lemma {:induction false} RunStartsConsumerLast(e: seq<Event>, d: int)
    requires PairingRun(e, d)
    ensures forall i :: 0 <= i < |e| && e[i] == ConsumerStarted ==>
              i == |e| - 1 && 2 <= i && e[i - 2].PairSucceeded? && e[i - 1] == TokenSaved(e[i - 2].token)
    ensures forall i :: 0 <= i < |e| && e[i].PairSucceeded? ==> i == |e| - 3 && e[|e| - 1] == ConsumerStarted
    ensures forall i :: 0 <= i < |e| && e[i].Waited? && e[i].stopped ==> i == |e| - 1 && ConsumerStarted !in e
    decreases |e|
  {
    if |e| >= 2 && e[0].PairFailed? && e[1] == Waited(d, false) {
      var t := e[2..];
      RunStartsConsumerLast(t, NextDelay(d));
      forall i | 2 <= i < |e| ensures e[i] == t[i - 2] { }
      assert ConsumerStarted in e ==> ConsumerStarted in t by {
        if ConsumerStarted in e {
          var i :| 0 <= i < |e| && e[i] == ConsumerStarted;
          assert i >= 2 && t[i - 2] == ConsumerStarted;
        }
      }
    }
  }

  /**
   * `attempt_pairing` from its start: the waits between failed attempts are
   * 5, 10, 20, 40, 60, 60, ... seconds; one consumer is started exactly when the
   * run ends with a successful pairing, whose token is then held and saved;
   * otherwise token and file are untouched.
   */
  lemma AttemptPairingProperties(env: Environment, s: State)
    ensures var r := PairingLoop(env, s, INITIAL_RETRY_DELAY);
      && (forall k :: 0 <= k < |Delays(NewEvents(r, s))| ==>
            Delays(NewEvents(r, s))[k] == if k < 4 then [5, 10, 20, 40][k] else 60)
      && (r.consumers == s.consumers + 1 <==> ConsumerStarted in NewEvents(r, s))
      && (r.consumers == s.consumers + 1 ==>
            NewEvents(r, s)[|NewEvents(r, s)| - 3] == PairSucceeded(r.token) && Load(r.file) == Loaded(r.token))
      && (r.consumers == s.consumers ==> r.token == s.token && r.file == s.file)
  {
    var r := PairingLoop(env, s, INITIAL_RETRY_DELAY);
    LoopOutcome(env, s, INITIAL_RETRY_DELAY);
    InitialRunSchedule(NewEvents(r, s));
  }

  /** The waits of a run from the initial delay are 5, 10, 20, 40 and then 60 seconds. */
  lemma InitialRunSchedule(e: seq<Event>)
    requires PairingRun(e, INITIAL_RETRY_DELAY)
    ensures forall k :: 0 <= k < |Delays(e)| ==> Delays(e)[k] == if k < 4 then [5, 10, 20, 40][k] else 60
  {
    RunDelays(e, INITIAL_RETRY_DELAY);
    forall k | 0 <= k < |Delays(e)|
      ensures Delays(e)[k] == if k < 4 then [5, 10, 20, 40][k] else 60
    {
      BackoffSchedule(k);
    }
  }

  /**
   * `pair_with_server` followed by `load_local_token`: after a successful pairing
   * a load returns True with exactly the response's token.
   */
  lemma PairThenLoadRoundTrip(env: Environment, s: State)
    requires IsPairingSuccess(env.reply(s.pairCalls))
    ensures var (ok, r) := PairWithServer(env, s);
      ok && Load(r.file) == Loaded(env.reply(s.pairCalls).body.token)
  {
  }

  /** A first attempt that succeeds starts the consumer straight away: no wait, no retry. */
  lemma FirstSuccessStartsConsumer(env: Environment, s: State)
    requires s.stopAfter > 0 && IsPairingSuccess(env.reply(s.pairCalls))
    ensures var r := PairingLoop(env, s, INITIAL_RETRY_DELAY);
      var t := env.reply(s.pairCalls).body.token;
      NewEvents(r, s) == [PairSucceeded(t), TokenSaved(t), ConsumerStarted] && r.token == t
  {
    var (stop, s1) := Observe(s);
    var (ok, s2) := PairWithServer(env, s1);
    assert NewEvents(PairingLoop(env, s, INITIAL_RETRY_DELAY), s) == NewEvents(s2, s1) + [ConsumerStarted];
  }

  /** A stop already set when the pairing thread starts means no attempt at all. */
  lemma StoppedBeforeStartMeansNoAttempt(env: Environment, s: State, d: int)
    requires s.stopAfter == 0
    ensures PairingLoop(env, s, d) == s
  {
  }
}
