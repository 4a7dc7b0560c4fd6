/**
 * The client process as an object whose fields are the module-level globals of
 * the current client (`token`, the token file, the stop event) together with
 * the inputs it has consumed and the events it has produced. Each method does
 * what the Python function of the same name does, step by step, and is proved
 * to end in the state the `Lifecycle` function of that name computes.
 */
module Client {
  import opened Common
  import opened TokenStore
  import opened Messages
  import opened Config
  import opened Addressing
  import opened Lifecycle

  class NotifierClient {
    const env: Environment
    var token: Token
    var file: TokenFile
    var stopAfter: nat
    var pairCalls: nat
    var sessions: nat
    var consumers: nat
    var trace: seq<Event>

    /** The fields as a `Lifecycle.State`. */
    function Snapshot(): State
      reads this
    {
      State(token, file, stopAfter, pairCalls, sessions, consumers, trace)
    }

    /** A fresh process: `token = None`, against the given token file and inputs. */
    constructor (env: Environment, file: TokenFile, stopAfter: nat)
      ensures this.env == env
      ensures Snapshot() == Initial(file, stopAfter)
    {
      this.env := env;
      token := None;
      this.file := file;
      this.stopAfter := stopAfter;
      pairCalls := 0;
      sessions := 0;
      consumers := 0;
      trace := [];
    }

    /** `stop_event.is_set()`. */
    method IsStopSet() returns (stop: bool)
      modifies this
      ensures (stop, Snapshot()) == Observe(old(Snapshot()))
    {
      if stopAfter == 0 {
        stop := true;
      } else {
        stopAfter := stopAfter - 1;
        stop := false;
      }
    }

    /** `stop_event.wait(timeout=seconds)`. */
    method WaitFor(seconds: int) returns (stopped: bool)
      modifies this
      ensures (stopped, Snapshot()) == Wait(old(Snapshot()), seconds)
    {
      stopped := IsStopSet();
      trace := trace + [Waited(seconds, stopped)];
    }

    /** `save_local_token(t)`. */
    method SaveLocalToken(t: Token)
      modifies this
      ensures Snapshot() == Lifecycle.SaveLocalToken(old(Snapshot()), t)
    {
      file := Save(t);
      trace := trace + [TokenSaved(t)];
    }

    /** `load_local_token()`: a token file that loads sets the global token. */
    method LoadLocalToken() returns (outcome: LoadOutcome)
      modifies this
      ensures outcome == Load(old(file))
      ensures outcome.Loaded? ==> Snapshot() == old(Snapshot()).(token := outcome.token)
      ensures !outcome.Loaded? ==> Snapshot() == old(Snapshot())
    {
      outcome := Load(file);
      if outcome.Loaded? {
        token := outcome.token;
      }
    }

    /** `pair_with_server()`. */
    method PairWithServer() returns (ok: bool)
      modifies this
      ensures (ok, Snapshot()) == Lifecycle.PairWithServer(env, old(Snapshot()))
    {
      var reply := env.reply(pairCalls);
      pairCalls := pairCalls + 1;
      ok := false;
      match reply {
        case Response(status, body) =>
          if status == HTTP_OK {
            match body {
              case JsonObject(t) =>
                token := t;
                trace := trace + [PairSucceeded(t)];
                SaveLocalToken(t);
                ok := true;
              case NotJsonObject =>
                trace := trace + [PairFailed(Unexpected)];
            }
          } else {
            trace := trace + [PairFailed(Rejected(status))];
          }
        case ConnectFailure =>
          trace := trace + [PairFailed(ConnectionFailed)];
        case OtherFailure =>
          trace := trace + [PairFailed(Unexpected)];
      }
    }

    /** `threading.Thread(target=start_consuming).start()`, recorded; the thread runs in `Launch`. */
    method StartConsumerThread()
      modifies this
      ensures Snapshot() == StartConsumer(old(Snapshot()))
    {
      consumers := consumers + 1;
      trace := trace + [ConsumerStarted];
    }

    /** `attempt_pairing()`: retry with a doubling delay, capped at 60 s, until paired or stopped. */
    method AttemptPairing()
      modifies this
      ensures Snapshot() == PairingLoop(env, old(Snapshot()), INITIAL_RETRY_DELAY)
    {
      var retryDelay := INITIAL_RETRY_DELAY;
      while true
        invariant PairingLoop(env, Snapshot(), retryDelay) == PairingLoop(env, old(Snapshot()), INITIAL_RETRY_DELAY)
        decreases stopAfter
      {
        ghost var s, d := Snapshot(), retryDelay;
        var stop := IsStopSet();
        if stop {
          break;
        }
        var ok := PairWithServer();
        if ok {
          StartConsumerThread();
          break;
        }
        var stopped := WaitFor(retryDelay);
        if stopped {
          break;
        }
        retryDelay := NextDelay(retryDelay);
        assert PairingLoop(env, s, d) == PairingLoop(env, Snapshot(), retryDelay);
      }
    }

    /** `on_notification_received`: the error it raises, if any, is returned instead. */
    method OnNotificationReceived(d: Delivery) returns (err: Option<ErrorKind>)
      modifies this
      ensures Snapshot() == Emit(old(Snapshot()), Lifecycle.OnNotificationReceived(d).0)
      ensures err == Lifecycle.OnNotificationReceived(d).1
    {
      match d.body {
        case Undecodable =>
          err := Some(OtherException);
        case Decoded(n) =>
          match d.publish {
            case PublishRaised(k) =>
              err := Some(k);
            case PublishOk =>
              trace := trace + [Published(StatusUpdate(n.id, Delivered))];
              trace := trace + [ShowScheduled(n)];
              err := None;
          }
      }
    }

    /** `channel.start_consuming()` dispatching one session's messages until a callback raises. */
    method DispatchDeliveries(ds: seq<Delivery>) returns (err: Option<ErrorKind>)
      modifies this
      ensures (Snapshot(), err) == Deliver(old(Snapshot()), ds)
    {
      var i := 0;
      err := None;
      while i < |ds| && err.None?
        invariant 0 <= i <= |ds|
        invariant err.None? ==> Deliver(Snapshot(), ds[i..]) == Deliver(old(Snapshot()), ds)
        invariant err.Some? ==> (Snapshot(), err) == Deliver(old(Snapshot()), ds)
        decreases |ds| - i
      {
        assert ds[i..][1..] == ds[i + 1..];
        err := OnNotificationReceived(ds[i]);
        i := i + 1;
      }
    }

    /** The `try` block of `start_consuming`: declare and bind `queue_<token>`, then consume. */
    method ConsumeSession() returns (end: SessionEnd)
      modifies this
      ensures (Snapshot(), end) == Consume(env, old(Snapshot()))
    {
      var session := env.session(sessions);
      sessions := sessions + 1;
      match session {
        case Refused(k) =>
          end := Raised(k);
        case Bound(ds, sessionEnd) =>
          trace := trace + [QueueBound(QueueName(token), token)];
          var err := DispatchDeliveries(ds);
          end := if err.Some? then Raised(err.value) else sessionEnd;
      }
    }

    /** The `except` clauses of `start_consuming`; `goOn` is false where they `break`. */
    method Recover(end: SessionEnd) returns (goOn: bool)
      modifies this
      ensures (Snapshot(), goOn) == Lifecycle.Recover(env, old(Snapshot()), end)
    {
      goOn := true;
      match end {
        case Returned =>
        case Raised(ChannelClosedByBroker) =>
          var ok := PairWithServer();
          if ok {
            SaveLocalToken(token);
          } else {
            var stopped := WaitFor(RECONNECT_DELAY);
            goOn := !stopped;
          }
        case Raised(_) =>
          var stopped := WaitFor(RECONNECT_DELAY);
          goOn := !stopped;
      }
    }

    /** `start_consuming()`: sessions and their recovery until the stop event is seen. */
    method StartConsuming()
      modifies this
      ensures Snapshot() == ConsumerLoop(env, old(Snapshot()))
    {
      while true
        invariant ConsumerLoop(env, Snapshot()) == ConsumerLoop(env, old(Snapshot()))
        decreases stopAfter
      {
        var stop := IsStopSet();
        if stop {
          break;
        }
        ghost var s1 := Snapshot();
        var end := ConsumeSession();
        trace := trace + [SessionEnded(end)];
        var goOn := Recover(end);
        assert (Snapshot(), goOn) == ConsumerIteration(env, s1);
        if !goOn {
          break;
        }
      }
    }

    /** `send_heartbeat()`: post unless stopped, then schedule the next one. */
    method SendHeartbeat()
      modifies this
      ensures Snapshot() == HeartbeatTick(old(Snapshot()))
    {
      var stop := IsStopSet();
      if stop {
        return;
      }
      trace := trace + [HeartbeatPosted];
      trace := trace + [HeartbeatScheduled(HeartbeatMs(DEFAULT_HEARTBEAT_MINS))];
    }

    /**
     * The `__main__` block: start the consumer for a saved token or the pairing
     * thread otherwise, schedule the first heartbeat, then run the started
     * worker (and the consumer the pairing thread starts) to its end.
     */
    method Launch()
      modifies this
      ensures Snapshot() == Lifecycle.Launch(env, old(Snapshot()))
    {
      var loaded := LoadLocalToken();
      match loaded {
        case Loaded(_) =>
          StartConsumerThread();
          trace := trace + [HeartbeatScheduled(0)];
          StartConsuming();
        case NotFound =>
          trace := trace + [PairingStarted, HeartbeatScheduled(0)];
          var before := consumers;
          AttemptPairing();
          if consumers > before {
            StartConsuming();
          }
        case LoadRaised =>
          trace := trace + [StartupFailed];
      }
    }
  }
}
