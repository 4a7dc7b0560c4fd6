/**
 * The pairing and reconnection state machine of the current client, written as
 * functions from the client's state and its environment to the next state.
 *
 * Threads are made sequential and every blocking call is an input: the stop
 * event is a countdown of reads that see it clear, the pairing endpoint's
 * replies and the broker's sessions are indexed by how many were consumed, and
 * every visible effect is appended to an event trace.
 */
module Lifecycle {
  import opened Common
  import opened TokenStore
  import opened Messages
  import opened Addressing
  import opened Config

  const INITIAL_RETRY_DELAY: int := 5
  const MAX_RETRY_DELAY: int := 60
  const RECONNECT_DELAY: int := 5
  const HTTP_OK: int := 200

  /** The JSON of a pairing response: an object (its `token` possibly missing) or anything else. */
  datatype PairBody = JsonObject(token: Token) | NotJsonObject

  /** What `requests.post(f'{API_BASE_URL}/pair/', ...)` produced. */
  datatype HttpOutcome =
    | Response(status: int, body: PairBody)
    | ConnectFailure   // ConnectTimeout or ConnectionError
    | OtherFailure     // any other exception, a read timeout among them

  /** The exceptions `start_consuming` tells apart, in the order of its `except` clauses. */
  datatype ErrorKind = ChannelClosedByBroker | AMQPConnectionError | OtherException

  datatype MessageBody = Decoded(n: Notification) | Undecodable
  datatype PublishOutcome = PublishOk | PublishRaised(kind: ErrorKind)

  /** One message handed to `on_notification_received`, with how publishing its `delivered` status went. */
  datatype Delivery = Delivery(body: MessageBody, publish: PublishOutcome)

  /** How `channel.start_consuming()` ended: it returned, or raised. */
  datatype SessionEnd = Returned | Raised(kind: ErrorKind)

  /**
   * One pass through the `try` block of `start_consuming`: refused before the
   * binding is in place (connecting, opening the channel, declaring the
   * exchange or the queue, or binding it, any of which may raise, a channel
   * closed by the broker among them), or bound and then delivering messages
   * until it ends.
   */
  datatype Session = Refused(kind: ErrorKind) | Bound(deliveries: seq<Delivery>, end: SessionEnd)

  /** The pairing endpoint's n-th reply and the broker's n-th session. */
  datatype Environment = Environment(reply: nat -> HttpOutcome, session: nat -> Session)

  datatype PairFailure = Rejected(status: int) | ConnectionFailed | Unexpected

  datatype Event =
    | PairSucceeded(token: Token)
    | PairFailed(reason: PairFailure)
    | TokenSaved(saved: Token)
    | Waited(seconds: int, stopped: bool)
    | ConsumerStarted
    | PairingStarted
    | StartupFailed
    | QueueBound(queue: string, routingKey: Token)
    | Published(message: Payload)
    | ShowScheduled(n: Notification)
    | SessionEnded(end: SessionEnd)
    | HeartbeatPosted
    | HeartbeatScheduled(delayMs: int)

  /**
   * The process state: the global token, the token file, how many more reads
   * of the stop event see it clear, the inputs consumed so far, the number of
   * consumer threads started and the trace.
   */
  datatype State = State(token: Token, file: TokenFile, stopAfter: nat, pairCalls: nat,
                         sessions: nat, consumers: nat, trace: seq<Event>)

  /** The state at process start: `token = None`, nothing consumed, nothing observed. */
  function Initial(file: TokenFile, stopAfter: nat): State
  {
    State(None, file, stopAfter, 0, 0, 0, [])
  }

  /** `r` continues `s`: it keeps `s`'s trace as a prefix. */
  predicate Extends(r: State, s: State)
  {
    |s.trace| <= |r.trace| && r.trace[..|s.trace|] == s.trace
  }

  /** The events `r` added after `s`. */
  function NewEvents(r: State, s: State): seq<Event>
    requires Extends(r, s)
  {
    r.trace[|s.trace|..]
  }

  /** The events since `s` are those up to `m` followed by those after it. */
  lemma NewEventsChain(s: State, m: State, r: State)
    requires Extends(m, s) && Extends(r, m)
    ensures Extends(r, s) && NewEvents(r, s) == NewEvents(m, s) + NewEvents(r, m)
  {
    assert r.trace == m.trace[..|s.trace|] + NewEvents(m, s) + NewEvents(r, m);
  }

  function Emit(s: State, e: seq<Event>): State
  {
    s.(trace := s.trace + e)
  }

  /** `stop_event.is_set()`: once the countdown is spent the event reads as set, and stays set. */
  function Observe(s: State): (r: (bool, State))
    ensures r.0 <==> s.stopAfter == 0
    ensures r.1.stopAfter == if r.0 then 0 else s.stopAfter - 1
    ensures r.1 == s.(stopAfter := r.1.stopAfter)
  {
    if s.stopAfter == 0 then (true, s) else (false, s.(stopAfter := s.stopAfter - 1))
  }

  /** `stop_event.wait(timeout=seconds)`: True exactly when the event is set. */
  function Wait(s: State, seconds: int): (r: (bool, State))
    ensures r.0 <==> s.stopAfter == 0
    ensures r.1.stopAfter <= s.stopAfter
    ensures r.1 == s.(stopAfter := r.1.stopAfter, trace := s.trace + [Waited(seconds, r.0)])
  {
    var (stop, s1) := Observe(s);
    (stop, Emit(s1, [Waited(seconds, stop)]))
  }

  /** `save_local_token(t)`: the file becomes `{'token': t}`. */
  function SaveLocalToken(s: State, t: Token): (r: State)
    ensures Load(r.file) == Loaded(t)
    ensures r == s.(file := Save(t), trace := s.trace + [TokenSaved(t)])
  {
    s.(file := Save(t), trace := s.trace + [TokenSaved(t)])
  }

  /** A reply that `pair_with_server` accepts: status 200 and a JSON object body. */
  predicate IsPairingSuccess(o: HttpOutcome)
  {
    o.Response? && o.status == HTTP_OK && o.body.JsonObject?
  }

  /**
   * `pair_with_server`: on status 200 the token becomes the response's `token`
   * and is saved verbatim; every other reply, and every exception, returns
   * False with the token and the file untouched.
   */
  function PairWithServer(env: Environment, s: State): (r: (bool, State))
    ensures r.0 <==> IsPairingSuccess(env.reply(s.pairCalls))
    ensures r.1.pairCalls == s.pairCalls + 1
    ensures r.1.stopAfter == s.stopAfter && r.1.sessions == s.sessions && r.1.consumers == s.consumers
    ensures Extends(r.1, s)
    ensures r.0 ==> r.1.token == env.reply(s.pairCalls).body.token && r.1.file == Save(r.1.token)
    ensures r.0 ==> NewEvents(r.1, s) == [PairSucceeded(r.1.token), TokenSaved(r.1.token)]
    ensures !r.0 ==> r.1.token == s.token && r.1.file == s.file
    ensures !r.0 ==> |NewEvents(r.1, s)| == 1 && NewEvents(r.1, s)[0].PairFailed?
  {
    var s1 := s.(pairCalls := s.pairCalls + 1);
    match env.reply(s.pairCalls)
    case Response(status, body) =>
      if status != HTTP_OK then (false, Emit(s1, [PairFailed(Rejected(status))]))
      else (
        match body
        case NotJsonObject => (false, Emit(s1, [PairFailed(Unexpected)]))
        case JsonObject(t) => (true, SaveLocalToken(Emit(s1.(token := t), [PairSucceeded(t)]), t)))
    case ConnectFailure => (false, Emit(s1, [PairFailed(ConnectionFailed)]))
    case OtherFailure => (false, Emit(s1, [PairFailed(Unexpected)]))
  }

  /** `min(retry_delay * 2, 60)`. */
  function NextDelay(d: int): (r: int)
    ensures r <= 2 * d && r <= MAX_RETRY_DELAY
    ensures r == 2 * d || r == MAX_RETRY_DELAY
  {
    if d * 2 < MAX_RETRY_DELAY then d * 2 else MAX_RETRY_DELAY
  }

  /** Records that a consumer thread running `start_consuming` was started. */
  function StartConsumer(s: State): (r: State)
    ensures Extends(r, s) && NewEvents(r, s) == [ConsumerStarted]
    ensures r.consumers == s.consumers + 1
    ensures r == s.(consumers := r.consumers, trace := r.trace)
  {
    s.(consumers := s.consumers + 1, trace := s.trace + [ConsumerStarted])
  }

  /**
   * `attempt_pairing` from the point where `retry_delay` is `delay`: pair until
   * it succeeds (then start the consumer and stop) or until the stop event is
   * seen at the loop head or during a backoff wait.
   */
  function PairingLoop(env: Environment, s: State, delay: int): (r: State)
    ensures Extends(r, s)
    ensures r.stopAfter <= s.stopAfter && r.sessions == s.sessions
    ensures r.consumers == s.consumers || r.consumers == s.consumers + 1
    ensures r.consumers == s.consumers + 1 ==>
              0 < |r.trace| && r.trace[|r.trace| - 1] == ConsumerStarted && Load(r.file) == Loaded(r.token)
    ensures r.consumers == s.consumers ==> r.token == s.token && r.file == s.file
    decreases s.stopAfter
  {
    var (stop, s1) := Observe(s);
    if stop then s1
    else
      var (ok, s2) := PairWithServer(env, s1);
      if ok then StartConsumer(s2)
      else
        var (stopped, s3) := Wait(s2, delay);
        if stopped then s3 else PairingLoop(env, s3, NextDelay(delay))
  }

  /**
   * `on_notification_received`: decode the body, publish a `delivered` status for
   * its id, then schedule its presentation. Each step may raise, which stops the
   * callback and propagates into `start_consuming`.
   */
  function OnNotificationReceived(d: Delivery): (r: (seq<Event>, Option<ErrorKind>))
    ensures r.1 == None <==> d.body.Decoded? && d.publish == PublishOk
    ensures r.1 == None ==>
              r.0 == [Published(StatusUpdate(d.body.n.id, Delivered)), ShowScheduled(d.body.n)]
    ensures r.1 != None ==> r.0 == []
    ensures d.body.Undecodable? ==> r.1 == Some(OtherException)
    ensures d.body.Decoded? && d.publish.PublishRaised? ==> r.1 == Some(d.publish.kind)
  {
    match d.body
    case Undecodable => ([], Some(OtherException))
    case Decoded(n) =>
      match d.publish
      case PublishRaised(k) => ([], Some(k))
      case PublishOk => ([Published(StatusUpdate(n.id, Delivered)), ShowScheduled(n)], None)
  }

  /** The callbacks of one session, in delivery order, up to the first one that raises. */
  function Deliver(s: State, ds: seq<Delivery>): (r: (State, Option<ErrorKind>))
    ensures Extends(r.0, s)
    ensures r.0 == s.(trace := r.0.trace)
    ensures |NewEvents(r.0, s)| <= 2 * |ds|
    ensures ds == [] ==> r.0 == s && r.1 == None
    decreases |ds|
  {
    if ds == [] then (s, None)
    else
      var (e, err) := OnNotificationReceived(ds[0]);
      var s1 := Emit(s, e);
      if err.Some? then (s1, err) else Deliver(s1, ds[1..])
  }

  /**
   * The `try` block of `start_consuming`: declare `queue_<token>`, bind it with
   * the current token as routing key, and consume until the session ends.
   */
  function Consume(env: Environment, s: State): (r: (State, SessionEnd))
    ensures Extends(r.0, s)
    ensures r.0 == s.(sessions := s.sessions + 1, trace := r.0.trace)
    ensures env.session(s.sessions).Refused? ==>
              r.0.trace == s.trace && r.1 == Raised(env.session(s.sessions).kind)
    ensures env.session(s.sessions).Bound? ==>
              |NewEvents(r.0, s)| > 0 && NewEvents(r.0, s)[0] == QueueBound(QueueName(s.token), s.token)
  {
    var s1 := s.(sessions := s.sessions + 1);
    match env.session(s.sessions)
    case Refused(k) => (s1, Raised(k))
    case Bound(ds, end) =>
      var (s2, err) := Deliver(Emit(s1, [QueueBound(QueueName(s.token), s.token)]), ds);
      (s2, if err.Some? then Raised(err.value) else end)
  }

  /**
   * The `except` clauses of `start_consuming`: a broker channel closure
   * re-pairs (saving the token once more) and retries at once, or waits 5 s if
   * re-pairing failed; a connection error or any other error waits 5 s and
   * keeps the token. The flag says whether the loop goes on.
   */
  function Recover(env: Environment, s: State, end: SessionEnd): (r: (State, bool))
    ensures Extends(r.0, s)
    ensures r.0.stopAfter <= s.stopAfter && r.0.sessions == s.sessions && r.0.consumers == s.consumers
    ensures end == Returned ==> r == (s, true)
  {
    match end
    case Returned => (s, true)
    case Raised(ChannelClosedByBroker) =>
      var (ok, s1) := PairWithServer(env, s);
      if ok then (SaveLocalToken(s1, s1.token), true)
      else
        var (stopped, s2) := Wait(s1, RECONNECT_DELAY);
        (s2, !stopped)
    case Raised(_) =>
      var (stopped, s1) := Wait(s, RECONNECT_DELAY);
      (s1, !stopped)
  }

  /** One iteration of the `while` loop of `start_consuming`, after its stop check. */
  function ConsumerIteration(env: Environment, s: State): (r: (State, bool))
    ensures Extends(r.0, s)
    ensures r.0.stopAfter <= s.stopAfter && r.0.consumers == s.consumers
    ensures r.0.sessions == s.sessions + 1
  {
    var (s1, end) := Consume(env, s);
    Recover(env, Emit(s1, [SessionEnded(end)]), end)
  }

  /** `start_consuming`: iterate until the stop event is seen at the loop head or in a wait. */
  function ConsumerLoop(env: Environment, s: State): (r: State)
    ensures Extends(r, s)
    ensures r.stopAfter <= s.stopAfter && r.consumers == s.consumers
    decreases s.stopAfter
  {
    var (stop, s1) := Observe(s);
    if stop then s1
    else
      var (s2, cont) := ConsumerIteration(env, s1);
      if cont then ConsumerLoop(env, s2) else s2
  }

  /**
   * `send_heartbeat`: unless the stop event is set, post the heartbeat (its
   * outcome is only logged) and schedule the next one `HEARTBEAT_MS` later.
   */
  function HeartbeatTick(s: State): (r: State)
    ensures r.token == s.token && r.file == s.file && r.consumers == s.consumers
    ensures s.stopAfter == 0 ==> r == s
    ensures s.stopAfter > 0 ==>
              r.trace == s.trace + [HeartbeatPosted, HeartbeatScheduled(HeartbeatMs(DEFAULT_HEARTBEAT_MINS))]
  {
    var (stop, s1) := Observe(s);
    if stop then s1
    else Emit(s1, [HeartbeatPosted, HeartbeatScheduled(HeartbeatMs(DEFAULT_HEARTBEAT_MINS))])
  }

  /**
   * The `__main__` block up to the Tk main loop: a loaded token starts the
   * consumer, no token file starts the pairing thread, an unreadable file
   * raises out of the block; then the first heartbeat is scheduled.
   */
  function Startup(s: State): (r: State)
    ensures Extends(r, s) && r.pairCalls == s.pairCalls && r.sessions == s.sessions
    ensures Load(s.file) == NotFound ==>
              NewEvents(r, s) == [PairingStarted, HeartbeatScheduled(0)] && r.consumers == s.consumers && r.token == s.token
    ensures Load(s.file).Loaded? ==>
              NewEvents(r, s) == [ConsumerStarted, HeartbeatScheduled(0)] && r.consumers == s.consumers + 1
              && r.token == Load(s.file).token
    ensures Load(s.file) == LoadRaised ==> NewEvents(r, s) == [StartupFailed] && r.consumers == s.consumers
  {
    match Load(s.file)
    case NotFound => Emit(s, [PairingStarted, HeartbeatScheduled(0)])
    case Loaded(t) => Emit(StartConsumer(s.(token := t)), [HeartbeatScheduled(0)])
    case LoadRaised => Emit(s, [StartupFailed])
  }

  /** Startup followed by the worker it started, run to the end; the heartbeat is not run. */
  function Launch(env: Environment, s: State): (r: State)
    ensures Extends(r, s)
    ensures r.consumers <= s.consumers + 1
  {
    var s1 := Startup(s);
    match Load(s.file)
    case NotFound =>
      var s2 := PairingLoop(env, s1, INITIAL_RETRY_DELAY);
      if s2.consumers > s1.consumers then ConsumerLoop(env, s2) else s2
    case Loaded(_) => ConsumerLoop(env, s1)
    case LoadRaised => s1
  }
}
