# Desktop notifier client — a verified model

The desktop notifier is a small Python client that receives notifications from a RabbitMQ broker and shows them full-screen. The current client is `app/app_v2.py`:

- **Pairing.** On first start it pairs with the server over HTTP. It stores the token it receives in a JSON file, and on a failed attempt it retries with an exponential backoff (5, 10, 20, 40, then 60 s).
- **Consuming.** It binds the queue `queue_<token>` with routing key `<token>` and consumes messages, answering each with a `delivered` status.
- **Recovery.** It recovers by failure kind. A broker channel closure means the token is no longer valid, so it pairs again. Any other error means wait 5 s and reconnect with the same token.
- **Acknowledging.** When the user acknowledges a notification, the reply is classified as `replied` or `read`.
- **Heartbeat.** Every three minutes it posts a heartbeat.

The two older clients, `app/app.py` (Tk) and `app/app_pySide.py` (Qt), work differently. They route by IP address, using the key `ip_<address with dots as underscores>`. They send a two-field response whose reply defaults to `"Acknowledged"`. `app/app.py` also draws the notification background as 100 horizontal bands.

The model keeps the program's control flow and makes its environment an input:

- **Threads run one after another.** The pairing thread first, then the consumer thread the client started.
- **The stop event is a countdown.** `stopAfter` says how many more reads of the stop event (the loop-head `is_set()`, each `wait(timeout)`) see it clear. After that it reads as set and stays set. This is also what makes every loop terminate.
- **HTTP replies and broker sessions are indexed inputs.** The n-th reply of the pairing endpoint and the n-th broker session come from `Environment`, indexed by how many have been used.
- **Effects become trace events.** Every visible effect is appended to a trace of `Event`s: a pairing result, a save, a wait, a binding, a published status, a scheduled presentation, a session end or a heartbeat.

Modules:

| module | file | what it holds |
|---|---|---|
| `Common` | common.dfy | `Option`, JSON values, the token type (`None` or a string) |
| `TokenStore` | token_store.dfy | the token file and `load_local_token`/`save_local_token` |
| `Messages` | messages.dfy | the status and response payloads, `str.strip`, the acknowledge rules |
| `Config` | config.dfy | configuration constants, `HEARTBEAT_MS`, `get_external_ip`, `get_local_ip` |
| `Addressing` | addressing.dfy | queue names and IP routing keys |
| `Gradient` | gradient.dfy | the band layout of `draw_gradient` |
| `Lifecycle` | lifecycle.dfy | the state machine as functions on a `State` value |
| `PairingProperties` | pairing_properties.dfy | backoff schedule and pairing-loop runs |
| `ConsumerProperties` | consumer_properties.dfy | invariants of the consumer's event trace, recovery by kind |
| `StartupProperties` | startup_properties.dfy | the `__main__` startup choice |
| `Client` | client.dfy | `NotifierClient`, a class whose fields are the globals and whose methods are the Python functions, each proved to end in the state its `Lifecycle` function computes |

## Model

| member | source | states |
|---|---|---|
| TokenStore.Load | app/app_v2.py:41-49 | No file means not loaded (False). An unparsable file raises. A JSON object is loaded (True), with its `token` field or `None` when the key is absent. |
| TokenStore.Save | app/app_v2.py:52-55 | The written file is exactly `{'token': t}`, and loading it gives back `t`. |
| TokenStore.SaveIsOverwrite | app/app_v2.py:52-55 | Two saves leave the same file only when they saved the same token. |
| Common.OptionalStringJson | app/app_v2.py:330-334 | An absent reply is JSON `null`; a present one stays a string. |
| Messages.StatusTextInjective | app/app_v2.py:240 | The status texts `delivered`, `read` and `replied` are pairwise different. |
| Messages.StatusUpdate | app/app_v2.py:97-100 | The status message has exactly the keys `notification_id` and `status`, with the given values. |
| Messages.Response | app/app_v2.py:330-334 | The response has exactly three keys: the given id, the status text, and `user_response`, which is `null` exactly when no reply is given and otherwise the reply text itself. |
| Messages.LegacyResponse | app/app.py:171-174 | The legacy response has exactly `notification_id` and `user_response`, and no `status` (app/app_pySide.py:138-141 is the same literal). |
| Messages.TrimStart | app/app_v2.py:305 | The left strip is a suffix of the input. What it drops is whitespace, and it keeps a non-space first character. |
| Messages.TrimEnd | app/app_v2.py:305 | The right strip is a prefix of the input. What it drops is whitespace, and it keeps a non-space last character. |
| Messages.Strip | app/app_v2.py:305 | `strip()` keeps a contiguous part of the input whose removed prefix and suffix are all whitespace; a non-empty result starts and ends with a non-space character. |
| Messages.StripEmptyIffAllSpace | app/app_v2.py:305 | `reply.strip()` is empty exactly when every character of the reply is whitespace. |
| Messages.Acknowledge | app/app_v2.py:304-311 | Status is `replied`, with the reply text unchanged, exactly when the reply is not all whitespace. Otherwise status is `read` with no reply. |
| Messages.AcknowledgePayload | app/app_v2.py:304-311 | The message sent on acknowledge carries the notification's own id. It has `replied` and the text when the reply has a non-space character, and otherwise `read` with `user_response: null`. |
| Messages.LegacyReply | app/app.py:142 | The sent reply is never empty: an empty entry becomes `"Acknowledged"` and any other entry is sent verbatim, whitespace included (app/app_pySide.py:110 is the same rule). |
| Messages.WhitespaceReplyDiffers | app/app.py:142 | A whitespace-only entry is sent verbatim by the legacy rule but becomes `read` with no reply in the current client. |
| Config.HeartbeatMs | app/app_v2.py:26-27 | The interval in ms is a whole number of minutes, exactly `mins`, and at least one minute when `mins` is positive. |
| Config.DefaultHeartbeatIsThreeMinutes | app/app_v2.py:26-27 | With the default `HEARTBEAT_MINS` the interval is 180000 ms. |
| Config.ExternalIp | app/app_v2.py:111-120 | The local backend URL short-circuits to `127.0.0.1`. Otherwise it is the lookup's text, or `None` when the request fails. |
| Config.LocalBackendIgnoresLookup | app/app_v2.py:112-114 | For the local backend, the result does not depend on the lookup. |
| Config.LocalIp | app/app_pySide.py:15-24 | With `DEBUG` set (its configured value) the address is `127.0.0.1`; otherwise it is the resolved host address. |
| Addressing.QueueName | app/app_v2.py:180 | The queue name is `queue_` followed by the token as Python formats it (`None` prints as `None`). |
| Addressing.PyStr | app/app_v2.py:180 | A token formats as its string, and an unset token as `None`, as an f-string prints them. |
| Addressing.QueueNameInjective | app/app_v2.py:180 | Different string tokens get different queues. |
| Addressing.UnsetTokenQueueCollides | app/app_v2.py:180 | An unset token and the token string `"None"` share the queue `queue_None`. |
| Addressing.ReplaceDots | app/app.py:202 | `replace('.', '_')` keeps the length, turns every dot into `_` and keeps every other character. |
| Addressing.IpRoutingKey | app/app.py:201-202 | The key is `ip_` followed by the address. It has no `.` and length `len(ip) + 3`, every non-dot character is kept in place, and dots become `_`. |
| Addressing.PySideRoutingKey | app/app_pySide.py:168-169 | With `DEBUG` set the Qt client's routing key is `ip_127_0_0_1`. |
| Gradient.DrawGradient | app/app.py:38-46 | The loop builds 100 bands. Band `i` spans `[i*h//100, (i+1)*h//100]` across the full width. The first starts at 0, the last ends at `h`, and neighbours share an edge. |
| Gradient.Band | app/app.py:46 | Band `i` spans the full width; the first band starts at 0, the last ends at the canvas height, and on a canvas of non-negative height no band is upside down. |
| Gradient.BandHeight | app/app.py:46 | For a non-negative canvas height `h`, every band is `h//100` or `h//100 + 1` high. |
| Gradient.GradientCoversCanvas | app/app.py:40-46 | The band heights add up to the canvas height. |
| Lifecycle.Observe | app/app_v2.py:152 | `is_set()` reads true exactly when the countdown is spent, and nothing but the countdown changes. |
| Lifecycle.Wait | app/app_v2.py:160 | `wait(timeout)` returns true exactly when stop is set, and records a wait of that many seconds. |
| Lifecycle.SaveLocalToken | app/app_v2.py:52-55 | After a save, loading gives back the saved token. |
| Lifecycle.PairWithServer | app/app_v2.py:122-147 | Success holds exactly for status 200 with a JSON object body. Then the token becomes the response's `token`, the file holds it, and the run records a success and a save. Any other status and every exception change neither token nor file, and record one failure. |
| Lifecycle.NextDelay | app/app_v2.py:162 | `min(retry_delay * 2, 60)`: the next delay is at most twice the current one and at most 60, and equals one of the two. |
| Lifecycle.StartConsumer | app/app_v2.py:155-156 | Starting the consumer thread adds one consumer and records only its start; nothing else changes. |
| Lifecycle.PairingLoop | app/app_v2.py:149-162 | The loop starts at most one consumer. When it does, that start is the last event and the file loads the held token. When it does not, token and file are unchanged. |
| Lifecycle.OnNotificationReceived | app/app_v2.py:233-243 | The callback succeeds exactly when the body decodes and the status publish succeeds. Then it publishes `delivered` for that id, followed by scheduling the presentation. Otherwise it records nothing and raises (an undecodable body gives a generic error; a failing publish gives its own error kind). |
| Lifecycle.Deliver | app/app_v2.py:186-189 | Dispatching a session's messages only adds events (at most two per message) and changes nothing else. |
| Lifecycle.Consume | app/app_v2.py:166-189 | A refused session records nothing and raises its error. A bound session first binds `queue_<token>` with routing key `<token>`, using the current token. |
| Lifecycle.ConsumerIteration | app/app_v2.py:166-209 | One pass of the loop body consumes exactly one broker session, only extends the trace and starts no consumer. |
| Lifecycle.ConsumerLoop | app/app_v2.py:164-209 | `start_consuming` only extends the trace, never starts another consumer, and never gains stop-event reads. |
| Lifecycle.Recover | app/app_v2.py:190-209 | Recovery only extends the trace and never starts a session or a consumer; a normal return goes on unchanged. |
| Lifecycle.HeartbeatTick | app/app_v2.py:72-85 | With stop set nothing happens. Otherwise it posts and always schedules the next heartbeat `HEARTBEAT_MS` later, whatever the post did. Token and file are untouched. |
| Lifecycle.Startup | app/app_v2.py:344-359 | A loaded token becomes the global token and starts the consumer thread. No token file starts the pairing thread only. An unreadable file raises before any thread starts. The first two cases then schedule the first heartbeat at once. No reply or session is consumed. |
| Lifecycle.Launch | app/app_v2.py:344-362 | A process run only extends the trace and starts at most one consumer thread. |
| PairingProperties.PairingLoopFollowsRun | app/app_v2.py:149-162 | Every run of the loop is a chain of failures, each followed by an uninterrupted wait with the next delay. It ends in nothing, in a success followed by save and consumer start, or in a failure whose wait was stopped. A consumer was started exactly when the run contains the start, holding the token of the success before it. |
| PairingProperties.RunDelays | app/app_v2.py:150-162 | The waits of a run are the backoff schedule from its first delay. |
| PairingProperties.BackoffSchedule | app/app_v2.py:150-162 | From 5 s the delays are 5, 10, 20, 40 and then 60 for ever. |
| PairingProperties.DelayBounds | app/app_v2.py:162 | A delay never decreases and never exceeds 60 s. |
| PairingProperties.DelayAtSaturated | app/app_v2.py:162 | Once at 60 s the delay stays at 60 s. |
| PairingProperties.RunStartsConsumerLast | app/app_v2.py:152-161 | In a run the consumer start comes only as the very last event, right after a success and its save. A success is always followed by the start. A wait cut short by stop ends the run with no consumer. |
| PairingProperties.AttemptPairingProperties | app/app_v2.py:149-162 | From `retry_delay = 5`, the waits are 5, 10, 20, 40, 60, 60, … s. One consumer starts exactly when the run contains that start, right after a success whose token is held and saved; otherwise token and file are untouched. |
| PairingProperties.PairThenLoadRoundTrip | app/app_v2.py:129-135 | After a successful pairing (whose save is `save_local_token`, app/app_v2.py:52-55), `load_local_token` (app/app_v2.py:41-49) returns True with exactly the response's token. |
| PairingProperties.FirstSuccessStartsConsumer | app/app_v2.py:152-157 | A first attempt that succeeds starts the consumer at once: success, save, consumer start, with no wait. |
| PairingProperties.StoppedBeforeStartMeansNoAttempt | app/app_v2.py:152 | With stop already set, the loop makes no attempt and changes nothing. |
| ConsumerProperties.CallbackEvents | app/app_v2.py:233-243 | A callback records only a `delivered` status followed directly by the presentation of the same notification. |
| ConsumerProperties.DeliverEvents | app/app_v2.py:186-243 | A session's callbacks record only deliveries: every presentation directly follows the `delivered` status of its id, and every such status is directly followed by its presentation. |
| ConsumerProperties.HandledIsFirstFailure | app/app_v2.py:186-243 | The messages counted as handled are exactly those before the first callback that raises: each of them succeeds, and the next one, if any, raises the session's error. |
| ConsumerProperties.DeliverHandlesInOrder | app/app_v2.py:186-243 | Every message up to the first raising callback is handled, in delivery order: its `delivered` status and then its presentation, two events per message and nothing else. |
| ConsumerProperties.ConsumeEvents | app/app_v2.py:166-189 | One session keeps all consumer invariants, and its binding uses the current token. |
| ConsumerProperties.RecoverEvents | app/app_v2.py:190-209 | Recovery keeps the invariants: re-pairing happens only right after a broker channel closure, waits are 5 s, and the token afterwards is that of the last successful re-pairing. |
| ConsumerProperties.ConsumerLoopEvents | app/app_v2.py:164-209 | The whole consumer loop never starts another consumer or pairing thread. Each presentation follows its `delivered` status. Every pairing attempt directly follows a broker channel closure. Every wait is 5 s. Every binding uses queue `queue_<t>` and routing key `<t>` for the token `t` current at that point. |
| ConsumerProperties.IterationStopExit | app/app_v2.py:166-209 | One pass of the loop body either goes on with no wait cut short by stop, or ends the loop with a stopped 5 s wait as its last event and the stop event set. |
| ConsumerProperties.ConsumerLoopEndsOnStop | app/app_v2.py:164-209 | `start_consuming` returns only once the stop event is set (seen at the loop head or during a wait), and a wait cut short by stop is its last event. |
| ConsumerProperties.DeliverStopsAtFirstFailure | app/app_v2.py:186-243 | Dispatching raises exactly the error of the first callback that raises. |
| ConsumerProperties.ConsumeEnd | app/app_v2.py:175-189 | A session ends with its refusal, with a raising callback's error, or otherwise as the broker ended it. |
| ConsumerProperties.ReturnedRebindsAtOnce | app/app_v2.py:166-189 | A session that returns normally is followed at once by the next one, with the same token and file. |
| ConsumerProperties.ClosureRepairedContinuesAtOnce | app/app_v2.py:190-195 | After a broker channel closure and a successful re-pair, the new token is held and saved (twice), and the loop goes on with no wait. |
| ConsumerProperties.ClosureUnrepairedWaits | app/app_v2.py:190-199 | After a broker channel closure and a failed re-pair, token and file are kept, then a 5 s wait; the loop ends exactly when stop is set. |
| ConsumerProperties.ErrorWaitsKeepingToken | app/app_v2.py:200-209 | After a connection error or any other error there is no re-pair: token, file and pairing count are kept, then a 5 s wait, and the loop ends exactly when stop is set. |
| ConsumerProperties.ConsumerEventsConcat | app/app_v2.py:164-209 | The consumer invariants compose: two stretches that each keep them, the second starting from the token the first ends with, keep them together and end with the second's token. |
| ConsumerProperties.LoopStartsWithBind | app/app_v2.py:166-182 | A loop that is not stopped and whose next session is accepted begins by binding `queue_<token>` with the current token. |
| ConsumerProperties.RePairThenRebind | app/app_v2.py:180-195 | After a successful re-pair, the next binding uses the new token. |
| StartupProperties.SavedTokenSkipsPairing | app/app_v2.py:350-353 | A token file that loads starts one consumer and no pairing thread. After the consumer start and the first heartbeat come only consumer events. They keep all consumer invariants, starting from the loaded token, so every binding before a re-pair uses that token. |
| StartupProperties.NoTokenFileStartsPairing | app/app_v2.py:354-356 | With no token file only the pairing thread starts. Either its run starts no consumer, or it ends by starting one. In that case the consumer's events follow the run with the paired token. |
| StartupProperties.UnreadableTokenFileStartsNothing | app/app_v2.py:345-350 | A token file that cannot be parsed makes startup raise before any thread or heartbeat is started. |
| Client.NotifierClient.constructor | app/app_v2.py:29-30 | A fresh process holds no token and has consumed nothing. |
| Client.NotifierClient.IsStopSet | app/app_v2.py:152 | The method reads the stop event as `Lifecycle.Observe` says. |
| Client.NotifierClient.WaitFor | app/app_v2.py:160 | The method waits on the stop event as `Lifecycle.Wait` says. |
| Client.NotifierClient.SaveLocalToken | app/app_v2.py:52-55 | The method writes the token file as `Lifecycle.SaveLocalToken` says. |
| Client.NotifierClient.LoadLocalToken | app/app_v2.py:41-49 | The method returns `Load` of the file, and sets the global token only when it loaded one. |
| Client.NotifierClient.PairWithServer | app/app_v2.py:122-147 | The method assigns the global token and the file step by step, ending as `Lifecycle.PairWithServer` says. |
| Client.NotifierClient.StartConsumerThread | app/app_v2.py:155-156 | The method starts the consumer thread as `Lifecycle.StartConsumer` says. |
| Client.NotifierClient.AttemptPairing | app/app_v2.py:149-162 | The `while` loop over `retry_delay` ends in the state `Lifecycle.PairingLoop` computes from 5 s. |
| Client.NotifierClient.OnNotificationReceived | app/app_v2.py:233-243 | The callback appends the events `Lifecycle.OnNotificationReceived` lists and returns the error it raises. |
| Client.NotifierClient.DispatchDeliveries | app/app_v2.py:186-189 | The loop over the session's messages ends as `Lifecycle.Deliver` says. |
| Client.NotifierClient.ConsumeSession | app/app_v2.py:166-189 | The `try` block ends as `Lifecycle.Consume` says. |
| Client.NotifierClient.Recover | app/app_v2.py:190-209 | The `except` clauses end as `Lifecycle.Recover` says. |
| Client.NotifierClient.StartConsuming | app/app_v2.py:164-209 | The `while` loop of `start_consuming` ends in the state `Lifecycle.ConsumerLoop` computes. |
| Client.NotifierClient.SendHeartbeat | app/app_v2.py:72-85 | The method ends as `Lifecycle.HeartbeatTick` says. |
| Client.NotifierClient.Launch | app/app_v2.py:344-362 | The `__main__` block and the workers it starts end in the state `Lifecycle.Launch` computes. |

## Left out

- Widgets and presentation: `show_notification`, `NotificationWindow`, `load_and_display_image`, fonts, layout and full-screen handling are UI. A scheduled presentation is a `ShowScheduled` event.
- `update_status` texts and every `print` only affect the display and the log.
- Broker and HTTP calls: pika and `requests` are inputs. A broker session is `Refused(kind)` or `Bound(messages, end)`. The pairing endpoint's reply is a status with a body, a connection failure, or another failure.
- Pairing request body: the form fields `external_ip` and `hostname` are not sent anywhere in the model. `get_external_ip` is modelled on its own as `Config.ExternalIp`.
- Threads and timing: the pairing thread and the consumer thread run one after the other, and the heartbeat runs separately (`HeartbeatTick`, `SendHeartbeat`). Real concurrency, and how long a wait takes, are not modelled. The stop event is a countdown of reads.
- Tk main loop: it is not modelled. `Launch` runs the started workers to their end instead.
- Shutdown: the `atexit` sign-out and the KeyboardInterrupt handler (app/app_v2.py:62-70, 363-369) are process-exit plumbing. Sign-out can run twice there.
- File I/O errors when writing the token file are not modelled: a save always succeeds.
- Non-string tokens: a token is a string or unset (`Common.Token`). A JSON `token` value that is a number, list or object, which `data.get('token')` and `response.json().get('token')` would also return, cannot be represented.
- Notification fields: `Common.Json` has only null, integers and strings. A notification `id`, `sender` or `content` that is a float, boolean, list or object, which `message.get(...)` would return at app/app_v2.py:235-237, cannot be represented. The model only echoes the id, so no stated property depends on this.
- Gradient colours use floating point (`int(5 * (i / gradient_steps))`). Only the band geometry is modelled.
- The legacy clients' consume loop, queue declaration and `show_notification` are left out. Only their routing key, reply default and payload appear.
- The Qt client's `acknowledge_message` reads an undefined `notification_id` (app/app_pySide.py:111) and would raise. Only its reply default is modelled.
- For an unset IP in the legacy Tk client, `external_ip.replace` would raise on `None` (app/app.py:202). `IpRoutingKey` takes a string.
- Lifecycle.Recover: its own contract gives only the frame. What each failure kind does is stated by `ConsumerProperties.ReturnedRebindsAtOnce`, `ClosureRepairedContinuesAtOnce`, `ClosureUnrepairedWaits` and `ErrorWaitsKeepingToken`.
- Lifecycle.Deliver: its own contract gives only the frame. Which events it adds, message by message and in order, is stated by `ConsumerProperties.DeliverHandlesInOrder` (with `HandledIsFirstFailure`), and the error it ends with by `ConsumerProperties.DeliverStopsAtFirstFailure`.

## Behaviour worth knowing

What the program does in four cases where a reader might expect otherwise:

- **Malformed token file.** A malformed token file is not ignored: `json.load` raises inside `load_local_token`, and nothing in the `__main__` block catches it, so no thread is started (`TokenStore.Load` gives `LoadRaised`; `StartupProperties.UnreadableTokenFileStartsNothing`).
- **File without a `token` key.** A JSON file without `token` still counts as a loaded token, namely `None`. The consumer then declares `queue_None` and passes `routing_key=None` to `queue_bind` (app/app_v2.py:180-182; `Addressing.UnsetTokenQueueCollides`).
- **Failed `delivered` publish.** Publishing the `delivered` status is not fire-and-forget. `send_status_update` has no `try`, so a failure propagates out of the callback into the `except` clauses of `start_consuming` and ends the session (`Lifecycle.OnNotificationReceived`, `ConsumerProperties.DeliverStopsAtFirstFailure`).
- **Double save after re-pairing.** A successful re-pair after a broker channel closure saves the token twice: once inside `pair_with_server` and once in the handler.
