# vision-openfin session model

This project models the client agent `Vision` that an OpenFin application embeds
to report to a monitoring server over a websocket. The model covers the agent's
session state machine, that is, what the agent does between socket events, timer
firings and inbound messages:

- the reconnect back-off, with its retry counter, capped exponential delay and
  retry-ceiling guard;
- the self re-arming heartbeat. It sends a full payload every 30 beats and a bare
  `{type: 'heartbeat'}` otherwise, and the first beat sets a one-shot latch that
  requests a bootstrap screenshot;
- the screenshot throttle, a minimum interval between captures;
- the inbound dispatcher. The built-in types `handshake`, `shutdown`, `restart`
  and `take-screenshot` come before the action registry, and a registered
  action's result is sent back either at once or once its promise settles;
- the outbound helpers `notifyLastAction` and `updateAdditionalProps`;
- construction: the defaults, the required-host guard and the websocket URI.

`src/index.js` is the final revision and `lib/index.js` is its transpiled copy;
both are modelled by class `Session.Vision`. The earlier revisions `index.js` and
`example/vision-openfin.js` are modelled by class `LegacySession.LegacyVision`.
They share the reconnect routine but have a heartbeat that always sends the whole
context and a dispatcher with three types.

The environment drives each object:

- Every timer firing, socket event, host callback and promise settlement is a
  method call.
- Whatever the source would schedule is returned as a value: a heartbeat re-arm
  delay, a `Reconnect(delay, uri)`, a capture delay or a pending action reply.
- The socket is its `readyState`.
- Every message sent is appended to the field `outbox`.
- Time is an explicit `now` in integer milliseconds.

Modules:

- `Wire` (wire.dfy): JSON values, their truthiness, property reads, inbound and
  outbound messages.
- `Events` (events.dfy): socket states, host callbacks and scheduled reconnects,
  which every revision shares.
- `Config` (config.dfy): options, `||`-style defaults, the heartbeat interval and
  the two `Object.assign` merges.
- `Endpoint` (endpoint.dfy): the websocket URI and the start-up guard.
- `Backoff` (backoff.dfy): the retry step and streaks of errors.
- `Heartbeat` (heartbeat.dfy): payload tiering, the order of beats sent and the
  additional-data collector.
- `Throttle` (throttle.dfy): the capture gate.
- `Dispatch` (dispatch.dfy): routing and action outcomes.
- `Session` (vision.dfy): the final revision's object.
- `LegacySession` (legacy_vision.dfy): the earlier revisions' object.
- `Scenarios` (scenarios.dfy): whole sessions driven through both objects.

The session invariant `Session.Vision.Valid` holds after construction and after
every method that changes state. It states five things:

- the beat counter equals the number of heartbeats in `outbox`;
- those heartbeats are tiered: the k-th is full exactly when k is a multiple of 30;
- the latch is set exactly when a beat has gone out;
- the heartbeat interval is above 1000 ms;
- a zero retry counter goes with the 1000 ms retry interval.

The retry-ceiling guard is modelled exactly as written:
`connectionRetryMax > 0 && connectionRetryMax > connectionRetryCount` returns
early. So with a positive ceiling the first errors schedule nothing, and retries
start only once the counter reaches the ceiling. The ceiling defaults to 0
(unlimited) and no option sets it, so with the defaults every error is retried.
`Backoff.LiteralGuard` and `Backoff.CeilingSwallowsEarlyErrors` state this.

Three points where the code departs from what its option names and comments
suggest; the model follows the code:

- `fullDataPacketEvery` is fixed at 30 in the constructor and is not read from
  the options.
- After a configuration is fetched, only the URI is derived again. The
  intervals, delays and props keep the values the constructor took from the
  original options.
- The final revision floors the heartbeat interval: a configured value of 1000 or
  less gives 10000.

## Model

| member | source | states |
|---|---|---|
| Wire.Truthy | src/index.js:178 | a JSON value is truthy exactly when it is not `null`, `false`, `0` or the empty string |
| Wire.Property | src/index.js:185 | for an own key that no JSON value inherits, `v.name` yields a value exactly when `v` is an object that has the key, and then it is that field; otherwise the read is `undefined` |
| Config.OrElse | src/index.js:35-37 | `o \|\| d`: the option when it is present and non-zero, the default otherwise |
| Config.HeartbeatIntervalOf | lib/index.js:57 | the configured interval when it is above 1000, else 10000 (also when absent); always above 1000; any value other than 10000 was configured |
| Config.LegacyHeartbeatIntervalOf | index.js:125 | `heartbeatInterval \|\| 1000`: any non-zero configured value without a floor, 1000 otherwise; never 0 |
| Config.HeartbeatIntervalRevisions | example/vision-openfin.js:104 | the revisions agree on a configured interval above 1000, and without one the final revision waits ten times longer |
| Config.MergeOptions | src/index.js:72 | every option the fetched configuration carries replaces the constructor's; every other option is kept |
| Config.Merge | src/index.js:283-285 | keys of the merged data win, every other key keeps its value, and the key set is the union |
| Config.MergeIdempotent | src/index.js:283-285 | merging the same data a second time changes nothing |
| Endpoint.Decimal | lib/index.js:106 | the port's text is a non-empty run of digits, of two or more digits from 10 on |
| Endpoint.DecimalValue | lib/index.js:106 | reading the port's text back as a decimal number gives the port |
| Endpoint.DecimalInjective | lib/index.js:106 | two ports with the same text are the same port |
| Endpoint.HostText | src/index.js:86 | the template literal renders a given host as it is and an absent one as `undefined` |
| Endpoint.SocketUri | src/index.js:86 | the URI is longer than the scheme, host text and path together |
| Endpoint.SocketUriShape | src/index.js:86 | the URI starts with `ws://` and the host text, a `:` follows the host, and the path ends it |
| Endpoint.LegacySocketUri | example/vision-openfin.js:46-49 | the earliest revision's URI is the final revision's URI with no path option |
| Endpoint.PortOf | src/index.js:83 | `port \|\| 16999`: the given port unless absent or 0 |
| Endpoint.PathOf | src/index.js:84 | `path \|\| '/'`: the given path unless absent or empty; never empty |
| Endpoint.SocketUriInjective | src/index.js:82-86 | for hosts without `:` and paths not starting with a digit, two URIs are equal exactly when host text, port and path agree |
| Endpoint.Init | src/index.js:58-79 | throws the host-required message exactly when neither host nor configUrl is given; fetches the configuration exactly when configUrl is given; otherwise builds the URI from the options |
| Endpoint.LegacyInit | example/vision-openfin.js:40-49 | only the host counts: the error exactly when it is missing, otherwise the URI with path `/`; never a fetch |
| Backoff.Pow2 | src/index.js:258 | `Math.pow(2, n)` is at least 1 and greater than `n` |
| Backoff.ShouldRetry | src/index.js:253 | the negated guard lets a retry through exactly when the ceiling is 0 or less or the counter has reached it |
| Backoff.Pow2Monotone | src/index.js:258 | `Math.pow(2, n)` never decreases as `n` grows |
| Backoff.RetryDelay | src/index.js:258-262 | the delay is at most the cap and at most `2^count·1000`, and equals one of the two |
| Backoff.RetryDelayMonotone | src/index.js:258-262 | later errors of a streak never wait less |
| Backoff.RetryDelaySaturates | src/index.js:15 | with the default 10 s cap the delay is 10 s from the fourth error on |
| Backoff.LiteralGuard | src/index.js:253-256 | below a positive ceiling no retry is scheduled, the reverse of what a ceiling is for |
| Backoff.AfterError | src/index.js:248-266 | the counter always goes up by one; a delay is scheduled exactly when the guard lets it through, and then the interval is that capped delay; otherwise the interval is unchanged |
| Backoff.Delays | src/index.js:248-266 | a streak of errors with no open in between yields one entry per error, the first being the first error's step |
| Backoff.DelaysAt | src/index.js:248-266 | the i-th error of a streak schedules by the counter value `count + i + 1` alone |
| Backoff.DefaultStreak | src/index.js:13-19 | with the defaults the errors after an open wait 2, 4, 8, 10 and 10 seconds |
| Backoff.UnlimitedAlwaysRetries | src/index.js:13 | without a ceiling every error of a streak schedules a retry within the cap |
| Backoff.CeilingSwallowsEarlyErrors | index.js:175-178 | with a positive ceiling, an error in a streak after an open schedules nothing exactly when it is one of the first `max - 1` |
| Heartbeat.IsFullBeat | src/index.js:144 | a tick builds the full payload exactly when the count before the send is a multiple of 30 |
| Heartbeat.Collect | src/index.js:41 | the built-in collector always returns `{}`; a client's collector does what the client's call does, returning a value, `undefined` or throwing (src/index.js:155) |
| Heartbeat.BeatPayload | src/index.js:140-156 | the payload is full, with the context and the collected data, exactly on a full count, and otherwise exactly `{type: 'heartbeat'}` |
| Heartbeat.BeatsOnlyBeats | lib/index.js:182 | the beats extracted from the messages sent are all heartbeats |
| Heartbeat.BeatsAppend | lib/index.js:182 | sending a message adds it to the beats exactly when it is a heartbeat |
| Heartbeat.TieredAt | src/index.js:39 | in a tiered log the k-th beat is full exactly when k is a multiple of 30 and light otherwise |
| Heartbeat.TieredOfFits | src/index.js:39 | a log whose every beat fits its position is tiered |
| Heartbeat.TieredExtend | src/index.js:144-163 | sending the payload chosen by the current count keeps the log tiered |
| Heartbeat.BeatLogExtend | src/index.js:158-163 | sending that payload raises the number of beats by one and keeps them tiered |
| Throttle.CaptureAllowed | src/index.js:289-291 | a capture goes ahead exactly when at least the minimum number of seconds, in milliseconds, has passed since the last one; a minimum of 0 or less never refuses a request made no earlier than the last capture |
| Throttle.GateInSeconds | src/index.js:289-294 | the integer-millisecond test refuses exactly when the seconds since the last capture are below the minimum |
| Throttle.GateStaysOpen | src/index.js:291 | once the interval has passed, the gate stays open until the next capture |
| Throttle.DefaultInterval | src/index.js:35 | with the default 120 s, a request 60 s after a capture is refused and one 130 s after is allowed |
| Dispatch.RouteOf | src/index.js:184-220 | each built-in type goes to its own branch before the registry; any other type runs its action exactly when registered and is ignored otherwise |
| Dispatch.LegacyRouteOf | index.js:134-143 | only handshake, shutdown and restart are routed; everything else is ignored |
| Dispatch.Delivered | src/index.js:178 | an event is handled exactly when it exists and its data is not a falsy value |
| Dispatch.ThenCheckThrows | src/index.js:199 | an `undefined` result passes; `null` throws, since `typeof null` is `'object'` and reading `then` on it fails; any other result throws exactly when its `then` read yields a truthy value, which a JSON value cannot call |
| Dispatch.WantsScreenshot | src/index.js:278 | only an object can ask for a capture, and it does exactly when its `takeScreenshot` field is present and not falsy |
| Dispatch.RoutesExtendLegacy | index.js:134-143 | the final revision routes the three old types as before and only adds routes for types the earlier revisions ignored |
| Session.Vision.constructor | src/index.js:6-50 | every default of the constructor, the registry as given, the client's collector when one is given and the built-in one returning `{}` otherwise, the session invariant, and the URI built at once without a configUrl |
| Session.Vision.SetupSocket | src/index.js:81-86 | the URI is `ws://` host `:` port path from the current options |
| Session.Vision.OnConfigFetched | src/index.js:64-75 | the fetched configuration is merged over the options and the URI rebuilt from the result |
| Session.Vision.OnHostFact | src/index.js:107-134 | each host callback stores its fact; an empty computer name is ignored |
| Session.Vision.Connect | src/index.js:224-232 | the socket opens on `uri` when truthy and on `this.uri` otherwise, and its error path retries that same `uri` argument |
| Session.Vision.OnOpen | src/index.js:235-239 | the retry counter and interval are reset to 0 and 1000 and the timer is armed with the interval; the beat counter, latch, capture time and connection id survive |
| Session.Vision.OnError | src/index.js:229-232 | the error path runs with the `uri` its `connect` was given |
| Session.Vision.HandleConnectionError | src/index.js:248-266 | the retry fields and the scheduled reconnect are exactly those of `Backoff.AfterError`, and the invariant is kept |
| Session.Vision.HeartbeatTick | src/index.js:137-175 | the collector is called exactly on a full count; a returned `undefined` gives a full beat without `additionalData`; if it throws, the tick ends with nothing sent, no counter change, no re-arm and no error path; otherwise, on an open socket one beat goes out, the counter goes up by one, the timer re-arms, and on the first beat the latch is set and a capture goes through the throttle; on a closing or closed socket nothing is sent and the error path runs with no URI; on a connecting socket nothing happens |
| Session.Vision.OpenTick | lib/index.js:177-190 | on an open socket the tiered beat goes out, the timer re-arms, and the bootstrap capture is requested exactly when the counter was 0 |
| Session.Vision.SendBeat | lib/index.js:177-189 | the beat the counter calls for is sent, the counter goes up by one, and the latch ends set |
| Session.Vision.TakeScreenshot | src/index.js:287-297 | a capture is refused, changing nothing, exactly when the minimum interval has not passed; otherwise the capture time becomes `now` |
| Session.Vision.OnSnapshot | src/index.js:300-307 | a captured snapshot is sent exactly when the socket is open by then |
| Session.Vision.MessageHandler | src/index.js:177-222 | events without data are dropped; a handshake overwrites the connection id; shutdown and restart call the host; take-screenshot goes through the throttle; a registered action's immediate result is sent back under its type exactly when the socket is open; a deferred one is left pending; a handler that throws, or a result that fails the `then` test, sends nothing; an `undefined` result is sent back as a reply without data; an unregistered type changes nothing |
| Session.Vision.SettleAction | lib/index.js:216-226 | a fulfilled deferred result is sent back exactly when the socket is open then; a rejection sends nothing |
| Session.Vision.NotifyLastAction | lib/index.js:292-305 | one user-action message exactly when the socket is open, and a capture after the configured delay exactly when the action asks for one, whatever the socket state; an absent action gives a bare user-action message and no capture |
| Session.Vision.UpdateAdditionalProps | src/index.js:283-285 | the new props are the old ones merged right-biased with the data |
| Session.NewVision | src/index.js:58-62 | construction fails with the host-required message exactly when neither host nor configUrl is given, and otherwise yields a valid object holding the given registry and collector |
| LegacySession.LegacyVision.constructor | example/vision-openfin.js:6-49 | the earlier defaults and the URI with path `/` |
| LegacySession.LegacyVision.OnHostFact | index.js:79-102 | each host callback stores its fact; an empty computer name is ignored |
| LegacySession.LegacyVision.Connect | index.js:147-154 | the socket opens on `uri` when truthy and on `this.uri` otherwise |
| LegacySession.LegacyVision.OnOpen | index.js:157-161 | the retry counter and interval are reset and the timer is armed with `heartbeatInterval \|\| 1000` |
| LegacySession.LegacyVision.OnError | index.js:151-154 | the error path runs with the `uri` its `connect` was given |
| LegacySession.LegacyVision.HandleConnectionError | example/vision-openfin.js:149-167 | the same back-off step as the final revision |
| LegacySession.LegacyVision.HeartbeatTick | index.js:107-126 | on an open socket the whole context goes out and the timer re-arms with `heartbeatInterval \|\| 1000`; on a closing or closed socket the error path runs; on a connecting one nothing happens |
| LegacySession.LegacyVision.MessageHandler | example/vision-openfin.js:107-124 | events without data are dropped; handshake, shutdown and restart are handled; every other type is ignored and nothing is ever sent |
| LegacySession.NewLegacyVision | example/vision-openfin.js:40-44 | construction fails with the earliest revision's message exactly when no host is given |
| Scenarios.FirstTwoBeats | src/index.js:137-175 | a fresh agent sends the full payload first and the bare heartbeat second, and requests the bootstrap capture only on the first tick |
| Scenarios.DefaultCollectorSendsEmpty | src/index.js:41 | without a client collector the first beat carries `{}` as its additional data |
| Scenarios.UndefinedCollectorOmitsData | src/index.js:155 | a client collector returning `undefined` gives a full first beat without the `additionalData` key |
| Scenarios.ThrowingCollectorStopsLoop | src/index.js:155 | a client collector that throws on the first tick stops the heartbeat on an open socket: nothing sent, no re-arm, no reconnect, no bootstrap capture |
| Scenarios.ClosedSocketBacksOff | src/index.js:173 | a socket that closes under a running heartbeat, and errors on the retry, waits 2 and then 4 seconds |
| Scenarios.PingReply | src/index.js:196-216 | a registered `ping` answering 42 on an open socket sends exactly one reply, under `ping`, carrying 42 |
| Scenarios.UndefinedAndThrowing | src/index.js:196-216 | on an open socket a throwing handler sends nothing and an `undefined` result gets a reply without data |
| Scenarios.BareUserAction | src/index.js:268-276 | `notifyLastAction()` on an open socket sends a bare user-action message and schedules no capture |
| Scenarios.LegacyFirstBeat | example/vision-openfin.js:86-105 | the earliest revision's first beat already carries the whole context |

## Left out

- JSON text. `JSON.parse` and `JSON.stringify` are not modelled: an inbound
  event carries its parsed message, and a malformed one, for which the unguarded
  parse throws, cannot be expressed. `JSON.stringify` leaves a field that is
  `undefined` out of the document. Four outbound fields are modelled as `Option`
  values, where `None` means the key is left out: the heartbeat's
  `connectionId` and `additionalData`, an action reply's `data` and a user
  action's `action`. The other fields the agent sends cannot be `undefined` in
  the model. The host facts are opaque values, and a host callback that passes
  `undefined` is not modelled.
- The network and the host. `fetch`, `new WebSocket`, the DOM readiness wait and
  every `fin.desktop` call are outside the model. Host facts, snapshots and
  fetched configuration arrive as method arguments, and `window.close` and the
  restart are recorded as `Host` results.
- Timers and promises. There is no event loop: a scheduled delay is returned, and
  the environment calls the matching method later. `setupSocket`'s wait for the
  DOM and `configureFin`'s `fin.desktop.main` are folded into the caller calling
  `Connect`.
- Debug logging, `window.location` (a parameter of the tick) and snapshot
  contents (opaque values).
- Wire.Property: only own keys of a parsed object are modelled. Inherited
  properties, such as `length` on strings and arrays or the members of
  `Object.prototype`, read as `undefined` in the model. The model reads only
  `connectionId`, `takeScreenshot` and `then`, and no JSON value inherits those.
- Session.Vision.HeartbeatTick: what a client collector does to the object is not
  modelled. It is called as a method of the object, but one call is modelled as
  a value or a throw, decided by the environment on each tick.
- Session.Vision.TakeScreenshot: reads one `now` where the source reads
  `Date.now()` twice, and compares integer milliseconds where the source compares
  float seconds. `Throttle.GateInSeconds` shows the two tests agree for one clock
  reading.
- Session.Vision.MessageHandler: the registry is a constructor argument. The
  source reads `this.options.actions`, not the `this.actions` the constructor
  sets, so a missing `options.actions` makes every non-built-in type throw a
  TypeError; this is not modelled. A key the registry inherits through the
  prototype chain is not modelled either.
- Session.Vision.MessageHandler: an action handler's side effects on the object
  (it is bound to `this`) are not modelled; a handler is a function of the
  message, and one that throws is the `Throws` outcome.
- Session.Vision.UpdateAdditionalProps: `Object.assign` updates the props object
  in place, and that object is shared with `options.additionalProps`; the model
  replaces the field by value and does not capture the aliasing. Merged data
  that is `null` or a primitive is not modelled.
- Session.Vision.OnConfigFetched: a fetched array is reduced to its first element
  before the merge. The model receives the configuration object itself. A
  configuration value of `null` or of another JSON type does not fit the typed
  options.
- Options are typed: a port given as a string, or option values of other JSON
  types, are not modelled.
- Construction with no options object at all is not modelled: the constructor
  would throw a TypeError while reading `options.additionalProps`.
- The socket placeholder `{}` before the first connect is readyState -1, which
  behaves like `undefined` in every test the source makes on it.
- One `outbox` records every message on whichever socket it was sent.
- Session.Vision.OnOpen and Session.Vision.OnError act on the current socket.
  In the source each socket keeps its own handlers, so an `open` or `error` from
  a socket that has since been replaced still resets or advances the shared
  retry fields and starts another heartbeat or reconnect. Such stale events and
  the doubled loops they cause are not modelled.
- `index.js` construction. Its `setupSocket` reads a free variable `options`
  instead of `this.options`, so it throws unless a global of that name exists.
  The URI and guard of `LegacyVision` follow `example/vision-openfin.js` instead.
- The `example/vision-openfin.js` defects. Its `debug` calls itself, its guard
  and its `DOMContentLoaded` listener call a bare `debug`, its callbacks use an unbound `this`, and its `onmessage`
  handler is unbound. The model treats these calls as the authors evidently
  meant them.
