/**
  The session object of the final revision (`src/index.js`, transpiled to
  `lib/index.js`): reconnect back-off, the self re-arming heartbeat with
  tiered payloads and a one-shot bootstrap capture, the capture throttle, the
  inbound dispatcher and the outbound helpers.

  The environment drives the object: timers firing, socket events, host
  callbacks and promise settlements are method calls, and what the source
  would schedule is returned (a delay, a reconnect, a pending reply). Every
  message sent is appended to `outbox`.
 */
module Session {
  import opened Wire
  import opened Config
  import opened Endpoint
  import opened Backoff
  import opened Heartbeat
  import opened Throttle
  import opened Dispatch
  import opened Events

  class Vision {
    var options: Options
    const actions: Registry
    const additionalDataCollector: Collector
    /** readyState of `this.websocket`, the current socket. */
    var readyState: int
    /** The URI the current socket was opened on. */
    var socketUri: string
    /** The `uri` argument of the last `connect`, which its `onerror` retries with. */
    var errorUri: Option<string>
    var uri: string
    var connectionRetryMax: int
    var connectionRetryIntervalMax: int
    var connectionRetryCount: nat
    var connectionRetryInterval: int
    var monitorInfo: Value
    var hostInfo: Value
    var processList: Value
    var additionalProps: map<string, Value>
    var clientComputerName: string
    var sentScreenshot: bool
    var lastScreenshot: int
    var minimumSecondsBetweenScreenshots: int
    var notifyLastActionScreenshotDelay: int
    var heartbeatCount: nat
    var heartbeatInterval: int
    var connectionId: Option<Value>
    /** Every message sent, on whichever socket, in order. */
    var outbox: seq<OutMsg>

    /** The session invariant: the beat counter counts the heartbeats sent,
        those are tiered, the bootstrap latch is set exactly once a beat has
        gone out, the interval respects its floor, and a zero retry counter
        goes with the floor retry interval. */
    ghost predicate Valid()
      reads this
    {
      && heartbeatCount == |Beats(outbox)|
      && Tiered(Beats(outbox))
      && sentScreenshot == (heartbeatCount > 0)
      && heartbeatInterval > HeartbeatIntervalFloor
      && (connectionRetryCount == 0 ==> connectionRetryInterval == RetryIntervalFloor)
    }

    /** The constructor's defaults followed by `init` past its guard: without
        a configuration URL the URI is built at once; with one it waits for
        the fetched configuration (`OnConfigFetched`). `registry` is
        `options.actions`, and `clientCollector` says whether
        `options.additionalDataCollector` is given. */
    constructor (opts: Options, registry: Registry, clientCollector: bool)
      requires !Init(opts).HostRequired?
      ensures Valid()
      ensures options == opts && actions == registry
      ensures additionalDataCollector == (if clientCollector then ClientCollector else DefaultCollector)
      ensures readyState == NoSocket && socketUri == "" && errorUri == None && outbox == []
      ensures uri == (if Init(opts).OpenSocket? then Init(opts).uri else "")
      ensures connectionRetryMax == DefaultRetryMax
      ensures connectionRetryIntervalMax == DefaultRetryIntervalMax
      ensures connectionRetryCount == 0 && connectionRetryInterval == RetryIntervalFloor
      ensures monitorInfo == JObj(map[]) && hostInfo == JObj(map[]) && processList == JObj(map[])
      ensures additionalProps == (if opts.additionalProps.Some? then opts.additionalProps.value else map[])
      ensures clientComputerName == "" && connectionId == None
      ensures !sentScreenshot && lastScreenshot == 0 && heartbeatCount == 0
      ensures minimumSecondsBetweenScreenshots
           == OrElse(opts.minimumSecondsBetweenScreenshots, DefaultMinimumSecondsBetweenScreenshots)
      ensures notifyLastActionScreenshotDelay
           == OrElse(opts.notifyLastActionScreenshotDelay, DefaultNotifyLastActionScreenshotDelay)
      ensures heartbeatInterval == HeartbeatIntervalOf(opts.heartbeatInterval)
    {
      options := opts;
      actions := registry;
      additionalDataCollector := if clientCollector then ClientCollector else DefaultCollector;
      readyState := NoSocket;
      socketUri := "";
      errorUri := None;
      uri := "";
      connectionRetryMax := DefaultRetryMax;
      connectionRetryIntervalMax := DefaultRetryIntervalMax;
      connectionRetryCount := 0;
      connectionRetryInterval := RetryIntervalFloor;
      monitorInfo := JObj(map[]);
      hostInfo := JObj(map[]);
      processList := JObj(map[]);
      additionalProps := if opts.additionalProps.Some? then opts.additionalProps.value else map[];
      clientComputerName := "";
      sentScreenshot := false;
      lastScreenshot := 0;
      minimumSecondsBetweenScreenshots :=
        OrElse(opts.minimumSecondsBetweenScreenshots, DefaultMinimumSecondsBetweenScreenshots);
      notifyLastActionScreenshotDelay :=
        OrElse(opts.notifyLastActionScreenshotDelay, DefaultNotifyLastActionScreenshotDelay);
      heartbeatCount := 0;
      heartbeatInterval := HeartbeatIntervalOf(opts.heartbeatInterval);
      connectionId := None;
      outbox := [];
      new;
      assert Beats(outbox) == [];
      if !Given(options.configUrl) {
        SetupSocket();
      }
    }

    /** `setupSocket`: the URI from the current options. */
    method SetupSocket()
      requires Valid()
      modifies this`uri
      ensures Valid()
      ensures uri == SocketUri(options.host, options.port, options.path)
    {
      var host := HostText(options.host);
      var port := PortOf(options.port);
      var path := PathOf(options.path);
      uri := "ws://" + host + ":" + Decimal(port) + path;
    }

    /** The fetched configuration is merged into the options and the URI is
        built from the result. Only the URI is derived again: intervals,
        delays and props keep the values the constructor gave them. */
    method OnConfigFetched(config: Options)
      requires Valid()
      requires Given(options.configUrl)
      modifies this`options, this`uri
      ensures Valid()
      ensures options == MergeOptions(old(options), config)
      ensures uri == SocketUri(options.host, options.port, options.path)
    {
      options := MergeOptions(options, config);
      SetupSocket();
    }

    /** A host callback arrives; an empty computer name is ignored. */
    method OnHostFact(fact: HostFact)
      requires Valid()
      modifies this`monitorInfo, this`hostInfo, this`processList, this`clientComputerName
      ensures Valid()
      ensures monitorInfo == (if fact.MonitorInfo? then fact.info else old(monitorInfo))
      ensures hostInfo == (if fact.HostSpecs? then fact.info else old(hostInfo))
      ensures processList == (if fact.ProcessList? then fact.info else old(processList))
      ensures clientComputerName
           == (if fact.ComputerName? && fact.name != "" then fact.name else old(clientComputerName))
    {
      match fact
      case MonitorInfo(info) => monitorInfo := info;
      case HostSpecs(info) => hostInfo := info;
      case ProcessList(info) => processList := info;
      case ComputerName(name) =>
        if name != "" {
          clientComputerName := name;
        }
    }

    /** `connect(uri)`: a new socket on `uri`, or on `this.uri` when `uri` is
        falsy. Its `onerror` will retry with the same `uri` argument. */
    method Connect(uri: Option<string>)
      requires Valid()
      modifies this`readyState, this`socketUri, this`errorUri
      ensures Valid()
      ensures socketUri == (if Given(uri) then uri.value else this.uri)
      ensures readyState == SocketConnecting
      ensures errorUri == uri
    {
      socketUri := if Given(uri) then uri.value else this.uri;
      readyState := SocketConnecting;
      errorUri := uri;
    }

    /** The socket changes state outside the agent's control. */
    method SocketStateChanged(state: int)
      requires Valid()
      modifies this`readyState
      ensures Valid()
      ensures readyState == state
    {
      readyState := state;
    }

    /** `onopen`: the back-off is reset and the heartbeat timer armed; the
        beat counter, the latch, the throttle and the connection id survive. */
    method OnOpen() returns (heartbeatDelay: int)
      requires Valid()
      modifies this`connectionRetryCount, this`connectionRetryInterval, this`readyState
      ensures Valid()
      ensures connectionRetryCount == 0 && connectionRetryInterval == RetryIntervalFloor
      ensures readyState == SocketOpen
      ensures heartbeatDelay == heartbeatInterval
      ensures heartbeatCount == old(heartbeatCount) && sentScreenshot == old(sentScreenshot)
      ensures lastScreenshot == old(lastScreenshot) && connectionId == old(connectionId)
    {
      readyState := SocketOpen;
      connectionRetryCount := 0;
      connectionRetryInterval := RetryIntervalFloor;
      // `heartbeatInterval || 10000`: the interval is never 0 (Valid).
      heartbeatDelay := heartbeatInterval;
    }

    /** `onerror`: the error path, with the `uri` its `connect` was given. */
    method OnError() returns (reconnect: Option<Reconnect>)
      requires Valid()
      modifies this`connectionRetryCount, this`connectionRetryInterval
      ensures Valid()
      ensures var s := AfterError(old(connectionRetryCount), connectionRetryMax,
                                  old(connectionRetryInterval), connectionRetryIntervalMax);
        && connectionRetryCount == s.count && connectionRetryInterval == s.interval
        && reconnect == (if s.delay.Some? then Some(Reconnect(s.delay.value, errorUri)) else None)
    {
      reconnect := HandleConnectionError(errorUri);
    }

    /** `handleConnectionError(uri)`: the counter always goes up by one; unless
        the literal guard returns early, the interval becomes the capped
        exponential delay and a reconnect to `uri` is scheduled after it. */
    method HandleConnectionError(uri: Option<string>) returns (reconnect: Option<Reconnect>)
      requires Valid()
      modifies this`connectionRetryCount, this`connectionRetryInterval
      ensures Valid()
      ensures var s := AfterError(old(connectionRetryCount), connectionRetryMax,
                                  old(connectionRetryInterval), connectionRetryIntervalMax);
        && connectionRetryCount == s.count && connectionRetryInterval == s.interval
        && reconnect == (if s.delay.Some? then Some(Reconnect(s.delay.value, uri)) else None)
    {
      connectionRetryCount := connectionRetryCount + 1;
      if connectionRetryMax > 0 && connectionRetryMax > connectionRetryCount {
        return None;
      }
      connectionRetryInterval := Pow2(connectionRetryCount) * 1000;
      if connectionRetryInterval > connectionRetryIntervalMax {
        connectionRetryInterval := connectionRetryIntervalMax;
      }
      reconnect := Some(Reconnect(connectionRetryInterval, uri));
    }

    /** One firing of the heartbeat timer armed for a socket whose readyState
        is now `socketState`; `client` is what the client's collector does if
        it is called, `location` the window location. The payload is chosen,
        and the collector called, before the socket is looked at, and nothing
        catches a throw: a collector that throws ends the tick with nothing
        sent and no re-arm, so the loop stops. A tick writes none of the
        fields the context is read from. Otherwise an open socket gets the
        beat and the timer re-arms (the very first beat also sets the latch
        and requests a capture); a closing or closed socket takes the error
        path; a connecting one stops the loop. */
    method HeartbeatTick(socketState: int, now: int, location: Value, client: Collection)
      returns (rearm: Option<int>, collectorCalled: bool, collectorThrew: bool, bootstrap: bool,
               captureStarted: bool, reconnect: Option<Reconnect>)
      requires Valid()
      modifies this`heartbeatCount, this`outbox, this`sentScreenshot, this`lastScreenshot,
               this`connectionRetryCount, this`connectionRetryInterval
      ensures Valid()
      ensures collectorCalled == IsFullBeat(old(heartbeatCount))
      ensures collectorThrew == (collectorCalled && Collect(additionalDataCollector, client).CollectorThrew?)
      ensures collectorThrew ==>
        && heartbeatCount == old(heartbeatCount) && outbox == old(outbox)
        && rearm.None? && !bootstrap && !captureStarted && reconnect.None?
        && sentScreenshot == old(sentScreenshot) && lastScreenshot == old(lastScreenshot)
        && connectionRetryCount == old(connectionRetryCount)
        && connectionRetryInterval == old(connectionRetryInterval)
      ensures !collectorThrew && socketState == SocketOpen ==>
        && heartbeatCount == old(heartbeatCount) + 1
        && outbox == old(outbox) + [BeatPayload(old(heartbeatCount),
             Telemetry(location, old(connectionId), old(processList), old(hostInfo), old(monitorInfo),
                       old(additionalProps)),
             CollectedData(Collect(additionalDataCollector, client)))]
        && rearm == Some(heartbeatInterval)
        && sentScreenshot
        && bootstrap == !old(sentScreenshot) == (old(heartbeatCount) == 0)
        && captureStarted == (bootstrap && CaptureAllowed(now, old(lastScreenshot), minimumSecondsBetweenScreenshots))
        && lastScreenshot == (if captureStarted then now else old(lastScreenshot))
        && reconnect.None?
        && connectionRetryCount == old(connectionRetryCount)
        && connectionRetryInterval == old(connectionRetryInterval)
      ensures !collectorThrew && socketState != SocketOpen ==>
        && heartbeatCount == old(heartbeatCount) && outbox == old(outbox)
        && rearm.None? && !bootstrap && !captureStarted
        && sentScreenshot == old(sentScreenshot) && lastScreenshot == old(lastScreenshot)
      ensures !collectorThrew && socketState > SocketOpen ==>
        var s := AfterError(old(connectionRetryCount), connectionRetryMax,
                            old(connectionRetryInterval), connectionRetryIntervalMax);
        && connectionRetryCount == s.count && connectionRetryInterval == s.interval
        && reconnect == (if s.delay.Some? then Some(Reconnect(s.delay.value, None)) else None)
      ensures !collectorThrew && socketState < SocketOpen ==>
        && reconnect.None?
        && connectionRetryCount == old(connectionRetryCount)
        && connectionRetryInterval == old(connectionRetryInterval)
    {
      collectorCalled := IsFullBeat(heartbeatCount);
      var collection := Collect(additionalDataCollector, client);
      collectorThrew := collectorCalled && collection.CollectorThrew?;
      rearm, bootstrap, captureStarted, reconnect := None, false, false, None;
      if collectorThrew {
        return;
      }
      if socketState == SocketOpen {
        var context := Telemetry(location, connectionId, processList, hostInfo, monitorInfo, additionalProps);
        rearm, bootstrap, captureStarted := OpenTick(now, context, CollectedData(collection));
      } else if socketState > SocketOpen {
        reconnect := HandleConnectionError(None);
      }
    }

    /** A tick on an open socket: the beat goes out, the timer re-arms, and
        the first beat ever also requests the bootstrap capture. */
    method OpenTick(now: int, context: Telemetry, collected: Option<Value>)
      returns (rearm: Option<int>, bootstrap: bool, captureStarted: bool)
      requires Valid()
      modifies this`heartbeatCount, this`outbox, this`sentScreenshot, this`lastScreenshot
      ensures Valid()
      ensures heartbeatCount == old(heartbeatCount) + 1
      ensures outbox == old(outbox) + [BeatPayload(old(heartbeatCount), context, collected)]
      ensures rearm == Some(heartbeatInterval)
      ensures sentScreenshot && bootstrap == !old(sentScreenshot) == (old(heartbeatCount) == 0)
      ensures captureStarted == (bootstrap && CaptureAllowed(now, old(lastScreenshot), minimumSecondsBetweenScreenshots))
      ensures lastScreenshot == (if captureStarted then now else old(lastScreenshot))
    {
      bootstrap := !sentScreenshot;
      SendBeat(context, collected);
      rearm := Some(heartbeatInterval);
      captureStarted := false;
      if bootstrap {
        captureStarted := TakeScreenshot(now);
      }
    }

    /** The open-socket half of a tick: the payload the counter calls for is
        sent, the counter goes up, and the first beat sets the latch. */
    method SendBeat(context: Telemetry, collected: Option<Value>)
      requires Valid()
      modifies this`heartbeatCount, this`outbox, this`sentScreenshot
      ensures Valid()
      ensures heartbeatCount == old(heartbeatCount) + 1
      ensures outbox == old(outbox) + [BeatPayload(old(heartbeatCount), context, collected)]
      ensures sentScreenshot
    {
      var message := LightBeat;
      if heartbeatCount == 0 || heartbeatCount % FullDataPacketEvery == 0 {
        message := FullBeat(context, collected);
      }
      assert message == BeatPayload(heartbeatCount, context, collected);
      BeatLogExtend(outbox, heartbeatCount, context, collected);
      heartbeatCount := heartbeatCount + 1;
      outbox := outbox + [message];
      if !sentScreenshot {
        sentScreenshot := true;
      }
    }

    /** `takeScreenshot` at time `now`: refused, changing nothing, while the
        minimum interval since the last capture has not passed; otherwise the
        capture time is recorded and a snapshot requested from the host. */
    method TakeScreenshot(now: int) returns (started: bool)
      requires Valid()
      modifies this`lastScreenshot
      ensures Valid()
      ensures started == CaptureAllowed(now, old(lastScreenshot), minimumSecondsBetweenScreenshots)
      ensures lastScreenshot == (if started then now else old(lastScreenshot))
    {
      if now - lastScreenshot < minimumSecondsBetweenScreenshots * 1000 {
        return false;
      }
      lastScreenshot := now;
      started := true;
    }

    /** `socket.send` of anything but a heartbeat. */
    method Send(m: OutMsg)
      requires Valid() && !IsBeat(m)
      modifies this`outbox
      ensures Valid()
      ensures outbox == old(outbox) + [m]
    {
      BeatsAppend(outbox, m);
      outbox := outbox + [m];
      assert Beats(outbox) == Beats(old(outbox));
    }

    /** The host delivers a requested snapshot: sent only if the current
        socket is open by then. */
    method OnSnapshot(data: Value)
      requires Valid()
      modifies this`outbox
      ensures Valid()
      ensures outbox == old(outbox) + (if readyState == SocketOpen then [Screenshot(data)] else [])
    {
      if readyState == SocketOpen {
        Send(Screenshot(data));
      }
    }

    /** `messageHandler` at time `now`. Events without data are dropped; the
        built-in types come first; a registered action's immediate result is
        sent back under the same type when the socket is open, a deferred one
        is left pending (`SettleAction`); an unregistered type is ignored. */
    method MessageHandler(event: Option<Inbound>, now: int) returns (h: Handled)
      requires Valid()
      modifies this`connectionId, this`lastScreenshot, this`outbox
      ensures Valid()
      ensures !Delivered(event) ==>
        h == Dropped && connectionId == old(connectionId)
        && lastScreenshot == old(lastScreenshot) && outbox == old(outbox)
      ensures Delivered(event) ==>
        var m := event.value.message;
        var route := RouteOf(m.kind, actions.Keys);
        && (route.HandshakeRoute? ==>
              h == SetConnectionId && connectionId == Property(JObj(m.body), "connectionId"))
        && (!route.HandshakeRoute? ==> connectionId == old(connectionId))
        && (route.ShutdownRoute? ==> h == Host(CloseWindow))
        && (route.RestartRoute? ==> h == Host(RestartApplication))
        && (route.ScreenshotRoute? ==>
              h == Capture(CaptureAllowed(now, old(lastScreenshot), minimumSecondsBetweenScreenshots))
              && lastScreenshot == (if h.started then now else old(lastScreenshot)))
        && (!route.ScreenshotRoute? ==> lastScreenshot == old(lastScreenshot))
        && (route.ActionRoute? ==>
              var outcome := actions[m.kind](m);
              && (outcome.Deferred? ==> h == Awaiting(Pending(m.kind, outcome.settlement)))
              && (outcome.Throws? ==> h == Threw)
              && (outcome.Immediate? && ThenCheckThrows(outcome.value) ==> h == Threw)
              && (outcome.Immediate? && !ThenCheckThrows(outcome.value) ==>
                    h == Replied(readyState == SocketOpen)
                    && outbox == old(outbox)
                       + (if readyState == SocketOpen then [ActionReply(m.kind, outcome.value)] else [])))
        && (route.NoRoute? ==> h == Ignored)
        && (!h.Replied? ==> outbox == old(outbox))
    {
      if event.None? || !Truthy(event.value.data) {
        return Dropped;
      }
      var message := event.value.message;
      if message.kind == "handshake" {
        connectionId := Property(JObj(message.body), "connectionId");
        h := SetConnectionId;
      } else if message.kind == "shutdown" {
        h := Host(CloseWindow);
      } else if message.kind == "restart" {
        h := Host(RestartApplication);
      } else if message.kind == "take-screenshot" {
        var started := TakeScreenshot(now);
        h := Capture(started);
      } else if message.kind in actions {
        var result := actions[message.kind](message);
        match result
        case Throws =>
          h := Threw;
        case Deferred(settlement) =>
          h := Awaiting(Pending(message.kind, settlement));
        case Immediate(value) =>
          if ThenCheckThrows(value) {
            h := Threw;
          } else {
            if readyState == SocketOpen {
              Send(ActionReply(message.kind, value));
            }
            h := Replied(readyState == SocketOpen);
          }
      } else {
        h := Ignored;
      }
    }

    /** A deferred action result settles: a fulfilled one is sent back under
        its type if the current socket is open then; a rejection sends nothing. */
    method SettleAction(p: Pending) returns (sent: bool)
      requires Valid()
      modifies this`outbox
      ensures Valid()
      ensures sent == (p.settlement.Fulfilled? && readyState == SocketOpen)
      ensures outbox == old(outbox) + (if sent then [ActionReply(p.kind, p.settlement.value)] else [])
    {
      sent := false;
      if p.settlement.Fulfilled? && readyState == SocketOpen {
        Send(ActionReply(p.kind, p.settlement.value));
        sent := true;
      }
    }

    /** `notifyLastAction(action)`: one user-action message if the socket is
        open, and, whatever the socket state, a capture after the configured
        delay when the action asks for one. */
    method NotifyLastAction(action: Option<Value>) returns (captureAfter: Option<int>)
      requires Valid()
      modifies this`outbox
      ensures Valid()
      ensures outbox == old(outbox) + (if readyState == SocketOpen then [UserAction(action)] else [])
      ensures captureAfter == (if WantsScreenshot(action) then Some(notifyLastActionScreenshotDelay) else None)
    {
      if readyState == SocketOpen {
        Send(UserAction(action));
      }
      captureAfter := None;
      if action.Some? && Truthy(action.value) && Property(action.value, "takeScreenshot").Some?
         && Truthy(Property(action.value, "takeScreenshot").value) {
        captureAfter := Some(notifyLastActionScreenshotDelay);
      }
    }

    /** `updateAdditionalProps(d)`: keys of `d` win, every other key keeps its value. */
    method UpdateAdditionalProps(d: map<string, Value>)
      requires Valid()
      modifies this`additionalProps
      ensures Valid()
      ensures additionalProps == Merge(old(additionalProps), d)
    {
      additionalProps := additionalProps + d;
    }
  }

  /** `new Vision(options)`: throws the host-required error when neither a
      host nor a configuration URL is given. */
  method NewVision(opts: Options, registry: Registry, clientCollector: bool) returns (v: Vision?, error: Option<string>)
    ensures v == null <==> Init(opts).HostRequired?
    ensures v == null ==> error == Some(ErrorHostRequired)
    ensures v != null ==> error.None? && fresh(v) && v.Valid() && v.options == opts && v.actions == registry
    ensures v != null ==> v.uri == (if Init(opts).OpenSocket? then Init(opts).uri else "")
    ensures v != null ==> v.additionalDataCollector == (if clientCollector then ClientCollector else DefaultCollector)
  {
    if !Given(opts.host) && !Given(opts.configUrl) {
      return null, Some(ErrorHostRequired);
    }
    v := new Vision(opts, registry, clientCollector);
    error := None;
  }
}
