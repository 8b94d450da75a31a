/**
  The session object of the earlier revisions (`index.js` and
  `example/vision-openfin.js`): the same reconnect back-off, a heartbeat that
  always carries the whole context and re-arms with `heartbeatInterval || 1000`,
  and a dispatcher that knows only the handshake, shutdown and restart types.
  There is no capture, no action registry and no outbound helper, so the
  heartbeat is the only message ever sent.
 */
module LegacySession {
  import opened Wire
  import opened Config
  import opened Endpoint
  import opened Backoff
  import opened Heartbeat
  import opened Dispatch
  import opened Events

  class LegacyVision {
    var options: Options
    /** readyState of `this.websocket`, the current socket. */
    var readyState: int
    var socketUri: string
    /** The `uri` argument of the last `connect`, which its `onerror` retries with. */
    var errorUri: Option<string>
    var uri: string
    var connectionRetryMax: int
    var connectionRetryIntervalMax: int
    var connectionRetryCount: nat
    var connectionRetryInterval: int
    var monitorInfo: Value
    var hostInfo: Value
    var processList: Value
    var additionalProps: map<string, Value>
    var clientComputerName: string
    var connectionId: Option<Value>
    /** Every message sent, in order. */
    var outbox: seq<OutMsg>

    /** Every message sent is a heartbeat with the whole context, and a zero
        retry counter goes with the floor retry interval. */
    ghost predicate Valid()
      reads this
    {
      && Untiered(outbox)
      && (connectionRetryCount == 0 ==> connectionRetryInterval == RetryIntervalFloor)
    }

    /** The constructor's defaults followed by `init` past its guard, which
        requires a host and builds the URI at once, always with path `/`. */
    constructor (opts: Options)
      requires !LegacyInit(opts).HostRequired?
      ensures Valid()
      ensures options == opts
      ensures readyState == NoSocket && socketUri == "" && errorUri == None && outbox == []
      ensures uri == LegacySocketUri(opts.host, opts.port)
      ensures connectionRetryMax == DefaultRetryMax
      ensures connectionRetryIntervalMax == DefaultRetryIntervalMax
      ensures connectionRetryCount == 0 && connectionRetryInterval == RetryIntervalFloor
      ensures monitorInfo == JObj(map[]) && hostInfo == JObj(map[]) && processList == JObj(map[])
      ensures additionalProps == (if opts.additionalProps.Some? then opts.additionalProps.value else map[])
      ensures clientComputerName == "" && connectionId == None
    {
      options := opts;
      readyState := NoSocket;
      socketUri := "";
      errorUri := None;
      connectionRetryMax := DefaultRetryMax;
      connectionRetryIntervalMax := DefaultRetryIntervalMax;
      connectionRetryCount := 0;
      connectionRetryInterval := RetryIntervalFloor;
      monitorInfo := JObj(map[]);
      hostInfo := JObj(map[]);
      processList := JObj(map[]);
      additionalProps := if opts.additionalProps.Some? then opts.additionalProps.value else map[];
      clientComputerName := "";
      connectionId := None;
      outbox := [];
      uri := "ws://" + HostText(opts.host) + ":" + Decimal(PortOf(opts.port)) + "/";
    }

    /** A host callback arrives; an empty computer name is ignored. */
    method OnHostFact(fact: HostFact)
      requires Valid()
      modifies this`monitorInfo, this`hostInfo, this`processList, this`clientComputerName
      ensures Valid()
      ensures monitorInfo == (if fact.MonitorInfo? then fact.info else old(monitorInfo))
      ensures hostInfo == (if fact.HostSpecs? then fact.info else old(hostInfo))
      ensures processList == (if fact.ProcessList? then fact.info else old(processList))
      ensures clientComputerName
           == (if fact.ComputerName? && fact.name != "" then fact.name else old(clientComputerName))
    {
      match fact
      case MonitorInfo(info) => monitorInfo := info;
      case HostSpecs(info) => hostInfo := info;
      case ProcessList(info) => processList := info;
      case ComputerName(name) =>
        if name != "" {
          clientComputerName := name;
        }
    }

    /** `connect(uri)`: a new socket on `uri`, or on `this.uri` when `uri` is falsy. */
    method Connect(uri: Option<string>)
      requires Valid()
      modifies this`readyState, this`socketUri, this`errorUri
      ensures Valid()
      ensures socketUri == (if Given(uri) then uri.value else this.uri)
      ensures readyState == SocketConnecting
      ensures errorUri == uri
    {
      socketUri := if Given(uri) then uri.value else this.uri;
      readyState := SocketConnecting;
      errorUri := uri;
    }

    /** The socket changes state outside the agent's control. */
    method SocketStateChanged(state: int)
      requires Valid()
      modifies this`readyState
      ensures Valid()
      ensures readyState == state
    {
      readyState := state;
    }

    /** `onopen`: the back-off is reset and the heartbeat timer armed with
        `heartbeatInterval || 1000`. */
    method OnOpen() returns (heartbeatDelay: int)
      requires Valid()
      modifies this`connectionRetryCount, this`connectionRetryInterval, this`readyState
      ensures Valid()
      ensures connectionRetryCount == 0 && connectionRetryInterval == RetryIntervalFloor
      ensures readyState == SocketOpen
      ensures heartbeatDelay == LegacyHeartbeatIntervalOf(options.heartbeatInterval)
    {
      readyState := SocketOpen;
      connectionRetryCount := 0;
      connectionRetryInterval := RetryIntervalFloor;
      heartbeatDelay := OrElse(options.heartbeatInterval, LegacyDefaultHeartbeatInterval);
    }

    /** `onerror`: the error path, with the `uri` its `connect` was given. */
    method OnError() returns (reconnect: Option<Reconnect>)
      requires Valid()
      modifies this`connectionRetryCount, this`connectionRetryInterval
      ensures Valid()
      ensures var s := AfterError(old(connectionRetryCount), connectionRetryMax,
                                  old(connectionRetryInterval), connectionRetryIntervalMax);
        && connectionRetryCount == s.count && connectionRetryInterval == s.interval
        && reconnect == (if s.delay.Some? then Some(Reconnect(s.delay.value, errorUri)) else None)
    {
      reconnect := HandleConnectionError(errorUri);
    }

    /** `handleConnectionError(uri)`, the same text as in the final revision. */
    method HandleConnectionError(uri: Option<string>) returns (reconnect: Option<Reconnect>)
      requires Valid()
      modifies this`connectionRetryCount, this`connectionRetryInterval
      ensures Valid()
      ensures var s := AfterError(old(connectionRetryCount), connectionRetryMax,
                                  old(connectionRetryInterval), connectionRetryIntervalMax);
        && connectionRetryCount == s.count && connectionRetryInterval == s.interval
        && reconnect == (if s.delay.Some? then Some(Reconnect(s.delay.value, uri)) else None)
    {
      connectionRetryCount := connectionRetryCount + 1;
      if connectionRetryMax > 0 && connectionRetryMax > connectionRetryCount {
        return None;
      }
      connectionRetryInterval := Pow2(connectionRetryCount) * 1000;
      if connectionRetryInterval > connectionRetryIntervalMax {
        connectionRetryInterval := connectionRetryIntervalMax;
      }
      reconnect := Some(Reconnect(connectionRetryInterval, uri));
    }

    /** One firing of the heartbeat timer armed for a socket whose readyState
        is now `socketState`: an open socket gets the full-context beat and the
        timer re-arms; a closing or closed socket takes the error path with no
        URI; a connecting one stops the loop. */
    method HeartbeatTick(socketState: int, location: Value)
      returns (rearm: Option<int>, reconnect: Option<Reconnect>)
      requires Valid()
      modifies this`outbox, this`connectionRetryCount, this`connectionRetryInterval
      ensures Valid()
      ensures socketState == SocketOpen ==>
        && outbox == old(outbox)
           + [BasicBeat(Telemetry(location, connectionId, processList, hostInfo, monitorInfo, additionalProps))]
        && rearm == Some(LegacyHeartbeatIntervalOf(options.heartbeatInterval))
      ensures socketState != SocketOpen ==> outbox == old(outbox) && rearm.None?
      ensures socketState > SocketOpen ==>
        var s := AfterError(old(connectionRetryCount), connectionRetryMax,
                            old(connectionRetryInterval), connectionRetryIntervalMax);
        && connectionRetryCount == s.count && connectionRetryInterval == s.interval
        && reconnect == (if s.delay.Some? then Some(Reconnect(s.delay.value, None)) else None)
      ensures socketState <= SocketOpen ==>
        && reconnect.None?
        && connectionRetryCount == old(connectionRetryCount)
        && connectionRetryInterval == old(connectionRetryInterval)
    {
      rearm, reconnect := None, None;
      if socketState == SocketOpen {
        var beat := BasicBeat(Telemetry(location, connectionId, processList, hostInfo, monitorInfo, additionalProps));
        outbox := outbox + [beat];
        rearm := Some(OrElse(options.heartbeatInterval, LegacyDefaultHeartbeatInterval));
      }
      if socketState > SocketOpen {
        reconnect := HandleConnectionError(None);
      }
    }

    /** `messageHandler`: events without data are dropped; a handshake stores
        the connection id, shutdown and restart call the host, and every other
        type is ignored. Nothing is ever sent back. */
    method MessageHandler(event: Option<Inbound>) returns (h: Handled)
      modifies this`connectionId
      ensures !Delivered(event) ==> h == Dropped && connectionId == old(connectionId)
      ensures Delivered(event) ==>
        var m := event.value.message;
        var route := LegacyRouteOf(m.kind);
        && (route.HandshakeRoute? ==>
              h == SetConnectionId && connectionId == Property(JObj(m.body), "connectionId"))
        && (!route.HandshakeRoute? ==> connectionId == old(connectionId))
        && (route.ShutdownRoute? ==> h == Host(CloseWindow))
        && (route.RestartRoute? ==> h == Host(RestartApplication))
        && (route.NoRoute? ==> h == Ignored)
    {
      if event.None? || !Truthy(event.value.data) {
        return Dropped;
      }
      var message := event.value.message;
      if message.kind == "handshake" {
        connectionId := Property(JObj(message.body), "connectionId");
        h := SetConnectionId;
      } else if message.kind == "shutdown" {
        h := Host(CloseWindow);
      } else if message.kind == "restart" {
        h := Host(RestartApplication);
      } else {
        h := Ignored;
      }
    }
  }

  /** `new Vision(options)` of the earliest revision: throws the host-required
      error unless a host is given. */
  method NewLegacyVision(opts: Options) returns (v: LegacyVision?, error: Option<string>)
    ensures v == null <==> LegacyInit(opts).HostRequired?
    ensures v == null ==> error == Some(LegacyErrorHostRequired)
    ensures v != null ==> error.None? && fresh(v) && v.Valid() && v.options == opts
    ensures v != null ==> v.uri == LegacySocketUri(opts.host, opts.port)
  {
    if !Given(opts.host) {
      return null, Some(LegacyErrorHostRequired);
    }
    v := new LegacyVision(opts);
    error := None;
  }
}
