/**
  Whole sessions driven through the session objects, from construction to
  the first heartbeats and the first connection errors.
 */
module Scenarios {
  import opened Wire
  import opened Config
  import opened Endpoint
  import opened Backoff
  import opened Heartbeat
  import opened Dispatch
  import opened Events
  import opened Session
  import opened LegacySession

  /** A fresh agent whose first socket has opened. */
  method OpenSession(opts: Options, registry: Registry, clientCollector: bool) returns (v: Vision, delay: int)
    requires !Init(opts).HostRequired?
    ensures fresh(v) && v.Valid() && v.readyState == SocketOpen
    ensures v.actions == registry
    ensures v.additionalDataCollector == (if clientCollector then ClientCollector else DefaultCollector)
    ensures v.outbox == [] && v.heartbeatCount == 0 && delay == v.heartbeatInterval
    ensures v.errorUri == None
    ensures v.connectionRetryMax == DefaultRetryMax && v.connectionRetryIntervalMax == DefaultRetryIntervalMax
    ensures v.connectionRetryCount == 0 && v.connectionRetryInterval == RetryIntervalFloor
  {
    v := new Vision(opts, registry, clientCollector);
    v.Connect(None);
    delay := v.OnOpen();
  }

  /** A fresh agent that connects and opens sends the full payload first and
      the bare heartbeat second, and requests the bootstrap capture only on
      the first tick. */
  method FirstTwoBeats(opts: Options, registry: Registry, location: Value, collected: Value, now: int)
    returns (first: OutMsg, second: OutMsg, bootstrapFirst: bool, bootstrapSecond: bool)
    requires !Init(opts).HostRequired? && !Given(opts.configUrl)
    ensures first.FullBeat? && first.additionalData == Some(collected)
    ensures second == LightBeat
    ensures bootstrapFirst && !bootstrapSecond
  {
    var v, delay := OpenSession(opts, registry, true);
    var rearm1, called1, threw1, boot1, started1, reconnect1 := v.HeartbeatTick(SocketOpen, now, location, Collected(Some(collected)));
    assert v.heartbeatCount == 1 && |v.outbox| == 1 && v.outbox[0].FullBeat?;
    ghost var afterFirst := v.outbox;
    var rearm2, called2, threw2, boot2, started2, reconnect2 := v.HeartbeatTick(SocketOpen, now + delay, location, Collected(Some(collected)));
    assert v.outbox == afterFirst + [LightBeat];
    first, second := v.outbox[0], v.outbox[1];
    bootstrapFirst, bootstrapSecond := boot1, boot2;
  }

  /** With the default retry settings, a socket that closes under a running
      heartbeat and errors again on the retry waits 2 and then 4 seconds. */
  method ClosedSocketBacksOff(opts: Options, registry: Registry, location: Value, client: Collection, now: int)
    returns (firstRetry: Option<Reconnect>, secondRetry: Option<Reconnect>)
    requires !Init(opts).HostRequired?
    ensures firstRetry == Some(Reconnect(2000, None))
    ensures secondRetry == Some(Reconnect(4000, None))
  {
    var v, delay := OpenSession(opts, registry, false);
    assert AfterError(0, DefaultRetryMax, RetryIntervalFloor, DefaultRetryIntervalMax) == Step(1, 2000, Some(2000));
    assert AfterError(1, DefaultRetryMax, 2000, DefaultRetryIntervalMax) == Step(2, 4000, Some(4000));
    v.SocketStateChanged(3);
    var rearm, called, threw, boot, started, reconnect := v.HeartbeatTick(3, now, location, client);
    firstRetry := reconnect;
    if reconnect.Some? {
      v.Connect(reconnect.value.uri);
    }
    secondRetry := v.OnError();
  }

  /** Without a client collector the first beat carries `{}` as its
      additional data, whatever a client collector would have done. */
  method DefaultCollectorSendsEmpty(opts: Options, registry: Registry, location: Value, client: Collection, now: int)
    returns (first: OutMsg)
    requires !Init(opts).HostRequired?
    ensures first.FullBeat? && first.additionalData == Some(JObj(map[]))
  {
    var v, delay := OpenSession(opts, registry, false);
    var rearm, called, threw, boot, started, reconnect := v.HeartbeatTick(SocketOpen, now, location, client);
    first := v.outbox[0];
  }

  /** A client collector that returns `undefined` gives a full first beat
      without the `additionalData` key. */
  method UndefinedCollectorOmitsData(opts: Options, registry: Registry, location: Value, now: int)
    returns (first: OutMsg)
    requires !Init(opts).HostRequired?
    ensures first.FullBeat? && first.additionalData.None?
  {
    var v, delay := OpenSession(opts, registry, true);
    var rearm, called, threw, boot, started, reconnect := v.HeartbeatTick(SocketOpen, now, location, Collected(None));
    first := v.outbox[0];
  }

  /** A client collector that throws on the first tick stops the heartbeat on
      an open socket for good: nothing is sent, the timer is not re-armed, no
      reconnect is scheduled and no bootstrap capture is requested. */
  method ThrowingCollectorStopsLoop(opts: Options, registry: Registry, location: Value, now: int)
    returns (rearm: Option<int>, reconnect: Option<Reconnect>, bootstrap: bool, sent: seq<OutMsg>, beats: nat)
    requires !Init(opts).HostRequired?
    ensures rearm.None? && reconnect.None? && !bootstrap
    ensures sent == [] && beats == 0
  {
    var v, delay := OpenSession(opts, registry, true);
    var called, threw, started;
    rearm, called, threw, bootstrap, started, reconnect := v.HeartbeatTick(SocketOpen, now, location, CollectorThrew);
    sent, beats := v.outbox, v.heartbeatCount;
  }

  /** A registered `ping` action answering 42 on an open socket: the reply
      goes out under the inbound type with the handler's value. */
  method PingReply(opts: Options, now: int) returns (h: Handled, sent: seq<OutMsg>)
    requires !Init(opts).HostRequired?
    ensures h == Replied(true)
    ensures sent == [ActionReply("ping", Some(JNum(42)))]
  {
    var registry: Registry := map["ping" := (m: Message) => Immediate(Some(JNum(42)))];
    var v, delay := OpenSession(opts, registry, false);
    assert RouteOf("ping", v.actions.Keys) == ActionRoute;
    h := v.MessageHandler(Some(Inbound(JStr("{}"), Message("ping", map[]))), now);
    sent := v.outbox;
  }

  /** On an open socket, a handler that throws sends nothing, and one that
      returns `undefined` is answered with a reply without data. */
  method UndefinedAndThrowing(opts: Options, now: int)
    returns (threw: Handled, replied: Handled, sent: seq<OutMsg>)
    requires !Init(opts).HostRequired?
    ensures threw == Threw && replied == Replied(true)
    ensures sent == [ActionReply("quiet", None)]
  {
    var registry: Registry := map["fail" := (m: Message) => Throws, "quiet" := (m: Message) => Immediate(None)];
    var v, delay := OpenSession(opts, registry, false);
    assert RouteOf("fail", v.actions.Keys) == ActionRoute;
    assert RouteOf("quiet", v.actions.Keys) == ActionRoute;
    threw := v.MessageHandler(Some(Inbound(JStr("{}"), Message("fail", map[]))), now);
    replied := v.MessageHandler(Some(Inbound(JStr("{}"), Message("quiet", map[]))), now);
    sent := v.outbox;
  }

  /** `notifyLastAction()` with no argument on an open socket sends a bare
      user action and asks for no capture. */
  method BareUserAction(opts: Options, registry: Registry) returns (captureAfter: Option<int>, sent: seq<OutMsg>)
    requires !Init(opts).HostRequired?
    ensures captureAfter == None
    ensures sent == [UserAction(None)]
  {
    var v, delay := OpenSession(opts, registry, false);
    captureAfter := v.NotifyLastAction(None);
    sent := v.outbox;
  }

  /** The earliest revision's first beat already carries the whole context. */
  method LegacyFirstBeat(opts: Options, location: Value) returns (first: OutMsg, rearm: Option<int>)
    requires !LegacyInit(opts).HostRequired?
    ensures first.BasicBeat? && first.context.location == location
    ensures rearm == Some(LegacyHeartbeatIntervalOf(opts.heartbeatInterval))
  {
    var v := new LegacyVision(opts);
    v.Connect(None);
    var delay := v.OnOpen();
    var reconnect;
    rearm, reconnect := v.HeartbeatTick(SocketOpen, location);
    first := v.outbox[0];
  }
}
