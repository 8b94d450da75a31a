/**
  Inbound dispatch: the built-in message types, the action registry and the
  shapes of a registered action's result.
 */
module Dispatch {
  import opened Wire

  /** How a deferred action result settles; a promise may resolve to
      `undefined` (None). */
  datatype Settlement = Fulfilled(value: Option<Value>) | Rejection

  /** What calling a registered action does: it returns a plain value
      (`undefined` is None) or a promise, or it throws. */
  datatype ActionOutcome =
    | Immediate(value: Option<Value>)
    | Deferred(settlement: Settlement)
    | Throws

  /** The action registry: message type to handler. */
  type Registry = map<string, Message -> ActionOutcome>

  datatype Route = HandshakeRoute | ShutdownRoute | RestartRoute | ScreenshotRoute | ActionRoute | NoRoute

  const BuiltIns: set<string> := {"handshake", "shutdown", "restart", "take-screenshot"}
  const LegacyBuiltIns: set<string> := {"handshake", "shutdown", "restart"}

  /** The final revision's routing: the built-in types are tested first, so a
      registered action named like one of them never runs; any other type
      goes to the registry when registered and is ignored otherwise. */
  function RouteOf(kind: string, registered: set<string>): (r: Route)
    ensures r.HandshakeRoute? <==> kind == "handshake"
    ensures r.ShutdownRoute? <==> kind == "shutdown"
    ensures r.RestartRoute? <==> kind == "restart"
    ensures r.ScreenshotRoute? <==> kind == "take-screenshot"
    ensures r.ActionRoute? <==> kind !in BuiltIns && kind in registered
    ensures r.NoRoute? <==> kind !in BuiltIns && kind !in registered
  {
    if kind == "handshake" then HandshakeRoute
    else if kind == "shutdown" then ShutdownRoute
    else if kind == "restart" then RestartRoute
    else if kind == "take-screenshot" then ScreenshotRoute
    else if kind in registered then ActionRoute
    else NoRoute
  }

  /** The earlier revisions' routing: three built-in types, everything else ignored. */
  function LegacyRouteOf(kind: string): (r: Route)
    ensures r.HandshakeRoute? <==> kind == "handshake"
    ensures r.ShutdownRoute? <==> kind == "shutdown"
    ensures r.RestartRoute? <==> kind == "restart"
    ensures r.NoRoute? <==> kind !in LegacyBuiltIns
  {
    if kind == "handshake" then HandshakeRoute
    else if kind == "shutdown" then ShutdownRoute
    else if kind == "restart" then RestartRoute
    else NoRoute
  }

  /** The final revision routes the three old types as before and only adds
      routes for types the earlier revisions ignored. */
  lemma RoutesExtendLegacy(kind: string, registered: set<string>)
    ensures kind in LegacyBuiltIns ==> RouteOf(kind, registered) == LegacyRouteOf(kind)
    ensures RouteOf(kind, registered) != LegacyRouteOf(kind) ==> LegacyRouteOf(kind).NoRoute?
  {
  }

  /** The test `typeof result === 'object' && result.then` throws on an
      immediate result that is null (a property read on null) or an object
      whose `then` is truthy (it is called, and a JSON value is no function);
      `undefined` is not an object and passes. */
  function ThenCheckThrows(v: Option<Value>): (throws: bool)
    ensures v.None? ==> !throws
    ensures v.Some? && v.value.JNull? ==> throws
    ensures v.Some? && !v.value.JNull? ==>
      (throws <==> Property(v.value, "then").Some? && Truthy(Property(v.value, "then").value))
  {
    v.Some? && (v.value.JNull? || (v.value.JObj? && "then" in v.value.fields && Truthy(v.value.fields["then"])))
  }

  /** A deferred reply: the inbound type to answer and how the promise settles. */
  datatype Pending = Pending(kind: string, settlement: Settlement)

  /** Requests to the host application. */
  datatype HostCall = CloseWindow | RestartApplication

  /** What handling one socket `message` event did. */
  datatype Handled =
    | Dropped               // no data on the event
    | SetConnectionId       // handshake
    | Host(call: HostCall)  // shutdown or restart
    | Capture(started: bool) // take-screenshot, through the throttle
    | Replied(sent: bool)   // immediate action result, sent when the socket is open
    | Awaiting(pending: Pending) // deferred action result
    | Threw                 // the handler or the result test threw; nothing sent
    | Ignored               // not built in and not registered

  /** `!event || !event.data` drops the event before parsing. */
  function Delivered(event: Option<Inbound>): (d: bool)
    ensures d <==> event.Some? && event.value.data !in FalsyValues
  {
    event.Some? && Truthy(event.value.data)
  }

  /** `action && action.takeScreenshot`; an absent action (None) is falsy. */
  function WantsScreenshot(action: Option<Value>): (wants: bool)
    ensures wants ==> action.Some? && action.value.JObj?
    ensures wants <==> && action.Some? && action.value.JObj?
                       && "takeScreenshot" in action.value.fields
                       && action.value.fields["takeScreenshot"] !in FalsyValues
  {
    && action.Some? && Truthy(action.value)
    && Property(action.value, "takeScreenshot").Some?
    && Truthy(Property(action.value, "takeScreenshot").value)
  }
}
