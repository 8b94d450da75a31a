/**
  Values and messages exchanged between the client agent and the monitoring
  server. JSON text is not modelled: an inbound message is its parsed form and
  an outbound message is the object that would be serialised.
 */
module Wire {

  datatype Option<+T> = None | Some(value: T)

  /** A JSON value as the agent sees it: host facts, action descriptors, action
      results and snapshot payloads are all carried opaquely as values. */
  datatype Value =
    | JNull
    | JBool(b: bool)
    | JNum(n: int)
    | JStr(s: string)
    | JArr(items: seq<Value>)
    | JObj(fields: map<string, Value>)

  /** The JSON values JavaScript treats as false (NaN and -0 are not
      modelled numbers). */
  const FalsyValues: set<Value> := {JNull, JBool(false), JNum(0), JStr("")}

  /** JavaScript truthiness of a value: every value but the falsy ones. */
  function Truthy(v: Value): (t: bool)
    ensures t <==> v !in FalsyValues
  {
    match v
    case JNull => false
    case JBool(b) => b
    case JNum(n) => n != 0
    case JStr(s) => s != ""
    case JArr(_) => true
    case JObj(_) => true
  }

  /** The property read `v.name` for a name that is an own key of a parsed
      object and that no JSON value inherits (not `length`, not a member of
      `Object.prototype`): only an object that has the key yields a value;
      on every other value the read gives `undefined` (None). */
  function Property(v: Value, name: string): (r: Option<Value>)
    ensures r.Some? <==> v.JObj? && name in v.fields
    ensures r.Some? ==> r.value == v.fields[name]
  {
    match v
    case JObj(m) => if name in m then Some(m[name]) else None
    case _ => None
  }

  /** An inbound message after parsing: its `type` and its other fields. */
  datatype Message = Message(kind: string, body: map<string, Value>)

  /** A socket `message` event: the raw `data` and what parsing it yields. */
  datatype Inbound = Inbound(data: Value, message: Message)

  /** The context fields of a full heartbeat. */
  datatype Telemetry = Telemetry(
    location: Value,
    connectionId: Option<Value>,
    processList: Value,
    hostInfo: Value,
    monitorInfo: Value,
    additionalProps: map<string, Value>)

  /** Every message the agent sends; each is one complete JSON document. A
      field that is `undefined` (None) is left out of the document. */
  datatype OutMsg =
    | LightBeat                                          // {type: 'heartbeat'}
    | FullBeat(context: Telemetry, additionalData: Option<Value>) // tiered full heartbeat
    | BasicBeat(context: Telemetry)                      // earlier revisions' heartbeat
    | UserAction(action: Option<Value>)                  // {type: 'user-action', action}
    | Screenshot(data: Value)                            // {type: 'screenshot', data}
    | ActionReply(kind: string, result: Option<Value>)   // {type: <inbound type>, data}

  predicate IsBeat(m: OutMsg) {
    m.LightBeat? || m.FullBeat? || m.BasicBeat?
  }
}
