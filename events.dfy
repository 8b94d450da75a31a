/**
  What the environment reports to the agent and what the agent asks of it:
  socket states, host callbacks and scheduled reconnects. Every revision of
  the agent shares these.
 */
module Events {
  import opened Wire

  /** WebSocket readyState values. */
  const SocketConnecting := 0
  const SocketOpen := 1
  /** The placeholder `{}` that stands for the socket before the first connect
      has no readyState; -1 behaves like `undefined` in every test made on it
      (`=== 1` and `> 1` are both false). */
  const NoSocket := -1

  /** A reconnect scheduled by the error path: `connect(uri)` after `delay` ms. */
  datatype Reconnect = Reconnect(delay: int, uri: Option<string>)

  /** What the host reports asynchronously once the application is up. */
  datatype HostFact =
    | MonitorInfo(info: Value)
    | HostSpecs(info: Value)
    | ProcessList(info: Value)
    | ComputerName(name: string)
}
