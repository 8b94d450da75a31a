/**
  The recognised configuration options and the defaults the agent derives
  from them. An absent option is `None`; JavaScript's `option || default`
  also falls back on a present but falsy option (an empty string, zero).
 */
module Config {
  import opened Wire

  datatype Options = Options(
    host: Option<string>,
    configUrl: Option<string>,
    port: Option<nat>,
    path: Option<string>,
    heartbeatInterval: Option<int>,
    minimumSecondsBetweenScreenshots: Option<int>,
    notifyLastActionScreenshotDelay: Option<int>,
    additionalProps: Option<map<string, Value>>)

  /** A string option that is truthy: present and not empty. */
  predicate Given(o: Option<string>) {
    o.Some? && o.value != ""
  }

  /** A number option that is truthy: present and not zero. */
  predicate NonZero(o: Option<int>) {
    o.Some? && o.value != 0
  }

  const DefaultHeartbeatInterval := 10000
  const HeartbeatIntervalFloor := 1000
  const LegacyDefaultHeartbeatInterval := 1000
  const DefaultMinimumSecondsBetweenScreenshots := 120
  const DefaultNotifyLastActionScreenshotDelay := 500

  /** `o || d` for a number option. */
  function OrElse(o: Option<int>, d: int): (r: int)
    ensures NonZero(o) ==> r == o.value
    ensures !NonZero(o) ==> r == d
  {
    if NonZero(o) then o.value else d
  }

  /** The final revision's heartbeat interval: the configured value when it is
      above the floor, the 10-second default otherwise (also when absent). */
  function HeartbeatIntervalOf(configured: Option<int>): (r: int)
    ensures r > HeartbeatIntervalFloor
    ensures configured.Some? && configured.value > HeartbeatIntervalFloor ==> r == configured.value
    ensures r != DefaultHeartbeatInterval ==> configured == Some(r)
  {
    if configured.Some? && configured.value > HeartbeatIntervalFloor then configured.value
    else DefaultHeartbeatInterval
  }

  /** The earlier revisions' heartbeat interval, `heartbeatInterval || 1000`:
      any non-zero configured value is taken as it is, without a floor. */
  function LegacyHeartbeatIntervalOf(configured: Option<int>): (r: int)
    ensures r != 0
    ensures NonZero(configured) ==> r == configured.value
    ensures !NonZero(configured) ==> r == LegacyDefaultHeartbeatInterval
  {
    OrElse(configured, LegacyDefaultHeartbeatInterval)
  }

  /** The final revision agrees with the earlier ones on an interval above
      the floor, and waits ten times longer when none is configured. */
  lemma HeartbeatIntervalRevisions(configured: Option<int>)
    ensures configured.Some? && configured.value > HeartbeatIntervalFloor
        ==> HeartbeatIntervalOf(configured) == LegacyHeartbeatIntervalOf(configured)
    ensures !NonZero(configured)
        ==> HeartbeatIntervalOf(configured) == 10 * LegacyHeartbeatIntervalOf(configured)
  {
  }

  /** `over` replaces `base` whenever it is present. */
  predicate Overrides<T(==)>(base: Option<T>, over: Option<T>, r: Option<T>) {
    (over.Some? ==> r == over) && (over.None? ==> r == base)
  }

  /** `Object.assign(options, config)`: every option the fetched configuration
      carries replaces the one given at construction. */
  function MergeOptions(o: Options, c: Options): (r: Options)
    ensures Overrides(o.host, c.host, r.host)
    ensures Overrides(o.configUrl, c.configUrl, r.configUrl)
    ensures Overrides(o.port, c.port, r.port)
    ensures Overrides(o.path, c.path, r.path)
    ensures Overrides(o.heartbeatInterval, c.heartbeatInterval, r.heartbeatInterval)
    ensures Overrides(o.minimumSecondsBetweenScreenshots, c.minimumSecondsBetweenScreenshots, r.minimumSecondsBetweenScreenshots)
    ensures Overrides(o.notifyLastActionScreenshotDelay, c.notifyLastActionScreenshotDelay, r.notifyLastActionScreenshotDelay)
    ensures Overrides(o.additionalProps, c.additionalProps, r.additionalProps)
  {
    Options(
      if c.host.Some? then c.host else o.host,
      if c.configUrl.Some? then c.configUrl else o.configUrl,
      if c.port.Some? then c.port else o.port,
      if c.path.Some? then c.path else o.path,
      if c.heartbeatInterval.Some? then c.heartbeatInterval else o.heartbeatInterval,
      if c.minimumSecondsBetweenScreenshots.Some? then c.minimumSecondsBetweenScreenshots
      else o.minimumSecondsBetweenScreenshots,
      if c.notifyLastActionScreenshotDelay.Some? then c.notifyLastActionScreenshotDelay
      else o.notifyLastActionScreenshotDelay,
      if c.additionalProps.Some? then c.additionalProps else o.additionalProps)
  }

  /** `Object.assign(props, d)`: a right-biased shallow merge. */
  function Merge(props: map<string, Value>, d: map<string, Value>): (r: map<string, Value>)
    ensures r.Keys == props.Keys + d.Keys
    ensures forall k :: k in d ==> r[k] == d[k]
    ensures forall k :: k in props && k !in d ==> r[k] == props[k]
  {
    props + d
  }

  /** Merging the same data a second time changes nothing. */
  lemma MergeIdempotent(props: map<string, Value>, d: map<string, Value>)
    ensures Merge(Merge(props, d), d) == Merge(props, d)
  {
  }
}
