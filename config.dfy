/** The SDK configuration (DatablitConfig.kt). */
module Configuration {
  import opened Wrappers

  datatype Config = Config(
    endpoint: string,
    flushAt: int,
    flushInterval: int,
    trackApplicationLifecycleEvents: bool,
    trackDeepLinks: bool,
    enableDebugLogs: bool,
    apiBaseURL: string)

  const DefaultEndpoint := "https://event.datablit.com/v1/batch"
  const DefaultApiBaseURL := "https://console.datablit.com"
  const DefaultFlushAt := 20
  const DefaultFlushInterval := 30000
  const FlushAtMessage := "flushAt must be greater than 0"
  const FlushIntervalMessage := "flushInterval must be greater than 0"

  /** What `init` requires of a configuration. */
  predicate Valid(c: Config) {
    c.flushAt > 0 && c.flushInterval > 0
  }

  /**
   * The primary constructor: every argument has a default, and `init` rejects
   * a non-positive `flushAt` first, then a non-positive `flushInterval`.
   */
  function Make(endpoint: string := DefaultEndpoint, flushAt: int := DefaultFlushAt,
                flushInterval: int := DefaultFlushInterval, trackApplicationLifecycleEvents: bool := false,
                trackDeepLinks: bool := false, enableDebugLogs: bool := false,
                apiBaseURL: string := DefaultApiBaseURL): (r: Result<Config, string>)
    ensures r.Success? <==> flushAt > 0 && flushInterval > 0
    ensures flushAt <= 0 ==> r == Failure(FlushAtMessage)
    ensures flushAt > 0 && flushInterval <= 0 ==> r == Failure(FlushIntervalMessage)
    ensures r.Success? ==> Valid(r.value)
    ensures r.Success? ==> r.value.endpoint == endpoint && r.value.flushAt == flushAt
                           && r.value.flushInterval == flushInterval
                           && r.value.trackApplicationLifecycleEvents == trackApplicationLifecycleEvents
                           && r.value.trackDeepLinks == trackDeepLinks
                           && r.value.enableDebugLogs == enableDebugLogs && r.value.apiBaseURL == apiBaseURL
  {
    if flushAt <= 0 then Failure(FlushAtMessage)
    else if flushInterval <= 0 then Failure(FlushIntervalMessage)
    else Success(Config(endpoint, flushAt, flushInterval, trackApplicationLifecycleEvents,
                        trackDeepLinks, enableDebugLogs, apiBaseURL))
  }

  /** `DatablitConfig()`: the defaults pass validation. */
  function Default(): (c: Config)
    ensures Make() == Success(c) && Valid(c)
    ensures c.flushAt == 20 && c.flushInterval == 30000
    ensures !c.trackApplicationLifecycleEvents && !c.trackDeepLinks && !c.enableDebugLogs
    ensures c.endpoint == "https://event.datablit.com/v1/batch" && c.apiBaseURL == "https://console.datablit.com"
  {
    Make().value
  }

  /**
   * The builder `DatablitConfig().apply(block)`: validation ran on the defaults,
   * and the block then assigns the `var` fields with no further check.
   */
  function Apply(block: Config -> Config): (c: Config)
    ensures c == block(Default())
  {
    block(Default())
  }

  /** A block that sets `flushAt = 0` yields an invalid configuration without failing,
      although passing the same value to the constructor fails. */
  lemma ApplySkipsValidation()
    ensures !Valid(Apply((c: Config) => c.(flushAt := 0)))
    ensures Make(flushAt := 0) == Failure(FlushAtMessage)
  {
  }
}
