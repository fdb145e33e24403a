/** The limits and defaults of a retry backoff policy, and its configuration record. */
module RetryConfigs {
  import opened GoInts

  /** 5 ms, in nanoseconds (a `time.Duration`). */
  const MinWaitDuration: Int64 := 5_000_000
  const MinFactor: real := 1.0
  /** Default minimum wait, in milliseconds. */
  const DefaultMinWait: Int64 := 50
  /** Default maximum wait, in milliseconds. */
  const DefaultMaxWait: Int64 := 5000
  const DefaultFactor: real := 2.0
  const DefaultJitter: bool := true

  /** `RetryConfig`: waits in milliseconds, the exponential factor, and whether to add jitter. */
  datatype RetryConfig = RetryConfig(minWait: Int64, maxWait: Int64, factor: real, jitter: bool)

  function NewDefaultRetryConfig(): (c: RetryConfig)
    ensures c.minWait == 50 && c.maxWait == 5000 && c.factor == 2.0 && c.jitter
  {
    RetryConfig(DefaultMinWait, DefaultMaxWait, DefaultFactor, DefaultJitter)
  }

  /** The defaults already satisfy the limits: 5 ms <= MinWait ms <= MaxWait ms and a factor of at least 1. */
  lemma DefaultsWithinLimits()
    ensures MinWaitDuration == 5 * 1_000_000
    ensures MinWaitDuration <= NewDefaultRetryConfig().minWait * 1_000_000 <= NewDefaultRetryConfig().maxWait * 1_000_000
    ensures NewDefaultRetryConfig().factor >= MinFactor
  {
  }
}
