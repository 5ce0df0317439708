/**
 * The retry configuration of the writer: its builder's validation, the
 * default retry predicate, and the writer's decision whether an exception may
 * be retried. Durations are whole milliseconds.
 */
module RetryConfig {
  import opened Types

  type RetryPredicate = Throwable -> bool

  /** HTTP 503, the only status code the default predicate names. */
  const ServiceUnavailable: int := 503

  /** Default initial backoff of the builder: five seconds. */
  const DefaultInitialDuration: int := 5000

  const MaxAttemptsMessage: string := "maxAttempts should be greater than 0"
  const MaxDurationMessage: string := "maxDuration should be greater than 0"
  const InitialDurationMessage: string := "initialDuration should be greater than 0"

  /**
   * The default predicate. Its last disjunct narrows DynamoDB exceptions to
   * status 503, but the disjunct before it already accepts every DynamoDB
   * exception, so the status code never matters.
   */
  function DefaultRetryPredicate(t: Throwable): (retry: bool)
    ensures retry <==> t.IOException? || t.DynamoDbException?
  {
    || t.IOException?
    || t.DynamoDbException?
    || (match t
        case DynamoDbException(code) => code in {ServiceUnavailable}
        case _ => false)
  }

  datatype RetryConfiguration = RetryConfiguration(
    maxAttempts: int,
    maxDuration: int,
    initialDuration: int,
    retryPredicate: RetryPredicate)

  /** What a successful build guarantees. */
  predicate Valid(c: RetryConfiguration) {
    c.maxAttempts > 0 && c.maxDuration > 0 && c.initialDuration > 0
  }

  /** A property never set on the builder is missing. */
  datatype Builder = Builder(
    maxAttempts: Option<int>,
    maxDuration: Option<int>,
    initialDuration: Option<int>,
    retryPredicate: RetryPredicate)

  datatype ConfigError = MissingProperty(name: string) | IllegalArgument(message: string)

  /** A fresh builder: default predicate and a five-second initial backoff. */
  function NewBuilder(): (b: Builder)
    ensures b.maxAttempts.None? && b.maxDuration.None?
    ensures b.initialDuration == Some(DefaultInitialDuration)
    ensures forall t :: b.retryPredicate(t) == DefaultRetryPredicate(t)
  {
    Builder(None, None, Some(DefaultInitialDuration), DefaultRetryPredicate)
  }

  /**
   * Builds the configuration, rejecting a missing or non-positive attempt
   * count, maximum duration or initial duration, checked in that order.
   */
  function Build(b: Builder): (r: Result<RetryConfiguration, ConfigError>)
    ensures r.Success? <==>
      && b.maxAttempts.Some? && b.maxAttempts.value > 0
      && b.maxDuration.Some? && b.maxDuration.value > 0
      && b.initialDuration.Some? && b.initialDuration.value > 0
    ensures r.Success? ==>
      && Valid(r.value)
      && Some(r.value.maxAttempts) == b.maxAttempts
      && Some(r.value.maxDuration) == b.maxDuration
      && Some(r.value.initialDuration) == b.initialDuration
      && r.value.retryPredicate == b.retryPredicate
    ensures b.maxAttempts.Some? && b.maxAttempts.value <= 0 && b.maxDuration.Some? && b.initialDuration.Some? ==>
      r == Failure(IllegalArgument(MaxAttemptsMessage))
    ensures b.maxAttempts.Some? && b.maxAttempts.value > 0 && b.maxDuration.Some? && b.maxDuration.value <= 0 && b.initialDuration.Some? ==>
      r == Failure(IllegalArgument(MaxDurationMessage))
    ensures (&& b.maxAttempts.Some? && b.maxAttempts.value > 0
             && b.maxDuration.Some? && b.maxDuration.value > 0
             && b.initialDuration.Some? && b.initialDuration.value <= 0) ==>
      r == Failure(IllegalArgument(InitialDurationMessage))
    ensures b.maxAttempts.None? || b.maxDuration.None? || b.initialDuration.None? ==> r.Failure? && r.error.MissingProperty?
  {
    if b.maxAttempts.None? then Failure(MissingProperty("maxAttempts"))
    else if b.maxDuration.None? then Failure(MissingProperty("maxDuration"))
    else if b.initialDuration.None? then Failure(MissingProperty("initialDuration"))
    else if b.maxAttempts.value <= 0 then Failure(IllegalArgument(MaxAttemptsMessage))
    else if b.maxDuration.value <= 0 then Failure(IllegalArgument(MaxDurationMessage))
    else if b.initialDuration.value <= 0 then Failure(IllegalArgument(InitialDurationMessage))
    else Success(RetryConfiguration(b.maxAttempts.value, b.maxDuration.value, b.initialDuration.value, b.retryPredicate))
  }

  /** A zero attempt count or a zero maximum duration never yields a configuration. */
  lemma ZeroLimitsRejected(b: Builder)
    requires b.maxAttempts == Some(0) || b.maxDuration == Some(0)
    ensures Build(b).Failure?
  {
  }

  /** The writer retries only when it has a configuration whose predicate accepts the exception. */
  function CanRetry(config: Option<RetryConfiguration>, e: Throwable): (retry: bool)
    ensures config.None? ==> !retry
    ensures config.Some? ==> (retry <==> config.value.retryPredicate(e))
  {
    config.Some? && config.value.retryPredicate(e)
  }

  /**
   * A configuration a user can build keeps the builder's default predicate,
   * so the writer retries exactly IOExceptions and DynamoDB exceptions.
   */
  lemma BuiltConfigurationRetries(maxAttempts: int, maxDuration: int, e: Throwable)
    requires Build(NewBuilder().(maxAttempts := Some(maxAttempts), maxDuration := Some(maxDuration))).Success?
    ensures var c := Build(NewBuilder().(maxAttempts := Some(maxAttempts), maxDuration := Some(maxDuration))).value;
      CanRetry(Some(c), e) <==> e.IOException? || e.DynamoDbException?
  {
  }
}
