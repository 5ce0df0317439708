# DynamoDBIO connector core, modelled in Dafny

This project models the core of Apache Beam's DynamoDB connector for the AWS
SDK v2 (`DynamoDBIO`). It has three parts.

- **The writer (`Write.WriteFn`).** Each incoming write request is stored in a
  per-bundle batch under its *deduplication identity*: its table plus its put
  item or delete key, projected onto the declared deduplication key names. A
  later request with the same identity replaces the earlier one. When the
  batch reaches 25 requests, and at the end of each bundle, it is flushed:
  - The batch is grouped by table.
  - The grouped request goes through the *resume loop*, which resends
    whatever the store reports as unprocessed while the resume backoff
    allows.
  - Every bulk write goes through the *retry loop*, which retries a thrown
    exception while the retry predicate accepts it and the retry backoff
    allows.
  - The batch is cleared on every path. Every terminal failure increments the
    write-failure counter once.
- **The reader (`Read`).**
  - `expand` checks the configuration.
  - `SplitFn` fans one read out into one read per scan segment.
  - `ReadFn` scans one segment page by page, following each page's last
    evaluated key.
  - `ItemsMapper` turns a page into its items.
- **The retry configuration.** This covers the builder's validation and the
  default retry predicate.

The store is an oracle:
- A bulk write call answers according to a function of the call's sequence
  number and its request. The client logs every request it sends.
- A scan answers the n-th call with the n-th of a fixed sequence of pages.

A backoff policy is reduced to when it stops: a retry limit, plus an oracle
saying whether the cumulative-wait cap has been reached when the k-th retry
is asked for, after a given number of store calls. Each retry loop and each
flush creates a fresh `BackOff` with its own randomised waits. No two
requests for a retry of one policy come after the same number of calls, so
the oracle can give every such run a cap of its own.
- The retry backoff allows no retries without a configuration, and
  `maxAttempts - 1` retries with one.
- The resume backoff is the default policy, whose limit is
  Integer.MAX_VALUE.

The loops are imperative methods of the class `WriteIO.WriteFn`. They are
proved equal to two recursive specification functions in `WriteSpec`:
- `RetryLoop`, for one bulk write with retries.
- `ResumeLoop`, for a whole flush.

The properties of the loops are proved as lemmas about those two functions.
The writer's methods state the new batch, the exact call log
(`CallsOf(run.rounds)`), the outcome and the new failure count.

Modules and files:

| file | module | contents |
|---|---|---|
| types.dfy | `Types` | attribute values, write requests, exceptions, store answers |
| client.dfy | `StoreClient` | the bulk write client (a call-logging oracle) |
| retry_configuration.dfy | `RetryConfig` | builder validation, default predicate, `canRetry` |
| backoff.dfy | `Backoff` | backoff policies and the per-use `BackOff` counter |
| write_spec.dfy | `WriteSpec` | deduplication, batch, grouping, `RetryLoop`, `ResumeLoop` and their lemmas |
| write_fn.dfy | `WriteIO` | the imperative writer `WriteFn` and the grouping loop |
| read.dfy | `ReadIO` | expand checks, split, paginated scan, items mapper |
| scenarios.dfy | `WriteScenarios` | two flushes against stores fixed in advance |

## Model

Every source path is relative to the repository root.

| member | source | states |
|---|---|---|
| RetryConfig.DefaultRetryPredicate | sdks/java/io/amazon-web-services2/src/main/java/org/apache/beam/sdk/io/aws2/dynamodb/DynamoDBIO.java:378-383 | an exception is retried exactly when it is an IOException or a DynamoDbException, whatever its status code: the third, 503-narrowed disjunct never changes the answer |
| RetryConfig.NewBuilder | sdks/java/io/amazon-web-services2/src/main/java/org/apache/beam/sdk/io/aws2/dynamodb/DynamoDBIO.java:331-334 | a fresh builder has the default predicate and a five-second initial duration, and no attempt count or maximum duration |
| RetryConfig.Build | sdks/java/io/amazon-web-services2/src/main/java/org/apache/beam/sdk/io/aws2/dynamodb/DynamoDBIO.java:349-362 | build succeeds exactly when all three values are present and positive. The result carries the builder's values. An unset property is a missing-property error. Otherwise the first failing check gives its own message: maxAttempts, then maxDuration, then initialDuration |
| RetryConfig.ZeroLimitsRejected | sdks/java/io/amazon-web-services2/src/main/java/org/apache/beam/sdk/io/aws2/dynamodb/DynamoDBIO.java:350-355 | a zero attempt count or a zero maximum duration never yields a configuration |
| RetryConfig.CanRetry | sdks/java/io/amazon-web-services2/src/main/java/org/apache/beam/sdk/io/aws2/dynamodb/DynamoDBIO.java:619-622 | without a retry configuration nothing is retried; with one, its predicate alone decides |
| RetryConfig.BuiltConfigurationRetries | sdks/java/io/amazon-web-services2/src/main/java/org/apache/beam/sdk/io/aws2/dynamodb/DynamoDBIO.java:331-334 | every configuration built from `builder()` retries exactly IOExceptions and DynamoDB exceptions, because the builder always installs the default predicate |
| Backoff.BackOff.Next | sdks/java/io/amazon-web-services2/src/main/java/org/apache/beam/sdk/io/aws2/dynamodb/DynamoDBIO.java:580 | a retry is granted exactly when the policy continues after the retries granted so far, given the calls made by then; only a grant counts |
| StoreClient.DynamoDbClient.BatchWriteItem | sdks/java/io/amazon-web-services2/src/main/java/org/apache/beam/sdk/io/aws2/dynamodb/DynamoDBIO.java:606 | each call appends its request to the call log and answers with the store's answer for that call number |
| WriteSpec.ExtractDeduplicateKeyValues | sdks/java/io/amazon-web-services2/src/main/java/org/apache/beam/sdk/io/aws2/dynamodb/DynamoDBIO.java:538-555 | the projection holds exactly those source attributes (put item, else delete key, else none) whose name is declared, or all of them when no names are declared, each with its original value |
| WriteSpec.DeclaredKeysDecideProjection | sdks/java/io/amazon-web-services2/src/main/java/org/apache/beam/sdk/io/aws2/dynamodb/DynamoDBIO.java:549-554 | with declared keys, two requests share a projection exactly when their source attributes agree on the declared names, so attributes outside them never split an identity |
| WriteSpec.NoDeclaredKeysWholeAttributes | sdks/java/io/amazon-web-services2/src/main/java/org/apache/beam/sdk/io/aws2/dynamodb/DynamoDBIO.java:545-547 | without declared keys, two requests share a projection exactly when their whole item or key maps are equal |
| WriteSpec.Put | sdks/java/io/amazon-web-services2/src/main/java/org/apache/beam/sdk/io/aws2/dynamodb/DynamoDBIO.java:530-532 | putting a request keeps every entry under its own identity, and grows the batch by one exactly when the identity is new |
| WriteSpec.LastWriteWins | sdks/java/io/amazon-web-services2/src/main/java/org/apache/beam/sdk/io/aws2/dynamodb/DynamoDBIO.java:530-532 | after a run of requests, an identity maps to the last request seen with it |
| WriteSpec.LastWriteWinsFirst | sdks/java/io/amazon-web-services2/src/main/java/org/apache/beam/sdk/io/aws2/dynamodb/DynamoDBIO.java:530-532 | the first request of a run stays in the batch when no later request has its identity |
| WriteSpec.InsertAllUntouched | sdks/java/io/amazon-web-services2/src/main/java/org/apache/beam/sdk/io/aws2/dynamodb/DynamoDBIO.java:530-532 | requests with other identities leave an entry present or absent, and unchanged |
| WriteSpec.GroupedIdentitiesDistinct | sdks/java/io/amazon-web-services2/src/main/java/org/apache/beam/sdk/io/aws2/dynamodb/DynamoDBIO.java:567-571 | the grouped request of a batch never holds two requests with the same identity in one table |
| WriteSpec.RetryLoop | sdks/java/io/amazon-web-services2/src/main/java/org/apache/beam/sdk/io/aws2/dynamodb/DynamoDBIO.java:597-617 | the retry loop makes at least one and at most retry-limit + 1 attempts |
| WriteSpec.RetryLoopSpec | sdks/java/io/amazon-web-services2/src/main/java/org/apache/beam/sdk/io/aws2/dynamodb/DynamoDBIO.java:597-617 | every attempt before the last threw a retryable exception and the backoff granted a retry. The loop returns the first answer, fails with "no retry" when the last exception may not be retried, and fails with the attempt count when the backoff stopped |
| WriteSpec.NoConfigurationSingleAttempt | sdks/java/io/amazon-web-services2/src/main/java/org/apache/beam/sdk/io/aws2/dynamodb/DynamoDBIO.java:508 | without a retry configuration exactly one call is made, and an exception fails with "no retry" |
| WriteSpec.AttemptsWithinMaxAttempts | sdks/java/io/amazon-web-services2/src/main/java/org/apache/beam/sdk/io/aws2/dynamodb/DynamoDBIO.java:513-515 | with a configuration, at most maxAttempts calls are made |
| WriteSpec.ResumeLoop | sdks/java/io/amazon-web-services2/src/main/java/org/apache/beam/sdk/io/aws2/dynamodb/DynamoDBIO.java:574-586 | a flush run always adds at least one round to those already done |
| WriteSpec.ResumeLoopLast | sdks/java/io/amazon-web-services2/src/main/java/org/apache/beam/sdk/io/aws2/dynamodb/DynamoDBIO.java:579-586 | a round that does not resume is the flush's last |
| WriteSpec.ResumeLoopExtends | sdks/java/io/amazon-web-services2/src/main/java/org/apache/beam/sdk/io/aws2/dynamodb/DynamoDBIO.java:575-579 | a flush run keeps the rounds already done, and its next round sends the given request |
| WriteSpec.ResumeLoopFails | sdks/java/io/amazon-web-services2/src/main/java/org/apache/beam/sdk/io/aws2/dynamodb/DynamoDBIO.java:579 | a round whose retry loop fails ends the flush with that failure |
| WriteSpec.ResumeLoopPasses | sdks/java/io/amazon-web-services2/src/main/java/org/apache/beam/sdk/io/aws2/dynamodb/DynamoDBIO.java:580 | a round that leaves nothing unprocessed ends the flush normally |
| WriteSpec.ResumeLoopResumes | sdks/java/io/amazon-web-services2/src/main/java/org/apache/beam/sdk/io/aws2/dynamodb/DynamoDBIO.java:580-585 | a round that leaves items unprocessed resends them when the backoff grants a resumption, and otherwise fails with "unprocessed items remaining" |
| WriteSpec.ResumeLoopBounded | sdks/java/io/amazon-web-services2/src/main/java/org/apache/beam/sdk/io/aws2/dynamodb/DynamoDBIO.java:575-580 | a flush makes at most one round more than the resume backoff's limit |
| WriteSpec.ResumeLoopChain | sdks/java/io/amazon-web-services2/src/main/java/org/apache/beam/sdk/io/aws2/dynamodb/DynamoDBIO.java:579-580 | each round after the first sends exactly what the round before it left unprocessed, and only when something was left |
| WriteSpec.ResumeLoopOutcome | sdks/java/io/amazon-web-services2/src/main/java/org/apache/beam/sdk/io/aws2/dynamodb/DynamoDBIO.java:580-586 | a flush passes only when its last round left nothing unprocessed, fails with "unprocessed items remaining" only when the resume backoff stopped, and otherwise passes the retry loop's failure on |
| WriteSpec.CallsOfSnoc | sdks/java/io/amazon-web-services2/src/main/java/org/apache/beam/sdk/io/aws2/dynamodb/DynamoDBIO.java:575-580 | one more round adds its request to the call log once per attempt |
| WriteIO.GroupByTable | sdks/java/io/amazon-web-services2/src/main/java/org/apache/beam/sdk/io/aws2/dynamodb/DynamoDBIO.java:567-571 | the result has one list per table of the batch, holding each of that table's requests exactly once, in any order |
| WriteIO.WriteFn.constructor | sdks/java/io/amazon-web-services2/src/main/java/org/apache/beam/sdk/io/aws2/dynamodb/DynamoDBIO.java:504-519 | the retry backoff allows no retries without a configuration and maxAttempts - 1 with one; the resume backoff's limit is Integer.MAX_VALUE |
| WriteIO.WriteFn.StartBundle | sdks/java/io/amazon-web-services2/src/main/java/org/apache/beam/sdk/io/aws2/dynamodb/DynamoDBIO.java:521-524 | a bundle starts with an empty batch |
| WriteIO.WriteFn.ProcessElement | sdks/java/io/amazon-web-services2/src/main/java/org/apache/beam/sdk/io/aws2/dynamodb/DynamoDBIO.java:526-536 | the request replaces any earlier one with its identity. Below 25 requests nothing is sent. At exactly 25 the batch is flushed. Between elements the batch holds fewer than 25 requests, each under its own identity |
| WriteIO.WriteFn.FinishBundle | sdks/java/io/amazon-web-services2/src/main/java/org/apache/beam/sdk/io/aws2/dynamodb/DynamoDBIO.java:557-560 | the end of a bundle flushes what is left |
| WriteIO.WriteFn.FlushBatch | sdks/java/io/amazon-web-services2/src/main/java/org/apache/beam/sdk/io/aws2/dynamodb/DynamoDBIO.java:562-590 | an empty batch makes no call and passes. Otherwise the first request is the batch grouped by table and the flush follows the resume loop: call log, number of calls, outcome, one counter increment per failure. The batch is empty afterwards on every path |
| WriteIO.WriteFn.WriteResuming | sdks/java/io/amazon-web-services2/src/main/java/org/apache/beam/sdk/io/aws2/dynamodb/DynamoDBIO.java:574-586 | the resume do-while is the resume loop: same rounds, same outcome, every call logged, the run ending at the call count reached, and one counter increment on failure |
| WriteIO.WriteFn.ResumeRound | sdks/java/io/amazon-web-services2/src/main/java/org/apache/beam/sdk/io/aws2/dynamodb/DynamoDBIO.java:575-586 | one pass of the resume do-while either ends the flush with the resume loop's outcome and one counter increment on failure, or continues with what the store left unprocessed after the resume backoff granted one more resumption |
| WriteIO.WriteFn.SendRound | sdks/java/io/amazon-web-services2/src/main/java/org/apache/beam/sdk/io/aws2/dynamodb/DynamoDBIO.java:576-579 | one round sends the request through the retry loop and adds its calls to the call log |
| WriteIO.WriteFn.WriteWithRetries | sdks/java/io/amazon-web-services2/src/main/java/org/apache/beam/sdk/io/aws2/dynamodb/DynamoDBIO.java:597-617 | the retry do-while is the retry loop: same result, the request sent once per attempt, one counter increment on failure |
| WriteScenarios.PartialFailuresDrain | sdks/java/io/amazon-web-services2/src/main/java/org/apache/beam/sdk/io/aws2/dynamodb/DynamoDBIO.java:574-586 | a store that leaves everything unprocessed twice and then applies it: the flush passes after three rounds and two resumptions, each round resending the whole request once |
| WriteScenarios.RetriesExhausted | sdks/java/io/amazon-web-services2/src/main/java/org/apache/beam/sdk/io/aws2/dynamodb/DynamoDBIO.java:597-617 | a store that always throws a retryable exception, with maxAttempts 3: the flush fails with "after 3 attempt(s)" after exactly three calls and makes no second round |
| ReadIO.CheckExpand | sdks/java/io/amazon-web-services2/src/main/java/org/apache/beam/sdk/io/aws2/dynamodb/DynamoDBIO.java:237-244 | expand accepts exactly a read with a request function, a client provider and a positive total segment count. The checks come in that order, each with its own message |
| ReadIO.OutputReceiver.Output | sdks/java/io/amazon-web-services2/src/main/java/org/apache/beam/sdk/io/aws2/dynamodb/DynamoDBIO.java:264 | an output is appended after those emitted before |
| ReadIO.SplitSegments | sdks/java/io/amazon-web-services2/src/main/java/org/apache/beam/sdk/io/aws2/dynamodb/DynamoDBIO.java:259-267 | exactly totalSegments copies of the read are emitted (none when it is not positive), with segment ids 0 to totalSegments - 1 in order |
| ReadIO.ScanClient.Scan | sdks/java/io/amazon-web-services2/src/main/java/org/apache/beam/sdk/io/aws2/dynamodb/DynamoDBIO.java:285 | each scan is logged and answered with the next page |
| ReadIO.ReadSegment | sdks/java/io/amazon-web-services2/src/main/java/org/apache/beam/sdk/io/aws2/dynamodb/DynamoDBIO.java:270-291 | the first scan has no start key and each later one starts at the previous page's last evaluated key. Every page is mapped and emitted, in order. The scan stops right after the first page whose key is absent or empty |
| ReadIO.ItemsMapper | sdks/java/io/amazon-web-services2/src/main/java/org/apache/beam/sdk/io/aws2/dynamodb/DynamoDBIO.java:293-302 | a missing page gives an empty list and a present page gives its items |
| ReadIO.Items | sdks/java/io/amazon-web-services2/src/main/java/org/apache/beam/sdk/io/aws2/dynamodb/DynamoDBIO.java:224-229 | `items()` keeps the read and maps every page to its items |

## Left out

- Pipeline wiring is not modelled. This covers `expand`'s `Create`/`ParDo`/`Reshuffle`, coders, the AutoValue builders and the `with*` setters, other than `items()`. The writer receives requests already mapped to a table and a request by the write mapper function.
- Client construction and release are not modelled: client providers, `setup` obtaining the client, and `tearDown` closing it. The client is a parameter of the writer and of the segment read.
- The store itself is not modelled. A bulk write answer is an arbitrary function of the call number and the request. Scan pages are a fixed sequence in call order.
- ReadIO.ReadSegment: it requires that some page from the current call on ends the scan. The source has no bound of its own and relies on the store finishing a segment, so without this the loop need not terminate.
- Backoff timing is not modelled: durations, exponential growth, randomisation and sleeping. The cumulative-duration cap is an oracle that can only stop a policy earlier; its only notion of time is the number of store calls made so far. The initial durations are carried in the configuration but not used. An interruption while sleeping is not modelled.
- Durations are whole numbers of milliseconds. A missing Joda duration is the missing-property case.
- Logging is not modelled.
- The text of the write errors is not modelled. Each error kind is a constructor, and "after N attempt(s)" carries N.
- The failure counter is a field of each writer, whereas the source uses one process-wide metric. Increments are counted the same way.
- The order in which a HashMap yields its entries is not modelled. Grouping visits the batch in an unspecified order, and the grouped lists are specified as sets without duplicates.
- Concurrency across bundles and workers is not modelled. There is none inside the code.
- RetryConfig.Build: the check that the maximum and initial durations are non-null is unreachable. Builder-level absence is reported as a missing property first, as the generated builder does.
- Exceptions from the write mapper, the scan request function or the page mapper are not modelled. A missing scan request function or total segment count in `SplitFn` or `ReadFn` is excluded by their preconditions, since `expand` rejects such reads first.
