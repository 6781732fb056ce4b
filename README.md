# Immediate-retry and jittered-backoff error handling for SQS listeners

This project models the error handlers that run when an SQS message listener fails. Each one
decides how long a failed message stays invisible before SQS delivers it again.

- `DefaultErrorHandler` and `AsyncDefaultErrorHandler` set the message's visibility timeout to
  zero, for one message or for each message of a failed batch. They differ on a message whose
  `Visibility` header is missing or of the wrong type:
  - the default handler throws, and in a batch stops at that message;
  - the asynchronous handler fails only that element and goes on.
- The exponential-backoff handlers with full and half jitter compute the timeout from the
  message's receive count, the initial timeout, the multiplier and a random draw. The
  parametrized jitter test pins them down with two deterministic random stubs and a table of
  fourteen rows, each giving an expected half-jitter and an expected full-jitter timeout.

A future is modelled as its settled value: `Completed` or `Failed(cause)`. A call is
`Returns(value)` or `Throws(cause)`, so a synchronous exception and a failed future stay
apart. One handler invocation is a `Run`, which records three things:
- the `changeToAsync(seconds)` requests it made, in order;
- what the caller got back;
- the causes it logged.

The `Visibility` collaborator is an input function `change(message, seconds)`. It yields the
future that request settles to; I/O and the queue client are not part of the model.

Modules, in dependency order:
- `Sqs`: the message envelope and request lists.
- `Futures`: `exceptionallyCompose`, `exceptionally`, `allOf` and the stream that maps
  each message and collects the results into an array.
- `DefaultErrorHandler` and `AsyncDefaultErrorHandler`: the two immediate-retry handlers.
- `HandlerPolicies`: the two handlers compared.
- `Backoff`: the jitter rule.
- `JitterTestBase`: the `BaseTestCase` builder class and the mocked `Random`.
- `JitterTest`: the stubs and the vector table.

The jitter handler classes, `BackoffVisibilityConstants` and `Visibility` are not modelled.
`Backoff` reconstructs their rule from the jitter test's table; it is not a transcription:
- `E(n) = min(43200, initial * multiplier^(n-1))`;
- `full = nextInt(E+1)`;
- `half = E/2 + nextInt(E/2+1)`.

The default initial timeout 100, the default multiplier 2 and the ceiling 43200 (the SQS
service limit) are assumptions. The table only requires the ceiling to be a multiple of 4
between 6400 and 102400. `JitterTest.TestCasesHold` proves that this rule reproduces every
row of the table.

## Model

| member | source | states |
|---|---|---|
| DefaultErrorHandler.GetVisibilityTimeout | spring-cloud-aws-sqs/src/main/java/io/awspring/cloud/sqs/listener/errorhandler/DefaultErrorHandler.java:66-72 | returns the header's `Visibility` exactly when it holds one; a null or foreign header throws "Invalid visibility header" |
| DefaultErrorHandler.ChangeTimeoutToZero | spring-cloud-aws-sqs/src/main/java/io/awspring/cloud/sqs/listener/errorhandler/DefaultErrorHandler.java:60-63 | a valid header gives exactly one `changeToAsync(0)` and returns its future; an invalid one makes no request and throws |
| DefaultErrorHandler.Handle | spring-cloud-aws-sqs/src/main/java/io/awspring/cloud/sqs/listener/errorhandler/DefaultErrorHandler.java:31-37 | composing with `failedFuture` hands back the change's own future unchanged; an invalid header escapes as a synchronous throw with no request made |
| Futures.ComposeWithFailedFuture | spring-cloud-aws-sqs/src/main/java/io/awspring/cloud/sqs/listener/errorhandler/DefaultErrorHandler.java:33-36 | `exceptionallyCompose(f, failedFuture)` is the identity on every future |
| Futures.ExceptionallyCompose | spring-cloud-aws-sqs/src/main/java/io/awspring/cloud/sqs/listener/errorhandler/DefaultErrorHandler.java:33-36 | a normally completed future passes through; a failed one is replaced by the future the function builds from its cause |
| DefaultErrorHandler.LogError | spring-cloud-aws-sqs/src/main/java/io/awspring/cloud/sqs/listener/errorhandler/DefaultErrorHandler.java:54-57 | logging records the cause once and completes the element with null |
| DefaultErrorHandler.Step | spring-cloud-aws-sqs/src/main/java/io/awspring/cloud/sqs/listener/errorhandler/DefaultErrorHandler.java:48-49 | a batch element with a valid header always completes and logs its change's failure, if any; an invalid header throws out of the stream |
| DefaultErrorHandler.ChangeTimeoutToZeroCollectionOfMessages | spring-cloud-aws-sqs/src/main/java/io/awspring/cloud/sqs/listener/errorhandler/DefaultErrorHandler.java:45-52 | the batch call returns a normally completed future exactly when every header is valid, and otherwise throws "Invalid visibility header" |
| DefaultErrorHandler.HandleBatch | spring-cloud-aws-sqs/src/main/java/io/awspring/cloud/sqs/listener/errorhandler/DefaultErrorHandler.java:39-42 | the same for `handle(messages, t)`; its requests and log are stated by HandleBatchContract |
| Futures.Exceptionally | spring-cloud-aws-sqs/src/main/java/io/awspring/cloud/sqs/listener/errorhandler/DefaultErrorHandler.java:49 | a completed future passes through with nothing logged; a failed one is replaced by the recovery's value and log |
| Futures.AllOf | spring-cloud-aws-sqs/src/main/java/io/awspring/cloud/sqs/listener/errorhandler/DefaultErrorHandler.java:46-51 | `allOf` completes iff every element completed, and otherwise fails with one element's cause |
| Futures.CollectToArray | spring-cloud-aws-sqs/src/main/java/io/awspring/cloud/sqs/listener/errorhandler/DefaultErrorHandler.java:46-51 | the stream collects the futures of a prefix of the messages, in order; if a step threw, it is the step of the message right after that prefix, and otherwise the prefix is every message |
| Futures.AllOfMapped | spring-cloud-aws-sqs/src/main/java/io/awspring/cloud/sqs/listener/errorhandler/DefaultErrorHandler.java:46-51 | the call returns exactly when no step throws; its future completes normally exactly when every step returned a normally completed future; a thrown exception is that of some step |
| Futures.CollectWhenNoneThrows | spring-cloud-aws-sqs/src/main/java/io/awspring/cloud/sqs/listener/errorhandler/DefaultErrorHandler.java:46-51 | if no element throws, the stream maps every message in order: requests and logs are concatenated and element i is message i's future |
| Futures.CollectStopsAtFirstThrow | spring-cloud-aws-sqs/src/main/java/io/awspring/cloud/sqs/listener/errorhandler/DefaultErrorHandler.java:46-51 | the first element that throws aborts the stream: its exception escapes, and only it and the elements before it were evaluated |
| DefaultErrorHandler.FirstInvalid | spring-cloud-aws-sqs/src/main/java/io/awspring/cloud/sqs/listener/errorhandler/DefaultErrorHandler.java:66-70 | the index of the first message whose header fails the check, or the batch length |
| DefaultErrorHandler.ValidBatchCompletes | spring-cloud-aws-sqs/src/main/java/io/awspring/cloud/sqs/listener/errorhandler/DefaultErrorHandler.java:39-52 | with all headers valid, a batch makes one `changeToAsync(0)` per message in order and completes normally even if changes fail; each failure is logged once |
| DefaultErrorHandler.InvalidHeaderAbortsBatch | spring-cloud-aws-sqs/src/main/java/io/awspring/cloud/sqs/listener/errorhandler/DefaultErrorHandler.java:39-52 | if the first invalid header is at k, the batch throws; only messages before k got a request, and only their failures were logged |
| DefaultErrorHandler.HandleBatchContract | spring-cloud-aws-sqs/src/main/java/io/awspring/cloud/sqs/listener/errorhandler/DefaultErrorHandler.java:39-52 | the whole batch contract, stated by the first invalid index: the requests, the log, and completion versus throw |
| DefaultErrorHandler.BatchOfThree | spring-cloud-aws-sqs/src/test/java/io/awspring/cloud/sqs/listener/errorhandler/DefaultErrorHandlerTests.java:62-89 | three valid messages get three zero requests, and the batch completes whether the changes succeed or fail |
| DefaultErrorHandler.IgnoresCause | spring-cloud-aws-sqs/src/main/java/io/awspring/cloud/sqs/listener/errorhandler/DefaultErrorHandler.java:31-42 | the listener's exception has no influence on either path |
| AsyncDefaultErrorHandler.GetVisibilityTimeout | spring-cloud-aws-sqs/src/main/java/io/awspring/cloud/sqs/listener/errorhandler/AsyncDefaultErrorHandler.java:56-58 | the typed lookup returns the `Visibility` exactly when the header holds one, and fails otherwise |
| AsyncDefaultErrorHandler.ChangeTimeoutToZero | spring-cloud-aws-sqs/src/main/java/io/awspring/cloud/sqs/listener/errorhandler/AsyncDefaultErrorHandler.java:38-45 | never throws: a valid header gives one `changeToAsync(0)` and its future; otherwise no request and `failedFuture` of the lookup's exception |
| AsyncDefaultErrorHandler.Handle | spring-cloud-aws-sqs/src/main/java/io/awspring/cloud/sqs/listener/errorhandler/AsyncDefaultErrorHandler.java:28-31 | the single-message handler returns the change's future or a failed future, and never throws |
| AsyncDefaultErrorHandler.DoSomethingWhenMessageIsNotRecoverableInBatch | spring-cloud-aws-sqs/src/main/java/io/awspring/cloud/sqs/listener/errorhandler/AsyncDefaultErrorHandler.java:60-66 | the default hook logs the cause once and completes the element with null |
| AsyncDefaultErrorHandler.Step | spring-cloud-aws-sqs/src/main/java/io/awspring/cloud/sqs/listener/errorhandler/AsyncDefaultErrorHandler.java:50-51 | every batch element completes normally and logs its lookup or change failure; it requests only if its header is valid |
| AsyncDefaultErrorHandler.ChangeTimeoutToZeroBatch | spring-cloud-aws-sqs/src/main/java/io/awspring/cloud/sqs/listener/errorhandler/AsyncDefaultErrorHandler.java:47-54 | the batch call never throws and its future always completes normally |
| AsyncDefaultErrorHandler.HandleBatch | spring-cloud-aws-sqs/src/main/java/io/awspring/cloud/sqs/listener/errorhandler/AsyncDefaultErrorHandler.java:33-36 | the same for `handle(messages, t)`; its requests and log are stated by HandleBatchContract |
| AsyncDefaultErrorHandler.BatchFailuresOnInvalidHeaders | spring-cloud-aws-sqs/src/main/java/io/awspring/cloud/sqs/listener/errorhandler/AsyncDefaultErrorHandler.java:47-54 | when no header is valid, each element logs exactly one lookup failure |
| AsyncDefaultErrorHandler.HandleBatchContract | spring-cloud-aws-sqs/src/main/java/io/awspring/cloud/sqs/listener/errorhandler/AsyncDefaultErrorHandler.java:33-54 | a batch requests zero for exactly the valid-header messages, in order; it logs each failed element once and always completes normally |
| AsyncDefaultErrorHandler.AllInvalidBatchCompletes | spring-cloud-aws-sqs/src/test/java/io/awspring/cloud/sqs/listener/errorhandler/AsyncDefaultErrorHandlerTests.java:86-100 | a batch with no valid header makes no request, logs one failure per message and completes with null |
| AsyncDefaultErrorHandler.SecondOfThreeFails | spring-cloud-aws-sqs/src/test/java/io/awspring/cloud/sqs/listener/errorhandler/AsyncDefaultErrorHandlerTests.java:102-112 | a successful, a failing and a successful change give three requests and a completed batch, with only the second failure logged |
| Sqs.WithVisibilityCount | spring-cloud-aws-sqs/src/main/java/io/awspring/cloud/sqs/listener/errorhandler/AsyncDefaultErrorHandler.java:47-54 | the valid-header messages the asynchronous batch requests for are exactly as many as counted |
| HandlerPolicies.SingleAgreeOnValidHeader | spring-cloud-aws-sqs/src/main/java/io/awspring/cloud/sqs/listener/errorhandler/DefaultErrorHandler.java:31-37 | for a valid header both single-message handlers behave identically |
| HandlerPolicies.SingleDifferOnInvalidHeader | spring-cloud-aws-sqs/src/test/java/io/awspring/cloud/sqs/listener/errorhandler/DefaultErrorHandlerTests.java:42-60 | for an invalid header the default handler throws, the asynchronous one returns a failed future, and neither makes a request |
| HandlerPolicies.BatchFailuresOnValidHeaders | spring-cloud-aws-sqs/src/main/java/io/awspring/cloud/sqs/listener/errorhandler/AsyncDefaultErrorHandler.java:47-54 | with all headers valid, the asynchronous batch logs exactly the failed changes, as the default one does |
| HandlerPolicies.BatchesAgreeOnValidHeaders | spring-cloud-aws-sqs/src/main/java/io/awspring/cloud/sqs/listener/errorhandler/AsyncDefaultErrorHandler.java:47-54 | with all headers valid, both batch paths make the same requests, log the same causes and complete the same way |
| HandlerPolicies.BatchesDifferOnInvalidHeader | spring-cloud-aws-sqs/src/main/java/io/awspring/cloud/sqs/listener/errorhandler/DefaultErrorHandler.java:45-52 | with some header invalid, the default batch throws and the asynchronous one completes; the default's requests and log are a prefix of the asynchronous one's, which goes on to log the lookup failure |
| Backoff.Exponential | spring-cloud-aws-sqs/src/test/java/io/awspring/cloud/sqs/listener/errorhandler/ExponentialBackoffErrorHandlerJitterTest.java:99-108 | the unjittered delay never exceeds the ceiling, and is either the ceiling or `initial * multiplier^(n-1)` |
| Backoff.Timeout | spring-cloud-aws-sqs/src/test/java/io/awspring/cloud/sqs/listener/errorhandler/ExponentialBackoffErrorHandlerJitterTest.java:68-144 | for any legal draw, full jitter lies in [0, E] and half jitter in [E/2, E], where E is the clamped exponential delay, so every timeout lies in [0, ceiling] |
| Backoff.TimeoutMonotone | spring-cloud-aws-sqs/src/test/java/io/awspring/cloud/sqs/listener/errorhandler/ExponentialBackoffErrorHandlerJitterTest.java:68-144 | with a multiplier of at least 1 and a non-decreasing draw, neither policy's timeout falls as attempts grow |
| Backoff.DefaultBelowCeiling | spring-cloud-aws-sqs/src/test/java/io/awspring/cloud/sqs/listener/errorhandler/ExponentialBackoffErrorHandlerJitterTest.java:70-96 | under the defaults, attempts 1 to 9 are not clamped |
| Backoff.DefaultSaturates | spring-cloud-aws-sqs/src/test/java/io/awspring/cloud/sqs/listener/errorhandler/ExponentialBackoffErrorHandlerJitterTest.java:99-108 | under the defaults, every attempt from 10 on is clamped to the ceiling |
| Backoff.ParseReceiveCount | spring-cloud-aws-sqs/src/test/java/io/awspring/cloud/sqs/listener/errorhandler/ExponentialBackoffErrorHandlerJitterTest.java:41-42 | a receive-count string has a value iff it is a non-empty string of digits |
| Backoff.ParseDecimal | spring-cloud-aws-sqs/src/test/java/io/awspring/cloud/sqs/listener/errorhandler/ExponentialBackoffErrorHandlerJitterTest.java:41-42 | reading back the numeral of n gives n |
| Backoff.ThenFail | spring-cloud-aws-sqs/src/test/java/io/awspring/cloud/sqs/listener/errorhandler/ExponentialBackoffErrorHandlerJitterTest.java:43-46 | the jitter handler's future always fails; after a completed change, as in the test, it fails with the listener's exception |
| Backoff.Handle | spring-cloud-aws-sqs/src/test/java/io/awspring/cloud/sqs/listener/errorhandler/ExponentialBackoffErrorHandlerJitterTest.java:32-66 | for a message with a `Visibility` header and a receive count of at least 1, as the test sends, the handler makes one request for that message, logs nothing, and its future fails; with a legal draw the requested timeout lies in [0, ceiling] |
| Backoff.HandleContract | spring-cloud-aws-sqs/src/test/java/io/awspring/cloud/sqs/listener/errorhandler/ExponentialBackoffErrorHandlerJitterTest.java:32-48 | for receive count n, the handler requests exactly the timeout computed for attempt n, once, and its future fails |
| JitterTestBase.MockedRandomNextInt.NextInt | spring-cloud-aws-sqs/src/test/java/io/awspring/cloud/sqs/listener/errorhandler/BaseExponentialBackoffErrorHandlerJitterTest.java:103-106 | a draw with a bound answers the stored function's value at that bound |
| JitterTestBase.MockedRandomNextInt.NextIntBetween | spring-cloud-aws-sqs/src/test/java/io/awspring/cloud/sqs/listener/errorhandler/BaseExponentialBackoffErrorHandlerJitterTest.java:108-111 | a draw with an origin ignores the origin and answers like the draw with the bound alone |
| JitterTestBase.DrawOverloadsAgree | spring-cloud-aws-sqs/src/test/java/io/awspring/cloud/sqs/listener/errorhandler/BaseExponentialBackoffErrorHandlerJitterTest.java:96-112 | both `nextInt` overloads answer the stored function's value at the bound, whatever the origin |
| JitterTestBase.BaseTestCase.constructor | spring-cloud-aws-sqs/src/test/java/io/awspring/cloud/sqs/listener/errorhandler/BaseExponentialBackoffErrorHandlerJitterTest.java:13-19 | a new case has null references and zero numbers |
| JitterTestBase.BaseTestCase.SqsApproximateReceiveCount | spring-cloud-aws-sqs/src/test/java/io/awspring/cloud/sqs/listener/errorhandler/BaseExponentialBackoffErrorHandlerJitterTest.java:21-24 | sets only the receive count and returns the same case |
| JitterTestBase.BaseTestCase.RandomSupplier | spring-cloud-aws-sqs/src/test/java/io/awspring/cloud/sqs/listener/errorhandler/BaseExponentialBackoffErrorHandlerJitterTest.java:26-29 | sets only the random supplier and returns the same case |
| JitterTestBase.BaseTestCase.InitialVisibilityTimeoutSeconds | spring-cloud-aws-sqs/src/test/java/io/awspring/cloud/sqs/listener/errorhandler/BaseExponentialBackoffErrorHandlerJitterTest.java:31-34 | sets only the initial timeout and returns the same case |
| JitterTestBase.BaseTestCase.Multiplier | spring-cloud-aws-sqs/src/test/java/io/awspring/cloud/sqs/listener/errorhandler/BaseExponentialBackoffErrorHandlerJitterTest.java:36-39 | sets only the multiplier and returns the same case |
| JitterTestBase.BaseTestCase.VisibilityTimeoutExpectedHalfJitter | spring-cloud-aws-sqs/src/test/java/io/awspring/cloud/sqs/listener/errorhandler/BaseExponentialBackoffErrorHandlerJitterTest.java:41-44 | sets only the expected half-jitter timeout and returns the same case |
| JitterTestBase.BaseTestCase.VisibilityTimeoutExpectedFullJitter | spring-cloud-aws-sqs/src/test/java/io/awspring/cloud/sqs/listener/errorhandler/BaseExponentialBackoffErrorHandlerJitterTest.java:46-49 | sets only the expected full-jitter timeout and returns the same case |
| JitterTestBase.BaseTestCase.CalculateWithVisibilityTimeoutExpectedHalfJitter | spring-cloud-aws-sqs/src/test/java/io/awspring/cloud/sqs/listener/errorhandler/BaseExponentialBackoffErrorHandlerJitterTest.java:51-60 | builds the half-jitter handler from exactly this case's supplier, initial timeout and multiplier, and returns what it does with the message |
| JitterTestBase.BaseTestCase.CalculateWithVisibilityTimeoutExpectedFullJitter | spring-cloud-aws-sqs/src/test/java/io/awspring/cloud/sqs/listener/errorhandler/BaseExponentialBackoffErrorHandlerJitterTest.java:73-82 | the same for the full-jitter handler |
| JitterTest.Mid | spring-cloud-aws-sqs/src/test/java/io/awspring/cloud/sqs/listener/errorhandler/ExponentialBackoffErrorHandlerJitterTest.java:29 | the mid stub, `timeout / 2` truncating toward zero, is a legal draw for every positive bound |
| JitterTest.Max | spring-cloud-aws-sqs/src/test/java/io/awspring/cloud/sqs/listener/errorhandler/ExponentialBackoffErrorHandlerJitterTest.java:30 | the max stub, `timeout - 1`, is a legal draw for every positive bound |
| JitterTest.StubsAreLegal | spring-cloud-aws-sqs/src/test/java/io/awspring/cloud/sqs/listener/errorhandler/ExponentialBackoffErrorHandlerJitterTest.java:29-30 | both stubs always draw inside `[0, bound)` and never fall as the bound grows |
| JitterTest.MidTimeouts | spring-cloud-aws-sqs/src/test/java/io/awspring/cloud/sqs/listener/errorhandler/ExponentialBackoffErrorHandlerJitterTest.java:70-108 | under the mid stub and the defaults, full jitter is E/2 and half jitter E/2 + E/4 for every attempt |
| JitterTest.MaxTimeouts | spring-cloud-aws-sqs/src/test/java/io/awspring/cloud/sqs/listener/errorhandler/ExponentialBackoffErrorHandlerJitterTest.java:110-143 | under the max stub and the defaults, both policies give exactly E for every attempt |
| JitterTest.TestCases | spring-cloud-aws-sqs/src/test/java/io/awspring/cloud/sqs/listener/errorhandler/ExponentialBackoffErrorHandlerJitterTest.java:68-145 | fourteen rows: the same seven receive counts under the middle stub and then under the maximal one, each expected timeout in [0, ceiling] with full jitter never above half jitter |
| JitterTest.Attempts | spring-cloud-aws-sqs/src/test/java/io/awspring/cloud/sqs/listener/errorhandler/ExponentialBackoffErrorHandlerJitterTest.java:68-144 | the table's receive counts read as attempts 1, 2, 3, 5, 7, 11 and 13 |
| JitterTest.ClampedDelays | spring-cloud-aws-sqs/src/test/java/io/awspring/cloud/sqs/listener/errorhandler/ExponentialBackoffErrorHandlerJitterTest.java:68-144 | the clamped delays of those attempts under the defaults are 100, 200, 400, 1600, 6400, 43200 and 43200 |
| JitterTest.TestCasesHold | spring-cloud-aws-sqs/src/test/java/io/awspring/cloud/sqs/listener/errorhandler/ExponentialBackoffErrorHandlerJitterTest.java:68-144 | every row's expected half- and full-jitter timeouts are what the rule computes for that row's stub and receive count |
| JitterTest.HandlersMatchTestCases | spring-cloud-aws-sqs/src/test/java/io/awspring/cloud/sqs/listener/errorhandler/ExponentialBackoffErrorHandlerJitterTest.java:32-66 | for every row, each handler calls `changeToAsync` once with the row's expected timeout and returns a future that completes exceptionally |
| JitterTest.BaseTestCaseMidRandomSupplier | spring-cloud-aws-sqs/src/test/java/io/awspring/cloud/sqs/listener/errorhandler/ExponentialBackoffErrorHandlerJitterTest.java:147-152 | a fresh case with the default initial timeout, the mid stub and the default multiplier |
| JitterTest.BaseTestCaseMaxRandomSupplier | spring-cloud-aws-sqs/src/test/java/io/awspring/cloud/sqs/listener/errorhandler/ExponentialBackoffErrorHandlerJitterTest.java:154-159 | the same with the max stub |
| JitterTest.BuildTestCase | spring-cloud-aws-sqs/src/test/java/io/awspring/cloud/sqs/listener/errorhandler/ExponentialBackoffErrorHandlerJitterTest.java:68-144 | row i, built with the row's builder and the fluent setters, holds exactly the row's stub, defaults, receive count and expected timeouts |
| JitterTest.CalculateExponentialFullJitter | spring-cloud-aws-sqs/src/test/java/io/awspring/cloud/sqs/listener/errorhandler/ExponentialBackoffErrorHandlerJitterTest.java:32-48 | for every row, the message carries the case's receive count; the full-jitter handler built from the case makes one request, with the expected timeout, and its future fails |
| JitterTest.CalculateExponentialHalfJitter | spring-cloud-aws-sqs/src/test/java/io/awspring/cloud/sqs/listener/errorhandler/ExponentialBackoffErrorHandlerJitterTest.java:50-66 | the same for the half-jitter handler and the expected half-jitter timeout |

## Left out

- Concurrency, threads and the completion order of futures are not modelled. Every future is
  its settled value, so a batch's `allOf` is evaluated once all changes have settled.
- Futures.AllOf: a failed `allOf` carries the cause of one failed element. Java's
  `CompletionException` wrapper around that cause is not modelled.
- Log messages and their text: a log entry is the cause it reports.
- The SQS client behind `Visibility.changeToAsync` is an input function. A synchronous
  exception thrown by `changeToAsync` itself is not modelled.
- `MessageHeaderUtils.getHeader` is not modelled. `AsyncDefaultErrorHandler.GetVisibilityTimeout`
  assumes it fails both for a missing header and for one that holds no `Visibility`.
- `CompletableFutures.exceptionallyCompose` is not modelled. `Futures.ExceptionallyCompose`
  assumes it passes a completed future through and hands a failure's cause to the function;
  `Futures.ComposeWithFailedFuture` relies on that.
- Backoff.Timeout: the rule and its three constants are reconstructed from the test table; the
  ceiling 43200 is an assumption.
- Backoff.Handle: only a message with a `Visibility` header and a receive count of digits worth
  at least 1 is modelled, the only kind the jitter test sends. A missing header, and a missing,
  zero or unreadable count, give `None`: what the jitter handlers do then is not modelled.
- Backoff.ParseReceiveCount: only a non-empty string of ASCII digits is read. Signs, whitespace,
  other digit sets and 32-bit overflow, which a Java number parser treats in its own way, are
  not modelled.
- Backoff.ThenFail: when the visibility change itself fails, the model keeps the change's cause.
  The test runs only with changes that complete, so this case is a reconstruction.
- Backoff.BackoffConfig: the multiplier is a natural number and powers are exact. The source's
  `double` multiplier, `Math.pow` and rounding are not modelled, and a fractional multiplier
  is not expressible.
- Backoff.Timeout: integers are unbounded. Java's 32-bit `int` does not overflow for any
  clamped delay, but an initial timeout near the `int` limit is not modelled.
- The batch overloads `calculateWithVisibilityTimeoutExpected{Half,Full}Jitter(Collection, t)`
  (BaseExponentialBackoffErrorHandlerJitterTest.java lines 62-71 and 84-93) are not modelled.
  No test calls them, and the jitter handlers' batch path is not modelled.
- JitterTestBase.BaseTestCase.CalculateWithVisibilityTimeoutExpectedHalfJitter: requires a
  random supplier. A case built without one, which the source passes on as `null`, is not modelled.
- JitterTestBase.BaseTestCase.CalculateWithVisibilityTimeoutExpectedFullJitter: the same
  requirement, for the same reason.
- JitterTestBase.BaseTestCase: `initialVisibilityTimeoutSeconds` and `multiplier` are natural
  numbers, not Java `int` and `double`.
- JitterTestBase.MockedRandomNextInt: the random supplier is modelled as the `Random` it
  yields. Each call of the supplier would return a fresh but equal stub.
- `S3RsaProvider` (autoconfigure) is configuration glue outside the error-handling core.
