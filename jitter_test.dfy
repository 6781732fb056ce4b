/** The jitter test's deterministic random stubs and its vector table of expected timeouts, with
    the proof that the reconstructed backoff rule reproduces every row. */
module JitterTest {
  import opened Sqs
  import opened Futures
  import opened Backoff
  import opened JitterTestBase

  /** `timeout -> timeout / 2`, with Java's division, which truncates toward zero. */
  function Mid(bound: int): (r: int)
    ensures bound >= 1 ==> 0 <= r < bound
  {
    if bound >= 0 then bound / 2 else -((-bound) / 2)
  }

  /** `timeout -> timeout - 1`, the largest legal draw. */
  function Max(bound: int): (r: int)
    ensures bound >= 1 ==> 0 <= r < bound
  {
    bound - 1
  }

  const MidRandomSupplier: MockedRandomNextInt := MockedRandomNextInt(Mid)
  const MaxRandomSupplier: MockedRandomNextInt := MockedRandomNextInt(Max)

  /** Both stubs are legal `nextInt` answers and do not fall as the bound grows. */
  lemma StubsAreLegal()
    ensures InRange(MidRandomSupplier.AsDraw()) && Monotone(MidRandomSupplier.AsDraw())
    ensures InRange(MaxRandomSupplier.AsDraw()) && Monotone(MaxRandomSupplier.AsDraw())
  {
  }

  /** The handler configuration of every row: a stub, the default initial timeout and multiplier. */
  function DefaultConfig(random: MockedRandomNextInt): BackoffConfig {
    BackoffConfig(random.AsDraw(), DEFAULT_INITIAL_VISIBILITY_TIMEOUT_SECONDS, DEFAULT_MULTIPLIER)
  }

  /** With the mid stub, full jitter is half the clamped delay and half jitter three quarters of
      it, for every attempt; so half jitter is never below full jitter. */
  lemma MidTimeouts(n: nat)
    requires n >= 1
    ensures Timeout(FullJitter, DefaultConfig(MidRandomSupplier), n)
      == Exponential(DEFAULT_INITIAL_VISIBILITY_TIMEOUT_SECONDS, DEFAULT_MULTIPLIER, n) / 2
    ensures Timeout(HalfJitter, DefaultConfig(MidRandomSupplier), n)
      == Exponential(DEFAULT_INITIAL_VISIBILITY_TIMEOUT_SECONDS, DEFAULT_MULTIPLIER, n) / 2
       + Exponential(DEFAULT_INITIAL_VISIBILITY_TIMEOUT_SECONDS, DEFAULT_MULTIPLIER, n) / 4
    ensures Timeout(FullJitter, DefaultConfig(MidRandomSupplier), n)
      <= Timeout(HalfJitter, DefaultConfig(MidRandomSupplier), n)
  {
    DefaultExponentialMultipleOfFour(n);
    var e := Exponential(DEFAULT_INITIAL_VISIBILITY_TIMEOUT_SECONDS, DEFAULT_MULTIPLIER, n);
    var q := e / 4;
    assert e == 4 * q;
    assert e / 2 == 2 * q;
    assert Mid(e + 1) == 2 * q;
    assert Mid(e / 2 + 1) == q;
    assert MidRandomSupplier.AsDraw()(e + 1) == Mid(e + 1);
    assert MidRandomSupplier.AsDraw()(e / 2 + 1) == Mid(e / 2 + 1);
  }

  /** With the max stub both policies give exactly the clamped delay, for every attempt. */
  lemma MaxTimeouts(n: nat)
    requires n >= 1
    ensures Timeout(FullJitter, DefaultConfig(MaxRandomSupplier), n)
      == Exponential(DEFAULT_INITIAL_VISIBILITY_TIMEOUT_SECONDS, DEFAULT_MULTIPLIER, n)
    ensures Timeout(HalfJitter, DefaultConfig(MaxRandomSupplier), n)
      == Exponential(DEFAULT_INITIAL_VISIBILITY_TIMEOUT_SECONDS, DEFAULT_MULTIPLIER, n)
  {
    DefaultExponentialMultipleOfFour(n);
    var e := Exponential(DEFAULT_INITIAL_VISIBILITY_TIMEOUT_SECONDS, DEFAULT_MULTIPLIER, n);
    var q := e / 4;
    assert e == 4 * q;
    assert e / 2 == 2 * q;
    assert Max(e + 1) == 4 * q;
    assert Max(e / 2 + 1) == 2 * q;
    assert MaxRandomSupplier.AsDraw()(e + 1) == Max(e + 1);
    assert MaxRandomSupplier.AsDraw()(e / 2 + 1) == Max(e / 2 + 1);
  }

  /** The literal values of one row of `testCases()`: which builder it starts from and what the
      fluent setters put into its `BaseTestCase` (see `BuildTestCase`). */
  datatype TestCase = TestCase(
    random: MockedRandomNextInt,
    sqsApproximateReceiveCount: string,
    expectedHalfJitter: int,
    expectedFullJitter: int)

  /** The vector table. The first half-jitter value is `(int)((initial * 1.5) / 2)`; for the
      default initial timeout that product is exact, so it is written in integers. The same seven
      receive counts are run first with the middle stub and then with the maximal one, and every
      expected timeout lies in `[0, MAX]`, full jitter never above half jitter. */
  function TestCases(): (r: seq<TestCase>)
    ensures |r| == 14
    ensures forall i :: 0 <= i < |r| ==> r[i].random == if i < 7 then MidRandomSupplier else MaxRandomSupplier
    ensures forall i :: 7 <= i < |r| ==> r[i].sqsApproximateReceiveCount == r[i - 7].sqsApproximateReceiveCount
    ensures forall i :: 0 <= i < |r| ==>
      0 <= r[i].expectedFullJitter <= r[i].expectedHalfJitter <= MAX_VISIBILITY_TIMEOUT_SECONDS
  {
    [ TestCase(MidRandomSupplier, "1",
        (DEFAULT_INITIAL_VISIBILITY_TIMEOUT_SECONDS * 3 / 2) / 2, DEFAULT_INITIAL_VISIBILITY_TIMEOUT_SECONDS / 2),
      TestCase(MidRandomSupplier, "2", 150, 100),
      TestCase(MidRandomSupplier, "3", 300, 200),
      TestCase(MidRandomSupplier, "5", 1200, 800),
      TestCase(MidRandomSupplier, "7", 4800, 3200),
      TestCase(MidRandomSupplier, "11",
        MAX_VISIBILITY_TIMEOUT_SECONDS / 2 + MAX_VISIBILITY_TIMEOUT_SECONDS / 4, MAX_VISIBILITY_TIMEOUT_SECONDS / 2),
      TestCase(MidRandomSupplier, "13",
        MAX_VISIBILITY_TIMEOUT_SECONDS / 2 + MAX_VISIBILITY_TIMEOUT_SECONDS / 4, MAX_VISIBILITY_TIMEOUT_SECONDS / 2),
      TestCase(MaxRandomSupplier, "1",
        DEFAULT_INITIAL_VISIBILITY_TIMEOUT_SECONDS, DEFAULT_INITIAL_VISIBILITY_TIMEOUT_SECONDS),
      TestCase(MaxRandomSupplier, "2", 200, 200),
      TestCase(MaxRandomSupplier, "3", 400, 400),
      TestCase(MaxRandomSupplier, "5", 1600, 1600),
      TestCase(MaxRandomSupplier, "7", 6400, 6400),
      TestCase(MaxRandomSupplier, "11", MAX_VISIBILITY_TIMEOUT_SECONDS, MAX_VISIBILITY_TIMEOUT_SECONDS),
      TestCase(MaxRandomSupplier, "13", MAX_VISIBILITY_TIMEOUT_SECONDS, MAX_VISIBILITY_TIMEOUT_SECONDS) ]
  }

  /** A row holds when its receive count reads as an attempt and both policies, built from the
      row's stub and the defaults, compute the row's expected timeouts for that attempt. */
  ghost predicate RowHolds(c: TestCase) {
    var count := ParseReceiveCount(c.sqsApproximateReceiveCount);
    count.Some? && count.value >= 1
    && Timeout(HalfJitter, DefaultConfig(c.random), count.value) == c.expectedHalfJitter
    && Timeout(FullJitter, DefaultConfig(c.random), count.value) == c.expectedFullJitter
  }

  lemma Attempts()
    ensures ParseReceiveCount("1") == Some(1) && ParseReceiveCount("2") == Some(2)
    ensures ParseReceiveCount("3") == Some(3) && ParseReceiveCount("5") == Some(5)
    ensures ParseReceiveCount("7") == Some(7) && ParseReceiveCount("11") == Some(11)
    ensures ParseReceiveCount("13") == Some(13)
  {
    ParseDecimal(1); ParseDecimal(2); ParseDecimal(3); ParseDecimal(5); ParseDecimal(7);
    ParseDecimal(11); ParseDecimal(13);
    assert Decimal(11) == "11";
    assert Decimal(13) == "13";
  }

  lemma ClampedDelays()
    ensures Exponential(DEFAULT_INITIAL_VISIBILITY_TIMEOUT_SECONDS, DEFAULT_MULTIPLIER, 1) == 100
    ensures Exponential(DEFAULT_INITIAL_VISIBILITY_TIMEOUT_SECONDS, DEFAULT_MULTIPLIER, 2) == 200
    ensures Exponential(DEFAULT_INITIAL_VISIBILITY_TIMEOUT_SECONDS, DEFAULT_MULTIPLIER, 3) == 400
    ensures Exponential(DEFAULT_INITIAL_VISIBILITY_TIMEOUT_SECONDS, DEFAULT_MULTIPLIER, 5) == 1600
    ensures Exponential(DEFAULT_INITIAL_VISIBILITY_TIMEOUT_SECONDS, DEFAULT_MULTIPLIER, 7) == 6400
    ensures Exponential(DEFAULT_INITIAL_VISIBILITY_TIMEOUT_SECONDS, DEFAULT_MULTIPLIER, 11) == MAX_VISIBILITY_TIMEOUT_SECONDS
    ensures Exponential(DEFAULT_INITIAL_VISIBILITY_TIMEOUT_SECONDS, DEFAULT_MULTIPLIER, 13) == MAX_VISIBILITY_TIMEOUT_SECONDS
  {
    DefaultBelowCeiling(1); DefaultBelowCeiling(2); DefaultBelowCeiling(3);
    DefaultBelowCeiling(5); DefaultBelowCeiling(7);
    assert Pow(2, 6) == 64 by { assert Pow(2, 3) == 8; }
    DefaultSaturates(11); DefaultSaturates(13);
  }

  /** Every row of the vector table holds under the reconstructed rule. */
  lemma TestCasesHold()
    ensures forall i :: 0 <= i < |TestCases()| ==> RowHolds(TestCases()[i])
  {
    Attempts();
    ClampedDelays();
    MidTimeouts(1); MidTimeouts(2); MidTimeouts(3); MidTimeouts(5); MidTimeouts(7); MidTimeouts(11); MidTimeouts(13);
    MaxTimeouts(1); MaxTimeouts(2); MaxTimeouts(3); MaxTimeouts(5); MaxTimeouts(7); MaxTimeouts(11); MaxTimeouts(13);
  }

  /** `calculateExponentialFullJitter` and `calculateExponentialHalfJitter` for every row: a
      message with a `Visibility` header and the row's receive count makes each handler call
      `changeToAsync` exactly once, with the row's expected timeout, and return a future that
      completes exceptionally, whatever that change did. */
  lemma HandlersMatchTestCases(i: nat, m: Message, t: Cause, change: ChangeVisibility)
    requires i < |TestCases()|
    requires HasVisibility(m) && m.receiveCount == Some(TestCases()[i].sqsApproximateReceiveCount)
    ensures Handle(FullJitter, DefaultConfig(TestCases()[i].random), m, t, change).Some?
    ensures Handle(HalfJitter, DefaultConfig(TestCases()[i].random), m, t, change).Some?
    ensures Handle(FullJitter, DefaultConfig(TestCases()[i].random), m, t, change).value.requests
      == [ChangeRequest(m, TestCases()[i].expectedFullJitter)]
    ensures Handle(HalfJitter, DefaultConfig(TestCases()[i].random), m, t, change).value.requests
      == [ChangeRequest(m, TestCases()[i].expectedHalfJitter)]
    ensures Handle(FullJitter, DefaultConfig(TestCases()[i].random), m, t, change).value.outcome.value.Failed?
    ensures Handle(HalfJitter, DefaultConfig(TestCases()[i].random), m, t, change).value.outcome.value.Failed?
  {
    TestCasesHold();
    assert RowHolds(TestCases()[i]);
  }

  /** `baseTestCaseMidRandomSupplier()`: a fresh case wired to the default initial timeout, the
      mid stub and the default multiplier. */
  method BaseTestCaseMidRandomSupplier() returns (c: BaseTestCase)
    ensures fresh(c)
    ensures c.initialVisibilityTimeoutSeconds == DEFAULT_INITIAL_VISIBILITY_TIMEOUT_SECONDS
    ensures c.randomSupplier == Some(MidRandomSupplier) && c.multiplier == DEFAULT_MULTIPLIER
    ensures c.sqsApproximateReceiveCount == None
  {
    c := new BaseTestCase();
    c := c.InitialVisibilityTimeoutSeconds(DEFAULT_INITIAL_VISIBILITY_TIMEOUT_SECONDS);
    c := c.RandomSupplier(MidRandomSupplier);
    c := c.Multiplier(DEFAULT_MULTIPLIER);
  }

  /** `baseTestCaseMaxRandomSupplier()`: the same with the max stub. */
  method BaseTestCaseMaxRandomSupplier() returns (c: BaseTestCase)
    ensures fresh(c)
    ensures c.initialVisibilityTimeoutSeconds == DEFAULT_INITIAL_VISIBILITY_TIMEOUT_SECONDS
    ensures c.randomSupplier == Some(MaxRandomSupplier) && c.multiplier == DEFAULT_MULTIPLIER
    ensures c.sqsApproximateReceiveCount == None
  {
    c := new BaseTestCase();
    c := c.InitialVisibilityTimeoutSeconds(DEFAULT_INITIAL_VISIBILITY_TIMEOUT_SECONDS);
    c := c.RandomSupplier(MaxRandomSupplier);
    c := c.Multiplier(DEFAULT_MULTIPLIER);
  }

  /** Row `i` of `testCases()` built as the table builds it: the builder for the row's stub, then
      the receive count and the two expected timeouts through the fluent setters. */
  method BuildTestCase(i: nat) returns (c: BaseTestCase)
    requires i < |TestCases()|
    ensures fresh(c)
    ensures c.randomSupplier == Some(TestCases()[i].random)
    ensures c.initialVisibilityTimeoutSeconds == DEFAULT_INITIAL_VISIBILITY_TIMEOUT_SECONDS
    ensures c.multiplier == DEFAULT_MULTIPLIER
    ensures c.sqsApproximateReceiveCount == Some(TestCases()[i].sqsApproximateReceiveCount)
    ensures c.visibilityTimeoutExpectedHalfJitter == TestCases()[i].expectedHalfJitter
    ensures c.visibilityTimeoutExpectedFullJitter == TestCases()[i].expectedFullJitter
  {
    var row := TestCases()[i];
    if i < 7 {
      c := BaseTestCaseMidRandomSupplier();
    } else {
      c := BaseTestCaseMaxRandomSupplier();
    }
    c := c.SqsApproximateReceiveCount(row.sqsApproximateReceiveCount);
    c := c.VisibilityTimeoutExpectedHalfJitter(row.expectedHalfJitter);
    c := c.VisibilityTimeoutExpectedFullJitter(row.expectedFullJitter);
  }

  /** `calculateExponentialFullJitter` on row `i`: the mocked message carries a `Visibility` and
      the case's receive count; the handler built by the case calls `changeToAsync` once, with the
      case's expected full-jitter timeout, and its future completes exceptionally. */
  method CalculateExponentialFullJitter(i: nat, v: Visibility, t: Cause, change: ChangeVisibility)
    returns (m: Message, r: Option<Run>)
    requires i < |TestCases()|
    ensures m.visibilityHeader == Present(v)
    ensures m.receiveCount == Some(TestCases()[i].sqsApproximateReceiveCount)
    ensures r.Some? && r.value.requests == [ChangeRequest(m, TestCases()[i].expectedFullJitter)]
    ensures r.value.outcome.Returns? && r.value.outcome.value.Failed?
  {
    var c := BuildTestCase(i);
    m := Message(0, Present(v), c.sqsApproximateReceiveCount);
    r := c.CalculateWithVisibilityTimeoutExpectedFullJitter(m, t, change);
    HandlersMatchTestCases(i, m, t, change);
  }

  /** `calculateExponentialHalfJitter` on row `i`: the same, with the half-jitter handler and the
      case's expected half-jitter timeout. */
  method CalculateExponentialHalfJitter(i: nat, v: Visibility, t: Cause, change: ChangeVisibility)
    returns (m: Message, r: Option<Run>)
    requires i < |TestCases()|
    ensures m.visibilityHeader == Present(v)
    ensures m.receiveCount == Some(TestCases()[i].sqsApproximateReceiveCount)
    ensures r.Some? && r.value.requests == [ChangeRequest(m, TestCases()[i].expectedHalfJitter)]
    ensures r.value.outcome.Returns? && r.value.outcome.value.Failed?
  {
    var c := BuildTestCase(i);
    m := Message(0, Present(v), c.sqsApproximateReceiveCount);
    r := c.CalculateWithVisibilityTimeoutExpectedHalfJitter(m, t, change);
    HandlersMatchTestCases(i, m, t, change);
  }
}
