/** The fixture shared by the jitter tests: a `Random` whose draws are a stored function, and the
    fluent `BaseTestCase` builder that wires a case's random supplier, initial visibility timeout
    and multiplier into the two jitter handlers. */
module JitterTestBase {
  import opened Sqs
  import opened Futures
  import opened Backoff

  /** `MockedRandomNextInt`: a `Random` that answers every draw with `nextInt(bound)`. */
  datatype MockedRandomNextInt = MockedRandomNextInt(nextInt: int -> int) {

    /** `nextInt(bound)`: the draw is the stored function's value at the bound. */
    function NextInt(bound: int): (r: int)
      ensures r == nextInt(bound)
    {
      nextInt(bound)
    }

    /** `nextInt(origin, bound)`: the origin is ignored, so it answers like `nextInt(bound)`. */
    function NextIntBetween(origin: int, bound: int): (r: int)
      ensures r == NextInt(bound)
    {
      nextInt(bound)
    }

    /** The draw a handler built from this `Random` makes. */
    function AsDraw(): int -> int {
      bound => NextInt(bound)
    }
  }

  /** Both draw overloads return exactly the stored function's value at `bound`, whatever the
      origin, so it does not matter which one a handler calls. */
  lemma DrawOverloadsAgree(r: MockedRandomNextInt, origin: int, bound: int)
    ensures r.NextInt(bound) == r.nextInt(bound)
    ensures r.NextIntBetween(origin, bound) == r.NextInt(bound)
    ensures r.AsDraw()(bound) == r.nextInt(bound)
  {
  }

  /** `BaseTestCase`: a mutable test case filled in by fluent setters that each assign one field
      and return the same object. Fields the Java code leaves `null` start as `None`. */
  class BaseTestCase {
    var sqsApproximateReceiveCount: Option<string>
    var randomSupplier: Option<MockedRandomNextInt>
    var initialVisibilityTimeoutSeconds: nat
    var multiplier: nat
    var visibilityTimeoutExpectedFullJitter: int
    var visibilityTimeoutExpectedHalfJitter: int

    constructor ()
      ensures sqsApproximateReceiveCount == None && randomSupplier == None
      ensures initialVisibilityTimeoutSeconds == 0 && multiplier == 0
      ensures visibilityTimeoutExpectedFullJitter == 0 && visibilityTimeoutExpectedHalfJitter == 0
    {
      sqsApproximateReceiveCount := None;
      randomSupplier := None;
      initialVisibilityTimeoutSeconds := 0;
      multiplier := 0;
      visibilityTimeoutExpectedFullJitter := 0;
      visibilityTimeoutExpectedHalfJitter := 0;
    }

    method SqsApproximateReceiveCount(count: string) returns (self: BaseTestCase)
      modifies this`sqsApproximateReceiveCount
      ensures self == this && sqsApproximateReceiveCount == Some(count)
    {
      sqsApproximateReceiveCount := Some(count);
      self := this;
    }

    method RandomSupplier(random: MockedRandomNextInt) returns (self: BaseTestCase)
      modifies this`randomSupplier
      ensures self == this && randomSupplier == Some(random)
    {
      randomSupplier := Some(random);
      self := this;
    }

    method InitialVisibilityTimeoutSeconds(seconds: nat) returns (self: BaseTestCase)
      modifies this`initialVisibilityTimeoutSeconds
      ensures self == this && initialVisibilityTimeoutSeconds == seconds
    {
      initialVisibilityTimeoutSeconds := seconds;
      self := this;
    }

    method Multiplier(factor: nat) returns (self: BaseTestCase)
      modifies this`multiplier
      ensures self == this && multiplier == factor
    {
      multiplier := factor;
      self := this;
    }

    method VisibilityTimeoutExpectedHalfJitter(seconds: int) returns (self: BaseTestCase)
      modifies this`visibilityTimeoutExpectedHalfJitter
      ensures self == this && visibilityTimeoutExpectedHalfJitter == seconds
    {
      visibilityTimeoutExpectedHalfJitter := seconds;
      self := this;
    }

    method VisibilityTimeoutExpectedFullJitter(seconds: int) returns (self: BaseTestCase)
      modifies this`visibilityTimeoutExpectedFullJitter
      ensures self == this && visibilityTimeoutExpectedFullJitter == seconds
    {
      visibilityTimeoutExpectedFullJitter := seconds;
      self := this;
    }

    /** Builds the half-jitter handler from exactly this case's random supplier, initial timeout
        and multiplier, and hands it the message. */
    method CalculateWithVisibilityTimeoutExpectedHalfJitter(m: Message, t: Cause, change: ChangeVisibility)
      returns (r: Option<Run>)
      requires randomSupplier.Some?
      ensures r == Handle(HalfJitter,
        BackoffConfig(randomSupplier.value.AsDraw(), initialVisibilityTimeoutSeconds, multiplier), m, t, change)
    {
      var handler := BackoffConfig(randomSupplier.value.AsDraw(), initialVisibilityTimeoutSeconds, multiplier);
      r := Handle(HalfJitter, handler, m, t, change);
    }

    /** Builds the full-jitter handler from the same three parameters and hands it the message. */
    method CalculateWithVisibilityTimeoutExpectedFullJitter(m: Message, t: Cause, change: ChangeVisibility)
      returns (r: Option<Run>)
      requires randomSupplier.Some?
      ensures r == Handle(FullJitter,
        BackoffConfig(randomSupplier.value.AsDraw(), initialVisibilityTimeoutSeconds, multiplier), m, t, change)
    {
      var handler := BackoffConfig(randomSupplier.value.AsDraw(), initialVisibilityTimeoutSeconds, multiplier);
      r := Handle(FullJitter, handler, m, t, change);
    }
  }
}
