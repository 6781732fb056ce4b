/** The backoff-with-jitter timeout of `ExponentialBackoffErrorHandlerWithFullJitter` and
    `ExponentialBackoffErrorHandlerWithHalfJitter`.

    RECONSTRUCTED, NOT TRANSCRIBED. The two handler classes, `BackoffVisibilityConstants` and
    `Visibility` are not modelled; this module reconstructs their rule from the jitter test's
    vector table and its deterministic random stubs. The integer formula below is one reading
    consistent with every row of that table:

      E(n)    = min(MAX, initial * multiplier^(n-1))
      full(n) = draw(E(n) + 1)
      half(n) = E(n)/2 + draw(E(n)/2 + 1)

    where `draw(bound)` is the handler's `Random.nextInt(bound)`. The three constants are
    assumptions that agree with the table as well: the table only requires the ceiling to be a
    multiple of 4 between 6400 and 102400. The bounds proved below are consequences of
    this reconstruction. */
module Backoff {
  import opened Sqs
  import opened Futures

  /** The visibility-timeout ceiling, an assumption: 43200 s (12 hours) is the SQS service limit. */
  const MAX_VISIBILITY_TIMEOUT_SECONDS: nat := 43200
  /** The default initial timeout and multiplier, assumptions that agree with every table row. */
  const DEFAULT_INITIAL_VISIBILITY_TIMEOUT_SECONDS: nat := 100
  const DEFAULT_MULTIPLIER: nat := 2

  datatype Jitter = FullJitter | HalfJitter

  /** What a jitter handler is built from: the `nextInt(bound)` of the `Random` its supplier
      yields, the initial visibility timeout in seconds, and the multiplier. */
  datatype BackoffConfig = BackoffConfig(draw: int -> int, initialVisibilityTimeoutSeconds: nat, multiplier: nat)

  /** A legal `nextInt(bound)`: a value in `[0, bound)` for every positive bound. */
  ghost predicate InRange(draw: int -> int) {
    forall bound :: bound >= 1 ==> 0 <= draw(bound) < bound
  }

  ghost predicate Monotone(draw: int -> int) {
    forall a, b :: 1 <= a <= b ==> draw(a) <= draw(b)
  }

  function Pow(base: nat, e: nat): nat {
    if e == 0 then 1 else base * Pow(base, e - 1)
  }

  function Min(a: nat, b: nat): nat {
    if a <= b then a else b
  }

  /** The unjittered delay of attempt `attempt`, clamped to the ceiling before any jitter. */
  function Exponential(initial: nat, multiplier: nat, attempt: nat): (e: nat)
    requires attempt >= 1
    ensures e <= MAX_VISIBILITY_TIMEOUT_SECONDS
    ensures e <= initial * Pow(multiplier, attempt - 1)
    ensures e == MAX_VISIBILITY_TIMEOUT_SECONDS || e == initial * Pow(multiplier, attempt - 1)
  {
    Min(MAX_VISIBILITY_TIMEOUT_SECONDS, initial * Pow(multiplier, attempt - 1))
  }

  function ExponentialOf(cfg: BackoffConfig, attempt: nat): nat
    requires attempt >= 1
  {
    Exponential(cfg.initialVisibilityTimeoutSeconds, cfg.multiplier, attempt)
  }

  /** The visibility timeout, in seconds, a jitter handler computes for attempt `attempt`. For
      any legal draw, full jitter lies in `[0, E]` and half jitter in `[E/2, E]`, where `E` is the
      clamped exponential delay, so every timeout lies in `[0, MAX]`. */
  function Timeout(policy: Jitter, cfg: BackoffConfig, attempt: nat): (r: int)
    requires attempt >= 1
    ensures InRange(cfg.draw) && policy == FullJitter ==> 0 <= r <= ExponentialOf(cfg, attempt)
    ensures InRange(cfg.draw) && policy == HalfJitter ==>
      ExponentialOf(cfg, attempt) / 2 <= r <= ExponentialOf(cfg, attempt)
    ensures InRange(cfg.draw) ==> 0 <= r <= MAX_VISIBILITY_TIMEOUT_SECONDS
  {
    var e := ExponentialOf(cfg, attempt);
    match policy
    case FullJitter => cfg.draw(e + 1)
    case HalfJitter => e / 2 + cfg.draw(e / 2 + 1)
  }

  lemma {:induction false} PowMonotone(base: nat, e1: nat, e2: nat)
    requires base >= 1 && e1 <= e2
    ensures Pow(base, e1) <= Pow(base, e2)
  {
    if e1 < e2 {
      PowMonotone(base, e1, e2 - 1);
      assert Pow(base, e2) == base * Pow(base, e2 - 1);
      assert Pow(base, e2 - 1) <= base * Pow(base, e2 - 1);
    }
  }

  lemma MulMonotone(a: nat, x: nat, y: nat)
    requires x <= y
    ensures a * x <= a * y
  {
  }

  /** With a multiplier of at least 1 the clamped delay does not fall as attempts grow. */
  lemma ExponentialMonotone(initial: nat, multiplier: nat, n1: nat, n2: nat)
    requires multiplier >= 1 && 1 <= n1 <= n2
    ensures Exponential(initial, multiplier, n1) <= Exponential(initial, multiplier, n2)
  {
    PowMonotone(multiplier, n1 - 1, n2 - 1);
    MulMonotone(initial, Pow(multiplier, n1 - 1), Pow(multiplier, n2 - 1));
  }

  /** For a draw that does not fall as its bound grows (both test stubs are such draws), neither
      policy's timeout falls as attempts grow. */
  lemma TimeoutMonotone(policy: Jitter, cfg: BackoffConfig, n1: nat, n2: nat)
    requires cfg.multiplier >= 1 && 1 <= n1 <= n2 && Monotone(cfg.draw)
    ensures Timeout(policy, cfg, n1) <= Timeout(policy, cfg, n2)
  {
    ExponentialMonotone(cfg.initialVisibilityTimeoutSeconds, cfg.multiplier, n1, n2);
    var e1, e2 := ExponentialOf(cfg, n1), ExponentialOf(cfg, n2);
    assert cfg.draw(e1 + 1) <= cfg.draw(e2 + 1);
    assert cfg.draw(e1 / 2 + 1) <= cfg.draw(e2 / 2 + 1);
  }

  /** Under the default configuration attempts 1 to 9 are not clamped: `E(n) = 100 * 2^(n-1)`. */
  lemma {:induction false} DefaultBelowCeiling(n: nat)
    requires 1 <= n <= 9
    ensures Exponential(DEFAULT_INITIAL_VISIBILITY_TIMEOUT_SECONDS, DEFAULT_MULTIPLIER, n)
      == DEFAULT_INITIAL_VISIBILITY_TIMEOUT_SECONDS * Pow(DEFAULT_MULTIPLIER, n - 1)
  {
    PowMonotone(2, n - 1, 8);
    assert Pow(2, 8) == 256 by {
      assert Pow(2, 4) == 16;
    }
  }

  /** Under the default configuration every attempt from 10 on is clamped to the ceiling. */
  lemma {:induction false} DefaultSaturates(n: nat)
    requires n >= 10
    ensures Exponential(DEFAULT_INITIAL_VISIBILITY_TIMEOUT_SECONDS, DEFAULT_MULTIPLIER, n)
      == MAX_VISIBILITY_TIMEOUT_SECONDS
  {
    PowMonotone(2, 9, n - 1);
    assert Pow(2, 9) == 512 by {
      assert Pow(2, 4) == 16;
    }
    MulMonotone(100, 512, Pow(2, n - 1));
  }

  /** Under the default configuration the clamped delay is always a multiple of 4. */
  lemma DefaultExponentialMultipleOfFour(n: nat)
    requires n >= 1
    ensures Exponential(DEFAULT_INITIAL_VISIBILITY_TIMEOUT_SECONDS, DEFAULT_MULTIPLIER, n) % 4 == 0
  {
    if n <= 9 {
      DefaultBelowCeiling(n);
      var p := Pow(2, n - 1);
      assert 100 * p == 4 * (25 * p);
    } else {
      DefaultSaturates(n);
    }
  }

  /** Does `s` consist of decimal digits only? */
  predicate IsDecimal(s: string) {
    forall i :: 0 <= i < |s| ==> '0' <= s[i] <= '9'
  }

  /** The value of a string of decimal digits. */
  function DecimalValue(s: string): nat
    requires IsDecimal(s)
  {
    if s == [] then 0
    else DecimalValue(s[..|s| - 1]) * 10 + (s[|s| - 1] - '0') as nat
  }

  /** The decimal numeral of `n`, without leading zeros. */
  function Decimal(n: nat): (s: string)
    ensures IsDecimal(s) && |s| >= 1
  {
    var d := ['0' + (n % 10) as char];
    if n < 10 then d else Decimal(n / 10) + d
  }

  /** The attempt number a jitter handler reads from the `SQS_APPROXIMATE_RECEIVE_COUNT` header.
      Only a non-empty string of digits is given a value. */
  function ParseReceiveCount(s: string): (r: Option<nat>)
    ensures r.Some? <==> |s| >= 1 && IsDecimal(s)
  {
    if |s| >= 1 && IsDecimal(s) then Some(DecimalValue(s)) else None
  }

  /** Reading back a numeral gives the number it was written from. */
  lemma {:induction false} ParseDecimal(n: nat)
    ensures ParseReceiveCount(Decimal(n)) == Some(n)
  {
    var s := Decimal(n);
    var d := '0' + (n % 10) as char;
    assert s[|s| - 1] == d;
    assert (d - '0') as nat == n % 10;
    if n >= 10 {
      ParseDecimal(n / 10);
      assert s[..|s| - 1] == Decimal(n / 10);
      assert DecimalValue(s) == (n / 10) * 10 + n % 10;
    } else {
      assert s == [d];
      assert s[..|s| - 1] == [];
      assert DecimalValue(s) == DecimalValue([]) * 10 + n % 10;
    }
  }

  /** The future a jitter handler returns once its change settled. The jitter test runs only
      with a change that completes, and then expects a future that completes exceptionally; the
      model fails it with the listener's exception `t`. A change that itself fails keeps its own
      cause, which is a reconstruction: no modelled line fixes that case. */
  function ThenFail(f: Future, t: Cause): (r: Future)
    ensures r.Failed?
    ensures f.Completed? ==> r == Failed(t)
  {
    match f
    case Completed => Failed(t)
    case Failed(c) => Failed(c)
  }

  /** The message's attempt, when it carries a `Visibility` header and a receive count made of
      digits with a value of at least 1: the only messages the jitter test hands to a handler. */
  predicate Handled(m: Message) {
    HasVisibility(m) && m.receiveCount.Some? && ParseReceiveCount(m.receiveCount.value).Some?
    && ParseReceiveCount(m.receiveCount.value).value >= 1
  }

  /** `handle(message, t)` of the jitter handler selected by `policy`, reconstructed for the
      messages of `Handled`: the timeout computed for the receive count is passed to
      `changeToAsync`, and the returned future completes exceptionally. Any other message is
      outside the model and gives `None`. */
  function Handle(policy: Jitter, cfg: BackoffConfig, m: Message, t: Cause, change: ChangeVisibility): (r: Option<Run>)
    ensures r.Some? <==> Handled(m)
    ensures r.Some? ==> r.value.logged == [] && |r.value.requests| == 1
    ensures r.Some? ==> r.value.requests[0].message == m
    ensures r.Some? ==> r.value.outcome.Returns? && r.value.outcome.value.Failed?
    ensures r.Some? && InRange(cfg.draw) ==> 0 <= r.value.requests[0].seconds <= MAX_VISIBILITY_TIMEOUT_SECONDS
  {
    if !Handled(m) then None
    else
      var seconds := Timeout(policy, cfg, ParseReceiveCount(m.receiveCount.value).value);
      Some(Run([ChangeRequest(m, seconds)], Returns(ThenFail(change(m, seconds), t)), []))
  }

  /** For a message whose receive count is the numeral of attempt `n`, the handler asks for
      exactly the timeout computed for `n`, once, and its future completes exceptionally, even
      when the change succeeded. */
  lemma HandleContract(policy: Jitter, cfg: BackoffConfig, m: Message, t: Cause, change: ChangeVisibility, n: nat)
    requires HasVisibility(m) && n >= 1 && m.receiveCount == Some(Decimal(n))
    ensures Handle(policy, cfg, m, t, change).Some?
    ensures Handle(policy, cfg, m, t, change).value.requests == [ChangeRequest(m, Timeout(policy, cfg, n))]
    ensures Handle(policy, cfg, m, t, change).value.outcome.value.Failed?
  {
    ParseDecimal(n);
  }
}
