/** `DefaultErrorHandler`: on a listener failure it sets the visibility timeout of the failed
    message (or of every message of the failed batch) to zero so that SQS redelivers it at once.
    The header is checked synchronously: a missing or foreign `Visibility` header makes the call
    throw, and in a batch the first such message aborts the whole stream. */
module DefaultErrorHandler {
  import opened Sqs
  import opened Futures

  /** The `Visibility` header of `m`, or the "Invalid visibility header" exception. */
  function GetVisibilityTimeout(m: Message): (r: Sync<Visibility>)
    ensures r.Returns? <==> HasVisibility(m)
    ensures r.Returns? ==> r.value == m.visibilityHeader.visibility
    ensures r.Throws? ==> r.cause == InvalidVisibilityHeader
  {
    match m.visibilityHeader
    case Present(v) => Returns(v)
    case _ => Throws(InvalidVisibilityHeader)
  }

  /** Looks up the header, then asks for a visibility timeout of 0 and returns that future. */
  function ChangeTimeoutToZero(m: Message, change: ChangeVisibility): (r: Run)
    ensures r.logged == []
    ensures HasVisibility(m) ==> r.requests == [ChangeRequest(m, 0)] && r.outcome == Returns(change(m, 0))
    ensures !HasVisibility(m) ==> r.requests == [] && r.outcome == Throws(InvalidVisibilityHeader)
  {
    match GetVisibilityTimeout(m)
    case Throws(e) => Run([], Throws(e), [])
    case Returns(_) => Run([ChangeRequest(m, 0)], Returns(change(m, 0)), [])
  }

  /** `handle(message, t)`: `exceptionallyCompose(changeTimeoutToZero(message), failedFuture)`.
      The composition is the identity, so the caller gets the change's own future; the header
      check runs before the composition, so its exception escapes synchronously. */
  function Handle(m: Message, t: Cause, change: ChangeVisibility): (r: Run)
    ensures HasVisibility(m) ==> r == Run([ChangeRequest(m, 0)], Returns(change(m, 0)), [])
    ensures !HasVisibility(m) ==> r == Run([], Throws(InvalidVisibilityHeader), [])
  {
    var z := ChangeTimeoutToZero(m, change);
    match z.outcome
    case Throws(_) => z
    case Returns(f) =>
      ComposeWithFailedFuture(f);
      Run(z.requests, Returns(ExceptionallyCompose(f, FailedFuture)), z.logged)
  }

  /** `logError(t, message)`: logs the failure and completes the element with null. */
  function LogError(c: Cause, m: Message): (r: Logged)
    ensures r.value == Completed && r.log == [c]
  {
    Logged(Completed, [c])
  }

  /** One element of the batch stream: `changeTimeoutToZero(msg).exceptionally(logError(_, msg))`. */
  function Step(m: Message, change: ChangeVisibility): (r: Run)
    ensures HasVisibility(m) ==> r.requests == [ChangeRequest(m, 0)] && r.outcome == Returns(Completed)
    ensures HasVisibility(m) ==> r.logged == ChangeFailures([m], change)
    ensures !HasVisibility(m) ==> r == Run([], Throws(InvalidVisibilityHeader), [])
  {
    Recover(ChangeTimeoutToZero(m, change), c => LogError(c, m))
  }

  function StepOf(change: ChangeVisibility): Message -> Run {
    m => Step(m, change)
  }

  /** Each element of the stream completes normally when its header is valid, whatever its
      change did, and throws "Invalid visibility header" otherwise. */
  lemma StepOutcomes(ms: seq<Message>, change: ChangeVisibility)
    ensures forall i :: 0 <= i < |ms| ==>
      StepOf(change)(ms[i]).outcome ==
        if HasVisibility(ms[i]) then Returns(Completed) else Throws(InvalidVisibilityHeader)
  {
    forall i | 0 <= i < |ms|
      ensures StepOf(change)(ms[i]).outcome ==
        if HasVisibility(ms[i]) then Returns(Completed) else Throws(InvalidVisibilityHeader)
    {
      assert StepOf(change)(ms[i]) == Step(ms[i], change);
    }
  }

  /** `changeTimeoutToZeroCollectionOfMessages(messages)`: the call returns a normally completed
      future exactly when every header is valid, and otherwise throws "Invalid visibility header". */
  function ChangeTimeoutToZeroCollectionOfMessages(ms: seq<Message>, change: ChangeVisibility): (r: Run)
    ensures r.outcome == Returns(Completed) <==> forall i :: 0 <= i < |ms| ==> HasVisibility(ms[i])
    ensures r.outcome == Returns(Completed) || r.outcome == Throws(InvalidVisibilityHeader)
  {
    StepOutcomes(ms, change);
    AllOfMapped(ms, StepOf(change))
  }

  /** `handle(messages, t)`: normal completion exactly when every header is valid, else the
      synchronous "Invalid visibility header". */
  function HandleBatch(ms: seq<Message>, t: Cause, change: ChangeVisibility): (r: Run)
    ensures r.outcome == Returns(Completed) <==> forall i :: 0 <= i < |ms| ==> HasVisibility(ms[i])
    ensures r.outcome == Returns(Completed) || r.outcome == Throws(InvalidVisibilityHeader)
  {
    ChangeTimeoutToZeroCollectionOfMessages(ms, change)
  }

  /** The index of the first message without a `Visibility` header, or `|ms|` if there is none. */
  function FirstInvalid(ms: seq<Message>): (k: nat)
    ensures k <= |ms|
    ensures forall i :: 0 <= i < k ==> HasVisibility(ms[i])
    ensures k < |ms| ==> !HasVisibility(ms[k])
  {
    if ms == [] || !HasVisibility(ms[0]) then 0
    else
      var k := 1 + FirstInvalid(ms[1..]);
      assert forall i :: 1 <= i < k ==> ms[i] == ms[1..][i - 1];
      k
  }

  lemma StepsOnValidHeadersReturn(ms: seq<Message>, change: ChangeVisibility)
    requires forall i :: 0 <= i < |ms| ==> HasVisibility(ms[i])
    ensures NoneThrows(ms, StepOf(change))
  {
    StepOutcomes(ms, change);
  }

  lemma {:induction false} StepsOnValidHeaders(ms: seq<Message>, change: ChangeVisibility)
    requires forall i :: 0 <= i < |ms| ==> HasVisibility(ms[i])
    ensures NoneThrows(ms, StepOf(change))
    ensures ConcatRequests(ms, StepOf(change)) == ZeroRequests(ms)
    ensures ConcatLogged(ms, StepOf(change)) == ChangeFailures(ms, change)
  {
    StepsOnValidHeadersReturn(ms, change);
    if ms != [] {
      var step, rest := StepOf(change), ms[1..];
      assert forall i :: 0 <= i < |rest| ==> rest[i] == ms[i + 1];
      StepsOnValidHeaders(rest, change);
      var head := Step(ms[0], change);
      assert step(ms[0]) == head;
      assert ConcatRequests(ms, step) == head.requests + ConcatRequests(rest, step);
      assert ConcatLogged(ms, step) == head.logged + ConcatLogged(rest, step);
      assert ms == [ms[0]] + rest;
      ZeroRequestsAppend([ms[0]], rest);
      ChangeFailuresCons(ms, change);
    }
  }

  /** A batch whose headers are all valid issues one `changeToAsync(0)` per message and completes
      normally, even when some or all of those changes fail; each failure is logged once. */
  lemma ValidBatchCompletes(ms: seq<Message>, t: Cause, change: ChangeVisibility)
    requires forall i :: 0 <= i < |ms| ==> HasVisibility(ms[i])
    ensures HandleBatch(ms, t, change) == Run(ZeroRequests(ms), Returns(Completed), ChangeFailures(ms, change))
  {
    var step := StepOf(change);
    StepsOnValidHeaders(ms, change);
    CollectWhenNoneThrows(ms, step);
    var c := CollectToArray(ms, step);
    assert forall i :: 0 <= i < |c.futures| ==> c.futures[i] == Completed;
  }

  /** If `ms[k]` is the first message without a valid header, the stream collects the requests
      and logs of the messages before it and stops with its exception. */
  lemma CollectAtFirstInvalid(ms: seq<Message>, change: ChangeVisibility, k: nat)
    requires k < |ms| && !HasVisibility(ms[k])
    requires forall i :: 0 <= i < k ==> HasVisibility(ms[i])
    ensures CollectToArray(ms, StepOf(change)).thrown == Some(InvalidVisibilityHeader)
    ensures CollectToArray(ms, StepOf(change)).requests == ZeroRequests(ms[..k])
    ensures CollectToArray(ms, StepOf(change)).logged == ChangeFailures(ms[..k], change)
  {
    var step, pre := StepOf(change), ms[..k];
    StepsOnValidHeaders(pre, change);
    assert step(ms[k]) == Run([], Throws(InvalidVisibilityHeader), []);
    CollectStopsAtFirstThrow(ms, step, k);
    TakeOneMore(ms, k);
    ConcatAppend(pre, [ms[k]], step);
    ConcatSingle(ms[k], step);
  }

  /** If `ms[k]` is the first message without a valid header, the batch call throws "Invalid
      visibility header": only the messages before `ms[k]` got a request, and only their failed
      changes were logged. */
  lemma InvalidHeaderAbortsBatch(ms: seq<Message>, t: Cause, change: ChangeVisibility, k: nat)
    requires k < |ms| && !HasVisibility(ms[k])
    requires forall i :: 0 <= i < k ==> HasVisibility(ms[i])
    ensures HandleBatch(ms, t, change) ==
      Run(ZeroRequests(ms[..k]), Throws(InvalidVisibilityHeader), ChangeFailures(ms[..k], change))
  {
    CollectAtFirstInvalid(ms, change, k);
  }

  /** The batch contract of `DefaultErrorHandler`. Let `k` be the index of the first message
      without a `Visibility` header. Exactly the messages before it get one `changeToAsync(0)`
      each, in order; exactly their failed changes are logged, once each. If every header is
      valid, the batch completes normally whatever the changes did; otherwise the call throws
      "Invalid visibility header" and returns no aggregate future. */
  lemma HandleBatchContract(ms: seq<Message>, t: Cause, change: ChangeVisibility)
    ensures HandleBatch(ms, t, change).requests == ZeroRequests(ms[..FirstInvalid(ms)])
    ensures HandleBatch(ms, t, change).logged == ChangeFailures(ms[..FirstInvalid(ms)], change)
    ensures HandleBatch(ms, t, change).outcome ==
      if FirstInvalid(ms) == |ms| then Returns(Completed) else Throws(InvalidVisibilityHeader)
  {
    var k := FirstInvalid(ms);
    if k == |ms| {
      assert ms[..k] == ms;
      ValidBatchCompletes(ms, t, change);
    } else {
      InvalidHeaderAbortsBatch(ms, t, change, k);
    }
  }

  /** `shouldChangeVisibilityToZeroBatch` as a property: three messages with valid headers get
      three requests for 0 seconds and the batch completes, whether the changes succeed or fail. */
  lemma BatchOfThree(m1: Message, m2: Message, m3: Message, t: Cause, change: ChangeVisibility)
    requires HasVisibility(m1) && HasVisibility(m2) && HasVisibility(m3)
    ensures HandleBatch([m1, m2, m3], t, change).requests ==
      [ChangeRequest(m1, 0), ChangeRequest(m2, 0), ChangeRequest(m3, 0)]
    ensures HandleBatch([m1, m2, m3], t, change).outcome == Returns(Completed)
  {
    ValidBatchCompletes([m1, m2, m3], t, change);
  }

  /** The listener's exception `t` has no influence on what either path does. */
  lemma IgnoresCause(m: Message, ms: seq<Message>, t1: Cause, t2: Cause, change: ChangeVisibility)
    ensures Handle(m, t1, change) == Handle(m, t2, change)
    ensures HandleBatch(ms, t1, change) == HandleBatch(ms, t2, change)
  {
  }
}
