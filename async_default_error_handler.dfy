/** `AsyncDefaultErrorHandler`: like `DefaultErrorHandler` it asks for a visibility timeout of
    zero, but a failed header lookup becomes a failed future instead of an exception, and in a
    batch every element is recovered on its own, so the batch always completes normally. */
module AsyncDefaultErrorHandler {
  import opened Sqs
  import opened Futures

  /** The typed lookup of the `Visibility` header. `MessageHeaderUtils.getHeader` is not modelled:
      the model assumes it fails when the header holds no `Visibility`. */
  function GetVisibilityTimeout(m: Message): (r: Sync<Visibility>)
    ensures r.Returns? <==> HasVisibility(m)
    ensures r.Returns? ==> r.value == m.visibilityHeader.visibility
    ensures r.Throws? ==> r.cause == HeaderLookupFailed
  {
    match m.visibilityHeader
    case Present(v) => Returns(v)
    case _ => Throws(HeaderLookupFailed)
  }

  /** `changeTimeoutToZero(message)`: the lookup and the call sit in a try block whose catch
      turns any exception into `failedFuture(e)`, so this never throws. */
  function ChangeTimeoutToZero(m: Message, change: ChangeVisibility): (r: Run)
    ensures r.outcome.Returns? && r.logged == []
    ensures HasVisibility(m) ==> r.requests == [ChangeRequest(m, 0)] && r.outcome.value == change(m, 0)
    ensures !HasVisibility(m) ==> r.requests == [] && r.outcome.value == Failed(HeaderLookupFailed)
  {
    match GetVisibilityTimeout(m)
    case Throws(e) => Run([], Returns(FailedFuture(e)), [])
    case Returns(_) => Run([ChangeRequest(m, 0)], Returns(change(m, 0)), [])
  }

  /** `handle(message, t)` never throws: a message with a `Visibility` header gets exactly one
      `changeToAsync(0)` and the caller gets its future unchanged; any other message gets no
      request and a future failed with the lookup's exception. */
  function Handle(m: Message, t: Cause, change: ChangeVisibility): (r: Run)
    ensures r.outcome.Returns?
    ensures HasVisibility(m) ==> r == Run([ChangeRequest(m, 0)], Returns(change(m, 0)), [])
    ensures !HasVisibility(m) ==> r == Run([], Returns(Failed(HeaderLookupFailed)), [])
  {
    ChangeTimeoutToZero(m, change)
  }

  /** `doSomethingWhenMessageIsNotRecoverableInBatch(t)`: the default logs and returns null. */
  function DoSomethingWhenMessageIsNotRecoverableInBatch(c: Cause): (r: Logged)
    ensures r.value == Completed && r.log == [c]
  {
    Logged(Completed, [c])
  }

  /** What an element of a batch logs: the lookup failure, or the failure of its change. */
  function BatchFailures(ms: seq<Message>, change: ChangeVisibility): (r: seq<Cause>)
    ensures |r| <= |ms|
  {
    if ms == [] then []
    else
      (if !HasVisibility(ms[0]) then [HeaderLookupFailed] else ChangeFailures([ms[0]], change))
      + BatchFailures(ms[1..], change)
  }

  lemma {:induction false} BatchFailuresOnInvalidHeaders(ms: seq<Message>, change: ChangeVisibility)
    requires forall i :: 0 <= i < |ms| ==> !HasVisibility(ms[i])
    ensures BatchFailures(ms, change) == seq(|ms|, i => HeaderLookupFailed)
  {
    if ms != [] {
      assert forall i :: 1 <= i < |ms| ==> ms[i] == ms[1..][i - 1];
      BatchFailuresOnInvalidHeaders(ms[1..], change);
    }
  }

  /** One element of the batch stream:
      `changeTimeoutToZero(msg).exceptionally(this::doSomethingWhenMessageIsNotRecoverableInBatch)`. */
  function Step(m: Message, change: ChangeVisibility): (r: Run)
    ensures r.outcome == Returns(Completed)
    ensures r.requests == ZeroRequests(WithVisibility([m]))
    ensures r.logged == BatchFailures([m], change)
  {
    Recover(ChangeTimeoutToZero(m, change), DoSomethingWhenMessageIsNotRecoverableInBatch)
  }

  function StepOf(change: ChangeVisibility): Message -> Run {
    m => Step(m, change)
  }

  /** Every element of the stream completes normally, whatever its lookup or change did. */
  lemma StepsComplete(ms: seq<Message>, change: ChangeVisibility)
    ensures forall i :: 0 <= i < |ms| ==> StepOf(change)(ms[i]).outcome == Returns(Completed)
  {
    forall i | 0 <= i < |ms| ensures StepOf(change)(ms[i]).outcome == Returns(Completed) {
      assert StepOf(change)(ms[i]) == Step(ms[i], change);
    }
  }

  /** `changeTimeoutToZero(messages)`: never throws, and its future always completes normally. */
  function ChangeTimeoutToZeroBatch(ms: seq<Message>, change: ChangeVisibility): (r: Run)
    ensures r.outcome == Returns(Completed)
  {
    StepsComplete(ms, change);
    AllOfMapped(ms, StepOf(change))
  }

  /** `handle(messages, t)`: never throws, and its future always completes normally. */
  function HandleBatch(ms: seq<Message>, t: Cause, change: ChangeVisibility): (r: Run)
    ensures r.outcome == Returns(Completed)
  {
    ChangeTimeoutToZeroBatch(ms, change)
  }

  lemma StepsNeverThrow(ms: seq<Message>, change: ChangeVisibility)
    ensures NoneThrows(ms, StepOf(change))
  {
    StepsComplete(ms, change);
  }

  lemma BatchFailuresCons(ms: seq<Message>, change: ChangeVisibility)
    requires ms != []
    ensures BatchFailures(ms, change) == BatchFailures([ms[0]], change) + BatchFailures(ms[1..], change)
  {
    assert [ms[0]][1..] == [];
  }

  /** A message without a `Visibility` header at the head of a batch logs one lookup failure. */
  lemma BatchFailuresInvalidHead(ms: seq<Message>, change: ChangeVisibility)
    requires ms != [] && !HasVisibility(ms[0])
    ensures BatchFailures(ms, change) == [HeaderLookupFailed] + BatchFailures(ms[1..], change)
  {
  }

  lemma {:induction false} StepsConcat(ms: seq<Message>, change: ChangeVisibility)
    ensures ConcatRequests(ms, StepOf(change)) == ZeroRequests(WithVisibility(ms))
    ensures ConcatLogged(ms, StepOf(change)) == BatchFailures(ms, change)
  {
    if ms != [] {
      var step := StepOf(change);
      StepsConcat(ms[1..], change);
      var head := Step(ms[0], change);
      assert step(ms[0]) == head;
      assert ConcatRequests(ms, step) == head.requests + ConcatRequests(ms[1..], step);
      assert ConcatLogged(ms, step) == head.logged + ConcatLogged(ms[1..], step);
      assert ms == [ms[0]] + ms[1..];
      WithVisibilityAppend([ms[0]], ms[1..]);
      ZeroRequestsAppend(WithVisibility([ms[0]]), WithVisibility(ms[1..]));
      BatchFailuresCons(ms, change);
    }
  }

  /** The batch contract of `AsyncDefaultErrorHandler`: every element is attempted on its own.
      Exactly the messages with a `Visibility` header get one `changeToAsync(0)` each, in order;
      each element whose lookup or change fails is logged once; and the batch always completes
      normally with null, whatever failed. */
  lemma HandleBatchContract(ms: seq<Message>, t: Cause, change: ChangeVisibility)
    ensures HandleBatch(ms, t, change) ==
      Run(ZeroRequests(WithVisibility(ms)), Returns(Completed), BatchFailures(ms, change))
    ensures |HandleBatch(ms, t, change).requests| == CountWithVisibility(ms)
  {
    var step := StepOf(change);
    StepsNeverThrow(ms, change);
    StepsConcat(ms, change);
    CollectWhenNoneThrows(ms, step);
    var c := CollectToArray(ms, step);
    assert forall i :: 0 <= i < |c.futures| ==> c.futures[i] == Completed;
    WithVisibilityCount(ms);
  }

  /** `shouldNotReturnCompletableFailedAtBatch`, first half: a batch in which no header holds a
      `Visibility` issues no request, logs one lookup failure per message and still completes. */
  lemma AllInvalidBatchCompletes(ms: seq<Message>, t: Cause, change: ChangeVisibility)
    requires forall i :: 0 <= i < |ms| ==> !HasVisibility(ms[i])
    ensures HandleBatch(ms, t, change) ==
      Run([], Returns(Completed), seq(|ms|, i => HeaderLookupFailed))
  {
    HandleBatchContract(ms, t, change);
    BatchFailuresOnInvalidHeaders(ms, change);
  }

  /** Three valid messages whose second change fails log only that failure. */
  lemma ThreeFailuresLogged(m1: Message, m2: Message, m3: Message, change: ChangeVisibility, e: Cause)
    requires HasVisibility(m1) && HasVisibility(m2) && HasVisibility(m3)
    requires change(m1, 0) == Completed && change(m2, 0) == Failed(e) && change(m3, 0) == Completed
    ensures BatchFailures([m1, m2, m3], change) == [e]
  {
    var ms := [m1, m2, m3];
    BatchFailuresCons(ms, change);
    assert ms[1..] == [m2, m3];
    BatchFailuresCons([m2, m3], change);
    assert [m2, m3][1..] == [m3];
    assert BatchFailures([m1], change) == [];
    assert BatchFailures([m2], change) == [e];
    assert BatchFailures([m3], change) == [];
  }

  /** Three valid messages get one request each for zero seconds. */
  lemma ThreeRequests(m1: Message, m2: Message, m3: Message)
    requires HasVisibility(m1) && HasVisibility(m2) && HasVisibility(m3)
    ensures ZeroRequests(WithVisibility([m1, m2, m3])) ==
      [ChangeRequest(m1, 0), ChangeRequest(m2, 0), ChangeRequest(m3, 0)]
  {
    var ms := [m1, m2, m3];
    assert WithVisibility(ms) == ms by {
      assert forall i :: 0 <= i < |ms| ==> HasVisibility(ms[i]);
    }
    var zs := ZeroRequests(ms);
    assert zs[0] == ChangeRequest(m1, 0) && zs[1] == ChangeRequest(m2, 0) && zs[2] == ChangeRequest(m3, 0);
  }

  /** `shouldNotReturnCompletableFailedAtBatch`, second half: three messages with valid headers
      whose second change fails still get three `changeToAsync(0)` calls, the batch completes,
      and only the second failure is logged. */
  lemma SecondOfThreeFails(m1: Message, m2: Message, m3: Message, t: Cause, change: ChangeVisibility, e: Cause)
    requires HasVisibility(m1) && HasVisibility(m2) && HasVisibility(m3)
    requires change(m1, 0) == Completed && change(m2, 0) == Failed(e) && change(m3, 0) == Completed
    ensures HandleBatch([m1, m2, m3], t, change) ==
      Run([ChangeRequest(m1, 0), ChangeRequest(m2, 0), ChangeRequest(m3, 0)], Returns(Completed), [e])
  {
    HandleBatchContract([m1, m2, m3], t, change);
    ThreeRequests(m1, m2, m3);
    ThreeFailuresLogged(m1, m2, m3, change, e);
  }
}
