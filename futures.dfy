/** `CompletableFuture<Void>` as a settled value, and the combinators the error handlers use on it:
    `failedFuture`, `exceptionally`, `exceptionallyCompose`, and `allOf` over a stream that is mapped
    element by element and collected with `toArray`. Scheduling is not modelled: every future here
    has already completed, normally or exceptionally. */
module Futures {
  import opened Sqs

  /** A settled `CompletableFuture<Void>`: completed with null, or completed exceptionally. */
  datatype Future = Completed | Failed(cause: Cause)

  /** A synchronous call: it returns a value or throws. */
  datatype Sync<+T> = Returns(value: T) | Throws(cause: Cause)

  /** The `Visibility` collaborator: the future `changeToAsync(seconds)` returns for the
      `Visibility` header of `message`. */
  type ChangeVisibility = (Message, int) -> Future

  /** What one handler call did: the `changeToAsync` calls it issued in order, how the call
      ended (a returned future or a synchronous exception), and the failures it logged. */
  datatype Run = Run(requests: seq<ChangeRequest>, outcome: Sync<Future>, logged: seq<Cause>)

  /** The result of an `exceptionally` callback: the value it completes with and what it logged. */
  datatype Logged = Logged(value: Future, log: seq<Cause>)

  function FailedFuture(cause: Cause): Future {
    Failed(cause)
  }

  /** `CompletableFutures.exceptionallyCompose(f, fn)`: a normal completion passes through,
      a failure is replaced by the future `fn` builds from its cause. */
  function ExceptionallyCompose(f: Future, fn: Cause -> Future): (r: Future)
    ensures f.Completed? ==> r == Completed
    ensures f.Failed? ==> r == fn(f.cause)
  {
    match f
    case Completed => Completed
    case Failed(c) => fn(c)
  }

  /** Composing with `failedFuture` gives back the future itself. */
  lemma ComposeWithFailedFuture(f: Future)
    ensures ExceptionallyCompose(f, FailedFuture) == f
  {
  }

  /** `f.exceptionally(fn)`: a normal completion passes through, a failure is handed to `fn`. */
  function Exceptionally(f: Future, fn: Cause -> Logged): (r: Logged)
    ensures f.Completed? ==> r == Logged(Completed, [])
    ensures f.Failed? ==> r == fn(f.cause)
  {
    match f
    case Completed => Logged(Completed, [])
    case Failed(c) => fn(c)
  }

  /** Attaches `.exceptionally(fn)` to the future a run returned; a run that threw is unchanged,
      since the callback is never attached. */
  function Recover(r: Run, fn: Cause -> Logged): (s: Run)
    ensures s.requests == r.requests
    ensures r.outcome.Throws? ==> s == r
    ensures r.outcome.Returns? ==> s.outcome == Returns(Exceptionally(r.outcome.value, fn).value)
    ensures r.outcome.Returns? ==> s.logged == r.logged + Exceptionally(r.outcome.value, fn).log
  {
    match r.outcome
    case Throws(_) => r
    case Returns(f) =>
      var l := Exceptionally(f, fn);
      Run(r.requests, Returns(l.value), r.logged + l.log)
  }

  /** `CompletableFuture.allOf(fs)`: completes normally exactly when every future of `fs` did
      (so also for no futures at all); otherwise it fails with the cause of one of the failed
      futures. */
  function AllOf(fs: seq<Future>): (r: Future)
    ensures r == Completed <==> forall i :: 0 <= i < |fs| ==> fs[i] == Completed
    ensures r.Failed? ==> exists i :: 0 <= i < |fs| && fs[i] == r
  {
    if fs == [] then Completed
    else if fs[0].Failed? then fs[0]
    else
      var rest := AllOf(fs[1..]);
      assert forall i :: 1 <= i < |fs| ==> fs[i] == fs[1..][i - 1];
      rest
  }

  /** What `messages.stream().map(step).toArray(...)` leaves behind: the calls issued and the
      failures logged by the steps that ran, the futures collected, and the exception that cut
      the stream short, if one did. */
  datatype Collected = Collected(
    requests: seq<ChangeRequest>,
    logged: seq<Cause>,
    futures: seq<Future>,
    thrown: Option<Cause>)

  /** Runs `step` on the messages in iteration order; the first step that throws ends the stream,
      so no later message is stepped and no array is produced. The futures collected are those
      of a prefix of `ms`, in order; the exception, if any, is that of the message right after
      the prefix, and without one the prefix is all of `ms`. */
  function CollectToArray(ms: seq<Message>, step: Message -> Run): (c: Collected)
    ensures |c.futures| <= |ms|
    ensures forall j :: 0 <= j < |c.futures| ==> step(ms[j]).outcome == Returns(c.futures[j])
    ensures c.thrown.None? ==> |c.futures| == |ms|
    ensures c.thrown.Some? ==> |c.futures| < |ms| && step(ms[|c.futures|]).outcome == Throws(c.thrown.value)
  {
    if ms == [] then Collected([], [], [], None)
    else
      var head := step(ms[0]);
      match head.outcome
      case Throws(e) => Collected(head.requests, head.logged, [], Some(e))
      case Returns(f) =>
        var rest := CollectToArray(ms[1..], step);
        var futures := [f] + rest.futures;
        assert forall j :: 1 <= j < |futures| ==> futures[j] == rest.futures[j - 1] && ms[j] == ms[1..][j - 1];
        Collected(head.requests + rest.requests, head.logged + rest.logged, futures, rest.thrown)
  }

  /** `CompletableFuture.allOf(messages.stream().map(step).toArray(...))`: a throw inside the
      stream propagates out of the call; otherwise the call returns the `allOf` of the futures.
      So the call returns exactly when no step throws, its future completes normally exactly when
      every step returned a normally completed future, and an exception it throws is that of one
      of the steps. */
  function AllOfMapped(ms: seq<Message>, step: Message -> Run): (r: Run)
    ensures r.outcome.Returns? <==> NoneThrows(ms, step)
    ensures r.outcome == Returns(Completed) <==> forall i :: 0 <= i < |ms| ==> step(ms[i]).outcome == Returns(Completed)
    ensures r.outcome.Throws? ==> exists i :: 0 <= i < |ms| && step(ms[i]).outcome == r.outcome
  {
    var c := CollectToArray(ms, step);
    match c.thrown
    case Some(e) => Run(c.requests, Throws(e), c.logged)
    case None => Run(c.requests, Returns(AllOf(c.futures)), c.logged)
  }

  /** The concatenated requests of running `step` on each of `ms`. */
  function ConcatRequests(ms: seq<Message>, step: Message -> Run): seq<ChangeRequest> {
    if ms == [] then [] else step(ms[0]).requests + ConcatRequests(ms[1..], step)
  }

  /** The concatenated logs of running `step` on each of `ms`. */
  function ConcatLogged(ms: seq<Message>, step: Message -> Run): seq<Cause> {
    if ms == [] then [] else step(ms[0]).logged + ConcatLogged(ms[1..], step)
  }

  ghost predicate NoneThrows(ms: seq<Message>, step: Message -> Run) {
    forall i :: 0 <= i < |ms| ==> step(ms[i]).outcome.Returns?
  }

  /** When no step throws, every message is stepped, in order, and each step's future is collected. */
  lemma {:induction false} CollectWhenNoneThrows(ms: seq<Message>, step: Message -> Run)
    requires NoneThrows(ms, step)
    ensures CollectToArray(ms, step).thrown == None
    ensures CollectToArray(ms, step).requests == ConcatRequests(ms, step)
    ensures CollectToArray(ms, step).logged == ConcatLogged(ms, step)
    ensures forall i :: 0 <= i < |ms| ==>
      Returns(CollectToArray(ms, step).futures[i]) == step(ms[i]).outcome
  {
    if ms != [] {
      assert step(ms[0]).outcome.Returns?;
      assert forall i :: 1 <= i < |ms| ==> ms[1..][i - 1] == ms[i];
      CollectWhenNoneThrows(ms[1..], step);
      var c := CollectToArray(ms, step);
      var rest := CollectToArray(ms[1..], step);
      assert c.futures == [step(ms[0]).outcome.value] + rest.futures;
      forall i | 0 <= i < |ms|
        ensures Returns(c.futures[i]) == step(ms[i]).outcome
      {
        if i > 0 {
          assert c.futures[i] == rest.futures[i - 1];
        }
      }
    }
  }

  /** When the step of `ms[k]` is the first to throw, the stream stops there: what the steps of
      `ms[..k+1]` issued and logged is all there is, and the exception is that of `ms[k]`. */
  lemma {:induction false} CollectStopsAtFirstThrow(ms: seq<Message>, step: Message -> Run, k: nat)
    requires k < |ms|
    requires NoneThrows(ms[..k], step)
    requires step(ms[k]).outcome.Throws?
    ensures CollectToArray(ms, step).thrown == Some(step(ms[k]).outcome.cause)
    ensures CollectToArray(ms, step).requests == ConcatRequests(ms[..k + 1], step)
    ensures CollectToArray(ms, step).logged == ConcatLogged(ms[..k + 1], step)
  {
    var rest := ms[1..];
    if k == 0 {
      assert ms[..1][1..] == [];
    } else {
      assert step(ms[..k][0]).outcome.Returns?;
      assert ms[..k][0] == ms[0];
      assert ms[..k + 1][1..] == rest[..k];
      assert rest[..k - 1] == ms[..k][1..];
      CollectStopsAtFirstThrow(rest, step, k - 1);
    }
  }

  lemma ConcatSingle(m: Message, step: Message -> Run)
    ensures ConcatRequests([m], step) == step(m).requests
    ensures ConcatLogged([m], step) == step(m).logged
  {
    assert [m][1..] == [];
  }

  lemma {:induction false} ConcatAppend(a: seq<Message>, b: seq<Message>, step: Message -> Run)
    ensures ConcatRequests(a + b, step) == ConcatRequests(a, step) + ConcatRequests(b, step)
    ensures ConcatLogged(a + b, step) == ConcatLogged(a, step) + ConcatLogged(b, step)
  {
    if a == [] {
      assert a + b == b;
    } else {
      assert (a + b)[0] == a[0];
      assert (a + b)[1..] == a[1..] + b;
      ConcatAppend(a[1..], b, step);
    }
  }

  /** The causes of the failed `changeToAsync(0)` calls on the messages of `ms`, in order. */
  function ChangeFailures(ms: seq<Message>, change: ChangeVisibility): (r: seq<Cause>)
    ensures |r| <= |ms|
  {
    if ms == [] then []
    else
      (match change(ms[0], 0) case Completed => [] case Failed(c) => [c]) + ChangeFailures(ms[1..], change)
  }

  lemma ChangeFailuresCons(ms: seq<Message>, change: ChangeVisibility)
    requires ms != []
    ensures ChangeFailures(ms, change) == ChangeFailures([ms[0]], change) + ChangeFailures(ms[1..], change)
  {
    assert [ms[0]][1..] == [];
  }
}
