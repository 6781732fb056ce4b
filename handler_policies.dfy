/** The two immediate-retry handlers side by side. They agree whenever every `Visibility` header
    is valid; they part ways on a message without one: `DefaultErrorHandler` throws (and in a
    batch stops at that message), `AsyncDefaultErrorHandler` fails only that element and goes on. */
module HandlerPolicies {
  import opened Sqs
  import opened Futures
  import D = DefaultErrorHandler
  import A = AsyncDefaultErrorHandler

  lemma {:induction false} BatchFailuresAppend(a: seq<Message>, b: seq<Message>, change: ChangeVisibility)
    ensures A.BatchFailures(a + b, change) == A.BatchFailures(a, change) + A.BatchFailures(b, change)
  {
    if a == [] {
      assert a + b == b;
    } else {
      assert (a + b)[0] == a[0];
      assert (a + b)[1..] == a[1..] + b;
      BatchFailuresAppend(a[1..], b, change);
      A.BatchFailuresCons(a, change);
      A.BatchFailuresCons(a + b, change);
    }
  }

  /** On messages that all carry a `Visibility`, the batch log of the asynchronous handler holds
      exactly the failed changes. */
  lemma {:induction false} BatchFailuresOnValidHeaders(ms: seq<Message>, change: ChangeVisibility)
    requires forall i :: 0 <= i < |ms| ==> HasVisibility(ms[i])
    ensures A.BatchFailures(ms, change) == ChangeFailures(ms, change)
  {
    if ms != [] {
      assert forall i :: 1 <= i < |ms| ==> ms[i] == ms[1..][i - 1];
      BatchFailuresOnValidHeaders(ms[1..], change);
      A.BatchFailuresCons(ms, change);
      ChangeFailuresCons(ms, change);
    }
  }

  /** For a message with a valid header both handlers issue the same single `changeToAsync(0)`
      and hand back its future. */
  lemma SingleAgreeOnValidHeader(m: Message, t: Cause, change: ChangeVisibility)
    requires HasVisibility(m)
    ensures D.Handle(m, t, change) == A.Handle(m, t, change)
    ensures D.Handle(m, t, change).requests == [ChangeRequest(m, 0)]
  {
  }

  /** For a message without a valid header neither handler issues a request; the default handler
      throws synchronously, the asynchronous one returns a failed future. */
  lemma SingleDifferOnInvalidHeader(m: Message, t: Cause, change: ChangeVisibility)
    requires !HasVisibility(m)
    ensures D.Handle(m, t, change) == Run([], Throws(InvalidVisibilityHeader), [])
    ensures A.Handle(m, t, change) == Run([], Returns(Failed(HeaderLookupFailed)), [])
  {
  }

  /** When every header is valid the two batch paths do exactly the same: the same requests, the
      same normal completion and the same log. */
  lemma BatchesAgreeOnValidHeaders(ms: seq<Message>, t: Cause, change: ChangeVisibility)
    requires forall i :: 0 <= i < |ms| ==> HasVisibility(ms[i])
    ensures D.HandleBatch(ms, t, change) == A.HandleBatch(ms, t, change)
  {
    D.ValidBatchCompletes(ms, t, change);
    A.HandleBatchContract(ms, t, change);
    BatchFailuresOnValidHeaders(ms, change);
  }

  /** Removing the headerless messages from `pre + [m] + post`, where every message of `pre`
      carries a `Visibility` and `m` does not, keeps `pre` whole and drops `m`. */
  lemma WithVisibilitySplit(pre: seq<Message>, m: Message, post: seq<Message>)
    requires !HasVisibility(m)
    requires forall i :: 0 <= i < |pre| ==> HasVisibility(pre[i])
    ensures WithVisibility(pre + [m] + post) == pre + WithVisibility(post)
  {
    var tail := [m] + post;
    assert pre + [m] + post == pre + tail;
    WithVisibilityAppend(pre, tail);
    assert WithVisibility(pre) == pre;
    assert tail[0] == m && tail[1..] == post;
    WithVisibilityInvalidHead(tail);
  }

  /** Split of the asynchronous handler's requests at a message without a valid header. */
  lemma RequestsSplit(pre: seq<Message>, m: Message, post: seq<Message>)
    requires !HasVisibility(m)
    requires forall i :: 0 <= i < |pre| ==> HasVisibility(pre[i])
    ensures ZeroRequests(WithVisibility(pre + [m] + post)) == ZeroRequests(pre) + ZeroRequests(WithVisibility(post))
  {
    WithVisibilitySplit(pre, m, post);
    ZeroRequestsAppend(pre, WithVisibility(post));
  }

  /** Split of the asynchronous handler's log at a message without a valid header. */
  lemma FailuresSplit(pre: seq<Message>, m: Message, post: seq<Message>, change: ChangeVisibility)
    requires !HasVisibility(m)
    requires forall i :: 0 <= i < |pre| ==> HasVisibility(pre[i])
    ensures A.BatchFailures(pre + [m] + post, change) ==
      ChangeFailures(pre, change) + [HeaderLookupFailed] + A.BatchFailures(post, change)
  {
    var tail := [m] + post;
    assert pre + [m] + post == pre + tail;
    BatchFailuresAppend(pre, tail, change);
    BatchFailuresOnValidHeaders(pre, change);
    assert tail[0] == m && tail[1..] == post;
    A.BatchFailuresInvalidHead(tail, change);
  }

  /** If some message lacks a valid header, the first one to do so splits the batch into the
      valid messages before it, itself, and the rest. */
  lemma FirstInvalidSplit(ms: seq<Message>, k: nat)
    requires k < |ms| && !HasVisibility(ms[k])
    ensures D.FirstInvalid(ms) < |ms| && !HasVisibility(ms[D.FirstInvalid(ms)])
    ensures forall i :: 0 <= i < |ms[..D.FirstInvalid(ms)]| ==> HasVisibility(ms[..D.FirstInvalid(ms)][i])
    ensures ms == ms[..D.FirstInvalid(ms)] + [ms[D.FirstInvalid(ms)]] + ms[D.FirstInvalid(ms) + 1..]
  {
    var f := D.FirstInvalid(ms);
    assert f <= k;
    assert ms == ms[..f] + [ms[f]] + ms[f + 1..];
  }

  /** What the default batch requests before it throws is a prefix of what the asynchronous
      batch requests. */
  lemma RequestsPrefix(ms: seq<Message>, t: Cause, change: ChangeVisibility, k: nat)
    requires k < |ms| && !HasVisibility(ms[k])
    ensures D.HandleBatch(ms, t, change).requests <= A.HandleBatch(ms, t, change).requests
  {
    FirstInvalidSplit(ms, k);
    var f := D.FirstInvalid(ms);
    var pre, post := ms[..f], ms[f + 1..];
    D.HandleBatchContract(ms, t, change);
    A.HandleBatchContract(ms, t, change);
    RequestsSplit(pre, ms[f], post);
    assert A.HandleBatch(ms, t, change).requests == ZeroRequests(pre) + ZeroRequests(WithVisibility(post));
  }

  /** What the default batch logs before it throws, followed by the lookup failure that stopped
      it, is a prefix of what the asynchronous batch logs. */
  lemma LogsPrefix(ms: seq<Message>, t: Cause, change: ChangeVisibility, k: nat)
    requires k < |ms| && !HasVisibility(ms[k])
    ensures D.HandleBatch(ms, t, change).logged + [HeaderLookupFailed] <= A.HandleBatch(ms, t, change).logged
  {
    FirstInvalidSplit(ms, k);
    var f := D.FirstInvalid(ms);
    var pre, post := ms[..f], ms[f + 1..];
    D.HandleBatchContract(ms, t, change);
    A.HandleBatchContract(ms, t, change);
    FailuresSplit(pre, ms[f], post, change);
    assert A.HandleBatch(ms, t, change).logged ==
      ChangeFailures(pre, change) + [HeaderLookupFailed] + A.BatchFailures(post, change);
  }

  /** When some header is invalid the default batch throws while the asynchronous batch
      completes normally; what the default handler requested and logged before it threw is a
      prefix of what the asynchronous one requests and logs, the latter going on to log the
      lookup failure that stopped the former. */
  lemma BatchesDifferOnInvalidHeader(ms: seq<Message>, t: Cause, change: ChangeVisibility, k: nat)
    requires k < |ms| && !HasVisibility(ms[k])
    ensures D.HandleBatch(ms, t, change).outcome == Throws(InvalidVisibilityHeader)
    ensures A.HandleBatch(ms, t, change).outcome == Returns(Completed)
    ensures D.HandleBatch(ms, t, change).requests <= A.HandleBatch(ms, t, change).requests
    ensures D.HandleBatch(ms, t, change).logged + [HeaderLookupFailed] <= A.HandleBatch(ms, t, change).logged
  {
    RequestsPrefix(ms, t, change, k);
    LogsPrefix(ms, t, change, k);
  }
}
