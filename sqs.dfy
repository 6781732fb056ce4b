/** The SQS message envelope as the error handlers see it: the `Visibility` header that lets a
    handler change the message's visibility timeout, the string-valued approximate receive count,
    and the causes a failed handling can carry. */
module Sqs {

  datatype Option<+T> = None | Some(value: T)

  /** The `Visibility` object of one received message; `receipt` stands for the receipt handle
      its `changeToAsync` acts on. */
  datatype Visibility = Visibility(receipt: nat)

  /** What the headers hold under the visibility-timeout key. */
  datatype VisibilityHeader =
    | Absent                             // no header, or a null value
    | Foreign                            // an object that is not a `Visibility`
    | Present(visibility: Visibility)

  /** A message as far as error handling is concerned. `id` tells apart messages whose headers are
      alike; `receiveCount` is the `SQS_APPROXIMATE_RECEIVE_COUNT` header, a string when present. */
  datatype Message = Message(id: nat, visibilityHeader: VisibilityHeader, receiveCount: Option<string>)

  predicate HasVisibility(m: Message) {
    m.visibilityHeader.Present?
  }

  /** Why an operation failed. */
  datatype Cause =
    | InvalidVisibilityHeader            // RuntimeException("Invalid visibility header")
    | HeaderLookupFailed                 // the typed header lookup found no `Visibility`
    | ChangeRejected(code: nat)          // the queue client could not change the visibility
    | ListenerFailure(code: nat)         // the exception listener processing raised

  /** One call `visibility.changeToAsync(seconds)` on the `Visibility` header of `message`. */
  datatype ChangeRequest = ChangeRequest(message: Message, seconds: int)

  /** Taking one more message extends the prefix by that message. */
  lemma TakeOneMore(ms: seq<Message>, k: nat)
    requires k < |ms|
    ensures ms[..k + 1] == ms[..k] + [ms[k]]
  {
  }

  /** Change requests setting the visibility timeout of each of `ms`, in order, to zero. */
  function ZeroRequests(ms: seq<Message>): (r: seq<ChangeRequest>)
    ensures |r| == |ms|
    ensures forall i :: 0 <= i < |ms| ==> r[i].message == ms[i] && r[i].seconds == 0
  {
    seq(|ms|, i requires 0 <= i < |ms| => ChangeRequest(ms[i], 0))
  }

  lemma ZeroRequestsAppend(a: seq<Message>, b: seq<Message>)
    ensures ZeroRequests(a + b) == ZeroRequests(a) + ZeroRequests(b)
  {
  }

  /** The messages of `ms` that carry a `Visibility` header, in their order. */
  function WithVisibility(ms: seq<Message>): (r: seq<Message>)
    ensures |r| <= |ms|
    ensures (forall i :: 0 <= i < |ms| ==> HasVisibility(ms[i])) ==> r == ms
    ensures (forall i :: 0 <= i < |ms| ==> !HasVisibility(ms[i])) ==> r == []
  {
    if ms == [] then []
    else
      var rest := WithVisibility(ms[1..]);
      assert forall i :: 1 <= i < |ms| ==> ms[i] == ms[1..][i - 1];
      (if HasVisibility(ms[0]) then [ms[0]] else []) + rest
  }

  lemma {:induction false} WithVisibilityAppend(a: seq<Message>, b: seq<Message>)
    ensures WithVisibility(a + b) == WithVisibility(a) + WithVisibility(b)
  {
    if a == [] {
      assert a + b == b;
    } else {
      var rest := a[1..];
      var head := if HasVisibility(a[0]) then [a[0]] else [];
      assert (a + b)[0] == a[0] && (a + b)[1..] == rest + b;
      WithVisibilityAppend(rest, b);
      assert WithVisibility(a + b) == head + WithVisibility(rest + b);
      assert WithVisibility(a) == head + WithVisibility(rest);
      assert head + (WithVisibility(rest) + WithVisibility(b)) == (head + WithVisibility(rest)) + WithVisibility(b);
    }
  }

  /** A headerless message at the front of `ms` is dropped. */
  lemma WithVisibilityInvalidHead(ms: seq<Message>)
    requires ms != [] && !HasVisibility(ms[0])
    ensures WithVisibility(ms) == WithVisibility(ms[1..])
  {
  }

  /** The number of messages of `ms` that carry a `Visibility` header. */
  function CountWithVisibility(ms: seq<Message>): (n: nat)
    ensures n <= |ms|
  {
    if ms == [] then 0
    else (if HasVisibility(ms[0]) then 1 else 0) + CountWithVisibility(ms[1..])
  }

  lemma {:induction false} WithVisibilityCount(ms: seq<Message>)
    ensures |WithVisibility(ms)| == CountWithVisibility(ms)
  {
    if ms != [] {
      WithVisibilityCount(ms[1..]);
    }
  }
}
