/** The client side of the broker, as the two hooks use it: the calls they
    make on the shared client and on a channel object, and what a call that
    throws does to a sequence of calls. */
module Channel {

  /** Pusher's own event names that the hooks bind. */
  const SUBSCRIPTION_SUCCEEDED := "pusher:subscription_succeeded"
  const SUBSCRIPTION_ERROR := "pusher:subscription_error"
  const MEMBER_ADDED := "pusher:member_added"
  const MEMBER_REMOVED := "pusher:member_removed"

  /** `CHANNELS.CHAT` and `EVENTS.CHAT.TYPING`. Their values live in
      lib/pusher/constants.ts, which is not part of this model, so they are
      parameters. */
  datatype ChatNames = ChatNames(chat: string, typingEvent: string)

  /** One call on the broker client (`setUserData`, `subscribe`,
      `unsubscribe`) or on a channel object (`bind`, `unbind_all`). */
  datatype ChannelOp =
    | SetUserData(userData: string)
    | Subscribe(channel: string)
    | Bind(event: string)
    | UnbindAll
    | Unsubscribe(channel: string)

  /** A JavaScript `Error`, reduced to its message. */
  datatype Failure = Failure(message: string)

  /** The value a `throw` carries: an `Error` or anything else. */
  datatype Thrown = ThrownError(error: Failure) | ThrownValue

  /** How a planned sequence of broker calls goes: all return normally, or
      the call at index `step` throws `thrown` and the rest are skipped. */
  datatype CallOutcome = Completes | ThrowsAt(step: nat, thrown: Thrown)

  /** `outcome` can happen to `planned`: a throw comes from one of its calls.
      Nothing else that could throw follows the last call inside a `try`. */
  predicate Fits(planned: seq<ChannelOp>, outcome: CallOutcome)
  {
    outcome.ThrowsAt? ==> outcome.step < |planned|
  }

  /** The calls of `planned` that returned normally under `outcome`. A
      hook's log records these only: the call that throws is not in it. */
  function Completed(planned: seq<ChannelOp>, outcome: CallOutcome): (done: seq<ChannelOp>)
    requires Fits(planned, outcome)
    ensures done <= planned
    ensures outcome.Completes? ==> done == planned
    ensures outcome.ThrowsAt? ==> |done| == outcome.step < |planned|
  {
    match outcome
    case Completes => planned
    case ThrowsAt(step, _) => planned[..step]
  }

  /** The calls of a channel cleanup: every binding goes, then the
      subscription, and nothing else. */
  function ReleaseCalls(channel: string): (calls: seq<ChannelOp>)
    ensures |calls| == 2
    ensures calls[0] == UnbindAll && calls[|calls| - 1] == Unsubscribe(channel)
    ensures forall op :: op in calls ==> op == UnbindAll || op == Unsubscribe(channel)
  {
    [UnbindAll, Unsubscribe(channel)]
  }
}
