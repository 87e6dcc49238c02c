/**
 * The three slots a pipeline keeps in the shared store for one resource:
 * the message list (MessagesKey), the raw state scalar (StateKey) and the
 * last-failure record (FailureKey). An absent list and an empty list are
 * the same to the store, so the list is a plain sequence.
 */
module Store {
  import opened Wrappers

  /** The record kept in the failure slot (RedisPipelineFailure). */
  datatype Failure = Failure(exception: string, message: string, timestamp: int)

  /** The value of the three slots at one moment. */
  datatype Snapshot = Snapshot(messages: seq<string>, state: Option<string>, failure: Option<Failure>)

  /** A resource no one has written to, or one that has been cleaned. */
  const Empty: Snapshot := Snapshot([], None, None)

  /** The shared store, updated in place by consumers and admins. */
  class Store {
    var messages: seq<string>
    var state: Option<string>
    var failure: Option<Failure>

    /** The current value of the three slots. */
    function Snap(): Snapshot
      reads this
    {
      Snapshot(messages, state, failure)
    }

    constructor ()
      ensures Snap() == Empty
    {
      messages, state, failure := [], None, None;
    }
  }
}
