/** OrderManagement.complete(orderId): reject a null id, publish one
    OrderCompleted, and wrap a failing publish in OrderCompletionException.
    The order status update is still a TODO in the service, so publishing is
    the whole effect. */
module Orders {
  import opened Common
  import opened Events

  /** The message of Assert.notNull(orderId, ...). */
  const NULL_ID_MESSAGE: string := "Order ID must not be null"

  const COMPLETION_PREFIX: string := "Failed to complete order: "

  /** How `complete` ends for an id and the publisher's subscriber behaviour. */
  function CompleteOutcome(orderId: Option<Uuid>, fault: Option<Exception>): (r: Outcome<Exception>)
    ensures r.Pass? <==> orderId.Some? && fault.None?
    ensures r.Fail? ==> r.error.IllegalArgument? || r.error.OrderCompletion?
  {
    if orderId.None? then Fail(IllegalArgument(NULL_ID_MESSAGE))
    else if fault.Some? then Fail(OrderCompletion(COMPLETION_PREFIX + UuidText(orderId.value), fault.value))
    else Pass
  }

  /** `complete` throws only the two documented exceptions: IllegalArgumentException
      exactly for a null id, OrderCompletionException (carrying the id in its message
      and the subscriber's exception as cause) exactly when publishing fails. */
  lemma CompleteOutcomeKinds(orderId: Option<Uuid>, fault: Option<Exception>)
    ensures var r := CompleteOutcome(orderId, fault);
            (r.Pass? <==> orderId.Some? && fault.None?) &&
            (r.Fail? ==> r.error.IllegalArgument? || r.error.OrderCompletion?) &&
            (r.Fail? && r.error.IllegalArgument? <==> orderId.None?) &&
            (r.Fail? && r.error.OrderCompletion? <==> orderId.Some? && fault.Some?)
    ensures orderId.Some? && fault.Some? ==>
              CompleteOutcome(orderId, fault).error.cause == fault.value &&
              CompleteOutcome(orderId, fault).error.message == COMPLETION_PREFIX + UuidText(orderId.value)
  {
  }

  /** Stripping a common prefix. */
  lemma PrefixCancels(p: string, x: string, y: string)
    requires p + x == p + y
    ensures x == y
  {
    assert x == (p + x)[|p|..];
    assert y == (p + y)[|p|..];
  }

  /** The wrapping exception's message identifies the order that failed. */
  lemma CompletionMessageNamesOrder(a: Uuid, b: Uuid, fault: Exception)
    requires CompleteOutcome(Some(a), Some(fault)).error.message == CompleteOutcome(Some(b), Some(fault)).error.message
    ensures a == b
  {
    PrefixCancels(COMPLETION_PREFIX, UuidText(a), UuidText(b));
    UuidTextInjective(a, b);
  }

  class OrderManagement {
    const events: EventPublisher

    constructor (events: EventPublisher)
      ensures this.events == events
    {
      this.events := events;
    }

    /** complete: on success exactly one OrderCompleted(orderId) is published and
        nothing else changes; on failure nothing is published. */
    method Complete(orderId: Option<Uuid>) returns (r: Outcome<Exception>)
      modifies events`published
      ensures r == CompleteOutcome(orderId, events.fault)
      ensures events.published == if r.Pass? then old(events.published) + [OrderCompleted(orderId.value)]
                                  else old(events.published)
    {
      if orderId.None? {
        return Fail(IllegalArgument(NULL_ID_MESSAGE));
      }
      var published := events.Publish(OrderCompleted(orderId.value));
      if published.Fail? {
        return Fail(OrderCompletion(COMPLETION_PREFIX + UuidText(orderId.value), published.error));
      }
      return Pass;
    }
  }
}
