/** OrderController.complete(id): call OrderManagement.complete once and turn
    how it ended into an HTTP status and body; nothing escapes. */
module Controller {
  import opened Common
  import opened Events
  import opened Orders

  datatype Response = Response(status: int, body: string)

  const ACCEPTED := 202
  const BAD_REQUEST := 400
  const INTERNAL_SERVER_ERROR := 500

  /** The catch clauses of the order.api snapshot, in their order. */
  function Respond(id: Option<Uuid>, outcome: Outcome<Exception>): (r: Response)
    ensures r.status == ACCEPTED || r.status == BAD_REQUEST || r.status == INTERNAL_SERVER_ERROR
    ensures r.status == BAD_REQUEST <==> outcome.Fail? && outcome.error.IllegalArgument?
    ensures outcome.Pass? ==> r.body == "Order " + IdText(id) + " completed (event published)"
    ensures outcome.Fail? && outcome.error.OrderCompletion? ==>
              r == Response(INTERNAL_SERVER_ERROR, "Failed to complete order " + IdText(id) + ": " + outcome.error.message)
    ensures outcome.Fail? && outcome.error.IllegalArgument? ==> r.body == "Invalid order ID: " + outcome.error.message
    ensures outcome.Fail? && !outcome.error.IllegalArgument? && !outcome.error.OrderCompletion? ==>
              r == Response(INTERNAL_SERVER_ERROR, "Unexpected error occurred while completing order " + IdText(id))
  {
    match outcome
    case Pass => Response(ACCEPTED, "Order " + IdText(id) + " completed (event published)")
    case Fail(OrderCompletion(message, _)) =>
      Response(INTERNAL_SERVER_ERROR, "Failed to complete order " + IdText(id) + ": " + message)
    case Fail(IllegalArgument(message)) => Response(BAD_REQUEST, "Invalid order ID: " + message)
    case Fail(_) => Response(INTERNAL_SERVER_ERROR, "Unexpected error occurred while completing order " + IdText(id))
  }

  /** The same mapping as written in the earlier domain.order snapshot. */
  function LegacyRespond(id: Option<Uuid>, outcome: Outcome<Exception>): (r: Response)
    ensures r.status == 202 <==> outcome.Pass?
  {
    if outcome.Pass? then Response(202, "Order " + IdText(id) + " completed (event published)")
    else if outcome.error.OrderCompletion? then
      Response(500, "Failed to complete order " + IdText(id) + ": " + outcome.error.message)
    else if outcome.error.IllegalArgument? then Response(400, "Invalid order ID: " + outcome.error.message)
    else Response(500, "Unexpected error occurred while completing order " + IdText(id))
  }

  /** Both snapshots answer every outcome identically. */
  lemma SnapshotsRespondAlike(id: Option<Uuid>, outcome: Outcome<Exception>)
    ensures LegacyRespond(id, outcome) == Respond(id, outcome)
  {
  }

  /** The status tells the outcome's kind: 202 exactly on success, 400 exactly for
      IllegalArgumentException, 500 for every other exception. */
  lemma StatusClassifiesOutcome(id: Option<Uuid>, outcome: Outcome<Exception>)
    ensures Respond(id, outcome).status == ACCEPTED <==> outcome.Pass?
    ensures Respond(id, outcome).status == BAD_REQUEST <==> outcome.Fail? && outcome.error.IllegalArgument?
    ensures Respond(id, outcome).status == INTERNAL_SERVER_ERROR <==> outcome.Fail? && !outcome.error.IllegalArgument?
  {
  }

  /** The 202 body names the order: two ids with the same confirmation are the same id. */
  lemma AcceptedBodyNamesOrder(a: Option<Uuid>, b: Option<Uuid>)
    requires Respond(a, Pass).body == Respond(b, Pass).body
    ensures a == b
  {
    var x, y := IdText(a), IdText(b);
    InfixCancels("Order ", x, y, " completed (event published)");
    IdTextInjective(a, b);
  }

  /** Stripping a common prefix and suffix. */
  lemma InfixCancels(p: string, x: string, y: string, q: string)
    requires p + x + q == p + y + q
    ensures x == y
  {
    assert |x| == |y|;
    assert x == (p + x + q)[|p|..|p| + |x|];
    assert y == (p + y + q)[|p|..|p| + |y|];
  }

  /** What the endpoint answers, composed with OrderManagement.complete: a null id
      is a 400 carrying Assert's message, a failing publish a 500 naming the order
      twice, otherwise a 202; a 500 only ever comes from a failing publish, so the
      catch-all clause is never reached through the real service. */
  lemma CompletionResponses(id: Option<Uuid>, fault: Option<Exception>)
    ensures var r := Respond(id, CompleteOutcome(id, fault));
            (id.None? ==> r == Response(BAD_REQUEST, "Invalid order ID: " + NULL_ID_MESSAGE)) &&
            (id.Some? && fault.Some? ==>
               r == Response(INTERNAL_SERVER_ERROR, "Failed to complete order " + UuidText(id.value) + ": "
                             + COMPLETION_PREFIX + UuidText(id.value))) &&
            (id.Some? && fault.None? ==>
               r == Response(ACCEPTED, "Order " + UuidText(id.value) + " completed (event published)")) &&
            (r.status == INTERNAL_SERVER_ERROR ==> id.Some? && fault.Some?)
  {
  }

  class OrderController {
    const orders: OrderManagement

    constructor (orders: OrderManagement)
      ensures this.orders == orders
    {
      this.orders := orders;
    }

    /** complete: one call of orders.complete, whose outcome decides the answer;
        the publisher changes exactly as that call changes it. */
    method Complete(id: Option<Uuid>) returns (response: Response)
      modifies orders.events`published
      ensures response == Respond(id, CompleteOutcome(id, orders.events.fault))
      ensures orders.events.published ==
                if id.Some? && orders.events.fault.None?
                then old(orders.events.published) + [OrderCompleted(id.value)]
                else old(orders.events.published)
    {
      var outcome := orders.Complete(id);
      response := Respond(id, outcome);
    }
  }
}
