/** Domain events and the in-process publisher that carries them.
    Spring's ApplicationEventPublisher is reduced to the ordered list of
    events it has delivered, plus the exception (if any) that a
    synchronously invoked subscriber throws back at the publisher. */
module Events {
  import opened Common

  /** The order's customer; never null itself, but each field may be. */
  datatype Customer = Customer(name: Option<string>, email: Option<string>, phone: Option<string>)

  datatype Event =
    | OrderCreatedEvent(orderNumber: Option<string>, productCode: Option<string>,
                        quantity: Int32, customer: Customer)
    | OrderCompleted(orderId: Uuid)

  class EventPublisher {
    /** Every event delivered so far, oldest first. */
    var published: seq<Event>
    /** What a subscriber throws from inside publishEvent; None when all subscribers return. */
    var fault: Option<Exception>

    constructor (fault: Option<Exception>)
      ensures published == [] && this.fault == fault
    {
      published := [];
      this.fault := fault;
    }

    /** publishEvent: delivers `e`, or rethrows the subscriber's exception and records nothing. */
    method Publish(e: Event) returns (r: Outcome<Exception>)
      modifies this`published
      ensures r == (if fault.Some? then Fail(fault.value) else Pass)
      ensures published == if r.Pass? then old(published) + [e] else old(published)
    {
      if fault.Some? {
        r := Fail(fault.value);
      } else {
        published := published + [e];
        r := Pass;
      }
    }
  }
}
