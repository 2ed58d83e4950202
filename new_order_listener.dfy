/** InboundNewOrderListener.onMessage: decode a `new-orders` payload, translate
    it field for field into an OrderCreatedEvent, publish it, and swallow every
    exception on the way. */
module NewOrderListener {
  import opened Common
  import opened Events
  import opened NewOrderMessages

  /** ObjectMapper, reduced to its JSON text syntax (`None` for text that is not
      JSON); binding the parsed value to the record is DecodeMessage. */
  datatype ObjectMapper = ObjectMapper(parse: string -> Option<Value>)

  /** objectMapper.readValue(payload, NewOrderMessage.class) */
  function ReadValue(mapper: ObjectMapper, payload: string): (r: Result<Option<NewOrderMessage>>)
    ensures mapper.parse(payload).None? ==> r == Err(JsonProcessing)
  {
    match mapper.parse(payload)
    case None => Err(JsonProcessing)
    case Some(v) => DecodeMessage(v)
  }

  /** The event's customer: always constructed, all three fields null when the
      message has no customer. */
  function CustomerOf(c: Option<NewOrderCustomer>): (r: Customer)
    ensures c.None? ==> r.name.None? && r.email.None? && r.phone.None?
    ensures c.Some? ==> r.name == c.value.name && r.email == c.value.email && r.phone == c.value.phone
  {
    Customer(
      if c.Some? then c.value.name else None,
      if c.Some? then c.value.email else None,
      if c.Some? then c.value.phone else None)
  }

  /** The DTO-to-event translation of the messaging snapshot. */
  function ToEvent(dto: NewOrderMessage): (e: Event)
    ensures e.OrderCreatedEvent?
    ensures e.orderNumber == dto.orderNumber && e.productCode == dto.productCode
    ensures e.quantity == dto.quantity
    ensures e.customer == CustomerOf(dto.customer)
  {
    OrderCreatedEvent(dto.orderNumber, dto.productCode, dto.quantity, CustomerOf(dto.customer))
  }

  /** The same translation as written in the earlier inbound.amqp snapshot. */
  function LegacyToEvent(dto: NewOrderMessage): (e: Event)
    ensures e.OrderCreatedEvent?
    ensures e.orderNumber == dto.orderNumber && e.productCode == dto.productCode && e.quantity == dto.quantity
    ensures dto.customer.None? ==> e.customer == Customer(None, None, None)
  {
    var c := dto.customer;
    var customer := Customer(
      if c != None then c.value.name else None,
      if c != None then c.value.email else None,
      if c != None then c.value.phone else None);
    OrderCreatedEvent(dto.orderNumber, dto.productCode, dto.quantity, customer)
  }

  /** Both snapshots translate every message to the same event. */
  lemma SnapshotsTranslateAlike(dto: NewOrderMessage)
    ensures LegacyToEvent(dto) == ToEvent(dto)
  {
  }

  /** The only messages the translation confuses are a null customer and a customer
      whose three fields are null; otherwise distinct messages give distinct events. */
  lemma ToEventLosesOnlyNullCustomer(d1: NewOrderMessage, d2: NewOrderMessage)
    ensures ToEvent(d1) == ToEvent(d2) <==>
              d1.(customer := None) == d2.(customer := None) &&
              CustomerOf(d1.customer) == CustomerOf(d2.customer)
    ensures d1.customer.Some? == d2.customer.Some? ==> (ToEvent(d1) == ToEvent(d2) <==> d1 == d2)
  {
    if d1.customer.Some? && d2.customer.Some? && CustomerOf(d1.customer) == CustomerOf(d2.customer) {
      assert d1.customer.value == d2.customer.value;
    }
  }

  /** What the try block of onMessage does with the outcome of readValue and the
      publisher: Ok(e) when `e` was published, Err(x) when `x` was caught. */
  function TryPublish(read: Result<Option<NewOrderMessage>>, fault: Option<Exception>): (r: Result<Event>)
    ensures r.Ok? ==> read.Ok? && read.value.Some? && fault.None? && r.value == ToEvent(read.value.value)
    ensures read.Err? ==> r == Err(read.error)
    ensures read == Ok(None) ==> r == Err(NullPointer)
  {
    match read
    case Err(x) => Err(x)
    case Ok(None) => Err(NullPointer)      // dto.customer() on a null dto
    case Ok(Some(dto)) =>
      if fault.Some? then Err(fault.value) else Ok(ToEvent(dto))
  }

  /** Publishing happens only after decoding produced a message, and then it
      publishes exactly that message's translation unless a subscriber throws. */
  lemma PublishesOnlyDecodedMessages(read: Result<Option<NewOrderMessage>>, fault: Option<Exception>)
    ensures TryPublish(read, fault).Ok? <==> read.Ok? && read.value.Some? && fault.None?
    ensures TryPublish(read, fault).Ok? ==> TryPublish(read, fault).value == ToEvent(read.value.value)
    ensures read.Err? ==> TryPublish(read, fault) == Err(read.error)
    ensures read.Ok? && read.value.Some? && fault.Some? ==> TryPublish(read, fault) == Err(fault.value)
  {
  }

  /** The events a call of onMessage leaves on the publisher: none or one. */
  function Published(r: Result<Event>): (s: seq<Event>)
    ensures |s| <= 1
    ensures |s| == 1 <==> r.Ok?
    ensures r.Ok? ==> s == [r.value]
  {
    if r.Ok? then [r.value] else []
  }

  class InboundNewOrderListener {
    const events: EventPublisher
    const objectMapper: ObjectMapper

    constructor (events: EventPublisher, objectMapper: ObjectMapper)
      ensures this.events == events && this.objectMapper == objectMapper
    {
      this.events := events;
      this.objectMapper := objectMapper;
    }

    /** onMessage returns normally on every input; `logged` is the exception that
        the catch-all block logs, and the publisher gains at most one event. */
    method OnMessage(payload: string) returns (logged: Option<Exception>)
      modifies events`published
      ensures var r := TryPublish(ReadValue(objectMapper, payload), events.fault);
              events.published == old(events.published) + Published(r) &&
              logged == (if r.Ok? then None else Some(r.error))
    {
      var dto := ReadValue(objectMapper, payload);
      if dto.Err? {
        return Some(dto.error);
      }
      if dto.value.None? {
        return Some(NullPointer);
      }
      var event := ToEvent(dto.value.value);
      var published := events.Publish(event);
      if published.Fail? {
        return Some(published.error);
      }
      return None;
    }
  }

  // ---------------------------------------------------------------------------
  // The listener's unit tests, as scenarios
  // ---------------------------------------------------------------------------

  const VALID_PAYLOAD: string :=
    "{\"orderNumber\":\"A123\",\"productCode\":\"BOOK-001\",\"quantity\":2,"
    + "\"customer\":{\"name\":\"Alice\",\"email\":\"alice@example.com\",\"phone\":\"123\"}}"

  /** The parsed form of VALID_PAYLOAD. */
  const VALID_JSON: Value := Obj(map[
    "orderNumber" := Str("A123"),
    "productCode" := Str("BOOK-001"),
    "quantity" := Num(2),
    "customer" := Obj(map["name" := Str("Alice"), "email" := Str("alice@example.com"), "phone" := Str("123")])])

  /** A JSON syntax that knows the tests' one valid document and rejects "not-json". */
  function TestSyntax(text: string): (v: Option<Value>)
  {
    if text == VALID_PAYLOAD then Some(VALID_JSON) else None
  }

  /** A valid payload publishes exactly one OrderCreatedEvent with all five fields
      reproduced, and nothing is logged. */
  method ValidJsonPublishesOneEvent() returns (published: seq<Event>, logged: Option<Exception>)
    ensures logged == None
    ensures published == [OrderCreatedEvent(Some("A123"), Some("BOOK-001"), 2,
                           Customer(Some("Alice"), Some("alice@example.com"), Some("123")))]
  {
    var publisher := new EventPublisher(None);
    var listener := new InboundNewOrderListener(publisher, ObjectMapper(TestSyntax));
    logged := listener.OnMessage(VALID_PAYLOAD);
    published := publisher.published;
  }

  /** "not-json" is logged as a JSON processing failure and publishes nothing. */
  method MalformedJsonPublishesNothing() returns (published: seq<Event>, logged: Option<Exception>)
    ensures logged == Some(JsonProcessing)
    ensures published == []
  {
    var publisher := new EventPublisher(None);
    var listener := new InboundNewOrderListener(publisher, ObjectMapper(TestSyntax));
    assert "not-json" != VALID_PAYLOAD;
    logged := listener.OnMessage("not-json");
    published := publisher.published;
  }
}
