# Order pipeline of spring-monolith-amqp-poc, in Dafny

This project models the behaviour of the order pipeline of the Spring/RabbitMQ
demo `spring-monolith-amqp-poc` and proves properties of that model:

- **Inbound new orders** (`InboundNewOrderListener.onMessage`). A `new-orders`
  payload is decoded into a `NewOrderMessage`, translated field for field into an
  `OrderCreatedEvent` and published. Every exception is swallowed.
- **The payload records** (`NewOrderMessage`, `NewOrderCustomer`). Jackson binds
  them with unknown properties ignored at both levels.
- **Bounded retry with acknowledgement** (`processWithAck` and the overridable
  `handle`). `handle` runs until it returns normally or the attempt budget is
  spent. Then exactly one of `ack` and `reject` fires.
- **The UUID adapter** (`InboundAmqpAdapter.onMessage`). It trims the payload,
  parses it as a UUID and publishes `OrderCompleted`. Only
  `IllegalArgumentException` is swallowed.
- **Order completion** (`OrderManagement.complete`). A null id is rejected,
  exactly one `OrderCompleted` is published, and a failing publish is wrapped in
  `OrderCompletionException`.
- **The completion endpoint** (`OrderController.complete`). It maps how
  `complete` ended to an HTTP status and body, and never throws.

Spring's `ApplicationEventPublisher` is the class `Events.EventPublisher`. It
holds the list of events delivered so far (`published`) and the exception a
synchronously called subscriber throws (`fault`), if any. Java exceptions become
`Outcome`/`Result` values. A Java `null` becomes `Option.None`.

The repository keeps two snapshots of the listener, the service and the
controller, under different packages. For the pure parts, each snapshot is
transcribed separately and proved equal: `LegacyToEvent` equals `ToEvent`, and
`LegacyRespond` equals `Respond`. The two `OrderManagement.complete` methods
(`order/app` and `domain/order`) differ only in their logger, so one method,
`Orders.OrderManagement.Complete`, models both. The same holds for the two
`onMessage` methods.

Files: `common.dfy` (Java values, UUID text), `events.dfy`,
`new_order_message.dfy`, `new_order_listener.dfy`, `retry_listener.dfy`,
`amqp_adapter.dfy`, `order_management.dfy`, `order_controller.dfy`.

Behaviour of the code worth knowing, which the model follows:

- A missing or null `orderNumber` or `productCode` binds to null, and a missing
  or null `quantity` binds to 0, so such payloads decode.
- A missing `customer` still yields a `Customer` in the event, with three null
  fields.
- The literal payload `null` decodes to a null message. `dto.customer()` then
  throws a `NullPointerException`, which the catch-all logs; nothing is published.

## Model

| member | source | states |
|---|---|---|
| `Events.EventPublisher.Publish` | src/test/java/com/example/modulithdemo/messaging/inbound/amqp/InboundNewOrderListenerTests.java:16-19 | publishing appends the event to the delivered list, or rethrows the subscriber's exception and records nothing |
| `NewOrderMessages.StringField` | src/main/java/com/example/modulithdemo/messaging/inbound/amqp/NewOrderMessage.java:7-8 | an absent or null `String` component binds to null; a JSON string binds to its text; any other value is a decoding error |
| `NewOrderMessages.IntField` | src/main/java/com/example/modulithdemo/messaging/inbound/amqp/NewOrderMessage.java:9 | an absent or null `quantity` binds to 0; a number binds exactly when it fits in a Java int, and then to that number; any other value is a decoding error |
| `NewOrderMessages.DecodeCustomer` | src/main/java/com/example/modulithdemo/messaging/inbound/amqp/NewOrderMessage.java:12-17 | a null customer binds to null, a non-object is an error, an object binds exactly when name, email and phone each bind, to a customer holding those three values; every error is a JSON processing error |
| `NewOrderMessages.DecodeMessage` | src/main/java/com/example/modulithdemo/messaging/inbound/amqp/NewOrderMessage.java:5-17 | the literal null binds to a null message, a non-object is an error, an object binds to a non-null message exactly when its four components bind, and the message holds the bound components (a missing `customer` as null); every error is a JSON processing error |
| `NewOrderMessages.DecodeEncode` | src/main/java/com/example/modulithdemo/messaging/inbound/amqp/NewOrderMessage.java:6-17 | decoding a serialised message gives back the same message |
| `NewOrderMessages.DecodeSeesOnlyKnownKeys` | src/main/java/com/example/modulithdemo/messaging/inbound/amqp/NewOrderMessage.java:5-17 | the decoded message or error depends only on the four known keys and on name, email and phone inside `customer` |
| `NewOrderMessages.UnknownTopLevelKeyIgnored` | src/main/java/com/example/modulithdemo/messaging/inbound/amqp/NewOrderMessage.java:5 | adding any key outside orderNumber, productCode, quantity and customer leaves decoding unchanged |
| `NewOrderMessages.UnknownCustomerKeyIgnored` | src/main/java/com/example/modulithdemo/messaging/inbound/amqp/NewOrderMessage.java:12-17 | adding any key other than name, email and phone inside `customer` leaves decoding unchanged |
| `NewOrderMessages.MissingCustomerIsNull` | src/main/java/com/example/modulithdemo/messaging/inbound/amqp/NewOrderMessage.java:10 | a missing or null `customer` is not a decoding error and yields a message with a null customer |
| `NewOrderListener.ReadValue` | src/main/java/com/example/modulithdemo/messaging/inbound/amqp/InboundNewOrderListener.java:31 | text that is not JSON makes `readValue` throw |
| `NewOrderListener.CustomerOf` | src/main/java/com/example/modulithdemo/messaging/inbound/amqp/InboundNewOrderListener.java:32-37 | the event's customer is always built: all fields null for a null customer, otherwise copied unchanged |
| `NewOrderListener.ToEvent` | src/main/java/com/example/modulithdemo/messaging/inbound/amqp/InboundNewOrderListener.java:38-43 | the event is an OrderCreatedEvent carrying the message's order number, product code and quantity, and `CustomerOf` its customer |
| `NewOrderListener.LegacyToEvent` | src/main/java/com/example/modulithdemo/inbound/amqp/InboundNewOrderListener.java:36-47 | the earlier snapshot's translation copies order number, product code and quantity and gives a null customer three null fields (equal to `ToEvent` by `SnapshotsTranslateAlike`) |
| `NewOrderListener.TryPublish` | src/main/java/com/example/modulithdemo/messaging/inbound/amqp/InboundNewOrderListener.java:30-47 | the try block yields an event only when decoding produced a message and no subscriber threw, and then it is the message's translation; a decoding error is what is caught; a null message is caught as a NullPointerException |
| `NewOrderListener.ToEventLosesOnlyNullCustomer` | src/main/java/com/example/modulithdemo/messaging/inbound/amqp/InboundNewOrderListener.java:32-43 | two messages give the same event iff they agree on every field once a null customer is read as one with three null fields; so the translation keeps all information except that |
| `NewOrderListener.SnapshotsTranslateAlike` | src/main/java/com/example/modulithdemo/inbound/amqp/InboundNewOrderListener.java:36-47 | the earlier snapshot's translation gives the same event for every message |
| `NewOrderListener.PublishesOnlyDecodedMessages` | src/main/java/com/example/modulithdemo/inbound/amqp/InboundNewOrderListener.java:34-52 | an event is published iff decoding produced a message and no subscriber threw; that event is the message's translation; a decoding or publishing error is what gets caught |
| `NewOrderListener.Published` | src/main/java/com/example/modulithdemo/messaging/inbound/amqp/InboundNewOrderListener.java:44 | one call leaves at most one event, one exactly when the try block completed, and then it is that block's event |
| `NewOrderListener.InboundNewOrderListener.OnMessage` | src/main/java/com/example/modulithdemo/messaging/inbound/amqp/InboundNewOrderListener.java:28-49 | returns normally on every payload; the published list grows by exactly the try block's event, or by nothing while the caught exception is logged |
| `NewOrderListener.ValidJsonPublishesOneEvent` | src/test/java/com/example/modulithdemo/messaging/inbound/amqp/InboundNewOrderListenerTests.java:21-49 | the test's JSON publishes exactly one OrderCreatedEvent with A123, BOOK-001, 2, Alice, alice@example.com, 123 |
| `NewOrderListener.MalformedJsonPublishesNothing` | src/test/java/com/example/modulithdemo/inbound/amqp/InboundNewOrderListenerTests.java:46-56 | "not-json" publishes nothing and onMessage returns normally |
| `RetryListener.InboundNewOrderListener.constructor` | src/test/java/com/example/modulithdemo/messaging/inbound/amqp/InboundNewOrderListenerRetryTests.java:17 | the attempt budget is the third argument of the Java constructor (the first here, as the publisher and mapper are not modelled); all counters start at zero |
| `RetryListener.InboundNewOrderListener.Handle` | src/test/java/com/example/modulithdemo/messaging/inbound/amqp/InboundNewOrderListenerRetryTests.java:18-21 | each call of `handle` bumps `calls` and succeeds or throws as the override decides for that call |
| `RetryListener.InboundNewOrderListener.ProcessWithAck` | src/test/java/com/example/modulithdemo/messaging/inbound/amqp/InboundNewOrderListenerRetryTests.java:28-51 | `calls` grows by the attempts of `Resolve`; exactly one of `acks` and `rejects` grows by one, `acks` iff the delivery is acked |
| `RetryListener.Resolve` | src/test/java/com/example/modulithdemo/messaging/inbound/amqp/InboundNewOrderListenerRetryTests.java:28-51 | a delivery makes no call exactly when the budget is 0, and with no budget it is not acked (bounds and first-success properties in the lemmas below) |
| `RetryListener.AttemptsWithinBudget` | src/test/java/com/example/modulithdemo/messaging/inbound/amqp/InboundNewOrderListenerRetryTests.java:36-51 | a delivery makes at least one and at most `maxAttempts` calls of `handle` |
| `RetryListener.StopsAtFirstSuccess` | src/test/java/com/example/modulithdemo/messaging/inbound/amqp/InboundNewOrderListenerRetryTests.java:19-32 | every attempt but the last failed, and the delivery is acked iff the last one succeeded: no call follows a success |
| `RetryListener.AckedIffSomeAttemptSucceeds` | src/test/java/com/example/modulithdemo/messaging/inbound/amqp/InboundNewOrderListenerRetryTests.java:28-31 | acked iff some call within the budget succeeds (both directions) |
| `RetryListener.RejectedAfterFullBudget` | src/test/java/com/example/modulithdemo/messaging/inbound/amqp/InboundNewOrderListenerRetryTests.java:47-51 | a rejected delivery has used its whole budget |
| `RetryListener.RetriesThenAcks` | src/test/java/com/example/modulithdemo/messaging/inbound/amqp/InboundNewOrderListenerRetryTests.java:13-33 | budget 3 with `Flaky`, the test's FlakyListener `handle` override (lines 18-21), failing twice then succeeding: 3 calls, 1 ack, 0 rejects |
| `RetryListener.RetriesThenRejects` | src/test/java/com/example/modulithdemo/messaging/inbound/amqp/InboundNewOrderListenerRetryTests.java:35-52 | budget 3 with `AlwaysFail`, the test's always-throwing `handle` override (line 40): 3 calls, 0 acks, 1 reject |
| `AmqpAdapter.SkipLeading` | src/main/java/com/example/modulithdemo/inbound/amqp/InboundAmqpAdapter.java:27 | `trim` starts at the first character above U+0020; all before it are blanks |
| `AmqpAdapter.SkipTrailing` | src/main/java/com/example/modulithdemo/inbound/amqp/InboundAmqpAdapter.java:27 | `trim` ends after the last character above U+0020; all after it are blanks |
| `AmqpAdapter.Trim` | src/main/java/com/example/modulithdemo/inbound/amqp/InboundAmqpAdapter.java:27 | the trimmed payload is no longer than the payload and neither starts nor ends with a character up to U+0020 (characterised exactly by `TrimIsTheCore`) |
| `AmqpAdapter.Delivered` | src/main/java/com/example/modulithdemo/inbound/amqp/InboundAmqpAdapter.java:27-28 | at most one event is published, and only OrderCompleted of the parsed id when no subscriber throws |
| `AmqpAdapter.Escaping` | src/main/java/com/example/modulithdemo/inbound/amqp/InboundAmqpAdapter.java:26-31 | an exception escapes only when the payload parsed and a subscriber threw it, and it is never an IllegalArgumentException |
| `AmqpAdapter.TrimIsTheCore` | src/main/java/com/example/modulithdemo/inbound/amqp/InboundAmqpAdapter.java:27 | any slice with only blanks outside it and non-blank ends is exactly what `trim` returns |
| `AmqpAdapter.TrimIgnoresPadding` | src/main/java/com/example/modulithdemo/inbound/amqp/InboundAmqpAdapter.java:27 | blanks added before or after a payload never change its trimmed form |
| `AmqpAdapter.TrimIdempotent` | src/main/java/com/example/modulithdemo/inbound/amqp/InboundAmqpAdapter.java:27 | trimming twice is trimming once |
| `AmqpAdapter.PaddedPayloadActsAlike` | src/main/java/com/example/modulithdemo/inbound/amqp/InboundAmqpAdapter.java:27 | a padded payload reaches `UUID.fromString` as the same string, so the adapter acts the same |
| `AmqpAdapter.PublishesParsedId` | src/main/java/com/example/modulithdemo/inbound/amqp/InboundAmqpAdapter.java:27-31 | a UUID payload publishes exactly OrderCompleted(id) unless a subscriber throws; a non-UUID publishes nothing and returns normally |
| `AmqpAdapter.OnlyIllegalArgumentIsCaught` | src/main/java/com/example/modulithdemo/inbound/amqp/InboundAmqpAdapter.java:29 | an exception escapes iff a subscriber threw something other than IllegalArgumentException, and it escapes unchanged |
| `AmqpAdapter.InboundAmqpAdapter.OnMessage` | src/main/java/com/example/modulithdemo/inbound/amqp/InboundAmqpAdapter.java:24-32 | the publisher gains `Delivered` of the parsed trimmed payload; what escapes is `Escaping` of the same |
| `Orders.CompleteOutcome` | src/main/java/com/example/modulithdemo/order/app/OrderManagement.java:23-37 | complete returns normally exactly when the id is non-null and no subscriber throws; otherwise it throws IllegalArgumentException or OrderCompletionException and nothing else |
| `Orders.CompleteOutcomeKinds` | src/main/java/com/example/modulithdemo/order/app/OrderManagement.java:23-37 | complete succeeds iff the id is non-null and publishing works; IllegalArgumentException iff the id is null; OrderCompletionException iff publishing failed, with the cause kept and the id in its message; nothing else is thrown |
| `Orders.CompletionMessageNamesOrder` | src/main/java/com/example/modulithdemo/domain/order/OrderManagement.java:33-35 | the wrapping exception's message identifies the order: equal messages mean equal ids |
| `Orders.OrderManagement.Complete` | src/main/java/com/example/modulithdemo/order/app/OrderManagement.java:22-38 | on success exactly OrderCompleted(orderId) is appended and nothing else changes; on any failure nothing is published |
| `Controller.Respond` | src/main/java/com/example/modulithdemo/order/api/OrderController.java:27-47 | the answer is 202, 400 or 500, and 400 exactly when complete threw IllegalArgumentException; the body is "Order <id> completed (event published)" on success, a 500 "Failed to complete order <id>: <message>" for OrderCompletionException, "Invalid order ID: <message>" for IllegalArgumentException, and a 500 "Unexpected error occurred while completing order <id>" for any other exception, with a null id printed as `null` |
| `Controller.LegacyRespond` | src/main/java/com/example/modulithdemo/domain/order/OrderController.java:26-46 | the earlier snapshot answers 202 exactly when complete returned (equal to `Respond` by `SnapshotsRespondAlike`) |
| `Common.UuidText` | src/main/java/com/example/modulithdemo/order/app/OrderManagement.java:36 | a UUID prints as 36 characters with dashes at 8, 13, 18 and 23; distinct UUIDs print differently (`UuidTextInjective`) |
| `Common.IdText` | src/main/java/com/example/modulithdemo/order/api/OrderController.java:29 | a null id prints as `null`, the only four-character text; a non-null id prints as its UUID text; distinct ids print differently (`IdTextInjective`) |
| `Controller.StatusClassifiesOutcome` | src/main/java/com/example/modulithdemo/order/api/OrderController.java:23-48 | 202 iff complete returned, 400 iff it threw IllegalArgumentException, 500 iff it threw anything else |
| `Controller.AcceptedBodyNamesOrder` | src/main/java/com/example/modulithdemo/order/api/OrderController.java:29-32 | the 202 body identifies the order: equal bodies mean equal ids |
| `Controller.CompletionResponses` | src/main/java/com/example/modulithdemo/order/api/OrderController.java:27-47 | composed with the service: null id is 400 "Invalid order ID: Order ID must not be null"; failing publish is 500 naming the id twice; otherwise 202; a 500 only comes from a failing publish |
| `Controller.SnapshotsRespondAlike` | src/main/java/com/example/modulithdemo/domain/order/OrderController.java:22-47 | the earlier snapshot's controller answers every outcome exactly as the later one |
| `Controller.OrderController.Complete` | src/main/java/com/example/modulithdemo/order/api/OrderController.java:22-49 | one call of complete; the answer is `Respond` of how it ended, and the publisher changes only as that call changes it |

## Left out

- JSON text syntax: `ObjectMapper` is reduced to a given parsing function, and decoding starts from the parsed value. Duplicate keys and string escaping are not modelled.
- NewOrderMessages.StringField and NewOrderMessages.IntField: Jackson's scalar coercions are not modelled. A value other than a string or null where a `String` is expected, and a value other than a number or null where the `int` is expected (a numeric string included), is a decoding error here; Jackson would coerce some of these, such as a number to its text or `"2"` to 2.
- Fractional numbers: `Value` holds only integers (`Num(n: int)`), so a fraction is not representable; what becomes of one is up to the given parsing function. Jackson would truncate it to an int.
- `UUID.fromString`: its grammar is a given function (None where it throws). `UUID.toString` is modelled: 32 lower-case hex digits grouped 8-4-4-4-12.
- `AmqpAdapter.InboundAmqpAdapter.OnMessage`: a null payload, which would throw a `NullPointerException` from `trim`, is not modelled; payloads are strings.
- Logging in every class. It only writes text; `onMessage` returns the exception it would log.
- The Spring event machinery: subscriber registration, delivery order among several subscribers, and the events that earlier subscribers saw before a later one threw. One `fault` stands for "some subscriber threw this".
- `@Transactional` on `complete`. The status update is still a TODO, so there is no state to roll back.
- `RetryListener`: the default body of `handle` is not part of this model. `handle` is given by which of its calls succeed, as the tests' overrides do. The `ack`/`reject` callbacks are counters on the listener rather than the caller's lambdas. No backoff or delay exists in the listener's code, so none is modelled.
- `RetryListener.InboundNewOrderListener.constructor`: the budget is typed as a positive number. A budget of 0 is not modelled: the listener class in this repository has no `processWithAck`, so what a budget of 0 does is unknown.
- Listener wiring and topology: `@RabbitListener` queue names, `@Profile("amqp")`, both `NewOrderTopologyConfig.java` files, `RabbitTopologyConfig.java`, `AmqpConstants.java` and `RabbitListenerConfig.java` are configuration only.
- Consumer concurrency, prefetch and the manual-ack transport are left out. They concern concurrency and I/O.
- The log-only listeners (`OrderCreatedEventListener`, `InventoryManagement`) only write logs. `OrderCreatedFlowTests.java` is a threaded integration test.
- HTTP routing and path-variable binding are left out. A malformed path id is rejected by Spring before the controller runs; the controller takes the bound, possibly null, id.
- Java `Error`s (as opposed to `Exception`s) are not modelled.
