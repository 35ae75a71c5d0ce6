# Order submission and the shared Kafka producer, modelled in Dafny

This project models the two pieces of logic beneath the order endpoint of a
Next.js shop.

- **`OrderCreate`** (`order_create.dfy`) models the `POST /api/order/create` handler.
  It checks the caller and the request body, then prices the items against the product catalogue.
  Unknown products and quantities that are NaN or not above zero are skipped silently.
  It rejects a total that is not positive and adds a truncated 2% surcharge.
  It then sends one `OrderCreated` event to the Kafka topic `"orders"`, keyed by the user id.
  Finally it clears the user's cart on a best-effort basis.
  Each collaborator is an abstract outcome held in a `World` value:
  - the database connection;
  - the catalogue lookup (`NotFound | Found(price) | Throws`);
  - obtaining the producer and sending;
  - the cart save.

  The random event id, the clock and the currency come in as an `Env` value.
  `Submit` states the whole handler as a function, and its postconditions state each failure outcome.
  `Post` is the handler written step by step, with the pricing loop in `PriceItems`; it is proved to compute `Submit`.
- **`KafkaProducer`** (`kafka_producer.dfy`) models the module-level singleton producer.
  The class `ProducerLifecycle` holds the two variables `producerInstance` (`instance`) and `producerConnecting` (`connecting`).
  It also holds a ghost count of the connects started.
  `getProducer` is split at its `await producer.connect()`:
  - `Acquire` returns `Ready(h)`, `MustWait` or `StartedConnect`;
  - `CompleteConnect(ok, h)` finishes the connect.

  `OnDisconnectEvent` is the `producer.disconnect` handler and `Release(ok)` is `disconnectProducer`.
  The invariant `Valid()` says a producer is never held while a connect is in flight.
  Four client methods show the promised behaviour over sequences of steps.

Money is in integer cents. `Wrappers` (`wrappers.dfy`) holds the `Option` type.

Facts about the handler's code that the model keeps:
- The handler writes no order record before publishing and has no `FailedToPublish` status (app/api/order/create/route.js:99-125).
- The event type is `"OrderCreated"` (app/api/order/create/route.js:82).
- The payload carries the user id, the address, the items, the amount, the currency, the order date and the status `"PENDING"`. It carries no order id (app/api/order/create/route.js:84-95).
- The database connection and the JSON body are read before the authentication check (app/api/order/create/route.js:15-20). If either throws, the catch-all 500 comes even for an unauthenticated caller.

## Model

| member | source | states |
|---|---|---|
| `OrderCreate.Submit` | app/api/order/create/route.js:10-154 | The outcome of each stage. DB connect or body read throws: 500 with no effects. No truthy `userId`: 401. Missing address or empty or non-array `items`: 400 "Invalid order data". A throwing lookup: 500 "Failed to calculate order amount.". A base of zero or less: 400 "Could not determine valid order total.". None of these sends or clears anything. Past them, exactly one send call (none if the producer cannot be obtained) goes to `"orders"`, keyed by the user. It carries `OrderTotal(base)` and one payload item per request item, in order. Success holds iff the send is delivered. The cart is cleared iff the handler succeeded and the user was saved. |
| `OrderCreate.Post` | app/api/order/create/route.js:10-147 | The step-by-step handler returns exactly the response and effects `Submit` describes. |
| `OrderCreate.PriceItems` | app/api/order/create/route.js:36-65 | The pricing loop aborts with `PricingThrew` iff some item's lookup throws. Otherwise it yields the base amount: the sum of price × quantity over the items that count. |
| `OrderCreate.CountedItems` | app/api/order/create/route.js:40-53 | Each request line that passes both skip tests (the product is found and the quantity is a number above zero) is kept, as often as it occurs in the request; no other item is kept. There are no more kept items than request items. |
| `OrderCreate.BaseAmountIsSumOfCounted` | app/api/order/create/route.js:36-55 | The base amount equals the plain sum of price × quantity over exactly the counted items. Skipped items contribute nothing. |
| `OrderCreate.BaseAmountAppend` | app/api/order/create/route.js:36-55 | The accumulated amount is additive over a split of the item list. |
| `OrderCreate.SkippedItemIgnored` | app/api/order/create/route.js:40-53 | Inserting an item that is skipped (unknown product or bad quantity) anywhere leaves the base amount unchanged. |
| `OrderCreate.NothingCountedIsZero` | app/api/order/create/route.js:36-55 | When every item is skipped the base amount is 0. |
| `OrderCreate.BaseAmountNonNegative` | app/api/order/create/route.js:36-55 | With non-negative catalogue prices the base amount is never negative. |
| `OrderCreate.Surcharge` | app/api/order/create/route.js:79 | For a positive base, the surcharge is the floor of base × 0.02: the `s` with 100·s ≤ 2·base < 100·(s+1). |
| `OrderCreate.OrderTotal` | app/api/order/create/route.js:79 | The total is at least the base, and it exceeds the base by the truncated 2% (never rounded up). |
| `OrderCreate.PayloadItems` | app/api/order/create/route.js:87-90 | The payload items have the request's length and order, each with `productId = item.product` and the item's quantity as the model reads it (`Number(item.quantity)`), skipped items included. |
| `OrderCreate.SingleItemExample` | app/api/order/create/route.js:36-147 | One item `p1` × 2 at price 100 is charged 204. It is sent once with payload items `[{p1, 2}]`, and the handler succeeds. |
| `OrderCreate.CartNeverChangesResponse` | app/api/order/create/route.js:128-147 | The cart outcome (saved, user missing, or a throw) changes neither the response nor the messages sent. |
| `KafkaProducer.ProducerLifecycle.constructor` | lib/kafka.js:12-13 | The producer starts with no instance and no connect in flight. |
| `KafkaProducer.ProducerLifecycle.Acquire` | lib/kafka.js:15-24 | With an instance held: that same instance is returned and the state is unchanged. While connecting: `MustWait`, with the state unchanged and no connect started. From idle: exactly one connect starts and `connecting` becomes true. `Valid()` is kept. |
| `KafkaProducer.ProducerLifecycle.CompleteConnect` | lib/kafka.js:30-51 | Success stores and returns the new producer. Failure stores nothing and returns the error. Either way `connecting` ends false, so after a failure from `Connecting` the state is idle and retryable. |
| `KafkaProducer.ProducerLifecycle.OnDisconnectEvent` | lib/kafka.js:36-40 | Clears both the instance and the connecting flag. |
| `KafkaProducer.ProducerLifecycle.Release` | lib/kafka.js:55-66 | With no instance held, nothing changes. A successful disconnect clears both fields. A failed one leaves the state unchanged. |
| `KafkaProducer.FirstCallersShareOneConnect` | lib/kafka.js:15-32 | Callers arriving at an idle producer: the first starts a connect and all later ones must wait. The connect count rises by exactly one. |
| `KafkaProducer.WaiterSeesConnectedProducer` | lib/kafka.js:19-34 | A waiter that re-evaluates after a successful connect gets the stored producer. |
| `KafkaProducer.DisconnectForcesReconnect` | lib/kafka.js:36-40 | After a disconnect event, the next caller starts a fresh connect instead of receiving the old producer. |
| `KafkaProducer.FailedConnectAllowsRetry` | lib/kafka.js:43-48 | After a failed connect, the next caller starts a new connect. |

## Left out

- Next.js plumbing (`NextResponse`, `request.json()`) and Clerk's `getAuth` appear only as a `Request` value. It holds an optional user id and an optional parsed body; `None` means reading the body threw.
- Catch-all 500 (app/api/order/create/route.js:148-154): only two sources of it are modelled, a failing `connectDB` and an unreadable body. Other unexpected throws are not modelled, for example `getAuth` throwing (app/api/order/create/route.js:17). A `null` element inside `items` cannot be expressed as an `Item`; in the source it makes `item.product` throw inside the pricing `try`, which answers 500 "Failed to calculate order amount.".
- JavaScript truthiness: the address and user id are optional strings, and only absence and `""` count as falsy. Other JSON values, such as numbers, booleans and objects, are not modelled. An absent `items` and a non-array `items` are both `None`.
- Quantities are `Number(item.quantity)` as an `Option<int>`, where `None` is NaN. The payload carries this reading, not the raw JSON value, so a quantity sent as the string `"2"` appears as `2`. Fractional quantities are not modelled.
- Floating point: prices, quantities and totals are unbounded integers. `Math.floor(base * 0.02)` is modelled as the exact floor of 2% of the base. Double-precision rounding and the loss of precision above 2^53 are not modelled.
- Mongoose calls (`Product.findById`, `User.findById`, `user.save`) are outcomes. The catalogue is one function, so two lookups of the same product give the same answer. The in-memory `user.cartItems = {}` before a failed save is not recorded; only a persisted clear is.
- `crypto.randomUUID`, `Date.now` and the currency come in as the `Env` parameter. The `"USD"` default for an unset currency variable is not modelled.
- `JSON.stringify` serialisation, console logging and the unused `inngest` import.
- kafkajs internals, the broker list from the environment and the `Kafka` client configuration (lib/kafka.js:1-10, 25-28). A producer is an opaque `Handle`, which `CompleteConnect` receives from its caller.
- The 100 ms sleep before re-entering `getProducer` (lib/kafka.js:20) is the `MustWait` result. Concurrent callers appear only as sequences of steps on the shared object.
- A disconnect event from an earlier, replaced producer also clears the current state (lib/kafka.js:36), because a handler is registered per producer. The model has one shared state and `OnDisconnectEvent` always clears it. It does not track which producer fired the event.
- The handler obtains the producer through an abstract publish outcome. It does not call `ProducerLifecycle` directly.
- `Release` is one atomic step, while `disconnectProducer` awaits `producerInstance.disconnect()` (lib/kafka.js:59) and then clears both variables unconditionally (lib/kafka.js:61-62). A connect started during that await has its flag cleared, so a further caller can start a second connect, and a producer stored during the await is dropped; the model does not capture this window.
