/**
 * The order-submission handler (`POST` of app/api/order/create/route.js).
 *
 * The handler checks the caller and the request, prices the items against the
 * catalogue, adds a 2% surcharge, publishes one `OrderCreated` event to the
 * topic "orders" keyed by the user, and then clears the user's cart on a
 * best-effort basis. Every collaborator (database connection, catalogue,
 * producer, user store) appears as the outcome it produces, gathered in a
 * `World` value; the clock and the identifier generator appear as an `Env`.
 *
 * `Submit` states the whole handler as a function; `Post` is the handler
 * written step by step, with its pricing loop in `PriceItems`, and is proved
 * to compute exactly `Submit`.
 */
module OrderCreate {
  import opened Wrappers

  type UserId = string
  type ProductRef = string
  type Address = string

  /**
   * One element of the request's `items` array. `quantity` is the item's
   * quantity as `Number(item.quantity)` reads it: `None` stands for NaN.
   */
  datatype Item = Item(product: ProductRef, quantity: Option<int>)

  /**
   * The parsed JSON body. `address` is `None` when the field is absent or
   * null; `items` is `None` when the field is absent or is not an array.
   */
  datatype Body = Body(address: Option<Address>, items: Option<seq<Item>>)

  /**
   * The request as the handler sees it: the authenticated user (if any) and
   * the body, `None` when reading the body as JSON throws.
   */
  datatype Request = Request(auth: Option<UserId>, body: Option<Body>)

  /** What `Product.findById` yields for one product reference. */
  datatype Lookup = NotFound | Found(offerPrice: int) | Throws

  /** What obtaining the producer and sending the event yields. */
  datatype PublishOutcome =
    | ProducerUnavailable  // getProducer throws: send is never called
    | SendFails            // producer.send throws
    | Delivered            // producer.send resolves

  /** What the cart clear yields: found and saved, user missing, or a throw. */
  datatype CartOutcome = CartSaved | UserNotFound | CartThrows

  /** The outcomes of every collaborator for one request. */
  datatype World = World(
    dbConnects: bool,
    catalog: ProductRef -> Lookup,
    publish: PublishOutcome,
    cart: CartOutcome)

  /** Values the handler draws from its environment: random UUID, clock, currency. */
  datatype Env = Env(eventId: string, timestamp: int, orderDate: int, currency: string)

  datatype PayloadItem = PayloadItem(productId: ProductRef, quantity: Option<int>)

  datatype Payload = Payload(
    userId: UserId,
    address: Address,
    items: seq<PayloadItem>,
    amount: int,
    currency: string,
    orderDate: int,
    initialStatus: string)

  datatype OrderEvent = OrderEvent(eventId: string, eventType: string, timestamp: int, payload: Payload)

  /** One message handed to `producer.send`: topic, partition key and value. */
  datatype Message = Message(topic: string, key: UserId, value: OrderEvent)

  /** The JSON response: HTTP status, `success` and `message`. */
  datatype Response = Response(status: int, success: bool, message: string)

  /**
   * The handler's effects: the messages handed to `producer.send`, and
   * whether the user's emptied cart was saved.
   */
  datatype Effects = Effects(sendCalls: seq<Message>, cartCleared: bool)

  /** The response together with the effects that produced it. */
  datatype Outcome = Outcome(response: Response, effects: Effects)

  /** The result of the pricing loop. */
  datatype Pricing = Priced(base: int) | PricingThrew

  const OrdersTopic: string := "orders"
  const NoEffects: Effects := Effects([], false)

  const InternalError := Response(500, false, "An internal server error occurred.")
  const Unauthorized := Response(401, false, "Authentication required")
  const InvalidOrderData := Response(400, false, "Invalid order data")
  const PricingFailed := Response(500, false, "Failed to calculate order amount.")
  const NoValidTotal := Response(400, false, "Could not determine valid order total.")
  const PublishFailed := Response(500, false, "Failed to submit order for processing. Please try again later.")
  const Submitted := Response(200, true, "Order submitted successfully! You will receive confirmation shortly.")

  // ---------------------------------------------------------------------------
  // Request shape
  // ---------------------------------------------------------------------------

  /** A JavaScript truthiness test on an optional string: present and non-empty. */
  predicate Truthy(s: Option<string>)
  {
    s.Some? && s.value != ""
  }

  /** The shape check: an address is given and `items` is a non-empty array. */
  predicate ValidShape(body: Body)
  {
    Truthy(body.address) && body.items.Some? && |body.items.value| > 0
  }

  // ---------------------------------------------------------------------------
  // Pricing
  // ---------------------------------------------------------------------------

  /** An item contributes to the total: its product is found and its quantity is a number above zero. */
  predicate Counted(item: Item, catalog: ProductRef -> Lookup)
  {
    catalog(item.product).Found? && item.quantity.Some? && item.quantity.value > 0
  }

  /** What one item adds to the base amount: price times quantity, or nothing when it is skipped. */
  function LineAmount(item: Item, catalog: ProductRef -> Lookup): int
  {
    if Counted(item, catalog) then catalog(item.product).offerPrice * item.quantity.value else 0
  }

  /** The base amount the loop accumulates, item by item from the left. */
  function BaseAmount(items: seq<Item>, catalog: ProductRef -> Lookup): int
    decreases |items|
  {
    if items == [] then 0
    else BaseAmount(items[..|items| - 1], catalog) + LineAmount(items[|items| - 1], catalog)
  }

  /** Some item's product lookup throws. */
  predicate LookupThrows(items: seq<Item>, catalog: ProductRef -> Lookup)
  {
    exists i :: 0 <= i < |items| && catalog(items[i].product).Throws?
  }

  /** The outcome of the pricing step. */
  function Price(items: seq<Item>, catalog: ProductRef -> Lookup): Pricing
  {
    if LookupThrows(items, catalog) then PricingThrew else Priced(BaseAmount(items, catalog))
  }

  /**
   * The pricing loop: looks up every item in order, skips unknown products and
   * quantities that are NaN or not above zero, and aborts on a lookup that throws.
   */
  method PriceItems(items: seq<Item>, catalog: ProductRef -> Lookup) returns (pricing: Pricing)
    ensures pricing == Price(items, catalog)
  {
    var calculatedAmount := 0;
    for i := 0 to |items|
      invariant !LookupThrows(items[..i], catalog)
      invariant calculatedAmount == BaseAmount(items[..i], catalog)
    {
      assert items[..i + 1][..i] == items[..i];
      var item := items[i];
      var product := catalog(item.product);
      if product.Throws? {
        assert LookupThrows(items, catalog) by { assert catalog(items[i].product).Throws?; }
        return PricingThrew;
      }
      if product.NotFound? {
        continue;
      }
      var quantity := item.quantity;
      if quantity.None? || quantity.value <= 0 {
        continue;
      }
      calculatedAmount := calculatedAmount + product.offerPrice * quantity.value;
    }
    assert items[..|items|] == items;
    return Priced(calculatedAmount);
  }

  /** The items that count toward the total: each counted request line once per occurrence. */
  function CountedItems(items: seq<Item>, catalog: ProductRef -> Lookup): (r: seq<Item>)
    ensures forall x :: x in r <==> x in items && Counted(x, catalog)
    ensures |r| <= |items|
    ensures forall x :: multiset(r)[x] == (if Counted(x, catalog) then multiset(items)[x] else 0)
  {
    if items == [] then []
    else
      assert items == [items[0]] + items[1..];
      if Counted(items[0], catalog) then [items[0]] + CountedItems(items[1..], catalog)
      else CountedItems(items[1..], catalog)
  }

  /** Sum of price times quantity over items that all count, as a reference definition. */
  function LineSum(items: seq<Item>, catalog: ProductRef -> Lookup): int
    requires forall x :: x in items ==> Counted(x, catalog)
  {
    if items == [] then 0
    else
      assert items[0] in items && Counted(items[0], catalog);
      catalog(items[0].product).offerPrice * items[0].quantity.value + LineSum(items[1..], catalog)
  }

  /** The base amount of a concatenation is the sum of the base amounts. */
  lemma {:induction false} BaseAmountAppend(a: seq<Item>, b: seq<Item>, catalog: ProductRef -> Lookup)
    ensures BaseAmount(a + b, catalog) == BaseAmount(a, catalog) + BaseAmount(b, catalog)
    decreases |b|
  {
    if b == [] {
      assert a + b == a;
    } else {
      var b' := b[..|b| - 1];
      assert (a + b)[..|a + b| - 1] == a + b';
      BaseAmountAppend(a, b', catalog);
    }
  }

  /**
   * The base amount is the sum of price times quantity over exactly the items
   * that count; every other item is skipped.
   */
  lemma {:induction false} BaseAmountIsSumOfCounted(items: seq<Item>, catalog: ProductRef -> Lookup)
    ensures BaseAmount(items, catalog) == LineSum(CountedItems(items, catalog), catalog)
    decreases |items|
  {
    if items != [] {
      assert items == [items[0]] + items[1..];
      BaseAmountAppend([items[0]], items[1..], catalog);
      assert BaseAmount([items[0]], catalog) == LineAmount(items[0], catalog) by {
        assert [items[0]][..0] == [];
      }
      BaseAmountIsSumOfCounted(items[1..], catalog);
    }
  }

  /** Inserting a skipped item anywhere leaves the base amount unchanged. */
  lemma SkippedItemIgnored(a: seq<Item>, x: Item, b: seq<Item>, catalog: ProductRef -> Lookup)
    requires !Counted(x, catalog)
    ensures BaseAmount(a + [x] + b, catalog) == BaseAmount(a + b, catalog)
  {
    BaseAmountAppend(a + [x], b, catalog);
    BaseAmountAppend(a, b, catalog);
  }

  /** When no item counts, the base amount is zero. */
  lemma {:induction false} NothingCountedIsZero(items: seq<Item>, catalog: ProductRef -> Lookup)
    requires forall i :: 0 <= i < |items| ==> !Counted(items[i], catalog)
    ensures BaseAmount(items, catalog) == 0
    decreases |items|
  {
    if items != [] {
      NothingCountedIsZero(items[..|items| - 1], catalog);
    }
  }

  /** With non-negative catalogue prices the base amount is never negative. */
  lemma {:induction false} BaseAmountNonNegative(items: seq<Item>, catalog: ProductRef -> Lookup)
    requires forall i :: 0 <= i < |items| && catalog(items[i].product).Found? ==> catalog(items[i].product).offerPrice >= 0
    ensures BaseAmount(items, catalog) >= 0
    decreases |items|
  {
    if items != [] {
      BaseAmountNonNegative(items[..|items| - 1], catalog);
    }
  }

  // ---------------------------------------------------------------------------
  // Surcharge
  // ---------------------------------------------------------------------------

  /** The 2% surcharge, truncated: the largest whole amount not above base * 0.02. */
  function Surcharge(base: int): (s: int)
    requires base > 0
    ensures 0 <= s
    ensures 100 * s <= 2 * base < 100 * (s + 1)
  {
    base / 50
  }

  /** The charged total: the base amount plus the truncated surcharge. */
  function OrderTotal(base: int): (total: int)
    requires base > 0
    ensures base <= total
    ensures 100 * (total - base) <= 2 * base < 100 * (total - base + 1)
  {
    base + Surcharge(base)
  }

  // ---------------------------------------------------------------------------
  // The event
  // ---------------------------------------------------------------------------

  /** The payload's items: one entry per request item, in order, skipped ones included. */
  function PayloadItems(items: seq<Item>): (r: seq<PayloadItem>)
    ensures |r| == |items|
    ensures forall i :: 0 <= i < |items| ==> r[i].productId == items[i].product && r[i].quantity == items[i].quantity
  {
    if items == [] then [] else [PayloadItem(items[0].product, items[0].quantity)] + PayloadItems(items[1..])
  }

  /** The `OrderCreated` event built from the checked request and its total. */
  function BuildEvent(userId: UserId, address: Address, items: seq<Item>, amount: int, env: Env): OrderEvent
  {
    OrderEvent(env.eventId, "OrderCreated", env.timestamp,
      Payload(userId, address, PayloadItems(items), amount, env.currency, env.orderDate, "PENDING"))
  }

  // ---------------------------------------------------------------------------
  // The handler
  // ---------------------------------------------------------------------------

  /** The request passes every check before the publish step: it is authenticated, well formed and priced above zero. */
  predicate ReachesPublish(req: Request, world: World)
  {
    world.dbConnects && req.body.Some? && Truthy(req.auth) && ValidShape(req.body.value)
    && Price(req.body.value.items.value, world.catalog).Priced?
    && Price(req.body.value.items.value, world.catalog).base > 0
  }

  /** The publish and cart-clear tail of the handler, once a positive total is known. */
  function PublishAndClear(userId: UserId, event: OrderEvent, world: World): (out: Outcome)
  {
    var message := Message(OrdersTopic, userId, event);
    match world.publish
    case ProducerUnavailable => Outcome(PublishFailed, NoEffects)
    case SendFails => Outcome(PublishFailed, Effects([message], false))
    case Delivered => Outcome(Submitted, Effects([message], world.cart == CartSaved))
  }

  /** The whole handler as a function of the request, the collaborators' outcomes and the environment. */
  function Submit(req: Request, world: World, env: Env): (out: Outcome)
    // Failures before the auth check (connectDB, reading the body) end in the catch-all 500.
    ensures !world.dbConnects || req.body.None? ==> out == Outcome(InternalError, NoEffects)
    // No user: 401, nothing priced, sent or cleared.
    ensures world.dbConnects && req.body.Some? && !Truthy(req.auth) ==> out == Outcome(Unauthorized, NoEffects)
    // A user but a malformed order: 400, no effects.
    ensures world.dbConnects && req.body.Some? && Truthy(req.auth) && !ValidShape(req.body.value)
      ==> out == Outcome(InvalidOrderData, NoEffects)
    // A lookup that throws: 500, no effects.
    ensures world.dbConnects && req.body.Some? && Truthy(req.auth) && ValidShape(req.body.value)
      && LookupThrows(req.body.value.items.value, world.catalog)
      ==> out == Outcome(PricingFailed, NoEffects)
    // No positive base amount: 400, no effects.
    ensures world.dbConnects && req.body.Some? && Truthy(req.auth) && ValidShape(req.body.value)
      && !LookupThrows(req.body.value.items.value, world.catalog)
      && BaseAmount(req.body.value.items.value, world.catalog) <= 0
      ==> out == Outcome(NoValidTotal, NoEffects)
    // Before the publish step nothing is sent and the cart is untouched.
    ensures !ReachesPublish(req, world) ==> out.effects == NoEffects && !out.response.success
    // At the publish step: exactly one send call once the producer is obtained, to "orders",
    // keyed by the user, carrying the surcharged total and every item in request order.
    ensures ReachesPublish(req, world) ==>
      var items := req.body.value.items.value;
      var base := BaseAmount(items, world.catalog);
      && |out.effects.sendCalls| == (if world.publish == ProducerUnavailable then 0 else 1)
      && (forall m :: m in out.effects.sendCalls ==>
            && m.topic == "orders"
            && m.key == req.auth.value
            && m.value.eventType == "OrderCreated"
            && m.value.payload.userId == req.auth.value
            && m.value.payload.address == req.body.value.address.value
            && m.value.payload.amount == OrderTotal(base)
            && |m.value.payload.items| == |items|
            && (forall i :: 0 <= i < |items| ==>
                  m.value.payload.items[i] == PayloadItem(items[i].product, items[i].quantity)))
    // Success exactly when the event is delivered; the cart outcome never changes the response.
    ensures out.response.success <==> ReachesPublish(req, world) && world.publish == Delivered
    ensures out.response.success ==> out.response == Submitted
    ensures ReachesPublish(req, world) && world.publish != Delivered ==> out.response == PublishFailed
    // The cart is cleared only after a delivered event and a saved user.
    ensures out.effects.cartCleared <==> out.response.success && world.cart == CartSaved
  {
    if !world.dbConnects || req.body.None? then
      Outcome(InternalError, NoEffects)
    else if !Truthy(req.auth) then
      Outcome(Unauthorized, NoEffects)
    else if !ValidShape(req.body.value) then
      Outcome(InvalidOrderData, NoEffects)
    else
      var userId, body := req.auth.value, req.body.value;
      var items := body.items.value;
      match Price(items, world.catalog)
      case PricingThrew => Outcome(PricingFailed, NoEffects)
      case Priced(base) =>
        if base <= 0 then
          Outcome(NoValidTotal, NoEffects)
        else
          PublishAndClear(userId, BuildEvent(userId, body.address.value, items, OrderTotal(base), env), world)
  }

  /**
   * The handler, step by step: each check returns as soon as it fails, the
   * pricing runs as a loop, and the cart clear cannot change a successful reply.
   */
  method Post(req: Request, world: World, env: Env) returns (response: Response, effects: Effects)
    ensures Outcome(response, effects) == Submit(req, world, env)
  {
    effects := NoEffects;
    if !world.dbConnects || req.body.None? {
      return InternalError, effects;
    }
    if !Truthy(req.auth) {
      return Unauthorized, effects;
    }
    var userId, body := req.auth.value, req.body.value;
    if !Truthy(body.address) || body.items.None? || |body.items.value| == 0 {
      return InvalidOrderData, effects;
    }
    var items := body.items.value;

    var pricing := PriceItems(items, world.catalog);
    if pricing.PricingThrew? {
      return PricingFailed, effects;
    }
    var calculatedAmount := pricing.base;
    if calculatedAmount <= 0 {
      return NoValidTotal, effects;
    }

    var totalAmount := OrderTotal(calculatedAmount);
    var event := BuildEvent(userId, body.address.value, items, totalAmount, env);

    if world.publish == ProducerUnavailable {
      return PublishFailed, effects;
    }
    effects := effects.(sendCalls := effects.sendCalls + [Message(OrdersTopic, userId, event)]);
    if world.publish == SendFails {
      return PublishFailed, effects;
    }

    if world.cart == CartSaved {
      effects := effects.(cartCleared := true);
    }
    response := Submitted;
  }

  /** The worked example: one item of price 100 and quantity 2 is charged 204 and published once. */
  lemma SingleItemExample(world: World, env: Env)
    requires world.dbConnects && world.publish == Delivered && world.cart == CartSaved
    requires world.catalog("p1") == Found(100)
    ensures
      var req := Request(Some("u1"), Some(Body(Some("a1"), Some([Item("p1", Some(2))]))));
      var out := Submit(req, world, env);
      && out.response == Submitted
      && out.effects.cartCleared
      && |out.effects.sendCalls| == 1
      && out.effects.sendCalls[0].value.payload.amount == 204
      && out.effects.sendCalls[0].value.payload.items == [PayloadItem("p1", Some(2))]
  {
  }

  /** The cart's outcome never changes the response, only whether the cart was cleared. */
  lemma CartNeverChangesResponse(req: Request, world: World, env: Env, cart: CartOutcome)
    ensures Submit(req, world.(cart := cart), env).response == Submit(req, world, env).response
    ensures Submit(req, world.(cart := cart), env).effects.sendCalls == Submit(req, world, env).effects.sendCalls
  {
  }
}
