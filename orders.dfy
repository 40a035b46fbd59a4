/**
  `POST /api/orders` (place an order) and `GET /api/orders` (the caller's
  orders, newest first).

  Placing an order is all-or-nothing: the handler checks the session, the
  body, the restaurant and then every cart line in turn, and the first check
  that fails decides the response before anything is written. The total is
  computed from the prices stored with the menu items; a cart line carries no
  price at all. The handler does not check that a menu item belongs to the
  ordered restaurant, nor that a quantity is positive, and neither does this
  model.
 */
module Orders {
  import opened Common
  import opened Store

  /** One element of the request's `items` array. */
  datatype CartLine = CartLine(menuItemId: string, quantity: int)

  /**
    The JSON body of `POST /api/orders`. `items` is `None` when the field is
    missing or is not an array.
   */
  datatype OrderRequest = OrderRequest(
    restaurantId: Option<string>, items: Option<seq<CartLine>>, notes: Option<string>)

  /** The result of pricing a cart against the stored menu. */
  datatype Quote = Priced(items: seq<OrderItem>, total: int) | Unavailable(menuItemId: string)

  /** What placing an order answers, and the order it writes, if any. */
  datatype Outcome = Outcome(response: Response, created: Option<Order>)

  /** The amount an order's lines add up to: price times quantity, summed. */
  function OrderItemsTotal(items: seq<OrderItem>): int {
    if items == [] then 0
    else items[0].price * items[0].quantity + OrderItemsTotal(items[1..])
  }

  lemma {:induction false} OrderItemsTotalAppend(items: seq<OrderItem>, item: OrderItem)
    ensures OrderItemsTotal(items + [item]) == OrderItemsTotal(items) + item.price * item.quantity
  {
    if items != [] {
      assert (items + [item])[1..] == items[1..] + [item];
      OrderItemsTotalAppend(items[1..], item);
    }
  }

  /**
    The cart lines looked up one after the other, as the handler's loop does:
    the first line whose menu item is missing or unavailable stops the
    pricing; otherwise every line becomes an order item with the stored price
    and the total accumulates price times quantity.
   */
  function PriceCart(menu: seq<MenuItem>, lines: seq<CartLine>): Quote
    decreases |lines|
  {
    if lines == [] then Priced([], 0)
    else
      var last := lines[|lines| - 1];
      match PriceCart(menu, lines[..|lines| - 1])
      case Unavailable(id) => Unavailable(id)
      case Priced(items, total) =>
        match FindAvailableMenuItem(menu, last.menuItemId)
        case None => Unavailable(last.menuItemId)
        case Some(m) =>
          Priced(items + [OrderItem(last.menuItemId, last.quantity, m.price)],
                 total + m.price * last.quantity)
  }

  /** Pricing succeeds exactly when every line names an existing, available menu item. */
  lemma {:induction false} PriceCartSucceedsIffAllAvailable(menu: seq<MenuItem>, lines: seq<CartLine>)
    ensures PriceCart(menu, lines).Priced? <==>
            forall i :: 0 <= i < |lines| ==> FindAvailableMenuItem(menu, lines[i].menuItemId).Some?
    decreases |lines|
  {
    if lines != [] {
      var init := lines[..|lines| - 1];
      PriceCartSucceedsIffAllAvailable(menu, init);
      assert forall i :: 0 <= i < |init| ==> init[i] == lines[i];
    }
  }

  /**
    A priced cart has one order item per line, in cart order, each with the
    line's menu item and quantity and the stored price; the total is the sum
    of those items' price times quantity.
   */
  lemma {:induction false} PriceCartSnapshotsStoredPrices(menu: seq<MenuItem>, lines: seq<CartLine>)
    requires PriceCart(menu, lines).Priced?
    ensures var q := PriceCart(menu, lines);
            && |q.items| == |lines|
            && (forall i :: 0 <= i < |lines| ==>
                  && FindAvailableMenuItem(menu, lines[i].menuItemId).Some?
                  && q.items[i] == OrderItem(lines[i].menuItemId, lines[i].quantity,
                                             FindAvailableMenuItem(menu, lines[i].menuItemId).value.price))
            && q.total == OrderItemsTotal(q.items)
    decreases |lines|
  {
    if lines != [] {
      var init := lines[..|lines| - 1];
      var last := lines[|lines| - 1];
      PriceCartSnapshotsStoredPrices(menu, init);
      var q0 := PriceCart(menu, init);
      var m := FindAvailableMenuItem(menu, last.menuItemId).value;
      OrderItemsTotalAppend(q0.items, OrderItem(last.menuItemId, last.quantity, m.price));
      assert forall i :: 0 <= i < |init| ==> init[i] == lines[i];
    }
  }

  /** A rejected cart names the first line whose menu item is missing or unavailable. */
  lemma {:induction false} PriceCartNamesFirstUnavailable(menu: seq<MenuItem>, lines: seq<CartLine>)
    requires PriceCart(menu, lines).Unavailable?
    ensures exists k :: 0 <= k < |lines|
              && PriceCart(menu, lines).menuItemId == lines[k].menuItemId
              && FindAvailableMenuItem(menu, lines[k].menuItemId).None?
              && forall j :: 0 <= j < k ==> FindAvailableMenuItem(menu, lines[j].menuItemId).Some?
    decreases |lines|
  {
    var init := lines[..|lines| - 1];
    assert forall i :: 0 <= i < |init| ==> init[i] == lines[i];
    if PriceCart(menu, init).Unavailable? {
      PriceCartNamesFirstUnavailable(menu, init);
    } else {
      PriceCartSucceedsIffAllAvailable(menu, init);
      assert FindAvailableMenuItem(menu, lines[|lines| - 1].menuItemId).None?;
    }
  }

  /** Once a prefix of the cart is rejected, the whole cart is rejected the same way. */
  lemma {:induction false} PriceCartStopsAtFirstFailure(menu: seq<MenuItem>, lines: seq<CartLine>, k: nat)
    requires k <= |lines|
    requires PriceCart(menu, lines[..k]).Unavailable?
    ensures PriceCart(menu, lines) == PriceCart(menu, lines[..k])
    decreases |lines| - k
  {
    if k < |lines| {
      var init := lines[..|lines| - 1];
      assert init[..k] == lines[..k];
      PriceCartStopsAtFirstFailure(menu, init, k);
    } else {
      assert lines[..k] == lines;
    }
  }

  predicate OrderIdTaken(orders: seq<Order>, id: string) {
    exists i :: 0 <= i < |orders| && orders[i].id == id
  }

  /**
    The store accepts the order row: its id is new and the customer it
    refers to exists (a foreign key).
   */
  predicate OrderInsertable(users: seq<User>, orders: seq<Order>, id: string, customerId: string) {
    !OrderIdTaken(orders, id) && FindUser(users, customerId).Some?
  }

  /**
    What `POST /api/orders` answers and writes, given the store, the session,
    the parsed body (`None` when it is not valid JSON), the id the store
    would give the new order and the time of the request. The insert fails,
    and the handler answers 500, when the id is taken or the session's user
    has no row.
   */
  function PlaceOrder(users: seq<User>, restaurants: seq<Restaurant>, menu: seq<MenuItem>, orders: seq<Order>,
                      session: Option<Identity>, body: Option<OrderRequest>,
                      newId: string, now: int): (p: Outcome)
    ensures p.created.Some? <==> p.response.Json? && p.response.status == 201
    ensures p.created.Some? ==> p.response.body == OrderCreated(p.created.value)
    ensures session.None? ==> p.response == Unauthorized()
    ensures session.Some? && body.Some?
            && !(Truthy(body.value.restaurantId) && body.value.items.Some? && |body.value.items.value| > 0) ==>
              p == Outcome(Json(400, Error("Missing required fields")), None)
    ensures session.Some? && body.None? ==> p == Outcome(Json(500, Error("Failed to create order")), None)
    ensures session.Some? && body.Some?
            && Truthy(body.value.restaurantId) && body.value.items.Some? && |body.value.items.value| > 0
            && FindActiveRestaurant(restaurants, body.value.restaurantId.value).Some?
            && PriceCart(menu, body.value.items.value).Priced?
            && !OrderInsertable(users, orders, newId, session.value.id) ==>
              p == Outcome(Json(500, Error("Failed to create order")), None)
  {
    if session.None? then Outcome(Unauthorized(), None)
    else if body.None? then Outcome(Json(500, Error("Failed to create order")), None)
    else
      var req := body.value;
      if !Truthy(req.restaurantId) || req.items.None? || |req.items.value| == 0 then
        Outcome(Json(400, Error("Missing required fields")), None)
      else if FindActiveRestaurant(restaurants, req.restaurantId.value).None? then
        Outcome(Json(404, Error("Restaurant not found")), None)
      else
        match PriceCart(menu, req.items.value)
        case Unavailable(id) =>
          Outcome(Json(400, Error("Menu item " + id + " not found")), None)
        case Priced(items, total) =>
          if !OrderInsertable(users, orders, newId, session.value.id) then
            Outcome(Json(500, Error("Failed to create order")), None)
          else
            var order := Order(newId, session.value.id, req.restaurantId.value, total,
                               if Truthy(req.notes) then req.notes else None,
                               "PENDING", now, items);
            Outcome(Json(201, OrderCreated(order)), Some(order))
  }

  /**
    An order is written only when every guard passed, and then it belongs to
    the caller, is pending, has one item per cart line carrying the stored
    price, and its total is the sum of its items.
   */
  lemma OrderCreatedOnlyWhenValid(users: seq<User>, restaurants: seq<Restaurant>, menu: seq<MenuItem>, orders: seq<Order>,
                                  session: Option<Identity>, body: Option<OrderRequest>,
                                  newId: string, now: int)
    requires PlaceOrder(users, restaurants, menu, orders, session, body, newId, now).created.Some?
    ensures session.Some? && body.Some?
    ensures var req := body.value;
            var lines := req.items.value;
            var order := PlaceOrder(users, restaurants, menu, orders, session, body, newId, now).created.value;
            && Truthy(req.restaurantId) && req.items.Some? && |lines| > 0
            && FindActiveRestaurant(restaurants, req.restaurantId.value).Some?
            && order.id == newId && !OrderIdTaken(orders, newId)
            && FindUser(users, session.value.id).Some?
            && order.customerId == session.value.id
            && order.restaurantId == req.restaurantId.value
            && order.status == "PENDING" && order.createdAt == now
            && order.notes == (if Truthy(req.notes) then req.notes else None)
            && |order.items| == |lines|
            && (forall i :: 0 <= i < |lines| ==>
                  && FindAvailableMenuItem(menu, lines[i].menuItemId).Some?
                  && order.items[i] == OrderItem(lines[i].menuItemId, lines[i].quantity,
                                                 FindAvailableMenuItem(menu, lines[i].menuItemId).value.price))
            && order.total == OrderItemsTotal(order.items)
  {
    PriceCartSnapshotsStoredPrices(menu, body.value.items.value);
  }

  /**
    Conversely, a request that passes every check is answered 201 with an
    order: a session, a restaurant id and a non-empty cart, an active
    restaurant, every cart line available, a fresh order id and a stored
    customer.
   */
  lemma OrderCreatedWhenValid(users: seq<User>, restaurants: seq<Restaurant>, menu: seq<MenuItem>,
                              orders: seq<Order>, session: Identity, req: OrderRequest,
                              newId: string, now: int)
    requires Truthy(req.restaurantId) && req.items.Some? && |req.items.value| > 0
    requires FindActiveRestaurant(restaurants, req.restaurantId.value).Some?
    requires forall i :: 0 <= i < |req.items.value| ==>
                         FindAvailableMenuItem(menu, req.items.value[i].menuItemId).Some?
    requires !OrderIdTaken(orders, newId)
    requires exists i :: 0 <= i < |users| && users[i].id == session.id
    ensures var p := PlaceOrder(users, restaurants, menu, orders, Some(session), Some(req), newId, now);
            && p.created.Some? && p.response == Json(201, OrderCreated(p.created.value))
  {
    PriceCartSucceedsIffAllAvailable(menu, req.items.value);
    var i :| 0 <= i < |users| && users[i].id == session.id;
    assert FindUser(users, session.id).Some?;
  }

  /**
    With a session, a well-formed body and an active restaurant, a cart with a
    missing or unavailable menu item is answered 400 naming the first such
    item, and nothing is written.
   */
  lemma UnavailableItemRejectsWholeOrder(users: seq<User>, restaurants: seq<Restaurant>, menu: seq<MenuItem>, orders: seq<Order>,
                                         session: Option<Identity>, req: OrderRequest,
                                         newId: string, now: int, k: nat)
    requires session.Some? && Truthy(req.restaurantId) && req.items.Some?
    requires FindActiveRestaurant(restaurants, req.restaurantId.value).Some?
    requires k < |req.items.value|
    requires FindAvailableMenuItem(menu, req.items.value[k].menuItemId).None?
    ensures var p := PlaceOrder(users, restaurants, menu, orders, session, Some(req), newId, now);
            && p.created.None?
            && exists j :: 0 <= j <= k
                 && p.response == Json(400, Error("Menu item " + req.items.value[j].menuItemId + " not found"))
                 && FindAvailableMenuItem(menu, req.items.value[j].menuItemId).None?
  {
    var lines := req.items.value;
    PriceCartSucceedsIffAllAvailable(menu, lines);
    PriceCartNamesFirstUnavailable(menu, lines);
  }

  /**
    The required-field check comes before any lookup: a body without a
    restaurant id or without cart lines is answered the same way whatever
    the store holds.
   */
  lemma MissingFieldsRejectedBeforeLookup(u1: seq<User>, r1: seq<Restaurant>, m1: seq<MenuItem>, o1: seq<Order>,
                                          u2: seq<User>, r2: seq<Restaurant>, m2: seq<MenuItem>, o2: seq<Order>,
                                          session: Identity, req: OrderRequest, newId: string, now: int)
    requires !(Truthy(req.restaurantId) && req.items.Some? && |req.items.value| > 0)
    ensures PlaceOrder(u1, r1, m1, o1, Some(session), Some(req), newId, now)
         == PlaceOrder(u2, r2, m2, o2, Some(session), Some(req), newId, now)
  {
  }

  /** A missing or inactive restaurant is answered 404 and nothing is written. */
  lemma InactiveRestaurantNotFound(users: seq<User>, restaurants: seq<Restaurant>, menu: seq<MenuItem>, orders: seq<Order>,
                                   session: Option<Identity>, req: OrderRequest, newId: string, now: int)
    requires session.Some? && Truthy(req.restaurantId) && req.items.Some? && |req.items.value| > 0
    requires forall i :: 0 <= i < |restaurants| && restaurants[i].id == req.restaurantId.value
                         ==> !restaurants[i].isActive
    ensures PlaceOrder(users, restaurants, menu, orders, session, Some(req), newId, now)
            == Outcome(Json(404, Error("Restaurant not found")), None)
  {
  }

  /** Two of an item at 12.99 and one at 14.99 make a pending order of 40.97. */
  lemma PricingScenario(session: Identity, customer: User, newId: string, now: int)
    requires customer.id == session.id
    ensures var restaurant := Restaurant("r1", "Pizza", None, "1 Main St", None, true, "o1", 0);
            var menu := [MenuItem("m1", "Margherita", 1299, true, "r1"),
                         MenuItem("m2", "Carbonara", 1499, true, "r1")];
            var req := OrderRequest(Some("r1"), Some([CartLine("m1", 2), CartLine("m2", 1)]), None);
            var p := PlaceOrder([customer], [restaurant], menu, [], Some(session), Some(req), newId, now);
            && p.created.Some?
            && p.created.value.total == 4097
            && p.created.value.status == "PENDING"
            && p.created.value.items == [OrderItem("m1", 2, 1299), OrderItem("m2", 1, 1499)]
  {
    var menu := [MenuItem("m1", "Margherita", 1299, true, "r1"),
                 MenuItem("m2", "Carbonara", 1499, true, "r1")];
    var lines := [CartLine("m1", 2), CartLine("m2", 1)];
    assert FindAvailableMenuItem(menu, "m1") == Some(menu[0]);
    assert FindAvailableMenuItem(menu, "m2") == Some(menu[1]);
    PriceCartSucceedsIffAllAvailable(menu, lines);
    PriceCartSnapshotsStoredPrices(menu, lines);
    var q := PriceCart(menu, lines);
    assert q.items == [OrderItem("m1", 2, 1299), OrderItem("m2", 1, 1499)];
    assert OrderItemsTotal(q.items) == 4097;
  }

  /**
    `POST /api/orders` against the store. The loop looks each cart line's
    menu item up in turn and returns on the first one that is missing or
    unavailable; only when every line passed is the order appended.
   */
  method Post(db: Database, session: Option<Identity>, body: Option<OrderRequest>,
              newId: string, now: int) returns (resp: Response)
    modifies db`orders
    ensures var p := PlaceOrder(db.users, db.restaurants, db.menuItems, old(db.orders), session, body, newId, now);
            && resp == p.response
            && db.orders == old(db.orders) + (if p.created.Some? then [p.created.value] else [])
  {
    if session.None? {
      return Unauthorized();
    }
    if body.None? {
      return Json(500, Error("Failed to create order"));
    }
    var req := body.value;
    if !Truthy(req.restaurantId) || req.items.None? || |req.items.value| == 0 {
      return Json(400, Error("Missing required fields"));
    }
    var restaurantId := req.restaurantId.value;
    var lines := req.items.value;
    var restaurant := FindActiveRestaurant(db.restaurants, restaurantId);
    if restaurant.None? {
      return Json(404, Error("Restaurant not found"));
    }

    var total := 0;
    var orderItems: seq<OrderItem> := [];
    for i := 0 to |lines|
      invariant PriceCart(db.menuItems, lines[..i]) == Priced(orderItems, total)
    {
      var line := lines[i];
      assert lines[..i + 1][..i] == lines[..i];
      var menuItem := FindAvailableMenuItem(db.menuItems, line.menuItemId);
      if menuItem.None? {
        PriceCartStopsAtFirstFailure(db.menuItems, lines, i + 1);
        return Json(400, Error("Menu item " + line.menuItemId + " not found"));
      }
      total := total + menuItem.value.price * line.quantity;
      orderItems := orderItems + [OrderItem(line.menuItemId, line.quantity, menuItem.value.price)];
    }
    assert lines[..|lines|] == lines;

    if !OrderInsertable(db.users, db.orders, newId, session.value.id) {
      return Json(500, Error("Failed to create order"));
    }
    var order := Order(newId, session.value.id, restaurantId, total,
                       if Truthy(req.notes) then req.notes else None,
                       "PENDING", now, orderItems);
    db.orders := db.orders + [order];
    resp := Json(201, OrderCreated(order));
  }

  /** Newer orders sort first. */
  function NewestOrderFirst(): (Order, Order) -> bool {
    (a: Order, b: Order) => a.createdAt >= b.createdAt
  }

  /**
    `GET /api/orders`: without a session 401; otherwise exactly the caller's
    orders, each as often as it is stored, newest first.
   */
  function Get(orders: seq<Order>, session: Option<Identity>): (resp: Response)
    ensures session.None? ==> resp == Unauthorized()
    ensures session.Some? ==>
              && resp.Json? && resp.status == 200 && resp.body.OrderList?
              && (forall o :: multiset(resp.body.orders)[o] ==
                                if o.customerId == session.value.id then multiset(orders)[o] else 0)
              && (forall o :: o in resp.body.orders <==> o in orders && o.customerId == session.value.id)
              && (forall i, j :: 0 <= i < j < |resp.body.orders| ==>
                                   resp.body.orders[i].createdAt >= resp.body.orders[j].createdAt)
  {
    if session.None? then Unauthorized()
    else
      var mine := Filter(orders, (o: Order) => o.customerId == session.value.id);
      Json(200, OrderList(SortBy(mine, NewestOrderFirst())))
  }
}
