/**
  The relational store behind the route handlers, the session identity the
  handlers receive, and the HTTP responses they return.

  Rows carry only the columns the handlers read or write. Prices and totals
  are integer cents. Identifiers are strings, as the ORM generates them.
 */
module Store {
  import opened Common

  /** The `role` column of a user; `Customer` is the role the source calls `USER`. */
  datatype Role = Admin | RestaurantOwner | Customer

  /** What the session provider resolves a request to: the signed-in user's id and role. */
  datatype Identity = Identity(id: string, role: Role)

  datatype User = User(
    id: string, email: string, name: string, password: string, role: Role, createdAt: int)

  datatype Restaurant = Restaurant(
    id: string, name: string, description: Option<string>, address: string,
    phone: Option<string>, isActive: bool, ownerId: string, createdAt: int)

  datatype MenuItem = MenuItem(
    id: string, name: string, price: int, isAvailable: bool, restaurantId: string)

  /** One line of an order; `price` is the menu item's price when the order was placed. */
  datatype OrderItem = OrderItem(menuItemId: string, quantity: int, price: int)

  /** An order row together with the order-item rows created with it. */
  datatype Order = Order(
    id: string, customerId: string, restaurantId: string, total: int,
    notes: Option<string>, status: string, createdAt: int, items: seq<OrderItem>)

  datatype NotificationChannel = NotificationChannel(
    id: string, kind: string, token: string, isActive: bool,
    userId: Option<string>, restaurantId: Option<string>)

  /** A restaurant as `GET /api/restaurants` lists it, with its menu-item count. */
  datatype RestaurantListing = RestaurantListing(restaurant: Restaurant, menuItemCount: nat)

  /** A restaurant as `GET /api/restaurants/owned` lists it, with its menu-item and order counts. */
  datatype OwnedListing = OwnedListing(restaurant: Restaurant, menuItemCount: nat, orderCount: nat)

  /** The columns of a restaurant owner that `GET /api/users/owners` exposes: no password. */
  datatype OwnerSummary = OwnerSummary(
    id: string, name: string, email: string, createdAt: int, ownedRestaurants: nat)

  /** A redirect target: the address without its query, and the query's key/value pairs in order. */
  datatype Url = Url(path: string, query: seq<(string, string)>)

  datatype Body =
    | Error(message: string)
    | OrderList(orders: seq<Order>)
    | OrderCreated(order: Order)
    | RestaurantList(listings: seq<RestaurantListing>)
    | OwnedList(owned: seq<OwnedListing>)
    | OwnerList(owners: seq<OwnerSummary>)
    | RestaurantCreated(restaurant: Restaurant)

  /** A JSON response with its status code, or a redirect. */
  datatype Response = Json(status: int, body: Body) | Redirect(url: Url)

  function Unauthorized(): Response {
    Json(401, Error("Unauthorized"))
  }

  /** The session has a user and that user has `role`. */
  predicate HasRole(session: Option<Identity>, role: Role) {
    session.Some? && session.value.role == role
  }

  function FindUser(users: seq<User>, id: string): Option<User> {
    FindFirst(users, (u: User) => u.id == id)
  }

  /** `findUnique` on restaurants `where { id, isActive: true }`. */
  function FindActiveRestaurant(restaurants: seq<Restaurant>, id: string): Option<Restaurant> {
    FindFirst(restaurants, (r: Restaurant) => r.id == id && r.isActive)
  }

  /** `findUnique` on menu items `where { id, isAvailable: true }`. */
  function FindAvailableMenuItem(menu: seq<MenuItem>, id: string): Option<MenuItem> {
    FindFirst(menu, (m: MenuItem) => m.id == id && m.isAvailable)
  }

  function MenuItemCount(menu: seq<MenuItem>, restaurantId: string): nat {
    Count(menu, (m: MenuItem) => m.restaurantId == restaurantId)
  }

  function OrderCount(orders: seq<Order>, restaurantId: string): nat {
    Count(orders, (o: Order) => o.restaurantId == restaurantId)
  }

  function OwnedRestaurantCount(restaurants: seq<Restaurant>, ownerId: string): nat {
    Count(restaurants, (r: Restaurant) => r.ownerId == ownerId)
  }

  /** The value of the first query parameter named `key`. */
  function QueryValue(query: seq<(string, string)>, key: string): Option<string> {
    if query == [] then None
    else if query[0].0 == key then Some(query[0].1)
    else QueryValue(query[1..], key)
  }

  /**
    The database: one table per entity, each a sequence of rows. The
    handlers that write append one row to one table.
   */
  class Database {
    var users: seq<User>
    var restaurants: seq<Restaurant>
    var menuItems: seq<MenuItem>
    var orders: seq<Order>
    var channels: seq<NotificationChannel>

    constructor (users: seq<User>, restaurants: seq<Restaurant>, menuItems: seq<MenuItem>,
                 orders: seq<Order>, channels: seq<NotificationChannel>)
      ensures this.users == users && this.restaurants == restaurants
      ensures this.menuItems == menuItems && this.orders == orders && this.channels == channels
    {
      this.users := users;
      this.restaurants := restaurants;
      this.menuItems := menuItems;
      this.orders := orders;
      this.channels := channels;
    }
  }
}
