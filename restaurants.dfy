/**
  `GET /api/restaurants` (the public list of active restaurants, newest
  first, each with its number of menu items) and `POST /api/restaurants`
  (an administrator creates a restaurant for an existing restaurant owner).
 */
module Restaurants {
  import opened Common
  import opened Store

  /** Newer restaurants sort first. */
  function NewestRestaurantFirst(): (Restaurant, Restaurant) -> bool {
    (a: Restaurant, b: Restaurant) => a.createdAt >= b.createdAt
  }

  /** The restaurants of a list of listings, in list order. */
  function ListedRestaurants(listings: seq<RestaurantListing>): (rs: seq<Restaurant>)
    ensures |rs| == |listings|
    ensures forall i :: 0 <= i < |rs| ==> rs[i] == listings[i].restaurant
  {
    seq(|listings|, i requires 0 <= i < |listings| => listings[i].restaurant)
  }

  /** Each restaurant paired with the number of menu items that belong to it, in order. */
  function WithMenuItemCounts(rs: seq<Restaurant>, menu: seq<MenuItem>): (out: seq<RestaurantListing>)
    ensures ListedRestaurants(out) == rs
    ensures forall i :: 0 <= i < |out| ==> out[i].menuItemCount == MenuItemCount(menu, out[i].restaurant.id)
  {
    var out := seq(|rs|, i requires 0 <= i < |rs| => RestaurantListing(rs[i], MenuItemCount(menu, rs[i].id)));
    assert ListedRestaurants(out) == rs;
    out
  }

  /**
    `GET /api/restaurants`: every active restaurant, each as often as it is
    stored and no other, newest first, each with the number of menu items
    that belong to it.
   */
  function List(restaurants: seq<Restaurant>, menu: seq<MenuItem>): (resp: Response)
    ensures resp.Json? && resp.status == 200 && resp.body.RestaurantList?
    ensures var out := resp.body.listings;
            && (forall r :: multiset(ListedRestaurants(out))[r] ==
                              if r.isActive then multiset(restaurants)[r] else 0)
            && (forall r :: r in ListedRestaurants(out) <==> r in restaurants && r.isActive)
            && (forall i :: 0 <= i < |out| ==>
                  out[i].menuItemCount == MenuItemCount(menu, out[i].restaurant.id))
            && (forall i, j :: 0 <= i < j < |out| ==>
                  out[i].restaurant.createdAt >= out[j].restaurant.createdAt)
  {
    var active := Filter(restaurants, (r: Restaurant) => r.isActive);
    var sorted := SortBy(active, NewestRestaurantFirst());
    Json(200, RestaurantList(WithMenuItemCounts(sorted, menu)))
  }

  /** The JSON body of `POST /api/restaurants`; a missing field is `None`. */
  datatype RestaurantRequest = RestaurantRequest(
    name: Option<string>, description: Option<string>, address: Option<string>,
    phone: Option<string>, ownerId: Option<string>)

  /** What creating a restaurant answers, and the restaurant it writes, if any. */
  datatype Outcome = Outcome(response: Response, created: Option<Restaurant>)

  /** `ownerId` names a user, and the first user with that id is a restaurant owner. */
  predicate IsOwnerId(users: seq<User>, ownerId: string) {
    FindUser(users, ownerId).Some? && FindUser(users, ownerId).value.role == RestaurantOwner
  }

  predicate RestaurantIdTaken(restaurants: seq<Restaurant>, id: string) {
    exists i :: 0 <= i < |restaurants| && restaurants[i].id == id
  }

  /**
    What `POST /api/restaurants` answers and writes. The guards run in the
    order session and role, required fields, owner; the first that fails
    decides the response. A new restaurant is active (the column's default).
   */
  function Create(users: seq<User>, restaurants: seq<Restaurant>, session: Option<Identity>,
                  body: Option<RestaurantRequest>, newId: string, now: int): (p: Outcome)
    ensures p.created.Some? <==> p.response.Json? && p.response.status == 201
    ensures p.created.Some? ==> p.response.body == RestaurantCreated(p.created.value)
    ensures !HasRole(session, Admin) ==> p == Outcome(Unauthorized(), None)
    ensures HasRole(session, Admin) && body.Some?
            && !(Truthy(body.value.name) && Truthy(body.value.address) && Truthy(body.value.ownerId)) ==>
              p == Outcome(Json(400, Error("Missing required fields")), None)
    ensures HasRole(session, Admin) && body.Some?
            && Truthy(body.value.name) && Truthy(body.value.address) && Truthy(body.value.ownerId)
            && !IsOwnerId(users, body.value.ownerId.value) ==>
              p == Outcome(Json(400, Error("Invalid owner")), None)
    ensures HasRole(session, Admin) && body.Some?
            && Truthy(body.value.name) && Truthy(body.value.address) && Truthy(body.value.ownerId)
            && IsOwnerId(users, body.value.ownerId.value) && !RestaurantIdTaken(restaurants, newId) ==>
              p.created.Some?
    ensures HasRole(session, Admin) && body.None? ==>
              p == Outcome(Json(500, Error("Failed to create restaurant")), None)
    ensures HasRole(session, Admin) && body.Some?
            && Truthy(body.value.name) && Truthy(body.value.address) && Truthy(body.value.ownerId)
            && IsOwnerId(users, body.value.ownerId.value) && RestaurantIdTaken(restaurants, newId) ==>
              p == Outcome(Json(500, Error("Failed to create restaurant")), None)
    ensures p.created.Some? ==>
              && HasRole(session, Admin) && body.Some?
              && var req := body.value;
              var r := p.created.value;
              && Truthy(req.name) && Truthy(req.address) && Truthy(req.ownerId)
              && r.id == newId && !RestaurantIdTaken(restaurants, newId)
              && r.name == req.name.value && r.description == req.description
              && r.address == req.address.value && r.phone == req.phone
              && r.ownerId == req.ownerId.value && IsOwnerId(users, r.ownerId)
              && r.isActive && r.createdAt == now
  {
    if !HasRole(session, Admin) then Outcome(Unauthorized(), None)
    else if body.None? then Outcome(Json(500, Error("Failed to create restaurant")), None)
    else
      var req := body.value;
      if !Truthy(req.name) || !Truthy(req.address) || !Truthy(req.ownerId) then
        Outcome(Json(400, Error("Missing required fields")), None)
      else if !IsOwnerId(users, req.ownerId.value) then
        Outcome(Json(400, Error("Invalid owner")), None)
      else if RestaurantIdTaken(restaurants, newId) then
        Outcome(Json(500, Error("Failed to create restaurant")), None)
      else
        var r := Restaurant(newId, req.name.value, req.description, req.address.value,
                            req.phone, true, req.ownerId.value, now);
        Outcome(Json(201, RestaurantCreated(r)), Some(r))
  }

  /** Every restaurant's owner is a user with the restaurant-owner role. */
  predicate OwnersValid(users: seq<User>, restaurants: seq<Restaurant>) {
    forall i :: 0 <= i < |restaurants| ==> IsOwnerId(users, restaurants[i].ownerId)
  }

  /** Creating a restaurant keeps every restaurant owned by a restaurant owner. */
  lemma CreateKeepsOwnersValid(users: seq<User>, restaurants: seq<Restaurant>, session: Option<Identity>,
                               body: Option<RestaurantRequest>, newId: string, now: int)
    requires OwnersValid(users, restaurants)
    ensures var p := Create(users, restaurants, session, body, newId, now);
            OwnersValid(users, restaurants + (if p.created.Some? then [p.created.value] else []))
  {
    var p := Create(users, restaurants, session, body, newId, now);
    if p.created.Some? {
      var after := restaurants + [p.created.value];
      assert forall i :: 0 <= i < |restaurants| ==> after[i] == restaurants[i];
    }
  }

  /** A restaurant just created shows up in the public list. */
  lemma CreatedRestaurantIsListed(users: seq<User>, restaurants: seq<Restaurant>, menu: seq<MenuItem>,
                                  session: Option<Identity>, body: Option<RestaurantRequest>,
                                  newId: string, now: int)
    requires Create(users, restaurants, session, body, newId, now).created.Some?
    ensures var r := Create(users, restaurants, session, body, newId, now).created.value;
            r in ListedRestaurants(List(restaurants + [r], menu).body.listings)
  {
  }

  /**
    `POST /api/restaurants` against the store: it answers as `Create`
    decides and appends the restaurant it creates, if any.
   */
  method Post(db: Database, session: Option<Identity>, body: Option<RestaurantRequest>,
              newId: string, now: int) returns (resp: Response)
    modifies db`restaurants
    ensures var p := Create(db.users, old(db.restaurants), session, body, newId, now);
            && resp == p.response
            && db.restaurants == old(db.restaurants) + (if p.created.Some? then [p.created.value] else [])
  {
    if !HasRole(session, Admin) {
      return Unauthorized();
    }
    if body.None? {
      return Json(500, Error("Failed to create restaurant"));
    }
    var req := body.value;
    if !Truthy(req.name) || !Truthy(req.address) || !Truthy(req.ownerId) {
      return Json(400, Error("Missing required fields"));
    }
    var owner := FindUser(db.users, req.ownerId.value);
    if owner.None? || owner.value.role != RestaurantOwner {
      return Json(400, Error("Invalid owner"));
    }
    if RestaurantIdTaken(db.restaurants, newId) {
      return Json(500, Error("Failed to create restaurant"));
    }
    var r := Restaurant(newId, req.name.value, req.description, req.address.value,
                        req.phone, true, req.ownerId.value, now);
    db.restaurants := db.restaurants + [r];
    resp := Json(201, RestaurantCreated(r));
  }
}
