/**
  `GET /api/restaurants/owned`: a restaurant owner's own restaurants,
  inactive ones included, newest first, each with its numbers of menu items
  and orders.
 */
module OwnedRestaurants {
  import opened Common
  import opened Store
  import Restaurants

  /** The restaurants of a list of owned listings, in list order. */
  function ListedRestaurants(listings: seq<OwnedListing>): (rs: seq<Restaurant>)
    ensures |rs| == |listings|
    ensures forall i :: 0 <= i < |rs| ==> rs[i] == listings[i].restaurant
  {
    seq(|listings|, i requires 0 <= i < |listings| => listings[i].restaurant)
  }

  /** Each restaurant paired with its numbers of menu items and orders, in order. */
  function WithCounts(rs: seq<Restaurant>, menu: seq<MenuItem>, orders: seq<Order>): (out: seq<OwnedListing>)
    ensures ListedRestaurants(out) == rs
    ensures forall i :: 0 <= i < |out| ==>
              && out[i].menuItemCount == MenuItemCount(menu, out[i].restaurant.id)
              && out[i].orderCount == OrderCount(orders, out[i].restaurant.id)
  {
    var out := seq(|rs|, i requires 0 <= i < |rs| =>
                     OwnedListing(rs[i], MenuItemCount(menu, rs[i].id), OrderCount(orders, rs[i].id)));
    assert ListedRestaurants(out) == rs;
    out
  }

  /**
    Without a session or with another role, 401. Otherwise every restaurant
    whose owner is the caller, active or not, each as often as it is stored
    and no other, newest first, with its counts.
   */
  function ListOwned(restaurants: seq<Restaurant>, menu: seq<MenuItem>, orders: seq<Order>,
                     session: Option<Identity>): (resp: Response)
    ensures !HasRole(session, RestaurantOwner) ==> resp == Unauthorized()
    ensures HasRole(session, RestaurantOwner) ==>
              && resp.Json? && resp.status == 200 && resp.body.OwnedList?
              && var out := resp.body.owned;
              && (forall r :: multiset(ListedRestaurants(out))[r] ==
                                if r.ownerId == session.value.id then multiset(restaurants)[r] else 0)
              && (forall r :: r in ListedRestaurants(out) <==> r in restaurants && r.ownerId == session.value.id)
              && (forall i :: 0 <= i < |out| ==>
                    && out[i].menuItemCount == MenuItemCount(menu, out[i].restaurant.id)
                    && out[i].orderCount == OrderCount(orders, out[i].restaurant.id))
              && (forall i, j :: 0 <= i < j < |out| ==>
                    out[i].restaurant.createdAt >= out[j].restaurant.createdAt)
  {
    if !HasRole(session, RestaurantOwner) then Unauthorized()
    else
      var mine := Filter(restaurants, (r: Restaurant) => r.ownerId == session.value.id);
      var sorted := SortBy(mine, Restaurants.NewestRestaurantFirst());
      Json(200, OwnedList(WithCounts(sorted, menu, orders)))
  }

  /** An inactive restaurant is still listed to its owner. */
  lemma InactiveRestaurantListedToOwner(restaurants: seq<Restaurant>, menu: seq<MenuItem>, orders: seq<Order>,
                                        owner: Identity, r: Restaurant)
    requires owner.role == RestaurantOwner
    requires r in restaurants && r.ownerId == owner.id && !r.isActive
    ensures r in ListedRestaurants(ListOwned(restaurants, menu, orders, Some(owner)).body.owned)
    ensures r !in Restaurants.ListedRestaurants(Restaurants.List(restaurants, menu).body.listings)
  {
  }
}
