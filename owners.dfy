/**
  `GET /api/users/owners`: for an administrator, every user with the
  restaurant-owner role, sorted by name, as a summary that leaves the
  password out and counts the restaurants the user owns.
 */
module Owners {
  import opened Common
  import opened Store

  predicate IsOwner(u: User) {
    u.role == RestaurantOwner
  }

  /** The selected columns of an owner, and the number of restaurants it owns. */
  function Summarize(u: User, restaurants: seq<Restaurant>): OwnerSummary {
    OwnerSummary(u.id, u.name, u.email, u.createdAt, OwnedRestaurantCount(restaurants, u.id))
  }

  /** `e` is the summary of some restaurant owner among `users`. */
  ghost predicate IsOwnerSummary(e: OwnerSummary, users: seq<User>, restaurants: seq<Restaurant>) {
    exists u :: u in users && IsOwner(u) && e == Summarize(u, restaurants)
  }

  /** Users in ascending order of name. */
  function ByName(): (User, User) -> bool {
    (a: User, b: User) => TextLe(a.name, b.name)
  }

  lemma ByNameIsTotalPreorder()
    ensures TotalPreorder(ByName())
  {
    forall a: User, b: User ensures ByName()(a, b) || ByName()(b, a) {
      TextLeTotal(a.name, b.name);
    }
    forall a: User, b: User, c: User | ByName()(a, b) && ByName()(b, c) ensures ByName()(a, c) {
      TextLeTransitive(a.name, b.name, c.name);
    }
  }

  function Summaries(us: seq<User>, restaurants: seq<Restaurant>): (out: seq<OwnerSummary>)
    ensures |out| == |us|
    ensures forall i :: 0 <= i < |out| ==> out[i] == Summarize(us[i], restaurants)
  {
    seq(|us|, i requires 0 <= i < |us| => Summarize(us[i], restaurants))
  }

  lemma SummariesAppend(a: seq<User>, b: seq<User>, restaurants: seq<Restaurant>)
    ensures multiset(Summaries(a + b, restaurants))
         == multiset(Summaries(a, restaurants)) + multiset(Summaries(b, restaurants))
  {
    assert Summaries(a + b, restaurants) == Summaries(a, restaurants) + Summaries(b, restaurants);
  }

  /** Summarizing a reordering of the same users yields a reordering of the same summaries. */
  lemma {:induction false} SummariesPermutation(a: seq<User>, b: seq<User>, restaurants: seq<Restaurant>)
    requires multiset(a) == multiset(b)
    ensures multiset(Summaries(a, restaurants)) == multiset(Summaries(b, restaurants))
    decreases |a|
  {
    if a != [] {
      var x := a[0];
      assert x in multiset(b);
      var k :| 0 <= k < |b| && b[k] == x;
      var pre, post := b[..k], b[k + 1..];
      assert b == pre + ([x] + post);
      assert a == [x] + a[1..];
      RemoveFromBoth(a, pre, x, post);
      SummariesPermutation(a[1..], pre + post, restaurants);
      SummariesAppend([x], a[1..], restaurants);
      SummariesAppend(pre, [x] + post, restaurants);
      SummariesAppend([x], post, restaurants);
      SummariesAppend(pre, post, restaurants);
    }
  }

  /** Summarizing a sequence holding exactly the owners yields exactly the owners' summaries. */
  lemma SummariesOfOwners(users: seq<User>, restaurants: seq<Restaurant>, us: seq<User>)
    requires forall u :: u in us <==> u in users && IsOwner(u)
    ensures var out := Summaries(us, restaurants);
            && (forall i :: 0 <= i < |out| ==>
                  IsOwnerSummary(out[i], users, restaurants))
            && (forall u :: u in users && IsOwner(u) ==> Summarize(u, restaurants) in out)
  {
    var out := Summaries(us, restaurants);
    forall i | 0 <= i < |out|
      ensures IsOwnerSummary(out[i], users, restaurants)
    {
      assert us[i] in us;
      assert us[i] in users && IsOwner(us[i]) && out[i] == Summarize(us[i], restaurants);
    }
    forall u | u in users && IsOwner(u) ensures Summarize(u, restaurants) in out {
      var k :| 0 <= k < |us| && us[k] == u;
      assert out[k] == Summarize(u, restaurants);
    }
  }

  /**
    Without a session or with a role other than administrator, 401.
    Otherwise one summary per restaurant owner and none for anyone else,
    in ascending order of name, each counting the restaurants whose owner
    is that user.
   */
  function ListOwners(users: seq<User>, restaurants: seq<Restaurant>, session: Option<Identity>): (resp: Response)
    ensures !HasRole(session, Admin) ==> resp == Unauthorized()
    ensures HasRole(session, Admin) ==>
              && resp.Json? && resp.status == 200 && resp.body.OwnerList?
              && var out := resp.body.owners;
              && |out| == Count(users, IsOwner)
              && multiset(out) == multiset(Summaries(Filter(users, IsOwner), restaurants))
              && (forall i :: 0 <= i < |out| ==>
                    IsOwnerSummary(out[i], users, restaurants))
              && (forall u :: u in users && IsOwner(u) ==> Summarize(u, restaurants) in out)
              && (forall i :: 0 <= i < |out| ==>
                    out[i].ownedRestaurants == OwnedRestaurantCount(restaurants, out[i].id))
              && (forall i, j :: 0 <= i < j < |out| ==> TextLe(out[i].name, out[j].name))
  {
    if !HasRole(session, Admin) then Unauthorized()
    else
      var owners := Filter(users, IsOwner);
      ByNameIsTotalPreorder();
      var sorted := SortBy(owners, ByName());
      var out := Summaries(sorted, restaurants);
      SummariesOfOwners(users, restaurants, sorted);
      SummariesPermutation(sorted, owners, restaurants);
      Json(200, OwnerList(out))
  }
}
