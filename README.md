# Food-ordering API handlers, modelled in Dafny

This project models the server route handlers of a small food-ordering marketplace (Next.js route handlers over a Prisma store):

- placing an order and listing one's own orders (`/api/orders`);
- the public restaurant list and the administrator's restaurant creation (`/api/restaurants`);
- a restaurant owner's own restaurants (`/api/restaurants/owned`);
- the administrator's list of restaurant owners (`/api/users/owners`);
- linking a LINE Notify channel (`/api/line/authorize` and `/api/line/callback`).

Each handler runs its guard checks in order. It then queries the store, or writes one row to it.

How the pieces are represented:

- **The store** is the class `Store.Database`. It holds one `seq` per table: users, restaurants, menu items, orders (each with its order items) and notification channels.
- **The session** is an explicit `Option<Identity>` argument.
- **Each outcome** is a `Store.Response`: either a JSON status and body, or a redirect whose query is a list of key/value pairs.
- **Reading handlers** (the GETs and the LINE authorize step) are pure functions over the tables.
- **Writing handlers** (`Orders.Post`, `Restaurants.Post`, `LineCallback.Callback`) are methods that append to one table. Each is proved against a pure function that decides the response and the row written (`Orders.PlaceOrder`, `Restaurants.Create`, `LineCallback.HandleCallback`). The lemmas about those functions carry the properties.
- **Order pricing** keeps the source's loop inside `Orders.Post`. It walks the cart, returns on the first missing or unavailable menu item, and accumulates the total and the order items. Its invariant ties the loop state to `Orders.PriceCart`, a function that prices a prefix of the cart.

Modules: `Common` (Option, JavaScript truthiness, filter / find-first / sort, text order), `Store`, `Orders`, `LineAuthorize`, `LineCallback`, `Restaurants`, `OwnedRestaurants`, `Owners`.

Facts the model relies on, taken from the code:

- A cart line carries no price. The total is built only from stored menu-item prices, and each order item keeps the price it had when the order was placed.
- The order handler never checks that a menu item belongs to the ordered restaurant, and never checks `quantity`. The model does not add either check. Quantities are unconstrained integers.
- The LINE `state` is `type-userId[-restaurantId]` with no signature or nonce. The callback splits it on `-` and reads parts 0, 1 and 2. This recovers the three values exactly when none of them contains `-` (`LineCallback.StateRoundTrip`). The seeded restaurant id `demo-restaurant-1` comes back as `demo` (`LineCallback.SeededRestaurantIdBreaksRoundTrip`).
- A template string renders `null` as `"null"`. So a missing `type` encodes as `null-…`, and a restaurant-type state without a restaurant id redirects to `/merchant/null/notifications`.
- The callback stores the channel for whatever subject the state names. The authorize handler never checks that the caller owns the restaurant.

The code does not enforce the following, and neither does the model:

- Order items have no `quantity >= 1` check.
- A channel may have neither a user nor a restaurant set. This happens when the type is neither `user` nor `restaurant`, or a restaurant-type state has no restaurant id. The channel never has both.
- A role failure is never answered 403; it is always 401.
- The restaurant-owner role of a restaurant's owner is checked only when the restaurant is created.

Assumptions about the store schema, which is not part of this model:

- Inserting a row whose id is already taken, or whose user or restaurant reference does not exist, makes the store throw. The handler's `catch` then answers 500, or redirects with `line_callback_failed`. For an order, the reference checked is the customer (the session's user id). The restaurant and the menu items have already been found at that point.
- A new restaurant is active. The seed script creates its restaurant without `isActive` (prisma/seed.ts:49-60) and expects it to be listed.

## Model

| member | source | states |
|---|---|---|
| Common.Filter | src/app/api/orders/route.ts:118-121 | a `where` query keeps exactly the rows satisfying the condition, each with its stored multiplicity, and no others |
| Common.Count | src/app/api/restaurants/route.ts:19-23 | a `_count` counted row by row equals the number of rows the matching `where` query returns, and is at most the table's size |
| Common.FindFirst | src/app/api/orders/route.ts:28-30 | a `findUnique` returns a stored row satisfying the condition, and returns nothing only when no row does |
| Common.SortBy | src/app/api/orders/route.ts:140-142 | an `orderBy` returns a permutation of its input that is ordered by the given total preorder |
| Common.TextLeTransitive | src/app/api/users/owners/route.ts:32-34 | ordering names lexicographically is transitive |
| Common.TextLeTotal | src/app/api/users/owners/route.ts:32-34 | any two names are comparable |
| Common.TextLeAntisymmetric | src/app/api/users/owners/route.ts:32-34 | two names that each sort no later than the other are equal |
| Orders.PriceCartSucceedsIffAllAvailable | src/app/api/orders/route.ts:43-53 | the cart is priced if and only if every line names an existing, available menu item |
| Orders.PriceCartSnapshotsStoredPrices | src/app/api/orders/route.ts:55-62 | a priced cart has one order item per line, in cart order, with the line's id and quantity and the stored price; duplicates are not merged; the total is the sum of the items' price × quantity |
| Orders.PriceCartNamesFirstUnavailable | src/app/api/orders/route.ts:43-53 | a rejected cart names the first line whose menu item is missing or unavailable, and every earlier line was available |
| Orders.PriceCartStopsAtFirstFailure | src/app/api/orders/route.ts:48-53 | once a prefix of the cart is rejected, the later lines do not change the outcome (the early return) |
| Orders.PlaceOrder | src/app/api/orders/route.ts:6-104 | an order is written exactly when the answer is 201, and that answer carries it; no session gives 401; a missing restaurant id, or items that are missing, not an array or empty, give 400; a body that does not parse, or an insert the store rejects (a taken id or a missing customer) after every check passed, gives 500 "Failed to create order" |
| Orders.OrderCreatedWhenValid | src/app/api/orders/route.ts:10-97 | a request with a session, a restaurant id, a non-empty cart, an active restaurant and every line available is answered 201 with an order, when the id is fresh and the customer is stored |
| Orders.OrderCreatedOnlyWhenValid | src/app/api/orders/route.ts:10-97 | a written order required a session, the required fields, an active restaurant, all items available, a fresh id and a stored customer; it belongs to the caller and the restaurant, is PENDING, stores the given notes, or null when they were absent or empty, has one item per cart line with the stored price, and its total equals the sum of its items |
| Orders.UnavailableItemRejectsWholeOrder | src/app/api/orders/route.ts:43-66 | if any line's menu item is missing or unavailable, the answer is 400 naming the first such item, and no order is written |
| Orders.MissingFieldsRejectedBeforeLookup | src/app/api/orders/route.ts:20-30 | the required-field rejection does not depend on the store's contents |
| Orders.InactiveRestaurantNotFound | src/app/api/orders/route.ts:28-37 | when no active restaurant has the id, the answer is 404 and no order is written |
| Orders.PricingScenario | src/app/api/orders/route.ts:40-72 | 2 × 12.99 + 1 × 14.99 gives a PENDING order of 40.97 with the two price snapshots |
| Orders.Post | src/app/api/orders/route.ts:6-104 | the handler's loop answers as `PlaceOrder` does, and appends exactly the order `PlaceOrder` creates; earlier orders and their item prices are untouched |
| Orders.Get | src/app/api/orders/route.ts:107-145 | no session gives 401; otherwise exactly the caller's orders, with their stored multiplicities, newest first |
| LineAuthorize.Authorize | src/app/api/line/authorize/route.ts:5-42 | no session gives 401; an unset client id or redirect URI gives 500; otherwise a redirect to LINE's authorize endpoint with `response_type=code`, `scope=notify`, the configured `client_id` and `redirect_uri`, and `state` = `EncodeState(type, user id, restaurantId)`; it redirects exactly in that case |
| LineAuthorize.StateIsPredictable | src/app/api/line/authorize/route.ts:32 | the state depends only on the type, the user id and the restaurant id, not on role, configuration, secret or nonce |
| LineCallback.Split | src/app/api/line/callback/route.ts:21 | JavaScript's `split('-')` gives at least one part, and no part contains `-` |
| LineCallback.JoinSplit | src/app/api/line/callback/route.ts:21 | joining the parts with `-` gives back the split string |
| LineCallback.SplitJoin | src/app/api/line/callback/route.ts:21 | splitting undoes joining when no part contains `-` |
| LineCallback.SplitSeveralIffDash | src/app/api/line/callback/route.ts:21-24 | a string splits into two or more parts if and only if it contains `-` |
| LineCallback.DecodeState | src/app/api/line/callback/route.ts:21-28 | decoding fails (invalid state) if and only if the state has no `-`; decoded fields contain no `-`, and a decoded restaurant id is non-empty |
| LineCallback.StateRoundTrip | src/app/api/line/callback/route.ts:21-28 | decoding the authorize handler's state recovers the type, the user id and the non-empty restaurant id if and only if none of them contains `-` |
| LineCallback.SeededRestaurantIdBreaksRoundTrip | prisma/seed.ts:49-60 | with the seeded restaurant id `demo-restaurant-1`, the callback decodes the restaurant id `demo` |
| LineCallback.DecodeThreeParts | src/app/api/line/callback/route.ts:21-28 | a state of exactly three dash-free parts decodes to the type, the user id and the third part as restaurant id, or no restaurant id when the third part is empty (`stateParts[2] \|\| null`) |
| LineCallback.DecodeIgnoresPartsAfterThird | src/app/api/line/callback/route.ts:26-28 | parts after the third are discarded; the type, the user id and the third part are read, and an empty third part reads as no restaurant id |
| LineCallback.HandleCallback | src/app/api/line/callback/route.ts:4-72 | an `error` parameter wins first (`line_auth_failed`); then a missing code or state gives `invalid_callback`; with a well-formed state, a failed exchange redirects with `line_callback_failed` and creates nothing; after a successful exchange a channel is created if and only if the store accepts the row (fresh id, the referenced user or restaurant exists), and otherwise the redirect is `line_callback_failed`; a channel is created exactly when the redirect carries `success=line_connected`; a created channel is LINE, active, carries the exchanged token, has the decoded user id exactly for type `user` and the decoded restaurant id exactly for type `restaurant` (so never both), and the success redirect goes to `/merchant/{restaurantId}/notifications` for type `restaurant` and to `/profile` otherwise |
| LineCallback.UserChannelCreated | src/app/api/line/callback/route.ts:52-67 | a callback with a code, a `user` state for a stored user without `-` in its id, a token and a fresh channel id stores a LINE channel for that user and redirects to `/profile?success=line_connected` |
| LineCallback.RestaurantChannelCreated | src/app/api/line/callback/route.ts:52-67 | a callback with a code, a `restaurant` state for a stored restaurant, with no `-` in the ids, a token and a fresh channel id stores a LINE channel for that restaurant and redirects to its notifications page with `success=line_connected` |
| LineCallback.DashlessStateIsInvalid | src/app/api/line/callback/route.ts:21-24 | a state with fewer than two parts redirects with `invalid_state` and creates nothing |
| LineCallback.Callback | src/app/api/line/callback/route.ts:52-67 | the handler redirects as `HandleCallback` decides, and appends exactly the channel it creates |
| Restaurants.List | src/app/api/restaurants/route.ts:6-30 | exactly the active restaurants, with their stored multiplicities, newest first, each with the number of menu items whose restaurant it is |
| Restaurants.Create | src/app/api/restaurants/route.ts:40-91 | the guards decide in the order admin (401), then required fields (400), then owner (400 "Invalid owner"); an admin request with the fields, a restaurant-owner `ownerId` and a fresh id is always written; a restaurant is written exactly when the answer is 201; it carries the supplied name, description, address, phone and owner id, is active, and its owner is a restaurant owner; a body that does not parse, or a taken id after every check passed, gives 500 "Failed to create restaurant" |
| Restaurants.CreateKeepsOwnersValid | src/app/api/restaurants/route.ts:61-80 | if every restaurant's owner is a restaurant owner before a creation, that still holds after it |
| Restaurants.CreatedRestaurantIsListed | src/app/api/restaurants/route.ts:73-80 | a restaurant just created appears in the public list |
| Restaurants.Post | src/app/api/restaurants/route.ts:40-91 | the handler answers as `Create` does, and appends exactly the restaurant `Create` creates |
| OwnedRestaurants.ListOwned | src/app/api/restaurants/owned/route.ts:6-34 | a non-owner or no session gives 401; otherwise exactly the restaurants the caller owns, inactive ones included, with their stored multiplicities, newest first, each with its menu-item and order counts |
| OwnedRestaurants.InactiveRestaurantListedToOwner | src/app/api/restaurants/owned/route.ts:17-21 | an inactive restaurant is listed to its owner, though the public list omits it |
| Owners.ListOwners | src/app/api/users/owners/route.ts:6-37 | a non-admin or no session gives 401; otherwise the summaries of the restaurant owners, each as often as the owner is stored, and none for anyone else, sorted by name ascending, each counting the restaurants that user owns; a summary has only id, name, email, createdAt and the count |
| Owners.ByNameIsTotalPreorder | src/app/api/users/owners/route.ts:32-34 | ordering users by name is total and transitive, so the sort is well defined |
| Owners.SummariesOfOwners | src/app/api/users/owners/route.ts:17-31 | summarizing exactly the owner users yields a summary for each owner, and every summary is some owner's |
| Owners.SummariesPermutation | src/app/api/users/owners/route.ts:17-35 | summarizing the owners after sorting them gives the same summaries, with the same multiplicities, as summarizing them in stored order |

## Left out

- Pages, components and layout: this is React UI, not handler logic.
- The seed script is not modelled. Its restaurant id serves only as the round-trip counterexample.
- Session resolution is a parameter (`Option<Identity>`).
- Environment variables are parameters: `LINE_CLIENT_ID` and `LINE_REDIRECT_URI` (`LineConfig`), and `NEXTAUTH_URL` (`baseUrl`).
- The LINE token exchange is a network call. It is the parameter `TokenExchange`: a token, or a failure of any kind (HTTP error, network error, unreadable JSON).
- JSON body parsing is a parameter. A body that does not parse is `None` and answers 500. JSON values of unexpected types, such as a numeric `restaurantId` or a cart line without `quantity` or `menuItemId`, are not modelled: truthiness is modelled for strings only, and every cart line has both fields.
- Prices are integer cents. JavaScript floating-point multiplication and rounding are not modelled.
- Each handler is one atomic step. Concurrent requests between the availability check and the order insert are not modelled.
- Row ids and `createdAt` are parameters (the id the store would generate, the current time).
- Store failures other than a taken id or a missing foreign-key target are not modelled. This includes the `catch` branches of the GET handlers.
- Response shaping is not modelled: the denormalized restaurant and menu-item names, and owner name and email.
- URL serialization and percent-encoding are not modelled. A redirect is a path plus an ordered list of query parameters.
- Logging is not modelled.
- Orders.Get: does not fix the order among orders with equal `createdAt`, because the database leaves it unspecified.
- Restaurants.List: does not fix the order among restaurants with equal `createdAt`, for the same reason.
- OwnedRestaurants.ListOwned: does not fix the order among restaurants with equal `createdAt`, for the same reason.
- Owners.ListOwners: names are compared by character code, not by the database's collation. The order among equal names is not fixed. User names are never null.
- The restaurant-detail route (`/api/restaurants/{id}`) is not part of this model.
