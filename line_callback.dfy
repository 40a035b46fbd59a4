/**
  `GET /api/line/callback`: where LINE Notify sends the user back. The
  handler decodes `state` by splitting it on `-`, exchanges the code for a
  token and stores a notification channel for the decoded user or
  restaurant. Every failure ends in a redirect to the profile page with an
  error flag and stores nothing.

  Splitting on `-` undoes the authorize handler's encoding only when no
  component contains `-`; the restaurant id `demo-restaurant-1` that the
  seed script creates is decoded as `demo`.
 */
module LineCallback {
  import opened Common
  import opened Store
  import LineAuthorize

  /** `s.split('-')` as JavaScript computes it: one more part than `s` has dashes. */
  function Split(s: string): (parts: seq<string>)
    ensures |parts| >= 1
    ensures forall i :: 0 <= i < |parts| ==> '-' !in parts[i]
    decreases |s|
  {
    if s == [] then [""]
    else
      var rest := Split(s[1..]);
      if s[0] == '-' then [""] + rest
      else [[s[0]] + rest[0]] + rest[1..]
  }

  /** The parts glued back together with `-` between them. */
  function Join(parts: seq<string>): string
    requires |parts| >= 1
  {
    if |parts| == 1 then parts[0] else parts[0] + "-" + Join(parts[1..])
  }

  /** Splitting loses nothing: gluing the parts back gives the original string. */
  lemma {:induction false} JoinSplit(s: string)
    ensures Join(Split(s)) == s
    decreases |s|
  {
    if s != [] {
      JoinSplit(s[1..]);
      var rest := Split(s[1..]);
      if s[0] != '-' {
        var parts := Split(s);
        assert parts[0] == [s[0]] + rest[0];
        if |rest| > 1 {
          assert parts[1..] == rest[1..];
        }
      }
      assert s == [s[0]] + s[1..];
    }
  }

  /** A string without `-` is one part. */
  lemma {:induction false} SplitDashFree(a: string)
    requires '-' !in a
    ensures Split(a) == [a]
    decreases |a|
  {
    if a != [] {
      SplitDashFree(a[1..]);
      assert a == [a[0]] + a[1..];
    }
  }

  /** A dash-free head followed by `-` splits off as the first part. */
  lemma {:induction false} SplitAtFirstDash(a: string, b: string)
    requires '-' !in a
    ensures Split(a + "-" + b) == [a] + Split(b)
    decreases |a|
  {
    if a == [] {
      assert a + "-" + b == ['-'] + b;
      assert (['-'] + b)[1..] == b;
    } else {
      assert (a + "-" + b)[1..] == a[1..] + "-" + b;
      SplitAtFirstDash(a[1..], b);
      assert a == [a[0]] + a[1..];
    }
  }

  /** Splitting undoes joining when no part contains `-`. */
  lemma {:induction false} SplitJoin(parts: seq<string>)
    requires |parts| >= 1
    requires forall i :: 0 <= i < |parts| ==> '-' !in parts[i]
    ensures Split(Join(parts)) == parts
    decreases |parts|
  {
    if |parts| == 1 {
      SplitDashFree(parts[0]);
    } else {
      SplitJoin(parts[1..]);
      SplitAtFirstDash(parts[0], Join(parts[1..]));
      assert parts == [parts[0]] + parts[1..];
    }
  }

  /** A string splits into two or more parts exactly when it contains `-`. */
  lemma SplitSeveralIffDash(s: string)
    ensures |Split(s)| >= 2 <==> '-' in s
  {
    JoinSplit(s);
    var parts := Split(s);
    if |parts| >= 2 {
      assert s == parts[0] + "-" + Join(parts[1..]);
      assert s[|parts[0]|] == '-';
    }
  }

  /** What the callback reads out of `state`. */
  datatype StateFields = StateFields(kind: string, userId: string, restaurantId: Option<string>)

  /**
    Parts 0 and 1 are the type and the user id; part 2, when present and not
    empty, is the restaurant id; parts after 2 are dropped. Fewer than two
    parts is a malformed state.
   */
  function DecodeState(state: string): (r: Option<StateFields>)
    ensures r.None? <==> '-' !in state
    ensures r.Some? ==>
              && '-' !in r.value.kind && '-' !in r.value.userId
              && (r.value.restaurantId.Some? ==>
                    '-' !in r.value.restaurantId.value && r.value.restaurantId.value != "")
  {
    SplitSeveralIffDash(state);
    var parts := Split(state);
    if |parts| < 2 then None
    else
      Some(StateFields(parts[0], parts[1],
                       if |parts| > 2 && parts[2] != "" then Some(parts[2]) else None))
  }

  /**
    The decoder recovers the type, the user id and the (non-empty)
    restaurant id that the authorize handler encoded exactly when none of
    them contains `-`.
   */
  lemma StateRoundTrip(kind: Option<string>, userId: string, restaurantId: Option<string>)
    ensures DecodeState(LineAuthorize.EncodeState(kind, userId, restaurantId))
              == Some(StateFields(NullText(kind), userId,
                                  if Truthy(restaurantId) then restaurantId else None))
            <==> '-' !in NullText(kind) && '-' !in userId
                 && (Truthy(restaurantId) ==> '-' !in restaurantId.value)
  {
    var state := LineAuthorize.EncodeState(kind, userId, restaurantId);
    if '-' !in NullText(kind) && '-' !in userId && (Truthy(restaurantId) ==> '-' !in restaurantId.value) {
      if Truthy(restaurantId) {
        var parts := [NullText(kind), userId, restaurantId.value];
        assert parts[1..][1..] == [restaurantId.value];
        assert Join(parts[1..]) == userId + "-" + restaurantId.value;
        assert Join(parts) == state;
        SplitJoin(parts);
      } else {
        var parts := [NullText(kind), userId];
        assert parts[1..] == [userId];
        assert Join(parts) == state;
        SplitJoin(parts);
      }
    }
  }

  /**
    The seeded restaurant id `demo-restaurant-1` does not survive the round
    trip: the callback reads the restaurant id `demo`.
   */
  lemma SeededRestaurantIdBreaksRoundTrip(ownerId: string)
    requires '-' !in ownerId
    ensures DecodeState(LineAuthorize.EncodeState(Some("restaurant"), ownerId, Some("demo-restaurant-1")))
            == Some(StateFields("restaurant", ownerId, Some("demo")))
  {
    var parts := ["restaurant", ownerId, "demo", "restaurant", "1"];
    var p1 := parts[1..];
    var p2 := p1[1..];
    var p3 := p2[1..];
    assert p3[1..] == ["1"];
    assert Join(p3) == "restaurant-1";
    assert Join(p2) == "demo-restaurant-1";
    assert Join(p1) == ownerId + "-demo-restaurant-1";
    assert Join(parts) == LineAuthorize.EncodeState(Some("restaurant"), ownerId, Some("demo-restaurant-1"));
    SplitJoin(parts);
  }

  /**
    A state of exactly three parts is read as the type, the user id and the
    restaurant id; an empty third part (`user-alice-`) reads as no
    restaurant id, as `stateParts[2] || null` does.
   */
  lemma DecodeThreeParts(kind: string, userId: string, restaurantId: string)
    requires '-' !in kind && '-' !in userId && '-' !in restaurantId
    ensures DecodeState(kind + "-" + userId + "-" + restaurantId)
            == Some(StateFields(kind, userId, if restaurantId != "" then Some(restaurantId) else None))
  {
    var parts := [kind, userId, restaurantId];
    assert parts[1..][1..] == [restaurantId];
    assert Join(parts[1..]) == userId + "-" + restaurantId;
    assert Join(parts) == kind + "-" + userId + "-" + restaurantId;
    SplitJoin(parts);
  }

  /**
    Whatever follows the third part of a state is ignored: only the type,
    the user id and the restaurant id are read, and an empty third part
    reads as no restaurant id.
   */
  lemma DecodeIgnoresPartsAfterThird(kind: string, userId: string, restaurantId: string, rest: string)
    requires '-' !in kind && '-' !in userId && '-' !in restaurantId
    ensures DecodeState(kind + "-" + userId + "-" + restaurantId + "-" + rest)
            == Some(StateFields(kind, userId, if restaurantId != "" then Some(restaurantId) else None))
  {
    var tail := restaurantId + "-" + rest;
    var afterKind := userId + "-" + tail;
    assert kind + "-" + userId + "-" + restaurantId + "-" + rest == kind + "-" + afterKind;
    SplitAtFirstDash(restaurantId, rest);
    SplitAtFirstDash(userId, tail);
    SplitAtFirstDash(kind, afterKind);
    var parts := Split(kind + "-" + afterKind);
    assert parts == [kind] + ([userId] + ([restaurantId] + Split(rest)));
    assert parts[0] == kind && parts[1] == userId && parts[2] == restaurantId;
  }

  /** The query of the callback request. */
  datatype CallbackParams = CallbackParams(code: Option<string>, state: Option<string>, error: Option<string>)

  /** What exchanging the code at LINE's token endpoint gives: a token, or a failure of any kind. */
  datatype TokenExchange = Exchanged(accessToken: string) | ExchangeFailed

  /** Where the callback sends the browser, and the channel it stores, if any. */
  datatype CallbackOutcome = CallbackOutcome(location: Url, created: Option<NotificationChannel>)

  function ProfileRedirect(baseUrl: string, flag: string, value: string): Url {
    Url(baseUrl + "/profile", [(flag, value)])
  }

  /** The channel row the handler creates for a decoded state. */
  function NewChannel(fields: StateFields, token: string, newId: string): NotificationChannel {
    NotificationChannel(newId, "LINE", token, true,
                        if fields.kind == "user" then Some(fields.userId) else None,
                        if fields.kind == "restaurant" then fields.restaurantId else None)
  }

  /**
    The store accepts the row: its id is new and the user and restaurant it
    refers to exist (foreign keys).
   */
  predicate ChannelInsertable(users: seq<User>, restaurants: seq<Restaurant>,
                              channels: seq<NotificationChannel>, c: NotificationChannel) {
    && (forall i :: 0 <= i < |channels| ==> channels[i].id != c.id)
    && (c.userId.Some? ==> exists i :: 0 <= i < |users| && users[i].id == c.userId.value)
    && (c.restaurantId.Some? ==> exists i :: 0 <= i < |restaurants| && restaurants[i].id == c.restaurantId.value)
  }

  /**
    The callback's decision ladder: an `error` parameter, then a missing
    `code` or `state`, then a malformed `state`, then a failed token
    exchange or a rejected insert, and finally the success redirect.
   */
  function HandleCallback(users: seq<User>, restaurants: seq<Restaurant>, channels: seq<NotificationChannel>,
                          params: CallbackParams, exchange: TokenExchange,
                          newId: string, baseUrl: string): (r: CallbackOutcome)
    ensures r.created.Some? <==> r.location.query == [("success", "line_connected")]
    ensures Truthy(params.error) ==>
              r == CallbackOutcome(ProfileRedirect(baseUrl, "error", "line_auth_failed"), None)
    ensures !Truthy(params.error) && !(Truthy(params.code) && Truthy(params.state)) ==>
              r == CallbackOutcome(ProfileRedirect(baseUrl, "error", "invalid_callback"), None)
    ensures exchange.ExchangeFailed? ==> r.created.None?
    ensures !Truthy(params.error) && Truthy(params.code) && Truthy(params.state)
            && DecodeState(params.state.value).Some? && exchange.ExchangeFailed? ==>
              r == CallbackOutcome(ProfileRedirect(baseUrl, "error", "line_callback_failed"), None)
    ensures !Truthy(params.error) && Truthy(params.code) && Truthy(params.state)
            && DecodeState(params.state.value).Some? && exchange.Exchanged? ==>
              (r.created.Some? <==>
                 ChannelInsertable(users, restaurants, channels,
                                   NewChannel(DecodeState(params.state.value).value, exchange.accessToken, newId)))
    ensures !Truthy(params.error) && Truthy(params.code) && Truthy(params.state)
            && DecodeState(params.state.value).Some? && r.created.None? ==>
              r.location == ProfileRedirect(baseUrl, "error", "line_callback_failed")
    ensures r.created.Some? ==>
              && !Truthy(params.error) && Truthy(params.code) && Truthy(params.state)
              && DecodeState(params.state.value).Some?
              && var fields := DecodeState(params.state.value).value;
              var c := r.created.value;
              && exchange.Exchanged? && c.token == exchange.accessToken
              && c.id == newId && c.kind == "LINE" && c.isActive
              && !(c.userId.Some? && c.restaurantId.Some?)
              && c.userId == (if fields.kind == "user" then Some(fields.userId) else None)
              && c.restaurantId == (if fields.kind == "restaurant" then fields.restaurantId else None)
              && r.location.path == (if fields.kind == "restaurant"
                                     then baseUrl + "/merchant/" + NullText(fields.restaurantId) + "/notifications"
                                     else baseUrl + "/profile")
  {
    if Truthy(params.error) then
      CallbackOutcome(ProfileRedirect(baseUrl, "error", "line_auth_failed"), None)
    else if !Truthy(params.code) || !Truthy(params.state) then
      CallbackOutcome(ProfileRedirect(baseUrl, "error", "invalid_callback"), None)
    else
      match DecodeState(params.state.value)
      case None =>
        CallbackOutcome(ProfileRedirect(baseUrl, "error", "invalid_state"), None)
      case Some(fields) =>
        match exchange
        case ExchangeFailed =>
          CallbackOutcome(ProfileRedirect(baseUrl, "error", "line_callback_failed"), None)
        case Exchanged(token) =>
          var c := NewChannel(fields, token, newId);
          if !ChannelInsertable(users, restaurants, channels, c) then
            CallbackOutcome(ProfileRedirect(baseUrl, "error", "line_callback_failed"), None)
          else if fields.kind == "restaurant" then
            CallbackOutcome(Url(baseUrl + "/merchant/" + NullText(fields.restaurantId) + "/notifications",
                                [("success", "line_connected")]), Some(c))
          else
            CallbackOutcome(ProfileRedirect(baseUrl, "success", "line_connected"), Some(c))
  }

  /**
    A user who completed LINE's consent gets a channel: with a `code`, a
    well-formed `user` state naming a stored user, a token and a fresh
    channel id, the callback stores a LINE channel for that user and
    redirects to the profile page with `success=line_connected`.
   */
  lemma UserChannelCreated(users: seq<User>, restaurants: seq<Restaurant>, channels: seq<NotificationChannel>,
                           code: string, userId: string, token: string, newId: string, baseUrl: string)
    requires code != "" && '-' !in userId
    requires exists i :: 0 <= i < |users| && users[i].id == userId
    requires forall i :: 0 <= i < |channels| ==> channels[i].id != newId
    ensures var state := LineAuthorize.EncodeState(Some("user"), userId, None);
            HandleCallback(users, restaurants, channels, CallbackParams(Some(code), Some(state), None),
                           Exchanged(token), newId, baseUrl)
            == CallbackOutcome(ProfileRedirect(baseUrl, "success", "line_connected"),
                               Some(NotificationChannel(newId, "LINE", token, true, Some(userId), None)))
  {
    StateRoundTrip(Some("user"), userId, None);
  }

  /**
    The same for a restaurant: a well-formed `restaurant` state naming a
    stored restaurant stores a LINE channel for that restaurant and
    redirects to the restaurant's notification page.
   */
  lemma RestaurantChannelCreated(users: seq<User>, restaurants: seq<Restaurant>, channels: seq<NotificationChannel>,
                                 code: string, userId: string, restaurantId: string, token: string,
                                 newId: string, baseUrl: string)
    requires code != "" && '-' !in userId && restaurantId != "" && '-' !in restaurantId
    requires exists i :: 0 <= i < |restaurants| && restaurants[i].id == restaurantId
    requires forall i :: 0 <= i < |channels| ==> channels[i].id != newId
    ensures var state := LineAuthorize.EncodeState(Some("restaurant"), userId, Some(restaurantId));
            HandleCallback(users, restaurants, channels, CallbackParams(Some(code), Some(state), None),
                           Exchanged(token), newId, baseUrl)
            == CallbackOutcome(Url(baseUrl + "/merchant/" + restaurantId + "/notifications",
                                   [("success", "line_connected")]),
                               Some(NotificationChannel(newId, "LINE", token, true, None, Some(restaurantId))))
  {
    StateRoundTrip(Some("restaurant"), userId, Some(restaurantId));
  }

  /** A state without `-` is answered `invalid_state` once `error`, `code` and `state` passed. */
  lemma DashlessStateIsInvalid(users: seq<User>, restaurants: seq<Restaurant>, channels: seq<NotificationChannel>,
                               params: CallbackParams, exchange: TokenExchange, newId: string, baseUrl: string)
    requires !Truthy(params.error) && Truthy(params.code) && Truthy(params.state)
    requires '-' !in params.state.value
    ensures HandleCallback(users, restaurants, channels, params, exchange, newId, baseUrl)
            == CallbackOutcome(ProfileRedirect(baseUrl, "error", "invalid_state"), None)
  {
  }

  /**
    `GET /api/line/callback` against the store: it redirects as
    `HandleCallback` decides and appends the channel it creates, if any.
   */
  method Callback(db: Database, params: CallbackParams, exchange: TokenExchange,
                  newId: string, baseUrl: string) returns (resp: Response)
    modifies db`channels
    ensures var r := HandleCallback(db.users, db.restaurants, old(db.channels), params, exchange, newId, baseUrl);
            && resp == Redirect(r.location)
            && db.channels == old(db.channels) + (if r.created.Some? then [r.created.value] else [])
  {
    var r := HandleCallback(db.users, db.restaurants, db.channels, params, exchange, newId, baseUrl);
    if r.created.Some? {
      db.channels := db.channels + [r.created.value];
    }
    resp := Redirect(r.location);
  }
}
