/**
  `GET /api/line/authorize`: sends a signed-in user to LINE Notify's
  authorization page. The `state` parameter that LINE hands back to the
  callback is the subject type, the user's id and, when given, a restaurant
  id, joined with `-`. It is neither signed nor random: anyone who knows
  those three values can forge it.
 */
module LineAuthorize {
  import opened Common
  import opened Store

  /** The query of the request: `type` (`user` or `restaurant`) and `restaurantId`. */
  datatype AuthorizeParams = AuthorizeParams(kind: Option<string>, restaurantId: Option<string>)

  /** The `LINE_CLIENT_ID` and `LINE_REDIRECT_URI` settings of the server. */
  datatype LineConfig = LineConfig(clientId: Option<string>, redirectUri: Option<string>)

  const AuthorizeEndpoint := "https://notify-bot.line.me/oauth/authorize"

  /**
    The `state` template: the type (`null` when the request has none), a
    dash and the user id, then a dash and the restaurant id when that id is
    present and not empty.
   */
  function EncodeState(kind: Option<string>, userId: string, restaurantId: Option<string>): string {
    NullText(kind) + "-" + userId + (if Truthy(restaurantId) then "-" + restaurantId.value else "")
  }

  /**
    The handler: 401 without a session, 500 when LINE is not configured, and
    otherwise a redirect to LINE's authorization endpoint with the code
    grant's parameters and the encoded `state`.
   */
  function Authorize(session: Option<Identity>, params: AuthorizeParams, config: LineConfig): (resp: Response)
    ensures session.None? ==> resp == Unauthorized()
    ensures session.Some? && !(Truthy(config.clientId) && Truthy(config.redirectUri)) ==>
              resp == Json(500, Error("LINE Notify not configured"))
    ensures resp.Redirect? <==> session.Some? && Truthy(config.clientId) && Truthy(config.redirectUri)
    ensures resp.Redirect? ==>
              && resp.url.path == AuthorizeEndpoint
              && QueryValue(resp.url.query, "response_type") == Some("code")
              && QueryValue(resp.url.query, "scope") == Some("notify")
              && QueryValue(resp.url.query, "client_id") == config.clientId
              && QueryValue(resp.url.query, "redirect_uri") == config.redirectUri
              && QueryValue(resp.url.query, "state") == Some(EncodeState(params.kind, session.value.id, params.restaurantId))
  {
    if session.None? then Unauthorized()
    else if !Truthy(config.clientId) || !Truthy(config.redirectUri) then
      Json(500, Error("LINE Notify not configured"))
    else
      var state := EncodeState(params.kind, session.value.id, params.restaurantId);
      var query := [("response_type", "code"),
                    ("client_id", config.clientId.value),
                    ("redirect_uri", config.redirectUri.value),
                    ("scope", "notify"),
                    ("state", state)];
      assert "state"[1] != "scope"[1] && "state"[1] != "redirect_uri"[1];
      assert "state"[0] != "client_id"[0] && "state"[0] != "response_type"[0];
      assert "scope"[0] != "redirect_uri"[0] && "scope"[0] != "client_id"[0];
      assert "scope"[0] != "response_type"[0];
      assert "redirect_uri"[0] != "client_id"[0] && "redirect_uri"[2] != "response_type"[2];
      assert "client_id"[0] != "response_type"[0];
      var q1 := query[1..];
      var q2 := q1[1..];
      var q3 := q2[1..];
      var q4 := q3[1..];
      assert q4 == [("state", state)];
      assert QueryValue(q3, "scope") == Some("notify");
      assert QueryValue(q3, "state") == Some(state);
      assert QueryValue(q2, "state") == Some(state) && QueryValue(q2, "scope") == Some("notify");
      assert QueryValue(q1, "state") == Some(state) && QueryValue(q1, "scope") == Some("notify");
      assert QueryValue(q1, "redirect_uri") == config.redirectUri;
      Redirect(Url(AuthorizeEndpoint, query))
  }

  /**
    The `state` carries no secret and no nonce: two redirects issued for the
    same type, user id and restaurant id carry the same `state`, whatever
    the user's role and whichever client the server is configured with.
   */
  lemma StateIsPredictable(s1: Identity, s2: Identity, params: AuthorizeParams, c1: LineConfig, c2: LineConfig)
    requires s1.id == s2.id
    requires Authorize(Some(s1), params, c1).Redirect? && Authorize(Some(s2), params, c2).Redirect?
    ensures QueryValue(Authorize(Some(s1), params, c1).url.query, "state")
         == QueryValue(Authorize(Some(s2), params, c2).url.query, "state")
  {
  }
}
