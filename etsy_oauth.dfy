/** The Etsy OAuth function. `connect` builds the authorization request of
    section 4.1.1 of RFC 6749. `callback` exchanges the authorization code for
    tokens (section 4.1.3), reads the caller's shops, and stores a connection
    for the first one. Times are milliseconds. */
module EtsyOAuth {
  import opened Common
  import EtsySync

  const AuthorizeEndpoint := "https://www.etsy.com/oauth/connect"
  const Scope := "listings_r listings_w shops_r"

  /** `${origin}/etsy-callback`, where a missing Origin header reads as "null". */
  function RedirectUri(origin: Option<string>): (r: string)
    ensures origin.Some? ==> r == origin.value + "/etsy-callback"
    ensures origin.None? ==> r == "null/etsy-callback"
  {
    origin.GetOr("null") + "/etsy-callback"
  }

  // ----------------------------------------------------------- query text

  function PairText(kv: (string, string)): string {
    kv.0 + "=" + kv.1
  }

  function PairTexts(params: seq<(string, string)>): (r: seq<string>)
    ensures |r| == |params|
    ensures forall k :: 0 <= k < |r| ==> r[k] == PairText(params[k])
  {
    if params == [] then [] else [PairText(params[0])] + PairTexts(params[1..])
  }

  /** `k1=v1&k2=v2&...`, the values already encoded. */
  function QueryString(params: seq<(string, string)>): string {
    Join(PairTexts(params), '&')
  }

  /** Reading a query back: `&`-separated pieces, each a `key=value` pair. */
  function ParsePair(piece: string): Option<(string, string)> {
    var kv := Split(piece, '=');
    if |kv| == 2 then Some((kv[0], kv[1])) else None
  }

  function ParsePairs(pieces: seq<string>): (r: seq<Option<(string, string)>>)
    ensures |r| == |pieces|
    ensures forall k :: 0 <= k < |r| ==> r[k] == ParsePair(pieces[k])
  {
    if pieces == [] then [] else [ParsePair(pieces[0])] + ParsePairs(pieces[1..])
  }

  function ParseQuery(q: string): seq<Option<(string, string)>> {
    ParsePairs(Split(q, '&'))
  }

  /** Neither a key nor a value holds a delimiter of the query syntax. */
  predicate PlainParams(params: seq<(string, string)>) {
    forall k :: 0 <= k < |params| ==>
      '&' !in params[k].0 && '=' !in params[k].0 && '&' !in params[k].1 && '=' !in params[k].1
  }

  lemma ParsePairText(kv: (string, string))
    requires '=' !in kv.0 && '=' !in kv.1
    ensures ParsePair(PairText(kv)) == Some(kv)
  {
    assert Join([kv.0, kv.1], '=') == PairText(kv);
    SplitJoin([kv.0, kv.1], '=');
  }

  /** A query written from plain parameters reads back as exactly those parameters, in order. */
  lemma QueryRoundTrip(params: seq<(string, string)>)
    requires |params| > 0 && PlainParams(params)
    ensures var r := ParseQuery(QueryString(params));
            |r| == |params| && forall k :: 0 <= k < |params| ==> r[k] == Some(params[k])
  {
    var texts := PairTexts(params);
    forall k | 0 <= k < |texts|
      ensures '&' !in texts[k]
    {
      assert texts[k] == params[k].0 + "=" + params[k].1;
    }
    SplitJoin(texts, '&');
    forall k | 0 <= k < |params|
      ensures ParsePair(texts[k]) == Some(params[k])
    {
      ParsePairText(params[k]);
    }
  }

  // ---------------------------------------------------------- connect URL

  /** The authorization request: response type, redirect URI, scope, client
      id and, as state, the caller's user id; `encode` is encodeURIComponent. */
  function ConnectParams(encode: string -> string, origin: Option<string>, apiKey: string, userId: string): (r: seq<(string, string)>)
    ensures |r| == 5
    ensures r[0] == ("response_type", "code") && r[1] == ("redirect_uri", encode(RedirectUri(origin)))
    ensures r[2] == ("scope", encode(Scope)) && r[3] == ("client_id", apiKey) && r[4] == ("state", userId)
  {
    [("response_type", "code"), ("redirect_uri", encode(RedirectUri(origin))), ("scope", encode(Scope)),
     ("client_id", apiKey), ("state", userId)]
  }

  function ConnectUrl(encode: string -> string, origin: Option<string>, apiKey: string, userId: string): string {
    AuthorizeEndpoint + "?" + QueryString(ConnectParams(encode, origin, apiKey, userId))
  }

  /** An encoder that escapes the query delimiters, as encodeURIComponent does. */
  ghost predicate EscapesDelimiters(encode: string -> string) {
    forall s :: '&' !in encode(s) && '=' !in encode(s)
  }

  predicate PlainText(s: string) {
    '&' !in s && '=' !in s
  }

  /** The connect URL is the authorize endpoint followed by a query that reads
      back as the five parameters of the authorization request, in order. */
  lemma ConnectUrlParameters(encode: string -> string, origin: Option<string>, apiKey: string, userId: string)
    requires EscapesDelimiters(encode) && PlainText(apiKey) && PlainText(userId)
    ensures var url := ConnectUrl(encode, origin, apiKey, userId);
            var n := |AuthorizeEndpoint| + 1;
            n <= |url| && url[..n] == AuthorizeEndpoint + "?" && |ParseQuery(url[n..])| == 5
    ensures var r := ParseQuery(ConnectUrl(encode, origin, apiKey, userId)[|AuthorizeEndpoint| + 1..]);
            |r| == 5 && r[0] == Some(("response_type", "code")) && r[1] == Some(("redirect_uri", encode(RedirectUri(origin)))) &&
            r[2] == Some(("scope", encode(Scope))) && r[3] == Some(("client_id", apiKey)) && r[4] == Some(("state", userId))
  {
    var params := ConnectParams(encode, origin, apiKey, userId);
    assert PlainParams(params) by {
      assert PlainText(encode(RedirectUri(origin))) && PlainText(encode(Scope));
    }
    QueryRoundTrip(params);
    var q := QueryString(params);
    var head := AuthorizeEndpoint + "?";
    assert ConnectUrl(encode, origin, apiKey, userId) == head + q;
    assert (head + q)[|head|..] == q;
    assert (head + q)[..|head|] == head;
  }

  // --------------------------------------------------------------- handler

  datatype OAuthRequest = OAuthRequest(action: string, code: Option<string>, authorization: Option<string>,
                                       origin: Option<string>)

  /** `code` is present and not empty. */
  predicate HasCode(req: OAuthRequest) {
    req.code.Some? && req.code.value != ""
  }

  datatype Shop = Shop(shopId: nat, shopName: string)

  /** The provider and database answers: the token exchange (Err when not OK),
      the shop list (Err when not OK), and whether the connection upsert fails. */
  datatype OAuthProvider = OAuthProvider(exchange: Result<EtsySync.TokenResponse>, shops: Result<seq<Shop>>, upsertFails: bool)

  /** The outbound provider requests, in order. */
  datatype Outbound =
    | TokenExchange(grantType: string, clientId: string, clientSecret: string, redirectUri: string, code: string)
    | ShopsRequest(bearer: string, apiKey: string)

  datatype OAuthResponse = AuthUrl(url: string) | Connected(shopId: nat, shopName: string) | Failed(message: string)

  /** The message of the TypeError thrown when the shop list is empty. */
  const NoShopMessage := "Cannot read properties of undefined (reading 'shop_id')"

  datatype OAuthOutcome = OAuthOutcome(connections: map<string, EtsySync.Connection>, response: OAuthResponse, requests: seq<Outbound>)

  /** The connection stored for a shop; the database gives the row `newId`. */
  function ConnectionFor(userId: string, shop: Shop, t: EtsySync.TokenResponse, now: int): (c: EtsySync.Connection)
    ensures c.userId == userId && c.shopId == NatToString(shop.shopId) && c.shopName == shop.shopName && c.isActive
    ensures c.accessToken == t.accessToken && c.refreshToken == t.refreshToken
    ensures EtsySync.ExpiryMs(c.expiresAt) - now == 1000 * t.expiresIn && c.lastSyncAt == Some(now)
  {
    EtsySync.Connection(userId, NatToString(shop.shopId), shop.shopName, true, t.accessToken, t.refreshToken,
               Some(EtsySync.ExpiresAt(now, t.expiresIn)), Some(now))
  }

  /** The whole function. */
  function OAuthSpec(conns: map<string, EtsySync.Connection>, req: OAuthRequest, getUser: string -> Option<string>,
                     encode: string -> string, apiKey: string, apiSecret: string, now: int, p: OAuthProvider,
                     newId: string): OAuthOutcome
  {
    if !Present(req.authorization) then OAuthOutcome(conns, Failed("No authorization header"), [])
    else
      match getUser(ReplaceFirst(req.authorization.value, "Bearer ", ""))
      case None => OAuthOutcome(conns, Failed("Invalid user token"), [])
      case Some(userId) =>
        if req.action == "connect" then
          OAuthOutcome(conns, AuthUrl(ConnectUrl(encode, req.origin, apiKey, userId)), [])
        else if req.action == "callback" && HasCode(req) then
          var exchange := TokenExchange("authorization_code", apiKey, apiSecret, RedirectUri(req.origin), req.code.value);
          match p.exchange
          case Err(_) => OAuthOutcome(conns, Failed("Failed to exchange code for token"), [exchange])
          case Ok(t) =>
            var requests := [exchange, ShopsRequest(t.accessToken, apiKey)];
            match p.shops
            case Err(_) => OAuthOutcome(conns, Failed("Failed to fetch shop information"), requests)
            case Ok(shops) =>
              if shops == [] then OAuthOutcome(conns, Failed(NoShopMessage), requests)
              else if p.upsertFails then OAuthOutcome(conns, Failed("Failed to store connection"), requests)
              else OAuthOutcome(conns[newId := ConnectionFor(userId, shops[0], t, now)],
                                Connected(shops[0].shopId, shops[0].shopName), requests)
        else OAuthOutcome(conns, Failed("Invalid action"), [])
  }

  /** The caller the function acts for, when the header names a valid user. */
  predicate Caller(req: OAuthRequest, getUser: string -> Option<string>, userId: string) {
    Present(req.authorization) && getUser(ReplaceFirst(req.authorization.value, "Bearer ", "")) == Some(userId)
  }

  /** Without a valid caller the function fails before looking at the action,
      makes no request and stores nothing. */
  lemma AuthFailsFirst(conns: map<string, EtsySync.Connection>, req: OAuthRequest, getUser: string -> Option<string>,
                       encode: string -> string, apiKey: string, apiSecret: string, now: int, p: OAuthProvider,
                       newId: string)
    requires forall u :: !Caller(req, getUser, u)
    ensures var o := OAuthSpec(conns, req, getUser, encode, apiKey, apiSecret, now, p, newId);
            o.connections == conns && o.requests == [] &&
            o.response == Failed(if !Present(req.authorization) then "No authorization header" else "Invalid user token")
  {
    if Present(req.authorization) {
      var u := getUser(ReplaceFirst(req.authorization.value, "Bearer ", ""));
      if u.Some? {
        assert Caller(req, getUser, u.value);
      }
    }
  }

  /** `connect` answers with the authorization URL for the caller, whose
      `state` is the caller's id, and makes no request and no write. */
  lemma ConnectAnswersUrl(conns: map<string, EtsySync.Connection>, req: OAuthRequest, getUser: string -> Option<string>,
                          encode: string -> string, apiKey: string, apiSecret: string, now: int, p: OAuthProvider,
                          newId: string, userId: string)
    requires Caller(req, getUser, userId) && req.action == "connect"
    requires EscapesDelimiters(encode) && PlainText(apiKey) && PlainText(userId)
    ensures var o := OAuthSpec(conns, req, getUser, encode, apiKey, apiSecret, now, p, newId);
            o.connections == conns && o.requests == [] && o.response == AuthUrl(ConnectUrl(encode, req.origin, apiKey, userId))
    ensures var r := ParseQuery(ConnectUrl(encode, req.origin, apiKey, userId)[|AuthorizeEndpoint| + 1..]);
            |r| == 5 && r[0] == Some(("response_type", "code")) && r[4] == Some(("state", userId))
  {
    ConnectUrlParameters(encode, req.origin, apiKey, userId);
  }

  /** The redirect URI the token exchange sends is the one the connect URL carried,
      before encoding, for the same origin (section 4.1.3 of RFC 6749). */
  lemma RedirectUriAgrees(conns: map<string, EtsySync.Connection>, connectReq: OAuthRequest, callbackReq: OAuthRequest,
                          getUser: string -> Option<string>, encode: string -> string, apiKey: string,
                          apiSecret: string, now: int, p: OAuthProvider, newId: string, userId: string)
    requires Caller(connectReq, getUser, userId) && connectReq.action == "connect"
    requires Caller(callbackReq, getUser, userId) && callbackReq.action == "callback" && HasCode(callbackReq)
    requires connectReq.origin == callbackReq.origin
    requires EscapesDelimiters(encode) && PlainText(apiKey) && PlainText(userId)
    ensures var c := OAuthSpec(conns, connectReq, getUser, encode, apiKey, apiSecret, now, p, newId);
            var x := OAuthSpec(conns, callbackReq, getUser, encode, apiKey, apiSecret, now, p, newId);
            var n := |AuthorizeEndpoint| + 1;
            c.response.AuthUrl? && n <= |c.response.url| && |x.requests| >= 1 && x.requests[0].TokenExchange? &&
            |ParseQuery(c.response.url[n..])| == 5 && ParseQuery(c.response.url[n..])[1] == Some(("redirect_uri", encode(x.requests[0].redirectUri)))
  {
    var c := OAuthSpec(conns, connectReq, getUser, encode, apiKey, apiSecret, now, p, newId);
    var x := OAuthSpec(conns, callbackReq, getUser, encode, apiKey, apiSecret, now, p, newId);
    var url := ConnectUrl(encode, connectReq.origin, apiKey, userId);
    assert c.response == AuthUrl(url) by {
      ConnectAnswersUrl(conns, connectReq, getUser, encode, apiKey, apiSecret, now, p, newId, userId);
    }
    assert |x.requests| >= 1 && x.requests[0].TokenExchange? && x.requests[0].redirectUri == RedirectUri(connectReq.origin) by {
      ExchangeFirst(conns, callbackReq, getUser, encode, apiKey, apiSecret, now, p, newId, userId);
    }
    ConnectUrlParameters(encode, connectReq.origin, apiKey, userId);
  }

  /** A callback without a code, and any action other than `connect` and
      `callback`, is refused without a request or a write. */
  lemma InvalidActionRefused(conns: map<string, EtsySync.Connection>, req: OAuthRequest, getUser: string -> Option<string>,
                             encode: string -> string, apiKey: string, apiSecret: string, now: int, p: OAuthProvider,
                             newId: string, userId: string)
    requires Caller(req, getUser, userId)
    requires req.action != "connect" && (req.action != "callback" || !HasCode(req))
    ensures var o := OAuthSpec(conns, req, getUser, encode, apiKey, apiSecret, now, p, newId);
            o == OAuthOutcome(conns, Failed("Invalid action"), [])
  {
  }

  /** The code is exchanged with the authorization-code grant; a refused exchange stores nothing. */
  lemma ExchangeFirst(conns: map<string, EtsySync.Connection>, req: OAuthRequest, getUser: string -> Option<string>,
                      encode: string -> string, apiKey: string, apiSecret: string, now: int, p: OAuthProvider,
                      newId: string, userId: string)
    requires Caller(req, getUser, userId) && req.action == "callback" && HasCode(req)
    ensures var o := OAuthSpec(conns, req, getUser, encode, apiKey, apiSecret, now, p, newId);
            |o.requests| >= 1 &&
            o.requests[0] == TokenExchange("authorization_code", apiKey, apiSecret, RedirectUri(req.origin), req.code.value)
    ensures var o := OAuthSpec(conns, req, getUser, encode, apiKey, apiSecret, now, p, newId);
            p.exchange.Err? ==> o.connections == conns && o.response == Failed("Failed to exchange code for token") &&
                                |o.requests| == 1
  {
  }

  /** A connection is stored only by a callback whose every step succeeded, and
      it is the caller's active connection to the first shop listed, with the
      returned tokens and an expiry `expires_in` seconds from now. */
  lemma StoresFirstShop(conns: map<string, EtsySync.Connection>, req: OAuthRequest, getUser: string -> Option<string>,
                        encode: string -> string, apiKey: string, apiSecret: string, now: int, p: OAuthProvider,
                        newId: string)
    ensures var o := OAuthSpec(conns, req, getUser, encode, apiKey, apiSecret, now, p, newId);
            o.connections != conns ==>
              exists u :: Caller(req, getUser, u) && req.action == "callback" && HasCode(req) &&
                p.exchange.Ok? && p.shops.Ok? && |p.shops.value| > 0 && !p.upsertFails &&
                o.connections == conns[newId := ConnectionFor(u, p.shops.value[0], p.exchange.value, now)]
    ensures var o := OAuthSpec(conns, req, getUser, encode, apiKey, apiSecret, now, p, newId);
            o.response.Connected? <==>
              ((exists u :: Caller(req, getUser, u)) && req.action == "callback" && HasCode(req) &&
               p.exchange.Ok? && p.shops.Ok? && |p.shops.value| > 0 && !p.upsertFails)
    ensures var o := OAuthSpec(conns, req, getUser, encode, apiKey, apiSecret, now, p, newId);
            o.response.Connected? ==>
              o.response == Connected(p.shops.value[0].shopId, p.shops.value[0].shopName) &&
              o.connections[newId].shopId == NatToString(o.response.shopId) && o.connections[newId].isActive
  {
    var o := OAuthSpec(conns, req, getUser, encode, apiKey, apiSecret, now, p, newId);
    if Present(req.authorization) {
      var u := getUser(ReplaceFirst(req.authorization.value, "Bearer ", ""));
      if u.Some? {
        assert Caller(req, getUser, u.value);
      }
    }
  }

  /** The edge function's handler over the connection table. */
  method HandleOAuth(store: EtsySync.EtsyStore, req: OAuthRequest, getUser: string -> Option<string>, encode: string -> string,
                     apiKey: string, apiSecret: string, now: int, p: OAuthProvider, newId: string)
    returns (response: OAuthResponse, requests: seq<Outbound>)
    modifies store`connections
    ensures OAuthOutcome(store.connections, response, requests) ==
            OAuthSpec(old(store.connections), req, getUser, encode, apiKey, apiSecret, now, p, newId)
  {
    requests := [];
    if !Present(req.authorization) {
      return Failed("No authorization header"), requests;
    }
    var user := getUser(ReplaceFirst(req.authorization.value, "Bearer ", ""));
    if user.None? {
      return Failed("Invalid user token"), requests;
    }
    if req.action == "connect" {
      return AuthUrl(ConnectUrl(encode, req.origin, apiKey, user.value)), requests;
    }
    if req.action == "callback" && HasCode(req) {
      requests := [TokenExchange("authorization_code", apiKey, apiSecret, RedirectUri(req.origin), req.code.value)];
      if p.exchange.Err? {
        return Failed("Failed to exchange code for token"), requests;
      }
      var t := p.exchange.value;
      requests := requests + [ShopsRequest(t.accessToken, apiKey)];
      if p.shops.Err? {
        return Failed("Failed to fetch shop information"), requests;
      }
      if p.shops.value == [] {
        return Failed(NoShopMessage), requests;
      }
      var shop := p.shops.value[0];
      if p.upsertFails {
        return Failed("Failed to store connection"), requests;
      }
      store.connections := store.connections[newId := ConnectionFor(user.value, shop, t, now)];
      return Connected(shop.shopId, shop.shopName), requests;
    }
    return Failed("Invalid action"), requests;
  }
}
