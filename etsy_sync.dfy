/** The Etsy sync function: find the caller's one active connection for the
    shop, refresh its access token when it has expired (section 6 of RFC
    6749, with `expires_in` in seconds as in section 5.1), read the shop's
    active listings, and copy each one into the fragrance and listing tables,
    skipping a listing whose database calls fail. Times are milliseconds. */
module EtsySync {
  import opened Common

  /** A row of etsy_connections; a null `expires_at` is None. */
  datatype Connection = Connection(
    userId: string,
    shopId: string,
    shopName: string,
    isActive: bool,
    accessToken: string,
    refreshToken: Option<string>,
    expiresAt: Option<int>,
    lastSyncAt: Option<int>)

  /** `new Date(expires_at)` in milliseconds; `new Date(null)` is the epoch. */
  function ExpiryMs(expiresAt: Option<int>): int {
    expiresAt.GetOr(0)
  }

  /** The token is refreshed iff the clock has reached its expiry. */
  predicate NeedsRefresh(c: Connection, now: int) {
    now >= ExpiryMs(c.expiresAt)
  }

  /** The expiry stored after a token response: `expires_in` seconds from now. */
  function ExpiresAt(now: int, expiresIn: int): (r: int)
    ensures r - now == 1000 * expiresIn
  {
    now + expiresIn * 1000
  }

  /** The ids of the caller's active connections for the shop. */
  function MatchingIds(connections: map<string, Connection>, userId: string, shopId: string): (r: set<string>)
    ensures forall id :: id in r <==> id in connections && connections[id].userId == userId &&
                                      connections[id].shopId == shopId && connections[id].isActive
  {
    set id | id in connections && connections[id].userId == userId && connections[id].shopId == shopId
                                && connections[id].isActive
  }

  lemma SingletonElement(s: set<string>, x: string)
    requires |s| == 1 && x in s
    ensures s == {x}
  {
    assert |s - {x}| == 0;
  }

  /** `.single()` on the connection query: the id when exactly one row matches. */
  ghost function ConnectionQuery(connections: map<string, Connection>, userId: string, shopId: string): (r: Option<string>)
    ensures r.Some? <==> |MatchingIds(connections, userId, shopId)| == 1
    ensures r.Some? ==> MatchingIds(connections, userId, shopId) == {r.value}
  {
    var ids := MatchingIds(connections, userId, shopId);
    if |ids| == 1 then
      var id :| id in ids;
      SingletonElement(ids, id);
      Some(id)
    else None
  }

  // ------------------------------------------------------------- provider

  /** An active listing as the provider returns it; its price is amount/divisor. */
  datatype EtsyListing = EtsyListing(
    listingId: nat,
    title: string,
    description: Option<string>,
    amount: int,
    divisor: int,
    quantity: int,
    state: string,
    url: Option<string>)

  /** The body of a successful token response. */
  datatype TokenResponse = TokenResponse(accessToken: string, refreshToken: Option<string>, expiresIn: int)

  /** The outbound provider requests, in order. */
  datatype Request =
    | RefreshRequest(grantType: string, clientId: string, refreshToken: Option<string>)
    | ListingsRequest(shopId: string, bearer: string, apiKey: string)

  /** How the database answers the calls made for one listing: whether the
      fragrance lookup fails (other than by finding no row), whether the insert
      of a missing fragrance fails and the id it would get, and whether the
      listing upsert fails. */
  datatype DbOutcomes = DbOutcomes(lookupFails: bool, insertFails: bool, newFragranceId: string, upsertFails: bool)

  datatype ListingInput = ListingInput(listing: EtsyListing, db: DbOutcomes)

  const NoFaults := DbOutcomes(false, false, "", false)

  // ----------------------------------------------------------------- rows

  datatype Fragrance = Fragrance(id: string, sku: string, name: string, description: string, price: real,
                                 currentStock: int, lowStockThreshold: int)

  datatype ListingStatus = Active | Inactive

  datatype ListingRow = ListingRow(
    fragranceId: string,
    platformId: string,
    title: string,
    description: string,
    price: real,
    quantity: int,
    status: ListingStatus,
    etsyListingId: string,
    url: Option<string>,
    lastSyncedAt: int)

  /** An entry of the returned summary. */
  datatype SyncedListing = SyncedListing(id: nat, title: string, price: real)

  /** `parseFloat(amount) / divisor`; a zero divisor is outside the provider's contract. */
  function Price(l: EtsyListing): (r: real)
    requires l.divisor != 0
    ensures r * (l.divisor as real) == l.amount as real
  {
    l.amount as real / l.divisor as real
  }

  predicate ValidListing(l: EtsyListing) {
    l.divisor > 0
  }

  function Sku(l: EtsyListing): (r: string)
    ensures DecimalValue(r) == l.listingId
  {
    DecimalRoundTrip(l.listingId);
    NatToString(l.listingId)
  }

  function StatusOf(state: string): (r: ListingStatus)
    ensures r == Active <==> state == "active"
  {
    if state == "active" then Active else Inactive
  }

  /** The fragrance created for a listing whose SKU is not yet known. */
  function NewFragrance(l: EtsyListing, id: string): (f: Fragrance)
    requires ValidListing(l)
    ensures f.id == id && f.sku == Sku(l) && f.name == l.title && f.description == l.description.GetOr("")
    ensures f.price == Price(l) && f.currentStock == l.quantity && f.lowStockThreshold == 10
  {
    Fragrance(id, Sku(l), l.title, l.description.GetOr(""), Price(l), l.quantity, 10)
  }

  function RowFor(l: EtsyListing, fragranceId: string, platformId: string, now: int): (r: ListingRow)
    requires ValidListing(l)
    ensures r.fragranceId == fragranceId && r.platformId == platformId && r.title == l.title
    ensures r.description == l.description.GetOr("") && r.price == Price(l) && r.quantity == l.quantity
    ensures r.status == StatusOf(l.state) && r.etsyListingId == Sku(l) && r.url == l.url && r.lastSyncedAt == now
  {
    ListingRow(fragranceId, platformId, l.title, l.description.GetOr(""), Price(l), l.quantity,
               StatusOf(l.state), Sku(l), l.url, now)
  }

  function SummaryOf(l: EtsyListing): (s: SyncedListing)
    requires ValidListing(l)
    ensures s.id == l.listingId && s.title == l.title && s.price == Price(l)
  {
    SyncedListing(l.listingId, l.title, Price(l))
  }

  // ------------------------------------------------------------ reconcile

  /** What the loop accumulates: the fragrances by SKU, the listing rows
      written and the summary. */
  datatype SyncState = SyncState(fragrances: map<string, Fragrance>, rows: seq<ListingRow>, synced: seq<SyncedListing>)

  predicate AllValid(inputs: seq<ListingInput>) {
    forall k :: 0 <= k < |inputs| ==> ValidListing(inputs[k].listing)
  }

  /** Whether one listing gets through: its fragrance is found or created and its upsert succeeds. */
  predicate StepSucceeds(fragrances: map<string, Fragrance>, inp: ListingInput) {
    !inp.db.lookupFails && (Sku(inp.listing) in fragrances || !inp.db.insertFails) && !inp.db.upsertFails
  }

  /** One pass of the loop body. A failed lookup or insert skips the listing; a
      failed upsert skips it after the fragrance was created. */
  function Step(s: SyncState, inp: ListingInput, platformId: string, now: int): (r: SyncState)
    requires ValidListing(inp.listing)
    ensures StepSucceeds(s.fragrances, inp) ==>
              r.synced == s.synced + [SummaryOf(inp.listing)] && |r.rows| == |s.rows| + 1 && r.rows[..|s.rows|] == s.rows
    ensures StepSucceeds(s.fragrances, inp) ==>
              (Sku(inp.listing) in r.fragrances &&
               r.rows[|s.rows|] == RowFor(inp.listing, r.fragrances[Sku(inp.listing)].id, platformId, now))
    ensures !StepSucceeds(s.fragrances, inp) ==> r.synced == s.synced && r.rows == s.rows
    ensures inp.db.lookupFails || Sku(inp.listing) in s.fragrances || inp.db.insertFails ==> r.fragrances == s.fragrances
    ensures !inp.db.lookupFails && Sku(inp.listing) !in s.fragrances && !inp.db.insertFails ==>
              r.fragrances == s.fragrances[Sku(inp.listing) := NewFragrance(inp.listing, inp.db.newFragranceId)]
  {
    var l := inp.listing;
    var sku := Sku(l);
    if inp.db.lookupFails then s
    else
      var found := if sku in s.fragrances then Some(s.fragrances[sku])
                   else if inp.db.insertFails then None
                   else Some(NewFragrance(l, inp.db.newFragranceId));
      match found
      case None => s
      case Some(f) =>
        var frags := s.fragrances[sku := f];
        if inp.db.upsertFails then s.(fragrances := frags)
        else SyncState(frags, s.rows + [RowFor(l, f.id, platformId, now)], s.synced + [SummaryOf(l)])
  }

  /** The loop over the listings, in order. */
  function Reconcile(s: SyncState, inputs: seq<ListingInput>, platformId: string, now: int): SyncState
    requires AllValid(inputs)
  {
    if inputs == [] then s
    else Step(Reconcile(s, inputs[..|inputs| - 1], platformId, now), inputs[|inputs| - 1], platformId, now)
  }

  /** The summary only grows, by at most one entry per listing, and has one entry per row written. */
  lemma {:induction false} ReconcileCounts(s: SyncState, inputs: seq<ListingInput>, platformId: string, now: int)
    requires AllValid(inputs)
    ensures var r := Reconcile(s, inputs, platformId, now);
            |r.synced| - |s.synced| == |r.rows| - |s.rows| && |s.synced| <= |r.synced| <= |s.synced| + |inputs| &&
            r.synced[..|s.synced|] == s.synced && r.rows[..|s.rows|] == s.rows
  {
    if inputs != [] {
      var init := inputs[..|inputs| - 1];
      assert AllValid(init) by {
        assert forall k :: 0 <= k < |init| ==> init[k] == inputs[k];
      }
      ReconcileCounts(s, init, platformId, now);
      var m := Reconcile(s, init, platformId, now);
      var r := Reconcile(s, inputs, platformId, now);
      assert r == Step(m, inputs[|inputs| - 1], platformId, now);
      if StepSucceeds(m.fragrances, inputs[|inputs| - 1]) {
        assert r.synced[..|s.synced|] == m.synced[..|s.synced|];
        assert r.rows[..|s.rows|] == m.rows[..|s.rows|];
      }
    }
  }

  /** When no database call fails, every listing is synced, in order, with
      its own id, title and price. */
  lemma {:induction false} NoFaultsSyncsAll(s: SyncState, inputs: seq<ListingInput>, platformId: string, now: int)
    requires AllValid(inputs)
    requires forall k :: 0 <= k < |inputs| ==> inputs[k].db.(newFragranceId := "") == NoFaults
    ensures var r := Reconcile(s, inputs, platformId, now);
            |r.synced| == |s.synced| + |inputs| && r.synced[..|s.synced|] == s.synced &&
            forall k :: 0 <= k < |inputs| ==> r.synced[|s.synced| + k] == SummaryOf(inputs[k].listing)
  {
    if inputs != [] {
      var init := inputs[..|inputs| - 1];
      assert forall k :: 0 <= k < |init| ==> init[k] == inputs[k];
      NoFaultsSyncsAll(s, init, platformId, now);
      var m := Reconcile(s, init, platformId, now);
      var last := inputs[|inputs| - 1];
      assert StepSucceeds(m.fragrances, last);
      var r := Reconcile(s, inputs, platformId, now);
      assert r.synced == m.synced + [SummaryOf(last.listing)];
    }
  }

  /** When every upsert fails, nothing is synced and no listing row is written. */
  lemma {:induction false} AllUpsertsFailSyncsNothing(s: SyncState, inputs: seq<ListingInput>, platformId: string, now: int)
    requires AllValid(inputs)
    requires forall k :: 0 <= k < |inputs| ==> inputs[k].db.upsertFails
    ensures Reconcile(s, inputs, platformId, now).synced == s.synced
    ensures Reconcile(s, inputs, platformId, now).rows == s.rows
  {
    if inputs != [] {
      var init := inputs[..|inputs| - 1];
      assert forall k :: 0 <= k < |init| ==> init[k] == inputs[k];
      AllUpsertsFailSyncsNothing(s, init, platformId, now);
    }
  }

  /** Every listing row written carries that listing's price, status and SKU. */
  predicate RowsDescribe(rows: seq<ListingRow>, synced: seq<SyncedListing>)
  {
    |rows| == |synced| &&
    forall k :: 0 <= k < |rows| ==> rows[k].etsyListingId == NatToString(synced[k].id) &&
                                    rows[k].title == synced[k].title && rows[k].price == synced[k].price
  }

  lemma {:induction false} ReconcileRowsMatchSummary(s: SyncState, inputs: seq<ListingInput>, platformId: string, now: int)
    requires AllValid(inputs) && RowsDescribe(s.rows, s.synced)
    ensures var r := Reconcile(s, inputs, platformId, now); RowsDescribe(r.rows, r.synced)
  {
    if inputs != [] {
      var init := inputs[..|inputs| - 1];
      assert forall k :: 0 <= k < |init| ==> init[k] == inputs[k];
      ReconcileRowsMatchSummary(s, init, platformId, now);
      var m := Reconcile(s, init, platformId, now);
      var last := inputs[|inputs| - 1];
      var r := Reconcile(s, inputs, platformId, now);
      if StepSucceeds(m.fragrances, last) {
        forall k | 0 <= k < |r.rows|
          ensures r.rows[k].etsyListingId == NatToString(r.synced[k].id) &&
                  r.rows[k].title == r.synced[k].title && r.rows[k].price == r.synced[k].price
        {
          if k < |m.rows| {
            assert r.rows[k] == m.rows[k];
            assert r.synced[k] == m.synced[k];
          }
        }
      }
    }
  }

  lemma ReconcileSnoc(s0: SyncState, inputs: seq<ListingInput>, i: nat, platformId: string, now: int)
    requires AllValid(inputs) && i < |inputs|
    ensures AllValid(inputs[..i]) && AllValid(inputs[..i + 1])
    ensures Reconcile(s0, inputs[..i + 1], platformId, now) ==
            Step(Reconcile(s0, inputs[..i], platformId, now), inputs[i], platformId, now)
  {
    assert inputs[..i + 1][..i] == inputs[..i];
  }

  /** The loop body for one listing: look the fragrance up by SKU, create it
      when missing, then upsert the listing row. */
  method SyncListing(prev: SyncState, inp: ListingInput, platformId: string, now: int) returns (s: SyncState)
    requires ValidListing(inp.listing)
    ensures s == Step(prev, inp, platformId, now)
  {
    s := prev;
    var l := inp.listing;
    var sku := Sku(l);
    if !inp.db.lookupFails {
      var found: Option<Fragrance> := None;
      if sku in s.fragrances {
        found := Some(s.fragrances[sku]);
      } else if !inp.db.insertFails {
        found := Some(NewFragrance(l, inp.db.newFragranceId));
      }
      if found.Some? {
        var f := found.value;
        s := s.(fragrances := s.fragrances[sku := f]);
        if !inp.db.upsertFails {
          s := s.(rows := s.rows + [RowFor(l, f.id, platformId, now)], synced := s.synced + [SummaryOf(l)]);
        }
      }
    }
  }

  /** The loop as the function runs it: each failure moves on to the next listing. */
  method ReconcileLoop(s0: SyncState, inputs: seq<ListingInput>, platformId: string, now: int) returns (s: SyncState)
    requires AllValid(inputs)
    ensures s == Reconcile(s0, inputs, platformId, now)
  {
    s := s0;
    var i := 0;
    while i < |inputs|
      invariant 0 <= i <= |inputs|
      invariant AllValid(inputs[..i]) && s == Reconcile(s0, inputs[..i], platformId, now)
    {
      ReconcileSnoc(s0, inputs, i, platformId, now);
      s := SyncListing(s, inputs[i], platformId, now);
      i := i + 1;
    }
    assert inputs[..i] == inputs;
  }

  // -------------------------------------------------------------- handler

  datatype SyncResponse = Synced(syncedCount: nat, listings: seq<SyncedListing>) | Failed(message: string)

  /** The request as the function reads it. */
  datatype SyncRequest = SyncRequest(authorization: Option<string>, shopId: string)

  /** The database tables the function reads and writes. */
  datatype Store = Store(connections: map<string, Connection>, etsyPlatform: Option<string>,
                         fragrances: map<string, Fragrance>, listings: seq<ListingRow>)

  /** The provider's answers: to the refresh (Err when not OK) and to the listing
      read (Err when not OK); then the error of the platform lookup other than
      "no row" (PGRST116), if any, and the outcome of creating the platform row. */
  datatype Provider = Provider(refresh: Result<TokenResponse>, listings: Result<seq<ListingInput>>,
                               platformLookupError: Option<string>, platformCreate: Result<string>)

  predicate ProviderValid(p: Provider) {
    p.listings.Ok? ==> AllValid(p.listings.value)
  }

  datatype Outcome = Outcome(store: Store, response: SyncResponse, requests: seq<Request>)

  /** The connection after a successful refresh. A response without a
      `refresh_token` puts `undefined` in the update, which the JSON body
      drops, so the stored refresh token is then kept. */
  function Refreshed(c: Connection, t: TokenResponse, now: int): (r: Connection)
    ensures r.accessToken == t.accessToken && ExpiryMs(r.expiresAt) == now + 1000 * t.expiresIn
    ensures t.refreshToken.Some? ==> r.refreshToken == t.refreshToken
    ensures t.refreshToken.None? ==> r.refreshToken == c.refreshToken
    ensures r.(accessToken := c.accessToken, refreshToken := c.refreshToken, expiresAt := c.expiresAt) == c
  {
    var kept := if t.refreshToken.Some? then t.refreshToken else c.refreshToken;
    c.(accessToken := t.accessToken, refreshToken := kept, expiresAt := Some(ExpiresAt(now, t.expiresIn)))
  }

  /** The whole function, from the request to the response, the stored rows and the requests made. */
  ghost function SyncSpec(st: Store, req: SyncRequest, getUser: string -> Option<string>, apiKey: string,
                          now: int, p: Provider): (o: Outcome)
    requires ProviderValid(p)
  {
    if !Present(req.authorization) then Outcome(st, Failed("No authorization header"), [])
    else
      match getUser(ReplaceFirst(req.authorization.value, "Bearer ", ""))
      case None => Outcome(st, Failed("Invalid user token"), [])
      case Some(userId) =>
        match ConnectionQuery(st.connections, userId, req.shopId)
        case None => Outcome(st, Failed("No active Etsy connection found"), [])
        case Some(id) =>
          var c := st.connections[id];
          var refreshReq := if NeedsRefresh(c, now) then [RefreshRequest("refresh_token", apiKey, c.refreshToken)] else [];
          if NeedsRefresh(c, now) && p.refresh.Err? then
            Outcome(st, Failed("Failed to refresh access token"), refreshReq)
          else
            var conns := if NeedsRefresh(c, now) then st.connections[id := Refreshed(c, p.refresh.value, now)]
                         else st.connections;
            var token := if NeedsRefresh(c, now) then p.refresh.value.accessToken else c.accessToken;
            var requests := refreshReq + [ListingsRequest(req.shopId, token, apiKey)];
            var st1 := st.(connections := conns);
            match p.listings
            case Err(_) => Outcome(st1, Failed("Failed to fetch shop listings"), requests)
            case Ok(inputs) =>
              if p.platformLookupError.Some? then Outcome(st1, Failed(p.platformLookupError.value), requests)
              else
              var platform := if st.etsyPlatform.Some? then Ok(st.etsyPlatform.value) else p.platformCreate;
              match platform
              case Err(e) => Outcome(st1, Failed(e), requests)
              case Ok(platformId) =>
                var r := Reconcile(SyncState(st.fragrances, st.listings, []), inputs, platformId, now);
                Outcome(Store(conns, Some(platformId), r.fragrances, r.rows), Synced(|r.synced|, r.synced), requests)
  }

  /** A request without a usable caller or connection is answered with an
      error and touches neither the tables nor the provider. */
  lemma RejectedBeforeConnection(st: Store, req: SyncRequest, getUser: string -> Option<string>, apiKey: string,
                                 now: int, p: Provider)
    requires ProviderValid(p)
    requires !Present(req.authorization) || getUser(ReplaceFirst(req.authorization.value, "Bearer ", "")).None? ||
             |MatchingIds(st.connections, getUser(ReplaceFirst(req.authorization.value, "Bearer ", "")).value, req.shopId)| != 1
    ensures var o := SyncSpec(st, req, getUser, apiKey, now, p);
            o.store == st && o.requests == [] && o.response.Failed?
    ensures var o := SyncSpec(st, req, getUser, apiKey, now, p);
            o.response.message in {"No authorization header", "Invalid user token", "No active Etsy connection found"}
    ensures !Present(req.authorization) ==> SyncSpec(st, req, getUser, apiKey, now, p).response == Failed("No authorization header")
  {
  }

  /** The connection the function works on, when the caller and the shop pick exactly one. */
  predicate Picks(st: Store, req: SyncRequest, getUser: string -> Option<string>, userId: string, id: string) {
    Present(req.authorization) && getUser(ReplaceFirst(req.authorization.value, "Bearer ", "")) == Some(userId) &&
    MatchingIds(st.connections, userId, req.shopId) == {id}
  }

  /** The token is refreshed exactly when the clock has reached its expiry: the
      first request is then the refresh grant with the stored refresh token
      (section 6 of RFC 6749), and otherwise the listing read comes first. */
  lemma RefreshIffExpired(st: Store, req: SyncRequest, getUser: string -> Option<string>, apiKey: string,
                          now: int, p: Provider, userId: string, id: string)
    requires ProviderValid(p) && Picks(st, req, getUser, userId, id)
    ensures var o := SyncSpec(st, req, getUser, apiKey, now, p);
            |o.requests| >= 1 && (o.requests[0].RefreshRequest? <==> NeedsRefresh(st.connections[id], now))
    ensures var o := SyncSpec(st, req, getUser, apiKey, now, p);
            NeedsRefresh(st.connections[id], now) ==>
              o.requests[0] == RefreshRequest("refresh_token", apiKey, st.connections[id].refreshToken)
    ensures var o := SyncSpec(st, req, getUser, apiKey, now, p);
            !NeedsRefresh(st.connections[id], now) ==>
              o.requests[0] == ListingsRequest(req.shopId, st.connections[id].accessToken, apiKey) &&
              o.store.connections == st.connections
  {
    assert ConnectionQuery(st.connections, userId, req.shopId) == Some(id);
  }

  /** A failed refresh ends the call with its error before anything is written or read. */
  lemma FailedRefreshWritesNothing(st: Store, req: SyncRequest, getUser: string -> Option<string>, apiKey: string,
                                   now: int, p: Provider, userId: string, id: string)
    requires ProviderValid(p) && Picks(st, req, getUser, userId, id)
    requires NeedsRefresh(st.connections[id], now) && p.refresh.Err?
    ensures var o := SyncSpec(st, req, getUser, apiKey, now, p);
            o.store == st && o.response == Failed("Failed to refresh access token") && |o.requests| == 1
  {
    assert ConnectionQuery(st.connections, userId, req.shopId) == Some(id);
  }

  /** A successful refresh replaces that connection's tokens, sets its expiry
      `expires_in` seconds from now (section 5.1 of RFC 6749), leaves every
      other connection as it was, and the listings are read with the new token. */
  lemma RefreshUpdatesThatConnection(st: Store, req: SyncRequest, getUser: string -> Option<string>, apiKey: string,
                                     now: int, p: Provider, userId: string, id: string)
    requires ProviderValid(p) && Picks(st, req, getUser, userId, id)
    requires NeedsRefresh(st.connections[id], now) && p.refresh.Ok?
    ensures var o := SyncSpec(st, req, getUser, apiKey, now, p);
            var c := o.store.connections[id];
            id in o.store.connections && c.accessToken == p.refresh.value.accessToken &&
            c.refreshToken == (if p.refresh.value.refreshToken.Some? then p.refresh.value.refreshToken
                               else st.connections[id].refreshToken) && ExpiryMs(c.expiresAt) == now + 1000 * p.refresh.value.expiresIn &&
            c.userId == userId && c.shopId == req.shopId && c.isActive
    ensures var o := SyncSpec(st, req, getUser, apiKey, now, p);
            o.store.connections.Keys == st.connections.Keys &&
            forall other :: other in st.connections && other != id ==> o.store.connections[other] == st.connections[other]
    ensures var o := SyncSpec(st, req, getUser, apiKey, now, p);
            |o.requests| == 2 && o.requests[1] == ListingsRequest(req.shopId, p.refresh.value.accessToken, apiKey)
  {
    assert ConnectionQuery(st.connections, userId, req.shopId) == Some(id);
  }

  /** A completed sync reports one entry per listing row it wrote, at most one per
      listing read, keeps the rows that were there, and the platform row exists. */
  lemma SyncedCountMatchesRows(st: Store, req: SyncRequest, getUser: string -> Option<string>, apiKey: string,
                               now: int, p: Provider)
    requires ProviderValid(p)
    ensures var o := SyncSpec(st, req, getUser, apiKey, now, p);
            o.response.Synced? ==>
              p.listings.Ok? && o.response.syncedCount == |o.response.listings| <= |p.listings.value| &&
              |o.store.listings| == |st.listings| + o.response.syncedCount &&
              o.store.listings[..|st.listings|] == st.listings && o.store.etsyPlatform.Some?
    ensures var o := SyncSpec(st, req, getUser, apiKey, now, p);
            o.response.Synced? ==> RowsDescribe(o.store.listings[|st.listings|..], o.response.listings)
  {
    var o := SyncSpec(st, req, getUser, apiKey, now, p);
    if o.response.Synced? {
      var inputs := p.listings.value;
      var platformId := o.store.etsyPlatform.value;
      var s0 := SyncState(st.fragrances, st.listings, []);
      ReconcileCounts(s0, inputs, platformId, now);
      ReconcileShift(s0, inputs, platformId, now);
      var r := Reconcile(s0, inputs, platformId, now);
      assert o.store.listings == r.rows && o.response.listings == r.synced;
    }
  }

  /** Rows written before the loop only shift the rows it writes. */
  lemma {:induction false} ReconcileShift(s: SyncState, inputs: seq<ListingInput>, platformId: string, now: int)
    requires AllValid(inputs) && s.synced == []
    ensures var r := Reconcile(s, inputs, platformId, now);
            |s.rows| <= |r.rows| && RowsDescribe(r.rows[|s.rows|..], r.synced)
  {
    ReconcileCounts(s, inputs, platformId, now);
    var s1 := s.(rows := []);
    ReconcileRowsMatchSummary(s1, inputs, platformId, now);
    ReconcileRowsIndependent(s, inputs, platformId, now);
  }

  /** The rows a run writes do not depend on the rows already written. */
  lemma {:induction false} ReconcileRowsIndependent(s: SyncState, inputs: seq<ListingInput>, platformId: string, now: int)
    requires AllValid(inputs)
    ensures var r := Reconcile(s, inputs, platformId, now);
            var r1 := Reconcile(s.(rows := []), inputs, platformId, now);
            r.rows == s.rows + r1.rows && r.synced == r1.synced && r.fragrances == r1.fragrances
  {
    if inputs != [] {
      var init := inputs[..|inputs| - 1];
      assert forall k :: 0 <= k < |init| ==> init[k] == inputs[k];
      ReconcileRowsIndependent(s, init, platformId, now);
      var m := Reconcile(s, init, platformId, now);
      var m1 := Reconcile(s.(rows := []), init, platformId, now);
      var last := inputs[|inputs| - 1];
      if StepSucceeds(m.fragrances, last) {
        assert Step(m, last, platformId, now).rows == m.rows + [Step(m, last, platformId, now).rows[|m.rows|]];
      }
    }
  }

  /** When the provider and the database answer every call, every listing read is synced. */
  lemma NoFaultsSyncsEveryListing(st: Store, req: SyncRequest, getUser: string -> Option<string>, apiKey: string,
                                  now: int, p: Provider, userId: string, id: string)
    requires ProviderValid(p) && Picks(st, req, getUser, userId, id)
    requires p.refresh.Ok? && p.listings.Ok? && p.platformLookupError.None? && p.platformCreate.Ok?
    requires forall k :: 0 <= k < |p.listings.value| ==> p.listings.value[k].db.(newFragranceId := "") == NoFaults
    ensures var o := SyncSpec(st, req, getUser, apiKey, now, p);
            o.response.Synced? && o.response.syncedCount == |p.listings.value| &&
            forall k :: 0 <= k < |p.listings.value| ==> o.response.listings[k] == SummaryOf(p.listings.value[k].listing)
  {
    assert ConnectionQuery(st.connections, userId, req.shopId) == Some(id);
    var o := SyncSpec(st, req, getUser, apiKey, now, p);
    var platformId := if st.etsyPlatform.Some? then st.etsyPlatform.value else p.platformCreate.value;
    NoFaultsSyncsAll(SyncState(st.fragrances, st.listings, []), p.listings.value, platformId, now);
  }

  /** A platform lookup that fails other than with "no row" is thrown after both
      provider requests: the answer is its error, the refreshed token stays
      written, and no platform, fragrance or listing row is written. */
  lemma PlatformLookupErrorStops(st: Store, req: SyncRequest, getUser: string -> Option<string>, apiKey: string,
                                 now: int, p: Provider, userId: string, id: string)
    requires ProviderValid(p) && Picks(st, req, getUser, userId, id)
    requires (NeedsRefresh(st.connections[id], now) ==> p.refresh.Ok?) && p.listings.Ok? && p.platformLookupError.Some?
    ensures var o := SyncSpec(st, req, getUser, apiKey, now, p);
            o.response == Failed(p.platformLookupError.value) &&
            o.store.etsyPlatform == st.etsyPlatform && o.store.fragrances == st.fragrances &&
            o.store.listings == st.listings &&
            |o.requests| == (if NeedsRefresh(st.connections[id], now) then 2 else 1) &&
            o.requests[|o.requests| - 1].ListingsRequest?
  {
    assert ConnectionQuery(st.connections, userId, req.shopId) == Some(id);
  }

  // ---------------------------------------------------------------- store

  /** The tables the function reads and writes. */
  class EtsyStore {
    var connections: map<string, Connection>
    var etsyPlatform: Option<string>
    var fragrances: map<string, Fragrance>
    var listings: seq<ListingRow>

    function State(): Store
      reads this
    {
      Store(connections, etsyPlatform, fragrances, listings)
    }

    constructor (initial: Store)
      ensures State() == initial
    {
      connections := initial.connections;
      etsyPlatform := initial.etsyPlatform;
      fragrances := initial.fragrances;
      listings := initial.listings;
    }

    /** The edge function's handler: its response, the provider requests in
        order, and the tables afterwards. */
    method Sync(req: SyncRequest, getUser: string -> Option<string>, apiKey: string, now: int, p: Provider)
      returns (response: SyncResponse, requests: seq<Request>)
      requires ProviderValid(p)
      modifies this
      ensures Outcome(State(), response, requests) == SyncSpec(old(State()), req, getUser, apiKey, now, p)
    {
      requests := [];
      if !Present(req.authorization) {
        return Failed("No authorization header"), requests;
      }
      var user := getUser(ReplaceFirst(req.authorization.value, "Bearer ", ""));
      if user.None? {
        return Failed("Invalid user token"), requests;
      }
      var ids := MatchingIds(connections, user.value, req.shopId);
      if |ids| != 1 {
        return Failed("No active Etsy connection found"), requests;
      }
      var id :| id in ids;
      SingletonElement(ids, id);
      assert ConnectionQuery(old(connections), user.value, req.shopId) == Some(id);
      var c := connections[id];
      var accessToken := c.accessToken;
      if NeedsRefresh(c, now) {
        requests := [RefreshRequest("refresh_token", apiKey, c.refreshToken)];
        if p.refresh.Err? {
          return Failed("Failed to refresh access token"), requests;
        }
        accessToken := p.refresh.value.accessToken;
        connections := connections[id := Refreshed(c, p.refresh.value, now)];
      }
      requests := requests + [ListingsRequest(req.shopId, accessToken, apiKey)];
      if p.listings.Err? {
        return Failed("Failed to fetch shop listings"), requests;
      }
      if p.platformLookupError.Some? {
        return Failed(p.platformLookupError.value), requests;
      }
      var platformId: string;
      if etsyPlatform.Some? {
        platformId := etsyPlatform.value;
      } else {
        if p.platformCreate.Err? {
          return Failed(p.platformCreate.error), requests;
        }
        platformId := p.platformCreate.value;
        etsyPlatform := Some(platformId);
      }
      var s := ReconcileLoop(SyncState(fragrances, listings, []), p.listings.value, platformId, now);
      fragrances := s.fragrances;
      listings := s.rows;
      response := Synced(|s.synced|, s.synced);
    }
  }
}
