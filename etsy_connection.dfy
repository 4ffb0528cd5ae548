/** The Etsy connection panel: whether the stored token is close to expiry,
    loading the caller's active connection, and the disconnect and sync
    buttons with the rows they write. Times are milliseconds. */
module EtsyConnection {
  import opened Common
  import EtsySync

  /** The columns of etsy_connections the panel reads. */
  datatype ClientConnection = ClientConnection(id: string, shopId: string, shopName: string, isActive: bool,
                                               lastSyncAt: Option<int>, expiresAt: Option<int>)

  const DayMs := 1000 * 60 * 60 * 24

  /** `Math.ceil((expiry - now) / DayMs)`: the smallest whole number of days
      covering the time left, negative once the token has expired. */
  function DaysUntilExpiry(expiry: int, now: int): (r: int)
    ensures (r - 1) * DayMs < expiry - now <= r * DayMs
  {
    -((now - expiry) / DayMs)
  }

  /** isTokenExpiring: false without a connection or an expiry, otherwise true
      when at most seven (rounded-up) days are left. */
  predicate IsTokenExpiring(c: Option<ClientConnection>, now: int) {
    c.Some? && c.value.expiresAt.Some? && DaysUntilExpiry(c.value.expiresAt.value, now) <= 7
  }

  /** The warning shows exactly when the expiry is at most seven days of
      milliseconds away, which includes every token that has already expired. */
  lemma ExpiringIffWithinAWeek(c: Option<ClientConnection>, now: int)
    ensures IsTokenExpiring(c, now) <==> c.Some? && c.value.expiresAt.Some? && c.value.expiresAt.value - now <= 7 * DayMs
    ensures c.Some? && c.value.expiresAt.Some? && c.value.expiresAt.value <= now ==> IsTokenExpiring(c, now)
  {
    if c.Some? && c.value.expiresAt.Some? {
      var r := DaysUntilExpiry(c.value.expiresAt.value, now);
      if r >= 8 {
        assert (r - 1) * DayMs >= 7 * DayMs;
      } else {
        assert r * DayMs <= 7 * DayMs;
      }
    }
  }

  /** `update({ is_active: false }).eq('id', id)`: that row alone is deactivated. */
  function Deactivate(table: map<string, EtsySync.Connection>, id: string): (r: map<string, EtsySync.Connection>)
    ensures r.Keys == table.Keys
    ensures forall k :: k in table && k != id ==> r[k] == table[k]
    ensures id in table ==> r[id] == table[id].(isActive := false)
  {
    if id in table then table[id := table[id].(isActive := false)] else table
  }

  /** After a disconnect, the sync function no longer finds that row for any caller or shop. */
  lemma DeactivatedIsNotMatched(table: map<string, EtsySync.Connection>, id: string, userId: string, shopId: string)
    ensures EtsySync.MatchingIds(Deactivate(table, id), userId, shopId) == EtsySync.MatchingIds(table, userId, shopId) - {id}
  {
    var before := EtsySync.MatchingIds(table, userId, shopId);
    var after := EtsySync.MatchingIds(Deactivate(table, id), userId, shopId);
    forall k
      ensures k in after <==> k in before - {id}
    {
      if k in table && k != id {
        assert Deactivate(table, id)[k] == table[k];
      }
    }
  }

  /** `update({ last_sync_at: now }).eq('id', id)`: that row alone is stamped. */
  function StampSync(table: map<string, EtsySync.Connection>, id: string, now: int): (r: map<string, EtsySync.Connection>)
    ensures r.Keys == table.Keys
    ensures forall k :: k in table && k != id ==> r[k] == table[k]
    ensures id in table ==> r[id] == table[id].(lastSyncAt := Some(now))
  {
    if id in table then table[id := table[id].(lastSyncAt := Some(now))] else table
  }

  /** The answer to the `.single()` query for the active connection: the row,
      or the error code (PGRST116 when no row matched). */
  datatype Lookup = Row(c: ClientConnection) | LookupError(code: string)

  /** The connection checkConnection leaves: the row found, none for PGRST116,
      and the previous one for any other error, which is only logged. */
  function AfterLookup(previous: Option<ClientConnection>, l: Lookup): (r: Option<ClientConnection>)
    ensures l.Row? ==> r == Some(l.c)
    ensures l.LookupError? && l.code == "PGRST116" ==> r.None?
    ensures l.LookupError? && l.code != "PGRST116" ==> r == previous
  {
    match l
    case Row(c) => Some(c)
    case LookupError(code) => if code == "PGRST116" then None else previous
  }

  datatype Notice = Notice(title: string, destructive: bool)

  /** The panel's state and the table it writes. */
  class Panel {
    var connection: Option<ClientConnection>
    var loading: bool
    var notices: seq<Notice>
    var table: map<string, EtsySync.Connection>

    constructor (rows: map<string, EtsySync.Connection>)
      ensures connection.None? && loading && notices == [] && table == rows
    {
      connection := None;
      loading := true;
      notices := [];
      table := rows;
    }

    method CheckConnection(l: Lookup)
      modifies this`connection, this`loading
      ensures connection == AfterLookup(old(connection), l) && !loading
    {
      connection := AfterLookup(connection, l);
      loading := false;
    }

    /** disconnectShop given the update's error, if any: without a connection
        nothing happens; otherwise that row is deactivated and, on success,
        the panel forgets the connection. */
    method Disconnect(updateError: Option<string>) returns (sent: Option<string>)
      modifies this`connection, this`notices, this`table
      ensures old(connection).None? ==> sent.None? && connection == old(connection) && notices == old(notices) &&
                                        table == old(table)
      ensures old(connection).Some? ==> sent == Some(old(connection).value.id)
      ensures old(connection).Some? && updateError.None? ==>
                table == Deactivate(old(table), old(connection).value.id) && connection.None? &&
                notices == old(notices) + [Notice("Shop Disconnected", false)]
      ensures old(connection).Some? && updateError.Some? ==>
                table == old(table) && connection == old(connection) && notices == old(notices) + [Notice("Error", true)]
    {
      if connection.None? {
        return None;
      }
      sent := Some(connection.value.id);
      if updateError.Some? {
        notices := notices + [Notice("Error", true)];
        return;
      }
      table := Deactivate(table, connection.value.id);
      connection := None;
      notices := notices + [Notice("Shop Disconnected", false)];
    }

    /** syncShop given the sync call's error and the stamp update's error, if
        any: the shop id is sent to the sync function, and only after it
        succeeds is the sync time written to the row and to the panel. The
        stamp update's error is never read, so when it fails the row keeps its
        old time while the panel still shows the new one and "Sync Complete". */
    method SyncShop(invokeError: Option<string>, stampError: Option<string>, now: int) returns (invoked: Option<string>)
      modifies this`connection, this`notices, this`table
      ensures old(connection).None? ==> invoked.None? && connection == old(connection) && notices == old(notices) &&
                                        table == old(table)
      ensures old(connection).Some? ==> invoked == Some(old(connection).value.shopId)
      ensures old(connection).Some? && invokeError.None? ==>
                connection == Some(old(connection).value.(lastSyncAt := Some(now))) &&
                notices == old(notices) + [Notice("Sync Complete", false)]
      ensures old(connection).Some? && invokeError.None? && stampError.None? ==>
                table == StampSync(old(table), old(connection).value.id, now)
      ensures old(connection).Some? && invokeError.None? && stampError.Some? ==> table == old(table)
      ensures old(connection).Some? && invokeError.Some? ==>
                table == old(table) && connection == old(connection) && notices == old(notices) + [Notice("Sync Error", true)]
    {
      if connection.None? {
        return None;
      }
      invoked := Some(connection.value.shopId);
      if invokeError.Some? {
        notices := notices + [Notice("Sync Error", true)];
        return;
      }
      if stampError.None? {
        table := StampSync(table, connection.value.id, now);
      }
      connection := Some(connection.value.(lastSyncAt := Some(now)));
      notices := notices + [Notice("Sync Complete", false)];
    }
  }
}
