/** The credential store of the access+refresh variant: two keys in the
    device store and the refresh exchange with the backend's
    `/auth/refresh/` endpoint. */
module TokenService {
  import opened Wrappers
  import opened Storage

  /** Failures that `refreshAccessToken` throws. */
  datatype RefreshError =
    | RefreshTokenNotFound           // "Refresh token not found", before any request
    | RefreshRefused(message: string) // a non-ok reply: its `message`, or the default text
    | MalformedReply                 // `response.json()` rejected
    | RefreshUnreachable             // `fetch` rejected
    | TokenNotStorable               // `setItem` rejected an undefined token

  /** What the refresh endpoint answered, as far as the client can tell.
      An ok reply may lack either token (None: `undefined`). */
  datatype RefreshReply =
    | NoConnection
    | NotJson
    | Refused(message: Option<string>)
    | Granted(accessToken: Option<string>, refreshToken: Option<string>)

  /** An ok reply carrying both tokens: the only reply that refreshes. */
  predicate FullGrant(reply: RefreshReply)
  {
    reply.Granted? && reply.accessToken.Some? && reply.refreshToken.Some?
  }

  const DefaultRefusal: string := "Failed to refresh token"

  /** `data.message || 'Failed to refresh token'`. */
  function RefusalText(message: Option<string>): (r: string)
    ensures message.Some? && message.value != "" ==> r == message.value
    ensures !(message.Some? && message.value != "") ==> r == DefaultRefusal
  {
    if message.Some? && message.value != "" then message.value else DefaultRefusal
  }

  /** The error a reply other than a full grant is turned into. */
  function FailureOf(reply: RefreshReply): RefreshError
    requires !FullGrant(reply)
  {
    match reply
    case NoConnection => RefreshUnreachable
    case NotJson => MalformedReply
    case Refused(message) => RefreshRefused(RefusalText(message))
    case Granted(_, _) => TokenNotStorable
  }

  /** The store after a refresh that failed once the refresh token was
      read: `saveTokens` writes the access token before it reaches an
      undefined refresh token, so a grant lacking only the refresh token
      leaves the new access token stored; any other failure writes nothing. */
  function AfterFailedRefresh(items: map<string, string>, reply: RefreshReply): (r: map<string, string>)
    requires !FullGrant(reply)
    ensures forall k :: k != AccessTokenKey ==> Lookup(r, k) == Lookup(items, k)
    ensures reply.Granted? && reply.accessToken.Some? ==> Lookup(r, AccessTokenKey) == reply.accessToken
    ensures !(reply.Granted? && reply.accessToken.Some?) ==> r == items
  {
    if reply.Granted? && reply.accessToken.Some? then items[AccessTokenKey := reply.accessToken.value] else items
  }

  /** The refresh token that `refreshAccessToken` sends: the stored one when it is truthy. */
  function RefreshRequestBody(items: map<string, string>): (r: Option<string>)
    ensures r.Some? <==> Truthy(Lookup(items, RefreshTokenKey))
    ensures r.Some? ==> r.value == items[RefreshTokenKey]
  {
    if Truthy(Lookup(items, RefreshTokenKey)) then Some(items[RefreshTokenKey]) else None
  }

  /** The store after `saveTokens(a, r)`. */
  function Saved(items: map<string, string>, access: string, refresh: string): map<string, string>
  {
    items[AccessTokenKey := access][RefreshTokenKey := refresh]
  }

  /** Reading back after a save gives the saved pair, whatever was stored
      before, and no other key changes. */
  lemma SaveThenGet(items: map<string, string>, access: string, refresh: string)
    ensures Lookup(Saved(items, access, refresh), AccessTokenKey) == Some(access)
    ensures Lookup(Saved(items, access, refresh), RefreshTokenKey) == Some(refresh)
    ensures forall k :: k != AccessTokenKey && k != RefreshTokenKey ==>
              Lookup(Saved(items, access, refresh), k) == Lookup(items, k)
  {
  }

  method SaveTokens(store: KeyValueStore, accessToken: string, refreshToken: string)
    modifies store
    ensures store.items == Saved(old(store.items), accessToken, refreshToken)
  {
    store.SetItem(AccessTokenKey, accessToken);
    store.SetItem(RefreshTokenKey, refreshToken);
  }

  method GetAccessToken(store: KeyValueStore) returns (t: Option<string>)
    ensures t.Some? <==> AccessTokenKey in store.items
    ensures t.Some? ==> t.value == store.items[AccessTokenKey]
  {
    t := store.GetItem(AccessTokenKey);
  }

  method GetRefreshToken(store: KeyValueStore) returns (t: Option<string>)
    ensures t.Some? <==> RefreshTokenKey in store.items
    ensures t.Some? ==> t.value == store.items[RefreshTokenKey]
  {
    t := store.GetItem(RefreshTokenKey);
  }

  /** Removes both credentials; every other key is kept, and a second
      call changes nothing. */
  method RemoveTokens(store: KeyValueStore)
    modifies store
    ensures store.items == old(store.items) - {AccessTokenKey, RefreshTokenKey}
    ensures AccessTokenKey !in old(store.items) && RefreshTokenKey !in old(store.items)
            ==> store.items == old(store.items)
  {
    store.RemoveItem(AccessTokenKey);
    store.RemoveItem(RefreshTokenKey);
  }

  /** `refreshAccessToken`: read the refresh token, post it, and on an ok
      reply save the rotated pair and return the new access token. `sent`
      is the refresh token carried by the request (None: no request). An
      ok reply without a token makes `saveTokens` throw at that write. */
  method RefreshAccessToken(store: KeyValueStore, reply: RefreshReply)
    returns (r: Result<string, RefreshError>, sent: Option<string>)
    modifies store
    ensures sent == RefreshRequestBody(old(store.items))
    ensures sent.None? ==> r == Err(RefreshTokenNotFound) && store.items == old(store.items)
    ensures sent.Some? && FullGrant(reply) ==>
              r == Ok(reply.accessToken.value)
              && store.items == Saved(old(store.items), reply.accessToken.value, reply.refreshToken.value)
    ensures sent.Some? && !FullGrant(reply) ==>
              r == Err(FailureOf(reply)) && store.items == AfterFailedRefresh(old(store.items), reply)
  {
    var refreshToken := GetRefreshToken(store);
    if !Truthy(refreshToken) {
      return Err(RefreshTokenNotFound), None;
    }
    sent := refreshToken;
    match reply {
      case NoConnection =>
        r := Err(RefreshUnreachable);
      case NotJson =>
        r := Err(MalformedReply);
      case Refused(message) =>
        r := Err(RefreshRefused(RefusalText(message)));
      case Granted(newAccess, newRefresh) =>
        if newAccess.None? {
          return Err(TokenNotStorable), sent;
        }
        store.SetItem(AccessTokenKey, newAccess.value);
        if newRefresh.None? {
          return Err(TokenNotStorable), sent;
        }
        store.SetItem(RefreshTokenKey, newRefresh.value);
        r := Ok(newAccess.value);
    }
  }
}
