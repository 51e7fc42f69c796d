/** `makeRequest`: the authenticated-request wrapper of the access+refresh
    variant. It attaches `Authorization: Bearer <token>` (section 2.1 of
    RFC 6750) and, on a 401 Unauthorized reply (section 15.5.2 of RFC 9110),
    refreshes the token once and retries once. The network is represented
    by the replies it gives, in order; the requests sent are returned. */
module ApiService {
  import opened Wrappers
  import opened Storage
  import opened TokenService

  /** The `RequestInit` options: the header dictionary and every other option. */
  datatype RequestInit = RequestInit(headers: map<string, string>, rest: map<string, string>)

  datatype Request = Request(url: string, init: RequestInit)

  datatype Response = Response(status: int, body: string)

  datatype ApiError =
    | NoAccessTokenAvailable          // "No access token available", before any request
    | NetworkFailure                  // a `fetch` rejected
    | RefreshFailed(cause: RefreshError)

  const Unauthorized: int := 401
  const AuthorizationHeader: string := "Authorization"

  /** `{...options, headers: {...options.headers, Authorization: `Bearer ${token}`}}`:
      the caller's headers and options are kept, a caller `Authorization` is replaced. */
  function WithBearer(init: RequestInit, token: string): (r: RequestInit)
    ensures r.rest == init.rest
    ensures r.headers.Keys == init.headers.Keys + {AuthorizationHeader}
    ensures r.headers[AuthorizationHeader] == "Bearer " + token
    ensures forall h :: h in init.headers && h != AuthorizationHeader ==> r.headers[h] == init.headers[h]
  {
    init.(headers := init.headers[AuthorizationHeader := "Bearer " + token])
  }

  /** `first` and `retry` are what the two `fetch` calls yield (None: the
      call rejected); `refreshReply` is what the refresh endpoint answers. */
  method MakeRequest(store: KeyValueStore, url: string, init: RequestInit,
                     first: Option<Response>, refreshReply: RefreshReply, retry: Option<Response>)
    returns (r: Result<Response, ApiError>, sent: seq<Request>, refreshSent: Option<string>)
    modifies store
    ensures |sent| <= 2
    ensures forall i :: 0 <= i < |sent| ==> sent[i].url == url && sent[i].init.rest == init.rest
    ensures !Truthy(Lookup(old(store.items), AccessTokenKey)) ==>
              r == Err(NoAccessTokenAvailable) && sent == [] && refreshSent == None
              && store.items == old(store.items)
    ensures Truthy(Lookup(old(store.items), AccessTokenKey)) ==>
              1 <= |sent| && sent[0] == Request(url, WithBearer(init, old(store.items)[AccessTokenKey]))
    ensures first.None? || first.value.status != Unauthorized ==>
              refreshSent == None && |sent| <= 1 && store.items == old(store.items)
    ensures sent != [] && first.None? ==> r == Err(NetworkFailure)
    ensures sent != [] && first.Some? && first.value.status != Unauthorized ==> r == Ok(first.value)
    ensures sent != [] && first.Some? && first.value.status == Unauthorized ==>
              refreshSent == RefreshRequestBody(old(store.items))
    ensures refreshSent.Some? && FullGrant(refreshReply) ==>
              store.items == Saved(old(store.items), refreshReply.accessToken.value, refreshReply.refreshToken.value)
              && |sent| == 2 && sent[1] == Request(url, WithBearer(init, refreshReply.accessToken.value))
              && r == (if retry.Some? then Ok(retry.value) else Err(NetworkFailure))
    ensures sent != [] && first.Some? && first.value.status == Unauthorized
            && !(refreshSent.Some? && FullGrant(refreshReply)) ==>
              |sent| == 1
              && store.items == (if refreshSent.None? then old(store.items)
                                 else AfterFailedRefresh(old(store.items), refreshReply))
              && r == Err(RefreshFailed(if refreshSent.None? then RefreshTokenNotFound else FailureOf(refreshReply)))
  {
    sent, refreshSent := [], None;
    var token := GetAccessToken(store);
    if !Truthy(token) {
      return Err(NoAccessTokenAvailable), sent, refreshSent;
    }
    var request := Request(url, WithBearer(init, token.value));
    sent := [request];
    if first.None? {
      return Err(NetworkFailure), sent, refreshSent;
    }
    var response := first.value;
    if response.status == Unauthorized {
      var newToken;
      newToken, refreshSent := RefreshAccessToken(store, refreshReply);
      if newToken.Err? {
        return Err(RefreshFailed(newToken.error)), sent, refreshSent;
      }
      var retryRequest := Request(url, WithBearer(init, newToken.value));
      sent := sent + [retryRequest];
      if retry.None? {
        return Err(NetworkFailure), sent, refreshSent;
      }
      return Ok(retry.value), sent, refreshSent;
    }
    r := Ok(response);
  }
}
