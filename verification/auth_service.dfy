/** `loginUser` and `registerUser` of the access-only variant: post the
    credentials, then keep the returned access token in the store when it
    is truthy. The backend's reply is a parameter. */
module AuthService {
  import opened Wrappers
  import opened Storage

  /** The reply's `data` object, reduced to its `access_token` field. */
  datatype AuthBody = AuthBody(accessToken: Option<string>)

  datatype AuthReply =
    | Rejected                          // the request promise rejected (transport error or non-2xx)
    | Answered(data: Option<AuthBody>)  // None: `data` is null, so destructuring it throws

  datatype ServiceError = RequestRejected | NoResponseData

  /** The two request bodies, each posted to its own endpoint. */
  datatype AuthRequest =
    | LoginRequest(email: string, password: string)                                // `POST /auth/login/`
    | RegisterRequest(name: string, surname: string, email: string, password: string) // `POST /users/`

  /** The store after the reply's token, if truthy, is written under `access_token`. */
  function AfterReply(items: map<string, string>, body: AuthBody): map<string, string>
  {
    if Truthy(body.accessToken) then items[AccessTokenKey := body.accessToken.value] else items
  }

  /** What both functions do with a reply: return `{access_token}` as
      received and write it only when it is a non-empty string. The
      refresh token is never written. */
  method KeepReturnedToken(store: KeyValueStore, reply: AuthReply)
    returns (r: Result<Option<string>, ServiceError>)
    modifies store
    ensures reply.Rejected? ==> r == Err(RequestRejected) && store.items == old(store.items)
    ensures reply.Answered? && reply.data.None? ==> r == Err(NoResponseData) && store.items == old(store.items)
    ensures reply.Answered? && reply.data.Some? ==>
              r == Ok(reply.data.value.accessToken)
              && store.items == AfterReply(old(store.items), reply.data.value)
    ensures store.items.Keys <= old(store.items.Keys) + {AccessTokenKey}
    ensures forall k :: k in old(store.items) && k != AccessTokenKey ==> store.items[k] == old(store.items)[k]
  {
    if reply.Rejected? {
      return Err(RequestRejected);
    }
    if reply.data.None? {
      return Err(NoResponseData);
    }
    var accessToken := reply.data.value.accessToken;
    if Truthy(accessToken) {
      store.SetItem(AccessTokenKey, accessToken.value);
    }
    r := Ok(accessToken);
  }

  /** `POST /auth/login/` with `{email, password}`. */
  method LoginUser(store: KeyValueStore, email: string, password: string, reply: AuthReply)
    returns (r: Result<Option<string>, ServiceError>, sent: AuthRequest)
    modifies store
    ensures sent == LoginRequest(email, password)
    ensures reply.Rejected? ==> r == Err(RequestRejected) && store.items == old(store.items)
    ensures reply.Answered? && reply.data.None? ==> r == Err(NoResponseData) && store.items == old(store.items)
    ensures reply.Answered? && reply.data.Some? ==>
              r == Ok(reply.data.value.accessToken)
              && store.items == AfterReply(old(store.items), reply.data.value)
  {
    sent := LoginRequest(email, password);
    r := KeepReturnedToken(store, reply);
  }

  /** `POST /users/` with `{name, surname, email, password}`. */
  method RegisterUser(store: KeyValueStore, name: string, surname: string, email: string, password: string,
                      reply: AuthReply)
    returns (r: Result<Option<string>, ServiceError>, sent: AuthRequest)
    modifies store
    ensures sent == RegisterRequest(name, surname, email, password)
    ensures reply.Rejected? ==> r == Err(RequestRejected) && store.items == old(store.items)
    ensures reply.Answered? && reply.data.None? ==> r == Err(NoResponseData) && store.items == old(store.items)
    ensures reply.Answered? && reply.data.Some? ==>
              r == Ok(reply.data.value.accessToken)
              && store.items == AfterReply(old(store.items), reply.data.value)
  {
    sent := RegisterRequest(name, surname, email, password);
    r := KeepReturnedToken(store, reply);
  }

  /** An empty or missing token leaves the store as it was; a present one
      is readable back; the refresh token is never touched. */
  lemma AfterReplyEffect(items: map<string, string>, body: AuthBody)
    ensures !Truthy(body.accessToken) ==> AfterReply(items, body) == items
    ensures Truthy(body.accessToken) ==> Lookup(AfterReply(items, body), AccessTokenKey) == body.accessToken
    ensures Lookup(AfterReply(items, body), RefreshTokenKey) == Lookup(items, RefreshTokenKey)
  {
  }
}
