/** The access-only session state machine (`AuthProvider`): a tri-state
    status, a one-shot bootstrap check of the stored token's `exp` claim,
    `login`, `logout`, and the background timer that clears the token
    after five minutes. Clock readings and the decoder are parameters;
    timers are explicit events. */
module AuthContext {
  import opened Wrappers
  import opened Storage

  /** `5 * 60 * 1000`: the background grace window in milliseconds. */
  const BackgroundTimeoutMs: int := 5 * 60 * 1000

  const BackgroundState: string := "background"
  const ActiveState: string := "active"

  /** The claims `jwtDecode` yields. `exp` is the NumericDate of section
      4.1.4 of RFC 7519, in seconds; None when the claim is missing. */
  datatype Claims = Claims(exp: Option<int>)

  /** `decoded.exp * 1000 < Date.now()` against a clock in milliseconds.
      Without a numeric `exp` the product is NaN and the comparison false. */
  predicate IsExpired(claims: Claims, nowMs: int)
  {
    claims.exp.Some? && claims.exp.value * 1000 < nowMs
  }

  /** The expiry instant itself still counts as valid; one millisecond later does not. */
  lemma ExpiryBoundary(exp: int)
    ensures !IsExpired(Claims(Some(exp)), exp * 1000)
    ensures IsExpired(Claims(Some(exp)), exp * 1000 + 1)
    ensures !IsExpired(Claims(None), exp)
  {
  }

  /** The bootstrap accepts the stored token: it is truthy, `decode` does
      not throw on it (None stands for a throw), and it is not expired. */
  predicate Accepts(items: map<string, string>, decode: string -> Option<Claims>, nowMs: int)
  {
    && Truthy(Lookup(items, AccessTokenKey))
    && decode(items[AccessTokenKey]).Some?
    && !IsExpired(decode(items[AccessTokenKey]).value, nowMs)
  }

  class AuthProvider {
    /** The device store the provider reads and writes. */
    const store: KeyValueStore
    /** `isAuthenticated`: None is `null` (not yet known). */
    var isAuthenticated: Option<bool>
    /** `backgroundTimeout`: the handle of the last timer set, or `null`. */
    var backgroundTimeout: Option<nat>
    /** Timers set and neither fired nor cleared, with their deadlines (ms). */
    var pending: map<nat, int>
    /** The handle the next `setTimeout` returns. */
    var nextHandle: nat

    /** Handles are never reused. */
    ghost predicate Valid()
      reads this
    {
      && (forall h :: h in pending ==> h < nextHandle)
      && (backgroundTimeout.Some? ==> backgroundTimeout.value < nextHandle)
    }

    /** The status never claims a session whose token is not stored. */
    ghost predicate TokenBacksStatus()
      reads this, store
    {
      isAuthenticated == Some(true) ==> AccessTokenKey in store.items
    }

    constructor (store: KeyValueStore)
      ensures this.store == store && Valid()
      ensures isAuthenticated == None && backgroundTimeout == None && pending == map[]
    {
      this.store := store;
      isAuthenticated := None;
      backgroundTimeout := None;
      pending := map[];
      nextHandle := 0;
    }

    /** `checkAuth`: a missing or empty token signs out without touching
        the store; an accepted token signs in; an expired or undecodable
        one is removed and signs out. */
    method CheckAuth(decode: string -> Option<Claims>, nowMs: int)
      modifies this`isAuthenticated, store
      ensures isAuthenticated == Some(Accepts(old(store.items), decode, nowMs))
      ensures !Truthy(Lookup(old(store.items), AccessTokenKey)) || Accepts(old(store.items), decode, nowMs) ==>
                store.items == old(store.items)
      ensures Truthy(Lookup(old(store.items), AccessTokenKey)) && !Accepts(old(store.items), decode, nowMs) ==>
                store.items == old(store.items) - {AccessTokenKey}
      ensures TokenBacksStatus()
    {
      var token := store.GetItem(AccessTokenKey);
      if Truthy(token) {
        var decoded := decode(token.value);
        if decoded.Some? {
          var isTokenExpired := IsExpired(decoded.value, nowMs);
          if !isTokenExpired {
            isAuthenticated := Some(true);
          } else {
            store.RemoveItem(AccessTokenKey);
            isAuthenticated := Some(false);
          }
        } else {
          store.RemoveItem(AccessTokenKey);
          isAuthenticated := Some(false);
        }
      } else {
        isAuthenticated := Some(false);
      }
    }

    /** `login(token)`: the write completes before the status is set. */
    method Login(token: string)
      modifies this`isAuthenticated, store
      ensures store.items == old(store.items)[AccessTokenKey := token]
      ensures isAuthenticated == Some(true)
      ensures TokenBacksStatus()
    {
      store.SetItem(AccessTokenKey, token);
      isAuthenticated := Some(true);
    }

    /** `logout`: only `access_token` is removed; a repeated call changes nothing. */
    method Logout()
      modifies this`isAuthenticated, store
      ensures store.items == old(store.items) - {AccessTokenKey}
      ensures isAuthenticated == Some(false)
      ensures AccessTokenKey !in old(store.items) && old(isAuthenticated) == Some(false) ==>
                store.items == old(store.items) && isAuthenticated == old(isAuthenticated)
      ensures TokenBacksStatus()
    {
      store.RemoveItem(AccessTokenKey);
      isAuthenticated := Some(false);
    }

    /** `handleAppStateChange`. "background" sets a new timer whatever the
        status and overwrites the handle without clearing the previous
        timer, which stays pending; "active" clears only the timer whose
        handle is held; any other state changes nothing. */
    method HandleAppStateChange(nextAppState: string, nowMs: int)
      requires Valid()
      modifies this`backgroundTimeout, this`pending, this`nextHandle
      ensures Valid()
      ensures nextAppState == BackgroundState ==>
                && backgroundTimeout == Some(old(nextHandle))
                && old(nextHandle) !in old(pending)
                && pending == old(pending)[old(nextHandle) := nowMs + BackgroundTimeoutMs]
      ensures nextAppState == ActiveState && old(backgroundTimeout).Some? ==>
                backgroundTimeout == None && pending == old(pending) - {old(backgroundTimeout).value}
      ensures nextAppState == ActiveState && old(backgroundTimeout).None? ==>
                backgroundTimeout == None && pending == old(pending)
      ensures nextAppState != BackgroundState && nextAppState != ActiveState ==>
                backgroundTimeout == old(backgroundTimeout) && pending == old(pending)
    {
      if nextAppState == BackgroundState {
        var handle := nextHandle;
        nextHandle := nextHandle + 1;
        pending := pending[handle := nowMs + BackgroundTimeoutMs];
        backgroundTimeout := Some(handle);
      } else if nextAppState == ActiveState {
        if backgroundTimeout.Some? {
          pending := pending - {backgroundTimeout.value};
          backgroundTimeout := None;
        }
      }
    }

    /** The timer callback. A pending timer whose deadline has passed
        removes `access_token` and signs out; the held handle is not
        reset. Any other firing is not a timer event and changes nothing. */
    method FireTimer(handle: nat, nowMs: int)
      modifies this`isAuthenticated, this`pending, store
      ensures handle in old(pending) && old(pending)[handle] <= nowMs ==>
                && store.items == old(store.items) - {AccessTokenKey}
                && isAuthenticated == Some(false)
                && pending == old(pending) - {handle}
      ensures !(handle in old(pending) && old(pending)[handle] <= nowMs) ==>
                && store.items == old(store.items)
                && isAuthenticated == old(isAuthenticated)
                && pending == old(pending)
      ensures old(TokenBacksStatus()) ==> TokenBacksStatus()
    {
      if handle in pending && pending[handle] <= nowMs {
        pending := pending - {handle};
        store.RemoveItem(AccessTokenKey);
        isAuthenticated := Some(false);
      }
    }
  }
}
