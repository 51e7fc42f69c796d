/** The Yandex redirect handler: reads `access_token` and `refresh_token`
    from the query of an incoming deep link, takes the first element of a
    repeated parameter, and saves the pair only when both are strings. */
module OAuthButtons {
  import opened Wrappers
  import opened Storage
  import TokenService

  /** A query parameter as the URL parser yields it: one value, or the
      list of values of a repeated parameter. */
  datatype ParamValue = Scalar(text: string) | Many(values: seq<string>)

  type Query = map<string, ParamValue>

  const AccessParam: string := "access_token"
  const RefreshParam: string := "refresh_token"

  function Param(q: Query, name: string): Option<ParamValue>
  {
    if name in q then Some(q[name]) else None
  }

  /** JavaScript truthiness of a parameter: a non-empty string, or any list
      (an empty list is an object and therefore truthy). */
  predicate ParamTruthy(p: Option<ParamValue>)
  {
    p.Some? && (p.value.Many? || p.value.text != "")
  }

  /** The array-to-first-element step followed by the `typeof === 'string'`
      test: None when the parameter is missing or an empty list. */
  function Normalize(p: Option<ParamValue>): (r: Option<string>)
    ensures r.None? <==> p.None? || (p.value.Many? && |p.value.values| == 0)
    ensures r.Some? && p.value.Many? ==> r.value == p.value.values[0]
    ensures r.Some? && p.value.Scalar? ==> r.value == p.value.text
  {
    match p
    case None => None
    case Some(Scalar(s)) => Some(s)
    case Some(Many(vs)) => if |vs| > 0 then Some(vs[0]) else None
  }

  /** A single value and a one-element list of it are read alike; of a
      repeated parameter only the first value counts. */
  lemma NormalizeFirstWins(s: string, rest: seq<string>)
    ensures Normalize(Some(Many([s] + rest))) == Normalize(Some(Scalar(s)))
    ensures Normalize(Some(Many([s] + rest))) == Some(s)
  {
  }

  /** What a redirect carries. */
  datatype RedirectTokens =
    | NotARedirect                     // no URL, no query, or a falsy access_token
    | Malformed                        // access_token present but the pair is not two strings
    | Pair(access: string, refresh: string)

  function ReadRedirect(url: Option<string>, parse: string -> Option<Query>): (r: RedirectTokens)
    ensures r.NotARedirect? <==>
              !Truthy(url) || parse(url.value).None? || !ParamTruthy(Param(parse(url.value).value, AccessParam))
    ensures r.Pair? ==> Normalize(Param(parse(url.value).value, AccessParam)) == Some(r.access)
    ensures r.Pair? ==> Normalize(Param(parse(url.value).value, RefreshParam)) == Some(r.refresh)
    ensures r.Malformed? <==>
              && Truthy(url) && parse(url.value).Some?
              && ParamTruthy(Param(parse(url.value).value, AccessParam))
              && (Normalize(Param(parse(url.value).value, AccessParam)).None?
                  || Normalize(Param(parse(url.value).value, RefreshParam)).None?)
  {
    if !Truthy(url) then NotARedirect
    else match parse(url.value)
      case None => NotARedirect
      case Some(q) =>
        if !ParamTruthy(Param(q, AccessParam)) then NotARedirect
        else
          var access := Normalize(Param(q, AccessParam));
          var refresh := Normalize(Param(q, RefreshParam));
          if access.Some? && refresh.Some? then Pair(access.value, refresh.value) else Malformed
  }

  /** An access token without a refresh token is rejected as malformed,
      never saved alone. */
  lemma AccessWithoutRefreshIsMalformed(url: string, parse: string -> Option<Query>, access: string)
    requires url != "" && parse(url).Some?
    requires Param(parse(url).value, AccessParam) == Some(Scalar(access)) && access != ""
    requires RefreshParam !in parse(url).value
    ensures ReadRedirect(Some(url), parse) == Malformed
  {
  }

  /** An empty list for access_token is truthy, so the handler goes on to
      the format check, which then fails. */
  lemma EmptyAccessListIsMalformed(url: string, parse: string -> Option<Query>)
    requires url != "" && parse(url).Some?
    requires Param(parse(url).value, AccessParam) == Some(Many([]))
    ensures ReadRedirect(Some(url), parse) == Malformed
  {
  }

  /** Where saving the pair may fail: the two writes are sequential. */
  datatype SaveFault = NoFault | AccessWriteFails | RefreshWriteFails

  /** The alert shown at the end of the handler. */
  datatype Alert = NoAlert | SuccessAlert | TokensNotSaved | TokensMalformed

  /** `handleRedirect(url)`. The handler does not touch the session status. */
  method HandleRedirect(store: KeyValueStore, url: Option<string>, parse: string -> Option<Query>, fault: SaveFault)
    returns (alert: Alert)
    modifies store
    ensures ReadRedirect(url, parse).NotARedirect? ==> alert == NoAlert && store.items == old(store.items)
    ensures ReadRedirect(url, parse).Malformed? ==> alert == TokensMalformed && store.items == old(store.items)
    ensures ReadRedirect(url, parse).Pair? && fault == NoFault ==>
              && alert == SuccessAlert
              && store.items == TokenService.Saved(old(store.items), ReadRedirect(url, parse).access, ReadRedirect(url, parse).refresh)
    ensures ReadRedirect(url, parse).Pair? && fault == AccessWriteFails ==>
              alert == TokensNotSaved && store.items == old(store.items)
    ensures ReadRedirect(url, parse).Pair? && fault == RefreshWriteFails ==>
              && alert == TokensNotSaved
              && store.items == old(store.items)[AccessTokenKey := ReadRedirect(url, parse).access]
    ensures forall k :: k != AccessTokenKey && k != RefreshTokenKey ==> Lookup(store.items, k) == Lookup(old(store.items), k)
  {
    var tokens := ReadRedirect(url, parse);
    match tokens
    case NotARedirect =>
      alert := NoAlert;
    case Malformed =>
      alert := TokensMalformed;
    case Pair(access, refresh) =>
      match fault
      case NoFault =>
        TokenService.SaveTokens(store, access, refresh);
        alert := SuccessAlert;
      case AccessWriteFails =>
        alert := TokensNotSaved;
      case RefreshWriteFails =>
        store.SetItem(AccessTokenKey, access);
        alert := TokensNotSaved;
  }
}
