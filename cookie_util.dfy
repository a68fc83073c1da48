/** `getAccessTokenFromReq` and `getRefreshTokenFromReq`: defensive cookie reads. */
module CookieUtil {
  import opened Base
  import opened Js
  import opened Http

  /** `req?.cookies && typeof req.cookies[name] === 'string' ? req.cookies[name] : undefined`. */
  function StringCookie(req: Option<Request>, name: string): Option<string> {
    if req.Some? && req.value.cookies.Some? && name in req.value.cookies.value
       && req.value.cookies.value[name].Str?
    then Some(req.value.cookies.value[name].s)
    else None
  }

  /** The access token exactly when a request with a cookie jar is given and the plain property read
      of `access_token` yields a string (the empty string included); `undefined` otherwise, and
      never a throw. */
  function GetAccessTokenFromReq(req: Option<Request>): (r: Option<string>)
    ensures r.Some? <==> req.Some? && CookieProperty(req.value, "access_token").Some?
                         && CookieProperty(req.value, "access_token").value.Str?
    ensures r.Some? ==> CookieProperty(req.value, "access_token") == Some(Str(r.value))
  {
    StringCookie(req, "access_token")
  }

  /** The same read for `refresh_token`. */
  function GetRefreshTokenFromReq(req: Option<Request>): (r: Option<string>)
    ensures r.Some? <==> req.Some? && CookieProperty(req.value, "refresh_token").Some?
                         && CookieProperty(req.value, "refresh_token").value.Str?
    ensures r.Some? ==> CookieProperty(req.value, "refresh_token") == Some(Str(r.value))
  {
    StringCookie(req, "refresh_token")
  }

  /** Each reader looks at its own cookie only: two requests whose jars agree on `access_token`
      (respectively `refresh_token`) give the same result, whatever else the jars hold. */
  lemma ReadersLookOnlyAtTheirKey(a: Request, b: Request)
    ensures CookieProperty(a, "access_token") == CookieProperty(b, "access_token")
            ==> GetAccessTokenFromReq(Some(a)) == GetAccessTokenFromReq(Some(b))
    ensures CookieProperty(a, "refresh_token") == CookieProperty(b, "refresh_token")
            ==> GetRefreshTokenFromReq(Some(a)) == GetRefreshTokenFromReq(Some(b))
  {
  }

  /** The refresh reader behaves on `refresh_token` exactly as the access reader does on
      `access_token`: moving a jar's refresh cookie under the access name moves the result with it. */
  lemma RefreshReaderMirrorsAccessReader(req: Request, jar: map<string, JsValue>)
    requires req.cookies == Some(jar)
    ensures var moved := req.(cookies := Some(if "refresh_token" in jar then jar["access_token" := jar["refresh_token"]] else jar - {"access_token"}));
            GetRefreshTokenFromReq(Some(req)) == GetAccessTokenFromReq(Some(moved))
  {
  }
}
