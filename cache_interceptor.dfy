/** `UserAwareCacheInterceptor.trackBy`: the per-user cache key for GET responses. */
module CacheInterceptor {
  import opened Base
  import opened Js
  import opened Http
  import opened Jwt

  /** What `trackBy` does: no key (`undefined`: the response is not cached), a key, or a throw that
      reaches the caller (the verification is not wrapped in a try). */
  datatype CacheKey = NoKey | Key(key: string) | Raises

  /** The key is `userId:url` for a GET request whose access token verifies and carries a truthy
      `sub`. Non-GET requests, a missing token, a missing secret and a payload without `sub` give no
      key; a request without a cookie jar, and a token that fails verification, throw. */
  function TrackBy(req: Request, env: Env): (r: CacheKey)
    ensures req.verb != "GET" ==> r == NoKey
    ensures r.Key? <==> req.verb == "GET" && CallerFromCookie(req, env).Some? && TruthyStr(CallerFromCookie(req, env).value.sub)
    ensures r.Key? ==> r.key == CallerFromCookie(req, env).value.sub.value + ":" + req.url
    ensures r == Raises <==>
              && req.verb == "GET"
              && (|| req.cookies.None?
                  || (Truthy(CookieProperty(req, "access_token").value) && env.jwtSecret != "" && CallerFromCookie(req, env).None?))
  {
    if req.verb != "GET" then NoKey
    else
      match CookieProperty(req, "access_token")
      case None => Raises
      case Some(token) =>
        if !Truthy(token) then NoKey
        else if env.jwtSecret == "" then NoKey
        else
          match VerifyValue(token, env)
          case None => Raises
          case Some(claims) =>
            if !TruthyStr(claims.sub) then NoKey else Key(claims.sub.value + ":" + req.url)
  }

  lemma SuffixCancels(a: string, b: string, s: string)
    requires a + s == b + s
    ensures a == b
  {
    assert |a| == |b|;
    assert a == (a + s)[..|a|];
    assert b == (b + s)[..|b|];
  }

  /** For one url, different users get different keys, so one user's cached GET response is never
      served to another. */
  lemma KeysSeparateUsers(r1: Request, env1: Env, r2: Request, env2: Env)
    requires TrackBy(r1, env1).Key? && TrackBy(r2, env2).Key?
    requires r1.url == r2.url
    requires TrackBy(r1, env1) == TrackBy(r2, env2)
    ensures CallerFromCookie(r1, env1).value.sub == CallerFromCookie(r2, env2).value.sub
  {
    var u1 := CallerFromCookie(r1, env1).value.sub.value;
    var u2 := CallerFromCookie(r2, env2).value.sub.value;
    assert (u1 + ":") + r1.url == (u2 + ":") + r2.url;
    SuffixCancels(u1 + ":", u2 + ":", r1.url);
    assert u1 == (u1 + ":")[..|u1|];
  }

  /** When user ids contain no colon, the key determines both the user and the url. */
  lemma KeyDeterminesUserAndUrl(u1: string, url1: string, u2: string, url2: string)
    requires forall i :: 0 <= i < |u1| ==> u1[i] != ':'
    requires forall i :: 0 <= i < |u2| ==> u2[i] != ':'
    requires u1 + ":" + url1 == u2 + ":" + url2
    ensures u1 == u2 && url1 == url2
  {
    var k := u1 + ":" + url1;
    // the first colon of the key sits at |u1| and at |u2|
    assert k[|u1|] == ':' && k[|u2|] == ':';
    assert |u1| == |u2|;
    assert u1 == k[..|u1|] == u2;
    assert url1 == k[|u1| + 1..] == url2;
  }

  /** Across urls the key is ambiguous once a user id contains a colon. */
  lemma ColonInUserIdCollides()
    ensures "a:b" + ":" + "/c" == "a" + ":" + "b:/c"
  {
  }
}
