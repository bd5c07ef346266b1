/**
 * The `protect` middleware: take a bearer token from the Authorization
 * header, or else from the `token` cookie, verify it, and either attach the
 * caller's identity to the request and pass it on, or answer 401.
 */
module AuthGuard {
  import opened Wrappers
  import opened Text

  /** What a valid token carries, and what the guard attaches to the request. */
  datatype Identity = Identity(id: nat, email: string)

  /** Whether the guard passed the request on (`next()` called once) or answered it. */
  datatype GuardOutcome = Next | Rejected(status: nat, error: string)

  const BearerPrefix := "Bearer "
  const NoToken := Rejected(401, "Not authorized - no token provided")
  const InvalidToken := Rejected(401, "Not authorized - invalid token")

  /** A header that starts with "Bearer " splits at spaces into at least two segments. */
  lemma BearerHasTwoSegments(header: string)
    requires StartsWith(header, BearerPrefix)
    ensures |Split(header, ' ')| >= 2
  {
    assert header[..7][6] == ' ';
    assert header[6] == ' ';
  }

  /**
   * The header's candidate token: when the header is present and starts with
   * "Bearer ", its second space-separated segment (possibly empty).
   */
  function HeaderToken(authorization: Option<string>): Option<string> {
    if Truthy(authorization) && StartsWith(authorization.value, BearerPrefix) then
      BearerHasTwoSegments(authorization.value);
      Some(Split(authorization.value, ' ')[1])
    else None
  }

  /**
   * The token the guard goes on to verify: the header's, unless that is
   * absent or empty, then the cookie's, unless that is absent or empty.
   */
  function ExtractToken(authorization: Option<string>, cookie: Option<string>): (r: Option<string>)
    ensures r.Some? ==> r.value != []
  {
    var header := HeaderToken(authorization);
    if Truthy(header) then header
    else if Truthy(cookie) then cookie
    else None
  }

  /** The header wins: a non-empty header token is used whatever the cookie holds. */
  lemma HeaderWins(authorization: Option<string>, cookie1: Option<string>, cookie2: Option<string>)
    requires Truthy(HeaderToken(authorization))
    ensures ExtractToken(authorization, cookie1) == ExtractToken(authorization, cookie2) == HeaderToken(authorization)
  {
  }

  /**
   * Only the segment right after "Bearer " counts: for a space-free word `w`
   * followed by a space and anything, the token is `w`; for `w` empty
   * ("Bearer  x", two spaces) it is empty, and the cookie is consulted.
   */
  lemma {:induction false} SecondSegment(w: string, rest: string, cookie: Option<string>)
    requires ' ' !in w
    ensures HeaderToken(Some(BearerPrefix + w + " " + rest)) == Some(w)
    ensures w == [] ==> ExtractToken(Some(BearerPrefix + w + " " + rest), cookie) == (if Truthy(cookie) then cookie else None)
  {
    var h := BearerPrefix + w + " " + rest;
    assert h == "Bearer" + [' '] + (w + [' '] + rest);
    assert ' ' !in "Bearer";
    SplitAfterWord("Bearer", ' ', w + [' '] + rest);
    SplitAfterWord(w, ' ', rest);
    assert h[..7] == BearerPrefix;
  }

  /** "Bearer " with nothing after it yields an empty segment, so the cookie is consulted. */
  lemma EmptyBearer(cookie: Option<string>)
    ensures HeaderToken(Some(BearerPrefix)) == Some([])
    ensures ExtractToken(Some(BearerPrefix), cookie) == (if Truthy(cookie) then cookie else None)
  {
    assert BearerPrefix == "Bearer" + [' '] + [];
    SplitAfterWord("Bearer", ' ', []);
  }

  /**
   * Round trip with the client, which sends "Bearer " + token: a non-empty
   * token without spaces is extracted unchanged, whatever the cookie.
   */
  lemma {:induction false} BearerRoundTrip(t: string, cookie: Option<string>)
    requires t != [] && ' ' !in t
    ensures HeaderToken(Some(BearerPrefix + t)) == Some(t)
    ensures ExtractToken(Some(BearerPrefix + t), cookie) == Some(t)
  {
    var h := BearerPrefix + t;
    assert h == "Bearer" + [' '] + t;
    SplitAfterWord("Bearer", ' ', t);
    SplitWithoutSeparator(t, ' ');
    assert h[..7] == BearerPrefix;
  }

  /** Without a usable header the cookie is the only source. */
  lemma CookieFallback(authorization: Option<string>, cookie: Option<string>)
    requires !Truthy(HeaderToken(authorization))
    ensures ExtractToken(authorization, cookie) == (if Truthy(cookie) then cookie else None)
  {
  }

  /** An incoming request: its headers, its cookie and the identity the guard may attach. */
  class Request {
    const authorization: Option<string>
    const cookieToken: Option<string>
    var user: Option<Identity>

    constructor (authorization: Option<string>, cookieToken: Option<string>)
      ensures this.authorization == authorization && this.cookieToken == cookieToken
      ensures user == None
    {
      this.authorization := authorization;
      this.cookieToken := cookieToken;
      user := None;
    }
  }

  /**
   * `protect`, with token verification passed in (`None` when it throws: a
   * bad signature, an expired token or no signing secret). The token is
   * reassigned step by step as in the source.
   */
  method Protect(req: Request, verify: string -> Option<Identity>) returns (outcome: GuardOutcome)
    modifies req
    ensures var token := ExtractToken(req.authorization, req.cookieToken);
      && (token.None? ==> outcome == NoToken && req.user == old(req.user))
      && (token.Some? && verify(token.value).None? ==> outcome == InvalidToken && req.user == old(req.user))
      && (token.Some? && verify(token.value).Some? ==> outcome == Next && req.user == verify(token.value))
  {
    var token: Option<string> := None;
    if Truthy(req.authorization) && StartsWith(req.authorization.value, BearerPrefix) {
      BearerHasTwoSegments(req.authorization.value);
      token := Some(Split(req.authorization.value, ' ')[1]);
    }
    if !Truthy(token) && Truthy(req.cookieToken) {
      token := req.cookieToken;
    }
    if !Truthy(token) {
      return NoToken;
    }
    var decoded := verify(token.value);
    if decoded.None? {
      return InvalidToken;
    }
    req.user := Some(Identity(decoded.value.id, decoded.value.email));
    return Next;
  }
}
