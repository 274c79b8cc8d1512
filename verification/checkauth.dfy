/** The bearer-token middleware in front of every mutating place route. */
module AuthCheck {
  import opened Common
  import opened Strings
  import opened Store
  import opened Users

  /** The parts of a request the middleware reads. */
  datatype GateRequest = GateRequest(verb: string, authorization: Option<string>)

  /** `next()` — with the decoded caller id once a token was checked — or
      `next(error)` with an HttpError. */
  datatype Gate = Continue(userId: Option<UserId>) | Denied(code: int, message: string)

  const AuthFailed := "Authentication failed!"

  /** `authorization.split(' ')[1]`: the second space-separated field, or
      `undefined` when there is none. The first field is not looked at. */
  function BearerToken(header: string): Option<string> {
    var fields := Split(header, ' ');
    if |fields| >= 2 then Some(fields[1]) else None
  }

  /** The middleware. Pre-flight requests pass untouched; otherwise the token
      must be present, non-empty and accepted by `verify` (jwt.verify with the
      server's key: a bad signature, a malformed token or an expired one are
      all `None`). Any failure, a missing header included, is one 403. */
  function CheckAuth(req: GateRequest, verify: string -> Option<Claims>): (g: Gate)
    ensures req.verb == "OPTIONS" ==> g == Continue(None)
    ensures g.Denied? ==> g == Denied(StatusForbidden, AuthFailed)
    ensures req.verb != "OPTIONS" ==>
      (g.Continue? <==>
        && req.authorization.Some?
        && BearerToken(req.authorization.value).Some?
        && BearerToken(req.authorization.value).value != ""
        && verify(BearerToken(req.authorization.value).value).Some?)
    ensures req.verb != "OPTIONS" && g.Continue? ==>
      g.userId == Some(verify(BearerToken(req.authorization.value).value).value.userId)
  {
    if req.verb == "OPTIONS" then Continue(None)
    else match req.authorization
      case None => Denied(StatusForbidden, AuthFailed)  // `undefined.split` throws
      case Some(header) =>
        match BearerToken(header)
        case None => Denied(StatusForbidden, AuthFailed)
        case Some(token) =>
          if token == "" then Denied(StatusForbidden, AuthFailed)
          else match verify(token)
            case None => Denied(StatusForbidden, AuthFailed)
            case Some(claims) => Continue(Some(claims.userId))
  }

  /** The token of `scheme + " " + token` is `token`, for space-free parts. */
  lemma BearerTokenOf(scheme: string, token: string)
    requires ' ' !in scheme && ' ' !in token
    ensures BearerToken(scheme + " " + token) == Some(token)
  {
    SplitJoin([scheme, token], ' ');
    assert Join([scheme, token], ' ') == scheme + " " + token;
  }

  /** Whatever the first word, the same rest yields the same token: the scheme
      is never checked to be "Bearer". */
  lemma SchemeIgnored(a: string, b: string, rest: string)
    requires ' ' !in a && ' ' !in b
    ensures BearerToken(a + " " + rest) == BearerToken(b + " " + rest)
  {
    SplitAfterHead(a, ' ', rest);
    SplitAfterHead(b, ' ', rest);
    assert a + " " + rest == a + [' '] + rest;
    assert b + " " + rest == b + [' '] + rest;
  }

  /** A header that is one word ("Bearer") or ends in its only space
      ("Bearer ") carries no token and is refused. */
  lemma NoSecondFieldRefused(verb: string, scheme: string, verify: string -> Option<Claims>)
    requires verb != "OPTIONS" && ' ' !in scheme
    ensures CheckAuth(GateRequest(verb, Some(scheme)), verify) == Denied(StatusForbidden, AuthFailed)
    ensures CheckAuth(GateRequest(verb, Some(scheme + " ")), verify) == Denied(StatusForbidden, AuthFailed)
  {
    SplitWithoutSeparator(scheme, ' ');
    BearerTokenOf(scheme, "");
    assert scheme + " " + "" == scheme + " ";
  }

  /** jsonwebtoken, as `verify` stands for it at time `now`, accepts every
      token it signed at an issue time `iat` whose hour has not run out. */
  ghost predicate TokensSound(crypto: Crypto, verify: string -> Option<Claims>, now: int) {
    forall c, iat :: iat <= now < iat + TokenLifetimeSeconds && crypto.sign(c, iat, TokenLifetimeSeconds).Some? ==>
      verify(crypto.sign(c, iat, TokenLifetimeSeconds).value) == Some(c)
  }

  /** A token from a login at `issuedAt`, sent back within the hour as
      `Bearer <token>`, passes the middleware as that user — given a sound
      signer and a JWT, which has no spaces and is never empty. */
  lemma LoginTokenPasses(
    s: State, id: UserId, password: string, crypto: Crypto, verify: string -> Option<Claims>, verb: string,
    issuedAt: int, now: int)
    requires id in s.users
    requires TokensSound(crypto, verify, now)
    requires issuedAt <= now < issuedAt + TokenLifetimeSeconds
    requires LoginAs(s, id, password, crypto, issuedAt).Success?
    requires ' ' !in LoginAs(s, id, password, crypto, issuedAt).value.token
    requires LoginAs(s, id, password, crypto, issuedAt).value.token != ""
    ensures
      var header := "Bearer " + LoginAs(s, id, password, crypto, issuedAt).value.token;
      CheckAuth(GateRequest(verb, Some(header)), verify) ==
        if verb == "OPTIONS" then Continue(None) else Continue(Some(id))
  {
    var token := LoginAs(s, id, password, crypto, issuedAt).value.token;
    BearerTokenOf("Bearer", token);
    assert "Bearer " + token == "Bearer" + " " + token;
  }
}
