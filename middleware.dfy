/** The authentication middleware and the admin guard. Token verification
    (`jwt.verify`) and the user lookup (`User.findById`) are oracles passed in
    as functions; what the middleware decides from their answers is modelled. */
module Middleware {
  import opened Wrappers
  import opened Records
  import opened Js
  import opened Http
  import AuthService

  /** The payload `jwt.verify` decodes; `id` is its `id` claim, if present. */
  datatype Claims = Claims(id: Option<UserId>)

  /** What `User.findById(id).select('-password')` resolves to, or that it threw. */
  datatype Lookup = Found(user: PublicUser) | NotFound | LookupFailed

  /** A header that passes the guard splits into at least two pieces, and its
      second piece is the first piece of what follows `"Bearer "`. */
  lemma SecondPiece(h: string)
    requires StartsWith(h, BearerPrefix)
    ensures |Split(h, ' ')| >= 2
    ensures Split(h, ' ')[1] == Split(h[7..], ' ')[0]
  {
    assert h == "Bearer" + [' '] + h[7..];
    SplitAfter("Bearer", ' ', h[7..]);
  }

  /** The header check and `authHeader.split(' ')[1]`. The token is the text
      after `"Bearer "` up to the next space or the end of the header. */
  function BearerToken(header: Option<string>): (r: Guard<string>)
    ensures r.Proceed? <==> header.Some? && StartsWith(header.value, BearerPrefix)
    ensures r.Reject? ==> r == Reject(401, "Access token required")
    ensures r.Proceed? ==>
      && StartsWith(header.value, BearerPrefix + r.value)
      && ' ' !in r.value
      && (|BearerPrefix + r.value| == |header.value| || header.value[|BearerPrefix + r.value|] == ' ')
  {
    if header.None? || header.value == "" || !StartsWith(header.value, BearerPrefix) then
      Reject(401, "Access token required")
    else
      var h := header.value;
      SecondPiece(h);
      SplitHead(h[7..], ' ');
      var t := Split(h, ' ')[1];
      assert h[..7] == BearerPrefix;
      assert (BearerPrefix + t) == h[..7 + |t|];
      Proceed(t)
  }

  /** `authMiddleware`: 401 without a Bearer header, 403 when the token does not
      verify or the lookup throws, 401 when no user has the token's id, and
      otherwise `next()` with that user as `req.user`. */
  function AuthMiddleware(header: Option<string>, verify: string -> Option<Claims>,
                          findById: Option<UserId> -> Lookup): (r: Guard<PublicUser>)
    ensures BearerToken(header).Reject? ==> r == Reject(401, "Access token required")
    ensures BearerToken(header).Proceed? ==>
      var claims := verify(BearerToken(header).value);
      && (claims.None? ==> r == Reject(403, "Invalid token"))
      && (claims.Some? ==>
            match findById(claims.value.id)
            case Found(user) => r == Proceed(user)
            case NotFound => r == Reject(401, "User not found")
            case LookupFailed => r == Reject(403, "Invalid token"))
  {
    match BearerToken(header)
    case Reject(status, message) => Reject(status, message)
    case Proceed(token) =>
      match verify(token)
      case None => Reject(403, "Invalid token")
      case Some(claims) =>
        match findById(claims.id)
        case Found(user) => Proceed(user)
        case NotFound => Reject(401, "User not found")
        case LookupFailed => Reject(403, "Invalid token")
  }

  /** `next()` is reached only when the header, the token and the lookup all succeed. */
  lemma AuthProceedsOnlyOnSuccess(header: Option<string>, verify: string -> Option<Claims>,
                                  findById: Option<UserId> -> Lookup)
    ensures AuthMiddleware(header, verify, findById).Proceed? <==>
      && header.Some? && StartsWith(header.value, BearerPrefix)
      && verify(BearerToken(header).value).Some?
      && findById(verify(BearerToken(header).value).value.id).Found?
    ensures AuthMiddleware(header, verify, findById).Reject? ==>
      AuthMiddleware(header, verify, findById).status in {401, 403}
  {
  }

  /** A missing or non-Bearer header is refused before any token is verified:
      the answer does not depend on either oracle. */
  lemma RejectedBeforeVerification(header: Option<string>,
                                   verify1: string -> Option<Claims>, findById1: Option<UserId> -> Lookup,
                                   verify2: string -> Option<Claims>, findById2: Option<UserId> -> Lookup)
    requires header.None? || !StartsWith(header.value, BearerPrefix)
    ensures AuthMiddleware(header, verify1, findById1) == AuthMiddleware(header, verify2, findById2)
    ensures AuthMiddleware(header, verify1, findById1) == Reject(401, "Access token required")
  {
  }

  /** The middleware and `extractTokenFromHeader` accept the same headers. */
  lemma SameHeadersAccepted(header: Option<string>)
    ensures BearerToken(header).Proceed? <==> AuthService.ExtractTokenFromHeader(header).Some?
  {
  }

  /** When nothing after `"Bearer "` is a space (the header has exactly one
      space), both parsers yield the same token. */
  lemma ParsersAgreeWithoutSpaces(h: string)
    requires StartsWith(h, BearerPrefix)
    requires ' ' !in h[7..]
    ensures BearerToken(Some(h)) == Proceed(AuthService.ExtractTokenFromHeader(Some(h)).value)
  {
    SecondPiece(h);
    SplitWithout(h[7..], ' ');
  }

  /** When the rest of the header holds a space, the middleware keeps only a
      proper prefix of the token `extractTokenFromHeader` returns. */
  lemma ParsersDisagreeOnSpaces(h: string)
    requires StartsWith(h, BearerPrefix)
    requires ' ' in h[7..]
    ensures var full := AuthService.ExtractTokenFromHeader(Some(h)).value;
      BearerToken(Some(h)).value < full
  {
    var full := AuthService.ExtractTokenFromHeader(Some(h)).value;
    var t := BearerToken(Some(h)).value;
    assert full == h[7..];
    assert t <= full;
  }

  /** `"Bearer a b"`: the middleware passes on `"a"`, the service returns `"a b"`. */
  lemma TokenExampleTwoWords()
    ensures BearerToken(Some("Bearer a b")) == Proceed("a")
    ensures AuthService.ExtractTokenFromHeader(Some("Bearer a b")) == Some("a b")
  {
    var h: string := "Bearer a b";
    assert h == BearerPrefix + "a b";
    assert StartsWith(h, BearerPrefix);
    AuthService.ExtractTokenRoundTrip("a b");
    SecondPiece(h);
    assert h[7..] == "a" + [' '] + "b";
    SplitAfter("a", ' ', "b");
  }

  /** `"Bearer  x"` (two spaces): the middleware passes on the empty token. */
  lemma TokenExampleDoubleSpace()
    ensures BearerToken(Some("Bearer  x")) == Proceed("")
  {
    var h: string := "Bearer  x";
    assert h == BearerPrefix + " x";
    assert StartsWith(h, BearerPrefix);
    SecondPiece(h);
    assert h[7..] == "" + [' '] + "x";
    SplitAfter("", ' ', "x");
  }

  /** `"Bearer "`: both parsers yield the empty token. */
  lemma TokenExampleEmpty()
    ensures BearerToken(Some("Bearer ")) == Proceed("")
    ensures AuthService.ExtractTokenFromHeader(Some("Bearer ")) == Some("")
  {
    var h: string := "Bearer ";
    assert h == BearerPrefix + "";
    assert StartsWith(h, BearerPrefix);
    AuthService.ExtractTokenRoundTrip("");
    SecondPiece(h);
    assert h[7..] == "";
  }

  /** `requireAdmin`: 403 unless a user is attached and is an admin; then `next()`. */
  function RequireAdmin(user: Option<PublicUser>): (r: Guard<PublicUser>)
    ensures r.Proceed? <==> user.Some? && user.value.isAdmin
    ensures r.Proceed? ==> r.value == user.value
    ensures r.Reject? ==> r == Reject(403, "Admin access required")
  {
    if user.None? || !user.value.isAdmin then Reject(403, "Admin access required")
    else Proceed(user.value)
  }
}
