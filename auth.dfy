/** The `checkAuth` middleware of the backend: the bearer-header guard and
    the mapping from token-verification failures to 401 messages. The JWT
    library is an oracle `verify` from the token text to its verdict. */
module Auth {
  import opened Js

  const BearerPrefix := "Bearer "

  const MissingTokenMessage := "No token provided. Authorization header must be in format: Bearer <token>"
  const InvalidTokenMessage := "Invalid token"
  const ExpiredTokenMessage := "Token expired"
  const AuthFailedMessage := "Authentication failed"

  /** What `jwt.verify` does with a token: returns the decoded payload, or
      throws an error with the given `name`. */
  datatype Verified = Decoded(userId: nat) | VerifyThrew(name: string)

  /** The middleware either calls the next handler with the user id, or
      answers with an error message; every refusal has status 401. */
  datatype AuthResult = Authenticated(userId: nat) | Unauthorized(message: string)

  /** The message for a verification error, chosen by the error's name. */
  function VerifyErrorMessage(name: string): (m: string)
    ensures m == InvalidTokenMessage <==> name == "JsonWebTokenError"
    ensures m == ExpiredTokenMessage <==> name == "TokenExpiredError"
    ensures m in {InvalidTokenMessage, ExpiredTokenMessage, AuthFailedMessage}
  {
    if name == "JsonWebTokenError" then InvalidTokenMessage
    else if name == "TokenExpiredError" then ExpiredTokenMessage
    else AuthFailedMessage
  }

  /** The token is the header with its first seven characters removed. */
  function TokenOf(header: string): string
    requires StartsWith(header, BearerPrefix)
  {
    header[|BearerPrefix|..]
  }

  /** The guard run before every protected handler. `header` is the
      `Authorization` request header, absent when `None`. */
  function CheckAuth(header: Option<string>, verify: string -> Verified): (r: AuthResult)
    ensures (header.None? || !StartsWith(header.value, BearerPrefix))
              ==> r == Unauthorized(MissingTokenMessage)
    ensures r.Authenticated? ==>
              header.Some? && StartsWith(header.value, BearerPrefix)
              && verify(TokenOf(header.value)) == Decoded(r.userId)
    ensures header.Some? && StartsWith(header.value, BearerPrefix)
              && verify(TokenOf(header.value)).Decoded? ==>
              r == Authenticated(verify(TokenOf(header.value)).userId)
    ensures header.Some? && StartsWith(header.value, BearerPrefix)
              && verify(TokenOf(header.value)).VerifyThrew? ==>
              r == Unauthorized(VerifyErrorMessage(verify(TokenOf(header.value)).name))
    ensures r.Unauthorized? && r.message != MissingTokenMessage ==>
              header.Some? && StartsWith(header.value, BearerPrefix)
              && verify(TokenOf(header.value)).VerifyThrew?
              && r.message == VerifyErrorMessage(verify(TokenOf(header.value)).name)
  {
    if header.None? || header.value == "" || !StartsWith(header.value, BearerPrefix) then
      Unauthorized(MissingTokenMessage)
    else
      match verify(TokenOf(header.value))
      case Decoded(u) => Authenticated(u)
      case VerifyThrew(name) => Unauthorized(VerifyErrorMessage(name))
  }

  /** `"Bearer " + t` hands exactly `t` to the verifier, so a token the
      verifier accepts authenticates its user. */
  lemma BearerRoundTrip(t: string, verify: string -> Verified)
    ensures TokenOf(BearerPrefix + t) == t
    ensures CheckAuth(Some(BearerPrefix + t), verify) ==
              match verify(t)
              case Decoded(u) => Authenticated(u)
              case VerifyThrew(name) => Unauthorized(VerifyErrorMessage(name))
  {
    var h := BearerPrefix + t;
    assert h[..|BearerPrefix|] == BearerPrefix;
    assert h[|BearerPrefix|..] == t;
  }

  /** The prefix test is case-sensitive: a lower-case scheme name is
      refused before the verifier is consulted. */
  lemma LowerCaseSchemeRejected(t: string, verify: string -> Verified)
    ensures CheckAuth(Some("bearer " + t), verify) == Unauthorized(MissingTokenMessage)
  {
    var h := "bearer " + t;
    assert h[..|BearerPrefix|][0] == 'b' != BearerPrefix[0];
  }
}
