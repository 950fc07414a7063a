/** Bearer-header parsing and identity-claim extraction (src/lib/auth.ts).
    Signature checking and expiry belong to `jsonwebtoken` and are represented
    by a `Verifier`: `jwt.verify` already applied to the process secret. */
module Auth {
  import opened Wrappers

  const BearerPrefix := "Bearer "

  /** The error classes `jwt.verify` throws. */
  datatype JwtError = TokenExpiredError | JsonWebTokenError(message: string) | NotBeforeError

  /** A decoded token payload: the two identity claims, each possibly absent,
      and every other claim (`iat`, `exp`, ...). */
  datatype Payload = Payload(userId: Option<int>, email: Option<string>, otherClaims: map<string, string>)

  /** The identity claim `{userId, email}` handed to the routes. */
  datatype Identity = Identity(userId: int, email: string)

  /** `jwt.verify(token, JWT_SECRET)`: the payload, or the error it throws. */
  type Verifier = string -> Result<Payload, JwtError>

  /** JavaScript truthiness of a numeric claim (`undefined` and `0` are falsy). */
  predicate TruthyId(v: Option<int>)
  {
    v.Some? && v.value != 0
  }

  /** JavaScript truthiness of a string claim (`undefined` and `""` are falsy). */
  predicate TruthyText(v: Option<string>)
  {
    v.Some? && v.value != ""
  }

  /** `extractTokenFromHeader`: the text after `"Bearer "`, or null. */
  function ExtractTokenFromHeader(authHeader: Option<string>): (token: Option<string>)
    ensures token.Some? <==> authHeader.Some? && BearerPrefix <= authHeader.value
    ensures token.Some? ==> BearerPrefix + token.value == authHeader.value
    ensures token.Some? ==> |token.value| == |authHeader.value| - |BearerPrefix|
  {
    if authHeader.None? || authHeader.value == "" || !(BearerPrefix <= authHeader.value) then None
    else Some(authHeader.value[|BearerPrefix|..])
  }

  /** Prefixing a token with `"Bearer "` and extracting it gives it back. */
  lemma ExtractRoundTrip(token: string)
    ensures ExtractTokenFromHeader(Some(BearerPrefix + token)) == Some(token)
  {
    assert BearerPrefix <= BearerPrefix + token;
  }

  /** Headers without the exact seven-character prefix are rejected; the bare
      prefix yields the empty token, not null. */
  lemma ExtractExamples()
    ensures ExtractTokenFromHeader(None) == None
    ensures ExtractTokenFromHeader(Some("")) == None
    ensures ExtractTokenFromHeader(Some("Bearer")) == None
    ensures ExtractTokenFromHeader(Some("bearer x")) == None
    ensures ExtractTokenFromHeader(Some("abc123")) == None
    ensures ExtractTokenFromHeader(Some("Bearer ")) == Some("")
    ensures ExtractTokenFromHeader(Some("Bearer abc123")) == Some("abc123")
  {
    assert "Bearer abc123" == BearerPrefix + "abc123";
    ExtractRoundTrip("abc123");
    assert "Bearer " == BearerPrefix + "";
    ExtractRoundTrip("");
    assert |"Bearer"| < |BearerPrefix|;
    assert "bearer x"[0] != BearerPrefix[0];
    assert "abc123"[0] != BearerPrefix[0];
  }

  /** `verifyJWT`: every exception of `jwt.verify` becomes null. */
  function VerifyJwt(verify: Verifier, token: string): (decoded: Option<Payload>)
    ensures decoded.None? <==> verify(token).Failure?
    ensures decoded.Some? ==> decoded.value == verify(token).value
  {
    match verify(token)
    case Success(payload) => Some(payload)
    case Failure(_) => None
  }

  /** `verifyUserFromToken`: the identity claim of a valid token whose
      `userId` and `email` are both truthy, or null. */
  function VerifyUserFromToken(verify: Verifier, token: string): (user: Option<Identity>)
    ensures user.Some? <==>
              verify(token).Success? && TruthyId(verify(token).value.userId)
              && TruthyText(verify(token).value.email)
    ensures user.Some? ==>
              Some(user.value.userId) == verify(token).value.userId
              && Some(user.value.email) == verify(token).value.email
    ensures user.Some? ==> user.value.userId != 0 && user.value.email != ""
  {
    var decoded := VerifyJwt(verify, token);
    if decoded.None? || !TruthyId(decoded.value.userId) || !TruthyText(decoded.value.email) then None
    else Some(Identity(decoded.value.userId.value, decoded.value.email.value))
  }

  /** Only the two identity claims matter: tokens whose payloads agree on
      `userId` and `email` yield the same result, whatever their other claims. */
  lemma OtherClaimsDropped(verify1: Verifier, verify2: Verifier, token: string)
    requires verify1(token).Success? <==> verify2(token).Success?
    requires verify1(token).Success? ==>
               verify1(token).value.userId == verify2(token).value.userId
               && verify1(token).value.email == verify2(token).value.email
    ensures VerifyUserFromToken(verify1, token) == VerifyUserFromToken(verify2, token)
  {
  }
}
