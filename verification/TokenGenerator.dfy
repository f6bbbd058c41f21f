/**
 * The end of the submit handler: the payload is signed with the secret under
 * the protected header `{alg: "HS256", typ: "JWT"}` and shown both as the raw
 * token and as an HTTP `Authorization` header value. The signer is a parameter.
 */
module TokenGenerator {
  import opened Wrappers
  import opened Claims
  import opened PayloadBuilder

  datatype ProtectedHeader = ProtectedHeader(alg: string, typ: string)

  /** HMAC with SHA-256 (section 3.2 of RFC 7518), in a JWT. */
  const Hs256Header := ProtectedHeader("HS256", "JWT")

  const BearerPrefix: string := "Bearer "

  /** Why no token was shown: a rejected form, or a signer failure. */
  datatype GenerateError = Rejected(reason: BuildError) | SigningFailed(message: string)

  datatype Generated = Generated(jwt: string, payload: Payload, authHeader: string)

  /** Signs `payload` under `header` with the secret's text; may fail with a message. */
  type Signer = (ProtectedHeader, Payload, string) -> Result<string, string>

  /** The token, or the reason there is none, for a form submitted at `nowMs`. */
  method GenerateToken(f: FormState, nowMs: int, sign: Signer) returns (r: Result<Generated, GenerateError>)
    ensures ExpectedPayload(f, nowMs).Failure? ==> r == Failure(Rejected(ExpectedPayload(f, nowMs).error))
    ensures ExpectedPayload(f, nowMs).Success? ==>
      var p := ExpectedPayload(f, nowMs).value;
      match sign(Hs256Header, p, f.secret)
      case Failure(m) => r == Failure(SigningFailed(m))
      case Success(jwt) => r.Success? && r.value.jwt == jwt && r.value.payload == p
    ensures r.Success? ==>
              && |r.value.authHeader| == |BearerPrefix| + |r.value.jwt|
              && r.value.authHeader[..|BearerPrefix|] == BearerPrefix
              && r.value.authHeader[|BearerPrefix|..] == r.value.jwt
  {
    var built := BuildPayload(f, nowMs);
    if built.Failure? {
      return Failure(Rejected(built.error));
    }
    var payload := built.value;
    var signed := sign(Hs256Header, payload, f.secret);
    if signed.Failure? {
      return Failure(SigningFailed(signed.error));
    }
    var jwt := signed.value;
    r := Success(Generated(jwt, payload, BearerPrefix + jwt));
    assert (BearerPrefix + jwt)[|BearerPrefix|..] == jwt;
  }
}
