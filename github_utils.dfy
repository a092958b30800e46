/**
 * Webhook signature validation, the app's JWT claim set, and the exchange
 * of that JWT for an installation token. The cryptography (HMAC-SHA256 of
 * RFC 2104 over SHA-256 of FIPS 180-4, and RS256 signing of section 3.3 of
 * RFC 7518) is not modelled: it is passed in as a pair of functions.
 */
module GithubUtils {
  import opened Base
  import opened Strings
  import opened Steps

  predicate IsLowerHex(s: string)
  {
    forall k :: 0 <= k < |s| ==> s[k] in "0123456789abcdef"
  }

  predicate IsAscii(s: string)
  {
    forall k :: 0 <= k < |s| ==> s[k] as int < 128
  }

  /** What `hexdigest()` of SHA-256 returns: 64 lower-case hexadecimal digits. */
  type HexDigest = s: string | |s| == 64 && IsLowerHex(s)
    witness seq(64, _ => '0')

  /** The registered claims of section 4.1 of RFC 7519 that the app sets. */
  datatype Claims = Claims(iat: int, exp: int, iss: string)

  /**
   * `hmacSha256Hex(secret, payload)` is the hex HMAC-SHA256 of `payload`
   * keyed by the encoded secret; `signRs256(claims, key)` is the JWT.
   */
  datatype Crypto = Crypto(hmacSha256Hex: (string, seq<bv8>) -> HexDigest, signRs256: (Claims, string) -> string)

  /** Outcome of `validate_signature`: it returns, raises an HTTP error, or crashes. */
  datatype Verdict = Accepted | Refused(status: int, detail: string) | Crashed(error: Error)

  predicate HasHeader(header: Option<string>)
  {
    header.Some? && header.value != ""
  }

  /**
   * `validate_signature`: the header must be present, then the secret
   * set, then the header must split on '=' into exactly two pieces, and
   * the second piece must equal the hex HMAC of the raw payload. The
   * piece before '=' is never looked at.
   */
  function ValidateSignature(payload: seq<bv8>, header: Option<string>, secret: string,
                             hmacSha256Hex: (string, seq<bv8>) -> HexDigest): (v: Verdict)
    ensures v == Refused(403, "Missing signature") <==> !HasHeader(header)
    ensures v == Refused(500, "Webhook secret not configured") <==> HasHeader(header) && secret == ""
    ensures v.Crashed? && v.error.SignatureUnpack? <==>
      HasHeader(header) && secret != "" && Count(header.value, '=') != 1
    ensures v.Crashed? && v.error.SignatureUnpack? ==> v.error.got == Count(header.value, '=') + 1
    ensures v == Crashed(NonAsciiDigest) <==>
      HasHeader(header) && secret != "" && Count(header.value, '=') == 1 && !IsAscii(Split(header.value, '=')[1])
    ensures v == Refused(403, "Invalid signature") <==>
      HasHeader(header) && secret != "" && Count(header.value, '=') == 1 && IsAscii(Split(header.value, '=')[1]) &&
      Split(header.value, '=')[1] != hmacSha256Hex(secret, payload)
  {
    if !HasHeader(header) then Refused(403, "Missing signature")
    else if secret == "" then Refused(500, "Webhook secret not configured")
    else
      var parts := Split(header.value, '=');
      if |parts| != 2 then Crashed(SignatureUnpack(|parts|))
      else if !IsAscii(parts[1]) then Crashed(NonAsciiDigest)
      else if hmacSha256Hex(secret, payload) != parts[1] then Refused(403, "Invalid signature")
      else Accepted
  }

  lemma HexHasNoEquals(d: HexDigest)
    ensures '=' !in d && IsAscii(d)
  {
    forall k | 0 <= k < |d| ensures d[k] as int < 128 {
      assert d[k] in "0123456789abcdef";
    }
  }

  /**
   * A header carrying the payload's digest is accepted whatever scheme
   * name stands before the '='.
   */
  lemma AcceptsMatchingDigest(payload: seq<bv8>, secret: string, scheme: string,
                              hmacSha256Hex: (string, seq<bv8>) -> HexDigest)
    requires secret != "" && '=' !in scheme
    ensures ValidateSignature(payload, Some(scheme + "=" + hmacSha256Hex(secret, payload)), secret, hmacSha256Hex) == Accepted
  {
    var digest := hmacSha256Hex(secret, payload);
    HexHasNoEquals(digest);
    SplitAtFirst(scheme, digest, '=');
    SplitWithoutSeparator(digest, '=');
    assert scheme + "=" + digest == scheme + ['='] + digest;
  }

  /**
   * Acceptance implies the header is exactly one scheme name, one '=' and
   * the payload's digest under the configured secret.
   */
  lemma AcceptedOnlyWithMatchingDigest(payload: seq<bv8>, header: Option<string>, secret: string,
                                       hmacSha256Hex: (string, seq<bv8>) -> HexDigest)
    requires ValidateSignature(payload, header, secret, hmacSha256Hex) == Accepted
    ensures HasHeader(header) && secret != "" && Count(header.value, '=') == 1
    ensures header.value == Split(header.value, '=')[0] + "=" + hmacSha256Hex(secret, payload)
  {
    JoinSplit(header.value, '=');
  }

  /**
   * A header signed for another payload or with another secret is
   * refused with 403 as soon as the two digests differ.
   */
  lemma RefusesForgedSignature(payload: seq<bv8>, secret: string, signedPayload: seq<bv8>, signingSecret: string,
                               scheme: string, hmacSha256Hex: (string, seq<bv8>) -> HexDigest)
    requires secret != "" && '=' !in scheme
    requires hmacSha256Hex(signingSecret, signedPayload) != hmacSha256Hex(secret, payload)
    ensures ValidateSignature(payload, Some(scheme + "=" + hmacSha256Hex(signingSecret, signedPayload)), secret, hmacSha256Hex)
            == Refused(403, "Invalid signature")
  {
    var digest := hmacSha256Hex(signingSecret, signedPayload);
    HexHasNoEquals(digest);
    SplitAtFirst(scheme, digest, '=');
    SplitWithoutSeparator(digest, '=');
    assert scheme + "=" + digest == scheme + ['='] + digest;
  }

  /** The app's identity: its id and the PEM private key read at start-up. */
  datatype AuthHelper = AuthHelper(appId: string, privateKey: string)

  /** Seconds between issue and expiry: 10 minutes. */
  const JwtLifetime := 10 * 60

  /** Python's `int()` on a float: truncation toward zero. */
  function TruncateToInt(x: real): (n: int)
    ensures 0.0 <= x ==> n as real <= x < n as real + 1.0
    ensures x < 0.0 ==> n as real - 1.0 < x <= n as real
  {
    if x >= 0.0 then x.Floor else -((-x).Floor)
  }

  lemma TruncateMonotone(x: real, y: real)
    ensures x <= y ==> TruncateToInt(x) <= TruncateToInt(y)
  {
  }

  /**
   * The claim set of `generate_jwt`: `iat` from the first clock reading,
   * `exp` from the second plus ten minutes, `iss` the app id.
   */
  function JwtClaims(appId: string, clock: Clock): (c: Claims)
    ensures c.iss == appId
    ensures 0.0 <= clock.first ==> c.iat as real <= clock.first < c.iat as real + 1.0
    ensures 0.0 <= clock.second ==> (c.exp - JwtLifetime) as real <= clock.second < (c.exp - JwtLifetime) as real + 1.0
    ensures clock.first == clock.second ==> c.exp - c.iat == JwtLifetime
    ensures clock.first <= clock.second ==> c.exp - c.iat >= JwtLifetime
    ensures 0.0 <= clock.first <= clock.second ==> (c.exp - c.iat) as real < (JwtLifetime + 1) as real + (clock.second - clock.first)
  {
    TruncateMonotone(clock.first, clock.second);
    Claims(TruncateToInt(clock.first), TruncateToInt(clock.second) + JwtLifetime, appId)
  }

  /** `generate_jwt`: the claim set signed with the app's private key. */
  function GenerateJwt(helper: AuthHelper, clock: Clock, signRs256: (Claims, string) -> string): string
  {
    signRs256(JwtClaims(helper.appId, clock), helper.privateKey)
  }

  const TokenUrlPrefix := "https://api.github.com/app/installations/"
  const TokenUrlSuffix := "/access_tokens"

  /** The installation-token endpoint for one installation. */
  function TokenUrl(installationId: int): string
  {
    TokenUrlPrefix + IntToString(installationId) + TokenUrlSuffix
  }

  /** Reads the installation id back out of a token endpoint URL. */
  function InstallationOfTokenUrl(url: string): Option<int>
  {
    if |url| >= |TokenUrlPrefix| + |TokenUrlSuffix|
       && url[..|TokenUrlPrefix|] == TokenUrlPrefix
       && url[|url| - |TokenUrlSuffix|..] == TokenUrlSuffix
    then ParseInt(url[|TokenUrlPrefix|..|url| - |TokenUrlSuffix|])
    else None
  }

  /** Every token URL names its installation, so no two installations share one. */
  lemma TokenUrlRoundTrip(installationId: int)
    ensures InstallationOfTokenUrl(TokenUrl(installationId)) == Some(installationId)
  {
    var digits := IntToString(installationId);
    var url := TokenUrl(installationId);
    assert url[..|TokenUrlPrefix|] == TokenUrlPrefix;
    assert url[|url| - |TokenUrlSuffix|..] == TokenUrlSuffix;
    assert url[|TokenUrlPrefix|..|url| - |TokenUrlSuffix|] == digits;
    IntToStringRoundTrip(installationId);
  }

  /** One call of `get_installation_token`: the request it sent and what it returned. */
  datatype TokenRun = TokenRun(request: Step, token: Try<string>)

  /**
   * `get_installation_token`: mint a fresh JWT, POST it to the token
   * endpoint, fail on a non-2xx status, and return the `token` field.
   */
  function GetInstallationToken(helper: AuthHelper, signRs256: (Claims, string) -> string, clock: Clock,
                                installationId: int, reply: ExchangeReply): (run: TokenRun)
    ensures run.request.ExchangeToken? && run.request.url == TokenUrl(installationId)
    ensures run.request.authorization == "Bearer " + signRs256(JwtClaims(helper.appId, clock), helper.privateKey)
    ensures run.request.accept == "application/vnd.github.v3+json"
    ensures run.token.Ok? <==> reply.ExchangeResponse? && IsSuccess(reply.status) && reply.body.TokenField?
    ensures run.token.Ok? ==> run.token.value == reply.body.token
    ensures reply.ExchangeUnreachable? ==> run.token == Raised(Unreachable)
    ensures reply.ExchangeResponse? && !IsSuccess(reply.status) ==> run.token == Raised(StatusError(reply.status))
    ensures reply.ExchangeResponse? && IsSuccess(reply.status) && reply.body.NotJson? ==> run.token == Raised(InvalidJson)
    ensures reply.ExchangeResponse? && IsSuccess(reply.status) && reply.body.NoToken? ==> run.token == Raised(MissingKey("token"))
  {
    var request := ExchangeToken(TokenUrl(installationId), "Bearer " + GenerateJwt(helper, clock, signRs256),
                                 "application/vnd.github.v3+json");
    match reply
    case ExchangeUnreachable => TokenRun(request, Raised(Unreachable))
    case ExchangeResponse(status, body) =>
      if !IsSuccess(status) then TokenRun(request, Raised(StatusError(status)))
      else match body
        case NotJson => TokenRun(request, Raised(InvalidJson))
        case NoToken => TokenRun(request, Raised(MissingKey("token")))
        case TokenField(token) => TokenRun(request, Ok(token))
  }
}
