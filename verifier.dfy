/** `verify_jwt_token`: the permission callback that authenticates a request
    from its `Authorization: Bearer <token>` header. The pipeline runs in a
    fixed order: header present, bearer shape, decode (attaching `user_id` to
    the request), expiry. No revocation list or user lookup is consulted, so a
    token stays valid until it expires whatever happens to its user. */
module Verifier {
  import opened Base
  import opened Jwt
  import opened Bearer
  import opened Http

  /** The three WP_Error kinds the verifier returns, all with status 401.
      `JwtInvalid` records the decoder's failure when there was one. */
  datatype JwtError = JwtMissing | JwtInvalid(cause: Option<DecodeError>) | JwtExpired {
    function Code(): string {
      match this
      case JwtMissing => "jwt_missing"
      case JwtInvalid(_) => "jwt_invalid"
      case JwtExpired => "jwt_expired"
    }

    function Message(): string {
      match this
      case JwtMissing => "JWT token is missing"
      case JwtInvalid(None) => "Invalid JWT token"
      case JwtInvalid(Some(e)) => "Invalid JWT token: " + LibraryMessage(e)
      case JwtExpired => "JWT token has expired"
    }
  }

  /** The exception messages the decoder reports. */
  function LibraryMessage(e: DecodeError): string {
    match e
    case MalformedToken => "Wrong number of segments"
    case InvalidSignature => "Signature verification failed"
    case AlgorithmMismatch => "Incorrect key for this algorithm"
    case EmptyKeyMaterial => "Key material must not be empty"
  }

  const Unauthorized: int := 401

  datatype Verdict = Granted | Denied(error: JwtError)

  /** What the verifier does to the request's `user_id` parameter. */
  datatype Attach = Untouched | SetUserId(value: Option<int>)

  datatype Outcome = Outcome(verdict: Verdict, attach: Attach)

  /** `!$token` on the header: absent, empty or "0". */
  predicate HeaderMissing(header: Option<string>) {
    header.None? || Falsy(header.value)
  }

  /** The token handed to the decoder, if verification gets that far. */
  function PresentedToken(header: Option<string>): Option<string> {
    if HeaderMissing(header) then None
    else match ExtractBearer(header.value)
      case None => None
      case Some(jwt) => if Falsy(jwt) then None else Some(jwt)
  }

  /** The claims the decoder returns for the presented token, if any. */
  function DecodedClaims(header: Option<string>, cfg: Config): Option<Claims> {
    match PresentedToken(header)
    case None => None
    case Some(jwt) =>
      match DecodeWithSecret(cfg, jwt)
      case DecodeFailed(_) => None
      case Decoded(c) => Some(c)
  }

  /** `isset($decoded->exp) && $decoded->exp < time()` */
  predicate Expired(c: Claims, now: int) {
    c.exp.Some? && c.exp.value < now
  }

  /** The decision `verify_jwt_token` reaches and its effect on `user_id`. */
  function VerifyToken(header: Option<string>, cfg: Config, now: int): (o: Outcome)
    // jwt_missing exactly when there is no usable header, and then nothing is attached
    ensures o.verdict == Denied(JwtMissing) <==> HeaderMissing(header)
    ensures HeaderMissing(header) ==> o.attach == Untouched
    // a header that is not `Bearer <tok>` (or whose token is "0") is jwt_invalid, without decoding
    ensures !HeaderMissing(header) && PresentedToken(header).None? ==> o == Outcome(Denied(JwtInvalid(None)), Untouched)
    // a decoder failure is jwt_invalid too, and nothing is attached
    ensures PresentedToken(header).Some? && DecodedClaims(header, cfg).None? ==>
      o.verdict.Denied? && o.verdict.error.JwtInvalid? && o.verdict.error.cause.Some? && o.attach == Untouched
    // user_id is attached exactly when decoding succeeds, whatever the expiry
    ensures o.attach.SetUserId? <==> DecodedClaims(header, cfg).Some?
    ensures o.attach.SetUserId? ==> o.attach.value == DecodedClaims(header, cfg).value.userId
    // the verdict: granted iff decoded and not expired; expired is the only other outcome after decoding
    ensures o.verdict == Granted <==> DecodedClaims(header, cfg).Some? && !Expired(DecodedClaims(header, cfg).value, now)
    ensures o.verdict == Denied(JwtExpired) <==> DecodedClaims(header, cfg).Some? && Expired(DecodedClaims(header, cfg).value, now)
    ensures o.verdict.Denied? ==> o.verdict.error.Code() in {"jwt_missing", "jwt_invalid", "jwt_expired"}
  {
    if HeaderMissing(header) then Outcome(Denied(JwtMissing), Untouched)
    else
      match PresentedToken(header)
      case None => Outcome(Denied(JwtInvalid(None)), Untouched)
      case Some(jwt) =>
        match DecodeWithSecret(cfg, jwt)
        case DecodeFailed(e) => Outcome(Denied(JwtInvalid(Some(e))), Untouched)
        case Decoded(c) =>
          if Expired(c, now) then Outcome(Denied(JwtExpired), SetUserId(c.userId))
          else Outcome(Granted, SetUserId(c.userId))
  }

  /** The WP_Error a failed verification turns into. */
  function DeniedResponse(e: JwtError): (r: Response)
    ensures r.status == Unauthorized && r.body.WpError? && r.body.code == e.Code()
  {
    Response(Unauthorized, WpError(e.Code(), e.Message()))
  }

  /** `verify_jwt_token($request)`: step by step, writing `user_id` into the
      request as soon as the token decodes, before the expiry check. */
  method VerifyJwtToken(req: Request, cfg: Config, now: int) returns (v: Verdict)
    modifies req
    ensures var o := VerifyToken(req.authorization, cfg, now);
      && v == o.verdict
      && req.userId == (if o.attach.SetUserId? then o.attach.value else old(req.userId))
  {
    var token := req.authorization;
    if token.None? || Falsy(token.value) {
      return Denied(JwtMissing);
    }
    var jwt := ExtractBearer(token.value);
    if jwt.None? || Falsy(jwt.value) {
      return Denied(JwtInvalid(None));
    }
    var key := SecretKey(cfg);
    if Falsy(key) {
      assert DecodeWithSecret(cfg, jwt.value) == DecodeFailed(EmptyKeyMaterial);
      return Denied(JwtInvalid(Some(EmptyKeyMaterial)));
    }
    var decoded := cfg.codec.decode(jwt.value, key);
    assert DecodeWithSecret(cfg, jwt.value) == decoded;
    if decoded.DecodeFailed? {
      return Denied(JwtInvalid(Some(decoded.error)));
    }
    req.userId := decoded.claims.userId;
    if decoded.claims.exp.Some? && decoded.claims.exp.value < now {
      return Denied(JwtExpired);
    }
    return Granted;
  }

  /** Rejections before decoding depend on the header alone: neither the
      codec, the secret nor the clock is consulted. */
  lemma RejectedBeforeDecoding(header: Option<string>, cfg: Config, cfg': Config, now: int, now': int)
    requires PresentedToken(header).None?
    ensures VerifyToken(header, cfg, now) == VerifyToken(header, cfg', now')
    ensures VerifyToken(header, cfg, now).verdict.Denied?
  {
  }

  lemma CompactTokenHasNoSpace(t: string)
    requires IsCompactToken(t)
    ensures |t| > 0 && NoSpace(t) && !Falsy(t)
  {
    var i :| 0 <= i < |t| && t[i] == '.';
  }

  /** A compact token that decodes to claims `c` under the configured secret
      is judged on `c` alone: `user_id` attached, granted unless expired. */
  lemma DecodableTokenJudged(cfg: Config, t: string, c: Claims, now: int)
    requires IsCompactToken(t) && DecodeWithSecret(cfg, t) == Decoded(c)
    ensures VerifyToken(Some("Bearer " + t), cfg, now)
      == Outcome(if Expired(c, now) then Denied(JwtExpired) else Granted, SetUserId(c.userId))
  {
    CompactTokenHasNoSpace(t);
    BearerRoundTrip(t);
    assert PresentedToken(Some("Bearer " + t)) == Some(t);
  }

  /** A compact token the decoder refuses under the configured secret is
      jwt_invalid, and nothing is attached. */
  lemma UndecodableTokenRejected(cfg: Config, t: string, now: int)
    requires IsCompactToken(t) && DecodeWithSecret(cfg, t).DecodeFailed?
    ensures VerifyToken(Some("Bearer " + t), cfg, now)
      == Outcome(Denied(JwtInvalid(Some(DecodeWithSecret(cfg, t).error))), Untouched)
  {
    CompactTokenHasNoSpace(t);
    BearerRoundTrip(t);
    assert PresentedToken(Some("Bearer " + t)) == Some(t);
  }

  /** A token minted for a user verifies, sent as `Bearer <token>`, for seven
      days after issue: the request gets that user's id, and from the next
      second on the answer is jwt_expired (with the id still attached). */
  lemma IssuedTokenAccepted(cfg: Config, id: int, email: string, nicename: string, displayName: string,
                            firstName: string, iat: int, now: int)
    requires Sound(cfg.codec) && !Falsy(SecretKey(cfg))
    ensures var m := GenerateJwtToken(cfg, id, email, nicename, displayName, firstName, iat);
      && m.Token?
      && VerifyToken(Some("Bearer " + m.value), cfg, now)
         == Outcome(if now <= iat + TokenLifetime then Granted else Denied(JwtExpired), SetUserId(Some(id)))
  {
    var m := GenerateJwtToken(cfg, id, email, nicename, displayName, firstName, iat);
    MintedTokenDecodes(cfg, id, email, nicename, displayName, firstName, iat);
    DecodableTokenJudged(cfg, m.value, MintClaims(id, email, nicename, displayName, firstName, iat), now);
  }

  /** A token signed under one secret is jwt_invalid under any other, and the
      request is left untouched. */
  lemma ForeignTokenRejected(cfg: Config, signer: Config, id: int, email: string, nicename: string,
                             displayName: string, firstName: string, iat: int, now: int)
    requires Sound(cfg.codec) && KeyBound(cfg.codec) && signer.codec == cfg.codec
    requires !Falsy(SecretKey(signer)) && SecretKey(signer) != SecretKey(cfg)
    ensures var m := GenerateJwtToken(signer, id, email, nicename, displayName, firstName, iat);
      && m.Token?
      && VerifyToken(Some("Bearer " + m.value), cfg, now).verdict.Denied?
      && VerifyToken(Some("Bearer " + m.value), cfg, now).verdict.error.JwtInvalid?
      && VerifyToken(Some("Bearer " + m.value), cfg, now).attach == Untouched
  {
    var m := GenerateJwtToken(signer, id, email, nicename, displayName, firstName, iat);
    MintedTokenDecodes(signer, id, email, nicename, displayName, firstName, iat);
    if !Falsy(SecretKey(cfg)) {
      OtherKeyFails(cfg.codec, MintClaims(id, email, nicename, displayName, firstName, iat), SecretKey(signer), SecretKey(cfg));
    }
    UndecodableTokenRejected(cfg, m.value, now);
  }

  /** With `JWT_AUTH_SECRET_KEY` undefined or `"0"`, the `Key` constructor
      refuses every decode: no header is granted and nothing is attached,
      while minting (which takes the key as a plain string) still succeeds
      for `"0"`. A token sent as `Bearer <token>` is then jwt_invalid. */
  lemma FalsySecretRefusesAll(header: Option<string>, cfg: Config, now: int)
    requires Falsy(SecretKey(cfg))
    ensures VerifyToken(header, cfg, now).verdict != Granted
    ensures VerifyToken(header, cfg, now).attach == Untouched
    ensures PresentedToken(header).Some? ==>
      VerifyToken(header, cfg, now) == Outcome(Denied(JwtInvalid(Some(EmptyKeyMaterial))), Untouched)
  {
  }

  /** A token minted under the secret `"0"` is refused by the same site. */
  lemma ZeroSecretRefusesOwnToken(cfg: Config, id: int, email: string, nicename: string, displayName: string,
                                  firstName: string, iat: int, now: int)
    requires Sound(cfg.codec) && cfg.jwtSecret == Some("0")
    ensures var m := GenerateJwtToken(cfg, id, email, nicename, displayName, firstName, iat);
      && m.Token?
      && VerifyToken(Some("Bearer " + m.value), cfg, now) == Outcome(Denied(JwtInvalid(Some(EmptyKeyMaterial))), Untouched)
  {
    var m := GenerateJwtToken(cfg, id, email, nicename, displayName, firstName, iat);
    assert cfg.codec.encode(MintClaims(id, email, nicename, displayName, firstName, iat), "0").Some?;
    UndecodableTokenRejected(cfg, m.value, now);
  }

  /** The key-binding hypothesis for one claim set and one pair of keys. */
  lemma OtherKeyFails(c: Codec, cl: Claims, k: string, k': string)
    requires KeyBound(c) && k != k' && c.encode(cl, k).Some?
    ensures c.decode(c.encode(cl, k).value, k').DecodeFailed?
  {
  }

  /** The bearer literal needs no white space after it: `Bearerabc`
      presents the token `abc`. */
  lemma BearerWithoutSpace()
    ensures PresentedToken(Some("Bearerabc")) == Some("abc")
  {
    ExtractBearerOf("", "abc", "");
    assert Prefix + "" + "abc" + "" == "Bearerabc";
    assert !Falsy("abc");
  }

  /** The bearer literal is case-sensitive: `bearer abc` presents nothing. */
  lemma LowerCaseBearer()
    ensures PresentedToken(Some("bearer abc")).None?
  {
    assert "bearer abc"[..|Prefix|][0] != Prefix[0];
    NoBearerToken("bearer abc");
  }

  /** The token `0` is falsy in PHP, so `Bearer 0` presents nothing. */
  lemma ZeroToken()
    ensures PresentedToken(Some("Bearer 0")).None?
  {
    ExtractBearerOf(" ", "0", "");
    assert Prefix + " " + "0" + "" == "Bearer 0";
  }
}
