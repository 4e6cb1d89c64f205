/** Signed claim tokens: the claim set `generate_jwt_token` builds, and the
    HS256 codec (RFC 7519 tokens signed as in section 3.2 of RFC 7518) taken
    as a pair of functions whose behaviour is stated as a hypothesis, since the
    library that implements them is not part of this model. */
module Jwt {
  import opened Base

  /** Lifetime of a minted token: seven days, in seconds. */
  const TokenLifetime: int := 7 * 24 * 60 * 60

  /** A decoded payload. A token minted here carries every claim; a token
      from elsewhere may lack `user_id`, `iat` or `exp`, hence the options. */
  datatype Claims = Claims(
    userId: Option<int>,
    userEmail: string,
    userNicename: string,
    userDisplayName: string,
    firstName: string,
    iat: Option<int>,
    exp: Option<int>)

  /** Why decoding fails: the library's own checks, or `EmptyKeyMaterial`,
      which the `Key` constructor throws for an empty or `"0"` key before
      anything is decoded. */
  datatype DecodeError = MalformedToken | InvalidSignature | AlgorithmMismatch | EmptyKeyMaterial

  datatype Decoded = Decoded(claims: Claims) | DecodeFailed(error: DecodeError)

  /** The JWT library: `encode(claims, key)` is `None` when it throws;
      `decode(token, key)` checks structure, algorithm and signature only. */
  datatype Codec = Codec(
    encode: (Claims, string) -> Option<string>,
    decode: (string, string) -> Decoded)

  /** Server configuration: the codec and the `JWT_AUTH_SECRET_KEY` constant,
      `None` when the constant is not defined. */
  datatype Config = Config(codec: Codec, jwtSecret: Option<string>)

  /** `defined('JWT_AUTH_SECRET_KEY') ? JWT_AUTH_SECRET_KEY : ''` */
  function SecretKey(cfg: Config): (k: string)
    ensures cfg.jwtSecret.None? ==> k == ""
    ensures cfg.jwtSecret.Some? ==> k == cfg.jwtSecret.value
  {
    match cfg.jwtSecret
    case None => ""
    case Some(key) => key
  }

  /** Characters of the JWS compact serialisation: base64url digits and the
      two '.' separators. */
  predicate IsCompactChar(c: char) {
    IsAlnum(c) || c == '-' || c == '_' || c == '.'
  }

  predicate IsCompactToken(t: string) {
    (exists i :: 0 <= i < |t| && t[i] == '.') && forall i :: 0 <= i < |t| ==> IsCompactChar(t[i])
  }

  /** Hypothesis about the library: signing with a non-empty key succeeds
      and yields a compact token, and verifying it with the same key, when
      that key is one the `Key` constructor accepts (not `""` or `"0"`),
      gives the claims back. It is assumed of the library, not proved. */
  ghost predicate Sound(c: Codec) {
    && (forall cl: Claims, k: string :: k != "" ==> c.encode(cl, k).Some?)
    && (forall cl: Claims, k: string :: c.encode(cl, k).Some? ==> IsCompactToken(c.encode(cl, k).value))
    && (forall cl: Claims, k: string :: !Falsy(k) && c.encode(cl, k).Some? ==>
          c.decode(c.encode(cl, k).value, k) == Decoded(cl))
  }

  /** Hypothesis about the library: a token signed with one key does not
      verify under another (the idealised unforgeability of HMAC-SHA256). */
  ghost predicate KeyBound(c: Codec) {
    forall cl: Claims, k: string, k': string :: k != k' && c.encode(cl, k).Some? ==>
      c.decode(c.encode(cl, k).value, k').DecodeFailed?
  }

  /** `JWT::decode($jwt, new Key($secret_key, 'HS256'))`: the `Key`
      constructor refuses empty key material (PHP's `empty`, so `""` and
      `"0"`) before the library decodes anything. */
  function DecodeWithSecret(cfg: Config, token: string): (d: Decoded)
    ensures Falsy(SecretKey(cfg)) ==> d == DecodeFailed(EmptyKeyMaterial)
  {
    var key := SecretKey(cfg);
    if Falsy(key) then DecodeFailed(EmptyKeyMaterial) else cfg.codec.decode(token, key)
  }

  /** The payload `generate_jwt_token` builds for a user at time `now`. */
  function MintClaims(id: int, email: string, nicename: string, displayName: string, firstName: string, now: int): (c: Claims)
    ensures c.userId == Some(id) && c.iat == Some(now)
    ensures c.exp.Some? && c.exp.value - c.iat.value == TokenLifetime
  {
    Claims(Some(id), email, nicename, displayName, firstName, Some(now), Some(now + TokenLifetime))
  }

  /** What `generate_jwt_token` returns: the token, or the `jwt_encode_error`
      WP_Error (status 500) when the library throws. */
  datatype Minted = Token(value: string) | EncodeError

  function GenerateJwtToken(cfg: Config, id: int, email: string, nicename: string, displayName: string,
                            firstName: string, now: int): (m: Minted)
    ensures m.Token? <==> cfg.codec.encode(MintClaims(id, email, nicename, displayName, firstName, now), SecretKey(cfg)).Some?
  {
    match cfg.codec.encode(MintClaims(id, email, nicename, displayName, firstName, now), SecretKey(cfg))
    case None => EncodeError
    case Some(t) => Token(t)
  }

  /** Under the codec hypothesis, a token minted with a configured secret
      other than `"0"` is compact and decodes under that secret to exactly the claims it was
      minted from (naming the user, expiring seven days after issue). */
  lemma MintedTokenDecodes(cfg: Config, id: int, email: string, nicename: string, displayName: string,
                           firstName: string, now: int)
    requires Sound(cfg.codec) && !Falsy(SecretKey(cfg))
    ensures var m := GenerateJwtToken(cfg, id, email, nicename, displayName, firstName, now);
      && m.Token?
      && IsCompactToken(m.value)
      && DecodeWithSecret(cfg, m.value) == Decoded(MintClaims(id, email, nicename, displayName, firstName, now))
  {
    var claims := MintClaims(id, email, nicename, displayName, firstName, now);
    assert cfg.codec.encode(claims, SecretKey(cfg)).Some?;
  }
}
