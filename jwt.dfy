/**
 * Token helpers: reading a bearer token from an `Authorization` header (a
 * simplified reading of section 2.1 of RFC 6750), the shape of the issued
 * token pair, the expiry test on the `exp` claim (section 4.1.4 of RFC 7519)
 * and the mapping of verification failures to messages. Signing, verifying
 * and decoding belong to the token library and are parameters here.
 */
module Jwt {
  import opened Common

  /** A token payload: `userId` always, `email` and `role` in access tokens, `exp` when set. */
  datatype Claims = Claims(userId: string, email: Option<string>, role: Option<string>, exp: Option<int>)

  /** What the library's `verify` does with a token. */
  datatype VerifyOutcome = Verified(claims: Claims) | ExpiredToken | MalformedToken | OtherFailure

  datatype TokenPair = TokenPair(accessToken: string, refreshToken: string, expiresIn: string)

  /** The claims a user is issued tokens for. */
  datatype Identity = Identity(userId: string, email: string, role: string)

  /**
   * `extractTokenFromHeader`: an absent or empty header gives null; the
   * header must split on single spaces into exactly 'Bearer' and one more
   * part, and that part must not be empty.
   */
  function ExtractTokenFromHeader(header: Option<string>): Option<string> {
    if !Truthy(header) then None
    else
      var parts := Split(header.value, ' ');
      if |parts| != 2 || parts[0] != "Bearer" then None
      else if parts[1] == "" then None
      else Some(parts[1])
  }

  /** A token is extracted exactly from "Bearer " followed by a non-empty token without spaces. */
  lemma ExtractTokenIff(header: Option<string>, token: string)
    ensures ExtractTokenFromHeader(header) == Some(token) <==>
      header == Some("Bearer " + token) && token != "" && ' ' !in token
  {
    if header == Some("Bearer " + token) && token != "" && ' ' !in token {
      assert "Bearer " + token == "Bearer" + [' '] + token;
      SplitAtSeparator("Bearer", ' ', token);
      SplitWithoutSeparator(token, ' ');
    }
    if ExtractTokenFromHeader(header) == Some(token) {
      var parts := Split(header.value, ' ');
      JoinSplit(header.value, ' ');
      assert parts[1..] == [parts[1]];
      assert Join(parts[1..], [' ']) == parts[1];
      assert header.value == parts[0] + [' '] + parts[1];
      assert ' ' !in parts[1];
      assert "Bearer" + [' '] + parts[1] == "Bearer " + token;
    }
  }

  /** "Bearer " with nothing after it yields no token, and so does any other scheme name. */
  lemma ExtractTokenRejects(t: string)
    ensures ExtractTokenFromHeader(Some("Bearer ")) == None
    ensures ExtractTokenFromHeader(Some("bearer " + t)).None?
  {
    var bare := ExtractTokenFromHeader(Some("Bearer "));
    if bare.Some? {
      ExtractTokenIff(Some("Bearer "), bare.value);
    }
    var lower := ExtractTokenFromHeader(Some("bearer " + t));
    if lower.Some? {
      ExtractTokenIff(Some("bearer " + t), lower.value);
    }
  }

  /**
   * `generateTokenPair` as written: both tokens are signed without an
   * expiry, although the pair announces `expiresIn` '7d'.
   */
  function GenerateTokenPairAsWritten(who: Identity, sign: Claims -> string): (r: TokenPair)
    ensures r.accessToken == sign(Claims(who.userId, Some(who.email), Some(who.role), None))
    ensures r.refreshToken == sign(Claims(who.userId, None, None, None))
    ensures r.expiresIn == "7d"
  {
    TokenPair(sign(AccessClaims(who)), sign(RefreshClaims(who)), "7d")
  }

  /** Seven days in seconds, the lifetime the label '7d' announces. */
  const SevenDays := 7 * 24 * 60 * 60

  /**
   * `generateTokenPair` with the lifetime it announces: the access token
   * expires seven days after the second it is issued in (what signing with
   * `expiresIn: '7d'` stamps); the refresh token is unchanged.
   */
  function GenerateTokenPair(who: Identity, sign: Claims -> string, nowMillis: int): (r: TokenPair)
    ensures r.accessToken == sign(Claims(who.userId, Some(who.email), Some(who.role), Some(Seconds(nowMillis) + SevenDays)))
    ensures r.refreshToken == GenerateTokenPairAsWritten(who, sign).refreshToken
    ensures r.expiresIn == "7d"
  {
    TokenPair(sign(AccessClaims(who).(exp := Some(Seconds(nowMillis) + SevenDays))), sign(RefreshClaims(who)), "7d")
  }

  /** The access payload `{ userId, email, role }`. */
  function AccessClaims(who: Identity): Claims {
    Claims(who.userId, Some(who.email), Some(who.role), None)
  }

  /** The refresh payload `{ userId }`. */
  function RefreshClaims(who: Identity): Claims {
    Claims(who.userId, None, None, None)
  }

  /**
   * `isTokenExpired`: an undecodable token, or one without a (non-zero)
   * `exp`, counts as expired; otherwise it is expired when `exp` is before
   * the current second.
   */
  function IsTokenExpired(token: string, decode: string -> Option<Claims>, nowMillis: int): bool {
    var decoded := decode(token);
    if decoded.None? || decoded.value.exp.None? || decoded.value.exp.value == 0 then true
    else decoded.value.exp.value < Seconds(nowMillis)
  }

  /** `Math.floor(ms / 1000)`. */
  function Seconds(millis: int): (s: int)
    ensures s * 1000 <= millis < s * 1000 + 1000
  {
    millis / 1000
  }

  /** Tokens issued as written carry no `exp`, so this test calls them expired from the start. */
  lemma IssuedTokensCountAsExpired(who: Identity, sign: Claims -> string, decode: string -> Option<Claims>, nowMillis: int)
    requires forall c :: decode(sign(c)) == Some(c)
    ensures IsTokenExpired(GenerateTokenPairAsWritten(who, sign).accessToken, decode, nowMillis)
    ensures IsTokenExpired(GenerateTokenPairAsWritten(who, sign).refreshToken, decode, nowMillis)
  {
    assert decode(sign(AccessClaims(who))) == Some(AccessClaims(who));
    assert decode(sign(RefreshClaims(who))) == Some(RefreshClaims(who));
  }

  /** With an `exp` set, the token is live in exactly the seconds up to and including `exp`. */
  lemma ExpiryBoundary(token: string, decode: string -> Option<Claims>, nowMillis: int, exp: int)
    requires decode(token).Some? && decode(token).value.exp == Some(exp) && exp != 0
    ensures !IsTokenExpired(token, decode, nowMillis) <==> nowMillis < exp * 1000 + 1000
  {
    var s := Seconds(nowMillis);
    if nowMillis < exp * 1000 + 1000 {
      assert s * 1000 < exp * 1000 + 1000;
    } else {
      assert s * 1000 + 1000 > exp * 1000 + 1000;
    }
  }

  /**
   * An access token issued at `issuedMillis` (not before the epoch) with the
   * announced lifetime is live until the end of the second seven days after
   * the second of issue, and expired from then on.
   */
  lemma IssuedAccessTokenLivesSevenDays(who: Identity, sign: Claims -> string, decode: string -> Option<Claims>, issuedMillis: int, nowMillis: int)
    requires forall c :: decode(sign(c)) == Some(c)
    requires issuedMillis >= 0
    ensures !IsTokenExpired(GenerateTokenPair(who, sign, issuedMillis).accessToken, decode, nowMillis) <==>
      nowMillis < (Seconds(issuedMillis) + SevenDays) * 1000 + 1000
    ensures issuedMillis <= nowMillis < issuedMillis + SevenDays * 1000 ==>
      !IsTokenExpired(GenerateTokenPair(who, sign, issuedMillis).accessToken, decode, nowMillis)
  {
    var c := AccessClaims(who).(exp := Some(Seconds(issuedMillis) + SevenDays));
    assert decode(sign(c)) == Some(c);
    ExpiryBoundary(sign(c), decode, nowMillis, Seconds(issuedMillis) + SevenDays);
  }

  /**
   * `verifyToken`: the payload on success; otherwise 'Token expired',
   * 'Invalid token' or 'Token verification failed'.
   */
  function VerifyToken(token: string, verify: string -> VerifyOutcome): (r: Result<Claims, string>)
    ensures r.Ok? <==> verify(token).Verified?
    ensures r.Ok? ==> r.value == verify(token).claims
    ensures verify(token) == ExpiredToken ==> r == Err("Token expired")
    ensures verify(token) == MalformedToken ==> r == Err("Invalid token")
    ensures verify(token) == OtherFailure ==> r == Err("Token verification failed")
  {
    match verify(token)
    case Verified(c) => Ok(c)
    case ExpiredToken => Err("Token expired")
    case MalformedToken => Err("Invalid token")
    case OtherFailure => Err("Token verification failed")
  }

  /** The three failure messages are distinct, so a caller can tell the failures apart. */
  lemma VerifyMessagesDistinct(t1: string, t2: string, verify: string -> VerifyOutcome)
    requires !verify(t1).Verified? && !verify(t2).Verified?
    ensures VerifyToken(t1, verify) == VerifyToken(t2, verify) <==> verify(t1) == verify(t2)
  {
  }
}
