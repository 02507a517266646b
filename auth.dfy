/**
 * The session helpers: password hashing and checking (bcrypt), token issue
 * and verification (JSON Web Tokens), and reading, writing and deleting the
 * `auth-token` cookie.
 *
 * The two libraries are not interpreted: their functions are fields of a
 * `Crypto` value that callers pass in. `JwtRoundTrips` and `BcryptSound` name
 * what the model assumes of them where a lemma needs it.
 */
module Auth {
  import opened Wrappers
  import opened Http

  /** The payload a token carries. */
  datatype Claims = Claims(userId: string)

  datatype Crypto = Crypto(
    /** `jsonwebtoken.sign(payload, secret, { expiresIn })` */
    sign: (Claims, string, string) -> string,
    /** `jsonwebtoken.verify(token, secret)`, which throws on a bad, forged or expired token */
    verify: (string, string) -> Result<Claims, Exception>,
    /** `bcryptjs.hash(password, rounds)` */
    hash: (string, nat) -> string,
    /** `bcryptjs.compare(password, hashed)` */
    compare: (string, string) -> bool,
    /** the `JWT_SECRET` environment variable */
    jwtSecretEnv: Option<string>)

  const DefaultJwtSecret: string := "your-secret-key"
  const BcryptRounds: nat := 12
  const TokenExpiresIn: string := "7d"
  const AuthCookieName: string := "auth-token"
  const SecondsPerDay: nat := 24 * 60 * 60

  /** The cookie's lifetime in seconds: the same seven days as the token's `expiresIn`. */
  const AuthCookieMaxAge: nat := 7 * SecondsPerDay

  /** `process.env.JWT_SECRET || 'your-secret-key'`: an unset or empty variable falls back. */
  function JwtSecret(env: Option<string>): (secret: string)
    ensures env.Some? && env.value != "" ==> secret == env.value
    ensures env.None? || env.value == "" ==> secret == DefaultJwtSecret
    ensures secret != ""
  {
    match env
    case Some(s) => if s != "" then s else DefaultJwtSecret
    case None => DefaultJwtSecret
  }

  /** `bcrypt.hash(password, 12)`. */
  function HashPassword(crypto: Crypto, password: string): (hashed: string)
    ensures hashed == crypto.hash(password, 12)
  {
    crypto.hash(password, BcryptRounds)
  }

  /** `bcrypt.compare(password, hashedPassword)`, the plain password first. */
  function VerifyPassword(crypto: Crypto, password: string, hashed: string): (ok: bool)
    ensures ok == crypto.compare(password, hashed)
  {
    crypto.compare(password, hashed)
  }

  /** A token whose payload carries only the user id, signed to expire after seven days. */
  function CreateToken(crypto: Crypto, userId: string): (token: string)
    ensures token == crypto.sign(Claims(userId), JwtSecret(crypto.jwtSecretEnv), "7d")
  {
    crypto.sign(Claims(userId), JwtSecret(crypto.jwtSecretEnv), TokenExpiresIn)
  }

  /** Total: a token `verify` rejects yields None instead of an exception. */
  function VerifyToken(crypto: Crypto, token: string): (payload: Option<Claims>)
    ensures payload.None? <==> crypto.verify(token, JwtSecret(crypto.jwtSecretEnv)).Err?
    ensures payload.Some? ==> Ok(payload.value) == crypto.verify(token, JwtSecret(crypto.jwtSecretEnv))
  {
    match crypto.verify(token, JwtSecret(crypto.jwtSecretEnv))
    case Ok(claims) => Some(claims)
    case Err(_) => None
  }

  /** What the model assumes of jsonwebtoken: a token verifies, under its own secret, to the payload it was signed with. */
  ghost predicate JwtRoundTrips(crypto: Crypto)
  {
    forall claims: Claims, secret: string ::
      crypto.verify(crypto.sign(claims, secret, TokenExpiresIn), secret) == Ok(claims)
  }

  /** What the model assumes of bcryptjs: a password matches its own hash. */
  ghost predicate BcryptSound(crypto: Crypto)
  {
    forall password: string :: crypto.compare(password, crypto.hash(password, BcryptRounds))
  }

  lemma TokenRoundTrip(crypto: Crypto, userId: string)
    requires JwtRoundTrips(crypto)
    ensures VerifyToken(crypto, CreateToken(crypto, userId)) == Some(Claims(userId))
  {
    var secret := JwtSecret(crypto.jwtSecretEnv);
    assert crypto.verify(crypto.sign(Claims(userId), secret, TokenExpiresIn), secret) == Ok(Claims(userId));
  }

  lemma PasswordMatchesItsHash(crypto: Crypto, password: string)
    requires BcryptSound(crypto)
    ensures VerifyPassword(crypto, password, HashPassword(crypto, password))
  {
  }

  /** The options both `setAuthCookie` and the signup response use. */
  function AuthCookieOptions(production: bool): (o: CookieOptions)
    ensures o.httpOnly && o.sameSite == "lax" && o.secure == production
    ensures o.maxAge == 604800
  {
    CookieOptions(true, production, "lax", AuthCookieMaxAge)
  }

  /** `cookieStore.get('auth-token')?.value`. */
  function AuthToken(cookies: map<string, Cookie>): (token: Option<string>)
    ensures token.Some? <==> AuthCookieName in cookies
    ensures token.Some? ==> token.value == cookies[AuthCookieName].value
  {
    if AuthCookieName in cookies then Some(cookies[AuthCookieName].value) else None
  }

  /** `if (token)`: an absent cookie and an empty one are alike. */
  predicate HasToken(cookies: map<string, Cookie>)
  {
    AuthToken(cookies).Some? && AuthToken(cookies).value != ""
  }

  method SetAuthCookie(jar: CookieJar, token: string, production: bool) returns (thrown: Option<Exception>)
    modifies jar
    ensures jar.writable ==> thrown == None
    ensures jar.writable ==> jar.entries == old(jar.entries)[AuthCookieName := Cookie(token, AuthCookieOptions(production))]
    ensures jar.writable ==> GetAuthCookie(jar) == Some(token)
    ensures !jar.writable ==> thrown.Some? && jar.entries == old(jar.entries)
  {
    thrown := jar.Set(AuthCookieName, token, AuthCookieOptions(production));
  }

  function GetAuthCookie(jar: CookieJar): Option<string>
    reads jar
  {
    AuthToken(jar.entries)
  }

  method RemoveAuthCookie(jar: CookieJar) returns (thrown: Option<Exception>)
    modifies jar
    ensures jar.writable ==> thrown == None
    ensures jar.writable ==> jar.entries == old(jar.entries) - {AuthCookieName}
    ensures jar.writable ==> GetAuthCookie(jar) == None
    ensures !jar.writable ==> thrown.Some? && jar.entries == old(jar.entries)
  {
    thrown := jar.Delete(AuthCookieName);
  }
}
