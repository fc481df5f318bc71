/** The collaborators of the route handlers that live outside them: the
    session token codec (`signToken`/`verifyToken` of `@/lib/auth`), the
    password hasher (bcrypt) and the cookie jar of the current request.
    The token codec and the hasher are stand-ins: a token records the claims
    it was signed with, the key that signed it and its expiry, and a hash is
    an arbitrary function of the password and a salt. */
module Auth {
  import opened Common

  /** The claims a session token binds: the user's id and email. */
  datatype Claims = Claims(userId: Id, email: string)

  /** The server's signing secret. */
  type Key = string

  /** A cookie value: either a token signed with some key, or any other
      text (malformed or tampered with). */
  datatype Token =
    | Signed(claims: Claims, expiresAt: int, signingKey: Key)
    | Opaque(text: string)

  /** A session lasts seven days, in seconds. */
  const TokenLifetime: int := 7 * 24 * 60 * 60

  /** `signToken`: a token for `c`, signed with `key` at time `now`. */
  function Sign(c: Claims, key: Key, now: int): Token
  {
    Signed(c, now + TokenLifetime, key)
  }

  /** `verifyToken`: the claims of a token signed with `key` that has not
      expired at `now`; nothing for any other token. */
  function Verify(t: Token, key: Key, now: int): Option<Claims>
  {
    match t
    case Signed(c, expiresAt, k) => if k == key && now < expiresAt then Some(c) else None
    case Opaque(_) => None
  }

  /** A token verifies to the claims it was signed with exactly while it has
      not expired. */
  lemma VerifySigned(c: Claims, key: Key, issuedAt: int, now: int)
    ensures Verify(Sign(c, key, issuedAt), key, now) ==
            if now < issuedAt + TokenLifetime then Some(c) else None
  {
  }

  /** A token signed with another key never verifies. */
  lemma ForeignTokenRejected(c: Claims, key: Key, other: Key, issuedAt: int, now: int)
    requires other != key
    ensures Verify(Sign(c, other, issuedAt), key, now) == None
  {
  }

  /** `cookieStore.get('authToken')?.value` is truthy: there is a cookie and
      its value is not the empty string. */
  predicate Present(cookie: Option<Token>)
  {
    cookie.Some? && cookie.value != Opaque("")
  }

  /** What the handlers learn from the `authToken` cookie. */
  datatype Session = NoToken | InvalidToken | Caller(claims: Claims)

  /** The authentication prefix every handler shares: no token, a token that
      fails verification, or the verified caller. */
  function Authenticate(cookie: Option<Token>, key: Key, now: int): (s: Session)
    ensures s.NoToken? <==> !Present(cookie)
    ensures s.InvalidToken? <==> Present(cookie) && Verify(cookie.value, key, now).None?
    ensures s.Caller? ==> Present(cookie) && Verify(cookie.value, key, now) == Some(s.claims)
  {
    if !Present(cookie) then NoToken
    else match Verify(cookie.value, key, now)
      case None => InvalidToken
      case Some(c) => Caller(c)
  }

  /** A cookie holding a freshly issued token authenticates its claims. */
  lemma FreshSession(c: Claims, key: Key, now: int)
    ensures Authenticate(Some(Sign(c, key, now)), key, now) == Caller(c)
  {
    VerifySigned(c, key, now, now);
  }

  /** The `userId` of the posts feed: set only by a verified token, and only
      when it is truthy. */
  function Viewer(s: Session): (v: Option<Id>)
    ensures v.Some? <==> s.Caller? && s.claims.userId != ""
    ensures v.Some? ==> v.value == s.claims.userId
  {
    if s.Caller? && s.claims.userId != "" then Some(s.claims.userId) else None
  }

  /** The one-way function of the hasher, keyed by a salt. */
  type HashFn = (string, nat) -> seq<int>

  /** A stored password hash: the salt it was made with and the digest. */
  datatype Digest = Digest(salt: nat, value: seq<int>)

  /** `bcrypt.hash`: the digest of `password` under a fresh `salt`. */
  function Hash(h: HashFn, password: string, salt: nat): Digest
  {
    Digest(salt, h(password, salt))
  }

  /** `bcrypt.compare`: re-hash `password` with the stored salt and compare. */
  predicate Compare(h: HashFn, password: string, d: Digest)
  {
    h(password, d.salt) == d.value
  }

  /** A password always matches its own hash. */
  lemma CompareOwnHash(h: HashFn, password: string, salt: nat)
    ensures Compare(h, password, Hash(h, password, salt))
  {
  }

  /** The server's context: the signing key, the hasher and the clock. */
  datatype Env = Env(secret: Key, hash: HashFn, now: int)

  /** The cookie jar of one request: the `authToken` cookie it arrived with,
      which a handler may set or delete. */
  class CookieJar {
    var authToken: Option<Token>

    constructor (incoming: Option<Token>)
      ensures authToken == incoming
    {
      authToken := incoming;
    }
  }
}
