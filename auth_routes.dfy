/** The auth router mounted at `/api/auth`: its own directory, its own error
  * body, `{ userId, email }` claims and its own fallback signing key. */
module AuthRoutes {
  import opened Options
  import opened Tokens
  import opened Accounts
  import opened Http

  const RouterUsers: seq<User> := [User(1, "test@example.com", "password123")]

  const RouterFallbackSecret := "your_jwt_secret_here"

  const RouterInvalidCredentials :=
    Response(401, ErrorDetail("Invalid credentials", "INVALID_CREDENTIALS"))

  function RouterKey(jwtSecret: Option<string>): string
  {
    KeyOrDefault(jwtSecret, RouterFallbackSecret)
  }

  /** `POST /api/auth/login` with body `{ email, password }` at instant `now`. */
  function RouterLogin(jwtSecret: Option<string>, email: Option<string>, password: Option<string>, now: nat): (r: Response)
    ensures r.status == 200 <==> exists u :: u in RouterUsers && Matches(u, email, password)
    ensures r.status != 200 ==> r == RouterInvalidCredentials
    ensures r.status == 200 ==>
      r == Response(200, TokenIssued(Sign(UserIdClaims(1, "test@example.com"), RouterKey(jwtSecret), now)))
  {
    match Find(RouterUsers, email, password)
    case None => RouterInvalidCredentials
    case Some(u) => Response(200, TokenIssued(Sign(UserIdClaims(u.id, u.email), RouterKey(jwtSecret), now)))
  }

  /** The one directory pair is accepted; the main server's password is not. */
  lemma RouterDirectory(jwtSecret: Option<string>, now: nat)
    ensures RouterLogin(jwtSecret, Some("test@example.com"), Some("password123"), now).status == 200
    ensures RouterLogin(jwtSecret, Some("test@example.com"), Some("testpassword123"), now) == RouterInvalidCredentials
  {
    assert Matches(RouterUsers[0], Some("test@example.com"), Some("password123"));
  }
}
