/** `app/api/auth/me/route.js`: the current user (GET). It always answers
    200: with the caller's profile, or with no user when there is no token,
    the token does not verify (the cookie is then deleted) or the user no
    longer exists. */
module MeRoute {
  import opened Common
  import opened Auth
  import opened Database
  import opened Http

  /** The user `id` with only its id, email and creation time, if it exists. */
  function ProfileOf(users: seq<User>, id: Id): (r: Option<Profile>)
    ensures r.Some? <==> id in UserIds(users)
    ensures r.Some? ==> exists u :: u in users && u.id == id && r.value == Profile(u.id, u.email, u.createdAt)
  {
    match UserById(users, id)
    case None => None
    case Some(u) => Some(Profile(u.id, u.email, u.createdAt))
  }

  method Me(store: Store, jar: CookieJar, env: Env) returns (r: Response)
    modifies jar
    ensures r.status == 200
    ensures var s := Authenticate(old(jar.authToken), env.secret, env.now);
      && (s.NoToken? ==> r.body == CurrentUser(None) && jar.authToken == old(jar.authToken))
      && (s.InvalidToken? ==> r.body == CurrentUser(None) && jar.authToken == None)
      && (s.Caller? ==>
            r.body == CurrentUser(ProfileOf(store.users, s.claims.userId)) && jar.authToken == old(jar.authToken))
  {
    var s := Authenticate(jar.authToken, env.secret, env.now);
    if s.NoToken? {
      return Response(200, CurrentUser(None));
    }
    if s.InvalidToken? {
      jar.authToken := None;
      return Response(200, CurrentUser(None));
    }
    r := Response(200, CurrentUser(ProfileOf(store.users, s.claims.userId)));
  }
}
