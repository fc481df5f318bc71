/** `app/api/comments/route.js`: commenting on a post (POST). The comment is
    stored with the caller as its author, and returned without that author
    id, marked as the caller's own. */
module CommentsRoute {
  import opened Common
  import opened Auth
  import opened Database
  import opened Anonymity
  import opened Http

  const MissingFields := "Comment content and associated postId are required."
  const CommentFailed := "Internal server error while creating comment."
  const Posted := "Comment posted successfully."

  /** The `create` call succeeds only when both references resolve: the
      post commented on and the caller as a user. */
  predicate Insertable(users: seq<User>, posts: seq<Post>, postId: Id, authorId: Id)
  {
    postId in PostIds(posts) && authorId in UserIds(users)
  }

  method Create(store: Store, jar: CookieJar, env: Env, content: Option<string>, postId: Option<Id>)
    returns (r: Response)
    requires store.Valid()
    modifies store
    ensures store.Valid()
    ensures var s := Authenticate(jar.authToken, env.secret, env.now);
            var given := Given(content) && Given(postId);
      && (r.status == 401 <==> !s.Caller?)
      && (r.status == 401 ==> r.body == Failure(Unauthorized))
      && (r.status == 400 <==> s.Caller? && !given)
      && (r.status == 400 ==> r.body == Failure(MissingFields))
      && (r.status == 500 <==>
            s.Caller? && given && !Insertable(old(store.users), old(store.posts), postId.value, s.claims.userId))
      && (r.status == 500 ==> r.body == Failure(CommentFailed))
      && r.status in {401, 400, 500, 201}
      && (r.status != 201 ==> unchanged(store))
      && (r.status == 201 ==>
            && |store.comments| == |old(store.comments)| + 1
            && store.comments[..|old(store.comments)|] == old(store.comments)
            && var c := store.comments[|old(store.comments)|];
               && c == Comment(c.id, postId.value, s.claims.userId, content.value, env.now)
               && r == Response(201, CommentCreated(FeedComment(c.id, c.postId, c.content, c.createdAt, true), Posted))
               // the comment comes back exactly as the feed shows it to its author
               && r.body.comment == ProjectComment(StoredComment(c, None), Viewer(s), false))
    ensures store.users == old(store.users) && store.posts == old(store.posts)
    ensures store.reports == old(store.reports) && store.notifications == old(store.notifications)
  {
    var s := Authenticate(jar.authToken, env.secret, env.now);
    if !s.Caller? {
      return Response(401, Failure(Unauthorized));
    }
    if !(Given(content) && Given(postId)) {
      return Response(400, Failure(MissingFields));
    }
    if !Insertable(store.users, store.posts, postId.value, s.claims.userId) {
      return Response(500, Failure(CommentFailed));
    }
    var c := store.CreateComment(postId.value, s.claims.userId, content.value, env.now);
    r := Response(201, CommentCreated(FeedComment(c.id, c.postId, c.content, c.createdAt, true), Posted));
  }
}
